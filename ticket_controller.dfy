/**
 * The three request handlers of the backend
 * (backend/src/controllers/ticketController.js) over a ticket table held
 * as a map from id to row. Fresh ids and the clock are parameters.
 */
module TicketController {
  import opened Wrappers
  import opened TicketModel

  /** A request-body field: None when absent or null, Some(s) when a string was sent. */
  type Field = Option<string>

  /** JavaScript truthiness of such a field: not undefined or null, and not the empty string. */
  predicate Truthy(f: Field): (b: bool)
    ensures b <==> f != None && f != Some("")
  {
    f.Some? && f.value != ""
  }

  /** `req.body`, restricted to the four fields the handlers read. */
  datatype Body = Body(title: Field, description: Field, priority: Field, status: Field)

  /** What a handler answers; the HTTP status code is given by `Code`. */
  datatype Response =
    | Created(ticket: Ticket)
    | Listed(tickets: seq<Ticket>, message: string)
    | Updated(ticket: Ticket)
    | BadRequest(error: string)
    | NotFound
    | InternalError

  function Code(r: Response): nat {
    match r
    case Created(_) => 201
    case Listed(_, _) => 200
    case Updated(_) => 200
    case BadRequest(_) => 400
    case NotFound => 404
    case InternalError => 500
  }

  const MissingFieldsError := "Title and description are required"
  const BadPriorityError := "Priority must be Low, Medium, or High"
  const NoTicketsMessage := "No tickets found"
  const FetchedMessage := "Ticket fetched successfully"

  /**
   * `createTicket`: the two 400 checks, then the insert of a row whose
   * priority is the supplied one or Low and whose status is always Open.
   * A title or description the ORM's validators refuse (too long, or
   * only white space) ends in the catch-all 500.
   */
  function CreateTicket(body: Body, id: TicketId, now: Timestamp): (r: Response)
    ensures r.BadRequest? || r.Created? || r.InternalError?
    ensures r.BadRequest? <==>
      !Truthy(body.title) || !Truthy(body.description) ||
      (Truthy(body.priority) && ParsePriority(body.priority.value).None?)
    ensures r.BadRequest? ==>
      r.error == (if !Truthy(body.title) || !Truthy(body.description) then MissingFieldsError else BadPriorityError)
    ensures r.InternalError? <==>
      !r.BadRequest? && !(ValidTitle(body.title.value) && ValidDescription(body.description.value))
    ensures !r.BadRequest? && |body.title.value| > MaxTitleLength ==> r.InternalError?
    ensures !r.BadRequest? && (Blank(body.title.value) || Blank(body.description.value)) ==> r.InternalError?
    ensures r.Created? ==>
      && WellFormed(r.ticket)
      && r.ticket.id == id
      && r.ticket.title == body.title.value
      && r.ticket.description == body.description.value
      && r.ticket.status == Open
      && r.ticket.priority == (if Truthy(body.priority) then ParsePriority(body.priority.value).value else Low)
      && r.ticket.createdAt == now && r.ticket.updatedAt == now
  {
    if !Truthy(body.title) || !Truthy(body.description) then
      BadRequest(MissingFieldsError)
    else if Truthy(body.priority) && ParsePriority(body.priority.value).None? then
      BadRequest(BadPriorityError)
    else
      var priority := if Truthy(body.priority) then body.priority.value else "Low";
      match Build(id, body.title.value, body.description.value, ParsePriority(priority), Some(Open), now)
      case Some(t) => Created(t)
      case None => InternalError
  }

  /** The body's `status` is never read on create: any value, or none, gives the same answer. */
  lemma CreateIgnoresStatus(body: Body, status: Field, id: TicketId, now: Timestamp)
    ensures CreateTicket(body.(status := status), id, now) == CreateTicket(body, id, now)
  {
  }

  /** The status `updateStatus` assigns: the supplied one when truthy and in the enum. */
  function SuppliedStatus(body: Body): (r: Option<Status>)
    ensures r.Some? <==> Truthy(body.status) && ParseStatus(body.status.value).Some?
    ensures r.Some? ==> StatusName(r.value) == body.status.value
  {
    if Truthy(body.status) then ParseStatus(body.status.value) else None
  }

  /** The priority `updateStatus` assigns: the supplied one when truthy and in the enum. */
  function SuppliedPriority(body: Body): (r: Option<Priority>)
    ensures r.Some? <==> Truthy(body.priority) && ParsePriority(body.priority.value).Some?
    ensures r.Some? ==> PriorityName(r.value) == body.priority.value
  {
    if Truthy(body.priority) then ParsePriority(body.priority.value) else None
  }

  /**
   * The row `updateStatus` saves: each of status, title, description and
   * priority is overwritten only when supplied, non-empty and (for the
   * enums) valid; `save` refreshes `updated_at`.
   */
  function ApplyUpdate(t: Ticket, body: Body, now: Timestamp): (r: Ticket)
    ensures r.id == t.id && r.createdAt == t.createdAt && r.updatedAt == now
    ensures r.status == SuppliedStatus(body).GetOr(t.status)
    ensures r.priority == SuppliedPriority(body).GetOr(t.priority)
    ensures r.title != t.title ==> Truthy(body.title) && r.title == body.title.value
    ensures r.description != t.description ==> Truthy(body.description) && r.description == body.description.value
    ensures Truthy(body.title) ==> r.title == body.title.value
    ensures Truthy(body.description) ==> r.description == body.description.value
  {
    var t1 := if SuppliedStatus(body).Some? then t.(status := SuppliedStatus(body).value) else t;
    var t2 := if Truthy(body.title) then t1.(title := body.title.value) else t1;
    var t3 := if Truthy(body.description) then t2.(description := body.description.value) else t2;
    var t4 := if SuppliedPriority(body).Some? then t3.(priority := SuppliedPriority(body).value) else t3;
    t4.(updatedAt := now)
  }

  /**
   * The assignments of `updateStatus` on the fetched row, one field at a
   * time, and the `updated_at` that `save` sets.
   */
  method AssignFields(fetched: Ticket, body: Body, now: Timestamp) returns (ticket: Ticket)
    ensures ticket == ApplyUpdate(fetched, body, now)
  {
    ticket := fetched;
    if Truthy(body.status) && ParseStatus(body.status.value).Some? {
      ticket := ticket.(status := ParseStatus(body.status.value).value);
    }
    if Truthy(body.title) {
      ticket := ticket.(title := body.title.value);
    }
    if Truthy(body.description) {
      ticket := ticket.(description := body.description.value);
    }
    if Truthy(body.priority) && ParsePriority(body.priority.value).Some? {
      ticket := ticket.(priority := ParsePriority(body.priority.value).value);
    }
    ticket := ticket.(updatedAt := now);
  }

  /** `created_at` descending: newest first. */
  ghost predicate NewestFirst(s: seq<Ticket>) {
    forall i, j :: 0 <= i < j < |s| ==> s[i].createdAt >= s[j].createdAt
  }

  /** `s` holds exactly the rows of `m`, each once. */
  ghost predicate IsListingOf(s: seq<Ticket>, m: map<TicketId, Ticket>) {
    && |s| == |m|
    && (forall t :: t in s ==> t.id in m && m[t.id] == t)
    && (forall k :: k in m ==> m[k] in s)
  }

  /** One step of the database's `ORDER BY created_at DESC`: put `t` before every row not newer than it. */
  function InsertNewestFirst(t: Ticket, s: seq<Ticket>): (r: seq<Ticket>)
    ensures |r| == |s| + 1
    ensures forall x :: x in r <==> x in s || x == t
    ensures NewestFirst(s) ==> NewestFirst(r)
  {
    if s == [] || t.createdAt >= s[0].createdAt then
      [t] + s
    else
      var rest := InsertNewestFirst(t, s[1..]);
      var r := [s[0]] + rest;
      assert NewestFirst(s) ==> NewestFirst(r) by {
        if NewestFirst(s) {
          forall i, j | 0 <= i < j < |r| ensures r[i].createdAt >= r[j].createdAt {
            if i == 0 {
              assert r[j] in rest;
              if r[j] != t {
                var k :| 0 <= k < |s[1..]| && s[1..][k] == r[j];
                assert s[k + 1] == r[j];
              }
            } else {
              assert r[i] == rest[i - 1] && r[j] == rest[j - 1];
            }
          }
        }
      }
      r
  }

  /** `s` holds the rows of `m` under the keys in `done`, and nothing else. */
  ghost predicate ListsExactly(s: seq<Ticket>, m: map<TicketId, Ticket>, done: set<TicketId>) {
    && (forall t :: t in s ==> t.id in done && t.id in m && m[t.id] == t)
    && (forall k :: k in done ==> k in m && m[k] in s)
  }

  /** Inserting the row of one more key keeps the listing exact. */
  lemma ListingStep(s: seq<Ticket>, m: map<TicketId, Ticket>, done: set<TicketId>, k: TicketId)
    requires ListsExactly(s, m, done) && k in m && m[k].id == k
    ensures ListsExactly(InsertNewestFirst(m[k], s), m, done + {k})
  {
  }

  /** A listing of every key, as long as the table, is a listing of the table. */
  lemma ListingComplete(s: seq<Ticket>, m: map<TicketId, Ticket>, done: set<TicketId>)
    requires ListsExactly(s, m, done) && done == m.Keys && |s| == |done|
    ensures IsListingOf(s, m)
  {
  }

  /** `Ticket.findAll({order: [['created_at', 'DESC']]})`: every row of the table, newest first. */
  method FindAllNewestFirst(m: map<TicketId, Ticket>) returns (listed: seq<Ticket>)
    requires forall k :: k in m ==> m[k].id == k
    ensures IsListingOf(listed, m) && NewestFirst(listed)
  {
    var rest := m.Keys;
    ghost var done: set<TicketId> := {};
    listed := [];
    while rest != {}
      invariant done + rest == m.Keys && done !! rest
      invariant NewestFirst(listed)
      invariant |listed| == |done|
      invariant ListsExactly(listed, m, done)
      decreases |rest|
    {
      var k :| k in rest;
      ListingStep(listed, m, done, k);
      listed := InsertNewestFirst(m[k], listed);
      assert |done + {k}| == |done| + 1;
      done := done + {k};
      rest := rest - {k};
    }
    ListingComplete(listed, m, done);
  }

  /** Rows are keyed by their own id and pass the ORM's validators. */
  ghost predicate RowsValid(m: map<TicketId, Ticket>) {
    forall k :: k in m ==> m[k].id == k && WellFormed(m[k])
  }

  /** Writing a well-formed row under its own id keeps the table valid. */
  lemma StoreStaysValid(m: map<TicketId, Ticket>, id: TicketId, t: Ticket)
    requires RowsValid(m)
    requires t.id == id && WellFormed(t)
    ensures RowsValid(m[id := t])
  {
  }

  /** The ticket table. */
  class TicketStore {
    var tickets: map<TicketId, Ticket>

    ghost predicate Valid()
      reads this
    {
      RowsValid(tickets)
    }

    constructor ()
      ensures Valid() && tickets == map[]
    {
      tickets := map[];
    }

    /**
     * POST /tickets. `id` is the freshly generated UUID, `now` the clock;
     * the row is inserted exactly when the answer is 201.
     */
    method Create(body: Body, id: TicketId, now: Timestamp) returns (r: Response)
      requires Valid() && id !in tickets
      modifies this
      ensures Valid()
      ensures r == CreateTicket(body, id, now)
      ensures tickets == if r.Created? then old(tickets)[id := r.ticket] else old(tickets)
    {
      r := CreateTicket(body, id, now);
      if r.Created? {
        tickets := tickets[id := r.ticket];
      }
    }

    /** GET /tickets: every row, newest first; an empty table is still a 200. */
    method List() returns (r: Response)
      requires Valid()
      ensures r.Listed?
      ensures IsListingOf(r.tickets, tickets) && NewestFirst(r.tickets)
      ensures r.message == if |tickets| == 0 then NoTicketsMessage else FetchedMessage
    {
      var listed := FindAllNewestFirst(tickets);
      r := Listed(listed, if |listed| == 0 then NoTicketsMessage else FetchedMessage);
    }

    /**
     * PUT /tickets/:id. Unknown id: 404 and no change. Otherwise the
     * conditional field assignments, then `save`, which fails (500, no
     * change) only when a supplied title or description is one the ORM's
     * validators refuse: a title over 255 characters, or only white space.
     */
    method Update(id: TicketId, body: Body, now: Timestamp) returns (r: Response)
      requires Valid()
      modifies this
      ensures Valid()
      ensures id !in old(tickets) ==> r == NotFound && tickets == old(tickets)
      ensures id in old(tickets) ==>
        var t := ApplyUpdate(old(tickets)[id], body, now);
        if WellFormed(t) then r == Updated(t) && tickets == old(tickets)[id := t]
        else r == InternalError && tickets == old(tickets)
      ensures tickets.Keys == old(tickets).Keys
      ensures forall k :: k in old(tickets) && k != id ==> tickets[k] == old(tickets)[k]
    {
      if id !in tickets {
        return NotFound;
      }
      var ticket := AssignFields(tickets[id], body, now);
      if !WellFormed(ticket) {
        return InternalError;
      }
      StoreStaysValid(tickets, id, ticket);
      tickets := tickets[id := ticket];
      r := Updated(ticket);
    }
  }

  /** Sending the same update body twice, at the same time, saves the same row as sending it once. */
  lemma UpdateIdempotent(t: Ticket, body: Body, now: Timestamp)
    ensures ApplyUpdate(ApplyUpdate(t, body, now), body, now) == ApplyUpdate(t, body, now)
  {
  }

  /**
   * An invalid status or priority is ignored, not rejected: that field
   * keeps its value while the other supplied fields are still applied.
   */
  lemma InvalidEnumIgnored(t: Ticket, body: Body, now: Timestamp)
    requires body.status.Some? && ParseStatus(body.status.value).None?
    requires body.priority.Some? && ParsePriority(body.priority.value).None?
    ensures ApplyUpdate(t, body, now).status == t.status
    ensures ApplyUpdate(t, body, now).priority == t.priority
    ensures Truthy(body.title) ==> ApplyUpdate(t, body, now).title == body.title.value
    ensures Truthy(body.description) ==> ApplyUpdate(t, body, now).description == body.description.value
  {
  }

  /** Absent or empty title and description leave those fields as they were. */
  lemma EmptyTextFieldsKept(t: Ticket, body: Body, now: Timestamp)
    requires !Truthy(body.title) && !Truthy(body.description)
    ensures ApplyUpdate(t, body, now).title == t.title
    ensures ApplyUpdate(t, body, now).description == t.description
  {
  }

  /**
   * The saved row stays valid unless a supplied title or description is
   * one the ORM's validators refuse (too long, or only white space); and
   * when the clock has not gone back past creation, `updated_at` is not
   * before `created_at`.
   */
  lemma UpdateKeepsWellFormed(t: Ticket, body: Body, now: Timestamp)
    requires WellFormed(t)
    ensures WellFormed(ApplyUpdate(t, body, now)) <==>
      && !(Truthy(body.title) && !ValidTitle(body.title.value))
      && !(Truthy(body.description) && !ValidDescription(body.description.value))
    ensures now >= t.createdAt ==> ApplyUpdate(t, body, now).updatedAt >= ApplyUpdate(t, body, now).createdAt
  {
  }

  /** In a listing, a ticket created strictly later comes strictly earlier. */
  lemma NewerListedFirst(s: seq<Ticket>, i: nat, j: nat)
    requires NewestFirst(s) && i < |s| && j < |s|
    requires s[i].createdAt > s[j].createdAt
    ensures i < j
  {
  }
}
