/**
 * The client's ticket state and its reducer
 * (frontend/src/context/TicketContext.js). The reducer is a pure function
 * from a state and an action to a new state.
 */
module TicketContext {
  import opened Wrappers
  import TicketModel

  /** A ticket as the client holds it: the server's JSON, with the enums as their strings. */
  datatype TicketRecord = TicketRecord(
    id: string,
    title: string,
    description: string,
    priority: string,
    status: string,
    createdAt: int,
    updatedAt: int)

  /** The JSON the backend sends for a stored row. */
  function FromServer(t: TicketModel.Ticket): (r: TicketRecord)
    ensures r.id == t.id && r.title == t.title && r.description == t.description
    ensures TicketModel.ParsePriority(r.priority) == Some(t.priority)
    ensures TicketModel.ParseStatus(r.status) == Some(t.status)
  {
    TicketRecord(t.id, t.title, t.description, TicketModel.PriorityName(t.priority),
                 TicketModel.StatusName(t.status), t.createdAt, t.updatedAt)
  }

  /** The user object the login stub dispatches. */
  datatype User = User(name: string, email: string)

  datatype State = State(tickets: seq<TicketRecord>, loading: bool, error: Option<string>, user: Option<User>)

  /** The dispatched actions; `Unrecognised` stands for any other `type` string. */
  datatype Action =
    | SetLoading(loading: bool)
    | SetError(message: string)
    | SetTickets(tickets: seq<TicketRecord>)
    | AddTicket(ticket: TicketRecord)
    | UpdateTicket(ticket: TicketRecord)
    | Login(user: User)
    | Logout
    | Unrecognised

  /** `initialState`: no tickets, not loading, no error, nobody logged in. */
  function InitialState(): (s: State)
    ensures s.tickets == [] && !s.loading && s.error == None && s.user == None
  {
    State([], false, None, None)
  }

  /** `tickets.map(ticket => ticket.id === p.id ? p : ticket)`. */
  function ReplaceById(s: seq<TicketRecord>, p: TicketRecord): (r: seq<TicketRecord>)
    ensures |r| == |s|
    ensures forall i :: 0 <= i < |s| && s[i].id == p.id ==> r[i] == p
    ensures forall i :: 0 <= i < |s| && s[i].id != p.id ==> r[i] == s[i]
  {
    if s == [] then []
    else [if s[0].id == p.id then p else s[0]] + ReplaceById(s[1..], p)
  }

  /** `ticketReducer`. */
  function Reduce(s: State, a: Action): (r: State)
    ensures a.Unrecognised? ==> r == s
    ensures !(a.SetTickets? || a.AddTicket? || a.UpdateTicket?) ==> r.tickets == s.tickets
    ensures !(a.Login? || a.Logout?) ==> r.user == s.user
    ensures !(a.SetLoading? || a.SetError? || a.SetTickets?) ==> r.loading == s.loading
    ensures !(a.SetError? || a.SetTickets?) ==> r.error == s.error
    ensures a.SetLoading? ==> r.loading == a.loading
    ensures a.Login? ==> r.user == Some(a.user)
    ensures a.Logout? ==> r.user == None
    ensures a.UpdateTicket? ==> r.tickets == ReplaceById(s.tickets, a.ticket)
  {
    match a
    case SetLoading(loading) => s.(loading := loading)
    case SetError(message) => s.(error := Some(message), loading := false)
    case SetTickets(tickets) => s.(tickets := tickets, loading := false, error := None)
    case AddTicket(t) => s.(tickets := [t] + s.tickets)
    case UpdateTicket(t) => s.(tickets := ReplaceById(s.tickets, t))
    case Login(user) => s.(user := Some(user))
    case Logout => s.(user := None)
    case Unrecognised => s
  }

  /** ADD_TICKET puts the new ticket first and shifts the old list by one, in order. */
  lemma AddTicketPrepends(s: State, t: TicketRecord)
    ensures |Reduce(s, AddTicket(t)).tickets| == |s.tickets| + 1
    ensures Reduce(s, AddTicket(t)).tickets[0] == t
    ensures forall i :: 0 <= i < |s.tickets| ==> Reduce(s, AddTicket(t)).tickets[i + 1] == s.tickets[i]
  {
  }

  /** UPDATE_TICKET with an id not in the list leaves the list as it was. */
  lemma ReplaceAbsentId(s: seq<TicketRecord>, p: TicketRecord)
    requires forall i :: 0 <= i < |s| ==> s[i].id != p.id
    ensures ReplaceById(s, p) == s
  {
  }

  /** UPDATE_TICKET twice with the same payload is UPDATE_TICKET once. */
  lemma ReplaceIdempotent(s: seq<TicketRecord>, p: TicketRecord)
    ensures ReplaceById(ReplaceById(s, p), p) == ReplaceById(s, p)
  {
  }

  /** SET_TICKETS replaces the list and clears loading and error; user is kept. */
  lemma SetTicketsReplaces(s: State, ts: seq<TicketRecord>)
    ensures Reduce(s, SetTickets(ts)) == State(ts, false, None, s.user)
  {
  }

  /** SET_ERROR records the message and clears loading, keeping tickets and user. */
  lemma SetErrorKeepsTickets(s: State, message: string)
    ensures Reduce(s, SetError(message)) == State(s.tickets, false, Some(message), s.user)
  {
  }

  /** LOGIN then LOGOUT returns to the state before the login. */
  lemma LoginLogout(s: State, u: User)
    requires s.user == None
    ensures Reduce(Reduce(s, Login(u)), Logout) == s
  {
  }

  /**
   * `fetchTickets` dispatches SET_LOADING true and then SET_TICKETS or
   * SET_ERROR: either way it ends not loading, and a failure keeps the
   * tickets already shown.
   */
  lemma FetchEndsNotLoading(s: State, ts: seq<TicketRecord>, message: string)
    ensures Reduce(Reduce(s, SetLoading(true)), SetTickets(ts)) == State(ts, false, None, s.user)
    ensures Reduce(Reduce(s, SetLoading(true)), SetError(message)) == State(s.tickets, false, Some(message), s.user)
  {
  }
}
