/**
 * The display rules of the ticket list (frontend/src/components/Viewticket.js):
 * badge colours, the status filter, the per-status counts on the filter
 * tabs and the one-button status step in each card's footer.
 */
module ViewTickets {
  import opened Wrappers
  import TicketModel
  import TicketController
  import opened TicketContext

  /** `getPriorityColor`: High is danger, Medium warning, anything else success. */
  function PriorityColor(priority: string): (c: string)
    ensures c == "danger" <==> priority == "High"
    ensures c == "warning" <==> priority == "Medium"
    ensures c == "success" <==> priority != "High" && priority != "Medium"
  {
    match priority
    case "High" => "danger"
    case "Medium" => "warning"
    case _ => "success"
  }

  /** `getStatusColor`: one colour per status, secondary for anything outside the enum. */
  function StatusColor(status: string): (c: string)
    ensures c == "secondary" <==> TicketModel.ParseStatus(status).None?
    ensures status == "Open" ==> c == "primary"
    ensures status == "In Progress" ==> c == "warning"
    ensures status == "Closed" ==> c == "success"
  {
    match status
    case "Open" => "primary"
    case "In Progress" => "warning"
    case "Closed" => "success"
    case _ => "secondary"
  }

  /** The three statuses get three different badge colours, and so do the three priorities. */
  lemma ColoursDistinguishEnumValues(a: TicketModel.Status, b: TicketModel.Status,
                                     p: TicketModel.Priority, q: TicketModel.Priority)
    ensures StatusColor(TicketModel.StatusName(a)) == StatusColor(TicketModel.StatusName(b)) ==> a == b
    ensures PriorityColor(TicketModel.PriorityName(p)) == PriorityColor(TicketModel.PriorityName(q)) ==> p == q
  {
  }

  /** `String.prototype.toLowerCase` on one character, for the ASCII letters. */
  function LowerChar(c: char): char {
    if 'A' <= c <= 'Z' then (c as int - 'A' as int + 'a' as int) as char else c
  }

  /**
   * `toLowerCase` on a string: no ASCII capital is left, each capital
   * becomes its small letter, and every other character is kept.
   */
  function Lower(s: string): (r: string)
    ensures |r| == |s|
    ensures forall i :: 0 <= i < |r| ==> !('A' <= r[i] <= 'Z')
    ensures forall i :: 0 <= i < |s| && !('A' <= s[i] <= 'Z') ==> r[i] == s[i]
    ensures forall i :: 0 <= i < |s| && 'A' <= s[i] <= 'Z' ==> r[i] as int == s[i] as int + 32
  {
    seq(|s|, i requires 0 <= i < |s| => LowerChar(s[i]))
  }

  /** `s.replace(from, to)` with a one-character string pattern: only the first occurrence is replaced. */
  function ReplaceFirst(s: string, from: char, to: char): (r: string)
    ensures |r| == |s|
    ensures forall i :: 0 <= i < |s| ==> r[i] == (if s[i] == from && from !in s[..i] then to else s[i])
  {
    if s == [] then []
    else if s[0] == from then [to] + s[1..]
    else
      var rest := ReplaceFirst(s[1..], from, to);
      assert forall i :: 1 <= i <= |s| ==> s[..i] == [s[0]] + s[1..][..i - 1];
      [s[0]] + rest
  }

  /** Lower-casing a second time changes nothing. */
  lemma LowerIdempotent(s: string)
    ensures Lower(Lower(s)) == Lower(s)
  {
  }

  /**
   * `status.toLowerCase().replace(' ', '_')`: the tab key a status is
   * filtered under; each enum status string lands on its own tab's key.
   */
  function StatusKey(status: string): (r: string)
    ensures |r| == |status|
    ensures TicketModel.ParseStatus(status).Some? ==> r == TabKey(TicketModel.ParseStatus(status).value)
  {
    ReplaceFirst(Lower(status), ' ', '_')
  }

  /** The tab key of each enum status, as listed on the filter tabs. */
  function TabKey(s: TicketModel.Status): string {
    match s
    case Open => "open"
    case InProgress => "in_progress"
    case Closed => "closed"
  }

  const AllKey := "all"

  /** Each status string of the enum is filtered under its own tab, and only there. */
  lemma StatusKeyOfEnum(st: TicketModel.Status)
    ensures StatusKey(TicketModel.StatusName(st)) == TabKey(st)
  {
  }

  /**
   * Whether the list shows a ticket under the current filter: always under
   * "all", and a ticket with an enum status exactly under its own tab.
   */
  predicate Shows(filter: string, t: TicketRecord): (b: bool)
    ensures filter == AllKey ==> b
    ensures TicketModel.ParseStatus(t.status).Some? ==>
      (b <==> filter == AllKey || filter == TabKey(TicketModel.ParseStatus(t.status).value))
  {
    filter == AllKey || StatusKey(t.status) == filter
  }

  /** `tickets.filter(...)` with the current filter. */
  function Filtered(s: seq<TicketRecord>, filter: string): (r: seq<TicketRecord>)
    ensures |r| <= |s|
    ensures forall t :: t in r <==> t in s && Shows(filter, t)
    ensures filter == AllKey ==> r == s
  {
    if s == [] then []
    else if Shows(filter, s[0]) then [s[0]] + Filtered(s[1..], filter)
    else Filtered(s[1..], filter)
  }

  /** `r` is `s` with some elements dropped and the rest kept in order (greedy matching decides it). */
  ghost predicate IsSubsequence(r: seq<TicketRecord>, s: seq<TicketRecord>)
    decreases |s|
  {
    if r == [] then true
    else if s == [] then false
    else if r[0] == s[0] then IsSubsequence(r[1..], s[1..])
    else IsSubsequence(r, s[1..])
  }

  /** Any filter shows an order-preserving selection of the tickets. */
  lemma {:induction false} FilteredIsSubsequence(s: seq<TicketRecord>, filter: string)
    ensures IsSubsequence(Filtered(s, filter), s)
  {
    if s != [] {
      FilteredIsSubsequence(s[1..], filter);
      var r := Filtered(s, filter);
      if !Shows(filter, s[0]) && r != [] {
        assert r[0] in r;
      }
    }
  }

  /** `tickets.filter(t => t.status === status).length`. */
  function CountStatus(s: seq<TicketRecord>, status: string): (n: nat)
    ensures n <= |s|
    ensures n == 0 <==> forall t :: t in s ==> t.status != status
  {
    if s == [] then 0
    else (if s[0].status == status then 1 else 0) + CountStatus(s[1..], status)
  }

  /** `ticketCounts`: the numbers on the four filter tabs. */
  datatype Counts = Counts(all: nat, open: nat, inProgress: nat, closed: nat)

  function TicketCounts(s: seq<TicketRecord>): (c: Counts)
    ensures c.all == |s|
    ensures c.open <= c.all && c.inProgress <= c.all && c.closed <= c.all
  {
    Counts(|s|, CountStatus(s, "Open"), CountStatus(s, "In Progress"), CountStatus(s, "Closed"))
  }

  /** Every status is one of the enum's strings, as for tickets the backend sent. */
  ghost predicate StatusesInEnum(s: seq<TicketRecord>) {
    forall t :: t in s ==> TicketModel.ParseStatus(t.status).Some?
  }

  /** Tickets received from the backend carry enum statuses. */
  lemma ServerTicketsInEnum(ts: seq<TicketModel.Ticket>, s: seq<TicketRecord>)
    requires |s| == |ts| && forall i :: 0 <= i < |s| ==> s[i] == FromServer(ts[i])
    ensures StatusesInEnum(s)
  {
  }

  /** With enum statuses, the number on each status tab is the number of tickets that tab lists. */
  lemma TabCountsMatchFilters(s: seq<TicketRecord>)
    requires StatusesInEnum(s)
    ensures TicketCounts(s).open == |Filtered(s, "open")|
    ensures TicketCounts(s).inProgress == |Filtered(s, "in_progress")|
    ensures TicketCounts(s).closed == |Filtered(s, "closed")|
  {
    CountMatchesFilter(s, TicketModel.Open);
    CountMatchesFilter(s, TicketModel.InProgress);
    CountMatchesFilter(s, TicketModel.Closed);
  }

  /** With enum statuses, the open, in-progress and closed tabs add up to the all tab. */
  lemma {:induction false} CountsPartition(s: seq<TicketRecord>)
    requires StatusesInEnum(s)
    ensures TicketCounts(s).open + TicketCounts(s).inProgress + TicketCounts(s).closed == TicketCounts(s).all
  {
    if s != [] {
      assert s[0] in s;
      assert StatusesInEnum(s[1..]) by {
        forall t | t in s[1..] ensures TicketModel.ParseStatus(t.status).Some? {
          assert t in s;
        }
      }
      CountsPartition(s[1..]);
    }
  }

  /** With enum statuses, each tab's count is the length of the list that tab shows. */
  lemma {:induction false} CountMatchesFilter(s: seq<TicketRecord>, st: TicketModel.Status)
    requires StatusesInEnum(s)
    ensures CountStatus(s, TicketModel.StatusName(st)) == |Filtered(s, TabKey(st))|
  {
    if s != [] {
      assert s[0] in s;
      var st0 := TicketModel.ParseStatus(s[0].status).value;
      StatusKeyOfEnum(st0);
      assert StatusesInEnum(s[1..]) by {
        forall t | t in s[1..] ensures TicketModel.ParseStatus(t.status).Some? {
          assert t in s;
        }
      }
      CountMatchesFilter(s[1..], st);
    }
  }

  /**
   * The footer button of a card: Start (Open to In Progress), Close
   * (In Progress to Closed) or Reopen (Closed to Open); no button for any
   * other status.
   */
  function NextStatus(status: string): (r: Option<string>)
    ensures r.Some? <==> TicketModel.ParseStatus(status).Some?
    ensures r.Some? ==> TicketModel.ParseStatus(r.value).Some? && r.value != status
    ensures status == "Open" ==> r == Some("In Progress")
    ensures status == "In Progress" ==> r == Some("Closed")
    ensures status == "Closed" ==> r == Some("Open")
  {
    match status
    case "Open" => Some("In Progress")
    case "In Progress" => Some("Closed")
    case "Closed" => Some("Open")
    case _ => None
  }

  /** Pressing the footer button three times brings a ticket back to the status it had. */
  lemma NextStatusCycles(status: string)
    requires TicketModel.ParseStatus(status).Some?
    ensures NextStatus(NextStatus(NextStatus(status).value).value).value == status
  {
  }

  /**
   * `handleStatusUpdate` sends `{status: next}` alone; the backend then
   * moves the status to the next one and changes no other field of the
   * row but `updated_at`.
   */
  lemma FooterUpdateMovesOnlyStatus(t: TicketModel.Ticket, now: TicketModel.Timestamp)
    ensures
      var next := NextStatus(TicketModel.StatusName(t.status)).value;
      var saved := TicketController.ApplyUpdate(t, TicketController.Body(None, None, None, Some(next)), now);
      && saved == t.(status := saved.status, updatedAt := now)
      && TicketModel.StatusName(saved.status) == next
      && saved.status != t.status
  {
  }
}
