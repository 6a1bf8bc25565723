/**
 * The `Ticket` table of the backend: its fields, the two enumerations,
 * the column defaults and the validators the ORM runs before a row is
 * written (backend/src/models/tickets.models.js).
 */
module TicketModel {
  import opened Wrappers

  /** Primary key; generated as a UUID by the ORM, an abstract string here. */
  type TicketId = string

  /** `created_at` / `updated_at`; the wall clock is a parameter of the model. */
  type Timestamp = int

  datatype Priority = Low | Medium | High
  datatype Status = Open | InProgress | Closed

  const DefaultPriority: Priority := Low
  const DefaultStatus: Status := Open
  const MaxTitleLength: nat := 255

  /** The string the ENUM column stores for a priority. */
  function PriorityName(p: Priority): string {
    match p
    case Low => "Low"
    case Medium => "Medium"
    case High => "High"
  }

  /** The string the ENUM column stores for a status. */
  function StatusName(s: Status): string {
    match s
    case Open => "Open"
    case InProgress => "In Progress"
    case Closed => "Closed"
  }

  /** Membership in `['Low', 'Medium', 'High']`: the priority a string names, if any. */
  function ParsePriority(s: string): (r: Option<Priority>)
    ensures r.Some? ==> PriorityName(r.value) == s
    ensures forall p: Priority :: PriorityName(p) == s ==> r == Some(p)
  {
    if s == "Low" then Some(Low)
    else if s == "Medium" then Some(Medium)
    else if s == "High" then Some(High)
    else None
  }

  /** Membership in `['Open', 'In Progress', 'Closed']`: the status a string names, if any. */
  function ParseStatus(s: string): (r: Option<Status>)
    ensures r.Some? ==> StatusName(r.value) == s
    ensures forall st: Status :: StatusName(st) == s ==> r == Some(st)
  {
    if s == "Open" then Some(Open)
    else if s == "In Progress" then Some(InProgress)
    else if s == "Closed" then Some(Closed)
    else None
  }

  /** One row of the `tickets` table. */
  datatype Ticket = Ticket(
    id: TicketId,
    title: string,
    description: string,
    priority: Priority,
    status: Status,
    createdAt: Timestamp,
    updatedAt: Timestamp)

  /**
   * The characters JavaScript counts as white space (`\s` in a regular
   * expression, and what `String.prototype.trim` strips): white space and
   * line terminators.
   */
  predicate IsWhitespace(c: char) {
    var n := c as int;
    || 0x09 <= n <= 0x0D || n == 0x20 || n == 0xA0 || n == 0x1680
    || 0x2000 <= n <= 0x200A || n == 0x2028 || n == 0x2029 || n == 0x202F
    || n == 0x205F || n == 0x3000 || n == 0xFEFF
  }

  /** Every character is white space; the empty string is blank. */
  predicate Blank(s: string) {
    forall i :: 0 <= i < |s| ==> IsWhitespace(s[i])
  }

  /**
   * `allowNull: false`, `notEmpty`, `len: [1, 255]` on the title. The ORM's
   * `notEmpty` refuses a string made only of white space.
   */
  predicate ValidTitle(title: string): (b: bool)
    ensures b ==> 1 <= |title| <= MaxTitleLength
    ensures b ==> exists i :: 0 <= i < |title| && !IsWhitespace(title[i])
    ensures |title| > MaxTitleLength || Blank(title) ==> !b
  {
    |title| <= MaxTitleLength && !Blank(title)
  }

  /** `allowNull: false`, `notEmpty` on the description: some character is not white space. */
  predicate ValidDescription(description: string): (b: bool)
    ensures b ==> |description| >= 1
    ensures b <==> exists i :: 0 <= i < |description| && !IsWhitespace(description[i])
  {
    !Blank(description)
  }

  /** A row the ORM's validators accept; the enum columns hold an enum value by construction. */
  predicate WellFormed(t: Ticket): (b: bool)
    ensures b ==> 1 <= |t.title| <= MaxTitleLength && |t.description| >= 1
    ensures b ==> !Blank(t.title) && !Blank(t.description)
  {
    ValidTitle(t.title) && ValidDescription(t.description)
  }

  /**
   * `Ticket.create(...)`: the row with column defaults applied to the enum
   * fields left out and both timestamps set to `now`, or None when a
   * validator rejects the title or the description (the ORM then throws).
   */
  function Build(id: TicketId, title: string, description: string,
                 priority: Option<Priority>, status: Option<Status>, now: Timestamp): (r: Option<Ticket>)
    ensures r.Some? <==> ValidTitle(title) && ValidDescription(description)
    ensures r.Some? ==> WellFormed(r.value)
    ensures r.Some? ==> r.value.id == id && r.value.title == title && r.value.description == description
    ensures r.Some? ==> r.value.priority == (if priority.Some? then priority.value else DefaultPriority)
    ensures r.Some? ==> r.value.status == (if status.Some? then status.value else DefaultStatus)
    ensures r.Some? ==> r.value.createdAt == now && r.value.updatedAt == now
  {
    if ValidTitle(title) && ValidDescription(description) then
      Some(Ticket(id, title, description, priority.GetOr(DefaultPriority), status.GetOr(DefaultStatus), now, now))
    else
      None
  }

  /** Every enum value survives the trip through its column string. */
  lemma EnumNamesRoundTrip(p: Priority, s: Status)
    ensures ParsePriority(PriorityName(p)) == Some(p)
    ensures ParseStatus(StatusName(s)) == Some(s)
  {
  }
}
