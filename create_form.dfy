/**
 * The rules of the new-ticket form (frontend/src/components/Createticket.js):
 * its initial and reset values, single-field edits, when the submit button
 * is enabled, and what a submit leaves behind.
 */
module CreateForm {
  import opened Wrappers
  import opened TicketModel
  import TicketController
  import ViewTickets

  datatype Form = Form(title: string, description: string, priority: string)

  /** The `name` attributes of the three inputs. */
  datatype FieldName = TitleField | DescriptionField | PriorityField

  /** The value the form holds for one input. */
  function Get(f: Form, name: FieldName): string {
    match name
    case TitleField => f.title
    case DescriptionField => f.description
    case PriorityField => f.priority
  }

  /** The initial `formData`, also the value it is reset to after a successful create. */
  function InitialForm(): (f: Form)
    ensures Get(f, TitleField) == "" && Get(f, DescriptionField) == ""
    ensures TicketModel.ParsePriority(Get(f, PriorityField)) == Some(TicketModel.DefaultPriority)
  {
    Form("", "", "Low")
  }

  /** `handleChange`: `{...formData, [name]: value}`. */
  function HandleChange(f: Form, name: FieldName, value: string): (r: Form)
    ensures Get(r, name) == value
    ensures forall other: FieldName :: other != name ==> Get(r, other) == Get(f, other)
  {
    match name
    case TitleField => f.(title := value)
    case DescriptionField => f.(description := value)
    case PriorityField => f.(priority := value)
  }

  /** Drops leading white space. */
  function TrimStart(s: string): (r: string)
    ensures |r| <= |s| && r == s[|s| - |r|..]
    ensures forall i :: 0 <= i < |s| - |r| ==> IsWhitespace(s[i])
    ensures r != [] ==> !IsWhitespace(r[0])
  {
    if s != [] && IsWhitespace(s[0]) then TrimStart(s[1..]) else s
  }

  /** Drops trailing white space. */
  function TrimEnd(s: string): (r: string)
    ensures |r| <= |s| && r == s[..|r|]
    ensures forall i :: |r| <= i < |s| ==> IsWhitespace(s[i])
    ensures r != [] ==> !IsWhitespace(r[|r| - 1])
  {
    if s != [] && IsWhitespace(s[|s| - 1]) then TrimEnd(s[..|s| - 1]) else s
  }

  /** `s.trim()`: empty exactly for a blank string, otherwise starting and ending with a visible character. */
  function Trim(s: string): (r: string)
    ensures |r| <= |s|
    ensures r == [] <==> Blank(s)
    ensures r != [] ==> !IsWhitespace(r[0]) && !IsWhitespace(r[|r| - 1])
  {
    TrimEnd(TrimStart(s))
  }

  /** The submit button's `disabled` test: a submit is running, or title or description is blank. */
  function SubmitDisabled(isSubmitting: bool, f: Form): (b: bool)
    ensures b <==> isSubmitting || Blank(f.title) || Blank(f.description)
  {
    isSubmitting || Trim(f.title) == "" || Trim(f.description) == ""
  }

  /** Submit is enabled exactly when no submit is running and title and description each hold a visible character. */
  lemma SubmitEnabledIff(isSubmitting: bool, f: Form)
    ensures !SubmitDisabled(isSubmitting, f) <==>
      && !isSubmitting
      && (exists i :: 0 <= i < |f.title| && !IsWhitespace(f.title[i]))
      && (exists i :: 0 <= i < |f.description| && !IsWhitespace(f.description[i]))
  {
  }

  /** The component's state around a submit. */
  datatype Page = Page(form: Form, isSubmitting: bool, showSuccess: bool)

  /**
   * `handleSubmit` after `createTicket(formData)` settles: a success resets
   * the form and shows the alert, a failure keeps what was typed; either
   * way the submitting flag ends false.
   */
  function FinishSubmit(p: Page, created: bool): (r: Page)
    ensures !r.isSubmitting
    ensures created ==> r.form == InitialForm() && r.showSuccess
    ensures !created ==> r.form == p.form && r.showSuccess == p.showSuccess
  {
    if created then Page(InitialForm(), false, true) else p.(isSubmitting := false)
  }

  /** `getPriorityColor` of the form's priority badge. */
  function PriorityColor(priority: string): (c: string)
    ensures c == "danger" <==> priority == "High"
    ensures c == "warning" <==> priority == "Medium"
    ensures c == "success" <==> priority != "High" && priority != "Medium"
  {
    match priority
    case "High" => "danger"
    case "Medium" => "warning"
    case _ => "success"
  }

  /** The form's badge and the list's badge give every priority the same colour. */
  lemma PriorityColorsAgree(priority: string)
    ensures PriorityColor(priority) == ViewTickets.PriorityColor(priority)
  {
  }

  /** The request body `createTicket(formData)` posts. */
  function RequestBody(f: Form): TicketController.Body {
    TicketController.Body(Some(f.title), Some(f.description), Some(f.priority), None)
  }

  /**
   * A form whose submit button is enabled, with a priority from the
   * select, never draws a 400 from the backend; with a title within the
   * column length it creates an Open ticket holding exactly what was typed.
   */
  lemma EnabledSubmitPassesBackendChecks(f: Form, id: TicketModel.TicketId, now: TicketModel.Timestamp)
    requires !SubmitDisabled(false, f)
    requires TicketModel.ParsePriority(f.priority).Some?
    ensures !TicketController.CreateTicket(RequestBody(f), id, now).BadRequest?
    ensures |f.title| <= TicketModel.MaxTitleLength ==>
      TicketController.CreateTicket(RequestBody(f), id, now) ==
        TicketController.Created(TicketModel.Ticket(id, f.title, f.description,
          TicketModel.ParsePriority(f.priority).value, TicketModel.Open, now, now))
  {
  }
}
