/** The lead-capture form: its seven fields, the single-field edit, the
    validation gate, the record sent to the `muafin_leads` table and the
    submit state machine over the component state `form`, `loading`, `msg`. */
module LeadForm {
  import opened Wrappers
  import opened Text
  import opened EmailPattern
  import opened Language

  /** The form state; every field holds the text of its input control.
      `requestType` is the value of the request select. */
  datatype Form = Form(
    fullName: string,
    email: string,
    phone: string,
    businessName: string,
    businessType: string,
    requestType: string,
    message: string)

  /** The `name` attributes of the form's controls. */
  datatype FieldName = FullName | Email | Phone | BusinessName | BusinessType | RequestType | Message

  /** The default request type, selected initially and after a reset. */
  const JoinEarlyAccess: string := "join_early_access"

  /** The state of a fresh form, and of a form reset after a successful insert. */
  const InitialForm: Form := Form("", "", "", "", "", JoinEarlyAccess, "")

  /** The value of the control called `name`. */
  function Get(f: Form, name: FieldName): string
  {
    match name
    case FullName => f.fullName
    case Email => f.email
    case Phone => f.phone
    case BusinessName => f.businessName
    case BusinessType => f.businessType
    case RequestType => f.requestType
    case Message => f.message
  }

  /** The form after the control called `name` reports `value`: that field
      reads `value` and every other field reads what it read before. */
  function SetField(f: Form, name: FieldName, value: string): (g: Form)
    ensures Get(g, name) == value
    ensures forall other: FieldName :: other != name ==> Get(g, other) == Get(f, other)
  {
    match name
    case FullName => f.(fullName := value)
    case Email => f.(email := value)
    case Phone => f.(phone := value)
    case BusinessName => f.(businessName := value)
    case BusinessType => f.(businessType := value)
    case RequestType => f.(requestType := value)
    case Message => f.(message := value)
  }

  /** Two forms that agree on every control are the same form. */
  lemma FormExtensionality(f: Form, g: Form)
    requires forall name: FieldName :: Get(f, name) == Get(g, name)
    ensures f == g
  {
    assert Get(f, FullName) == Get(g, FullName) && Get(f, Email) == Get(g, Email);
    assert Get(f, Phone) == Get(g, Phone) && Get(f, BusinessName) == Get(g, BusinessName);
    assert Get(f, BusinessType) == Get(g, BusinessType) && Get(f, RequestType) == Get(g, RequestType);
    assert Get(f, Message) == Get(g, Message);
  }

  /** Writing back the value a control already holds leaves the form as it was. */
  lemma SetFieldUnchanged(f: Form, name: FieldName)
    ensures SetField(f, name, Get(f, name)) == f
  {
    FormExtensionality(SetField(f, name, Get(f, name)), f);
  }

  /** The validation gate: the trimmed full name is non-empty and the email,
      untrimmed, matches `^\S+@\S+\.\S+$`. */
  predicate IsValid(f: Form)
  {
    Trim(f.fullName) != [] && EmailShape(f.email)
  }

  /** The gate passes exactly when the full name has a character that is not
      white space and the email is in the language of the regular expression. */
  lemma IsValidIff(f: Form)
    ensures IsValid(f) <==> !AllSpace(f.fullName) && MatchesRegex(f.email)
  {
    TrimEmptyIff(f.fullName);
    EmailShapeIffRegex(f.email);
  }

  /** The record inserted into `muafin_leads`; `None` is the `null` column value. */
  datatype LeadPayload = LeadPayload(
    fullName: string,
    email: string,
    phone: Option<string>,
    businessName: Option<string>,
    businessType: Option<string>,
    requestType: string,
    message: Option<string>,
    sourcePage: string)

  /** JavaScript's `s || null` on a string: the empty string is falsy. */
  function OrNull(s: string): (r: Option<string>)
    ensures r.None? <==> s == []
    ensures r.Some? ==> r.value == s
  {
    if s == [] then None else Some(s)
  }

  /** A trimmed optional text field: `null` exactly when the input is blank,
      and otherwise the input without its surrounding white space. */
  function TrimOrNull(s: string): (r: Option<string>)
    ensures r.None? <==> AllSpace(s)
    ensures r.Some? ==> r.value != [] && Stripped(r.value) && r.value == Trim(s)
  {
    TrimEmptyIff(s);
    OrNull(Trim(s))
  }

  /** The record built from the form at submit time. `path` is the page path of
      the browser location, `None` where there is no window. Name and email are
      trimmed; phone, business name and message are trimmed and blank ones
      become `null`; the business type is taken untrimmed and only the empty
      choice becomes `null`; the request type is copied; the source page falls
      back to `/`. */
  function BuildPayload(f: Form, path: Option<string>): (p: LeadPayload)
    ensures p.fullName == Trim(f.fullName) && p.email == Trim(f.email)
    ensures p.phone.None? <==> AllSpace(f.phone)
    ensures p.phone.Some? ==> p.phone.value == Trim(f.phone)
    ensures p.businessName.None? <==> AllSpace(f.businessName)
    ensures p.businessName.Some? ==> p.businessName.value == Trim(f.businessName)
    ensures p.message.None? <==> AllSpace(f.message)
    ensures p.message.Some? ==> p.message.value == Trim(f.message)
    ensures p.businessType.None? <==> f.businessType == []
    ensures p.businessType.Some? ==> p.businessType.value == f.businessType
    ensures p.requestType == f.requestType
    ensures p.sourcePage == (if path.Some? then path.value else "/")
  {
    LeadPayload(
      Trim(f.fullName),
      Trim(f.email),
      TrimOrNull(f.phone),
      TrimOrNull(f.businessName),
      OrNull(f.businessType),
      f.requestType,
      TrimOrNull(f.message),
      match path case Some(p) => p case None => "/")
  }

  /** The full name, email, phone, business name and message of a record carry
      no surrounding white space, and no optional field holds an empty string. */
  lemma PayloadTextIsStripped(f: Form, path: Option<string>)
    ensures var p := BuildPayload(f, path);
      Stripped(p.fullName) && Stripped(p.email) &&
      (p.phone.Some? ==> p.phone.value != [] && Stripped(p.phone.value)) &&
      (p.businessName.Some? ==> p.businessName.value != [] && Stripped(p.businessName.value)) &&
      (p.message.Some? ==> p.message.value != [] && Stripped(p.message.value)) &&
      (p.businessType.Some? ==> p.businessType.value != [])
  {
  }

  /** For a form that passes the gate, the record's name is non-empty and its
      email is exactly the email that was typed. */
  lemma ValidPayload(f: Form, path: Option<string>)
    requires IsValid(f)
    ensures BuildPayload(f, path).fullName != []
    ensures BuildPayload(f, path).email == f.email
  {
    MatchingEmailIsTrimmed(f.email);
  }

  /** The two kinds of status message the form shows. */
  datatype MsgKind = Ok | Err

  /** Which text of the form's label table a status message shows. */
  datatype Notice = Invalid | Success | Failure

  /** The status message `{ type, text }` shown above the form. Its text is the
      label `text` of the form's label table in the language `lang` that was
      active when the submit ran; it keeps that language after a later toggle. */
  datatype Msg = Msg(kind: MsgKind, text: Notice, lang: Lang)

  /** The outcome of the remote insert: acknowledged, or an error reported by
      the service or thrown by the client. */
  datatype InsertOutcome = Inserted | Rejected

  /** The component state of the lead form. */
  class LeadFormState {
    var form: Form
    var loading: bool
    var msg: Option<Msg>

    /** The initial state: an empty form with the default request type, not
        submitting, no message. */
    constructor ()
      ensures form == InitialForm && !loading && msg == None
    {
      form := InitialForm;
      loading := false;
      msg := None;
    }

    /** `onChange`: the control called `name` reports `value`; only that field
        of the form changes. */
    method OnChange(name: FieldName, value: string)
      modifies this
      ensures form == SetField(old(form), name, value)
      ensures loading == old(loading) && msg == old(msg)
    {
      form := SetField(form, name, value);
    }

    /** The part of `onSubmit` before the insert is awaited. The message is
        cleared; a form that fails the gate gets the invalid-input error and no
        record (no insert is issued, form and `loading` stay as they were);
        otherwise `loading` is set and the record to insert is returned.
        `lang` is the language of the render whose `onSubmit` runs. */
    method BeginSubmit(path: Option<string>, lang: Lang) returns (request: Option<LeadPayload>)
      modifies this
      ensures form == old(form)
      ensures request.Some? <==> IsValid(old(form))
      ensures !IsValid(old(form)) ==> msg == Some(Msg(Err, Invalid, lang)) && loading == old(loading)
      ensures IsValid(old(form)) ==> request == Some(BuildPayload(old(form), path)) && loading && msg == None
    {
      msg := None;
      if !IsValid(form) {
        msg := Some(Msg(Err, Invalid, lang));
        request := None;
        return;
      }
      loading := true;
      request := Some(BuildPayload(form, path));
    }

    /** The part of `onSubmit` after the insert answers. On success the success
        message is shown and the form is reset; on an error the failure message
        is shown and the form is kept. In both cases `loading` ends false.
        `lang` is the language captured by the same `onSubmit` call, whatever
        the page shows by the time the insert answers. */
    method CompleteSubmit(outcome: InsertOutcome, lang: Lang)
      modifies this
      ensures !loading
      ensures outcome == Inserted ==> msg == Some(Msg(Ok, Success, lang)) && form == InitialForm
      ensures outcome == Rejected ==> msg == Some(Msg(Err, Failure, lang)) && form == old(form)
    {
      if outcome == Inserted {
        msg := Some(Msg(Ok, Success, lang));
        form := InitialForm;
      } else {
        msg := Some(Msg(Err, Failure, lang));
      }
      loading := false;
    }

    /** `onSubmit` with nothing happening while the insert is outstanding:
        `request` is the one record inserted, if any, and `outcome` is what the
        service answers to it; `lang` is the language of the submit. */
    method Submit(path: Option<string>, lang: Lang, outcome: InsertOutcome) returns (request: Option<LeadPayload>)
      modifies this
      ensures request.Some? <==> IsValid(old(form))
      ensures request.Some? ==> request.value == BuildPayload(old(form), path)
      ensures !IsValid(old(form)) ==>
        msg == Some(Msg(Err, Invalid, lang)) && form == old(form) && loading == old(loading)
      ensures IsValid(old(form)) && outcome == Inserted ==>
        msg == Some(Msg(Ok, Success, lang)) && form == InitialForm && !loading
      ensures IsValid(old(form)) && outcome == Rejected ==>
        msg == Some(Msg(Err, Failure, lang)) && form == old(form) && !loading
    {
      request := BeginSubmit(path, lang);
      if request.Some? {
        CompleteSubmit(outcome, lang);
      }
    }
  }
}
