/** Concrete runs of the lead form: inputs that `isValid` accepts and rejects,
    and the submit paths, derived from the contracts of the form. */
module Scenarios {
  import opened Wrappers
  import opened Text
  import opened EmailPattern
  import opened LeadForm
  import opened Language

  /** A name and an email typed into a fresh form, everything else left at
      its default. */
  function Typed(name: string, email: string): Form
  {
    SetField(SetField(InitialForm, FullName, name), Email, email)
  }

  /** The name "Somsak T" has no surrounding white space. */
  lemma SomsakNameIsStripped()
    ensures Trim("Somsak T") == "Somsak T"
  {
    var n := "Somsak T";
    assert SkipForward(n, 0) == 0 && SkipBackward(n, |n|) == |n|;
  }

  /** The email "somsak@example.com" has the required shape. */
  lemma SomsakEmailMatches()
    ensures EmailShape("somsak@example.com")
  {
    var e := "somsak@example.com";
    assert NoSpace(e);
    assert e[6] == '@' && e[14] == '.';
  }

  /** "Somsak T" with "somsak@example.com" passes the gate, and the record
      carries the default request type, `null` for every untouched optional
      field and `/` as the page when there is no location. */
  lemma SomsakIsSubmitted()
    ensures IsValid(Typed("Somsak T", "somsak@example.com"))
    ensures BuildPayload(Typed("Somsak T", "somsak@example.com"), None) ==
      LeadPayload("Somsak T", "somsak@example.com", None, None, None, "join_early_access", None, "/")
  {
    var f := Typed("Somsak T", "somsak@example.com");
    assert f == Form("Somsak T", "somsak@example.com", "", "", "", JoinEarlyAccess, "");
    SomsakNameIsStripped();
    SomsakEmailMatches();
    ValidPayload(f, None);
  }

  /** An empty name with the email "bad" is stopped by the gate. */
  lemma EmptyNameBadEmailIsRejected()
    ensures !IsValid(Typed("", "bad"))
  {
  }

  /** A fresh or reset form does not pass the gate: its name is empty. */
  lemma InitialFormIsRejected()
    ensures !IsValid(InitialForm)
  {
    assert Trim(InitialForm.fullName) == [];
  }

  /** `\S` also matches `@` and `.`, so `isValid`'s regular expression accepts
      a stored email with two `@` signs. */
  lemma SecondAtIsAccepted()
    ensures MatchesRegex("a@b@c.d")
  {
    var s := "a@b@c.d";
    assert s[1] == '@' && s[5] == '.';
    assert NonSpaceRun(s[..1]) && NonSpaceRun(s[2..5]) && NonSpaceRun(s[6..]);
  }

  /** `isValid` matches the stored email without trimming it: a stored email
      that ends in a space fails, although the record would have trimmed it. */
  lemma TrailingSpaceIsRejected()
    ensures !MatchesRegex("a@b.c ")
  {
    var s := "a@b.c ";
    EmailShapeIffRegex(s);
    assert !NoSpace(s) by { assert s[5] == ' '; }
  }

  /** A client of the form: a valid lead whose insert fails keeps everything
      typed, and sending it again inserts the same record and clears the form.
      The page is switched to Thai while the first insert is outstanding; the
      failure message stays in English, the language of that submit, and the
      second submit's message is in Thai. */
  method RetryAfterServiceError()
  {
    var page := new LanguageState();
    var lf := new LeadFormState();
    lf.OnChange(FullName, "Somsak T");
    lf.OnChange(Email, "somsak@example.com");
    var typed := lf.form;
    assert typed == Typed("Somsak T", "somsak@example.com");
    SomsakIsSubmitted();

    var submitLang := page.language;
    var request := lf.BeginSubmit(None, submitLang);
    assert request.Some? && lf.loading && lf.msg == None;
    page.ToggleLanguage();
    lf.CompleteSubmit(Rejected, submitLang);
    assert !lf.loading && lf.msg == Some(Msg(Err, Failure, En)) && page.language == Th;
    assert lf.form == typed;

    var again := lf.Submit(None, page.language, Inserted);
    assert again == request;
    assert lf.form == InitialForm && !lf.loading && lf.msg == Some(Msg(Ok, Success, Th));
  }

  /** A client of the form: submitting an untouched form issues no insert and
      shows the invalid-input message. */
  method SubmitUntouchedForm()
  {
    var lf := new LeadFormState();
    InitialFormIsRejected();
    var request := lf.Submit(Some("/"), En, Inserted);
    assert request == None && lf.msg == Some(Msg(Err, Invalid, En));
    assert lf.form == InitialForm && !lf.loading;
  }
}
