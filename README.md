# Muafin landing page: lead form and language switch

The Muafin landing page is a bilingual (English/Thai) marketing site. Almost
all of it is static copy. Its only behaviour beyond DOM plumbing is the
lead-capture form `LeadForm` and the page's language switch, both in
`src/App.tsx`. This
project models those two parts in Dafny and proves what they promise.

- `Text` (`text.dfy`): the ECMAScript white-space set. It is shared by
  `String.prototype.trim` and the regular-expression class `\s`, whose
  complement is `\S`. Also `trim` itself, given by what it cuts off and what it
  leaves.
- `EmailPattern` (`email_pattern.dfy`): the email check `^\S+@\S+\.\S+$`. It
  is defined twice and the two definitions are proved equal:
  - piece by piece, following the expression: three non-empty `\S` runs split
    by `@` and `.`;
  - on the whole string: no white space, an `@` after index 0, and a later `.`
    with at least one character between them and at least one after it.
- `LeadForm` (`lead_form.dfy`) models:
  - the seven form fields and `onChange` as a single-field update;
  - the validation gate `isValid`;
  - the record sent to the `muafin_leads` table;
  - the component state (`form`, `loading`, `msg`) as the class
    `LeadFormState`.

  `onSubmit` is split in two. `BeginSubmit` runs up to the awaited insert and
  returns the record to insert, if any. `CompleteSubmit` takes the insert's
  outcome. So `loading` can be observed while the insert is outstanding.
  `Submit` runs both halves with nothing in between. Both halves take the
  language of the render whose `onSubmit` ran, because the status message is
  built from that render's label table (`src/App.tsx:38-53`) and keeps that
  language after a later toggle.
- `Language` (`language.dfy`): the `en`/`th` toggle and the lookup of one side
  of a bilingual pair.
- `Scenarios` (`scenarios.dfy`): concrete runs of the lead form: inputs that
  `isValid` accepts and rejects, and two client methods that drive
  `LeadFormState`.
- `Wrappers` (`wrappers.dfy`): `Option`. `None` stands for a `null` column
  value and for a missing browser location.

Two details of the code are easy to miss:

- `isValid` matches `form.email` without trimming it (`src/App.tsx:72`). A
  stored email string `"a@b.c "` therefore fails validation
  (`Scenarios.TrailingSpaceIsRejected`), although the payload would trim it
  (`src/App.tsx:85`).
- `business_type` is not trimmed. It becomes `null` only when it is `""`
  (`src/App.tsx:88`). `phone`, `business_name` and `message` are trimmed, and
  become `null` when the trimmed text is empty (`src/App.tsx:86-87`,
  `src/App.tsx:90`).

## Model

| member | source | states |
|---|---|---|
| Text.IsSpace | src/App.tsx:72 | the characters matched by `\s` and removed by `trim`: the ECMAScript WhiteSpace and LineTerminator code points |
| Text.SkipForward | src/App.tsx:84 | the forward scan of `trim`: every character it passes is white space, and it stops at a non-white-space character or at the end |
| Text.SkipBackward | src/App.tsx:84 | the backward scan of `trim`: every character it passes is white space, and it stops after a non-white-space character or at the start |
| Text.Trim | src/App.tsx:84-90 | `trim()` returns a slice of the input; all that it cuts off on either side is white space; what remains neither starts nor ends with white space |
| Text.TrimEmptyIff | src/App.tsx:70-71 | `s.trim()` is empty (falsy) exactly when every character of `s` is white space |
| Text.TrimNoSpace | src/App.tsx:85 | trimming a string without white space returns it unchanged |
| EmailPattern.MatchesRegex | src/App.tsx:72 | `^\S+@\S+\.\S+$` read piece by piece: the string splits at an `@` and a later `.` into three non-empty runs without white space |
| EmailPattern.EmailShape | src/App.tsx:72 | the same language on the whole string: no white space, an `@` at index 1 or later, a later `.` with a character between them and a character after it |
| EmailPattern.EmailShapeIffRegex | src/App.tsx:72 | the regex split into `\S+`, `@`, `\S+`, `.`, `\S+` accepts exactly the strings that have no white space, an `@` at index 1 or later, and a later `.` with a character between them and a character after it |
| EmailPattern.MatchingEmailIsTrimmed | src/App.tsx:72 | an email that passes the check has no white space, so `email.trim()` in the payload equals the typed email |
| EmailPattern.MatchingEmailLength | src/App.tsx:72 | an accepted email has at least five characters and contains both `@` and `.` |
| LeadForm.InitialForm | src/App.tsx:55-63 | the initial and reset form: every text field empty and `request_type = "join_early_access"` (also `src/App.tsx:96-104`) |
| LeadForm.SetField | src/App.tsx:67-68 | `onChange`'s state update: the named field takes the new value and every other field keeps its value |
| LeadForm.SetFieldUnchanged | src/App.tsx:67-68 | writing back a field's current value leaves the form unchanged |
| LeadForm.IsValid | src/App.tsx:70-72 | `isValid`: the trimmed full name is non-empty and the untrimmed email has the shape of the regular expression |
| LeadForm.IsValidIff | src/App.tsx:70-72 | `isValid` holds exactly when the full name has a non-white-space character and the untrimmed email is in the language of `^\S+@\S+\.\S+$` |
| LeadForm.OrNull | src/App.tsx:88 | the falsy-to-`null` fallback on a string gives `null` exactly for `""` and otherwise the string itself |
| LeadForm.TrimOrNull | src/App.tsx:86 | trimming with the fallback to `null` gives `null` exactly when `s` is blank; otherwise it is the trimmed text, non-empty, with no surrounding white space |
| LeadForm.BuildPayload | src/App.tsx:83-92 | full name and email are trimmed. Phone, business name and message are `null` exactly when blank, and otherwise their trimmed text. Business type is `null` exactly when `""` and otherwise copied untrimmed. Request type is copied. Source page is the path, or `/` without one |
| LeadForm.PayloadTextIsStripped | src/App.tsx:84-90 | full name, email, phone, business name and message have no surrounding white space, and no optional field holds an empty string |
| LeadForm.ValidPayload | src/App.tsx:84-85 | for a form that passes validation, the record's full name is non-empty and its email is exactly the typed email |
| LeadForm.LeadFormState.constructor | src/App.tsx:55-65 | the form starts with every text field empty and `request_type = "join_early_access"`, with `loading` false and no message |
| LeadForm.LeadFormState.OnChange | src/App.tsx:67-68 | only the named field changes; `loading` and `msg` are untouched |
| LeadForm.LeadFormState.BeginSubmit | src/App.tsx:74-92 | an invalid form yields no insert and the `err`/invalid message in the submit's language, and `form` and `loading` stay unchanged. A valid form yields exactly one record, `BuildPayload` of the form, with `loading` true and the message cleared while the insert is outstanding |
| LeadForm.LeadFormState.CompleteSubmit | src/App.tsx:93-110 | on success: the `ok`/success message, and the form reset to the initial state. On error: the `err`/failure message, and every field kept. The message is in the language captured when the submit began, not the page's current one. `loading` is false afterwards on both paths |
| LeadForm.LeadFormState.Submit | src/App.tsx:74-111 | the whole `onSubmit`: a record is inserted exactly when the form is valid, and it is the normalised form; the final state is one of the three cases above |
| Language.Toggled | src/App.tsx:228-230 | the toggle always moves to the other locale |
| Language.ToggledTwice | src/App.tsx:228-230 | toggling twice is the identity |
| Language.GetText | src/App.tsx:365 | `getText` returns one side of the pair. When the sides differ, it returns the English side exactly when the locale is `en` |
| Language.GetTextToggled | src/App.tsx:365 | after a toggle the other side is shown, so the text changes exactly when the two sides differ |
| Language.LanguageState.constructor | src/App.tsx:204 | the page starts in English |
| Language.LanguageState.ToggleLanguage | src/App.tsx:228-230 | the language state becomes the other locale |
| Scenarios.SomsakIsSubmitted | src/App.tsx:70-92 | "Somsak T" / "somsak@example.com" passes validation. Its record has the default request type, `null` in every untouched optional field, and `/` as page |
| Scenarios.EmptyNameBadEmailIsRejected | src/App.tsx:70-72 | an empty name with email "bad" fails validation |
| Scenarios.InitialFormIsRejected | src/App.tsx:55-63 | a fresh or reset form fails validation |
| Scenarios.SecondAtIsAccepted | src/App.tsx:72 | `\S` also matches `@`, so `isValid`'s regular expression accepts the stored string "a@b@c.d" |
| Scenarios.TrailingSpaceIsRejected | src/App.tsx:72 | `isValid` matches the stored email untrimmed, so the stored string "a@b.c " is rejected |
| Scenarios.RetryAfterServiceError | src/App.tsx:74-111 | a client run: a valid lead whose insert fails keeps every field, and resubmitting it inserts the same record, then resets the form. A toggle to Thai while the first insert is outstanding leaves its failure message in English |
| Scenarios.SubmitUntouchedForm | src/App.tsx:74-80 | a client run: submitting the initial form issues no insert and shows the invalid-input message |

## Left out

- The Supabase client and the network insert (`src/App.tsx:24-27`, `src/App.tsx:93`). The insert's answer is the parameter `InsertOutcome` (`Inserted` or `Rejected`). A returned error and a thrown one both lead to the same `catch` branch, so they are one outcome. There are no retries or timeouts to model.
- `console.error` in the `catch` branch (`src/App.tsx:106`): it is diagnostic output only.
- `window.location.pathname` (`src/App.tsx:91`): the current path is the argument `path: Option<string>`. `None` means no `window`.
- `e.preventDefault()` (`src/App.tsx:75`): this is browser event plumbing.
- Browser constraint validation and email value sanitization (`src/App.tsx:114-141`): the model takes the stored `form` strings as given and lets `onSubmit` run on any of them. In the page, the email input (`type="email"`) strips newlines and leading and trailing ASCII white space from its value before `onChange` reads it. The form has no `novalidate`, so the browser blocks the submit event, before `onSubmit` runs, when the `required` name or email is empty or the email is outside the HTML email grammar (for example `"a@b@c.d"`). The model's `isValid` results for such strings describe `isValid` itself, not what a user can reach through the page.
- Message strings: in the model a message is its kind, a key (`Invalid`, `Success`, `Failure`) into the label table `t` (`src/App.tsx:38-53`), and the language of the submit that produced it. That determines the string shown, so the wording of the six labels is not modelled. The static `content` object (`src/App.tsx:232-363`) is constant copy and is left out too.
- `request_type` is a plain string, as `onChange` writes it (`e.target.value`). In the page, the select only offers `join_early_access` and `request_demo`. The model does not restrict edits to those two values.
- The `business_type` options (`src/App.tsx:165-168`) are arbitrary strings in the model.
- React rendering: the message box, the disabled submit button and its label, and all other markup (`src/App.tsx:113-199`, `src/App.tsx:367-739`).
- The scroll listener, `scrollToSection`, `scrollToTop` and the mobile menu (`src/App.tsx:205-226`): DOM plumbing.
- Async interleaving: only the states before and after the awaited insert are modelled. Edits made while the insert is outstanding are covered, because `OnChange` may be called between `BeginSubmit` and `CompleteSubmit`. Two submissions in flight at once are also possible in the model, since neither half of `onSubmit` requires a particular `loading` value. The model does not show how such events would interleave in React.
- Lone surrogates: JavaScript strings are UTF-16 code units, and Dafny characters are Unicode scalar values. Lone surrogates cannot occur in the model. They are never white space, so the set of white-space characters is the same.
