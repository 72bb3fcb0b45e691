/** What the forms share: the field rules the form library checks before a submit handler
    runs (required first, then length, then pattern, then the custom check), the e-mail
    pattern, the fallback chain of a failed request's message, and the field errors a
    failed request sets. */
module FormRules {
  import opened Wrappers
  import opened JsStrings

  /** The outcome of one field's rules: accepted, or the first failing rule's message. */
  datatype Check = Ok | Bad(message: string)

  /** `required` followed by `minLength`, on the raw text, whose length is counted in
      UTF-16 code units as JavaScript counts it. */
  function LengthRule(value: string, requiredMessage: string, minLength: nat, minMessage: string): (c: Check)
    ensures c.Ok? <==> value != "" && Utf16Length(value) >= minLength
    ensures value == "" ==> c == Bad(requiredMessage)
    ensures value != "" && Utf16Length(value) < minLength ==> c == Bad(minMessage)
  {
    if value == "" then Bad(requiredMessage)
    else if Utf16Length(value) < minLength then Bad(minMessage)
    else Ok
  }

  /** The name rule the registration and profile forms share. */
  function NameRule(name: string): Check {
    LengthRule(name, "Name is required", 2, "Name must be at least 2 characters")
  }

  /** A match of `\S+@\S+\.\S+`: the `@` sits at `p` and the dot at `r`. The
      pattern is not anchored, so it may match anywhere in the text. */
  predicate EmailMatchAt(s: string, p: int, r: int) {
    1 <= p && p + 1 < r && r + 1 < |s| &&
    s[p] == '@' && s[r] == '.' &&
    !IsSpace(s[p - 1]) && !IsSpace(s[r + 1]) &&
    forall k | p < k < r :: !IsSpace(s[k])
  }

  /** `/\S+@\S+\.\S+/.test(s)`: a shortest match needs only one character before the `@`,
      at least one between it and the dot, and one after the dot, none of them white space. */
  predicate MatchesEmail(s: string) {
    exists p, r | 0 <= p < |s| && 0 <= r < |s| :: EmailMatchAt(s, p, r)
  }

  const EmailFormat := "Entered value does not match email format"

  function EmailRule(value: string): (c: Check)
    ensures c.Ok? <==> value != "" && MatchesEmail(value)
    ensures value == "" ==> c == Bad("Email is required")
    ensures value != "" && !MatchesEmail(value) ==> c == Bad(EmailFormat)
  {
    if value == "" then Bad("Email is required")
    else if !MatchesEmail(value) then Bad(EmailFormat)
    else Ok
  }

  /** The pattern is unanchored: text around an address does not stop it from matching. */
  lemma {:induction false} EmailUnanchored(pre: string, s: string, post: string)
    requires MatchesEmail(s)
    ensures MatchesEmail(pre + s + post)
  {
    var p, r :| EmailMatchAt(s, p, r);
    assert EmailMatchAt(s, p, r);
    var t := pre + s + post;
    forall k | |pre| + p < k < |pre| + r ensures !IsSpace(t[k]) {
      assert t[k] == s[k - |pre|];
    }
    assert t[|pre| + p] == s[p] && t[|pre| + r] == s[r];
    assert t[|pre| + p - 1] == s[p - 1] && t[|pre| + r + 1] == s[r + 1];
    assert EmailMatchAt(t, |pre| + p, |pre| + r);
  }

  /** A matching text holds an `@` followed later by a dot and is at least five long. */
  lemma EmailNeedsAtAndDot(s: string)
    requires MatchesEmail(s)
    ensures |s| >= 5
    ensures exists p, r :: 0 <= p < r < |s| && s[p] == '@' && s[r] == '.'
  {
    var p, r :| EmailMatchAt(s, p, r);
    assert EmailMatchAt(s, p, r);
    assert 0 <= p < r < |s| && s[p] == '@' && s[r] == '.';
  }

  /** Some cases: a plain address, an address inside a sentence, and a text with a blank
      before the `@`. */
  lemma EmailExamples()
    ensures MatchesEmail("a@b.c")
    ensures MatchesEmail("write to a@b.c today")
    ensures !MatchesEmail("a @b.c")
  {
    assert EmailMatchAt("a@b.c", 1, 3);
    EmailUnanchored("write to ", "a@b.c", " today");
    assert "write to " + "a@b.c" + " today" == "write to a@b.c today";
    var s := "a @b.c";
    forall p, r | 0 <= p < |s| && 0 <= r < |s| ensures !EmailMatchAt(s, p, r) {
      assert IsSpace(s[1]);
    }
  }

  // ---- Failed requests ----

  /** A field error the server names. */
  datatype FieldError = FieldError(field: string, message: string)

  /** What a failed request carries: the HTTP status, `data.message`, the client-side
      `error` text, and `data.errors`. */
  datatype ServerError = ServerError(
    status: Option<int>,
    dataMessage: Option<string>,
    errorText: Option<string>,
    errors: Option<seq<FieldError>>)

  /** `err?.data?.message || err?.error || fallback`. */
  function ErrorMessage(err: ServerError, fallback: string): (m: string)
    ensures err.dataMessage.Some? && err.dataMessage.value != "" ==> m == err.dataMessage.value
    ensures !(err.dataMessage.Some? && err.dataMessage.value != "") && err.errorText.Some? && err.errorText.value != "" ==>
              m == err.errorText.value
    ensures !(err.dataMessage.Some? && err.dataMessage.value != "") && !(err.errorText.Some? && err.errorText.value != "") ==>
              m == fallback
  {
    MessageOr(err.dataMessage, MessageOr(err.errorText, fallback))
  }

  /** Where a failure is reported in the form. */
  datatype ErrorPlan =
    | PerField(entries: seq<FieldError>)      // one `setError` per server entry, in order
    | OnField(field: string, message: string) // one field chosen by the form
    | OnRoot(message: string)                 // `root.serverError`

  const RootKey := "root.serverError"

  /** The field errors after setting each entry in turn: a later entry for the same field
      replaces an earlier one. */
  function ApplyErrors(m: map<string, string>, es: seq<FieldError>): (r: map<string, string>)
    ensures forall i :: 0 <= i < |es| ==> es[i].field in r
    ensures r.Keys == m.Keys + set i | 0 <= i < |es| :: es[i].field
    decreases |es|
  {
    if es == [] then m
    else
      var last := es[|es| - 1];
      var front := es[..|es| - 1];
      var r := ApplyErrors(m, front)[last.field := last.message];
      assert forall i :: 0 <= i < |front| ==> front[i] == es[i];
      r
  }

  /** Fields no entry names keep their error. */
  lemma {:induction false} UnnamedKept(m: map<string, string>, es: seq<FieldError>, k: string)
    requires k in m && forall i :: 0 <= i < |es| ==> es[i].field != k
    ensures ApplyErrors(m, es)[k] == m[k]
    decreases |es|
  {
    if es != [] {
      UnnamedKept(m, es[..|es| - 1], k);
    }
  }

  /** A named field shows the message of the last entry that names it. */
  lemma {:induction false} LastEntryWins(m: map<string, string>, es: seq<FieldError>, i: nat)
    requires i < |es| && forall j :: i < j < |es| ==> es[j].field != es[i].field
    ensures ApplyErrors(m, es)[es[i].field] == es[i].message
    decreases |es|
  {
    if i < |es| - 1 {
      var front := es[..|es| - 1];
      assert front[i] == es[i];
      assert forall j :: i < j < |front| ==> front[j] == es[j];
      LastEntryWins(m, front, i);
    }
  }

  /** A form's error state as the form library keeps it: a message per field. */
  class FormErrors {
    var errors: map<string, string>

    constructor ()
      ensures errors == map[]
    {
      errors := map[];
    }

    /** `setError(field, {type: 'manual', message})`. */
    method SetError(field: string, message: string)
      modifies this
      ensures errors == old(errors)[field := message]
    {
      errors := errors[field := message];
    }

    /** `errors.forEach(e => setError(e.field, ...))`. */
    method SetEach(es: seq<FieldError>)
      modifies this
      ensures errors == ApplyErrors(old(errors), es)
    {
      var i := 0;
      while i < |es|
        invariant 0 <= i <= |es|
        invariant errors == ApplyErrors(old(errors), es[..i])
      {
        assert es[..i + 1][..i] == es[..i];
        SetError(es[i].field, es[i].message);
        i := i + 1;
      }
      assert es[..|es|] == es;
    }

    /** What `reset` does to the errors: every field and root error goes. */
    method Clear()
      modifies this
      ensures errors == map[]
    {
      errors := map[];
    }

    /** Reports a failure where its plan says. */
    method Report(plan: ErrorPlan)
      modifies this
      ensures plan.PerField? ==> errors == ApplyErrors(old(errors), plan.entries)
      ensures plan.OnField? ==> errors == old(errors)[plan.field := plan.message]
      ensures plan.OnRoot? ==> errors == old(errors)[RootKey := plan.message]
    {
      match plan
      case PerField(es) => SetEach(es);
      case OnField(f, msg) => SetError(f, msg);
      case OnRoot(msg) => SetError(RootKey, msg);
    }
  }
}
