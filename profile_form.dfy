/** The profile editing form: it starts from the signed-in user's name and address, sends
    only a changed form, shows where a failed update went wrong, and starts over whenever
    the user it edits changes. */
module ProfileForm {
  import opened Wrappers
  import opened JsStrings
  import opened FormRules

  /** The user the form is given, each field possibly missing. */
  datatype Profile = Profile(name: Option<string>, email: Option<string>)

  /** `x || ""`. */
  function TextOrEmpty(x: Option<string>): (t: string)
    ensures x.Some? ==> t == x.value
    ensures x.None? ==> t == ""
  {
    if x.Some? then x.value else ""
  }

  predicate ProfileValid(name: string, email: string) {
    NameRule(name).Ok? && EmailRule(email).Ok?
  }

  const UpdateFailed := "Failed to update profile"
  const MaybeInUse := "This email address might already be in use."

  /** A conflict status, or a message that mentions an address in any letter case. */
  predicate PointsAtEmail(err: ServerError) {
    err.status == Some(409) || (err.dataMessage.Some? && Contains(ToLower(err.dataMessage.value), "email"))
  }

  /** The server's field errors first, then a conflict on the email field, then the
      toasted message as a root error. */
  function ProfileErrorPlan(err: ServerError): (p: ErrorPlan)
    ensures p.PerField? <==> err.errors.Some?
    ensures p.PerField? ==> p.entries == err.errors.value
    ensures p.OnField? <==> err.errors.None? && PointsAtEmail(err)
    ensures p.OnField? ==> p.field == "email" && p.message == MaybeInUse
    ensures p.OnRoot? <==> err.errors.None? && !PointsAtEmail(err)
    ensures p.OnRoot? ==> p.message == ErrorMessage(err, UpdateFailed)
  {
    if err.errors.Some? then PerField(err.errors.value)
    else if PointsAtEmail(err) then OnField("email", MaybeInUse)
    else OnRoot(ErrorMessage(err, UpdateFailed))
  }

  /** A conflict lands on the email field whatever the message says, and with no message
      the root error would have shown the default text. */
  lemma ConflictBlamesEmail(msg: Option<string>)
    ensures ProfileErrorPlan(ServerError(Some(409), msg, None, None)) == OnField("email", MaybeInUse)
    ensures ErrorMessage(ServerError(Some(409), None, None, None), UpdateFailed) == UpdateFailed
  {
  }

  /** The form's values, the values it was last reset to, and what it has done. */
  class ProfileEditor {
    var defaultName: string
    var defaultEmail: string
    var name: string
    var email: string
    var sent: seq<(string, string)>
    var toasts: seq<string>
    var closes: nat
    const errors: FormErrors

    /** `isDirty`: the values differ from the ones the form was reset to. */
    predicate IsDirty()
      reads this
    {
      name != defaultName || email != defaultEmail
    }

    /** The save button is disabled while loading or while nothing changed. */
    predicate SaveDisabled(isLoading: bool)
      reads this
    {
      isLoading || !IsDirty()
    }

    constructor (currentUser: Option<Profile>)
      ensures currentUser.Some? ==> defaultName == TextOrEmpty(currentUser.value.name) && defaultEmail == TextOrEmpty(currentUser.value.email)
      ensures currentUser.None? ==> defaultName == "" && defaultEmail == ""
      ensures name == defaultName && email == defaultEmail && !IsDirty()
      ensures sent == [] && toasts == [] && closes == 0
      ensures fresh(errors) && errors.errors == map[]
    {
      var n := if currentUser.Some? then TextOrEmpty(currentUser.value.name) else "";
      var e := if currentUser.Some? then TextOrEmpty(currentUser.value.email) else "";
      defaultName, defaultEmail := n, e;
      name, email := n, e;
      sent, toasts, closes := [], [], 0;
      errors := new FormErrors();
    }

    method Edit(n: string, e: string)
      modifies this
      ensures name == n && email == e
      ensures defaultName == old(defaultName) && defaultEmail == old(defaultEmail)
      ensures sent == old(sent) && toasts == old(toasts) && closes == old(closes)
    {
      name, email := n, e;
    }

    /** A submission: the form library runs the handler only for a form that passes its
        rules; the handler closes an unchanged form with a note and sends a changed one. */
    method Submit() returns (called: bool)
      modifies this
      ensures called <==> ProfileValid(old(name), old(email)) && old(IsDirty())
      ensures sent == if called then old(sent) + [(old(name), old(email))] else old(sent)
      ensures var noted := ProfileValid(old(name), old(email)) && !old(IsDirty());
        toasts == (if noted then old(toasts) + ["No changes detected."] else old(toasts)) &&
        closes == (if noted then old(closes) + 1 else old(closes))
      ensures name == old(name) && email == old(email) && defaultName == old(defaultName) && defaultEmail == old(defaultEmail)
    {
      if !ProfileValid(name, email) {
        return false;
      }
      called := IsDirty();
      if !called {
        toasts := toasts + ["No changes detected."];
        closes := closes + 1;
        return;
      }
      sent := sent + [(name, email)];
    }

    method Fail(err: ServerError)
      modifies this, errors
      ensures toasts == old(toasts) + [ErrorMessage(err, UpdateFailed)]
      ensures var p := ProfileErrorPlan(err);
        (p.PerField? ==> errors.errors == ApplyErrors(old(errors.errors), p.entries)) &&
        (p.OnField? ==> errors.errors == old(errors.errors)["email" := MaybeInUse]) &&
        (p.OnRoot? ==> errors.errors == old(errors.errors)[RootKey := ErrorMessage(err, UpdateFailed)])
      ensures name == old(name) && email == old(email) && defaultName == old(defaultName) && defaultEmail == old(defaultEmail)
      ensures sent == old(sent) && closes == old(closes)
    {
      toasts := toasts + [ErrorMessage(err, UpdateFailed)];
      errors.Report(ProfileErrorPlan(err));
    }

    /** The success effect: a toast, then the form is closed. */
    method Succeeded()
      modifies this
      ensures toasts == old(toasts) + ["Profile updated successfully"] && closes == old(closes) + 1
      ensures name == old(name) && email == old(email) && defaultName == old(defaultName) && defaultEmail == old(defaultEmail)
      ensures sent == old(sent)
    {
      toasts := toasts + ["Profile updated successfully"];
      closes := closes + 1;
    }

    /** The reset effect: a present user becomes both the values and the defaults, so the
      form is clean again; a missing one changes nothing. */
    method UserChanged(currentUser: Option<Profile>)
      modifies this, errors
      ensures currentUser.Some? ==> name == defaultName == TextOrEmpty(currentUser.value.name) &&
                                    email == defaultEmail == TextOrEmpty(currentUser.value.email)
      ensures currentUser.Some? ==> !IsDirty() && errors.errors == map[]
      ensures currentUser.None? ==> name == old(name) && email == old(email) && defaultName == old(defaultName) &&
                                    defaultEmail == old(defaultEmail) && errors.errors == old(errors.errors)
      ensures sent == old(sent) && toasts == old(toasts) && closes == old(closes)
    {
      if currentUser.Some? {
        var n := TextOrEmpty(currentUser.value.name);
        var e := TextOrEmpty(currentUser.value.email);
        defaultName, defaultEmail := n, e;
        name, email := n, e;
        errors.Clear();
      }
    }
  }

  /** Editing back to the starting values leaves nothing to send. */
  method EditBackIsUnchanged(u: Profile, n: string, e: string) returns (called: bool)
    ensures !called
  {
    var f := new ProfileEditor(Some(u));
    f.Edit(n, e);
    f.Edit(TextOrEmpty(u.name), TextOrEmpty(u.email));
    called := f.Submit();
  }
}
