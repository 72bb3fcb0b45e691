/** The two one-line inputs of the live page: the chat message box and the question box.
    Both validate one field, refuse blank text and a second send while one is in flight,
    hand the trimmed text to the page's handler, and clear the field only when the handler
    succeeds. The awaited handler call is split into the step that starts it and the step
    in which it settles. */
module LiveInputs {
  import opened Wrappers
  import opened JsStrings

  /** Which of the two inputs: they differ only in the length limit and the messages. */
  datatype Kind = Chat | Question

  function MaxLength(k: Kind): (n: nat)
    ensures k.Chat? ==> n == 500
    ensures k.Question? ==> n == 300
  {
    match k
    case Chat => 500
    case Question => 300
  }

  function TooLongMessage(k: Kind): string {
    match k
    case Chat => "Message is too long(max 500 chars)"
    case Question => "Question too long (max 300 chars)"
  }

  /** The outcome of the field's declared rules, `required` and `maxLength`, which the form
      library checks on the raw, untrimmed text before the submit handler runs; the length
      is JavaScript's, in UTF-16 code units. */
  datatype RuleCheck = Pass | Missing | TooLong(message: string)

  function CheckRules(k: Kind, value: string): (r: RuleCheck)
    ensures r.Pass? <==> value != "" && Utf16Length(value) <= MaxLength(k)
    ensures r.Missing? <==> value == ""
    ensures r.TooLong? ==> Utf16Length(value) > MaxLength(k) && r.message == TooLongMessage(k)
  {
    if value == "" then Missing
    else if Utf16Length(value) > MaxLength(k) then TooLong(TooLongMessage(k))
    else Pass
  }

  /** The text shown under the field for a failed rule: the question box shows one fixed
      sentence for every failure, the chat box only colours its border. */
  function ErrorText(k: Kind, r: RuleCheck): (t: string)
    ensures t != "" <==> k.Question? && !r.Pass?
  {
    if k.Question? && !r.Pass? then "Please enter a question." else ""
  }

  /** The submit handler's guard: the text to hand to the page, or nothing when the text is
      empty, trims to empty, or a call is still in flight. */
  function SendGuard(value: string, inFlight: bool): (r: Option<string>)
    ensures r.Some? <==> !AllSpace(value) && !inFlight
    ensures r.Some? ==> r.value == Trim(value) && r.value != []
    ensures r.Some? ==> !IsSpace(r.value[0]) && !IsSpace(r.value[|r.value| - 1])
    ensures r.Some? ==> |r.value| <= |value|
  {
    TrimEmpty(value);
    if value == "" || Trim(value) == "" || inFlight then None else Some(Trim(value))
  }

  /** The input and the button are disabled by the page's flag or by a call in flight. */
  function ControlsDisabled(disabledProp: bool, inFlight: bool): (d: bool)
    ensures !d <==> !disabledProp && !inFlight
  {
    disabledProp || inFlight
  }

  /** Text that passes the rules and the guard is non-blank and within the limit as
      JavaScript counts it, since trimming never lengthens it. */
  lemma SentWithinLimit(k: Kind, value: string)
    requires CheckRules(k, value).Pass?
    requires SendGuard(value, false).Some?
    ensures 0 < |SendGuard(value, false).value|
    ensures Utf16Length(SendGuard(value, false).value) <= MaxLength(k)
  {
    Utf16LengthOfTrim(value);
  }

  /** Padding does not change what is sent. */
  lemma PaddingIgnored(p: string, s: string, q: string, inFlight: bool)
    requires AllSpace(p) && AllSpace(q)
    ensures SendGuard(p + s + q, inFlight) == SendGuard(s, inFlight)
  {
    TrimOfPadded(p, s, q);
    AllSpaceConcat(p, s, q);
  }

  lemma AllSpaceConcat(p: string, s: string, q: string)
    requires AllSpace(p) && AllSpace(q)
    ensures AllSpace(p + s + q) <==> AllSpace(s)
  {
    var t := p + s + q;
    if AllSpace(s) {
      forall i | 0 <= i < |t| ensures IsSpace(t[i]) {
        if i < |p| { assert t[i] == p[i]; }
        else if i < |p| + |s| { assert t[i] == s[i - |p|]; }
        else { assert t[i] == q[i - |p| - |s|]; }
      }
    } else {
      var j :| 0 <= j < |s| && !IsSpace(s[j]);
      assert t[|p| + j] == s[j];
    }
  }

  /** One input box with its form state: the field's text, the in-flight flag, the texts the
      handler was called with, and how many failures were logged. */
  class InputBox {
    const kind: Kind
    var value: string
    var inFlight: bool
    var sent: seq<string>
    var failures: nat

    /** Mounted with an empty field and nothing in flight. */
    constructor (k: Kind)
      ensures kind == k && value == "" && !inFlight && sent == [] && failures == 0
    {
      kind := k;
      value := "";
      inFlight := false;
      sent := [];
      failures := 0;
    }

    /** The user edits the field; a disabled input takes no typing. */
    method Edit(s: string, disabledProp: bool)
      modifies this
      ensures value == (if ControlsDisabled(disabledProp, old(inFlight)) then old(value) else s)
      ensures inFlight == old(inFlight) && sent == old(sent) && failures == old(failures)
    {
      if !ControlsDisabled(disabledProp, inFlight) {
        value := s;
      }
    }

    /** The form is submitted: the rules are checked, then the guard; when both pass the
        flag is raised and the handler is called with the trimmed text. While the page's
        `disabled` flag is set, the input and the button are disabled and nothing is sent. */
    method Submit(disabledProp: bool) returns (check: RuleCheck, started: bool)
      modifies this
      ensures check == CheckRules(kind, old(value))
      ensures started <==> !disabledProp && check.Pass? && SendGuard(old(value), old(inFlight)).Some?
      ensures started ==> inFlight && sent == old(sent) + [Trim(old(value))]
      ensures !started ==> inFlight == old(inFlight) && sent == old(sent)
      ensures value == old(value) && failures == old(failures)
    {
      check := CheckRules(kind, value);
      started := false;
      if disabledProp || !check.Pass? {
        return;
      }
      var text := SendGuard(value, inFlight);
      if text.None? {
        return;
      }
      inFlight := true;
      sent := sent + [text.value];
      started := true;
    }

    /** The awaited handler settles: on success the field is reset, on failure it is kept and
        the error logged; either way the flag is cleared. */
    method Settle(succeeded: bool)
      requires inFlight
      modifies this
      ensures !inFlight && sent == old(sent)
      ensures value == (if succeeded then "" else old(value))
      ensures failures == old(failures) + (if succeeded then 0 else 1)
    {
      if succeeded {
        value := "";
      } else {
        failures := failures + 1;
      }
      inFlight := false;
    }
  }
}
