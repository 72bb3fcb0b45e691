/** String operations of JavaScript that the front end relies on: `trim`, the `\s` class,
    ASCII case mapping, `includes` and `||` on a message that may be missing. */
module JsStrings {
  import opened Wrappers

  /** The characters JavaScript treats as white space in `trim` and in the regular-expression class `\s`:
      the WhiteSpace and LineTerminator code points of ECMAScript (section 12.2 and 12.3 of ECMA-262). */
  predicate IsSpace(c: char) {
    || c == ' ' || c == '\t' || c == '\n' || c == '\r'
    || c == '\U{000B}' || c == '\U{000C}' || c == '\U{00A0}' || c == '\U{1680}'
    || ('\U{2000}' <= c <= '\U{200A}')
    || c == '\U{2028}' || c == '\U{2029}' || c == '\U{202F}' || c == '\U{205F}'
    || c == '\U{3000}' || c == '\U{FEFF}'
  }

  predicate AllSpace(s: string) {
    forall i :: 0 <= i < |s| ==> IsSpace(s[i])
  }

  predicate NoSpace(s: string) {
    forall i :: 0 <= i < |s| ==> !IsSpace(s[i])
  }

  /** `s.trimStart()`: `s` without its leading white space. */
  function TrimStart(s: string): (r: string)
    ensures |r| <= |s| && r == s[|s| - |r|..]
    ensures AllSpace(s[..|s| - |r|])
    ensures r != [] ==> !IsSpace(r[0])
  {
    if s != [] && IsSpace(s[0]) then
      var r := TrimStart(s[1..]);
      assert s[..|s| - |r|] == [s[0]] + s[1..][..|s| - 1 - |r|];
      r
    else s
  }

  /** `s.trimEnd()`: `s` without its trailing white space. */
  function TrimEnd(s: string): (r: string)
    ensures |r| <= |s| && r == s[..|r|]
    ensures AllSpace(s[|r|..])
    ensures r != [] ==> !IsSpace(r[|r| - 1])
  {
    if s != [] && IsSpace(s[|s| - 1]) then TrimEnd(s[..|s| - 1]) else s
  }

  /** `s.trim()`. */
  function Trim(s: string): (r: string)
  {
    TrimEnd(TrimStart(s))
  }

  /** How many UTF-16 code units a character takes: two outside the Basic Multilingual Plane. */
  function CodeUnits(c: char): (n: nat)
    ensures n == 1 <==> (c as int) < 0x10000
    ensures n == 1 || n == 2
  {
    if (c as int) < 0x10000 then 1 else 2
  }

  /** `s.length`: JavaScript counts UTF-16 code units, not characters. */
  function Utf16Length(s: string): (n: nat)
    ensures |s| <= n <= 2 * |s|
  {
    if s == [] then 0 else CodeUnits(s[0]) + Utf16Length(s[1..])
  }

  lemma {:induction false} Utf16LengthConcat(s: string, t: string)
    ensures Utf16Length(s + t) == Utf16Length(s) + Utf16Length(t)
  {
    if s == [] {
      assert s + t == t;
    } else {
      assert (s + t)[0] == s[0];
      assert (s + t)[1..] == s[1..] + t;
      Utf16LengthConcat(s[1..], t);
    }
  }

  /** The length JavaScript reports equals the number of characters exactly when no
      character lies outside the Basic Multilingual Plane. */
  lemma {:induction false} Utf16LengthIsSize(s: string)
    ensures Utf16Length(s) == |s| <==> forall i :: 0 <= i < |s| ==> (s[i] as int) < 0x10000
  {
    if s != [] {
      Utf16LengthIsSize(s[1..]);
      assert forall i :: 1 <= i < |s| ==> s[i] == s[1..][i - 1];
    }
  }

  /** Trimming never lengthens a string as JavaScript counts it. */
  lemma Utf16LengthOfTrim(s: string)
    ensures Utf16Length(Trim(s)) <= Utf16Length(s)
  {
    Utf16LengthOfTrimStart(s);
    Utf16LengthOfTrimEnd(TrimStart(s));
  }

  lemma Utf16LengthOfTrimStart(s: string)
    ensures Utf16Length(TrimStart(s)) <= Utf16Length(s)
  {
    var p := LeadingPart(s);
    Utf16LengthConcat(p, TrimStart(s));
  }

  lemma Utf16LengthOfTrimEnd(s: string)
    ensures Utf16Length(TrimEnd(s)) <= Utf16Length(s)
  {
    var q := TrailingPart(s);
    Utf16LengthConcat(TrimEnd(s), q);
  }

  lemma {:induction false} TrimStartOfSpaces(p: string, s: string)
    requires AllSpace(p)
    ensures TrimStart(p + s) == TrimStart(s)
  {
    if p == [] {
      assert p + s == s;
    } else {
      assert (p + s)[0] == p[0];
      assert (p + s)[1..] == p[1..] + s;
      TrimStartOfSpaces(p[1..], s);
    }
  }

  lemma {:induction false} TrimEndOfSpaces(s: string, q: string)
    requires AllSpace(q)
    ensures TrimEnd(s + q) == TrimEnd(s)
  {
    if q == [] {
      assert s + q == s;
    } else {
      assert (s + q)[|s + q| - 1] == q[|q| - 1];
      assert (s + q)[..|s + q| - 1] == s + q[..|q| - 1];
      TrimEndOfSpaces(s, q[..|q| - 1]);
    }
  }

  /** Leading white space that does not cover all of `s` leaves the rest in place. */
  lemma {:induction false} TrimStartConcat(s: string, t: string)
    ensures AllSpace(s) ==> TrimStart(s + t) == TrimStart(t)
    ensures !AllSpace(s) ==> TrimStart(s + t) == TrimStart(s) + t
  {
    if s == [] {
      assert s + t == t;
    } else if IsSpace(s[0]) {
      assert (s + t)[0] == s[0];
      assert (s + t)[1..] == s[1..] + t;
      assert AllSpace(s) == AllSpace(s[1..]) by {
        if AllSpace(s[1..]) {
          forall i | 0 <= i < |s| ensures IsSpace(s[i]) {
            if i > 0 { assert s[i] == s[1..][i - 1]; }
          }
        }
      }
      TrimStartConcat(s[1..], t);
    } else {
      assert (s + t)[0] == s[0];
      assert !AllSpace(s);
    }
  }

  lemma {:induction false} TrimEndConcat(s: string, t: string)
    ensures AllSpace(t) ==> TrimEnd(s + t) == TrimEnd(s)
    ensures !AllSpace(t) ==> TrimEnd(s + t) == s + TrimEnd(t)
  {
    if t == [] {
      assert s + t == s;
    } else {
      assert (s + t)[|s + t| - 1] == t[|t| - 1];
      assert (s + t)[..|s + t| - 1] == s + t[..|t| - 1];
      TrimEndConcat(s, t[..|t| - 1]);
    }
  }

  /** A trimmed string neither starts nor ends with white space, and only a string of
      white space trims to the empty string. */
  lemma {:induction false} TrimEmpty(s: string)
    ensures Trim(s) != [] ==> !IsSpace(Trim(s)[0]) && !IsSpace(Trim(s)[|Trim(s)| - 1])
    ensures Trim(s) == [] <==> AllSpace(s)
  {
    var t := TrimStart(s);
    var r := TrimEnd(t);
    var k := |s| - |t|;
    assert t == s[k..];
    if r != [] {
      assert r[0] == t[0];
      assert !IsSpace(s[k]);
    } else {
      assert t[|r|..] == t;
      forall i | 0 <= i < |s| ensures IsSpace(s[i]) {
        if i < k { assert s[..k][i] == s[i]; } else { assert t[i - k] == s[i]; }
      }
    }
  }

  /** Trimming ignores white-space padding on either side. */
  lemma {:induction false} TrimOfPadded(p: string, s: string, q: string)
    requires AllSpace(p) && AllSpace(q)
    ensures Trim(p + s + q) == Trim(s)
  {
    assert p + s + q == p + (s + q);
    TrimStartOfSpaces(p, s + q);
    TrimStartConcat(s, q);
    if AllSpace(s) {
      TrimEndConcat([], TrimStart(s + q));
    } else {
      TrimEndOfSpaces(TrimStart(s), q);
    }
  }

  /** A string that neither starts nor ends with white space is its own trim. */
  lemma {:induction false} TrimOfTrimmed(s: string)
    requires s != [] && !IsSpace(s[0]) && !IsSpace(s[|s| - 1])
    ensures Trim(s) == s
  {
  }

  /** Any `s` splits into leading space, its trim and trailing space. */
  lemma {:induction false} TrimSplits(s: string) returns (p: string, q: string)
    ensures AllSpace(p) && AllSpace(q) && s == p + Trim(s) + q
  {
    var t := TrimStart(s);
    var r := TrimEnd(t);
    p := LeadingPart(s);
    q := TrailingPart(t);
    assert r == Trim(s);
    SplitsInThree(s, p, t, r, q);
  }

  lemma SplitsInThree(s: string, p: string, t: string, r: string, q: string)
    requires s == p + t && t == r + q
    ensures s == p + r + q
  {
  }

  /** `s` is its leading white space followed by `trimStart`. */
  lemma LeadingPart(s: string) returns (p: string)
    ensures AllSpace(p) && s == p + TrimStart(s)
  {
    var t := TrimStart(s);
    p := s[..|s| - |t|];
    assert t == s[|s| - |t|..];
  }

  /** `s` is `trimEnd` followed by its trailing white space. */
  lemma TrailingPart(s: string) returns (q: string)
    ensures AllSpace(q) && s == TrimEnd(s) + q
  {
    var r := TrimEnd(s);
    q := s[|r|..];
    assert r == s[..|r|];
  }

  /** An ASCII capital becomes its small letter; every other character is kept. */
  function LowerChar(c: char): (r: char)
    ensures 'A' <= c <= 'Z' ==> 'a' <= r <= 'z' && r as int == c as int + 32
    ensures !('A' <= c <= 'Z') ==> r == c
  {
    if 'A' <= c <= 'Z' then (c as int + 32) as char else c
  }

  /** An ASCII small letter becomes its capital; every other character is kept. */
  function UpperChar(c: char): (r: char)
    ensures 'a' <= c <= 'z' ==> 'A' <= r <= 'Z' && r as int == c as int - 32
    ensures !('a' <= c <= 'z') ==> r == c
  {
    if 'a' <= c <= 'z' then (c as int - 32) as char else c
  }

  /** `s.toLowerCase()` on ASCII letters. */
  function ToLower(s: string): (r: string)
    ensures |r| == |s|
    ensures forall i :: 0 <= i < |s| ==> r[i] == LowerChar(s[i])
  {
    seq(|s|, i requires 0 <= i < |s| => LowerChar(s[i]))
  }

  predicate IsPrefix(p: string, s: string) {
    |p| <= |s| && s[..|p|] == p
  }

  /** `s.includes(sub)`. */
  predicate Contains(s: string, sub: string) {
    exists i :: 0 <= i <= |s| - |sub| && IsPrefix(sub, s[i..])
  }

  /** `message || fallback` for a message that may be missing: the error text shown or
      toasted after a failed query or mutation. */
  function MessageOr(serverMessage: Option<string>, fallback: string): (t: string)
    ensures serverMessage.Some? && serverMessage.value != "" ==> t == serverMessage.value
    ensures serverMessage.None? || serverMessage.value == "" ==> t == fallback
  {
    if serverMessage.Some? && serverMessage.value != "" then serverMessage.value else fallback
  }
}
