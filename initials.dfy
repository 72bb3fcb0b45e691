/** `getInitials` of the shared utilities: the avatar initials of a display name. */
module Initials {
  import opened Wrappers
  import opened JsStrings

  /** `s.split(/\s+/)`: the fields between maximal runs of white space, with an empty
      field before a leading run and after a trailing one, and `[""]` for `""`. */
  function SplitWs(s: string): (r: seq<string>)
    ensures |r| >= 1
    decreases |s|
  {
    if s == [] then [""]
    else if IsSpace(s[0]) then
      [""] + SplitWs(TrimStart(s))
    else
      var rest := SplitWs(s[1..]);
      [[s[0]] + rest[0]] + rest[1..]
  }

  /** `w.charAt(0).toUpperCase()`: empty for an empty `w`. */
  function FirstUpper(w: string): (r: string)
    ensures |r| <= 1 && (r == [] <==> w == [])
    ensures forall i :: 0 <= i < |r| ==> UpperChar(r[i]) == r[i]
  {
    if w == [] then "" else [UpperChar(w[0])]
  }

  /** `getInitials(name)`. `None` stands for every argument that is not a non-empty string
      (`null`, `undefined`, a number, an object): all of them take the first early return. */
  function GetInitials(name: Option<string>): (r: string)
    ensures (name.None? || name.value == []) ==> r == ""
    ensures forall i :: 0 <= i < |r| ==> UpperChar(r[i]) == r[i]
  {
    if name.None? || name.value == [] then ""
    else FromFields(SplitWs(Trim(name.value)))
  }

  /** The tail of `getInitials`, from the split fields `names` on. */
  function FromFields(names: seq<string>): (r: string)
    ensures |r| <= 2
    ensures r == [] <==> |names| == 0 || names[0] == []
    ensures forall i :: 0 <= i < |r| ==> UpperChar(r[i]) == r[i]
  {
    if |names| == 0 || names[0] == "" then ""
    else if |names| == 1 then FirstUpper(names[0])
    else FirstUpper(names[0]) + FirstUpper(names[|names| - 1])
  }

  /** Reference definition: the words of `s`, the maximal runs of non-space characters, in order. */
  function Words(s: string): (r: seq<string>)
    ensures forall i :: 0 <= i < |r| ==> r[i] != [] && NoSpace(r[i])
  {
    if s == [] then []
    else if IsSpace(s[0]) then Words(s[1..])
    else
      var rest := Words(s[1..]);
      if |s| > 1 && !IsSpace(s[1]) then [[s[0]] + rest[0]] + rest[1..]
      else [[s[0]]] + rest
  }

  /** The reference initials: nothing without words, the first letter of a lone
      word, else the first letters of the first and the last word, upper-cased. */
  function InitialsOf(ws: seq<string>): (r: string)
    requires forall i :: 0 <= i < |ws| ==> ws[i] != []
    ensures |r| <= 2
    ensures ws == [] <==> r == []
  {
    if ws == [] then ""
    else if |ws| == 1 then [UpperChar(ws[0][0])]
    else [UpperChar(ws[0][0]), UpperChar(ws[|ws| - 1][0])]
  }

  lemma {:induction false} WordsOfLeadingSpace(p: string, s: string)
    requires AllSpace(p)
    ensures Words(p + s) == Words(s)
  {
    if p == [] {
      assert p + s == s;
    } else {
      assert (p + s)[0] == p[0];
      assert (p + s)[1..] == p[1..] + s;
      WordsOfLeadingSpace(p[1..], s);
    }
  }

  lemma {:induction false} WordsOfTrailingSpace(s: string, q: string)
    requires AllSpace(q)
    ensures Words(s + q) == Words(s)
  {
    if s == [] {
      assert s + q == q + s;
      WordsOfLeadingSpace(q, s);
    } else {
      assert (s + q)[0] == s[0];
      assert (s + q)[1..] == s[1..] + q;
      WordsOfTrailingSpace(s[1..], q);
      if |s| == 1 && !IsSpace(s[0]) {
        assert s[1..] + q == q;
        if |q| > 0 { assert (s + q)[1] == q[0]; }
      } else if |s| > 1 {
        assert (s + q)[1] == s[1];
      }
    }
  }

  /** White-space padding on either side does not change the words. */
  lemma WordsOfPadded(p: string, s: string, q: string)
    requires AllSpace(p) && AllSpace(q)
    ensures Words(p + s + q) == Words(s)
  {
    assert p + s + q == p + (s + q);
    WordsOfLeadingSpace(p, s + q);
    WordsOfTrailingSpace(s, q);
  }

  /** A run of white space between two parts splits them like a single blank. */
  lemma {:induction false} WordsOfSpaceRun(x: string, sep: string, y: string)
    requires sep != [] && AllSpace(sep)
    ensures Words(x + sep + y) == Words(x + " " + y)
  {
    if x == [] {
      assert x + sep + y == sep + y;
      assert x + " " + y == " " + y;
      WordsOfLeadingSpace(sep, y);
      WordsOfLeadingSpace(" ", y);
    } else {
      var a, b := x + sep + y, x + " " + y;
      assert a[0] == x[0] && b[0] == x[0];
      assert a[1..] == x[1..] + sep + y;
      assert b[1..] == x[1..] + " " + y;
      WordsOfSpaceRun(x[1..], sep, y);
      if |x| > 1 {
        assert a[1] == x[1] && b[1] == x[1];
      } else {
        assert a[1] == sep[0] && b[1] == ' ';
      }
    }
  }

  /** On a string that does not end in white space, the split fields are its words, after
      one empty field when the string starts with white space. */
  lemma {:induction false} SplitIsWords(s: string)
    requires s != [] && !IsSpace(s[|s| - 1])
    ensures SplitWs(s) == (if IsSpace(s[0]) then [""] else []) + Words(s)
    decreases |s|, 1
  {
    if IsSpace(s[0]) {
      SplitAfterSpace(s);
    } else {
      SplitAfterChar(s);
      assert [] + Words(s) == Words(s);
    }
  }

  /** A leading run of white space becomes one empty field. */
  lemma {:induction false} SplitAfterSpace(s: string)
    requires s != [] && !IsSpace(s[|s| - 1]) && IsSpace(s[0])
    ensures SplitWs(s) == [""] + Words(s)
    decreases |s|, 0
  {
    var p, t := LeadingRun(s);
    SplitIsWords(t);
    WordsOfLeadingSpace(p, t);
  }

  /** A text that starts with white space but does not end in it is that run followed by
      its `trimStart`, a shorter text with the same last character. */
  lemma LeadingRun(s: string) returns (p: string, t: string)
    requires s != [] && !IsSpace(s[|s| - 1]) && IsSpace(s[0])
    ensures t == TrimStart(s) && s == p + t && AllSpace(p)
    ensures t != [] && !IsSpace(t[0]) && !IsSpace(t[|t| - 1]) && |t| < |s|
  {
    t := TrimStart(s);
    assert t == TrimStart(s[1..]);
    p := s[..|s| - |t|];
    KeepsLast(s);
  }

  /** `trimStart` keeps a last character that is not white space. */
  lemma {:induction false} KeepsLast(s: string)
    requires s != [] && !IsSpace(s[|s| - 1])
    ensures TrimStart(s) != [] && TrimStart(s)[|TrimStart(s)| - 1] == s[|s| - 1]
  {
    if IsSpace(s[0]) {
      var s' := s[1..];
      assert s'[|s'| - 1] == s[|s| - 1];
      KeepsLast(s');
    }
  }

  /** A leading non-space character joins the first field. */
  lemma {:induction false} SplitAfterChar(s: string)
    requires s != [] && !IsSpace(s[|s| - 1]) && !IsSpace(s[0])
    ensures SplitWs(s) == Words(s)
    decreases |s|, 0
  {
    if |s| == 1 {
      assert s[1..] == [] && [s[0]] + "" == [s[0]];
    } else {
      var s' := s[1..];
      assert s'[0] == s[1] && s'[|s'| - 1] == s[|s| - 1];
      SplitIsWords(s');
      var r, w := SplitWs(s'), Words(s');
      assert SplitWs(s) == [[s[0]] + r[0]] + r[1..];
      if IsSpace(s[1]) {
        assert r[0] == "" && r[1..] == w;
        assert [s[0]] + "" == [s[0]];
        assert Words(s) == [[s[0]]] + w;
      } else {
        assert r == w by { assert [] + w == w; }
        assert Words(s) == [[s[0]] + w[0]] + w[1..];
      }
    }
  }

  /** Trimming keeps the words. */
  lemma WordsOfTrim(s: string)
    ensures Words(Trim(s)) == Words(s)
  {
    var p, q := TrimSplits(s);
    WordsOfPadded(p, Trim(s), q);
  }

  /** The model agrees with the reference: the initials are those of the words of the name. */
  lemma InitialsFromWords(s: string)
    ensures GetInitials(Some(s)) == InitialsOf(Words(s))
  {
    if s != [] {
      var t := Trim(s);
      assert GetInitials(Some(s)) == FromFields(SplitWs(t));
      WordsOfTrim(s);
      TrimEmpty(s);
      if t != [] {
        FieldsOfTrimmed(t);
      } else {
        assert SplitWs(t) == [""];
      }
    }
  }

  /** On a trimmed, non-empty text the split fields are its words. */
  lemma FieldsOfTrimmed(t: string)
    requires t != [] && !IsSpace(t[0]) && !IsSpace(t[|t| - 1])
    ensures FromFields(SplitWs(t)) == InitialsOf(Words(t))
  {
    SplitIsWords(t);
    assert SplitWs(t) == Words(t) by {
      assert [] + Words(t) == Words(t);
    }
    FieldsOfWords(Words(t));
  }

  lemma FieldsOfWords(ws: seq<string>)
    requires forall i :: 0 <= i < |ws| ==> ws[i] != []
    ensures FromFields(ws) == InitialsOf(ws)
  {
  }

  /** A missing or non-string name, and the empty string, give no initials. */
  lemma NoNameGivesEmpty(name: Option<string>)
    requires name.None? || name == Some("")
    ensures GetInitials(name) == ""
  {
  }

  /** A name with a character other than white space always gives initials; with
      `BlankGivesEmpty`, the initials are empty exactly for a blank name. */
  lemma NonBlankGivesInitials(s: string)
    requires !AllSpace(s)
    ensures GetInitials(Some(s)) != ""
  {
    TrimEmpty(s);
    var t := Trim(s);
    SplitIsWords(t);
    assert SplitWs(t) == Words(t) by {
      assert [] + Words(t) == Words(t);
    }
    WordsOfTrim(s);
    InitialsFromWords(s);
  }

  /** A name made only of white space gives no initials. */
  lemma BlankGivesEmpty(s: string)
    requires AllSpace(s)
    ensures GetInitials(Some(s)) == ""
  {
    InitialsFromWords(s);
    WordsOfLeadingSpace(s, []);
    assert s + [] == s;
  }

  /** Never more than two characters. */
  lemma AtMostTwo(name: Option<string>)
    ensures |GetInitials(name)| <= 2
  {
    if name.Some? { InitialsFromWords(name.value); }
  }

  /** A single word gives its first character, upper-cased. */
  lemma SingleWord(w: string)
    requires w != [] && NoSpace(w)
    ensures GetInitials(Some(w)) == [UpperChar(w[0])]
  {
    InitialsFromWords(w);
    WordsOfNoSpace(w);
  }

  lemma {:induction false} WordsOfNoSpace(w: string)
    requires w != [] && NoSpace(w)
    ensures Words(w) == [w]
  {
    if |w| == 1 {
      assert w == [w[0]] && w[1..] == [];
    } else {
      var w' := w[1..];
      assert w'[0] == w[1];
      assert NoSpace(w') by {
        forall i | 0 <= i < |w'| ensures !IsSpace(w'[i]) { assert w'[i] == w[i + 1]; }
      }
      WordsOfNoSpace(w');
      assert [w[0]] + w' == w;
    }
  }

  /** Two or more words give the first letters of the first and the last, middle words ignored. */
  lemma FirstAndLast(w1: string, mid: string, w2: string)
    requires w1 != [] && NoSpace(w1) && w2 != [] && NoSpace(w2)
    requires mid != [] && IsSpace(mid[0]) && IsSpace(mid[|mid| - 1])
    ensures GetInitials(Some(w1 + mid + w2)) == [UpperChar(w1[0]), UpperChar(w2[0])]
  {
    var s := w1 + mid + w2;
    InitialsFromWords(s);
    var ws := Words(s);
    assert ws == [w1] + (Words(mid) + [w2]) by {
      assert s == w1 + (mid + w2);
      assert (mid + w2)[0] == mid[0];
      WordsSplitAt(w1, mid + w2);
      WordsAppendWord(mid, w2);
    }
    assert ws[0] == w1 && ws[|ws| - 1] == w2;
  }

  /** A leading word followed by white space is the first word. */
  lemma {:induction false} WordsSplitAt(w: string, rest: string)
    requires w != [] && NoSpace(w) && rest != [] && IsSpace(rest[0])
    ensures Words(w + rest) == [w] + Words(rest)
  {
    var s := w + rest;
    assert s[0] == w[0] && s[1..] == w[1..] + rest;
    if |w| == 1 {
      assert w[1..] + rest == rest;
      assert s[1] == rest[0];
      assert w == [w[0]];
    } else {
      var w' := w[1..];
      assert s[1] == w[1] && w'[0] == w[1];
      assert NoSpace(w') by {
        forall i | 0 <= i < |w'| ensures !IsSpace(w'[i]) { assert w'[i] == w[i + 1]; }
      }
      WordsSplitAt(w', rest);
      assert [w[0]] + w' == w;
    }
  }

  /** A word after text that ends in white space is appended as the last word. */
  lemma {:induction false} WordsAppendWord(m: string, w: string)
    requires w != [] && NoSpace(w) && m != [] && IsSpace(m[|m| - 1])
    ensures Words(m + w) == Words(m) + [w]
  {
    var s := m + w;
    assert s[0] == m[0] && s[1..] == m[1..] + w;
    if |m| == 1 {
      assert m[1..] + w == w && m[1..] == [];
      WordsOfNoSpace(w);
    } else {
      var m' := m[1..];
      assert s[1] == m[1] && m'[0] == m[1] && m'[|m'| - 1] == m[|m| - 1];
      WordsAppendWord(m', w);
    }
  }

  /** Leading and trailing white space do not change the result. */
  lemma PaddingInvariant(p: string, s: string, q: string)
    requires AllSpace(p) && AllSpace(q)
    ensures GetInitials(Some(p + s + q)) == GetInitials(Some(s))
  {
    InitialsFromWords(p + s + q);
    InitialsFromWords(s);
    WordsOfPadded(p, s, q);
  }

  /** A repeated or unusual white-space separator acts like a single blank. */
  lemma SeparatorInvariant(x: string, sep: string, y: string)
    requires sep != [] && AllSpace(sep)
    ensures GetInitials(Some(x + sep + y)) == GetInitials(Some(x + " " + y))
  {
    InitialsFromWords(x + sep + y);
    InitialsFromWords(x + " " + y);
    WordsOfSpaceRun(x, sep, y);
  }
}
