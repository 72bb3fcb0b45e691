/** The question-and-answer panel of the live page: one item per question, with an inline
    editor for moderators, and the list that shows the questions newest first. */
module Qna {
  import opened Wrappers
  import opened JsStrings

  /** A user object as far as the panel reads it; an absent name is `""`. */
  datatype Person = Person(name: string)

  /** A question as the server sends it. `answer` is `""` when absent; `createdAt` is the
      creation time in milliseconds since the epoch. */
  datatype Question = Question(
    id: string,
    text: string,
    user: Option<Person>,
    createdAt: int,
    isAnswered: bool,
    answer: string,
    answeredBy: Option<Person>)

  // ---- One item ----

  /** `person?.name || fallback`. */
  function NameOr(p: Option<Person>, fallback: string): (n: string)
    ensures p.Some? && p.value.name != "" ==> n == p.value.name
    ensures !(p.Some? && p.value.name != "") ==> n == fallback
  {
    if p.Some? && p.value.name != "" then p.value.name else fallback
  }

  /** What sits below the question. */
  datatype AnswerArea =
    | AnswerShown(answer: string, answeredBy: string)
    | AnswerButton   // the "Answer" button that opens the editor
    | AnswerForm     // the editor with its Submit and Cancel buttons
    | NoControls

  /** What the item renders; the relative timestamp is left out. */
  datatype ItemView = Nothing | Item(text: string, askedBy: string, area: AnswerArea)

  function ItemViewOf(q: Option<Question>, canAnswer: bool, isAnswering: bool): (v: ItemView)
    ensures v.Nothing? <==> q.None? || q.value.user.None?
    ensures v.Item? ==> v.text == q.value.text && v.askedBy == NameOr(q.value.user, "User")
    ensures v.Item? ==> (v.area.AnswerShown? <==> q.value.isAnswered && q.value.answer != "")
    ensures v.Item? && v.area.AnswerShown? ==>
              v.area.answer == q.value.answer && v.area.answeredBy == NameOr(q.value.answeredBy, "Moderator")
    ensures v.Item? && !v.area.AnswerShown? ==>
              (v.area.NoControls? <==> !canAnswer) &&
              (v.area.AnswerForm? <==> canAnswer && isAnswering)
  {
    if q.None? || q.value.user.None? then Nothing
    else
      var x := q.value;
      var area :=
        if x.isAnswered && x.answer != "" then AnswerShown(x.answer, NameOr(x.answeredBy, "Moderator"))
        else if !canAnswer then NoControls
        else if isAnswering then AnswerForm
        else AnswerButton;
      Item(x.text, NameOr(x.user, "User"), area)
  }

  /** The editor's guard: the trimmed answer, or nothing when the text is blank. */
  function AnswerGuard(text: string): (r: Option<string>)
    ensures r.Some? <==> !AllSpace(text)
    ensures r.Some? ==> r.value == Trim(text) && r.value != []
    ensures r.Some? ==> !IsSpace(r.value[0]) && !IsSpace(r.value[|r.value| - 1])
  {
    TrimEmpty(text);
    if Trim(text) != "" then Some(Trim(text)) else None
  }

  /** The editor state of one item and the answers it handed to the page. */
  class AnswerEditor {
    const questionId: string
    var isAnswering: bool
    var answerText: string
    var answers: seq<(string, string)>

    constructor (id: string)
      ensures questionId == id && !isAnswering && answerText == "" && answers == []
    {
      questionId := id;
      isAnswering := false;
      answerText := "";
      answers := [];
    }

    /** The "Answer" button. */
    method Open()
      requires !isAnswering
      modifies this
      ensures isAnswering && answerText == old(answerText) && answers == old(answers)
    {
      isAnswering := true;
    }

    /** Typing in the answer field, which is shown only while answering. */
    method Edit(s: string)
      requires isAnswering
      modifies this
      ensures answerText == s && isAnswering == old(isAnswering) && answers == old(answers)
    {
      answerText := s;
    }

    /** The "Cancel" button closes the editor and keeps the text typed so far. */
    method Cancel()
      requires isAnswering
      modifies this
      ensures !isAnswering && answerText == old(answerText) && answers == old(answers)
    {
      isAnswering := false;
    }

    /** `handleAnswerSubmit`: a non-blank answer is handed over once, trimmed, and the editor
        closes and clears; a blank one changes nothing. */
    method SubmitAnswer() returns (called: bool)
      requires isAnswering
      modifies this
      ensures called <==> AnswerGuard(old(answerText)).Some?
      ensures called ==> answers == old(answers) + [(questionId, Trim(old(answerText)))] &&
                         !isAnswering && answerText == ""
      ensures !called ==> answers == old(answers) && isAnswering == old(isAnswering) &&
                          answerText == old(answerText)
    {
      var a := AnswerGuard(answerText);
      called := a.Some?;
      if called {
        answers := answers + [(questionId, a.value)];
        isAnswering := false;
        answerText := "";
      }
    }
  }

  // ---- The list ----

  /** Newest first: creation times never increase along the sequence. */
  predicate NewestFirst(s: seq<Question>) {
    forall i, j :: 0 <= i < j < |s| ==> s[i].createdAt >= s[j].createdAt
  }

  /** Puts `x` before the first element that is not newer than it, so elements created at
      the same time keep their relative order. */
  function InsertNewest(x: Question, s: seq<Question>): (r: seq<Question>)
    ensures |r| == |s| + 1 && multiset(r) == multiset(s) + multiset{x}
    ensures r[0] == x || (s != [] && r[0] == s[0])
  {
    if s == [] || s[0].createdAt <= x.createdAt then [x] + s
    else
      assert s == [s[0]] + s[1..];
      [s[0]] + InsertNewest(x, s[1..])
  }

  /** `[...questions].sort((a, b) => new Date(b.createdAt) - new Date(a.createdAt))`: a
      stable sort of a copy, newest first. */
  function SortNewest(qs: seq<Question>): (r: seq<Question>)
    ensures |r| == |qs| && multiset(r) == multiset(qs)
    ensures NewestFirst(r)
  {
    if qs == [] then []
    else
      assert qs == [qs[0]] + qs[1..];
      InsertKeepsOrder(qs[0], SortNewest(qs[1..]));
      InsertNewest(qs[0], SortNewest(qs[1..]))
  }

  lemma {:induction false} InsertKeepsOrder(x: Question, s: seq<Question>)
    requires NewestFirst(s)
    ensures NewestFirst(InsertNewest(x, s))
  {
    if s != [] && s[0].createdAt > x.createdAt {
      var t := s[1..];
      assert NewestFirst(t) by {
        forall i, j | 0 <= i < j < |t| ensures t[i].createdAt >= t[j].createdAt {
          assert t[i] == s[i + 1] && t[j] == s[j + 1];
        }
      }
      InsertKeepsOrder(x, t);
      InsertBounded(s[0].createdAt, x, t);
      var r' := InsertNewest(x, t);
      var r := [s[0]] + r';
      forall i, j | 0 <= i < j < |r| ensures r[i].createdAt >= r[j].createdAt {
        assert r[j] == r'[j - 1];
        if i > 0 { assert r[i] == r'[i - 1]; }
      }
    }
  }

  /** No element of `InsertNewest(x, t)` is newer than a bound that `x` and all of `t` keep. */
  lemma {:induction false} InsertBounded(b: int, x: Question, t: seq<Question>)
    requires b >= x.createdAt
    requires forall k :: 0 <= k < |t| ==> b >= t[k].createdAt
    ensures forall k :: 0 <= k < |InsertNewest(x, t)| ==> b >= InsertNewest(x, t)[k].createdAt
  {
    if t != [] && t[0].createdAt > x.createdAt {
      InsertBounded(b, x, t[1..]);
    }
  }

  /** The questions created at time `t`, in order. */
  function WithTime(s: seq<Question>, t: int): seq<Question> {
    if s == [] then [] else (if s[0].createdAt == t then [s[0]] else []) + WithTime(s[1..], t)
  }

  lemma {:induction false} InsertWithTime(x: Question, s: seq<Question>, t: int)
    ensures WithTime(InsertNewest(x, s), t) == (if x.createdAt == t then [x] else []) + WithTime(s, t)
  {
    var r := InsertNewest(x, s);
    if s == [] || s[0].createdAt <= x.createdAt {
      assert r == [x] + s;
      assert r[0] == x && r[1..] == s;
    } else {
      var r' := InsertNewest(x, s[1..]);
      assert r == [s[0]] + r';
      assert r[0] == s[0] && r[1..] == r';
      InsertWithTime(x, s[1..], t);
      assert WithTime(r, t) == (if s[0].createdAt == t then [s[0]] else []) + WithTime(r', t);
      assert WithTime(s, t) == (if s[0].createdAt == t then [s[0]] else []) + WithTime(s[1..], t);
    }
  }

  /** The sort is stable: among questions created at the same time the input order stays. */
  lemma {:induction false} SortKeepsTies(qs: seq<Question>, t: int)
    ensures WithTime(SortNewest(qs), t) == WithTime(qs, t)
  {
    if qs != [] {
      SortKeepsTies(qs[1..], t);
      InsertWithTime(qs[0], SortNewest(qs[1..]), t);
    }
  }

  /** A list already newest first comes back unchanged, so sorting twice is sorting once. */
  lemma {:induction false} SortOfSorted(qs: seq<Question>)
    requires NewestFirst(qs)
    ensures SortNewest(qs) == qs
  {
    if qs != [] {
      var t := qs[1..];
      assert NewestFirst(t) by {
        forall i, j | 0 <= i < j < |t| ensures t[i].createdAt >= t[j].createdAt {
          assert t[i] == qs[i + 1] && t[j] == qs[j + 1];
        }
      }
      SortOfSorted(t);
      assert qs == [qs[0]] + t;
    }
  }

  lemma SortIdempotent(qs: seq<Question>)
    ensures SortNewest(SortNewest(qs)) == SortNewest(qs)
  {
    SortOfSorted(SortNewest(qs));
  }

  /** What the list renders. */
  datatype ListView = ListView(
    loadingNote: bool,
    emptyNote: bool,
    items: seq<Question>,
    selectDisabled: bool,
    inputDisabled: bool)

  /** The list for the given props and sort mode; `"newest"`, the initial and only offered
      mode, sorts, any other value keeps the server's order. */
  function ListViewOf(questions: seq<Question>, isLoadingHistory: bool, disabled: bool, sortBy: string): (v: ListView)
    ensures v.loadingNote == isLoadingHistory
    ensures v.emptyNote <==> !isLoadingHistory && questions == []
    ensures |v.items| == |questions| && multiset(v.items) == multiset(questions)
    ensures sortBy == "newest" ==> NewestFirst(v.items)
    ensures sortBy != "newest" ==> v.items == questions
    ensures v.selectDisabled <==> isLoadingHistory || questions == []
    ensures v.inputDisabled == disabled
  {
    var items := if sortBy == "newest" then SortNewest(questions) else questions;
    ListView(isLoadingHistory, !isLoadingHistory && |items| == 0, items,
             isLoadingHistory || |questions| == 0, disabled)
  }
}
