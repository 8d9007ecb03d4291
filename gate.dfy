/**
 * The GATE preparation routes: the subject list for a branch, the mock
 * question listing and the answer grading, the progress aggregation over
 * stored answers, and the resource and year-analysis lookups. HTTP
 * failures are `Err(status)`; an uncaught exception is status 500.
 */
module Gate {
  import opened Common
  import opened Text
  import opened Json

  // ---------------------------------------------------------------------
  // Subjects

  /** The branch whose subjects a user without a known branch is shown. */
  const DefaultBranch: string := "CSE"

  datatype SubjectsReply = SubjectsReply(branch: Value, subjects: seq<string>, totalSubjects: nat)

  /**
   * `get_gate_subjects`: the user's `branch` field (`"CSE"` when absent)
   * selects a subject list, and anything not in the table gets the CSE
   * list; a list or object as branch cannot be a dictionary key and raises.
   */
  function GetGateSubjects(table: map<string, seq<string>>, user: Doc): (r: Result<SubjectsReply, nat>)
    requires DefaultBranch in table
    ensures r.Err? <==> "branch" in user && (user["branch"].List? || user["branch"].Obj?)
    ensures r.Err? ==> r.error == 500
    ensures r.Ok? ==> r.value.totalSubjects == |r.value.subjects|
    ensures r.Ok? ==> r.value.branch == (if "branch" in user then user["branch"] else Str(DefaultBranch))
    ensures r.Ok? && r.value.branch.Str? && r.value.branch.s in table ==> r.value.subjects == table[r.value.branch.s]
    ensures r.Ok? && !(r.value.branch.Str? && r.value.branch.s in table) ==> r.value.subjects == table[DefaultBranch]
  {
    var branch := if "branch" in user then user["branch"] else Str(DefaultBranch);
    if branch.List? || branch.Obj? then Err(500)
    else
      var subjects := if branch.Str? && branch.s in table then table[branch.s] else table[DefaultBranch];
      Ok(SubjectsReply(branch, subjects, |subjects|))
  }

  // ---------------------------------------------------------------------
  // Questions and grading

  /**
   * A practice question: its `_id` (as `str` spells it), subject, topic,
   * difficulty, correct option, marks, explanation, and the `question_id`
   * the mock listing writes into it. The question text and options are
   * not modelled.
   */
  datatype GateQuestion = GateQuestion(
    id: Option<string>, subject: Option<string>, topic: Option<string>, difficulty: Option<string>,
    correctAnswer: Option<int>, marks: Option<int>, explanation: Option<string>, questionId: Option<string>)

  datatype Submission = Submission(questionId: string, selectedAnswer: int, timeTaken: int)

  datatype Feedback = Feedback(
    questionId: string, correct: bool, correctAnswer: int, explanation: string, marksAwarded: int, totalMarks: int)

  /** The progress record saved for a graded answer (its timestamp is not modelled). */
  datatype ProgressEntry = ProgressEntry(
    userId: Option<string>, questionId: string, subject: Option<string>, topic: Option<string>,
    difficulty: Option<string>, selectedAnswer: int, correctAnswer: int, isCorrect: bool, marksAwarded: int,
    timeTaken: int)

  /** The mock lookup's test for entry `i`: its `_id` (or `""` without one) or its position spells `id`. */
  predicate MatchesId(qs: seq<GateQuestion>, i: int, id: string)
    requires 0 <= i < |qs|
  {
    qs[i].id.GetOr("") == id || NatToString(i) == id
  }

  /** The first entry from position `k` on that matches `id`. */
  function FirstMatchFrom(qs: seq<GateQuestion>, id: string, k: nat): (r: Option<nat>)
    requires k <= |qs|
    ensures r.Some? ==> k <= r.value < |qs| && MatchesId(qs, r.value, id) &&
                        forall j :: k <= j < r.value ==> !MatchesId(qs, j, id)
    ensures r.None? ==> forall j :: k <= j < |qs| ==> !MatchesId(qs, j, id)
    decreases |qs| - k
  {
    if k == |qs| then None
    else if MatchesId(qs, k, id) then Some(k)
    else FirstMatchFrom(qs, id, k + 1)
  }

  /** The position of the question the mock lookup settles on, if any. */
  function FirstMatch(qs: seq<GateQuestion>, id: string): Option<nat> {
    FirstMatchFrom(qs, id, 0)
  }

  /** The lookup loop of `submit_answer` over the mock questions, stopping at the first match. */
  method FindMock(qs: seq<GateQuestion>, id: string) returns (found: Option<nat>)
    ensures found == FirstMatch(qs, id)
  {
    var i := 0;
    found := None;
    while i < |qs|
      invariant 0 <= i <= |qs|
      invariant FirstMatch(qs, id) == FirstMatchFrom(qs, id, i)
    {
      if qs[i].id.GetOr("") == id || NatToString(i) == id {
        found := Some(i);
        return;
      }
      i := i + 1;
    }
  }

  /** Grading: correct iff the selected option is the correct one (0 when unset); marks 2 when unset. */
  function Grade(q: GateQuestion, s: Submission): (f: Feedback)
    ensures f.questionId == s.questionId
    ensures f.correct <==> s.selectedAnswer == q.correctAnswer.GetOr(0)
    ensures f.correctAnswer == q.correctAnswer.GetOr(0) && f.totalMarks == q.marks.GetOr(2)
    ensures f.marksAwarded == if f.correct then f.totalMarks else 0
  {
    var correctAnswer := q.correctAnswer.GetOr(0);
    var isCorrect := s.selectedAnswer == correctAnswer;
    var marks := if isCorrect then q.marks.GetOr(2) else 0;
    Feedback(s.questionId, isCorrect, correctAnswer, q.explanation.GetOr(""), marks, q.marks.GetOr(2))
  }

  /** With non-negative marks, a graded answer earns between nothing and the question's full marks. */
  lemma GradeBounds(q: GateQuestion, s: Submission)
    requires q.marks.GetOr(2) >= 0
    ensures 0 <= Grade(q, s).marksAwarded <= Grade(q, s).totalMarks
    ensures Grade(q, s).marksAwarded == Grade(q, s).totalMarks <==> Grade(q, s).correct || Grade(q, s).totalMarks == 0
  {
  }

  /** The record `submit_answer` saves alongside its feedback. */
  function EntryFor(q: GateQuestion, s: Submission, userId: Option<string>): (e: ProgressEntry)
    ensures e.isCorrect == Grade(q, s).correct && e.marksAwarded == Grade(q, s).marksAwarded
    ensures e.subject == q.subject && e.questionId == s.questionId
  {
    var f := Grade(q, s);
    ProgressEntry(userId, s.questionId, q.subject, q.topic, q.difficulty, s.selectedAnswer, f.correctAnswer,
                  f.correct, f.marksAwarded, s.timeTaken)
  }

  /**
   * `submit_answer`: the database's question when it found one, otherwise
   * the first mock question matching the id, otherwise 404.
   */
  function Submitted(qs: seq<GateQuestion>, dbQuestion: Option<GateQuestion>, s: Submission, userId: Option<string>)
    : (r: Result<(Feedback, ProgressEntry), nat>)
    ensures r.Err? <==> dbQuestion.None? && FirstMatch(qs, s.questionId).None?
    ensures r.Err? ==> r.error == 404
    ensures r.Ok? && dbQuestion.Some? ==> r.value.0 == Grade(dbQuestion.value, s)
    ensures r.Ok? && dbQuestion.None? ==>
              (FirstMatch(qs, s.questionId).Some? && r.value.0 == Grade(qs[FirstMatch(qs, s.questionId).value], s))
  {
    var q :- if dbQuestion.Some? then Ok(dbQuestion.value)
             else match FirstMatch(qs, s.questionId)
                  case None => Err(404)
                  case Some(i) => Ok(qs[i]);
    Ok((Grade(q, s), EntryFor(q, s, userId)))
  }

  /** The mock listing's filter: an empty or absent filter lets everything through. */
  predicate Passes(q: GateQuestion, subject: Option<string>, difficulty: Option<string>) {
    (!Given(subject) || q.subject == subject) && (!Given(difficulty) || q.difficulty == difficulty)
  }

  /** The positions of the questions that pass the filters, in order. */
  function Picked(qs: seq<GateQuestion>, subject: Option<string>, difficulty: Option<string>): (r: seq<nat>)
    ensures forall p :: 0 <= p < |r| ==> r[p] < |qs| && Passes(qs[r[p]], subject, difficulty)
    ensures forall p, p' :: 0 <= p < p' < |r| ==> r[p] < r[p']
    ensures forall k :: 0 <= k < |qs| && Passes(qs[k], subject, difficulty) ==> k in r
  {
    if qs == [] then []
    else
      var init := Picked(qs[..|qs| - 1], subject, difficulty);
      if Passes(qs[|qs| - 1], subject, difficulty) then init + [|qs| - 1] else init
  }

  /** Where Python's `xs[:limit]` stops on a list of length `n`: a negative limit counts from the end. */
  function PyStop(n: nat, limit: int): (r: nat)
    ensures r <= n
    ensures limit >= 0 ==> r == if limit < n then limit else n
    ensures limit < 0 ==> r == if n + limit > 0 then n + limit else 0
  {
    if limit >= 0 then (if limit < n then limit else n)
    else if n + limit > 0 then n + limit else 0
  }

  /** The positions `get_mock_questions` lists: filtered, then cut at `limit`. */
  function Listed(qs: seq<GateQuestion>, subject: Option<string>, difficulty: Option<string>, limit: int): (r: seq<nat>)
    ensures |r| <= |Picked(qs, subject, difficulty)| && r == Picked(qs, subject, difficulty)[..|r|]
  {
    var picked := Picked(qs, subject, difficulty);
    picked[..PyStop(|picked|, limit)]
  }

  /** The listing as returned: each question numbered by its place in the listing, without its answer. */
  function MockListing(qs: seq<GateQuestion>, subject: Option<string>, difficulty: Option<string>, limit: int)
    : (r: seq<GateQuestion>)
    ensures |r| == |Listed(qs, subject, difficulty, limit)|
    ensures forall p :: 0 <= p < |r| ==> r[p].questionId == Some(NatToString(p)) && r[p].correctAnswer.None?
  {
    var picked := Listed(qs, subject, difficulty, limit);
    seq(|picked|, p requires 0 <= p < |picked| =>
      qs[picked[p]].(questionId := Some(NatToString(p)), correctAnswer := None))
  }

  /** No question carries an `_id`, as in the shipped mock questions. */
  predicate NoIds(qs: seq<GateQuestion>) {
    forall i :: 0 <= i < |qs| ==> qs[i].id.None?
  }

  /** Without `_id`s, the spelling of a position finds exactly that position. */
  lemma FirstMatchOfPosition(qs: seq<GateQuestion>, k: nat)
    requires NoIds(qs) && k < |qs|
    ensures FirstMatch(qs, NatToString(k)) == Some(k)
  {
    forall j | 0 <= j < k ensures !MatchesId(qs, j, NatToString(k)) {
      if NatToString(j) == NatToString(k) {
        NatToStringInjective(j, k);
      }
    }
    var r := FirstMatch(qs, NatToString(k));
    assert MatchesId(qs, k, NatToString(k));
  }

  /**
   * As written, the listing numbers questions by their place in the
   * filtered list while the lookup reads the number as a place in the full
   * list: once the filter skips the first question, the first listed
   * question (number 0) is graded against the skipped one.
   */
  lemma MockIdsMisdirect(qs: seq<GateQuestion>, subject: string, limit: int)
    requires NoIds(qs) && subject != "" && |Listed(qs, Some(subject), None, limit)| > 0
    requires qs[0].subject != Some(subject)
    ensures MockListing(qs, Some(subject), None, limit)[0].questionId == Some(NatToString(0))
    ensures FirstMatch(qs, NatToString(0)) == Some(0)
    ensures MockListing(qs, Some(subject), None, limit)[0].subject == Some(subject) != qs[0].subject
  {
    FirstMatchOfPosition(qs, 0);
  }

  /** The listing evidently intended: each question numbered by its place in the full list. */
  function MockListingIntended(qs: seq<GateQuestion>, subject: Option<string>, difficulty: Option<string>, limit: int)
    : (r: seq<GateQuestion>)
    ensures |r| == |Listed(qs, subject, difficulty, limit)|
  {
    var picked := Listed(qs, subject, difficulty, limit);
    seq(|picked|, p requires 0 <= p < |picked| =>
      qs[picked[p]].(questionId := Some(NatToString(picked[p])), correctAnswer := None))
  }

  /** With place-in-full-list numbers, submitting a listed question's number grades that very question. */
  lemma MockIdsResolve(qs: seq<GateQuestion>, subject: Option<string>, difficulty: Option<string>, limit: int, p: nat)
    requires NoIds(qs) && p < |Listed(qs, subject, difficulty, limit)|
    ensures MockListingIntended(qs, subject, difficulty, limit)[p].questionId.Some?
    ensures var k := Listed(qs, subject, difficulty, limit)[p];
            FirstMatch(qs, MockListingIntended(qs, subject, difficulty, limit)[p].questionId.value) == Some(k) &&
            Passes(qs[k], subject, difficulty)
  {
    var k := Listed(qs, subject, difficulty, limit)[p];
    FirstMatchOfPosition(qs, k);
  }

  /** The module-level list of mock questions, which the mock listing writes numbers into. */
  class QuestionBank {
    var questions: seq<GateQuestion>

    constructor(qs: seq<GateQuestion>)
      ensures questions == qs
    {
      questions := qs;
    }

    /** `submit_answer` over this bank. */
    method SubmitAnswer(dbQuestion: Option<GateQuestion>, s: Submission, userId: Option<string>)
      returns (r: Result<(Feedback, ProgressEntry), nat>)
      ensures r == Submitted(questions, dbQuestion, s, userId)
    {
      var q: GateQuestion;
      if dbQuestion.Some? {
        q := dbQuestion.value;
      } else {
        var found := FindMock(questions, s.questionId);
        if found.None? {
          return Err(404);
        }
        q := questions[found.value];
      }
      return Ok((Grade(q, s), EntryFor(q, s, userId)));
    }

    /**
     * `get_mock_questions`: the filtered list holds the bank's own entries,
     * so numbering them writes `question_id` into the bank; the returned
     * copies drop `correct_answer`.
     */
    method MockQuestions(subject: Option<string>, difficulty: Option<string>, limit: int) returns (out: seq<GateQuestion>)
      modifies this
      ensures out == MockListing(old(questions), subject, difficulty, limit)
      ensures var picked := Listed(old(questions), subject, difficulty, limit);
              questions == Renumbered(old(questions), picked, |picked|)
    {
      questions, out := NumberListing(questions, subject, difficulty, limit);
    }
  }

  /** The numbering loop of `get_mock_questions` over the bank's entries. */
  method NumberListing(qs: seq<GateQuestion>, subject: Option<string>, difficulty: Option<string>, limit: int)
    returns (bank: seq<GateQuestion>, out: seq<GateQuestion>)
    ensures out == MockListing(qs, subject, difficulty, limit)
    ensures var picked := Listed(qs, subject, difficulty, limit); bank == Renumbered(qs, picked, |picked|)
  {
    var picked := Listed(qs, subject, difficulty, limit);
    bank := qs;
    out := [];
    for p := 0 to |picked|
      invariant bank == Renumbered(qs, picked, p)
      invariant out == MockListing(qs, subject, difficulty, limit)[..p]
    {
      NumberStep(qs, subject, difficulty, limit, p, bank, out);
      var k := picked[p];
      bank := bank[k := bank[k].(questionId := Some(NatToString(p)))];
      out := out + [bank[k].(correctAnswer := None)];
    }
    assert MockListing(qs, subject, difficulty, limit)[..|picked|] == MockListing(qs, subject, difficulty, limit);
  }

  /** One turn of the numbering loop: the next listed entry gets its number and its listing entry. */
  lemma NumberStep(qs: seq<GateQuestion>, subject: Option<string>, difficulty: Option<string>, limit: int, p: nat,
                   bank: seq<GateQuestion>, out: seq<GateQuestion>)
    requires p < |Listed(qs, subject, difficulty, limit)|
    requires bank == Renumbered(qs, Listed(qs, subject, difficulty, limit), p)
    requires out == MockListing(qs, subject, difficulty, limit)[..p]
    ensures var picked := Listed(qs, subject, difficulty, limit);
            var k := picked[p];
            var q := bank[k].(questionId := Some(NatToString(p)));
            && k < |bank|
            && bank[k := q] == Renumbered(qs, picked, p + 1)
            && out + [q.(correctAnswer := None)] == MockListing(qs, subject, difficulty, limit)[..p + 1]
  {
    var picked := Listed(qs, subject, difficulty, limit);
    var k := picked[p];
    assert k < |qs|;
    assert bank[k].(questionId := None) == qs[k].(questionId := None);
    ListingStep(qs, subject, difficulty, limit, p, bank[k], out);
  }

  lemma ListingStep(qs: seq<GateQuestion>, subject: Option<string>, difficulty: Option<string>, limit: int, p: nat,
                    q: GateQuestion, out: seq<GateQuestion>)
    requires p < |Listed(qs, subject, difficulty, limit)|
    requires q.(questionId := None) == qs[Listed(qs, subject, difficulty, limit)[p]].(questionId := None)
    requires out == MockListing(qs, subject, difficulty, limit)[..p]
    ensures out + [q.(questionId := Some(NatToString(p)), correctAnswer := None)] ==
            MockListing(qs, subject, difficulty, limit)[..p + 1]
  {
    var expected := MockListing(qs, subject, difficulty, limit);
    ListingEntry(qs, subject, difficulty, limit, p, q);
    PrefixSnoc(expected, p);
  }

  /** A bank entry that differs from the original only in `question_id` gives the same listing entry. */
  lemma ListingEntry(qs: seq<GateQuestion>, subject: Option<string>, difficulty: Option<string>, limit: int, p: nat,
                     q: GateQuestion)
    requires p < |Listed(qs, subject, difficulty, limit)|
    requires q.(questionId := None) == qs[Listed(qs, subject, difficulty, limit)[p]].(questionId := None)
    ensures MockListing(qs, subject, difficulty, limit)[p] == q.(questionId := Some(NatToString(p)), correctAnswer := None)
  {
  }

  /** The bank once the listing has numbered its first `n` questions. */
  function Renumbered(qs: seq<GateQuestion>, picked: seq<nat>, n: nat): (r: seq<GateQuestion>)
    requires n <= |picked| && forall p :: 0 <= p < |picked| ==> picked[p] < |qs|
    ensures |r| == |qs|
    ensures forall k :: 0 <= k < |qs| ==> r[k].(questionId := None) == qs[k].(questionId := None)
  {
    if n == 0 then qs
    else
      var prev := Renumbered(qs, picked, n - 1);
      prev[picked[n - 1] := prev[picked[n - 1]].(questionId := Some(NatToString(n - 1)))]
  }

  /** Renumbering gives each listed question its place in the listing and leaves every other question alone. */
  lemma {:induction false} RenumberedFacts(qs: seq<GateQuestion>, picked: seq<nat>, n: nat)
    requires n <= |picked| && forall p :: 0 <= p < |picked| ==> picked[p] < |qs|
    requires forall p, p' :: 0 <= p < p' < |picked| ==> picked[p] < picked[p']
    ensures forall p :: 0 <= p < n ==> Renumbered(qs, picked, n)[picked[p]] == qs[picked[p]].(questionId := Some(NatToString(p)))
    ensures forall k :: 0 <= k < |qs| && k !in picked[..n] ==> Renumbered(qs, picked, n)[k] == qs[k]
  {
    if n > 0 {
      RenumberedFacts(qs, picked, n - 1);
      assert picked[..n] == picked[..n - 1] + [picked[n - 1]];
    }
  }

  /** After `get_mock_questions`, exactly the listed questions carry their listing number. */
  lemma MockQuestionsState(qs: seq<GateQuestion>, subject: Option<string>, difficulty: Option<string>, limit: int)
    ensures var picked := Listed(qs, subject, difficulty, limit);
            var after := Renumbered(qs, picked, |picked|);
            (forall p :: 0 <= p < |picked| ==> after[picked[p]] == qs[picked[p]].(questionId := Some(NatToString(p)))) &&
            (forall k :: 0 <= k < |qs| && k !in picked ==> after[k] == qs[k])
  {
    var picked := Listed(qs, subject, difficulty, limit);
    RenumberedFacts(qs, picked, |picked|);
    assert picked[..|picked|] == picked;
  }

  // ---------------------------------------------------------------------
  // Progress

  datatype SubjectStats = SubjectStats(attempted: nat, correct: nat, marks: int)

  /** The per-subject dictionary in insertion order: subject key and its counters. */
  type SubjectTable = seq<(Value, SubjectStats)>

  datatype SubjectRow = SubjectRow(subject: Value, attempted: nat, correct: nat, marks: int, accuracy: real)

  datatype Progress = Progress(
    totalAttempted: nat, totalCorrect: nat, totalMarks: int, accuracy: real, subjectWise: seq<SubjectRow>)

  /** The fixed record shown when there is no stored progress or reading it fails. */
  const MockProgress: Progress := Progress(15, 11, 22, 73.33, [
    SubjectRow(Str("Data Structures"), 5, 4, 8, 80.0),
    SubjectRow(Str("Algorithms"), 4, 3, 6, 75.0),
    SubjectRow(Str("Operating Systems"), 3, 2, 4, 66.67),
    SubjectRow(Str("Database Management Systems"), 3, 2, 4, 66.67)])

  /** `entry.get("subject", "Unknown")`. */
  function SubjectKey(e: Doc): Value {
    if "subject" in e then e["subject"] else Str("Unknown")
  }

  /** Whether a value can be a dictionary key. */
  predicate Hashable(v: Value) {
    !v.List? && !v.Obj?
  }

  /** `entry.get("is_correct")` is truthy. */
  predicate IsCorrect(e: Doc) {
    "is_correct" in e && PyTruthy(e["is_correct"])
  }

  /** `entry.get("marks_awarded", 0)` as a number; `None` where adding it raises. */
  function MarksOf(e: Doc): Option<int> {
    if "marks_awarded" !in e then Some(0)
    else match e["marks_awarded"]
      case Int(n) => Some(n)
      case Bool(b) => Some(BoolInt(b))
      case _ => None
  }

  function CountCorrect(es: seq<Doc>): (n: nat)
    ensures n <= |es|
  {
    if es == [] then 0 else CountCorrect(es[..|es| - 1]) + (if IsCorrect(es[|es| - 1]) then 1 else 0)
  }

  /** `sum(p.get("marks_awarded", 0) for p in ...)`, `None` where it raises. */
  function SumMarks(es: seq<Doc>): Option<int> {
    if es == [] then Some(0)
    else
      match (SumMarks(es[..|es| - 1]), MarksOf(es[|es| - 1]))
      case (Some(a), Some(b)) => Some(a + b)
      case _ => None
  }

  /** The first row whose key equals `k` (dictionary keys compare with `==`). */
  function IndexOfKey(t: SubjectTable, k: Value): (r: Option<nat>)
    ensures r.Some? ==> r.value < |t| && PyEq(t[r.value].0, k)
    ensures r.None? ==> forall i :: 0 <= i < |t| ==> !PyEq(t[i].0, k)
  {
    if t == [] then None
    else
      var r := IndexOfKey(t[..|t| - 1], k);
      if r.Some? then r else if PyEq(t[|t| - 1].0, k) then Some(|t| - 1) else None
  }

  /** One pass of the subject loop: count the entry under its subject. */
  function AddEntry(t: SubjectTable, e: Doc): SubjectTable
    requires MarksOf(e).Some?
  {
    var key := SubjectKey(e);
    var c := if IsCorrect(e) then 1 else 0;
    match IndexOfKey(t, key)
    case None => t + [(key, SubjectStats(1, c, MarksOf(e).value))]
    case Some(i) =>
      var s := t[i].1;
      t[i := (t[i].0, SubjectStats(s.attempted + 1, s.correct + c, s.marks + MarksOf(e).value))]
  }

  /** The subject dictionary after the loop, `None` where a subject cannot be a key. */
  function Tabulate(es: seq<Doc>): Option<SubjectTable>
    requires SumMarks(es).Some?
  {
    if es == [] then Some([])
    else
      assert SumMarks(es[..|es| - 1]).Some?;
      match Tabulate(es[..|es| - 1])
      case None => None
      case Some(t) => if Hashable(SubjectKey(es[|es| - 1])) then Some(AddEntry(t, es[|es| - 1])) else None
  }

  /** `(correct / attempted * 100) if attempted > 0 else 0`, unrounded. */
  function Accuracy(correct: nat, attempted: nat): real {
    if attempted > 0 then correct as real / attempted as real * 100.0 else 0.0
  }

  function Row(e: (Value, SubjectStats)): SubjectRow {
    SubjectRow(e.0, e.1.attempted, e.1.correct, e.1.marks, Accuracy(e.1.correct, e.1.attempted))
  }

  /** `get_gate_progress` over what the progress collection holds for the user (`None`: no collection). */
  function ProgressOf(stored: Option<seq<Doc>>): Progress {
    if stored.None? || stored.value == [] then MockProgress
    else
      var es := stored.value;
      match SumMarks(es)
      case None => MockProgress
      case Some(marks) =>
        match Tabulate(es)
        case None => MockProgress
        case Some(t) =>
          var correct := CountCorrect(es);
          Progress(|es|, correct, marks, Accuracy(correct, |es|), seq(|t|, i requires 0 <= i < |t| => Row(t[i])))
  }

  /** `get_gate_progress`: the subject counters are updated in place, then each gets its accuracy. */
  method GetGateProgress(stored: Option<seq<Doc>>) returns (p: Progress)
    ensures p == ProgressOf(stored)
  {
    if stored.None? || stored.value == [] {
      return MockProgress;
    }
    var es := stored.value;
    var marks := SumMarks(es);
    if marks.None? {
      return MockProgress;
    }
    var correct := CountCorrect(es);
    var table: SubjectTable := [];
    for i := 0 to |es|
      invariant SumMarks(es[..i]).Some? && Tabulate(es[..i]) == Some(table)
    {
      TabulateStep(es, i);
      var key := SubjectKey(es[i]);
      if !Hashable(key) {
        TabulateRaises(es, i + 1);
        return MockProgress;
      }
      table := AddEntry(table, es[i]);
    }
    assert es[..|es|] == es;
    var rows: seq<SubjectRow> := [];
    for i := 0 to |table|
      invariant rows == seq(i, j requires 0 <= j < i => Row(table[j]))
    {
      rows := rows + [Row(table[i])];
    }
    return Progress(|es|, correct, marks.value, Accuracy(correct, |es|), rows);
  }

  lemma {:induction false} SumMarksPrefix(es: seq<Doc>, i: nat)
    requires i <= |es| && SumMarks(es).Some?
    ensures SumMarks(es[..i]).Some?
  {
    if i < |es| {
      var init := es[..|es| - 1];
      assert init[..i] == es[..i];
      SumMarksPrefix(init, i);
    } else {
      assert es[..i] == es;
    }
  }

  lemma TabulateStep(es: seq<Doc>, i: nat)
    requires i < |es| && SumMarks(es).Some?
    ensures SumMarks(es[..i + 1]).Some? && MarksOf(es[i]).Some?
    ensures es[..i + 1][..i] == es[..i] && es[..i + 1][i] == es[i]
  {
    SumMarksPrefix(es, i + 1);
    assert es[..i + 1][..i] == es[..i];
  }

  lemma {:induction false} TabulateRaises(es: seq<Doc>, i: nat)
    requires 0 < i <= |es| && SumMarks(es).Some?
    requires SumMarks(es[..i]).Some? && Tabulate(es[..i]).None?
    ensures Tabulate(es).None?
  {
    if i < |es| {
      var init := es[..|es| - 1];
      assert init[..i] == es[..i];
      SumMarksPrefix(es, |es| - 1);
      TabulateRaises(init, i);
    } else {
      assert es[..i] == es;
    }
  }

  /** The sum of one counter over the rows. */
  function ColumnSum(t: SubjectTable, c: nat): int
    requires c < 3
  {
    if t == [] then 0
    else
      var s := t[|t| - 1].1;
      ColumnSum(t[..|t| - 1], c) + (if c == 0 then s.attempted else if c == 1 then s.correct else s.marks)
  }

  function Column(s: SubjectStats, c: nat): int
    requires c < 3
  {
    if c == 0 then s.attempted else if c == 1 then s.correct else s.marks
  }

  lemma {:induction false} ColumnSumUpdate(t: SubjectTable, i: nat, x: (Value, SubjectStats), c: nat)
    requires i < |t| && c < 3
    ensures ColumnSum(t[i := x], c) == ColumnSum(t, c) - Column(t[i].1, c) + Column(x.1, c)
  {
    var u := t[i := x];
    if i < |t| - 1 {
      assert u[..|u| - 1] == t[..|t| - 1][i := x];
      ColumnSumUpdate(t[..|t| - 1], i, x, c);
    } else {
      assert u[..|u| - 1] == t[..|t| - 1];
    }
  }

  /** No two rows have equal keys, and no row counts more correct answers than attempts. */
  ghost predicate TableShape(t: SubjectTable) {
    (forall i, j :: 0 <= i < j < |t| ==> !PyEq(t[i].0, t[j].0)) &&
    (forall i :: 0 <= i < |t| ==> t[i].1.correct <= t[i].1.attempted && Hashable(t[i].0))
  }

  /** `u` is `t` with `e` counted: the same shape, the counters raised by `e`, and a row for every key `t` had and for `e`'s subject. */
  ghost predicate EntryCounted(t: SubjectTable, e: Doc, u: SubjectTable)
    requires MarksOf(e).Some?
  {
    TableShape(u) &&
    ColumnSum(u, 0) == ColumnSum(t, 0) + 1 &&
    ColumnSum(u, 1) == ColumnSum(t, 1) + (if IsCorrect(e) then 1 else 0) &&
    ColumnSum(u, 2) == ColumnSum(t, 2) + MarksOf(e).value &&
    IndexOfKey(u, SubjectKey(e)).Some? &&
    forall k :: IndexOfKey(t, k).Some? ==> IndexOfKey(u, k).Some?
  }

  /** Counting one more entry keeps the table's shape, adds it to the counters, and gives its subject a row. */
  lemma AddEntryFacts(t: SubjectTable, e: Doc)
    requires MarksOf(e).Some? && Hashable(SubjectKey(e)) && TableShape(t)
    ensures var u := AddEntry(t, e);
            TableShape(u) &&
            ColumnSum(u, 0) == ColumnSum(t, 0) + 1 &&
            ColumnSum(u, 1) == ColumnSum(t, 1) + (if IsCorrect(e) then 1 else 0) &&
            ColumnSum(u, 2) == ColumnSum(t, 2) + MarksOf(e).value &&
            IndexOfKey(u, SubjectKey(e)).Some? &&
            forall k :: IndexOfKey(t, k).Some? ==> IndexOfKey(u, k).Some?
  {
    match IndexOfKey(t, SubjectKey(e))
    case None => AddEntryNewRow(t, e);
    case Some(i) =>
      var s := t[i].1;
      var x := (t[i].0, SubjectStats(s.attempted + 1, s.correct + (if IsCorrect(e) then 1 else 0), s.marks + MarksOf(e).value));
      AddEntryAt(t, e, i);
      AddEntryOldRow(t, e, i, x);
  }

  lemma AddEntryNewRow(t: SubjectTable, e: Doc)
    requires MarksOf(e).Some? && Hashable(SubjectKey(e)) && TableShape(t)
    requires IndexOfKey(t, SubjectKey(e)).None?
    ensures EntryCounted(t, e, AddEntry(t, e))
  {
    var key := SubjectKey(e);
    var c := if IsCorrect(e) then 1 else 0;
    var u := AddEntry(t, e);
    PyEqReflexive(key);
    assert u == t + [(key, SubjectStats(1, c, MarksOf(e).value))];
    assert u[..|u| - 1] == t;
    assert PyEq(u[|t|].0, key);
    forall k | IndexOfKey(t, k).Some? ensures IndexOfKey(u, k).Some? {
      var j := IndexOfKey(t, k).value;
      assert u[j] == t[j];
    }
  }

  lemma AddEntryOldRow(t: SubjectTable, e: Doc, i: nat, x: (Value, SubjectStats))
    requires MarksOf(e).Some? && TableShape(t) && i < |t| && PyEq(t[i].0, SubjectKey(e))
    requires x == (t[i].0, SubjectStats(t[i].1.attempted + 1, t[i].1.correct + (if IsCorrect(e) then 1 else 0),
                                        t[i].1.marks + MarksOf(e).value))
    ensures EntryCounted(t, e, t[i := x])
  {
    ColumnSumUpdate(t, i, x, 0);
    ColumnSumUpdate(t, i, x, 1);
    ColumnSumUpdate(t, i, x, 2);
    RowUpdated(t, i, x);
    assert t[i := x][i].0 == t[i].0;
  }

  lemma AddEntryAt(t: SubjectTable, e: Doc, i: nat)
    requires MarksOf(e).Some? && IndexOfKey(t, SubjectKey(e)) == Some(i)
    ensures var s := t[i].1;
            AddEntry(t, e) == t[i := (t[i].0, SubjectStats(s.attempted + 1, s.correct + (if IsCorrect(e) then 1 else 0), s.marks + MarksOf(e).value))]
  {
  }

  /** Replacing a row's counters, keeping its key and correct <= attempted, keeps the shape and every key's row. */
  lemma RowUpdated(t: SubjectTable, i: nat, x: (Value, SubjectStats))
    requires TableShape(t) && i < |t| && x.0 == t[i].0 && x.1.correct <= x.1.attempted
    ensures TableShape(t[i := x])
    ensures forall k :: IndexOfKey(t, k).Some? ==> IndexOfKey(t[i := x], k).Some?
  {
    var u := t[i := x];
    forall k | IndexOfKey(t, k).Some? ensures IndexOfKey(u, k).Some? {
      var j := IndexOfKey(t, k).value;
      assert u[j].0 == t[j].0;
    }
  }

  /**
   * The per-subject counters add up to the totals: attempts to the number
   * of entries, correct answers to `total_correct`, marks to `total_marks`;
   * each subject appears once, every entry's subject has a row, and no
   * subject has more correct answers than attempts.
   */
  lemma {:induction false} TabulateFacts(es: seq<Doc>)
    requires SumMarks(es).Some? && Tabulate(es).Some?
    ensures var t := Tabulate(es).value;
            TableShape(t) &&
            ColumnSum(t, 0) == |es| && ColumnSum(t, 1) == CountCorrect(es) && ColumnSum(t, 2) == SumMarks(es).value &&
            forall e :: e in es ==> IndexOfKey(t, SubjectKey(e)).Some?
  {
    if es != [] {
      var init := es[..|es| - 1];
      var e := es[|es| - 1];
      TabulateLast(es);
      TabulateFacts(init);
      var t := Tabulate(init).value;
      AddEntryFacts(t, e);
      forall e' | e' in es ensures IndexOfKey(AddEntry(t, e), SubjectKey(e')).Some? {
        if e' != e {
          assert e' in init;
        }
      }
    }
  }

  lemma TabulateLast(es: seq<Doc>)
    requires es != [] && SumMarks(es).Some? && Tabulate(es).Some?
    ensures var init := es[..|es| - 1];
            var e := es[|es| - 1];
            SumMarks(init).Some? && Tabulate(init).Some? && MarksOf(e).Some? && Hashable(SubjectKey(e)) &&
            Tabulate(es).value == AddEntry(Tabulate(init).value, e) &&
            SumMarks(es).value == SumMarks(init).value + MarksOf(e).value &&
            CountCorrect(es) == CountCorrect(init) + (if IsCorrect(e) then 1 else 0)
  {
  }

  /** The counters agree with the totals in the progress reply, whichever way it was produced. */
  lemma ProgressFacts(stored: Option<seq<Doc>>)
    ensures ProgressOf(stored).totalCorrect <= ProgressOf(stored).totalAttempted
    ensures stored.Some? && stored.value != [] && SumMarks(stored.value).Some? && Tabulate(stored.value).Some? ==>
              var p := ProgressOf(stored);
              p.totalAttempted == |stored.value| &&
              p.totalMarks == SumMarks(stored.value).value &&
              |p.subjectWise| == |Tabulate(stored.value).value|
    ensures stored.None? || stored == Some([]) ==> ProgressOf(stored) == MockProgress
  {
  }

  // ---------------------------------------------------------------------
  // Resources and year analysis

  datatype ResourceGroup = ResourceGroup(subject: string, resources: seq<Doc>)

  /** The groups of `groups` for `subject`, in order. */
  function GroupsFor(groups: seq<ResourceGroup>, subject: string): seq<ResourceGroup> {
    if groups == [] then []
    else
      var init := GroupsFor(groups[..|groups| - 1], subject);
      if groups[|groups| - 1].subject == subject then init + [groups[|groups| - 1]] else init
  }

  /** `get_gate_resources`: every group, or only those of the given subject. */
  function GetGateResources(groups: seq<ResourceGroup>, subject: Option<string>): seq<ResourceGroup> {
    if Given(subject) then GroupsFor(groups, subject.value) else groups
  }

  /** A subject filter keeps exactly that subject's groups, in their order, each as often as it occurs. */
  lemma GroupsForExactly(groups: seq<ResourceGroup>, subject: string)
    ensures forall g :: g in GroupsFor(groups, subject) <==> g in groups && g.subject == subject
    ensures multiset(GroupsFor(groups, subject)) <= multiset(groups)
    ensures forall g: ResourceGroup :: g.subject == subject ==> multiset(GroupsFor(groups, subject))[g] == multiset(groups)[g]
  {
    GroupsForCount(groups, subject);
    var kept := multiset(GroupsFor(groups, subject));
    forall g ensures kept[g] <= multiset(groups)[g] {
    }
    forall g ensures g in GroupsFor(groups, subject) <==> g in groups && g.subject == subject {
      assert g in GroupsFor(groups, subject) <==> kept[g] > 0;
      assert g in groups <==> multiset(groups)[g] > 0;
    }
  }

  lemma {:induction false} GroupsForCount(groups: seq<ResourceGroup>, subject: string)
    ensures forall g :: multiset(GroupsFor(groups, subject))[g] == if g.subject == subject then multiset(groups)[g] else 0
  {
    if groups != [] {
      var init := groups[..|groups| - 1];
      GroupsForCount(init, subject);
      assert groups == init + [groups[|groups| - 1]];
    }
  }

  datatype Analysis = AllYears(years: map<string, Doc>) | OneYear(analysis: Doc)

  /** `get_year_analysis`: a given, non-zero year selects its entry, and an unknown one `{}`. */
  function GetYearAnalysis(table: map<string, Doc>, year: Option<int>): (r: Analysis)
    ensures year.None? || year == Some(0) <==> r == AllYears(table)
    ensures r.OneYear? && r.analysis != map[] ==> IntToString(year.value) in table && r.analysis == table[IntToString(year.value)]
    ensures year.Some? && year.value != 0 && IntToString(year.value) !in table ==> r == OneYear(map[])
  {
    if year.None? || year.value == 0 then AllYears(table)
    else if IntToString(year.value) in table then OneYear(table[IntToString(year.value)])
    else OneYear(map[])
  }

  /** Two different years never select the same key. */
  lemma YearKeysDistinct(table: map<string, Doc>, a: int, b: int)
    requires a != 0 && b != 0 && a != b
    ensures IntToString(a) != IntToString(b)
  {
    if IntToString(a) == IntToString(b) {
      IntToStringInjective(a, b);
    }
  }
}
