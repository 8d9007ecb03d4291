/**
 * The branch-selection quiz: each answer names a question and one of its
 * options, the option's points are added to the five branch scores, and
 * the branch with the highest score is recommended. HTTP failures are
 * `Err(status)`; an uncaught exception is status 500.
 */
module Quiz {
  import opened Common
  import opened Text

  /** The branches scored, in the order the score dictionary lists them. */
  const Branches: seq<string> := ["CSE", "ECE", "EEE", "ME", "Civil"]

  /** Fewer answers than this are refused. */
  const MinAnswers: nat := 10

  /** The description of a branch with no entry in the description table. */
  const FallbackDescription: string := "Engineering is a versatile field."

  /** An option of a question and the points it gives, in the order its `points` dictionary lists them. */
  datatype QuizOption = QuizOption(id: string, points: seq<(string, int)>)

  datatype Question = Question(id: int, options: seq<QuizOption>)

  /** One submitted answer: a dictionary of strings, normally holding `question_id` and `option_id`. */
  type Answer = map<string, string>

  type Scores = map<string, int>

  datatype Recommendation = Recommendation(branch: string, description: string, scores: Scores)

  /** The score table every tally starts from. */
  function InitialScores(): (s: Scores)
    ensures forall b :: b in s <==> b in Branches
    ensures forall b :: b in s ==> s[b] == 0
  {
    map["CSE" := 0, "ECE" := 0, "EEE" := 0, "ME" := 0, "Civil" := 0]
  }

  /** A score table over exactly the five branches. */
  ghost predicate Keyed(s: Scores) {
    forall b :: b in s <==> b in Branches
  }

  /** `q` is in `questions` and no later question has the id `id`. */
  predicate LastWithId(questions: seq<Question>, id: int, q: Question) {
    exists i :: 0 <= i < |questions| && questions[i] == q && forall j :: i < j < |questions| ==> questions[j].id != id
  }

  lemma LastWithIdSnoc(init: seq<Question>, q: Question)
    ensures LastWithId(init + [q], q.id, q)
    ensures forall id, x :: LastWithId(init, id, x) && q.id != id ==> LastWithId(init + [q], id, x)
  {
    var qs := init + [q];
    assert qs[|init|] == q;
    forall id, x | LastWithId(init, id, x) && q.id != id ensures LastWithId(qs, id, x) {
      var i :| 0 <= i < |init| && init[i] == x && forall j :: i < j < |init| ==> init[j].id != id;
      assert qs[i] == x;
    }
  }

  /** `{q["id"]: q for q in questions}`: a later question with the same id replaces an earlier one. */
  function QuestionMap(questions: seq<Question>): (m: map<int, Question>)
    ensures forall id :: id in m <==> exists i :: 0 <= i < |questions| && questions[i].id == id
    ensures forall id :: id in m ==> m[id].id == id && LastWithId(questions, id, m[id])
  {
    if questions == [] then map[]
    else
      var init := questions[..|questions| - 1];
      var q := questions[|questions| - 1];
      var m := QuestionMap(init)[q.id := q];
      assert questions == init + [q];
      LastWithIdSnoc(init, q);
      m
  }

  /** `o` is in `options` and no earlier option has the id `id`. */
  predicate FirstWithId(options: seq<QuizOption>, id: string, o: QuizOption) {
    exists i :: 0 <= i < |options| && options[i] == o && forall j :: 0 <= j < i ==> options[j].id != id
  }

  /** `next((o for o in options if o["id"] == id), None)`: the first option with that id. */
  function FirstOption(options: seq<QuizOption>, id: string): (r: Option<QuizOption>)
    ensures r.None? <==> forall i :: 0 <= i < |options| ==> options[i].id != id
    ensures r.Some? ==> r.value.id == id && FirstWithId(options, id, r.value)
  {
    if options == [] then None
    else if options[0].id == id then Some(options[0])
    else
      var r := FirstOption(options[1..], id);
      assert forall i :: 0 < i < |options| ==> options[i] == options[1..][i - 1];
      r
  }

  /**
   * The points one answer contributes. A missing key or a `question_id`
   * that `int()` refuses raises; an unknown question or option adds nothing.
   */
  function AnswerPoints(questionMap: map<int, Question>, ans: Answer): (r: Result<seq<(string, int)>, nat>)
    ensures r.Err? <==> ("question_id" !in ans || ParsePyInt(ans["question_id"]).None? || "option_id" !in ans)
    ensures r.Err? ==> r.error == 500
    ensures r.Ok? && r.value != [] ==>
              var q := ParsePyInt(ans["question_id"]).value;
              q in questionMap && exists o :: o in questionMap[q].options && o.id == ans["option_id"] && o.points == r.value
  {
    if "question_id" !in ans then Err(500)
    else
      var qId := ParsePyInt(ans["question_id"]);
      if qId.None? || "option_id" !in ans then Err(500)
      else if qId.value !in questionMap then Ok([])
      else
        match FirstOption(questionMap[qId.value].options, ans["option_id"])
        case None => Ok([])
        case Some(o) => Ok(o.points)
  }

  /** The inner loop: each point for one of the five branches is added to that branch. */
  function AddPoints(s: Scores, points: seq<(string, int)>): (r: Scores)
    ensures r.Keys == s.Keys
  {
    if points == [] then s
    else
      var init := AddPoints(s, points[..|points| - 1]);
      var (b, v) := points[|points| - 1];
      if b in init then init[b := init[b] + v] else init
  }

  /** The tally over the first answers; the first answer that raises makes the whole tally raise. */
  function Tally(questionMap: map<int, Question>, answers: seq<Answer>): (r: Result<Scores, nat>)
    ensures r.Ok? ==> Keyed(r.value)
    ensures r.Err? ==> r.error == 500
  {
    if answers == [] then Ok(InitialScores())
    else
      var s :- Tally(questionMap, answers[..|answers| - 1]);
      var points :- AnswerPoints(questionMap, answers[|answers| - 1]);
      Ok(AddPoints(s, points))
  }

  /** `max(scores, key=scores.get)` over the keys in `bs`: the first key with the greatest score. */
  function FirstMax(s: Scores, bs: seq<string>): (r: string)
    requires |bs| > 0 && forall i :: 0 <= i < |bs| ==> bs[i] in s
    ensures r in s
    ensures forall i :: 0 <= i < |bs| ==> s[bs[i]] <= s[r]
    ensures exists i :: 0 <= i < |bs| && bs[i] == r && forall j :: 0 <= j < i ==> s[bs[j]] < s[r]
  {
    if |bs| == 1 then bs[0]
    else
      var init := bs[..|bs| - 1];
      var m := FirstMax(s, init);
      var i :| 0 <= i < |init| && init[i] == m && forall j :: 0 <= j < i ==> s[init[j]] < s[m];
      assert bs[i] == m && forall j :: 0 <= j < i ==> s[bs[j]] < s[m];
      if s[bs[|bs| - 1]] > s[m] then bs[|bs| - 1] else m
  }

  /** `BRANCH_DESCRIPTIONS.get(branch, ...)`. */
  function Describe(descriptions: map<string, string>, branch: string): string {
    if branch in descriptions then descriptions[branch] else FallbackDescription
  }

  /** What the endpoint answers for these answers, as a function of them. */
  function Outcome(questions: seq<Question>, answers: seq<Answer>, descriptions: map<string, string>): Result<Recommendation, nat> {
    if |answers| < MinAnswers then Err(400)
    else
      var s :- Tally(QuestionMap(questions), answers);
      var best := FirstMax(s, Branches);
      Ok(Recommendation(best, Describe(descriptions, best), s))
  }

  lemma {:induction false} TallyRaises(questionMap: map<int, Question>, answers: seq<Answer>, i: nat)
    requires i < |answers| && Tally(questionMap, answers[..i + 1]).Err?
    ensures Tally(questionMap, answers).Err?
  {
    if i + 1 < |answers| {
      var init := answers[..|answers| - 1];
      assert init[..i + 1] == answers[..i + 1];
      TallyRaises(questionMap, init, i);
    } else {
      assert answers[..i + 1] == answers;
    }
  }

  /** The inner loop of the tally: `scores[branch] += val` for each listed branch among the five. */
  method AddOptionPoints(scores: Scores, points: seq<(string, int)>) returns (next: Scores)
    ensures next == AddPoints(scores, points)
  {
    next := scores;
    for j := 0 to |points|
      invariant next == AddPoints(scores, points[..j])
    {
      assert points[..j + 1][..j] == points[..j];
      var (branch, val) := points[j];
      if branch in next {
        next := next[branch := next[branch] + val];
      }
    }
    assert points[..|points|] == points;
  }

  /** One more answer extends the tally by its points, or makes it raise. */
  lemma TallyStep(questionMap: map<int, Question>, answers: seq<Answer>, i: nat, s: Scores)
    requires i < |answers| && Tally(questionMap, answers[..i]) == Ok(s)
    ensures AnswerPoints(questionMap, answers[i]).Ok? ==>
              Tally(questionMap, answers[..i + 1]) == Ok(AddPoints(s, AnswerPoints(questionMap, answers[i]).value))
    ensures AnswerPoints(questionMap, answers[i]).Err? ==> Tally(questionMap, answers[..i + 1]).Err?
  {
    assert answers[..i + 1][..i] == answers[..i];
  }

  /** `get_branch_recommendation`: the tally runs in place over the answers and their options' points. */
  method Recommend(questions: seq<Question>, answers: seq<Answer>, descriptions: map<string, string>)
    returns (r: Result<Recommendation, nat>)
    ensures r == Outcome(questions, answers, descriptions)
  {
    if |answers| < MinAnswers {
      return Err(400);
    }
    var scores := InitialScores();
    var questionMap := QuestionMap(questions);
    for i := 0 to |answers|
      invariant Tally(questionMap, answers[..i]) == Ok(scores)
    {
      var ans := answers[i];
      TallyStep(questionMap, answers, i, scores);
      if "question_id" !in ans {
        TallyRaises(questionMap, answers, i);
        return Err(500);
      }
      var qId := ParsePyInt(ans["question_id"]);
      if qId.None? || "option_id" !in ans {
        TallyRaises(questionMap, answers, i);
        return Err(500);
      }
      if qId.value in questionMap {
        var option := FirstOption(questionMap[qId.value].options, ans["option_id"]);
        if option.Some? {
          assert AnswerPoints(questionMap, ans) == Ok(option.value.points);
          scores := AddOptionPoints(scores, option.value.points);
        } else {
          assert AnswerPoints(questionMap, ans) == Ok([]);
        }
      } else {
        assert AnswerPoints(questionMap, ans) == Ok([]);
      }
    }
    assert answers[..|answers|] == answers;
    var best := FirstMax(scores, Branches);
    return Ok(Recommendation(best, Describe(descriptions, best), scores));
  }

  // ---------------------------------------------------------------------
  // What the tally adds up to

  /** The sum of the scores of the branches `bs`. */
  function SumOver(s: Scores, bs: seq<string>): int
    requires forall i :: 0 <= i < |bs| ==> bs[i] in s
  {
    if bs == [] then 0 else SumOver(s, bs[..|bs| - 1]) + s[bs[|bs| - 1]]
  }

  /** The sum of the five scores. */
  function Total(s: Scores): int
    requires Keyed(s)
  {
    SumOver(s, Branches)
  }

  /** The points of `points` that go to one of the five branches. */
  function Relevant(points: seq<(string, int)>): int {
    if points == [] then 0
    else Relevant(points[..|points| - 1]) + (if points[|points| - 1].0 in Branches then points[|points| - 1].1 else 0)
  }

  /** The relevant points of every answer, counted once per answer. */
  function AnswersTotal(questionMap: map<int, Question>, answers: seq<Answer>): int {
    if answers == [] then 0
    else
      var p := AnswerPoints(questionMap, answers[|answers| - 1]);
      AnswersTotal(questionMap, answers[..|answers| - 1]) + (if p.Ok? then Relevant(p.value) else 0)
  }

  lemma {:induction false} SumOverZero(s: Scores, bs: seq<string>)
    requires forall i :: 0 <= i < |bs| ==> bs[i] in s && s[bs[i]] == 0
    ensures SumOver(s, bs) == 0
  {
    if bs != [] {
      SumOverZero(s, bs[..|bs| - 1]);
    }
  }

  lemma {:induction false} SumOverBump(s: Scores, bs: seq<string>, b: string, v: int)
    requires b in s && forall i :: 0 <= i < |bs| ==> bs[i] in s
    requires forall i, j :: 0 <= i < j < |bs| ==> bs[i] != bs[j]
    ensures SumOver(s[b := s[b] + v], bs) == SumOver(s, bs) + (if b in bs then v else 0)
  {
    if bs != [] {
      var init := bs[..|bs| - 1];
      SumOverBump(s, init, b, v);
      assert b in bs <==> b in init || b == bs[|bs| - 1];
      assert b == bs[|bs| - 1] ==> b !in init;
    }
  }

  /** Adding an option's points raises the total by exactly its points for the five branches. */
  lemma {:induction false} AddPointsTotal(s: Scores, points: seq<(string, int)>)
    requires Keyed(s)
    ensures Keyed(AddPoints(s, points))
    ensures Total(AddPoints(s, points)) == Total(s) + Relevant(points)
  {
    if points != [] {
      var init := points[..|points| - 1];
      AddPointsTotal(s, init);
      var (b, v) := points[|points| - 1];
      if b in Branches {
        SumOverBump(AddPoints(s, init), Branches, b, v);
      }
    }
  }

  /** The five scores sum to the points of every matched option, each answer counted as often as it occurs. */
  lemma {:induction false} TallyTotal(questionMap: map<int, Question>, answers: seq<Answer>)
    requires Tally(questionMap, answers).Ok?
    ensures Total(Tally(questionMap, answers).value) == AnswersTotal(questionMap, answers)
  {
    if answers != [] {
      var init := answers[..|answers| - 1];
      var t := Tally(questionMap, init);
      var p := AnswerPoints(questionMap, answers[|answers| - 1]);
      assert t.Ok? && p.Ok?;
      TallyTotal(questionMap, init);
      AddPointsTotal(t.value, p.value);
      assert Tally(questionMap, answers).value == AddPoints(t.value, p.value);
      assert AnswersTotal(questionMap, answers) == AnswersTotal(questionMap, init) + Relevant(p.value);
    } else {
      SumOverZero(InitialScores(), Branches);
    }
  }

  /** Answering the same question twice counts its option twice. */
  lemma RepeatedAnswerCountsTwice(questionMap: map<int, Question>, answers: seq<Answer>, a: Answer)
    requires Tally(questionMap, answers + [a, a]).Ok?
    ensures Tally(questionMap, answers).Ok? && AnswerPoints(questionMap, a).Ok?
    ensures Total(Tally(questionMap, answers + [a, a]).value) ==
            Total(Tally(questionMap, answers).value) + 2 * Relevant(AnswerPoints(questionMap, a).value)
  {
    var xs := answers + [a, a];
    assert xs[..|xs| - 1] == answers + [a] && xs[..|xs| - 1][..|answers|] == answers;
    TallyTotal(questionMap, xs);
    TallyTotal(questionMap, answers);
  }

  // ---------------------------------------------------------------------
  // Scores only grow

  /** Every point an option gives is non-negative, as in the shipped questions. */
  predicate NonNegativePoints(questions: seq<Question>) {
    forall q, o, i :: q in questions && o in q.options && 0 <= i < |o.points| ==> o.points[i].1 >= 0
  }

  predicate Dominates(later: Scores, earlier: Scores) {
    earlier.Keys == later.Keys && forall b :: b in earlier ==> earlier[b] <= later[b]
  }

  lemma {:induction false} AddPointsGrows(s: Scores, points: seq<(string, int)>)
    requires forall i :: 0 <= i < |points| ==> points[i].1 >= 0
    ensures Dominates(AddPoints(s, points), s)
  {
    if points != [] {
      AddPointsGrows(s, points[..|points| - 1]);
    }
  }

  /** With non-negative points, each further answer leaves every score at least where it was. */
  lemma {:induction false} TallyGrows(questions: seq<Question>, answers: seq<Answer>, k: nat)
    requires NonNegativePoints(questions) && k <= |answers|
    requires Tally(QuestionMap(questions), answers).Ok?
    ensures Tally(QuestionMap(questions), answers[..k]).Ok?
    ensures Dominates(Tally(QuestionMap(questions), answers).value, Tally(QuestionMap(questions), answers[..k]).value)
  {
    var qm := QuestionMap(questions);
    if k == |answers| {
      assert answers[..k] == answers;
    } else {
      var init := answers[..|answers| - 1];
      assert init[..k] == answers[..k];
      TallyGrows(questions, init, k);
      var p := AnswerPoints(qm, answers[|answers| - 1]).value;
      forall i | 0 <= i < |p| ensures p[i].1 >= 0 {
        if p != [] {
          var q := ParsePyInt(answers[|answers| - 1]["question_id"]).value;
          var o :| o in qm[q].options && o.id == answers[|answers| - 1]["option_id"] && o.points == p;
          assert qm[q] in questions;
        }
      }
      AddPointsGrows(Tally(qm, init).value, p);
    }
  }

  // ---------------------------------------------------------------------
  // The recommendation

  /** The recommendation has the greatest score, ties going to the earliest of CSE, ECE, EEE, ME, Civil; too few answers is 400. */
  lemma OutcomeFacts(questions: seq<Question>, answers: seq<Answer>, descriptions: map<string, string>)
    ensures |answers| < MinAnswers <==> Outcome(questions, answers, descriptions) == Err(400)
    ensures Outcome(questions, answers, descriptions).Err? ==> Outcome(questions, answers, descriptions).error in {400, 500}
    ensures Outcome(questions, answers, descriptions).Ok? ==>
              var rec := Outcome(questions, answers, descriptions).value;
              Keyed(rec.scores) && rec.branch in Branches &&
              (forall b :: b in Branches ==> rec.scores[b] <= rec.scores[rec.branch]) &&
              (exists i :: 0 <= i < |Branches| && Branches[i] == rec.branch &&
                 forall j :: 0 <= j < i ==> rec.scores[Branches[j]] < rec.scores[rec.branch])
  {
    if |answers| >= MinAnswers {
      var t := Tally(QuestionMap(questions), answers);
      if t.Ok? {
        var best := FirstMax(t.value, Branches);
        assert best in Branches;
      }
    }
  }
}
