/**
 * The landing page's branch quiz. Five questions, each with eight options,
 * and each option names the branches it speaks for. The page keeps the
 * current question and the chosen options; on the last question "Show
 * Results" counts one point per branch per chosen option and shows the
 * three best branches with a match percentage.
 *
 * The wording of questions and options and the branch names, descriptions
 * and icons are display text and are not modelled.
 */
module QuizScript {
  import opened Common
  import Sorting

  datatype QuizOption = QuizOption(branches: seq<string>)
  datatype Question = Question(id: int, options: seq<QuizOption>)

  /** One entry of the results: a branch, its points and its match percentage. */
  datatype BranchResult = BranchResult(branch: string, score: int, percentage: int)

  /** The keys of `branchInfo`, in the order the object literal declares them. */
  const BranchKeys: seq<string> := ["civil", "cse", "cyber", "mechanical", "eee", "ece", "chemical", "aerospace"]

  const TopCount := 3

  const Questions: seq<Question> := [
    Question(1, [QuizOption(["civil"]), QuizOption(["cse"]), QuizOption(["cyber"]), QuizOption(["mechanical"]),
                 QuizOption(["eee"]), QuizOption(["ece"]), QuizOption(["chemical"]), QuizOption(["aerospace"])]),
    Question(2, [QuizOption(["civil"]), QuizOption(["cse", "cyber"]), QuizOption(["cyber"]), QuizOption(["mechanical"]),
                 QuizOption(["eee"]), QuizOption(["ece"]), QuizOption(["chemical"]),
                 QuizOption(["aerospace", "mechanical"])]),
    Question(3, [QuizOption(["civil"]), QuizOption(["cse"]), QuizOption(["cyber"]), QuizOption(["mechanical"]),
                 QuizOption(["eee", "ece"]), QuizOption(["ece"]), QuizOption(["chemical"]), QuizOption(["aerospace"])]),
    Question(4, [QuizOption(["civil"]), QuizOption(["cse", "cyber"]), QuizOption(["cyber"]),
                 QuizOption(["mechanical", "chemical"]), QuizOption(["eee"]), QuizOption(["ece"]),
                 QuizOption(["chemical"]), QuizOption(["aerospace"])]),
    Question(5, [QuizOption(["civil"]), QuizOption(["cse"]), QuizOption(["cyber"]), QuizOption(["mechanical"]),
                 QuizOption(["eee"]), QuizOption(["ece"]), QuizOption(["chemical"]), QuizOption(["aerospace"])])
  ]

  /** A chosen option; `None` is a hole in the JavaScript array, which `forEach` skips. */
  type Answers = seq<Option<QuizOption>>

  // ---------------------------------------------------------------------
  // The quiz data

  predicate Distinct(bs: seq<string>) {
    forall i, j :: 0 <= i < j < |bs| ==> bs[i] != bs[j]
  }

  /** An option speaks for known branches, each at most once. */
  predicate OptionOk(o: QuizOption) {
    Distinct(o.branches) && forall b :: b in o.branches ==> b in BranchKeys
  }

  predicate QuestionOk(q: Question) {
    forall o :: o in q.options ==> OptionOk(o)
  }

  lemma QuestionsOk()
    ensures |Questions| == 5
    ensures forall k :: 0 <= k < |Questions| ==> QuestionOk(Questions[k])
  {
    forall k | 0 <= k < |Questions| ensures QuestionOk(Questions[k]) {
      QuestionAtOk(k);
    }
  }

  lemma QuestionAtOk(k: nat)
    requires k < |Questions|
    ensures QuestionOk(Questions[k])
  {
    var q := Questions[k];
    forall i | 0 <= i < |q.options| ensures OptionOk(q.options[i]) {
      OptionAtOk(k, i);
    }
  }

  lemma OptionAtOk(k: nat, i: nat)
    requires k < |Questions| && i < |Questions[k].options|
    ensures OptionOk(Questions[k].options[i])
  {
    var bs := Questions[k].options[i].branches;
    assert |bs| <= 2;
    assert forall b :: b in bs ==> b in BranchKeys;
  }

  // ---------------------------------------------------------------------
  // Scoring

  /** How often `b` occurs in `bs`. */
  function Occurrences(bs: seq<string>, b: string): (n: nat)
    ensures n <= |bs|
  {
    if bs == [] then 0 else Occurrences(bs[..|bs| - 1], b) + (if bs[|bs| - 1] == b then 1 else 0)
  }

  /** The points of branch `b`: one for each chosen option that names it. */
  function Tally(answers: Answers, b: string): nat {
    if answers == [] then 0
    else
      var last := answers[|answers| - 1];
      Tally(answers[..|answers| - 1], b) + (if last.Some? then Occurrences(last.value.branches, b) else 0)
  }

  /** How many questions have an answer. */
  function Answered(answers: Answers): (n: nat)
    ensures n <= |answers|
  {
    if answers == [] then 0
    else Answered(answers[..|answers| - 1]) + (if answers[|answers| - 1].Some? then 1 else 0)
  }

  predicate KnownBranches(answers: Answers) {
    forall k :: 0 <= k < |answers| && answers[k].Some? ==> OptionOk(answers[k].value)
  }

  lemma {:induction false} OccurrencesDistinct(bs: seq<string>, b: string)
    requires Distinct(bs)
    ensures Occurrences(bs, b) <= 1
    ensures Occurrences(bs, b) == 1 <==> b in bs
  {
    if bs != [] {
      var init := bs[..|bs| - 1];
      OccurrencesDistinct(init, b);
      assert bs[|bs| - 1] !in init;
      assert forall x :: x in bs <==> x in init || x == bs[|bs| - 1];
    }
  }

  /** A branch gains at most one point per answered question, and only from options that name it. */
  lemma {:induction false} TallyBound(answers: Answers, b: string)
    requires KnownBranches(answers)
    ensures Tally(answers, b) <= Answered(answers)
    ensures b !in BranchKeys ==> Tally(answers, b) == 0
  {
    if answers != [] {
      var init := answers[..|answers| - 1];
      TallyBound(init, b);
      var last := answers[|answers| - 1];
      if last.Some? {
        OccurrencesDistinct(last.value.branches, b);
      }
    }
  }

  /** `showResults`' counting: every branch starts at 0 and each chosen option adds 1 to each of its branches. */
  method BranchScores(answers: Answers) returns (scores: map<string, int>)
    requires KnownBranches(answers)
    ensures forall b :: b in scores <==> b in BranchKeys
    ensures forall b :: b in BranchKeys ==> scores[b] == Tally(answers, b)
  {
    scores := map[];
    for i := 0 to |BranchKeys|
      invariant forall b :: b in scores <==> b in BranchKeys[..i]
      invariant forall b :: b in scores ==> scores[b] == 0
    {
      assert forall b :: b in BranchKeys[..i + 1] <==> b in BranchKeys[..i] || b == BranchKeys[i];
      scores := scores[BranchKeys[i] := 0];
    }
    assert BranchKeys[..|BranchKeys|] == BranchKeys;
    for i := 0 to |answers|
      invariant forall b :: b in scores <==> b in BranchKeys
      invariant forall b :: b in BranchKeys ==> scores[b] == Tally(answers[..i], b)
    {
      assert answers[..i + 1][..i] == answers[..i];
      if answers[i].Some? {
        var branches := answers[i].value.branches;
        for j := 0 to |branches|
          invariant forall b :: b in scores <==> b in BranchKeys
          invariant forall b :: b in BranchKeys ==> scores[b] == Tally(answers[..i], b) + Occurrences(branches[..j], b)
        {
          assert branches[..j + 1][..j] == branches[..j];
          assert branches[j] in BranchKeys;
          scores := scores[branches[j] := scores[branches[j]] + 1];
        }
        assert branches[..|branches|] == branches;
      }
    }
    assert answers[..|answers|] == answers;
  }

  /** `Object.entries(branchScores)`: the scores in key order. */
  function Entries(answers: Answers): (r: seq<(string, int)>)
    ensures |r| == |BranchKeys|
  {
    seq(|BranchKeys|, i requires 0 <= i < |BranchKeys| => (BranchKeys[i], Tally(answers, BranchKeys[i]) as int))
  }

  function Points(e: (string, int)): int {
    e.1
  }

  /** `.sort((a, b) => b[1] - a[1])`, a stable sort by descending points. */
  function MostPoints(): ((string, int), (string, int)) -> bool {
    Sorting.ByKeyDesc(Points)
  }

  /** `Math.round(n / d)` for non-negative `n` and positive `d`: halves round up. */
  function RoundHalfUp(n: int, d: int): int
    requires d > 0
  {
    (2 * n + d) / (2 * d)
  }

  /** `Math.round((score / totalQuestions) * 100)`. */
  function Percentage(score: int): int {
    RoundHalfUp(score * 100, |Questions|)
  }

  function Results(answers: Answers): seq<BranchResult> {
    var top := Sorting.Take(Sorting.Sort(Entries(answers), MostPoints()), TopCount);
    seq(|top|, i requires 0 <= i < |top| => BranchResult(top[i].0, top[i].1, Percentage(top[i].1)))
  }

  /** With five questions the percentage is twenty per point, so 0 to 100 for 0 to 5 points. */
  lemma PercentageFacts(score: int)
    requires 0 <= score <= |Questions|
    ensures Percentage(score) == 20 * score
    ensures 0 <= Percentage(score) <= 100
  {
  }

  /**
   * The results: three branches, best first, no branch left out scores
   * higher than one shown, ties keep `branchInfo` order, and each percentage
   * is twenty times its points and at most 100.
   */
  lemma ResultsFacts(answers: Answers)
    requires KnownBranches(answers) && |answers| <= |Questions|
    ensures var ranked := Sorting.Sort(Entries(answers), MostPoints());
            var r := Results(answers);
            |r| == TopCount &&
            (forall i, j :: 0 <= i < j < |r| ==> r[i].score >= r[j].score) &&
            (forall i, j :: 0 <= i < |r| <= j < |ranked| ==> ranked[j].1 <= r[i].score) &&
            multiset(ranked) == multiset(Entries(answers)) &&
            (forall e :: Sorting.Tied(ranked, e, MostPoints()) == Sorting.Tied(Entries(answers), e, MostPoints())) &&
            (forall i :: 0 <= i < |r| ==>
               (r[i].branch in BranchKeys && r[i].score == Tally(answers, r[i].branch) &&
                r[i].percentage == 20 * r[i].score <= 100))
  {
    var entries := Entries(answers);
    var ranked := Sorting.Sort(entries, MostPoints());
    Sorting.ByKeyDescTotal(Points);
    Sorting.SortSorted(entries, MostPoints());
    forall e ensures Sorting.Tied(ranked, e, MostPoints()) == Sorting.Tied(entries, e, MostPoints()) {
      Sorting.SortStable(entries, e, MostPoints());
    }
    assert |ranked| == |entries| by {
      assert |multiset(ranked)| == |multiset(entries)|;
    }
    var r := Results(answers);
    forall i, j | 0 <= i < |r| <= j < |ranked| ensures ranked[j].1 <= r[i].score {
      assert MostPoints()(ranked[i], ranked[j]);
    }
    forall i, j | 0 <= i < j < |r| ensures r[i].score >= r[j].score {
      assert MostPoints()(ranked[i], ranked[j]);
    }
    forall i | 0 <= i < |r|
      ensures r[i].branch in BranchKeys && r[i].score == Tally(answers, r[i].branch) && r[i].percentage == 20 * r[i].score <= 100
    {
      assert ranked[i] in multiset(entries);
      var k :| 0 <= k < |entries| && entries[k] == ranked[i];
      TallyBound(answers, BranchKeys[k]);
      PercentageFacts(r[i].score);
    }
  }

  // ---------------------------------------------------------------------
  // The page state

  class QuizSession {
    var currentQuestion: int
    var answers: Answers
    /** What the quiz container shows: `None` for a question, the results once shown. */
    var results: Option<seq<BranchResult>>

    ghost predicate Valid()
      reads this
    {
      0 <= currentQuestion < |Questions| && |answers| <= |Questions| &&
      forall k :: 0 <= k < |answers| && answers[k].Some? ==> answers[k].value in Questions[k].options
    }

    /** The page's module-level `let` bindings. */
    constructor ()
      ensures Valid() && currentQuestion == 0 && answers == [] && results == None
    {
      currentQuestion := 0;
      answers := [];
      results := None;
    }

    /** "Start quiz": back to the first question with no answers. */
    method Start()
      modifies this
      ensures Valid() && currentQuestion == 0 && answers == [] && results == None
    {
      currentQuestion := 0;
      answers := [];
      results := None;
    }

    /** Clicking option `index` of the shown question stores it, replacing an earlier choice. */
    method Select(index: int)
      requires Valid() && results.None?
      requires 0 <= index < |Questions[currentQuestion].options|
      modifies this
      ensures Valid() && results == old(results) && currentQuestion == old(currentQuestion)
      ensures |answers| == if old(currentQuestion) < |old(answers)| then |old(answers)| else old(currentQuestion) + 1
      ensures answers[currentQuestion] == Some(Questions[currentQuestion].options[index])
      ensures forall k :: 0 <= k < |answers| && k != currentQuestion ==>
                answers[k] == if k < |old(answers)| then old(answers)[k] else None
    {
      var option := Questions[currentQuestion].options[index];
      if currentQuestion < |answers| {
        answers := answers[currentQuestion := Some(option)];
      } else {
        var holes := seq(currentQuestion - |answers|, _ => None);
        answers := answers + holes + [Some(option)];
      }
    }

    /** "Previous": one question back, never before the first. */
    method Previous()
      requires Valid() && results.None?
      modifies this
      ensures Valid() && answers == old(answers) && results == old(results)
      ensures currentQuestion == if old(currentQuestion) > 0 then old(currentQuestion) - 1 else old(currentQuestion)
    {
      if currentQuestion > 0 {
        currentQuestion := currentQuestion - 1;
      }
    }

    /** "Next": one question on, or the results after the last question. */
    method Next()
      requires Valid() && results.None?
      modifies this
      ensures Valid() && answers == old(answers)
      ensures old(currentQuestion) < |Questions| - 1 ==>
                currentQuestion == old(currentQuestion) + 1 && results == None
      ensures old(currentQuestion) == |Questions| - 1 ==>
                currentQuestion == old(currentQuestion) && results == Some(Results(answers))
    {
      if currentQuestion < |Questions| - 1 {
        currentQuestion := currentQuestion + 1;
      } else {
        QuestionsOk();
        var top := ShowResults(answers);
        results := Some(top);
      }
    }
  }

  /** The chosen options are options of the quiz, so they name known branches. */
  lemma ChosenKnown(answers: Answers)
    requires |answers| <= |Questions|
    requires forall k :: 0 <= k < |answers| && answers[k].Some? ==> answers[k].value in Questions[k].options
    ensures KnownBranches(answers)
  {
    QuestionsOk();
    forall k | 0 <= k < |answers| && answers[k].Some? ensures OptionOk(answers[k].value) {
      assert QuestionOk(Questions[k]);
    }
  }

  /** `showResults`: count, sort, keep three, and turn points into percentages. */
  method ShowResults(answers: Answers) returns (r: seq<BranchResult>)
    requires |answers| <= |Questions|
    requires forall k :: 0 <= k < |answers| && answers[k].Some? ==> answers[k].value in Questions[k].options
    ensures r == Results(answers)
  {
    ChosenKnown(answers);
    var scores := BranchScores(answers);
    var entries := seq(|BranchKeys|, i requires 0 <= i < |BranchKeys| => (BranchKeys[i], scores[BranchKeys[i]]));
    assert entries == Entries(answers);
    var top := Sorting.Take(Sorting.Sort(entries, MostPoints()), TopCount);
    r := seq(|top|, i requires 0 <= i < |top| => BranchResult(top[i].0, top[i].1, Percentage(top[i].1)));
  }
}
