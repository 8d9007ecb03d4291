/**
 * The course routes: relevance scoring and ranking of the stored courses
 * for a student, the mock courses shown when there are none, the
 * enrolled-course listing that splits ids into database ids and mock ids,
 * and enrolment by `$addToSet` on the user's document. A stored document
 * is a `Doc`; every exception the handlers catch falls back as they do.
 */
module Courses {
  import opened Common
  import opened Text
  import opened Json
  import opened AdapterQuery
  import opened AdapterUpdate
  import Sorting

  /** How many ranked courses are returned. */
  const TopCount: nat := 10

  // ---------------------------------------------------------------------
  // Python's `in` on dynamically typed values

  /** Whether a value can be a dictionary key. */
  predicate Hashable(v: Value) {
    !v.List? && !v.Obj?
  }

  /**
   * `x in container`: list membership by `==`, substring on strings, key
   * membership on dicts; `None` where Python raises `TypeError`.
   */
  function PyContains(container: Value, x: Value): (r: Option<bool>)
    ensures container.List? ==> r == Some(PyIn(x, container.items))
    ensures container.Int? || container.Bool? || container.Null? ==> r.None?
  {
    match container
    case List(xs) => Some(PyIn(x, xs))
    case Str(s) => if x.Str? then Some(Contains(s, x.s)) else None
    case Obj(m) => if x.Str? then Some(x.s in m) else if Hashable(x) then Some(false) else None
    case _ => None
  }

  // ---------------------------------------------------------------------
  // Relevance

  /** `current_user.get("branch", "CSE")`. */
  function UserBranch(user: Doc): Value {
    if "branch" in user then user["branch"] else Str("CSE")
  }

  /** `current_user.get("interests", [])`. */
  function UserInterests(user: Doc): Value {
    if "interests" in user then user["interests"] else List([])
  }

  /** `course.get("skills", [])`. */
  function Skills(course: Doc): Value {
    if "skills" in course then course["skills"] else List([])
  }

  /** 3 when the branch is among `recommended_for.branches`; `None` where looking raises. */
  function BranchPoints(course: Doc, branch: Value): (r: Option<int>)
    ensures r.Some? ==> r.value == 0 || r.value == 3
  {
    var rec := if "recommended_for" in course then course["recommended_for"] else Obj(map[]);
    if !rec.Obj? then None
    else
      var branches := if "branches" in rec.fields then rec.fields["branches"] else List([]);
      match PyContains(branches, branch)
      case None => None
      case Some(b) => Some(if b then 3 else 0)
  }

  /** How many of `interests` the skills contain, counting repeats; `None` where a test raises. */
  function InterestHits(skills: Value, interests: seq<Value>): (r: Option<nat>)
    ensures r.Some? ==> r.value <= |interests|
  {
    if interests == [] then Some(0)
    else
      match (InterestHits(skills, interests[..|interests| - 1]), PyContains(skills, interests[|interests| - 1]))
      case (Some(n), Some(b)) => Some(n + if b then 1 else 0)
      case _ => None
  }

  /** A course's relevance to the user: 3 for the branch plus 2 per interest found among its skills. */
  function Relevance(course: Doc, user: Doc): Option<int> {
    match BranchPoints(course, UserBranch(user))
    case None => None
    case Some(bp) =>
      match Iterate(UserInterests(user))
      case Err(_) => None
      case Ok(interests) =>
        match InterestHits(Skills(course), interests)
        case None => None
        case Some(n) => Some(bp + 2 * n)
  }

  /** The course as returned: `_id` made a string and its score attached; `None` without an `_id`. */
  function Scored(course: Doc, score: int): Option<Doc> {
    if "_id" !in course then None
    else Some(course["_id" := Str(PyStr(course["_id"]))]["relevance_score" := Int(score)])
  }

  /** Every course scored, in collection order; `None` where any step raises. */
  function ScoredAll(courses: seq<Doc>, user: Doc): (r: Option<seq<Doc>>)
    ensures r.Some? ==> |r.value| == |courses|
  {
    if courses == [] then Some([])
    else
      match ScoredAll(courses[..|courses| - 1], user)
      case None => None
      case Some(init) =>
        var c := courses[|courses| - 1];
        match Relevance(c, user)
        case None => None
        case Some(score) =>
          match Scored(c, score)
          case None => None
          case Some(d) => Some(init + [d])
  }

  /** `x.get("relevance_score", 0)`, for the scored documents an integer. */
  function ScoreKey(d: Doc): int {
    if "relevance_score" in d && d["relevance_score"].Int? then d["relevance_score"].n else 0
  }

  /** The ranking order: higher relevance first. */
  function ScoreOrder(): (Doc, Doc) -> bool {
    Sorting.ByKeyDesc(ScoreKey)
  }

  /** The branch-and-interest score, with the interest test as the inner loop. */
  method Score(course: Doc, user: Doc) returns (r: Option<int>)
    ensures r == Relevance(course, user)
  {
    var bp := BranchPoints(course, UserBranch(user));
    if bp.None? {
      return None;
    }
    var score := bp.value;
    var interests := Iterate(UserInterests(user));
    if interests.Err? {
      return None;
    }
    var xs := interests.value;
    var skills := Skills(course);
    for i := 0 to |xs|
      invariant InterestHits(skills, xs[..i]).Some? && score == bp.value + 2 * InterestHits(skills, xs[..i]).value
    {
      var hit := PyContains(skills, xs[i]);
      InterestHitsStep(skills, xs, i);
      if hit.None? {
        InterestHitsRaises(skills, xs, i + 1);
        return None;
      }
      if hit.value {
        score := score + 2;
      }
    }
    assert xs[..|xs|] == xs;
    return Some(score);
  }

  lemma InterestHitsStep(skills: Value, xs: seq<Value>, i: nat)
    requires i < |xs|
    ensures InterestHits(skills, xs[..i + 1]) ==
            match (InterestHits(skills, xs[..i]), PyContains(skills, xs[i]))
            case (Some(n), Some(b)) => Some(n + if b then 1 else 0)
            case _ => None
  {
    Common.PrefixSnoc(xs, i);
  }

  lemma {:induction false} InterestHitsRaises(skills: Value, xs: seq<Value>, i: nat)
    requires 0 < i <= |xs| && InterestHits(skills, xs[..i]).None?
    ensures InterestHits(skills, xs).None?
  {
    if i < |xs| {
      var init := xs[..|xs| - 1];
      assert init[..i] == xs[..i];
      InterestHitsRaises(skills, init, i);
    } else {
      assert xs[..i] == xs;
    }
  }

  lemma {:induction false} ScoredAllRaises(courses: seq<Doc>, user: Doc, i: nat)
    requires 0 < i <= |courses| && ScoredAll(courses[..i], user).None?
    ensures ScoredAll(courses, user).None?
  {
    if i < |courses| {
      var init := courses[..|courses| - 1];
      assert init[..i] == courses[..i];
      ScoredAllRaises(init, user, i);
    } else {
      assert courses[..i] == courses;
    }
  }

  /** The scoring loop over the courses, appending each scored course. */
  method ScoreCourses(courses: seq<Doc>, user: Doc) returns (r: Option<seq<Doc>>)
    ensures r == ScoredAll(courses, user)
  {
    var scored: seq<Doc> := [];
    for i := 0 to |courses|
      invariant ScoredAll(courses[..i], user) == Some(scored)
    {
      var score := Score(courses[i], user);
      if score.None? || "_id" !in courses[i] {
        ScoredAllStepFails(courses, user, i);
        ScoredAllRaises(courses, user, i + 1);
        return None;
      }
      var course := courses[i]["_id" := Str(PyStr(courses[i]["_id"]))]["relevance_score" := Int(score.value)];
      ScoredAllStep(courses, user, i, scored);
      scored := scored + [course];
    }
    assert courses[..|courses|] == courses;
    return Some(scored);
  }

  lemma ScoredAllStep(courses: seq<Doc>, user: Doc, i: nat, scored: seq<Doc>)
    requires i < |courses| && ScoredAll(courses[..i], user) == Some(scored)
    requires Relevance(courses[i], user).Some? && "_id" in courses[i]
    ensures ScoredAll(courses[..i + 1], user) == Some(scored + [Scored(courses[i], Relevance(courses[i], user).value).value])
  {
    Common.PrefixSnoc(courses, i);
  }

  lemma ScoredAllStepFails(courses: seq<Doc>, user: Doc, i: nat)
    requires i < |courses|
    requires Relevance(courses[i], user).None? || "_id" !in courses[i]
    ensures ScoredAll(courses[..i + 1], user).None?
  {
    Common.PrefixSnoc(courses, i);
  }

  /** `get_course_recommendations` over the stored courses (`None`: no collection). */
  function Recommendations(stored: Option<seq<Doc>>, user: Doc): seq<Doc> {
    if stored.None? || stored.value == [] then MockCourses()
    else
      match ScoredAll(stored.value, user)
      case None => MockCourses()
      case Some(scored) => Sorting.Take(Sorting.Sort(scored, ScoreOrder()), TopCount)
  }

  method GetCourseRecommendations(stored: Option<seq<Doc>>, user: Doc) returns (r: seq<Doc>)
    ensures r == Recommendations(stored, user)
  {
    if stored.None? || stored.value == [] {
      return MockCourses();
    }
    var scored := ScoreCourses(stored.value, user);
    if scored.None? {
      return MockCourses();
    }
    var ranked := Sorting.Sort(scored.value, ScoreOrder());
    return Sorting.Take(ranked, TopCount);
  }

  /** `d` is `course` as scored for `user`: a string `_id` and the course's relevance attached. */
  predicate ScoredEntry(course: Doc, user: Doc, d: Doc) {
    Relevance(course, user).Some? && "_id" in d && d["_id"].Str? &&
    "relevance_score" in d && d["relevance_score"] == Int(Relevance(course, user).value)
  }

  lemma {:induction false} ScoredAllFacts(courses: seq<Doc>, user: Doc)
    requires ScoredAll(courses, user).Some?
    ensures var r := ScoredAll(courses, user).value;
            forall i :: 0 <= i < |r| ==> ScoredEntry(courses[i], user, r[i])
  {
    if courses != [] {
      var init := courses[..|courses| - 1];
      var c := courses[|courses| - 1];
      ScoredAllFacts(init, user);
      var r0 := ScoredAll(init, user).value;
      var r := ScoredAll(courses, user).value;
      ScoredLast(c, user);
      assert r == r0 + [Scored(c, Relevance(c, user).value).value];
      forall i | 0 <= i < |r| ensures ScoredEntry(courses[i], user, r[i]) {
        if i < |r0| {
          assert courses[i] == init[i] && r[i] == r0[i];
        }
      }
    }
  }

  lemma ScoredLast(c: Doc, user: Doc)
    requires Relevance(c, user).Some? && "_id" in c
    ensures ScoredEntry(c, user, Scored(c, Relevance(c, user).value).value)
  {
  }

  /**
   * The ranking: at most ten courses, highest relevance first, courses
   * with equal relevance in collection order, every returned course
   * scored and carrying a string `_id`, and no course left out scoring
   * above one returned.
   */
  lemma RankingFacts(courses: seq<Doc>, user: Doc)
    requires ScoredAll(courses, user).Some?
    ensures var scored := ScoredAll(courses, user).value;
            var ranked := Sorting.Sort(scored, ScoreOrder());
            var r := Sorting.Take(ranked, TopCount);
            |r| <= TopCount && |r| == (if |courses| < TopCount then |courses| else TopCount) &&
            Sorting.Sorted(r, ScoreOrder()) &&
            multiset(ranked) == multiset(scored) &&
            (forall d: Doc :: d in r ==> d in scored && "_id" in d && d["_id"].Str? && "relevance_score" in d) &&
            (forall i, j :: 0 <= i < |r| <= j < |ranked| ==> ScoreKey(ranked[j]) <= ScoreKey(r[i])) &&
            (forall d :: Sorting.Tied(ranked, d, ScoreOrder()) == Sorting.Tied(scored, d, ScoreOrder()))
  {
    RankedOrder(ScoredAll(courses, user).value);
    TopScored(courses, user);
  }

  /** Every course among the first ten ranked is a scored course, with a string `_id` and a score. */
  lemma TopScored(courses: seq<Doc>, user: Doc)
    requires ScoredAll(courses, user).Some?
    ensures var scored := ScoredAll(courses, user).value;
            forall d: Doc :: d in Sorting.Take(Sorting.Sort(scored, ScoreOrder()), TopCount) ==>
              d in scored && "_id" in d && d["_id"].Str? && "relevance_score" in d
  {
    var scored := ScoredAll(courses, user).value;
    RankedOrder(scored);
    ScoredAllFacts(courses, user);
    var ranked := Sorting.Sort(scored, ScoreOrder());
    var r := Sorting.Take(ranked, TopCount);
    forall d: Doc | d in r ensures d in scored && "_id" in d && d["_id"].Str? && "relevance_score" in d {
      assert d in multiset(ranked);
      var i :| 0 <= i < |scored| && scored[i] == d;
      assert ScoredEntry(courses[i], user, scored[i]);
    }
  }

  /** Sorting then taking ten: ordered, a rearrangement, stable, and nothing left out ranks higher. */
  lemma RankedOrder(scored: seq<Doc>)
    ensures var ranked := Sorting.Sort(scored, ScoreOrder());
            var r := Sorting.Take(ranked, TopCount);
            Sorting.Sorted(ranked, ScoreOrder()) && Sorting.Sorted(r, ScoreOrder()) &&
            multiset(ranked) == multiset(scored) && |ranked| == |scored| &&
            (forall i, j :: 0 <= i < |r| <= j < |ranked| ==> ScoreKey(ranked[j]) <= ScoreKey(r[i])) &&
            (forall d :: Sorting.Tied(ranked, d, ScoreOrder()) == Sorting.Tied(scored, d, ScoreOrder()))
  {
    var le := ScoreOrder();
    Sorting.ByKeyDescTotal(ScoreKey);
    Sorting.SortSorted(scored, le);
    var ranked := Sorting.Sort(scored, le);
    var r := Sorting.Take(ranked, TopCount);
    assert |ranked| == |scored| by {
      assert |multiset(ranked)| == |multiset(scored)|;
    }
    forall i, j | 0 <= i < |r| <= j < |ranked| ensures ScoreKey(ranked[j]) <= ScoreKey(r[i]) {
      assert r[i] == ranked[i];
      assert le(ranked[i], ranked[j]);
    }
    forall d ensures Sorting.Tied(ranked, d, le) == Sorting.Tied(scored, d, le) {
      Sorting.SortStable(scored, d, le);
    }
  }

  // ---------------------------------------------------------------------
  // Mock courses

  /** A mock course (its title, platform, domain, difficulty, duration and url are not modelled). */
  function MockCourse(id: string, skills: seq<string>, branches: seq<string>, score: int): Doc {
    map["_id" := Str(id),
        "skills" := List(seq(|skills|, i requires 0 <= i < |skills| => Str(skills[i]))),
        "recommended_for" := Obj(map["branches" := List(seq(|branches|, i requires 0 <= i < |branches| => Str(branches[i])))]),
        "relevance_score" := Int(score)]
  }

  /** The five mock courses, with the scores they come with. */
  function MockCourses(): (r: seq<Doc>)
    ensures |r| == 5
  {
    [MockCourse("mock-1", ["Data Structures", "Algorithms", "Problem Solving"], ["CSE", "IT"], 5),
     MockCourse("mock-2", ["Machine Learning", "Python", "TensorFlow"], ["CSE", "ECE"], 4),
     MockCourse("mock-3", ["HTML", "CSS", "JavaScript", "React", "Node.js"], ["CSE", "IT"], 3),
     MockCourse("mock-4", ["AWS", "Cloud Architecture", "DevOps"], ["CSE", "IT"], 3),
     MockCourse("mock-5", ["Network Security", "Ethical Hacking", "Cryptography"], ["CSE", "ECE", "IT"], 2)]
  }

  /** The mock ids, in order. */
  const MockIds: seq<string> := ["mock-1", "mock-2", "mock-3", "mock-4", "mock-5"]

  lemma MockCourseFields(id: string, skills: seq<string>, branches: seq<string>, score: int)
    ensures "_id" in MockCourse(id, skills, branches, score) && MockCourse(id, skills, branches, score)["_id"] == Str(id)
    ensures ScoreKey(MockCourse(id, skills, branches, score)) == score
  {
  }

  /** The mock courses come already ranked: scores 5, 4, 3, 3, 2, and ids `mock-1` to `mock-5`. */
  lemma MockCoursesRanked()
    ensures Sorting.Sorted(MockCourses(), ScoreOrder())
    ensures forall i :: 0 <= i < 5 ==> "_id" in MockCourses()[i] && MockCourses()[i]["_id"] == Str(MockIds[i])
    ensures seq(5, i requires 0 <= i < 5 => ScoreKey(MockCourses()[i])) == [5, 4, 3, 3, 2]
  {
    var m := MockCourses();
    MockFields();
    var keys := seq(5, i requires 0 <= i < 5 => ScoreKey(m[i]));
    assert keys == [5, 4, 3, 3, 2];
    forall i, j | 0 <= i < j < |m| ensures ScoreOrder()(m[i], m[j]) {
      assert keys[i] >= keys[j];
    }
  }

  lemma MockFields()
    ensures forall i :: 0 <= i < 5 ==> "_id" in MockCourses()[i] && MockCourses()[i]["_id"] == Str(MockIds[i])
    ensures ScoreKey(MockCourses()[0]) == 5 && ScoreKey(MockCourses()[1]) == 4 && ScoreKey(MockCourses()[2]) == 3
    ensures ScoreKey(MockCourses()[3]) == 3 && ScoreKey(MockCourses()[4]) == 2
  {
    MockCourseFields("mock-1", ["Data Structures", "Algorithms", "Problem Solving"], ["CSE", "IT"], 5);
    MockCourseFields("mock-2", ["Machine Learning", "Python", "TensorFlow"], ["CSE", "ECE"], 4);
    MockCourseFields("mock-3", ["HTML", "CSS", "JavaScript", "React", "Node.js"], ["CSE", "IT"], 3);
    MockCourseFields("mock-4", ["AWS", "Cloud Architecture", "DevOps"], ["CSE", "IT"], 3);
    MockCourseFields("mock-5", ["Network Security", "Ethical Hacking", "Cryptography"], ["CSE", "ECE", "IT"], 2);
  }

  /** With no collection, or an empty one, the recommendations are the mock courses. */
  lemma OfflineRecommendations(stored: Option<seq<Doc>>, user: Doc)
    requires stored.None? || stored == Some([])
    ensures Recommendations(stored, user) == MockCourses()
  {
  }

  // ---------------------------------------------------------------------
  // Enrolled courses

  /** `ObjectId.is_valid(v)` for the values a user document holds: a 24-digit hex string. */
  predicate ObjectIdValid(v: Value) {
    v.Str? && IsObjectIdHex(v.s)
  }

  /** The enrolled ids that are valid database ids, as `ObjectId` normalises them. */
  function ValidIds(eids: seq<Value>): (r: seq<string>)
    ensures |r| <= |eids|
  {
    if eids == [] then []
    else
      var init := ValidIds(eids[..|eids| - 1]);
      var e := eids[|eids| - 1];
      if ObjectIdValid(e) then init + [Lower(e.s)] else init
  }

  /** The enrolled ids that are not. */
  function OtherIds(eids: seq<Value>): (r: seq<Value>)
    ensures forall x :: x in r ==> x in eids && !ObjectIdValid(x)
  {
    if eids == [] then []
    else
      var init := OtherIds(eids[..|eids| - 1]);
      var e := eids[|eids| - 1];
      if ObjectIdValid(e) then init else init + [e]
  }

  /** Every id goes to exactly one side. */
  lemma {:induction false} SplitSizes(eids: seq<Value>)
    ensures |ValidIds(eids)| + |OtherIds(eids)| == |eids|
    ensures forall x :: x in eids && !ObjectIdValid(x) ==> x in OtherIds(eids)
  {
    if eids != [] {
      SplitSizes(eids[..|eids| - 1]);
      assert forall x :: x in eids ==> x in eids[..|eids| - 1] || x == eids[|eids| - 1];
    }
  }

  /** The splitting loop of `get_enrolled_courses`. */
  method SplitIds(eids: seq<Value>) returns (objectIds: seq<string>, mockIds: seq<Value>)
    ensures objectIds == ValidIds(eids) && mockIds == OtherIds(eids)
  {
    objectIds, mockIds := [], [];
    for i := 0 to |eids|
      invariant objectIds == ValidIds(eids[..i]) && mockIds == OtherIds(eids[..i])
    {
      assert eids[..i + 1][..i] == eids[..i];
      if ObjectIdValid(eids[i]) {
        objectIds := objectIds + [Lower(eids[i].s)];
      } else {
        mockIds := mockIds + [eids[i]];
      }
    }
    assert eids[..|eids|] == eids;
  }

  /** A stored course's id, when it is stored as a string. */
  function StoredId(c: Doc): Option<string> {
    if "_id" in c && c["_id"].Str? then Some(c["_id"].s) else None
  }

  /** The stored courses whose id is among `ids`, in collection order. */
  function StoredWithIds(stored: seq<Doc>, ids: seq<string>): (r: seq<Doc>)
    ensures forall c :: c in r ==> c in stored && StoredId(c).Some? && StoredId(c).value in ids
  {
    if stored == [] then []
    else
      var init := StoredWithIds(stored[..|stored| - 1], ids);
      var c := stored[|stored| - 1];
      if StoredId(c).Some? && StoredId(c).value in ids then init + [c] else init
  }

  /** The mock courses whose id is among `ids` (by `==`), in mock order. */
  function MocksWithIds(mocks: seq<Doc>, ids: seq<Value>): (r: seq<Doc>)
    ensures forall c :: c in r ==> c in mocks && "_id" in c && PyIn(c["_id"], ids)
  {
    if mocks == [] then []
    else
      var init := MocksWithIds(mocks[..|mocks| - 1], ids);
      var c := mocks[|mocks| - 1];
      if "_id" in c && PyIn(c["_id"], ids) then init + [c] else init
  }

  /** `get_enrolled_courses` (`stored` is the collection, `None` when there is none). */
  function Enrolled(stored: Option<seq<Doc>>, user: Doc): seq<Doc> {
    var ids := if "enrolled_courses" in user then user["enrolled_courses"] else List([]);
    if stored.None? || !PyTruthy(ids) then []
    else
      match Iterate(ids)
      case Err(_) => []
      case Ok(eids) =>
        var fromDb := StoredWithIds(stored.value, ValidIds(eids));
        var mocks := OtherIds(eids);
        if mocks == [] then fromDb else fromDb + MocksWithIds(MockCourses(), mocks)
  }

  /** `"mock-<n>"` is not a database id: it has characters that are not hex digits. */
  lemma MockIdsInvalid()
    ensures forall i :: 0 <= i < 5 ==> !ObjectIdValid(Str(MockIds[i]))
  {
  }

  /**
   * Ids that are valid database ids are looked up only in the collection;
   * any other id can only name a mock course.
   */
  lemma EnrolledFacts(stored: seq<Doc>, user: Doc)
    ensures forall c :: c in Enrolled(Some(stored), user) ==>
              (c in stored && StoredId(c).Some?) || (c in MockCourses() && "_id" in c && !ObjectIdValid(c["_id"]))
    ensures forall c :: c in Enrolled(Some(stored), user) && c in MockCourses() && c !in stored ==>
              "enrolled_courses" in user && Iterate(user["enrolled_courses"]).Ok? &&
              "_id" in c && PyIn(c["_id"], OtherIds(Iterate(user["enrolled_courses"]).value))
  {
    MockCoursesRanked();
    MockIdsInvalid();
  }

  // ---------------------------------------------------------------------
  // Enrolment

  datatype EnrollReply = EnrollReply(message: string, success: bool, courseId: Option<string>)

  /** The user's database id as `ObjectId(...)` reads it: `None` when the value makes it raise. */
  function UserObjectId(user: Doc): Result<Option<string>, Fault> {
    var v := if "_id" in user && PyTruthy(user["_id"]) then user["_id"]
             else if "id" in user then user["id"] else Null;
    if v.Null? then Ok(None)  // `ObjectId(None)` makes a fresh id, which no stored user has
    else if ObjectIdValid(v) then Ok(Some(Lower(v.s)))
    else Err(TypeError)
  }

  /** `$addToSet` of the course on the enrolled list: Mongo refuses a field that is not a list. */
  function AddCourse(doc: Doc, courseId: string): Result<Doc, Fault> {
    if "enrolled_courses" in doc && !doc["enrolled_courses"].List? then Err(TypeError)
    else Ok(doc["enrolled_courses" := List(UnionInto(ListAt(doc, "enrolled_courses"), [Str(courseId)]))])
  }

  /** `enroll_course`: the reply, and the users collection afterwards (`None`: no collection). */
  function Enroll(users: Option<map<string, Doc>>, user: Doc, courseId: string): (EnrollReply, Option<map<string, Doc>>) {
    if users.None? then (EnrollReply("Database offline, cannot enroll", false, None), users)
    else
      match UserObjectId(user)
      case Err(_) => (EnrollReply("Enrollment failed", false, None), users)
      case Ok(id) =>
        if id.None? || id.value !in users.value then
          (EnrollReply("Already enrolled or user not found", true, Some(courseId)), users)
        else
          match AddCourse(users.value[id.value], courseId)
          case Err(_) => (EnrollReply("Enrollment failed", false, None), users)
          case Ok(doc) =>
            if doc == users.value[id.value] then
              (EnrollReply("Already enrolled or user not found", true, Some(courseId)), users)
            else
              (EnrollReply("Successfully enrolled", true, Some(courseId)), Some(users.value[id.value := doc]))
  }

  /**
   * Enrolment succeeds unless the collection is missing or an exception is
   * caught, lists the course afterwards, and changes no other user.
   */
  lemma EnrollFacts(users: Option<map<string, Doc>>, user: Doc, courseId: string)
    ensures var (reply, after) := Enroll(users, user, courseId);
            (!reply.success <==> (users.None? || UserObjectId(user).Err? ||
                                  (UserObjectId(user).value.Some? && UserObjectId(user).value.value in users.value &&
                                   AddCourse(users.value[UserObjectId(user).value.value], courseId).Err?))) &&
            (after.Some? <==> users.Some?) &&
            (users.Some? ==> (after.value.Keys == users.value.Keys &&
                              forall k :: k in users.value && (UserObjectId(user).Err? || UserObjectId(user).value != Some(k)) ==>
                                after.value[k] == users.value[k])) &&
            (reply.success && UserObjectId(user).value.Some? && UserObjectId(user).value.value in users.value ==>
               PyIn(Str(courseId), ListAt(after.value[UserObjectId(user).value.value], "enrolled_courses")))
  {
    var (reply, after) := Enroll(users, user, courseId);
    if users.Some? && UserObjectId(user).Ok? && UserObjectId(user).value.Some? {
      var id := UserObjectId(user).value.value;
      if id in users.value {
        var doc := users.value[id];
        UnionIntoCovers(ListAt(doc, "enrolled_courses"), [Str(courseId)]);
      }
    }
  }

  /** Enrolling twice leaves the users as enrolling once, and the second reply says nothing was added. */
  lemma EnrollTwice(users: map<string, Doc>, user: Doc, courseId: string)
    ensures var (first, once) := Enroll(Some(users), user, courseId);
            var (second, twice) := Enroll(once, user, courseId);
            twice == once && (first.success ==> second.message == "Already enrolled or user not found")
  {
    var (first, once) := Enroll(Some(users), user, courseId);
    if UserObjectId(user).Ok? && UserObjectId(user).value.Some? {
      var id := UserObjectId(user).value.value;
      if id in users && AddCourse(users[id], courseId).Ok? {
        var xs := ListAt(users[id], "enrolled_courses");
        UnionIntoIdempotent(xs, [Str(courseId)]);
        var doc := AddCourse(users[id], courseId).value;
        assert ListAt(doc, "enrolled_courses") == UnionInto(xs, [Str(courseId)]);
        assert AddCourse(doc, courseId).value == doc;
      }
    }
  }
}
