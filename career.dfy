/**
 * The career routes: the filtered domain listing, the category summary,
 * the skill-gap analysis, and the roadmap with its estimated duration.
 * HTTP failures are `Err(status)`; an uncaught exception is status 500.
 */
module Career {
  import opened Common
  import opened Text
  import opened CareerDomains

  /** The domains of `ds` with a key skill whose lower-cased name contains the lower-cased `skill`. */
  function WithSkill(ds: seq<Domain>, skill: string): seq<Domain> {
    if ds == [] then []
    else
      var init := WithSkill(ds[..|ds| - 1], skill);
      if SkillMentions(ds[|ds| - 1], Lower(skill)) then init + [ds[|ds| - 1]] else init
  }

  /** The skill filter keeps exactly the domains with such a skill, in order, and nothing twice. */
  lemma {:induction false} WithSkillExactly(ds: seq<Domain>, skill: string)
    ensures forall x :: x in WithSkill(ds, skill) <==> x in ds && SkillMentions(x, Lower(skill))
    ensures multiset(WithSkill(ds, skill)) <= multiset(ds)
  {
    if ds != [] {
      WithSkillExactly(ds[..|ds| - 1], skill);
      assert ds == ds[..|ds| - 1] + [ds[|ds| - 1]];
    }
  }

  datatype Listing = Listing(totalCount: nat, domains: seq<Domain>)

  /** The domains before the skill filter: category wins over keyword, keyword over everything. */
  function BaseListing(c: Catalogue, category: Option<string>, keyword: Option<string>): seq<Domain>
    requires Ordered(c)
  {
    if Given(category) then GetDomainsByCategory(c, category.value)
    else if Given(keyword) then Mentioning(GetAllDomains(c), keyword.value)
    else GetAllDomains(c)
  }

  /** `get_career_domains`. */
  method GetCareerDomains(c: Catalogue, category: Option<string>, keyword: Option<string>, requiredSkill: Option<string>)
    returns (r: Listing)
    requires Ordered(c)
    ensures r.totalCount == |r.domains|
    ensures !Given(requiredSkill) ==> r.domains == BaseListing(c, category, keyword)
    ensures Given(requiredSkill) ==> r.domains == WithSkill(BaseListing(c, category, keyword), requiredSkill.value)
  {
    var domains: seq<Domain>;
    if Given(category) {
      domains := GetDomainsByCategory(c, category.value);
    } else if Given(keyword) {
      domains := SearchDomains(c, keyword.value);
    } else {
      domains := GetAllDomains(c);
    }
    if Given(requiredSkill) && domains != [] {
      domains := WithSkill(domains, requiredSkill.value);
    }
    return Listing(|domains|, domains);
  }

  datatype CategoryInfo = CategoryInfo(category: string, count: nat, domainIds: seq<string>)

  /** `get_career_categories`: one entry per category, in order, counting its listed ids. */
  method GetCareerCategories(c: Catalogue) returns (info: seq<CategoryInfo>)
    ensures |info| == |c.categories|
    ensures forall i :: 0 <= i < |info| ==>
      info[i].category == c.categories[i].0 && info[i].domainIds == c.categories[i].1 &&
      info[i].count == |info[i].domainIds|
  {
    info := [];
    for i := 0 to |c.categories|
      invariant |info| == i
      invariant forall j :: 0 <= j < i ==>
        info[j].category == c.categories[j].0 && info[j].domainIds == c.categories[j].1 &&
        info[j].count == |info[j].domainIds|
    {
      var (category, ids) := c.categories[i];
      info := info + [CategoryInfo(category, |ids|, ids)];
    }
  }

  /** `get_domain_detail`. */
  function GetDomainDetail(c: Catalogue, id: string): (r: Result<Domain, nat>)
    ensures r.Err? <==> id !in c.domains
    ensures r.Err? ==> r.error == 404
    ensures r.Ok? ==> r.value == c.domains[id] && r.value in c.domains.Values
  {
    match GetDomainById(c, id)
    case None => Err(404)
    case Some(d) => Ok(d)
  }

  // ---------------------------------------------------------------------
  // Skill gap

  /** An entry of the student's `skills`: a plain string or a record with an optional `name`. */
  datatype StudentSkill = Plain(text: string) | Record(name: Option<string>)

  /** The lower-cased name: `s.lower()`, or `s.get('name', '').lower()`. */
  function SkillKey(s: StudentSkill): string {
    match s
    case Plain(t) => Lower(t)
    case Record(n) => Lower(n.GetOr(""))
  }

  /** The set comprehension `student_skill_names`. */
  function StudentSkillNames(skills: seq<StudentSkill>): set<string> {
    set i | 0 <= i < |skills| :: SkillKey(skills[i])
  }

  /** Some student skill name is a substring of the required name, or contains it. */
  predicate Covered(names: set<string>, required: string) {
    exists n :: n in names && (Contains(n, required) || Contains(required, n))
  }

  /** The required skills (in order) whose lower-cased name is covered, or not covered when `had` is false. */
  function Sift(req: seq<Skill>, names: set<string>, had: bool): seq<Skill> {
    if req == [] then []
    else
      var init := Sift(req[..|req| - 1], names, had);
      var s := req[|req| - 1];
      if Covered(names, Lower(s.name)) == had then init + [s] else init
  }

  /**
   * Every required skill lands in exactly one of the two lists, which keep
   * the required order: the two lengths add up to the number required.
   */
  lemma {:induction false} SiftPartition(req: seq<Skill>, names: set<string>)
    ensures |Sift(req, names, true)| + |Sift(req, names, false)| == |req|
    ensures forall s :: s in Sift(req, names, true) <==> s in req && Covered(names, Lower(s.name))
    ensures forall s :: s in Sift(req, names, false) <==> s in req && !Covered(names, Lower(s.name))
  {
    if req != [] {
      SiftPartition(req[..|req| - 1], names);
      assert req == req[..|req| - 1] + [req[|req| - 1]];
    }
  }

  /** A student skill with an empty name covers every required skill. */
  lemma EmptyNameCoversAll(names: set<string>, required: string)
    requires "" in names
    ensures Covered(names, required)
  {
    EmptyContained(required);
  }

  /** `100 - len(need) / len(required) * 100`, or 100 with nothing required (before rounding). */
  function Readiness(total: nat, missing: nat): real {
    if total == 0 then 100.0 else 100.0 - (missing as real / total as real) * 100.0
  }

  /** The readiness is the matched share of the required skills, as a percentage. */
  lemma ReadinessShare(total: nat, missing: nat)
    requires missing <= total
    ensures 0.0 <= Readiness(total, missing) <= 100.0
    ensures total > 0 ==> Readiness(total, missing) * total as real == 100.0 * (total - missing) as real
    ensures missing == 0 ==> Readiness(total, missing) == 100.0
  {
    if total > 0 {
      var q := missing as real / total as real;
      assert q * total as real == missing as real;
      assert 0.0 <= q <= 1.0;
    }
  }

  datatype Gap = Gap(
    domain: string,
    domainId: string,
    readiness: real,
    have: seq<Skill>,
    need: seq<Skill>,
    totalRequired: nat,
    matched: nat,
    missing: nat,
    roadmap: seq<Phase>)

  /** The inner loop: is some name a substring of `skillName`, or does it contain it. */
  method IsCovered(names: set<string>, skillName: string) returns (matched: bool)
    ensures matched <==> Covered(names, skillName)
  {
    var todo := names;
    while todo != {}
      invariant todo <= names
      invariant forall n :: n in names - todo ==> !(Contains(n, skillName) || Contains(skillName, n))
      decreases todo
    {
      var n :| n in todo;
      if Contains(skillName, n) || Contains(n, skillName) {
        return true;
      }
      todo := todo - {n};
    }
    return false;
  }

  /** `analyze_skill_gap`. */
  method AnalyzeSkillGap(c: Catalogue, targetId: string, skills: seq<StudentSkill>) returns (r: Result<Gap, nat>)
    ensures targetId !in c.domains ==> r == Err(404)
    ensures targetId in c.domains ==> r.Ok?
    ensures r.Ok? ==> (targetId in c.domains &&
      var d := c.domains[targetId];
      var names := StudentSkillNames(skills);
      r.value.have == Sift(d.keySkills, names, true) && r.value.need == Sift(d.keySkills, names, false) &&
      r.value.totalRequired == |d.keySkills| && r.value.matched == |r.value.have| && r.value.missing == |r.value.need| &&
      r.value.readiness == Readiness(|d.keySkills|, |r.value.need|) &&
      r.value.domain == d.title && r.value.domainId == targetId && r.value.roadmap == d.roadmap)
  {
    var found := GetDomainById(c, targetId);
    if found.None? {
      return Err(404);
    }
    var d := found.value;
    var names := set i | 0 <= i < |skills| :: SkillKey(skills[i]);
    var req := d.keySkills;
    var have, need := [], [];
    for i := 0 to |req|
      invariant have == Sift(req[..i], names, true) && need == Sift(req[..i], names, false)
    {
      assert req[..i + 1][..i] == req[..i];
      var matched := IsCovered(names, Lower(req[i].name));
      if matched {
        have := have + [req[i]];
      } else {
        need := need + [req[i]];
      }
    }
    assert req[..|req|] == req;
    return Ok(Gap(d.title, targetId, Readiness(|req|, |need|), have, need, |req|, |have|, |need|, d.roadmap));
  }

  // ---------------------------------------------------------------------
  // Roadmap

  /**
   * `int(phase.get('duration', '0 months').split()[0])`; `None` where
   * `split()[0]` or `int` raises.
   */
  function PhaseMonths(p: Phase): Option<int> {
    LeadingInt(p.duration.GetOr(DefaultDuration))
  }

  /** The duration a phase without one is read as. */
  const DefaultDuration: string := "0 months"

  /** `int(d.split()[0])`, `None` where either step raises. */
  function LeadingInt(d: string): Option<int> {
    var w := FirstWord(d);
    if w.None? then None else ParsePyInt(w.value)
  }

  /** The months each phase contributes, `None` where its conversion raises. */
  function PhaseMonthsAll(phases: seq<Phase>): (r: seq<Option<int>>)
    ensures |r| == |phases| && forall i :: 0 <= i < |phases| ==> r[i] == PhaseMonths(phases[i])
  {
    seq(|phases|, i requires 0 <= i < |phases| => PhaseMonths(phases[i]))
  }

  /** `sum(...)` over converted months, `None` once a conversion raises. */
  function SumMonths(ms: seq<Option<int>>): Option<int> {
    if ms == [] then Some(0)
    else
      var init := SumMonths(ms[..|ms| - 1]);
      var last := ms[|ms| - 1];
      if init.Some? && last.Some? then Some(init.value + last.value) else None
  }

  /** The estimated duration the roadmap endpoint reports, `None` where computing it raises. */
  function EstimatedDuration(phases: seq<Phase>): Option<int> {
    SumMonths(PhaseMonthsAll(phases))
  }

  datatype Roadmap = Roadmap(
    domain: string,
    domainId: string,
    phases: seq<Phase>,
    certifications: seq<string>,
    keySkills: seq<Skill>,
    estimatedDuration: int)

  /** `get_domain_roadmap`: 404 for an unknown id, 500 when the duration sum raises. */
  function GetDomainRoadmap(c: Catalogue, id: string): (r: Result<Roadmap, nat>)
    ensures id !in c.domains ==> r == Err(404)
    ensures id in c.domains ==> (r.Err? <==> EstimatedDuration(c.domains[id].roadmap).None?)
    ensures r.Err? ==> r.error == 404 || r.error == 500
    ensures r.Ok? ==> r.value.phases == c.domains[id].roadmap && Some(r.value.estimatedDuration) == EstimatedDuration(r.value.phases)
  {
    match GetDomainById(c, id)
    case None => Err(404)
    case Some(d) =>
      match EstimatedDuration(d.roadmap)
      case None => Err(500)
      case Some(n) => Ok(Roadmap(d.title, id, d.roadmap, d.certifications, d.keySkills, n))
  }

  datatype Requirements = Requirements(domain: string, domainId: string, certifications: seq<string>)

  /** `get_entry_requirements`: 404 for an unknown id, otherwise the record's title and certifications. */
  function GetEntryRequirements(c: Catalogue, id: string): (r: Result<Requirements, nat>)
    ensures r.Err? <==> id !in c.domains
    ensures r.Err? ==> r.error == 404
    ensures r.Ok? ==> r.value.domainId == id && r.value.domain == c.domains[id].title &&
                      r.value.certifications == c.domains[id].certifications
  {
    match GetDomainById(c, id)
    case None => Err(404)
    case Some(d) => Ok(Requirements(d.title, id, d.certifications))
  }

  /** The duration text `"<n> months"` the data uses. */
  function Months(n: nat): string {
    NatToString(n) + " months"
  }

  lemma {:induction false} WordLengthOfWord(w: string, rest: string)
    requires forall i :: 0 <= i < |w| ==> !IsSpace(w[i])
    requires rest != [] && IsSpace(rest[0])
    ensures WordLength(w + rest) == |w|
  {
    if w != [] {
      assert (w + rest)[1..] == w[1..] + rest;
      WordLengthOfWord(w[1..], rest);
    } else {
      assert w + rest == rest;
    }
  }

  lemma {:induction false} WordLengthAll(s: string)
    requires forall i :: 0 <= i < |s| ==> !IsSpace(s[i])
    ensures WordLength(s) == |s|
  {
    if s != [] {
      WordLengthAll(s[1..]);
    }
  }

  /** `int("<n> months".split()[0]) == n`. */
  lemma LeadingIntOfMonths(n: nat)
    ensures LeadingInt(Months(n)) == Some(n)
  {
    var s := Months(n);
    var digits := NatToString(n);
    assert s[0] == digits[0];
    assert TrimStart(s) == s;
    WordLengthOfWord(digits, " months");
    assert s[..|digits|] == digits;
    assert FirstWord(s) == Some(digits);
    ParsePyIntOfIntToString(n);
  }

  /** `int("Ongoing".split()[0])` raises. */
  lemma LeadingIntOfOngoing()
    ensures LeadingInt("Ongoing") == None
  {
    var s := "Ongoing";
    assert !IsSpace(s[0]);
    assert TrimStart(s) == s;
    WordLengthAll(s);
    assert s[..|s|] == s;
    assert FirstWord(s) == Some(s);
    NoSpaceAround(s);
    assert !IsDigit(s[0]);
  }

  /** A phase whose duration is `"<n> months"` counts `n`. */
  lemma PhaseMonthsOfMonths(p: Phase, n: nat)
    requires p.duration == Some(Months(n))
    ensures PhaseMonths(p) == Some(n)
  {
    LeadingIntOfMonths(n);
  }

  /** A phase without a duration counts as `"0 months"`, that is 0. */
  lemma PhaseMonthsDefault(p: Phase)
    requires p.duration.None?
    ensures PhaseMonths(p) == Some(0)
  {
    LeadingIntOfMonths(0);
    DefaultIsZeroMonths();
  }

  lemma DefaultIsZeroMonths()
    ensures Months(0) == DefaultDuration
  {
    assert NatToString(0) == "0";
  }

  /** The total of the `n`s. */
  function TotalMonths(ns: seq<nat>): nat {
    if ns == [] then 0 else TotalMonths(ns[..|ns| - 1]) + ns[|ns| - 1]
  }

  lemma {:induction false} SumMonthsAll(ms: seq<Option<int>>, ns: seq<nat>)
    requires |ms| == |ns| && forall i :: 0 <= i < |ms| ==> ms[i] == Some(ns[i] as int)
    ensures SumMonths(ms) == Some(TotalMonths(ns) as int)
  {
    if ms != [] {
      SumMonthsAll(ms[..|ms| - 1], ns[..|ns| - 1]);
    }
  }

  /** When every duration reads `"<n> months"`, the estimate is the sum of the `n`s. */
  lemma EstimatedDurationOfMonths(phases: seq<Phase>, ns: seq<nat>)
    requires |phases| == |ns| && forall i :: 0 <= i < |phases| ==> phases[i].duration == Some(Months(ns[i]))
    ensures EstimatedDuration(phases) == Some(TotalMonths(ns) as int)
  {
    forall i | 0 <= i < |phases| ensures PhaseMonths(phases[i]) == Some(ns[i] as int) {
      PhaseMonthsOfMonths(phases[i], ns[i]);
    }
    SumMonthsAll(PhaseMonthsAll(phases), ns);
  }

  // ---------------------------------------------------------------------
  // A duration that is not a number

  /** The roadmap of the shipped `drdo_scientist_ece` record (its phases' durations). */
  const DrdoEceRoadmap: seq<Phase> := [
    Phase("GATE EC Preparation (12 months before exam)", Some("12 months"), ""),
    Phase("Domain Specialization (During final year)", Some("6 months"), ""),
    Phase("DRDO RAC Application", Some("Ongoing"), "")]

  lemma {:induction false} SumMonthsRaises(ms: seq<Option<int>>, i: int)
    requires 0 <= i < |ms| && ms[i].None?
    ensures SumMonths(ms) == None
  {
    if i < |ms| - 1 {
      SumMonthsRaises(ms[..|ms| - 1], i);
    }
  }

  /** As written, one `"Ongoing"` phase makes the whole roadmap endpoint fail. */
  lemma OngoingRoadmapFails(phases: seq<Phase>, i: int)
    requires 0 <= i < |phases| && phases[i].duration == Some("Ongoing")
    ensures EstimatedDuration(phases) == None
  {
    LeadingIntOfOngoing();
    SumMonthsRaises(PhaseMonthsAll(phases), i);
  }

  /** The shipped `drdo_scientist_ece` roadmap is one such: its roadmap request answers 500. */
  lemma DrdoEceRoadmapFails(c: Catalogue)
    requires "drdo_scientist_ece" in c.domains && c.domains["drdo_scientist_ece"].roadmap == DrdoEceRoadmap
    ensures GetDomainRoadmap(c, "drdo_scientist_ece") == Err(500)
  {
    OngoingRoadmapFails(DrdoEceRoadmap, 2);
  }

  /** The sum the endpoint evidently means: a phase without a leading number counts 0. */
  function SumMonthsOrZero(ms: seq<Option<int>>): int {
    if ms == [] then 0 else SumMonthsOrZero(ms[..|ms| - 1]) + ms[|ms| - 1].GetOr(0)
  }

  function EstimatedDurationIntended(phases: seq<Phase>): int {
    SumMonthsOrZero(PhaseMonthsAll(phases))
  }

  lemma {:induction false} SumMonthsOrZeroAgrees(ms: seq<Option<int>>)
    ensures SumMonths(ms).Some? ==> SumMonths(ms) == Some(SumMonthsOrZero(ms))
  {
    if ms != [] {
      SumMonthsOrZeroAgrees(ms[..|ms| - 1]);
    }
  }

  /** The intended estimate agrees with the written one wherever that succeeds, and always exists. */
  lemma EstimatedDurationIntendedAgrees(phases: seq<Phase>)
    ensures EstimatedDuration(phases).Some? ==> EstimatedDuration(phases) == Some(EstimatedDurationIntended(phases))
  {
    SumMonthsOrZeroAgrees(PhaseMonthsAll(phases));
  }

  lemma MonthsSpellings()
    ensures Months(12) == "12 months" && Months(6) == "6 months"
  {
    assert NatToString(12) == NatToString(1) + [DigitChar(2)];
    assert NatToString(6) == "6";
  }

  /** A roadmap of a 12-month phase, a 6-month phase and an `"Ongoing"` one. */
  predicate TwelveSixOngoing(phases: seq<Phase>) {
    |phases| == 3 && phases[0].duration == Some(Months(12)) && phases[1].duration == Some(Months(6)) &&
    phases[2].duration == Some("Ongoing")
  }

  lemma PhaseMonthsOngoing(p: Phase)
    requires p.duration == Some("Ongoing")
    ensures PhaseMonths(p) == None
  {
    LeadingIntOfOngoing();
  }

  lemma SumMonthsOrZeroOfThree(ms: seq<Option<int>>)
    requires |ms| == 3
    ensures SumMonthsOrZero(ms) == ms[0].GetOr(0) + ms[1].GetOr(0) + ms[2].GetOr(0)
  {
    var two := ms[..2];
    assert two[..1][..0] == [];
    assert SumMonthsOrZero(two[..1]) == two[0].GetOr(0);
    assert SumMonthsOrZero(two) == ms[0].GetOr(0) + ms[1].GetOr(0);
  }

  lemma TwelveSixOngoingMonths(phases: seq<Phase>)
    requires TwelveSixOngoing(phases)
    ensures EstimatedDurationIntended(phases) == 18
  {
    PhaseMonthsOfMonths(phases[0], 12);
    PhaseMonthsOfMonths(phases[1], 6);
    PhaseMonthsOngoing(phases[2]);
    var ms := PhaseMonthsAll(phases);
    SumMonthsOrZeroOfThree(ms);
  }

  /** On the shipped `drdo_scientist_ece` roadmap it gives 12 + 6 = 18 months. */
  lemma DrdoEceIntendedDuration()
    ensures EstimatedDurationIntended(DrdoEceRoadmap) == 18
  {
    MonthsSpellings();
    assert TwelveSixOngoing(DrdoEceRoadmap);
    TwelveSixOngoingMonths(DrdoEceRoadmap);
  }
}
