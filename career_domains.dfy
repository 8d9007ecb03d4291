/**
 * The career-domain catalogue: `CAREER_DOMAINS` (domain records keyed by
 * id, in insertion order) and `CAREER_CATEGORIES` (category name to the
 * ordered ids it lists), with the lookup and keyword-search helpers the
 * career routes call.
 */
module CareerDomains {
  import opened Common
  import opened Text

  datatype Skill = Skill(name: string, level: string)

  /** A roadmap phase; the optional `duration` lets the roadmap route's `.get('duration', '0 months')` default be stated. */
  datatype Phase = Phase(phase: string, duration: Option<string>, focus: string)

  datatype Domain = Domain(
    domainId: string,
    title: string,
    category: string,
    description: string,
    keySkills: seq<Skill>,
    roadmap: seq<Phase>,
    certifications: seq<string>)

  /**
   * `CAREER_DOMAINS` as its keys in insertion order plus the map they
   * index, and `CAREER_CATEGORIES` as its entries in insertion order.
   */
  datatype Catalogue = Catalogue(
    keys: seq<string>,
    domains: map<string, Domain>,
    categories: seq<(string, seq<string>)>)

  predicate NoDuplicates<T(==)>(s: seq<T>) {
    forall i, j :: 0 <= i < j < |s| ==> s[i] != s[j]
  }

  /** The shape a Python dict guarantees: each key once, and the order covers exactly the keys. */
  ghost predicate WellFormed(c: Catalogue) {
    NoDuplicates(c.keys) &&
    (set i | 0 <= i < |c.keys| :: c.keys[i]) == c.domains.Keys &&
    NoDuplicates(seq(|c.categories|, i requires 0 <= i < |c.categories| => c.categories[i].0))
  }

  predicate Ordered(c: Catalogue) {
    forall i :: 0 <= i < |c.keys| ==> c.keys[i] in c.domains
  }

  /** `get_domain_by_id`: `CAREER_DOMAINS.get(domain_id)`. */
  function GetDomainById(c: Catalogue, id: string): (r: Option<Domain>)
    ensures r.Some? <==> id in c.domains
    ensures r.Some? ==> r.value == c.domains[id]
  {
    if id in c.domains then Some(c.domains[id]) else None
  }

  /** `CAREER_CATEGORIES.get(category, [])` over the entries from `from` on. */
  function CategoryIdsFrom(cats: seq<(string, seq<string>)>, category: string): (r: seq<string>)
    ensures (forall i :: 0 <= i < |cats| ==> cats[i].0 != category) ==> r == []
    ensures forall i :: 0 <= i < |cats| && cats[i].0 == category && (forall j :: 0 <= j < i ==> cats[j].0 != category) ==>
      r == cats[i].1
  {
    if cats == [] then []
    else if cats[0].0 == category then cats[0].1
    else
      var r := CategoryIdsFrom(cats[1..], category);
      assert forall i :: 1 <= i < |cats| ==> cats[i] == cats[1..][i - 1];
      r
  }

  function CategoryIds(c: Catalogue, category: string): seq<string> {
    CategoryIdsFrom(c.categories, category)
  }

  /** `[CAREER_DOMAINS[did] for did in ids if did in CAREER_DOMAINS]`. */
  function Present(c: Catalogue, ids: seq<string>): (r: seq<Domain>)
    ensures |r| <= |ids|
    ensures forall x :: x in r ==> exists d :: d in ids && d in c.domains && c.domains[d] == x
  {
    if ids == [] then []
    else
      var rest := Present(c, ids[..|ids| - 1]);
      var last := ids[|ids| - 1];
      assert forall d :: d in ids[..|ids| - 1] ==> d in ids;
      if last in c.domains then rest + [c.domains[last]] else rest
  }

  /** `get_domains_by_category`. */
  function GetDomainsByCategory(c: Catalogue, category: string): (r: seq<Domain>)
    ensures (forall i :: 0 <= i < |c.categories| ==> c.categories[i].0 != category) ==> r == []
  {
    Present(c, CategoryIds(c, category))
  }

  /** Every listed id present: the domains come one per id, in the listed order. */
  lemma {:induction false} PresentAll(c: Catalogue, ids: seq<string>)
    requires forall i :: 0 <= i < |ids| ==> ids[i] in c.domains
    ensures |Present(c, ids)| == |ids|
    ensures forall i :: 0 <= i < |ids| ==> Present(c, ids)[i] == c.domains[ids[i]]
  {
    if ids != [] {
      PresentAll(c, ids[..|ids| - 1]);
    }
  }

  /** Ids missing from the catalogue contribute nothing. */
  lemma {:induction false} PresentSkips(c: Catalogue, ids: seq<string>)
    ensures (forall i :: 0 <= i < |ids| ==> ids[i] !in c.domains) ==> Present(c, ids) == []
  {
    if ids != [] {
      PresentSkips(c, ids[..|ids| - 1]);
    }
  }

  /** `get_all_domains`: `list(CAREER_DOMAINS.values())`. */
  function GetAllDomains(c: Catalogue): (r: seq<Domain>)
    requires Ordered(c)
    ensures |r| == |c.keys|
  {
    seq(|c.keys|, i requires 0 <= i < |c.keys| => c.domains[c.keys[i]])
  }

  lemma {:induction false} DistinctCard(ks: seq<string>)
    requires NoDuplicates(ks)
    ensures |set i | 0 <= i < |ks| :: ks[i]| == |ks|
  {
    if ks != [] {
      var init := ks[..|ks| - 1];
      DistinctCard(init);
      var s := set i | 0 <= i < |init| :: init[i];
      assert (set i | 0 <= i < |ks| :: ks[i]) == s + {ks[|ks| - 1]};
      assert ks[|ks| - 1] !in s;
    }
  }

  /** Each domain once, one per key: as many domains as keys. */
  lemma AllDomainsCount(c: Catalogue)
    requires WellFormed(c)
    ensures Ordered(c)
    ensures |GetAllDomains(c)| == |c.domains.Keys|
    ensures forall id :: id in c.domains ==> c.domains[id] in GetAllDomains(c)
  {
    DistinctCard(c.keys);
    assert Ordered(c) by {
      forall i | 0 <= i < |c.keys| ensures c.keys[i] in c.domains {
        assert c.keys[i] in (set j | 0 <= j < |c.keys| :: c.keys[j]);
      }
    }
    forall id | id in c.domains ensures c.domains[id] in GetAllDomains(c) {
      var i :| 0 <= i < |c.keys| && c.keys[i] == id;
      assert GetAllDomains(c)[i] == c.domains[id];
    }
  }

  // ---------------------------------------------------------------------
  // search_domains

  /** Some key skill's lower-cased name contains the (lower-cased) `needle`. */
  predicate SkillMentions(d: Domain, needle: string) {
    exists i :: 0 <= i < |d.keySkills| && Contains(Lower(d.keySkills[i].name), needle)
  }

  /** The keyword occurs, ignoring case, in the title, the description or a key-skill name. */
  predicate Mentions(d: Domain, keyword: string) {
    var k := Lower(keyword);
    Contains(Lower(d.title), k) || Contains(Lower(d.description), k) || SkillMentions(d, k)
  }

  /** The domains of `ds` that mention the keyword, in their order. */
  function Mentioning(ds: seq<Domain>, keyword: string): seq<Domain> {
    if ds == [] then []
    else
      var init := Mentioning(ds[..|ds| - 1], keyword);
      if Mentions(ds[|ds| - 1], keyword) then init + [ds[|ds| - 1]] else init
  }

  /** `search_domains`: the catalogue walked in order, collecting the domains that mention the keyword. */
  method SearchDomains(c: Catalogue, keyword: string) returns (results: seq<Domain>)
    requires Ordered(c)
    ensures results == Mentioning(GetAllDomains(c), keyword)
  {
    var all := GetAllDomains(c);
    var k := Lower(keyword);
    results := [];
    var i := 0;
    while i < |all|
      invariant 0 <= i <= |all|
      invariant results == Mentioning(all[..i], keyword)
    {
      var domain := all[i];
      assert all[..i + 1][..i] == all[..i];
      if Contains(Lower(domain.title), k) || Contains(Lower(domain.description), k) ||
         exists j | 0 <= j < |domain.keySkills| :: Contains(Lower(domain.keySkills[j].name), k) {
        results := results + [domain];
      }
      i := i + 1;
    }
    assert all[..i] == all;
  }

  /**
   * The search result holds exactly the domains that mention the keyword,
   * each no more often than the catalogue holds it.
   */
  lemma {:induction false} MentioningExactly(ds: seq<Domain>, keyword: string)
    ensures forall x :: x in Mentioning(ds, keyword) <==> x in ds && Mentions(x, keyword)
    ensures multiset(Mentioning(ds, keyword)) <= multiset(ds)
  {
    if ds != [] {
      var init := ds[..|ds| - 1];
      MentioningExactly(init, keyword);
      assert ds == init + [ds[|ds| - 1]];
    }
  }

  /** An empty keyword is contained in everything: the search returns every domain. */
  lemma {:induction false} EmptyKeywordFindsAll(ds: seq<Domain>)
    ensures Mentioning(ds, "") == ds
  {
    if ds != [] {
      EmptyKeywordFindsAll(ds[..|ds| - 1]);
      EmptyContained(Lower(ds[|ds| - 1].title));
      assert ds == ds[..|ds| - 1] + [ds[|ds| - 1]];
    }
  }

  // ---------------------------------------------------------------------
  // The shipped catalogue's index

  /** The keys of `CAREER_DOMAINS` in the shipped data, in order. */
  const ShippedKeys: seq<string> := [
    "full_stack_developer", "ai_engineer", "ml_engineer", "genai_llm_engineer", "mlops_engineer",
    "data_scientist", "data_analyst", "data_engineer", "computer_vision_engineer", "nlp_engineer",
    "banking_security_engineer", "cybersecurity_analyst",
    "drdo_scientist_ece", "drdo_scientist_mechanical", "drdo_scientist_cse", "aerospace_engineer",
    "mechanical_engineer", "civil_engineer", "electrical_engineer_eee", "automation_engineer"]

  /** The `domain_id` and `category` fields of the shipped records, key by key. */
  const ShippedRecords: seq<(string, string)> := [
    ("full_stack_developer", "Software & AI"), ("ai_engineer", "Software & AI"),
    ("ml_engineer", "Software & AI"), ("genai_llm_engineer", "Software & AI"),
    ("mlops_engineer", "Software & AI"), ("data_scientist", "Software & AI"),
    ("data_analyst", "Software & AI"), ("data_engineer", "Software & AI"),
    ("computer_vision_engineer", "Software & AI"), ("nlp_engineer", "Software & AI"),
    ("banking_security_engineer", "Cybersecurity & Banking"), ("cybersecurity_analyst", "Cybersecurity & Banking"),
    ("drdo_scientist_ece", "Aerospace & Defense"), ("drdo_scientist_mechanical", "Aerospace & Defense"),
    ("drdo_scientist_cse", "Aerospace & Defense"), ("aerospace_engineer", "Aerospace & Defense"),
    ("mechanical_engineer", "Core Engineering"), ("civil_engineer", "Core Engineering"),
    ("electrical_engineer_eee", "Core Engineering"), ("automation_engineer", "Core Engineering")]

  /** The shipped `CAREER_CATEGORIES`. */
  const ShippedCategories: seq<(string, seq<string>)> := [
    ("Software & AI", [
      "full_stack_developer", "ai_engineer", "ml_engineer", "genai_llm_engineer", "mlops_engineer",
      "data_scientist", "data_analyst", "data_engineer", "computer_vision_engineer", "nlp_engineer"]),
    ("Cybersecurity & Banking", ["banking_security_engineer", "cybersecurity_analyst"]),
    ("Aerospace & Defense", ["drdo_scientist_ece", "drdo_scientist_mechanical", "drdo_scientist_cse", "aerospace_engineer"]),
    ("Core Engineering", ["mechanical_engineer", "civil_engineer", "electrical_engineer_eee", "automation_engineer"])]

  /** The position of a key in the shipped order. */
  predicate ShippedKeyAt(id: string, i: int) {
    0 <= i < |ShippedKeys| && ShippedKeys[i] == id
  }

  /** A position in the shipped key order, split into its cases. */
  lemma ShippedPosition(i: int)
    requires 0 <= i < |ShippedKeys|
    ensures i == 0 || i == 1 || i == 2 || i == 3 || i == 4 || i == 5 || i == 6 || i == 7 || i == 8 || i == 9 ||
      i == 10 || i == 11 || i == 12 || i == 13 || i == 14 || i == 15 || i == 16 || i == 17 || i == 18 || i == 19
  {
  }

  /** In the shipped data each record's `domain_id` is its key. */
  lemma ShippedIdsAreKeys()
    ensures |ShippedRecords| == |ShippedKeys|
    ensures forall i :: 0 <= i < |ShippedKeys| ==> ShippedRecords[i].0 == ShippedKeys[i]
  {
    forall i | 0 <= i < |ShippedKeys| ensures ShippedRecords[i].0 == ShippedKeys[i] {
      ShippedPosition(i);
    }
  }

  /** The shipped category holding the key at position `i`. */
  function ShippedHome(i: int): int {
    if i < 10 then 0 else if i < 12 then 1 else if i < 16 then 2 else 3
  }

  /** Where the key at position `i` sits in its category's list. */
  function ShippedSlot(i: int): int {
    if i < 10 then i else if i < 12 then i - 10 else if i < 16 then i - 12 else i - 16
  }

  /**
   * The shipped categories list the keys in order, each key under the
   * category its record names: concatenated, they are exactly the keys.
   */
  lemma ShippedCategoriesListKeys()
    ensures ShippedCategories[0].1 + ShippedCategories[1].1 + ShippedCategories[2].1 + ShippedCategories[3].1 == ShippedKeys
    ensures forall i :: 0 <= i < |ShippedKeys| ==>
      ShippedCategories[ShippedHome(i)].1[ShippedSlot(i)] == ShippedKeys[i] &&
      ShippedRecords[i].1 == ShippedCategories[ShippedHome(i)].0
  {
    forall i | 0 <= i < |ShippedKeys|
      ensures ShippedCategories[ShippedHome(i)].1[ShippedSlot(i)] == ShippedKeys[i]
      ensures ShippedRecords[i].1 == ShippedCategories[ShippedHome(i)].0
    {
      ShippedPosition(i);
    }
  }

  /**
   * In the shipped data no key repeats, so each key is listed by exactly
   * one category: the one its record names.
   */
  lemma {:induction false} ShippedCategoriesPartition()
    ensures NoDuplicates(ShippedKeys)
    ensures forall i, c :: 0 <= i < |ShippedKeys| && 0 <= c < |ShippedCategories| ==>
      (ShippedKeys[i] in ShippedCategories[c].1 <==> c == ShippedHome(i))
  {
    ShippedCategoriesListKeys();
    ShippedKeysDistinct();
    forall i, c | 0 <= i < |ShippedKeys| && 0 <= c < |ShippedCategories|
      ensures ShippedKeys[i] in ShippedCategories[c].1 <==> c == ShippedHome(i)
    {
      if ShippedKeys[i] in ShippedCategories[c].1 {
        var j :| 0 <= j < |ShippedCategories[c].1| && ShippedCategories[c].1[j] == ShippedKeys[i];
        var k := if c == 0 then j else if c == 1 then 10 + j else if c == 2 then 12 + j else 16 + j;
        assert ShippedKeys[k] == ShippedKeys[i];
        assert k == i;
      }
    }
  }

  lemma ShippedKeysDistinct()
    ensures NoDuplicates(ShippedKeys)
  {
    forall i, j | 0 <= i < j < |ShippedKeys| ensures ShippedKeys[i] != ShippedKeys[j] {
      ShippedPosition(i);
      ShippedPosition(j);
    }
  }
}
