/// The scoring engine: six battle stats from a profile, the weighted power,
/// the archetype, the anime transformation and the winner rule.
///
/// The engine's doubles are modelled exactly with integers: `Math.round(n / d)`
/// is `RoundDiv(n, d)`, weights are whole hundredths, and the technical score
/// keeps its half-point project weights as doubled ("half-point") totals.
module Scoring {
  import opened Wrappers
  import opened Strings
  import opened Types
  import Sorting

  function Min(a: int, b: int): int { if a <= b then a else b }
  function Max(a: int, b: int): int { if a >= b then a else b }
  function Abs(a: int): int { if a < 0 then -a else a }

  /** `Math.round(n / d)`: the integer nearest to n/d, halves rounded up. */
  function RoundDiv(n: int, d: int): int
    requires d > 0
  {
    (2 * n + d) / (2 * d)
  }

  /** `RoundDiv(n, d)` is the integer r with r - 1/2 <= n/d < r + 1/2. */
  lemma RoundDivNearest(n: int, d: int)
    requires d > 0
    ensures var r := RoundDiv(n, d); (2 * r - 1) * d <= 2 * n < (2 * r + 1) * d
  {
    var q := (2 * n + d) / (2 * d);
    assert (2 * n + d) == q * (2 * d) + (2 * n + d) % (2 * d);
  }

  lemma PositiveFactor(x: int, d: int)
    requires d > 0 && x * d > 0
    ensures x > 0
  {
  }

  lemma NonNegativeFactor(x: int, d: int)
    requires d > 0 && x * d >= 0
    ensures x >= 0
  {
  }

  lemma RoundDivBounds(n: int, d: int, lo: int, hi: int)
    requires d > 0 && lo * d <= n <= hi * d
    ensures lo <= RoundDiv(n, d) <= hi
  {
    var r := RoundDiv(n, d);
    RoundDivNearest(n, d);
    assert (2 * r + 1 - 2 * lo) * d == (2 * r + 1) * d - 2 * (lo * d);
    PositiveFactor(2 * r + 1 - 2 * lo, d);
    assert (2 * hi + 1 - 2 * r) * d == 2 * (hi * d) - (2 * r - 1) * d;
    NonNegativeFactor(2 * hi + 1 - 2 * r, d);
  }

  // ---------------------------------------------------------------------------
  // Skill tiers

  /** A table key: never the empty string. */
  type Key = s: string | s != "" witness "a"

  /** The five tiers of the skill table and the points each is worth. */
  datatype Tier = T10 | T8 | T6 | T4 | T2

  function Points(t: Tier): (r: int)
    ensures r in {2, 4, 6, 8, 10}
  {
    match t
    case T10 => 10
    case T8 => 8
    case T6 => 6
    case T4 => 4
    case T2 => 2
  }

  /** The keys of each tier, in declaration order. */
  const Tier10Keys: seq<Key> := [
    "kubernetes", "machine learning", "deep learning", "rust", "system design",
    "distributed systems", "blockchain", "ai", "mlops", "data engineering", "cloud architecture"]
  const Tier8Keys: seq<Key> := [
    "typescript", "go", "scala", "python", "java", "react", "aws", "gcp", "azure", "docker",
    "postgresql", "mongodb", "graphql", "microservices"]
  const Tier6Keys: seq<Key> := [
    "javascript", "node.js", "ruby", "php", "c#", "vue", "angular", "mysql", "redis",
    "elasticsearch", "jenkins", "terraform", "kafka"]
  const Tier4Keys: seq<Key> := [
    "html", "css", "sql", "git", "linux", "rest api", "agile", "scrum", "jira"]
  const Tier2Keys: seq<Key> := ["excel", "word", "powerpoint", "communication"]

  function Tiered(keys: seq<Key>, t: Tier): (r: seq<(Key, Tier)>)
    ensures |r| == |keys|
    ensures forall i :: 0 <= i < |r| ==> r[i] == (keys[i], t)
  {
    seq(|keys|, i requires 0 <= i < |keys| => (keys[i], t))
  }

  /** The skill tier table, in declaration order. */
  const SkillTiers: seq<(Key, Tier)> :=
    Tiered(Tier10Keys, T10) + Tiered(Tier8Keys, T8) + Tiered(Tier6Keys, T6)
    + Tiered(Tier4Keys, T4) + Tiered(Tier2Keys, T2)

  /** Index of the first entry whose key is exactly `k`, or `|table|`. */
  function IndexOfKey<V>(table: seq<(string, V)>, k: string): (i: nat)
    ensures i <= |table|
    ensures i < |table| ==> table[i].0 == k
    ensures forall j :: 0 <= j < i ==> table[j].0 != k
  {
    if table == [] then 0
    else if table[0].0 == k then 0
    else 1 + IndexOfKey(table[1..], k)
  }

  /** `skill.includes(key) || key.includes(skill)`. */
  predicate Overlaps(skill: string, key: string) {
    Contains(skill, key) || Contains(key, skill)
  }

  /** Index of the first entry whose key overlaps `skill`, or `|table|`. */
  function FirstOverlap<V>(table: seq<(string, V)>, skill: string): (i: nat)
    ensures i <= |table|
    ensures i < |table| ==> Overlaps(skill, table[i].0)
    ensures forall j :: 0 <= j < i ==> !Overlaps(skill, table[j].0)
  {
    if table == [] then 0
    else if Overlaps(skill, table[0].0) then 0
    else 1 + FirstOverlap(table[1..], skill)
  }

  /**
   * The tier of a (lower-cased) skill: the table value on an exact key, else
   * that of the first entry overlapping the skill, else 3.
   */
  function FindSkillTier(skill: string): (r: int)
    ensures r in {2, 3, 4, 6, 8, 10}
  {
    var e := IndexOfKey(SkillTiers, skill);
    if e < |SkillTiers| then Points(SkillTiers[e].1)
    else
      var p := FirstOverlap(SkillTiers, skill);
      if p < |SkillTiers| then Points(SkillTiers[p].1) else 3
  }

  /** Entry `i` is the first whose key is exactly `skill`. */
  predicate FirstExactEntry(skill: string, i: int) {
    0 <= i < |SkillTiers| && SkillTiers[i].0 == skill
    && forall j :: 0 <= j < i ==> SkillTiers[j].0 != skill
  }

  /** Entry `i` is the first whose key overlaps `skill`. */
  predicate FirstOverlapEntry(skill: string, i: int) {
    0 <= i < |SkillTiers| && Overlaps(skill, SkillTiers[i].0)
    && forall j :: 0 <= j < i ==> !Overlaps(skill, SkillTiers[j].0)
  }

  /**
   * The exact key wins over an earlier overlapping entry; otherwise the first
   * overlapping entry decides; the fallback 3 is returned exactly when no entry
   * overlaps the skill.
   */
  lemma FindSkillTierCases(skill: string)
    ensures forall i :: FirstExactEntry(skill, i) ==> FindSkillTier(skill) == Points(SkillTiers[i].1)
    ensures (forall i :: 0 <= i < |SkillTiers| ==> SkillTiers[i].0 != skill) ==>
      (forall i :: FirstOverlapEntry(skill, i) ==> FindSkillTier(skill) == Points(SkillTiers[i].1))
    ensures FindSkillTier(skill) == 3 <==>
      (forall i :: 0 <= i < |SkillTiers| ==> !Overlaps(skill, SkillTiers[i].0))
  {
    var e := IndexOfKey(SkillTiers, skill);
    if e < |SkillTiers| {
      ContainsItself(skill);
      assert Overlaps(skill, SkillTiers[e].0);
    }
  }

  /** The empty skill is contained in 'kubernetes', the first entry, and scores 10. */
  lemma EmptySkillScoresTen()
    ensures FindSkillTier("") == 10
  {
    EmptyIsContained(SkillTiers[0].0);
    assert Overlaps("", SkillTiers[0].0);
  }

  // ---------------------------------------------------------------------------
  // Technical

  /** The sum of the tiers of the lower-cased skills. */
  function TierSum(skills: seq<string>): (r: int)
    ensures 2 * |skills| <= r <= 10 * |skills|
  {
    if skills == [] then 0
    else TierSum(skills[..|skills| - 1]) + FindSkillTier(ToLower(skills[|skills| - 1]))
  }

  lemma {:induction false} TierSumAppend(a: seq<string>, b: seq<string>)
    ensures TierSum(a + b) == TierSum(a) + TierSum(b)
    decreases |b|
  {
    if b == [] {
      assert a + b == a;
    } else {
      var b' := b[..|b| - 1];
      assert (a + b)[..|a + b| - 1] == a + b';
      assert (a + b)[|a + b| - 1] == b[|b| - 1];
      TierSumAppend(a, b');
    }
  }

  /** The technologies of a project, none when the list is absent. */
  function TechsOf(p: Project): seq<string> {
    p.technologies.GetOr([])
  }

  /** All project technologies, project by project. */
  function Technologies(projects: seq<Project>): seq<string> {
    if projects == [] then []
    else Technologies(projects[..|projects| - 1]) + TechsOf(projects[|projects| - 1])
  }

  /** `projects.reduce((sum, p) => sum + (p.stars || 0), 0)`. */
  function TotalStars(projects: seq<Project>): int {
    if projects == [] then 0
    else TotalStars(projects[..|projects| - 1]) + projects[|projects| - 1].stars.GetOr(0)
  }

  /** `projects.reduce((sum, p) => sum + (p.forks || 0), 0)`. */
  function TotalForks(projects: seq<Project>): int {
    if projects == [] then 0
    else TotalForks(projects[..|projects| - 1]) + projects[|projects| - 1].forks.GetOr(0)
  }

  function StarBonus(totalStars: int): int {
    if totalStars > 1000 then 20
    else if totalStars > 500 then 15
    else if totalStars > 100 then 10
    else if totalStars > 10 then 5
    else 0
  }

  /**
   * The technical score in closed form: the tier points earned
   * (skills at full weight, project technologies at half weight, plus the star
   * bonus) as a share of the points possible (10 per skill, 5 per technology,
   * 20 for stars), capped at 100% and rounded. Both totals are in half-points.
   */
  function TechnicalScore(p: ProfileData): int {
    Share(TechnicalEarned(p), TechnicalPossible(p))
  }

  /** Skills at full weight, project technologies at half weight and the star bonus, in half-points. */
  function TechnicalEarned(p: ProfileData): int {
    2 * TierSum(p.skills) + TierSum(Technologies(p.projects)) + 2 * StarBonus(TotalStars(p.projects))
  }

  /** 10 per skill, 5 per technology and 20 for stars, in half-points. */
  function TechnicalPossible(p: ProfileData): (r: int)
    ensures r >= 40
  {
    20 * |p.skills| + 10 * |Technologies(p.projects)| + 40
  }

  /** `Math.round(Math.min((earned / possible) * 100, 100))`. */
  function Share(earned: int, possible: int): int
    requires possible > 0
  {
    RoundDiv(Min(100 * earned, 100 * possible), possible)
  }

  lemma TechnicalScoreInRange(p: ProfileData)
    ensures 0 <= TechnicalScore(p) <= 100
  {
    var earned, possible := TechnicalEarned(p), TechnicalPossible(p);
    RoundDivBounds(Min(100 * earned, 100 * possible), possible, 0, 100);
  }

  /**
   * The inner loop over one project's technologies: adds each tier at half
   * weight to the running totals, which are kept in half-points.
   */
  method AddTechnologies(techs: seq<string>, total0: int, max0: int) returns (total: int, max: int)
    ensures total == total0 + TierSum(techs)
    ensures max == max0 + 10 * |techs|
  {
    total, max := total0, max0;
    var k := 0;
    while k < |techs|
      invariant 0 <= k <= |techs|
      invariant total == total0 + TierSum(techs[..k])
      invariant max == max0 + 10 * k
    {
      assert techs[..k + 1][..k] == techs[..k];
      var tier := FindSkillTier(ToLower(techs[k]));
      total := total + tier;
      max := max + 10;
      k := k + 1;
    }
    assert techs[..k] == techs;
  }

  /** The loop over the lower-cased skills: full tier weight, 10 points possible each. */
  method AddSkills(skills: seq<string>) returns (total: int, max: int)
    ensures total == 2 * TierSum(skills)
    ensures max == 20 * |skills|
  {
    total, max := 0, 0;
    var i := 0;
    while i < |skills|
      invariant 0 <= i <= |skills|
      invariant total == 2 * TierSum(skills[..i])
      invariant max == 20 * i
    {
      assert skills[..i + 1][..i] == skills[..i];
      var tier := FindSkillTier(ToLower(skills[i]));
      total := total + 2 * tier;
      max := max + 20;
      i := i + 1;
    }
    assert skills[..i] == skills;
  }

  /** The loop over the projects that list their technologies. */
  method AddProjects(projects: seq<Project>, total0: int, max0: int) returns (total: int, max: int)
    ensures total == total0 + TierSum(Technologies(projects))
    ensures max == max0 + 10 * |Technologies(projects)|
  {
    total, max := total0, max0;
    var j := 0;
    while j < |projects|
      invariant 0 <= j <= |projects|
      invariant total == total0 + TierSum(Technologies(projects[..j]))
      invariant max == max0 + 10 * |Technologies(projects[..j])|
    {
      TechnologiesStep(projects, j);
      TierSumAppend(Technologies(projects[..j]), TechsOf(projects[j]));
      if projects[j].technologies.Some? {
        total, max := AddTechnologies(projects[j].technologies.value, total, max);
      }
      j := j + 1;
    }
    assert projects[..j] == projects;
  }

  /** One more project adds its technologies after the ones before it. */
  lemma TechnologiesStep(projects: seq<Project>, j: nat)
    requires j < |projects|
    ensures Technologies(projects[..j + 1]) == Technologies(projects[..j]) + TechsOf(projects[j])
  {
    assert projects[..j + 1][..j] == projects[..j];
  }

  /**
   * The technical score, accumulated as `scoreTechnical` does: skills, then project
   * technologies, then the star bonus, in half-points.
   */
  method ScoreTechnical(p: ProfileData) returns (score: int)
    ensures score == TechnicalScore(p)
  {
    var totalHalves, maxHalves := AddSkills(p.skills);
    totalHalves, maxHalves := AddProjects(p.projects, totalHalves, maxHalves);
    var totalStars := TotalStars(p.projects);
    totalHalves := totalHalves + 2 * StarBonus(totalStars);
    maxHalves := maxHalves + 40;
    assert totalHalves == TechnicalEarned(p) && maxHalves == TechnicalPossible(p);
    if maxHalves > 0 {
      score := Share(totalHalves, maxHalves);
    } else {
      score := 0;
    }
  }

  // ---------------------------------------------------------------------------
  // Strategy

  /** `projects.reduce((sum, p) => sum + (p.description?.length || 0), 0)`. */
  function DescriptionLength(projects: seq<Project>): (r: nat) {
    if projects == [] then 0
    else DescriptionLength(projects[..|projects| - 1]) + |projects[|projects| - 1].description|
  }

  /**
   * The strategy score: projects, average description length (compared as
   * `sum > bound * max(1, n)`), achievements, certifications and education,
   * each capped, the total capped at 100.
   */
  function StrategyScore(p: ProfileData): (r: int)
    ensures 0 <= r <= 100
    ensures |p.projects| >= 5 && |p.achievements| >= 3 ==> r >= 60
  {
    var n := |p.projects|;
    var descSum := DescriptionLength(p.projects);
    var divisor := Max(1, n);
    var complexity :=
      if descSum > 200 * divisor then 15
      else if descSum > 100 * divisor then 10
      else if descSum > 50 * divisor then 5
      else 0;
    Min(100, Min(30, n * 6) + complexity + Min(30, |p.achievements| * 10)
      + Min(15, |p.certifications| * 5) + Min(10, |p.education| * 5))
  }

  // ---------------------------------------------------------------------------
  // Execution

  /** `if (x) { ... }`: a present, non-zero metric. */
  predicate Active(m: Option<int>) {
    m.Some? && m.value != 0
  }

  function CommitPoints(c: Option<int>): int {
    if !Active(c) then 0
    else if c.value > 5000 then 30
    else if c.value > 1000 then 25
    else if c.value > 500 then 20
    else if c.value > 100 then 15
    else 10
  }

  function ContributionPoints(c: Option<int>): int {
    if !Active(c) then 0
    else if c.value > 2000 then 25
    else if c.value > 500 then 20
    else if c.value > 100 then 15
    else 10
  }

  function RepositoryPoints(c: Option<int>): int {
    if !Active(c) then 0
    else if c.value > 100 then 15
    else if c.value > 50 then 12
    else if c.value > 20 then 8
    else 5
  }

  /** The activity-metric part of the execution score, before the fallback. */
  function MetricPoints(m: ActivityMetrics): (r: int)
    ensures r <= 95
  {
    CommitPoints(m.commits) + ContributionPoints(m.contributions)
    + (if Active(m.pullRequests) then Min(15, m.pullRequests.value) else 0)
    + RepositoryPoints(m.repositories)
    + (if Active(m.posts) then Min(10, m.posts.value) else 0)
  }

  /**
   * The execution score: the metric points, except that a profile earning no
   * metric points but having projects scores 10 per project; capped at 100.
   */
  function ExecutionScore(p: ProfileData): (r: int)
    ensures r <= 100
    ensures !Active(p.activityMetrics.commits) && !Active(p.activityMetrics.contributions)
         && !Active(p.activityMetrics.pullRequests) && !Active(p.activityMetrics.repositories)
         && !Active(p.activityMetrics.posts)
         ==> r == Min(100, 10 * |p.projects|)
    ensures MetricPoints(p.activityMetrics) != 0 ==> r == MetricPoints(p.activityMetrics)
  {
    var score := MetricPoints(p.activityMetrics);
    var score' := if score == 0 && |p.projects| > 0 then |p.projects| * 10 else score;
    Min(100, score')
  }

  /** With non-negative pull-request and post counts the execution score is not negative. */
  lemma ExecutionNonNegative(p: ProfileData)
    requires p.activityMetrics.pullRequests.GetOr(0) >= 0
    requires p.activityMetrics.posts.GetOr(0) >= 0
    ensures ExecutionScore(p) >= 0
  {
  }

  /** There is no lower clamp: a negative pull-request count drives execution below 0. */
  lemma ExecutionCanBeNegative()
    ensures ExecutionScore(ProfileData("", "", None, None, [], 0, [], [], [],
      NoMetrics.(pullRequests := Some(-50)), [], [], [], None, "", Unknown)) == -50
  {
  }

  // ---------------------------------------------------------------------------
  // Leadership

  const LeadershipKeywords: seq<string> := [
    "lead", "manager", "director", "head", "chief", "vp", "president", "founder",
    "cto", "ceo", "coo", "principal", "staff", "architect"]

  const ExecutiveKeywords: seq<string> := ["ceo", "cto", "coo", "chief", "president", "founder"]
  const DirectorKeywords: seq<string> := ["director", "vp", "head"]
  const SeniorKeywords: seq<string> := ["lead", "manager", "principal", "staff"]

  /** The points of a lower-cased role that holds some leadership keyword. */
  function SeniorityPoints(roleLower: string): (r: int)
    ensures r in {10, 15, 20, 25}
  {
    if ContainsAny(roleLower, ExecutiveKeywords) then 25
    else if ContainsAny(roleLower, DirectorKeywords) then 20
    else if ContainsAny(roleLower, SeniorKeywords) then 15
    else 10
  }

  /** The points a leadership role earns: 0 unless it holds a keyword. */
  function RolePoints(role: string): (r: int)
    ensures 0 <= r <= 25
  {
    var roleLower := ToLower(role);
    if ContainsAny(roleLower, LeadershipKeywords) then SeniorityPoints(roleLower) else 0
  }

  function RolePointsSum(roles: seq<string>): (r: int)
    ensures 0 <= r <= 25 * |roles|
  {
    if roles == [] then 0
    else RolePointsSum(roles[..|roles| - 1]) + RolePoints(roles[|roles| - 1])
  }

  /** Ten points per company whose role holds a leadership keyword. */
  function LeaderCompanyPoints(companies: seq<Company>): (r: int)
    ensures 0 <= r <= 10 * |companies|
  {
    if companies == [] then 0
    else
      LeaderCompanyPoints(companies[..|companies| - 1])
      + (if ContainsAny(ToLower(companies[|companies| - 1].role), LeadershipKeywords) then 10 else 0)
  }

  function FollowerPoints(f: Option<int>): int {
    if !Active(f) then 0
    else if f.value > 10000 then 20
    else if f.value > 5000 then 15
    else if f.value > 1000 then 10
    else if f.value > 500 then 5
    else 0
  }

  function LeadershipScore(p: ProfileData): int {
    Min(100, RolePointsSum(p.leadershipRoles) + LeaderCompanyPoints(p.companies)
      + FollowerPoints(p.activityMetrics.followers))
  }

  lemma LeadershipScoreInRange(p: ProfileData)
    ensures 0 <= LeadershipScore(p) <= 100
  {
  }

  /** "director" contains "cto", so a director is scored as an executive. */
  lemma DirectorScoresAsExecutive()
    ensures RolePoints("Director") == 25
  {
    assert ToLower("Director") == "director";
    assert OccursAt("director", "director", 0);
    assert Contains("director", LeadershipKeywords[2]);
    assert OccursAt("director", "cto", 4);
    assert Contains("director", ExecutiveKeywords[1]);
  }

  /**
   * Scans the keyword list of one lower-cased role, stopping at the first
   * keyword it contains; returns the points for the role.
   */
  method KeywordScan(roleLower: string, onMatch: int) returns (points: int)
    ensures points == if ContainsAny(roleLower, LeadershipKeywords) then onMatch else 0
  {
    points := 0;
    var k := 0;
    while k < |LeadershipKeywords|
      invariant 0 <= k <= |LeadershipKeywords|
      invariant points == 0
      invariant forall j :: 0 <= j < k ==> !Contains(roleLower, LeadershipKeywords[j])
    {
      if Contains(roleLower, LeadershipKeywords[k]) {
        points := onMatch;
        break;
      }
      k := k + 1;
    }
  }

  /** The role and company loops of `scoreLeadership`, each with its keyword loop and `break`. */
  method ScoreLeadership(p: ProfileData) returns (score: int)
    ensures score == LeadershipScore(p)
  {
    score := 0;
    var i := 0;
    while i < |p.leadershipRoles|
      invariant 0 <= i <= |p.leadershipRoles|
      invariant score == RolePointsSum(p.leadershipRoles[..i])
    {
      assert p.leadershipRoles[..i + 1][..i] == p.leadershipRoles[..i];
      var roleLower := ToLower(p.leadershipRoles[i]);
      var points := KeywordScan(roleLower, SeniorityPoints(roleLower));
      score := score + points;
      i := i + 1;
    }
    assert p.leadershipRoles[..i] == p.leadershipRoles;
    var j := 0;
    while j < |p.companies|
      invariant 0 <= j <= |p.companies|
      invariant score == RolePointsSum(p.leadershipRoles) + LeaderCompanyPoints(p.companies[..j])
    {
      assert p.companies[..j + 1][..j] == p.companies[..j];
      var points := KeywordScan(ToLower(p.companies[j].role), 10);
      score := score + points;
      j := j + 1;
    }
    assert p.companies[..j] == p.companies;
    score := score + FollowerPoints(p.activityMetrics.followers);
    score := Min(100, score);
  }

  // ---------------------------------------------------------------------------
  // Impact

  const PrestigeCompanies: seq<string> := [
    "google", "meta", "facebook", "amazon", "apple", "microsoft", "netflix", "tesla",
    "openai", "anthropic", "stripe", "airbnb", "uber", "coinbase", "databricks"]

  function StarPoints(totalStars: int): int {
    if totalStars > 10000 then 40
    else if totalStars > 5000 then 35
    else if totalStars > 1000 then 30
    else if totalStars > 500 then 25
    else if totalStars > 100 then 20
    else if totalStars > 10 then 10
    else 0
  }

  function ForkPoints(totalForks: int): int {
    if totalForks > 1000 then 20
    else if totalForks > 500 then 15
    else if totalForks > 100 then 10
    else if totalForks > 10 then 5
    else 0
  }

  function ConnectionPoints(c: Option<int>): int {
    if !Active(c) then 0
    else if c.value > 10000 then 20
    else if c.value > 5000 then 15
    else if c.value > 1000 then 10
    else if c.value > 500 then 5
    else 0
  }

  predicate IsPrestigious(c: Company) {
    ContainsAny(ToLower(c.name), PrestigeCompanies)
  }

  /** Fifteen points, once, when some company is a prestige company. */
  function PrestigePoints(companies: seq<Company>): int {
    if exists i :: 0 <= i < |companies| && IsPrestigious(companies[i]) then 15 else 0
  }

  function ImpactScore(p: ProfileData): int {
    Min(100, StarPoints(TotalStars(p.projects)) + ForkPoints(TotalForks(p.projects))
      + ConnectionPoints(p.activityMetrics.connections) + PrestigePoints(p.companies)
      + Min(15, |p.achievements| * 5))
  }

  lemma ImpactScoreInRange(p: ProfileData)
    ensures 0 <= ImpactScore(p) <= 100
  {
  }

  /** The prestige loop of `scoreImpact`, which stops at the first prestige company. */
  method ScoreImpact(p: ProfileData) returns (score: int)
    ensures score == ImpactScore(p)
  {
    score := StarPoints(TotalStars(p.projects));
    score := score + ForkPoints(TotalForks(p.projects));
    score := score + ConnectionPoints(p.activityMetrics.connections);
    var base := score;
    var i := 0;
    while i < |p.companies|
      invariant 0 <= i <= |p.companies|
      invariant score == base
      invariant forall j :: 0 <= j < i ==> !IsPrestigious(p.companies[j])
    {
      if ContainsAny(ToLower(p.companies[i].name), PrestigeCompanies) {
        score := score + 15;
        break;
      }
      i := i + 1;
    }
    score := score + Min(15, |p.achievements| * 5);
    score := Min(100, score);
  }

  // ---------------------------------------------------------------------------
  // Experience

  /** The fixed band table over years of experience. */
  function ExperienceScore(years: int): (r: int)
    ensures 15 <= r <= 100
  {
    if years >= 20 then 100
    else if years >= 15 then 90
    else if years >= 10 then 80
    else if years >= 7 then 70
    else if years >= 5 then 60
    else if years >= 3 then 45
    else if years >= 2 then 35
    else if years >= 1 then 25
    else 15
  }

  lemma ExperienceScoreMonotone(y1: int, y2: int)
    requires y1 <= y2
    ensures ExperienceScore(y1) <= ExperienceScore(y2)
  {
  }

  // ---------------------------------------------------------------------------
  // All six stats

  function Stats(p: ProfileData): BattleStats {
    BattleStats(TechnicalScore(p), StrategyScore(p), ExecutionScore(p),
      LeadershipScore(p), ImpactScore(p), ExperienceScore(p.yearsExperience))
  }

  method CalculateStats(p: ProfileData) returns (s: BattleStats)
    ensures s == Stats(p)
  {
    var technical := ScoreTechnical(p);
    var leadership := ScoreLeadership(p);
    var impact := ScoreImpact(p);
    s := BattleStats(technical, StrategyScore(p), ExecutionScore(p), leadership, impact,
      ExperienceScore(p.yearsExperience));
  }

  predicate InRange(s: BattleStats) {
    0 <= s.technical <= 100 && 0 <= s.strategy <= 100 && 0 <= s.execution <= 100
    && 0 <= s.leadership <= 100 && 0 <= s.impact <= 100 && 0 <= s.experience <= 100
  }

  /** Every stat lies in 0..100 when the pull-request and post counts are not negative. */
  lemma StatsInRange(p: ProfileData)
    requires p.activityMetrics.pullRequests.GetOr(0) >= 0
    requires p.activityMetrics.posts.GetOr(0) >= 0
    ensures InRange(Stats(p))
  {
    TechnicalScoreInRange(p);
    ExecutionNonNegative(p);
    LeadershipScoreInRange(p);
    ImpactScoreInRange(p);
  }

  // ---------------------------------------------------------------------------
  // Power

  /** Scoring weights in hundredths. */
  datatype Weights = Weights(skillsDepth: int, experience: int, impact: int, leadership: int, activity: int)

  const DefaultWeights := Weights(30, 20, 25, 15, 10)

  /** The rounded weighted sum of the stats; strategy always weighs 0.20. */
  function TotalPower(w: Weights, s: BattleStats): int {
    RoundDiv(s.technical * w.skillsDepth + s.strategy * 20 + s.execution * w.activity
      + s.leadership * w.leadership + s.impact * w.impact + s.experience * w.experience, 100)
  }

  /** With the default weights, stats in 0..100 give a power in 0..120. */
  lemma DefaultPowerInRange(s: BattleStats)
    requires InRange(s)
    ensures 0 <= TotalPower(DefaultWeights, s) <= 120
  {
    var n := s.technical * 30 + s.strategy * 20 + s.execution * 10
      + s.leadership * 15 + s.impact * 25 + s.experience * 20;
    RoundDivBounds(n, 100, 0, 120);
  }

  lemma RoundDivMonotone(n1: int, n2: int, d: int)
    requires d > 0 && n1 <= n2
    ensures RoundDiv(n1, d) <= RoundDiv(n2, d)
  {
    var r1 := RoundDiv(n1, d);
    var r2 := RoundDiv(n2, d);
    RoundDivNearest(n1, d);
    RoundDivNearest(n2, d);
    assert (2 * r2 + 2 - 2 * r1) * d == (2 * r2 + 1) * d - (2 * r1 - 1) * d;
    PositiveFactor(2 * r2 + 2 - 2 * r1, d);
  }

  predicate AtMost(s: BattleStats, t: BattleStats) {
    s.technical <= t.technical && s.strategy <= t.strategy && s.execution <= t.execution
    && s.leadership <= t.leadership && s.impact <= t.impact && s.experience <= t.experience
  }

  /** Raising any stat never lowers the power, for non-negative weights. */
  lemma TotalPowerMonotone(w: Weights, s: BattleStats, t: BattleStats)
    requires w.skillsDepth >= 0 && w.experience >= 0 && w.impact >= 0
    requires w.leadership >= 0 && w.activity >= 0
    requires AtMost(s, t)
    ensures TotalPower(w, s) <= TotalPower(w, t)
  {
    assert s.technical * w.skillsDepth <= t.technical * w.skillsDepth;
    assert s.execution * w.activity <= t.execution * w.activity;
    assert s.leadership * w.leadership <= t.leadership * w.leadership;
    assert s.impact * w.impact <= t.impact * w.impact;
    assert s.experience * w.experience <= t.experience * w.experience;
    RoundDivMonotone(
      s.technical * w.skillsDepth + s.strategy * 20 + s.execution * w.activity
      + s.leadership * w.leadership + s.impact * w.impact + s.experience * w.experience,
      t.technical * w.skillsDepth + t.strategy * 20 + t.execution * w.activity
      + t.leadership * w.leadership + t.impact * w.impact + t.experience * w.experience, 100);
  }

  // ---------------------------------------------------------------------------
  // Archetype

  datatype StatName = Technical | Strategy | Execution | Leadership | Impact | Experience

  /** The stats in the order the engine lists them before sorting. */
  function StatList(s: BattleStats): seq<(StatName, int)> {
    [(Technical, s.technical), (Strategy, s.strategy), (Execution, s.execution),
     (Leadership, s.leadership), (Impact, s.impact), (Experience, s.experience)]
  }

  function StatValue(e: (StatName, int)): int { e.1 }

  /** The name at the head of the stat list sorted by value, descending. */
  function TopStat(s: BattleStats): StatName {
    Sorting.SortDesc(StatList(s), StatValue)[0].0
  }

  /** Reference definition: the first stat, in list order, that attains the maximum. */
  function FirstTopStat(s: BattleStats): StatName {
    var m := Max(Max(Max(s.technical, s.strategy), Max(s.execution, s.leadership)),
      Max(s.impact, s.experience));
    if s.technical == m then Technical
    else if s.strategy == m then Strategy
    else if s.execution == m then Execution
    else if s.leadership == m then Leadership
    else if s.impact == m then Impact
    else Experience
  }

  lemma TopStatIsFirstMaximal(s: BattleStats)
    ensures TopStat(s) == FirstTopStat(s)
  {
    var xs := StatList(s);
    Sorting.SortDescHead(xs, StatValue);
    var i := Sorting.FirstMax(xs, StatValue);
    FirstMaxOfStats(s, i);
  }

  /** An index that is the first maximal one of the stat list names the first top stat. */
  lemma FirstMaxOfStats(s: BattleStats, i: nat)
    requires i < 6
    requires forall j :: 0 <= j < 6 ==> StatValue(StatList(s)[j]) <= StatValue(StatList(s)[i])
    requires forall j :: 0 <= j < i ==> StatValue(StatList(s)[j]) < StatValue(StatList(s)[i])
    ensures StatList(s)[i].0 == FirstTopStat(s)
  {
    var xs := StatList(s);
    assert StatValue(xs[0]) == s.technical && StatValue(xs[1]) == s.strategy;
    assert StatValue(xs[2]) == s.execution && StatValue(xs[3]) == s.leadership;
    assert StatValue(xs[4]) == s.impact && StatValue(xs[5]) == s.experience;
    assert StatValue(xs[0]) <= StatValue(xs[i]) && StatValue(xs[1]) <= StatValue(xs[i]);
    assert StatValue(xs[2]) <= StatValue(xs[i]) && StatValue(xs[3]) <= StatValue(xs[i]);
    assert StatValue(xs[4]) <= StatValue(xs[i]) && StatValue(xs[5]) <= StatValue(xs[i]);
  }

  function Sum(s: BattleStats): int {
    s.technical + s.strategy + s.execution + s.leadership + s.impact + s.experience
  }

  /**
   * Six times the sum of the absolute deviations from the mean: the mean
   * absolute deviation is below 10 exactly when this is below 360.
   */
  function DeviationSum(s: BattleStats): int {
    Deviation(s, Technical) + Deviation(s, Strategy) + Deviation(s, Execution)
    + Deviation(s, Leadership) + Deviation(s, Impact) + Deviation(s, Experience)
  }

  /** Six times the distance of one stat from the mean. */
  function Deviation(s: BattleStats, n: StatName): (r: int)
    ensures r >= 0
  {
    Abs(6 * StatOf(s, n) - Sum(s))
  }

  predicate Balanced(s: BattleStats) {
    DeviationSum(s) < 360
  }

  function DetermineArchetype(s: BattleStats): Archetype {
    ArchetypeFor(Balanced(s), s, TopStat(s))
  }

  /** The rule chain, given whether the stats are balanced and which stat is on top. */
  function ArchetypeFor(balanced: bool, s: BattleStats, top: StatName): Archetype {
    if balanced then Warrior
    else if s.leadership >= 70 then Commander
    else if top == Technical && s.experience < 50 then Prodigy
    else if top == Technical && s.leadership < 30 && s.impact < 40 then Shadow
    else if top == Experience && s.leadership >= 50 then Veteran
    else if top == Impact && s.strategy >= 60 then Visionary
    else if top == Strategy && s.leadership >= 50 then Strategist
    else if top == Execution || top == Technical then Executor
    else Warrior
  }

  /** Six equal stats are balanced. */
  lemma EqualStatsAreWarrior(v: int)
    ensures DetermineArchetype(BattleStats(v, v, v, v, v, v)) == Warrior
  {
  }

  function StatOf(s: BattleStats, n: StatName): int {
    match n
    case Technical => s.technical
    case Strategy => s.strategy
    case Execution => s.execution
    case Leadership => s.leadership
    case Impact => s.impact
    case Experience => s.experience
  }

  lemma DeviationSumCovers(s: BattleStats, a: StatName, b: StatName)
    requires a != b
    ensures DeviationSum(s) >= Deviation(s, a) + Deviation(s, b)
  {
    var d1, d2, d3 := Deviation(s, Technical), Deviation(s, Strategy), Deviation(s, Execution);
    var d4, d5, d6 := Deviation(s, Leadership), Deviation(s, Impact), Deviation(s, Experience);
    assert DeviationSum(s) == d1 + d2 + d3 + d4 + d5 + d6;
  }

  /** Two stats 60 or more apart are never balanced. */
  lemma SpreadIsNotBalanced(s: BattleStats, hi: StatName, lo: StatName)
    requires StatOf(s, hi) - StatOf(s, lo) >= 60
    ensures !Balanced(s)
  {
    DeviationSumCovers(s, hi, lo);
    assert Deviation(s, hi) + Deviation(s, lo) >= 6 * (StatOf(s, hi) - StatOf(s, lo));
  }

  /** Which outcome of the rule chain each combination of conditions reaches. */
  lemma ArchetypeForRules(b: bool, s: BattleStats, top: StatName)
    ensures b ==> ArchetypeFor(b, s, top) == Warrior
    ensures ArchetypeFor(b, s, top) == Commander <==> !b && s.leadership >= 70
    ensures ArchetypeFor(b, s, top) == Prodigy
        <==> !b && s.leadership < 70 && top == Technical && s.experience < 50
    ensures ArchetypeFor(b, s, top) == Shadow
        <==> !b && s.leadership < 30 && top == Technical && s.experience >= 50 && s.impact < 40
    ensures ArchetypeFor(b, s, top) == Veteran
        <==> !b && 50 <= s.leadership < 70 && top == Experience
    ensures ArchetypeFor(b, s, top) == Visionary
        <==> !b && s.leadership < 70 && top == Impact && s.strategy >= 60
    ensures ArchetypeFor(b, s, top) == Strategist
        <==> !b && 50 <= s.leadership < 70 && top == Strategy
    ensures ArchetypeFor(b, s, top) == Executor
        <==> !b && s.leadership < 70
             && (top == Execution
                 || (top == Technical && s.experience >= 50 && !(s.leadership < 30 && s.impact < 40)))
    ensures ArchetypeFor(b, s, top) == Warrior
        <==> b || (s.leadership < 70 && FallsThrough(s, top))
  {
  }

  /**
   * The top stat and stats reach the final `return 'The Warrior'`: no rule
   * after the leadership test applies.
   */
  predicate FallsThrough(s: BattleStats, top: StatName) {
    top != Technical && top != Execution
    && !(top == Experience && s.leadership >= 50)
    && !(top == Impact && s.strategy >= 60)
    && !(top == Strategy && s.leadership >= 50)
  }

  /** The archetype rules, stated against the first-maximal-stat reference. */
  lemma ArchetypeRules(s: BattleStats)
    ensures Balanced(s) ==> DetermineArchetype(s) == Warrior
    ensures DetermineArchetype(s) == Commander <==> !Balanced(s) && s.leadership >= 70
    ensures DetermineArchetype(s) == Prodigy
        <==> !Balanced(s) && s.leadership < 70 && FirstTopStat(s) == Technical && s.experience < 50
    ensures DetermineArchetype(s) == Shadow
        <==> !Balanced(s) && s.leadership < 30 && FirstTopStat(s) == Technical
             && s.experience >= 50 && s.impact < 40
    ensures DetermineArchetype(s) == Veteran
        <==> !Balanced(s) && 50 <= s.leadership < 70 && FirstTopStat(s) == Experience
    ensures DetermineArchetype(s) == Visionary
        <==> !Balanced(s) && s.leadership < 70 && FirstTopStat(s) == Impact && s.strategy >= 60
    ensures DetermineArchetype(s) == Strategist
        <==> !Balanced(s) && 50 <= s.leadership < 70 && FirstTopStat(s) == Strategy
    ensures DetermineArchetype(s) == Executor
        <==> !Balanced(s) && s.leadership < 70
             && (FirstTopStat(s) == Execution
                 || (FirstTopStat(s) == Technical && s.experience >= 50
                     && !(s.leadership < 30 && s.impact < 40)))
    ensures DetermineArchetype(s) == Warrior
        <==> Balanced(s) || (s.leadership < 70 && FallsThrough(s, FirstTopStat(s)))
  {
    TopStatIsFirstMaximal(s);
    ArchetypeForRules(Balanced(s), s, TopStat(s));
  }

  // ---------------------------------------------------------------------------
  // Anime transformation

  const TechniqueNames: seq<(string, string)> := [
    ("javascript", "Thunder Script Jutsu"), ("typescript", "Type Guardian Shield"),
    ("python", "Serpent Code Strike"), ("java", "Ancient Coffee Technique"),
    ("react", "Component Manifestation"), ("vue", "Progressive Binding Art"),
    ("angular", "Framework Fortress"), ("node.js", "Server Spirit Summoning"),
    ("aws", "Cloud Domain Expansion"), ("docker", "Container Dimension"),
    ("kubernetes", "Orchestration Infinity"), ("machine learning", "Neural Network Enlightenment"),
    ("ai", "Artificial Intelligence Awakening"), ("rust", "Memory Safe Armor"),
    ("go", "Goroutine Flash Step"), ("postgresql", "Relational Memory Palace"),
    ("mongodb", "Document Chaos Control"), ("graphql", "Query Manipulation Art"),
    ("git", "Version Control Time Travel"), ("linux", "Penguin Spirit Form")
  ]

  const TechniquePrefixes: seq<string> := ["Ultimate", "Divine", "Ancient", "Forbidden", "Sacred", "Mystic"]
  const TechniqueSuffixes: seq<string> := ["Strike", "Art", "Technique", "Jutsu", "Style", "Form"]

  /** `${prefix} ${skill} ${suffix}` with the prefix and suffix drawn by `rolls`. */
  function GenericTechnique(skill: string, prefixRoll: nat, suffixRoll: nat): (r: string)
    ensures OccursAt(r, " " + skill + " ", |TechniquePrefixes[prefixRoll % 6]|)
  {
    var pre := TechniquePrefixes[prefixRoll % 6];
    var r := pre + " " + skill + " " + TechniqueSuffixes[suffixRoll % 6];
    assert r[|pre|..|pre| + |" " + skill + " "|] == " " + skill + " ";
    r
  }

  /**
   * The technique of the `i`-th skill: the table name of the lower-cased skill,
   * else a generic technique around the skill as written. `rolls` stands for the
   * random draws: entries `2i` and `2i+1` pick the prefix and the suffix.
   */
  function Technique(skill: string, i: nat, rolls: nat -> nat): string {
    var e := IndexOfKey(TechniqueNames, ToLower(skill));
    if e < |TechniqueNames| then TechniqueNames[e].1
    else GenericTechnique(skill, rolls(2 * i), rolls(2 * i + 1))
  }

  /** `skills.slice(0, 6).map(...)`: one technique per leading skill, at most six. */
  function GenerateTechniques(skills: seq<string>, rolls: nat -> nat): (r: seq<string>)
    ensures |r| == Min(6, |skills|)
  {
    var lead := Take(skills, 6);
    seq(|lead|, i requires 0 <= i < |lead| => Technique(lead[i], i, rolls))
  }

  /** Every generated technique is named after its skill, from the table or around the skill. */
  lemma GeneratedTechniquesNamed(skills: seq<string>, rolls: nat -> nat)
    ensures var r := GenerateTechniques(skills, rolls);
      forall i :: 0 <= i < |r| ==> NamedTechnique(skills[i], r[i])
  {
    var r := GenerateTechniques(skills, rolls);
    forall i | 0 <= i < |r|
      ensures NamedTechnique(skills[i], r[i])
    {
      assert r[i] == Technique(skills[i], i, rolls);
    }
  }

  /**
   * `technique` is the table name of the lower-cased skill when the table has
   * one, and otherwise a name with the skill as written between two words.
   */
  predicate NamedTechnique(skill: string, technique: string) {
    var e := IndexOfKey(TechniqueNames, ToLower(skill));
    if e < |TechniqueNames| then technique == TechniqueNames[e].1
    else Contains(technique, " " + skill + " ")
  }

  /** The index of the first current company, or `|companies|`. */
  function FirstCurrent(companies: seq<Company>): (i: nat)
    ensures i <= |companies|
    ensures i < |companies| ==> companies[i].current
    ensures forall j :: 0 <= j < i ==> !companies[j].current
  {
    if companies == [] then 0
    else if companies[0].current then 0
    else 1 + FirstCurrent(companies[1..])
  }

  /**
   * The guild: the first current company, else the first company, as
   * "<name> Guild"; 'Independent Fighter' exactly when there is no company.
   */
  function FormatGuild(companies: seq<Company>): (r: string)
    ensures r == "Independent Fighter" <==> companies == []
    ensures FirstCurrent(companies) < |companies| ==> r == companies[FirstCurrent(companies)].name + " Guild"
    ensures companies != [] && FirstCurrent(companies) == |companies| ==> r == companies[0].name + " Guild"
  {
    var i := FirstCurrent(companies);
    if i < |companies| then
      var r := companies[i].name + " Guild";
      assert r[|r| - 1] == 'd';
      r
    else if |companies| > 0 then
      var r := companies[0].name + " Guild";
      assert r[|r| - 1] == 'd';
      r
    else "Independent Fighter"
  }

  /** The label of the experience band. */
  function FormatBattleExperience(years: int): string {
    ExperienceLabel(ExperienceBand(years))
  }

  /** Which of the eight experience labels a career gets, 7 the longest. */
  function ExperienceBand(years: int): (r: nat)
    ensures r < 8
  {
    if years >= 20 then 7
    else if years >= 15 then 6
    else if years >= 10 then 5
    else if years >= 7 then 4
    else if years >= 5 then 3
    else if years >= 3 then 2
    else if years >= 1 then 1
    else 0
  }

  function ExperienceLabel(band: nat): string {
    if band == 7 then "Legendary Veteran (20+ years of battle)"
    else if band == 6 then "Master Warrior (15+ years of battle)"
    else if band == 5 then "Elite Fighter (10+ years of battle)"
    else if band == 4 then "Seasoned Warrior (7+ years of battle)"
    else if band == 3 then "Experienced Fighter (5+ years of battle)"
    else if band == 2 then "Rising Warrior (3+ years of battle)"
    else if band == 1 then "Young Fighter (1+ years of battle)"
    else "Newcomer (Beginning their journey)"
  }

  /**
   * The label bands are the experience score's bands, except that the label
   * joins the 1-year and 2-year bands into 'Young Fighter' (band 1): careers
   * with the same score share a label band, and careers in the same label band
   * other than band 1 share a score.
   */
  lemma ExperienceBandAgreesWithScore(y1: int, y2: int)
    ensures ExperienceScore(y1) == ExperienceScore(y2) ==> ExperienceBand(y1) == ExperienceBand(y2)
    ensures ExperienceBand(y1) == ExperienceBand(y2) != 1 ==> ExperienceScore(y1) == ExperienceScore(y2)
  {
    if ExperienceScore(y1) == ExperienceScore(y2) {
      ExperienceScoreDeterminesBand(y1, y2);
    }
  }

  lemma ExperienceScoreDeterminesBand(y1: int, y2: int)
    requires ExperienceScore(y1) == ExperienceScore(y2)
    ensures ExperienceBand(y1) == ExperienceBand(y2)
  {
  }

  /** A longer career never gets a lower label band. */
  lemma ExperienceBandMonotone(y1: int, y2: int)
    requires y1 <= y2
    ensures ExperienceBand(y1) <= ExperienceBand(y2)
  {
  }

  /** The mission score: stars plus twice the forks. */
  function MissionScore(p: Project): int {
    p.stars.GetOr(0) + 2 * p.forks.GetOr(0)
  }

  function DetermineMissionRank(p: Project): Rank {
    var score := MissionScore(p);
    if score > 1000 then S
    else if score > 500 then A
    else if score > 100 then B
    else if score > 10 then C
    else D
  }

  function RankOrder(r: Rank): nat {
    match r
    case S => 4
    case A => 3
    case B => 2
    case C => 1
    case D => 0
  }

  /** A project with a higher mission score never gets a lower rank. */
  lemma MissionRankMonotone(p: Project, q: Project)
    requires MissionScore(p) <= MissionScore(q)
    ensures RankOrder(DetermineMissionRank(p)) <= RankOrder(DetermineMissionRank(q))
  {
  }

  /** The first five projects as missions, an empty description read as 'A mysterious mission'. */
  function FormatMissions(projects: seq<Project>): (r: seq<Mission>)
    ensures |r| == Min(5, |projects|)
    ensures forall i :: 0 <= i < |r| ==>
      r[i].name == projects[i].name && r[i].rank == DetermineMissionRank(projects[i])
      && r[i].description != ""
      && (projects[i].description != "" ==> r[i].description == projects[i].description)
  {
    var lead := Take(projects, 5);
    seq(|lead|, i requires 0 <= i < |lead| =>
      Mission(lead[i].name, DetermineMissionRank(lead[i]),
        if lead[i].description != "" then lead[i].description else "A mysterious mission"))
  }

  /** `skills[0] || 'coding'`. */
  function TopSkill(skills: seq<string>): string {
    if skills != [] && skills[0] != "" then skills[0] else "coding"
  }

  /** The text before and after the top skill in the archetype's ability. */
  function AbilityTemplate(a: Archetype): (string, string) {
    match a
    case Strategist => ("Strategic ", " Mastery - Can see through any technical challenge")
    case Executor => ("Rapid ", " Deployment - Executes with lightning speed")
    case Visionary => ("", " Innovation - Creates solutions others can't imagine")
    case Warrior => ("Balanced ", " Combat - Adapts to any battle situation")
    case Prodigy => ("Innate ", " Genius - Natural talent beyond years")
    case Veteran => ("Ancient ", " Wisdom - Experience that never fails")
    case Shadow => ("Hidden ", " Power - True strength revealed in critical moments")
    case Commander => ("", " Leadership Aura - Inspires and leads armies of developers")
  }

  /** The archetype's ability template around the top skill; it always names that skill. */
  function GenerateSpecialAbility(skills: seq<string>, s: BattleStats): (r: string)
    ensures Contains(r, TopSkill(skills))
  {
    var top := TopSkill(skills);
    var (pre, post) := AbilityTemplate(DetermineArchetype(s));
    ContainsMiddle(pre, top, post);
    pre + top + post
  }

  /** `companies.map(c => c.name)`. */
  function CompanyNames(companies: seq<Company>): (r: seq<string>)
    ensures |r| == |companies|
    ensures forall i :: 0 <= i < |companies| ==> r[i] == companies[i].name
  {
    seq(|companies|, i requires 0 <= i < |companies| => companies[i].name)
  }

  function TransformToAnime(w: Weights, p: ProfileData, s: BattleStats, rolls: nat -> nat): (r: AnimeProfile)
    ensures r.profile == p && r.stats == s
    ensures r.archetype == DetermineArchetype(s) && r.totalPower == TotalPower(w, s)
    ensures |r.techniques| == Min(6, |p.skills|) && |r.missions| == Min(5, |p.projects|)
    ensures r.techniques == GenerateTechniques(p.skills, rolls) && r.missions == FormatMissions(p.projects)
    ensures r.battleExperience == FormatBattleExperience(p.yearsExperience)
    ensures r.guild == FormatGuild(p.companies)
    ensures r.guildHistory == CompanyNames(p.companies)
    ensures r.legendaryScrolls == p.certifications
    ensures Contains(r.specialAbility, TopSkill(p.skills))
  {
    AnimeProfile(
      p, s, TotalPower(w, s), DetermineArchetype(s),
      GenerateTechniques(p.skills, rolls),
      FormatGuild(p.companies),
      CompanyNames(p.companies),
      FormatBattleExperience(p.yearsExperience),
      p.certifications,
      FormatMissions(p.projects),
      GenerateSpecialAbility(p.skills, s))
  }

  // ---------------------------------------------------------------------------
  // Winner

  /** A draw within 5 power points, else the stronger fighter; with the margin. */
  function DetermineWinner(p1: AnimeProfile, p2: AnimeProfile): (r: (Winner, int))
    ensures r.1 == Abs(p1.totalPower - p2.totalPower) && r.1 >= 0
    ensures r.0 == Draw <==> r.1 <= 5
    ensures r.0 == Profile1 <==> p1.totalPower > p2.totalPower + 5
    ensures r.0 == Profile2 <==> p2.totalPower > p1.totalPower + 5
  {
    var margin := Abs(p1.totalPower - p2.totalPower);
    if margin <= 5 then (Draw, margin)
    else (if p1.totalPower > p2.totalPower then Profile1 else Profile2, margin)
  }

  function Swapped(w: Winner): Winner {
    match w
    case Profile1 => Profile2
    case Profile2 => Profile1
    case Draw => Draw
  }

  /** Swapping the fighters keeps the margin and swaps the winner. */
  lemma DetermineWinnerSwap(p1: AnimeProfile, p2: AnimeProfile)
    ensures DetermineWinner(p2, p1).1 == DetermineWinner(p1, p2).1
    ensures DetermineWinner(p2, p1).0 == Swapped(DetermineWinner(p1, p2).0)
  {
  }
}
