/// The scraper service's platform detection and its three normalisers, which
/// map a raw LinkedIn, GitHub or Wikipedia payload to a fully populated
/// profile, with their helpers: duration arithmetic, keyword filters,
/// de-duplication, ordered caps and date-based estimates. The current year is
/// a parameter.
module Scraper {
  import opened Wrappers
  import opened Strings
  import opened Json
  import opened Types
  import opened Sorting

  // ---------------------------------------------------------------------------
  // Platform detection

  const PortfolioMarkers: seq<string> := ["portfolio", "personal", ".dev", ".io"]

  /** Every marker `detectPlatform` looks for, in the order it looks. */
  const PlatformMarkers: seq<string> := ["linkedin.com", "github.com", "wikipedia.org"] + PortfolioMarkers

  /**
   * The platform of a URL: the first of linkedin.com, github.com,
   * wikipedia.org, then any portfolio marker, that the lower-cased URL
   * contains; `Unknown` when it contains none.
   */
  function DetectPlatform(url: string): (p: Platform)
    ensures p == LinkedIn <==> Contains(ToLower(url), "linkedin.com")
    ensures p == GitHub <==> !Contains(ToLower(url), "linkedin.com") && Contains(ToLower(url), "github.com")
    ensures p == Wikipedia ==> Contains(ToLower(url), "wikipedia.org") && !Contains(ToLower(url), "github.com")
    ensures p == Portfolio ==> ContainsAny(ToLower(url), PortfolioMarkers)
    ensures p == Unknown <==> !ContainsAny(ToLower(url), PlatformMarkers)
  {
    var u := ToLower(url);
    if Contains(u, "linkedin.com") then
      assert Contains(u, PlatformMarkers[0]);
      LinkedIn
    else if Contains(u, "github.com") then
      assert Contains(u, PlatformMarkers[1]);
      GitHub
    else if Contains(u, "wikipedia.org") then
      assert Contains(u, PlatformMarkers[2]);
      Wikipedia
    else if Contains(u, "portfolio") || Contains(u, "personal") || Contains(u, ".dev") || Contains(u, ".io") then
      assert ContainsAny(u, PortfolioMarkers) by {
        if Contains(u, "portfolio") { assert Contains(u, PortfolioMarkers[0]); }
        else if Contains(u, "personal") { assert Contains(u, PortfolioMarkers[1]); }
        else if Contains(u, ".dev") { assert Contains(u, PortfolioMarkers[2]); }
        else { assert Contains(u, PortfolioMarkers[3]); }
      }
      assert Contains(u, PlatformMarkers[3]) || Contains(u, PlatformMarkers[4]) || Contains(u, PlatformMarkers[5]) || Contains(u, PlatformMarkers[6]);
      Portfolio
    else
      assert forall k :: 0 <= k < |PlatformMarkers| ==> !Contains(u, PlatformMarkers[k]) by {
        forall k | 0 <= k < |PlatformMarkers|
          ensures !Contains(u, PlatformMarkers[k])
        {
          assert PlatformMarkers[k] in ["linkedin.com", "github.com", "wikipedia.org", "portfolio", "personal", ".dev", ".io"];
        }
      }
      Unknown
  }

  /** The markers are tried in order: each platform is chosen exactly when its marker is the first one present. */
  lemma DetectPlatformFirstMatch(url: string)
    ensures DetectPlatform(url) == Wikipedia
        <==> !Contains(ToLower(url), "linkedin.com") && !Contains(ToLower(url), "github.com")
             && Contains(ToLower(url), "wikipedia.org")
    ensures DetectPlatform(url) == Portfolio
        <==> !Contains(ToLower(url), "linkedin.com") && !Contains(ToLower(url), "github.com")
             && !Contains(ToLower(url), "wikipedia.org") && ContainsAny(ToLower(url), PortfolioMarkers)
  {
  }

  /** Detection ignores letter case: a URL and its lower-cased form are on the same platform. */
  lemma DetectPlatformIgnoresCase(url: string)
    ensures DetectPlatform(ToLower(url)) == DetectPlatform(url)
  {
    ToLowerIdempotent(url);
  }

  // ---------------------------------------------------------------------------
  // LinkedIn durations

  /** The lower-cased ASCII word `w` occurs at `i` in `s`, ignoring case (the `i` flag). */
  predicate WordAtIgnoringCase(s: string, w: string, i: int) {
    0 <= i && i + |w| <= |s| && ToLower(s[i..i + |w|]) == w
  }

  /** `(\d+)\s*(u1|u2|...)` matched at `i`: the number, when one of the units follows it. */
  function QuantityAt(s: string, i: nat, units: seq<string>): (r: Option<nat>)
    requires i < |s|
    ensures r.Some? ==> IsDigit(s[i])
  {
    if !IsDigit(s[i]) then None
    else
      var n := DigitRun(s[i..]);
      var j := i + n;
      var unitStart := j + SpaceRun(s[j..]);
      if exists k :: 0 <= k < |units| && WordAtIgnoringCase(s, units[k], unitStart) then
        Some(DigitsValue(s[i..j]))
      else None
  }

  /** The first match of `(\d+)\s*(u1|u2|...)` at or after `i`, searching left to right. */
  function FirstQuantity(s: string, units: seq<string>, i: nat): (r: Option<nat>)
    decreases |s| - i
  {
    if i >= |s| then None
    else match QuantityAt(s, i, units)
      case Some(q) => Some(q)
      case None => FirstQuantity(s, units, i + 1)
  }

  const YearUnits: seq<string> := ["year", "yr"]
  const MonthUnits: seq<string> := ["month", "mo"]

  /** The months one duration text stands for: 12 per year of the first `N year`/`N yr`, plus the first `N month`/`N mo`. */
  function DurationMonths(duration: string): nat {
    (match FirstQuantity(duration, YearUnits, 0) case Some(y) => 12 * y case None => 0)
    + (match FirstQuantity(duration, MonthUnits, 0) case Some(m) => m case None => 0)
  }

  /** `exp.duration as string`, with a missing or non-string duration read as none. */
  function DurationOf(experience: Value): string {
    TextOf(Get(FieldsOf(experience), "duration"))
  }

  /** The months of all the experiences' durations. */
  function TotalMonths(experiences: seq<Value>): nat
    decreases |experiences|
  {
    if experiences == [] then 0
    else TotalMonths(experiences[..|experiences| - 1]) + DurationMonths(DurationOf(experiences[|experiences| - 1]))
  }

  /** The month total does not depend on how the history is split. */
  lemma {:induction false} TotalMonthsAppend(xs: seq<Value>, ys: seq<Value>)
    ensures TotalMonths(xs + ys) == TotalMonths(xs) + TotalMonths(ys)
    decreases |ys|
  {
    if ys != [] {
      var zs := xs + ys;
      assert zs[..|zs| - 1] == xs + ys[..|ys| - 1];
      assert zs[|zs| - 1] == ys[|ys| - 1];
      TotalMonthsAppend(xs, ys[..|ys| - 1]);
    } else {
      assert xs + ys == xs;
    }
  }

  /**
   * `calculateYearsExperience`: the rounded number of years in the durations'
   * month total, `Math.round(totalMonths / 12)`.
   */
  method CalculateYearsExperience(experiences: seq<Value>) returns (years: nat)
    ensures years == (TotalMonths(experiences) + 6) / 12
  {
    if |experiences| == 0 {
      return 0;
    }
    var totalMonths := 0;
    for i := 0 to |experiences|
      invariant totalMonths == TotalMonths(experiences[..i])
    {
      assert experiences[..i + 1][..i] == experiences[..i];
      var duration := DurationOf(experiences[i]);
      if duration != "" {
        var yearsMatch := FirstQuantity(duration, YearUnits, 0);
        var monthsMatch := FirstQuantity(duration, MonthUnits, 0);
        if yearsMatch.Some? {
          totalMonths := totalMonths + yearsMatch.value * 12;
        }
        if monthsMatch.Some? {
          totalMonths := totalMonths + monthsMatch.value;
        }
      }
    }
    assert experiences[..|experiences|] == experiences;
    years := (totalMonths + 6) / 12;
  }

  // ---------------------------------------------------------------------------
  // Leadership roles from job titles

  const LeadershipTitleWords: seq<string> :=
    ["lead", "manager", "director", "head", "chief", "vp", "president", "founder", "cto", "ceo", "coo"]

  /** A title naming a leadership role: its lower-cased form contains one of the leadership words. */
  predicate IsLeadershipTitle(title: string) {
    ContainsAny(ToLower(title), LeadershipTitleWords)
  }

  /** `(exp.title as string) || ''`. */
  function TitleOf(experience: Value): string {
    TextOr(Get(FieldsOf(experience), "title"), "")
  }

  /** `extractLeadershipRoles`: the titles of the experiences whose title names a leadership role, in order. */
  function ExtractLeadershipRoles(experiences: seq<Value>): (r: seq<string>)
    ensures |r| <= |experiences|
    ensures forall t :: t in r <==> exists i :: 0 <= i < |experiences| && TitleOf(experiences[i]) == t && IsLeadershipTitle(t)
    decreases |experiences|
  {
    if experiences == [] then []
    else
      var rest := ExtractLeadershipRoles(experiences[1..]);
      assert forall i :: 1 <= i < |experiences| ==> experiences[i] == experiences[1..][i - 1];
      assert forall i :: 0 <= i < |experiences[1..]| ==> experiences[1..][i] == experiences[i + 1];
      var t := TitleOf(experiences[0]);
      if IsLeadershipTitle(t) then [t] + rest else rest
  }

  /** The roles keep the order of the history: the roles of two histories in a row are the roles of each, in a row. */
  lemma {:induction false} LeadershipRolesAppend(xs: seq<Value>, ys: seq<Value>)
    ensures ExtractLeadershipRoles(xs + ys) == ExtractLeadershipRoles(xs) + ExtractLeadershipRoles(ys)
    decreases |xs|
  {
    if xs == [] {
      assert xs + ys == ys;
    } else {
      assert (xs + ys)[0] == xs[0];
      assert (xs + ys)[1..] == xs[1..] + ys;
      LeadershipRolesAppend(xs[1..], ys);
    }
  }

  // ---------------------------------------------------------------------------
  // GitHub skills

  /** The strings of an array value; anything else holds none. */
  function StrItems(v: Value): (r: seq<string>)
    ensures forall s :: s in r ==> Str(s) in ItemsOf(v)
  {
    StringsOf(ItemsOf(v))
  }

  function StringsOf(vs: seq<Value>): (r: seq<string>)
    ensures forall s :: s in r ==> Str(s) in vs
    decreases |vs|
  {
    if vs == [] then []
    else (if vs[0].Str? then [vs[0].s] else []) + StringsOf(vs[1..])
  }

  /** `languages` then `topics` of one repository. */
  function RepoSkills(repo: Value): seq<string> {
    StrItems(Get(FieldsOf(repo), "languages")) + StrItems(Get(FieldsOf(repo), "topics"))
  }

  /** Every repository's languages and topics, in order. */
  function SkillCandidates(repos: seq<Value>): seq<string>
    decreases |repos|
  {
    if repos == [] then [] else SkillCandidates(repos[..|repos| - 1]) + RepoSkills(repos[|repos| - 1])
  }

  /**
   * The skills `extractSkillsFromRepos` returns: no more than 20, no two
   * alike, each a language or topic of some repository, in the order of
   * first appearance; every candidate is among them unless 20 are taken.
   */
  function SkillsFromRepos(repos: seq<Value>): (r: seq<string>)
    ensures |r| <= 20
    ensures NoDuplicates(r)
    ensures forall s :: s in r ==> s in SkillCandidates(repos)
    ensures |r| < 20 ==> forall s :: s in SkillCandidates(repos) ==> s in r
  {
    var d := Distinct(SkillCandidates(repos));
    var r := Take(d, 20);
    assert forall s :: s in r ==> s in d;
    r
  }

  /** Adding one candidate to the insertion-ordered set. */
  lemma DistinctSnoc(xs: seq<string>, x: string)
    ensures Distinct(xs + [x]) == if x in Distinct(xs) then Distinct(xs) else Distinct(xs) + [x]
  {
    assert (xs + [x])[..|xs + [x]| - 1] == xs;
  }

  /** Adding the next element of `items` to the set built from `before` and the items so far. */
  lemma AddStep(before: seq<string>, items: seq<string>, j: nat)
    requires j < |items|
    ensures var d := Distinct(before + items[..j]);
      Distinct(before + items[..j + 1]) == if items[j] in d then d else d + [items[j]]
  {
    assert before + items[..j + 1] == before + items[..j] + [items[j]];
    DistinctSnoc(before + items[..j], items[j]);
  }

  /** `items.forEach(x => set.add(x))` on an insertion-ordered set holding the distinct elements of `before`. */
  method AddAll(set0: seq<string>, ghost before: seq<string>, items: seq<string>) returns (set1: seq<string>)
    requires set0 == Distinct(before)
    ensures set1 == Distinct(before + items)
  {
    set1 := set0;
    assert before + items[..0] == before;
    for j := 0 to |items|
      invariant set1 == Distinct(before + items[..j])
    {
      AddStep(before, items, j);
      if items[j] !in set1 {
        set1 := set1 + [items[j]];
      }
    }
    assert items[..|items|] == items;
  }

  /** The candidates of one more repository. */
  lemma CandidatesStep(repos: seq<Value>, i: nat)
    requires i < |repos|
    ensures SkillCandidates(repos[..i + 1])
      == SkillCandidates(repos[..i]) + StrItems(Get(FieldsOf(repos[i]), "languages")) + StrItems(Get(FieldsOf(repos[i]), "topics"))
  {
    assert repos[..i + 1][..i] == repos[..i];
    var a, b, c := SkillCandidates(repos[..i]), StrItems(Get(FieldsOf(repos[i]), "languages")), StrItems(Get(FieldsOf(repos[i]), "topics"));
    assert a + (b + c) == a + b + c;
  }

  /** `extractSkillsFromRepos`, filling an insertion-ordered set (a sequence without repeats) repository by repository. */
  method ExtractSkillsFromRepos(repos: seq<Value>) returns (skills: seq<string>)
    ensures skills == SkillsFromRepos(repos)
  {
    var skillSet: seq<string> := [];
    for i := 0 to |repos|
      invariant skillSet == Distinct(SkillCandidates(repos[..i]))
    {
      var fields := FieldsOf(repos[i]);
      var languages := StrItems(Get(fields, "languages"));
      var topics := StrItems(Get(fields, "topics"));
      ghost var before := SkillCandidates(repos[..i]);
      skillSet := AddAll(skillSet, before, languages);
      skillSet := AddAll(skillSet, before + languages, topics);
      CandidatesStep(repos, i);
    }
    assert repos[..|repos|] == repos;
    skills := Take(skillSet, 20);
  }

  // ---------------------------------------------------------------------------
  // GitHub estimates and achievements

  /**
   * `estimateGitHubExperience`: no `created_at`, no years; otherwise the
   * account's age in calendar years, at least 1. `yearOf` is the local
   * calendar year of a timestamp (`new Date(t).getFullYear()`).
   */
  function EstimateGitHubExperience(data: Record, currentYear: int, yearOf: string -> int): (years: int)
    ensures TextOf(Get(data, "created_at")) == "" ==> years == 0
    ensures TextOf(Get(data, "created_at")) != "" ==>
      var age := currentYear - yearOf(TextOf(Get(data, "created_at")));
      years >= 1 && years >= age && (years == 1 || years == age)
  {
    var createdAt := TextOf(Get(data, "created_at"));
    if createdAt == "" then 0
    else
      var accountAge := currentYear - yearOf(createdAt);
      if accountAge > 1 then accountAge else 1
  }

  /** `(repo.stargazers_count as number) || 0`. */
  function StarsOf(repo: Record): int {
    NumOr0(Get(repo, "stargazers_count"))
  }

  /** The stars of all repositories (`reduce` from 0). */
  function TotalStars(repos: seq<Record>): int
    decreases |repos|
  {
    if repos == [] then 0 else TotalStars(repos[..|repos| - 1]) + StarsOf(repos[|repos| - 1])
  }

  /** `sumCommits`: the commit counts of all repositories, a missing count adding 0. */
  function SumCommits(repos: seq<Record>): int
    decreases |repos|
  {
    if repos == [] then 0 else SumCommits(repos[..|repos| - 1]) + NumOr0(Get(repos[|repos| - 1], "commits_count"))
  }

  /** The commit total of two lists of repositories in a row is the sum of their totals. */
  lemma {:induction false} SumCommitsAppend(xs: seq<Record>, ys: seq<Record>)
    ensures SumCommits(xs + ys) == SumCommits(xs) + SumCommits(ys)
    decreases |ys|
  {
    if ys != [] {
      var zs := xs + ys;
      assert zs[..|zs| - 1] == xs + ys[..|ys| - 1];
      assert zs[|zs| - 1] == ys[|ys| - 1];
      SumCommitsAppend(xs, ys[..|ys| - 1]);
    } else {
      assert xs + ys == xs;
    }
  }

  /** No negative count, no negative total. */
  lemma {:induction false} SumCommitsNonNegative(repos: seq<Record>)
    requires forall i :: 0 <= i < |repos| ==> NumOr0(Get(repos[i], "commits_count")) >= 0
    ensures SumCommits(repos) >= 0
    decreases |repos|
  {
    if repos != [] {
      SumCommitsNonNegative(repos[..|repos| - 1]);
    }
  }

  /** `(data.public_repos as number) || repos.length`. */
  function PublicRepos(data: Record, repoCount: nat): int {
    var n := NumOr0(Get(data, "public_repos"));
    if n != 0 then n else repoCount
  }

  /** Some repository's `stargazers_count` compares at least 100 (`>=` coerces its operand to a number). */
  predicate HasPopularRepo(repos: seq<Record>) {
    exists i :: 0 <= i < |repos| && ToNumber(Get(repos[i], "stargazers_count")).Num? && ToNumber(Get(repos[i], "stargazers_count")).n >= 100
  }

  const PopularRepoAchievement := "Maintains popular open source project"

  /**
   * `extractGitHubAchievements`: a line for 1000 stars or more in total, for
   * 100 followers or more, for 50 public repositories or more, and for a
   * repository of 100 stars or more, in that order.
   */
  function GitHubAchievements(data: Record, repos: seq<Record>): (r: seq<string>)
    ensures |r| <= 4
    ensures (PopularRepoAchievement in r) <==> HasPopularRepo(repos)
    ensures TotalStars(repos) >= 1000 ==> |r| > 0 && r[0] == IntToString(TotalStars(repos)) + " total GitHub stars"
  {
    var totalStars := TotalStars(repos);
    var followers := NumOr0(Get(data, "followers"));
    var publicRepos := PublicRepos(data, |repos|);
    var a1 := if totalStars >= 1000 then [IntToString(totalStars) + " total GitHub stars"] else [];
    var a2 := if followers >= 100 then [IntToString(followers) + " GitHub followers"] else [];
    var a3 := if publicRepos >= 50 then [IntToString(publicRepos) + " public repositories"] else [];
    var a4 := if HasPopularRepo(repos) then [PopularRepoAchievement] else [];
    assert PopularRepoAchievement !in a1 + a2 + a3 by {
      LineEndsWithNumberText(a1, " total GitHub stars");
      LineEndsWithNumberText(a2, " GitHub followers");
      LineEndsWithNumberText(a3, " public repositories");
    }
    a1 + a2 + a3 + a4
  }

  /** An achievement line made from a number never reads as the popular-project line. */
  lemma LineEndsWithNumberText(lines: seq<string>, suffix: string)
    requires |lines| <= 1
    requires forall k :: 0 <= k < |lines| ==> exists n :: lines[k] == IntToString(n) + suffix
    ensures PopularRepoAchievement !in lines
  {
    if |lines| == 1 {
      var n :| lines[0] == IntToString(n) + suffix;
      NumberTextStartsWithDigit(n);
      assert lines[0][0] == IntToString(n)[0];
      assert PopularRepoAchievement[0] == 'M';
    }
  }

  lemma NumberTextStartsWithDigit(n: int)
    ensures |IntToString(n)| >= 1
    ensures IsDigit(IntToString(n)[0]) || IntToString(n)[0] == '-'
  {
  }

  // ---------------------------------------------------------------------------
  // The GitHub normaliser

  /** An array of objects, a non-object element read as `{}`. */
  function RecordsOf(v: Value): (r: seq<Record>)
    ensures |r| == |ItemsOf(v)|
  {
    var items := ItemsOf(v);
    seq(|items|, i requires 0 <= i < |items| => FieldsOf(items[i]))
  }

  /** `s.replace(/^@/, '')`: one leading `@` removed. */
  function StripLeadingAt(s: string): (r: string)
    ensures |s| > 0 && s[0] == '@' ==> r == s[1..]
    ensures (|s| == 0 || s[0] != '@') ==> r == s
  {
    if |s| > 0 && s[0] == '@' then s[1..] else s
  }

  /** A repository as a profile project. */
  function ProjectOf(repo: Record): (p: Project)
    ensures p.stars == Some(StarsOf(repo))
  {
    var language := TextOf(Get(repo, "language"));
    Project(
      TextOr(Get(repo, "name"), ""),
      TextOr(Get(repo, "description"), ""),
      Some(if language != "" then [language] else []),
      if TextOf(Get(repo, "html_url")) != "" then Some(TextOf(Get(repo, "html_url"))) else OptText(Get(repo, "url")),
      Some(StarsOf(repo)),
      Some(NumOr0(Get(repo, "forks_count"))))
  }

  /** The repositories by stars, most first, ties in their original order. */
  function TopRepos(repos: seq<Record>): (r: seq<Record>)
    ensures |r| <= 10 && |r| <= |repos|
  {
    Take(SortDesc(repos, StarsOf), 10)
  }

  /**
   * `normalizeGitHubData`. The name falls back to the login and then to
   * "Unknown", the title to "Developer"; there is at most one company, the
   * `company` text without a leading `@`.
   */
  function NormalizeGitHub(data: Record, currentYear: int, yearOf: string -> int): (p: ProfileData)
    ensures p.sourceType == GitHub
    ensures p.name != "" && p.title != ""
    ensures |p.projects| <= 10 && |p.skills| <= 20 && NoDuplicates(p.skills)
    ensures |p.companies| <= 1
    ensures |p.companies| == 1 <==> TextOf(Get(data, "company")) != ""
    ensures |p.companies| == 1 ==> p.companies[0].name == StripLeadingAt(TextOf(Get(data, "company")))
    ensures p.leadershipRoles == [] && p.certifications == [] && p.education == []
  {
    var repos := RecordsOf(Get(data, "repositories"));
    var company := TextOf(Get(data, "company"));
    ProfileData(
      TextOr(Get(data, "name"), TextOr(Get(data, "login"), "Unknown")),
      TextOr(Get(data, "bio"), "Developer"),
      OptText(Get(data, "avatar_url")),
      Some(TextOr(Get(data, "location"), "")),
      SkillsFromRepos(ItemsOf(Get(data, "repositories"))),
      EstimateGitHubExperience(data, currentYear, yearOf),
      [],
      GitHubProjects(repos),
      GitHubAchievements(data, repos),
      ActivityMetrics(
        Some(SumCommits(repos)),
        Some(NumOr0(Get(data, "contributions"))),
        Some(NumOr0(Get(data, "followers"))),
        Some(NumOr0(Get(data, "following"))),
        Some(PublicRepos(data, |repos|)),
        None, None, None, None),
      [],
      if company != "" then [Company(StripLeadingAt(company), "Developer", None, true)] else [],
      [],
      OptText(Get(data, "bio")),
      TextOr(Get(data, "html_url"), ""),
      GitHub)
  }

  /** The projects: the most-starred repositories, at most ten. */
  function GitHubProjects(repos: seq<Record>): (p: seq<Project>)
    ensures |p| <= 10
  {
    var top := TopRepos(repos);
    seq(|top|, i requires 0 <= i < |top| => ProjectOf(top[i]))
  }

  /**
   * The projects are the most-starred repositories, at most ten, in
   * descending order of stars: each has at least the stars of every
   * repository left out.
   */
  lemma GitHubProjectsByStars(repos: seq<Record>)
    ensures var sorted := SortDesc(repos, StarsOf);
      var p := GitHubProjects(repos);
      multiset(sorted) == multiset(repos)
      && |p| == (if |repos| < 10 then |repos| else 10)
      && (forall i :: 0 <= i < |p| ==> p[i] == ProjectOf(sorted[i]))
      && (forall i, j :: 0 <= i < j < |p| ==> p[i].stars.value >= p[j].stars.value)
      && (forall i, k :: 0 <= i < |p| <= k < |sorted| ==> p[i].stars.value >= StarsOf(sorted[k]))
  {
    var sorted := SortDesc(repos, StarsOf);
    SortDescSorted(repos, StarsOf);
    var top := TopRepos(repos);
    assert top == sorted[..|top|];
  }

  // ---------------------------------------------------------------------------
  // Wikipedia helpers

  /** `String(v)` for a value an infobox can hold; `null` and `undefined` inside an array print as nothing. */
  function ValueText(v: Value): string
    decreases v
  {
    match v
    case Null => ""
    case Bool(b) => if b then "true" else "false"
    case Num(n) => IntToString(n)
    case NaN => "NaN"
    case Str(t) => t
    case Arr(items) => Join(seq(|items|, i requires 0 <= i < |items| => ValueText(items[i])), ",")
    case Obj(_) => "[object Object]"
  }

  /** `s.replace(/ /g, '_')`. */
  function SpacesToUnderscores(s: string): (r: string)
    ensures |r| == |s|
    ensures forall i :: 0 <= i < |s| ==> r[i] == if s[i] == ' ' then '_' else s[i]
  {
    seq(|s|, i requires 0 <= i < |s| => if s[i] == ' ' then '_' else s[i])
  }

  /** The spellings of an infobox key the normaliser tries, in order. */
  function KeyVariations(key: string): seq<string> {
    [key, ToLower(key), SpacesToUnderscores(key), ToLower(SpacesToUnderscores(key))]
  }

  /** The text of the first of `keys` whose value in `box` is truthy, or `""`. */
  function FirstTruthy(box: Record, keys: seq<string>): (r: string)
    ensures (forall k :: 0 <= k < |keys| ==> !Truthy(Get(box, keys[k]))) ==> r == ""
    ensures r != "" ==> exists k :: 0 <= k < |keys| && Truthy(Get(box, keys[k])) && r == ValueText(Get(box, keys[k]))
    decreases |keys|
  {
    if keys == [] then ""
    else if Truthy(Get(box, keys[0])) then ValueText(Get(box, keys[0]))
    else
      var r := FirstTruthy(box, keys[1..]);
      assert forall k :: 0 <= k < |keys[1..]| ==> keys[1..][k] == keys[k + 1];
      r
  }

  /** `ib(key)`: the infobox value under the key or a variation of it, as text. */
  function Ib(box: Record, key: string): string {
    FirstTruthy(box, KeyVariations(key))
  }

  /** `a || b || ...` over strings: the first non-empty one, or `""`. */
  function FirstText(xs: seq<string>): (r: string)
    ensures r == "" <==> forall k :: 0 <= k < |xs| ==> xs[k] == ""
    ensures r != "" ==> exists k :: 0 <= k < |xs| && xs[k] == r && forall j :: 0 <= j < k ==> xs[j] == ""
    decreases |xs|
  {
    if xs == [] then ""
    else if xs[0] != "" then xs[0]
    else
      var r := FirstText(xs[1..]);
      assert forall k :: 0 <= k < |xs[1..]| ==> xs[1..][k] == xs[k + 1];
      r
  }

  /** `s.split(/[...]/).map(x => x.trim()).filter(Boolean)`. */
  function Pieces(s: string, seps: set<char>): (r: seq<string>)
    ensures forall k :: 0 <= k < |r| ==> r[k] != ""
  {
    NonEmpty(TrimAll(Split(s, seps)))
  }

  /** The strings whose length lies strictly between `lo` and `hi`, in order. */
  function LengthBetween(xs: seq<string>, lo: int, hi: int): (r: seq<string>)
    ensures |r| <= |xs|
    ensures forall k :: 0 <= k < |r| ==> lo < |r[k]| < hi && r[k] in xs
    ensures forall x :: x in xs && lo < |x| < hi ==> x in r
    decreases |xs|
  {
    if xs == [] then []
    else
      var rest := LengthBetween(xs[1..], lo, hi);
      assert forall x :: x in xs ==> x == xs[0] || x in xs[1..];
      if lo < |xs[0]| < hi then [xs[0]] + rest else rest
  }

  const SkillSeparators: set<char> := {',', ';', '&', '\n'}
  const AwardSeparators: set<char> := {',', ';', '\n'}

  /** The nationalities looked for in a description, in the order they are tried. */
  const Nationalities: seq<string> := [
    "American", "British", "Canadian", "Indian", "Chinese", "French",
    "German", "Japanese", "South African", "Australian", "Israeli", "Korean", "Brazilian",
    "Russian", "Italian", "Spanish", "Dutch", "Swedish", "Norwegian", "Swiss", "Irish",
    "Scottish", "New Zealand", "Taiwanese", "Singaporean", "Malaysian", "Indonesian"]

  /** The first of `names` that `text` contains, or `""`. */
  function FirstContained(text: string, names: seq<string>): (r: string)
    ensures r != "" ==> exists k :: 0 <= k < |names| && names[k] == r && Contains(text, r) && (forall j :: 0 <= j < k ==> !Contains(text, names[j]))
    ensures (forall k :: 0 <= k < |names| ==> !Contains(text, names[k])) ==> r == ""
    ensures (forall k :: 0 <= k < |names| ==> names[k] != "") && r == "" ==> forall k :: 0 <= k < |names| ==> !Contains(text, names[k])
    decreases |names|
  {
    if names == [] then ""
    else if Contains(text, names[0]) then names[0]
    else
      var r := FirstContained(text, names[1..]);
      assert forall k :: 0 <= k < |names[1..]| ==> names[1..][k] == names[k + 1];
      r
  }

  /**
   * `extractNationalityFromDescription`: the first listed nationality the
   * description contains, matching case; `""` when it contains none.
   */
  function ExtractNationalityFromDescription(description: string): (r: string)
    ensures r != "" ==> exists k :: 0 <= k < |Nationalities| && Nationalities[k] == r && Contains(description, r)
                                   && forall j :: 0 <= j < k ==> !Contains(description, Nationalities[j])
    ensures r == "" <==> forall k :: 0 <= k < |Nationalities| ==> !Contains(description, Nationalities[k])
  {
    assert forall k :: 0 <= k < |Nationalities| ==> Nationalities[k] != "";
    if description == "" then "" else FirstContained(description, Nationalities)
  }

  /** Four decimal digits start at `j`. */
  predicate FourDigitsAt(s: string, j: int) {
    0 <= j <= |s| && DigitRun(s[j..]) >= 4
  }

  /** The number the four digits at `j` spell. */
  function YearAt(s: string, j: nat): nat
    requires FourDigitsAt(s, j)
  {
    var t := s[j..j + 4];
    assert forall k :: 0 <= k < 4 ==> t[k] == s[j..][k];
    DigitsValue(t)
  }

  /** Where the first four consecutive digits (`/(\d{4})/`) at or after `i` start. */
  function FirstFourDigits(s: string, i: nat): (r: Option<nat>)
    ensures r.Some? ==> i <= r.value && FourDigitsAt(s, r.value) && forall j :: i <= j < r.value ==> !FourDigitsAt(s, j)
    ensures r.None? ==> forall j :: i <= j ==> !FourDigitsAt(s, j)
    decreases |s| - i
  {
    if i > |s| then None
    else if FourDigitsAt(s, i) then Some(i)
    else FirstFourDigits(s, i + 1)
  }

  /** The year the birth text names: the value of its first four consecutive digits. */
  function BirthYear(born: string): Option<nat> {
    match FirstFourDigits(born, 0)
    case Some(j) => Some(YearAt(born, j))
    case None => None
  }

  /**
   * `estimateWikipediaExperience`: with a four-digit year in the birth text,
   * the years since the person turned 22, at least 1; otherwise 25 for a
   * veteran or pioneer, 15 for a senior or experienced person, else 10.
   */
  function EstimateWikipediaExperience(born: string, intro: string, currentYear: int): (years: int)
    ensures years >= 1
    ensures BirthYear(born).None? ==> years in {25, 15, 10}
    ensures BirthYear(born).Some? ==>
      var sinceStart := currentYear - (BirthYear(born).value + 22);
      years >= sinceStart && (years == 1 || years == sinceStart)
    ensures BirthYear(born).None? ==>
      (years == 25 <==> Contains(ToLower(intro), "veteran") || Contains(ToLower(intro), "pioneer"))
    ensures BirthYear(born).None? ==>
      (years == 15 <==> !Contains(ToLower(intro), "veteran") && !Contains(ToLower(intro), "pioneer")
                        && (Contains(ToLower(intro), "senior") || Contains(ToLower(intro), "experienced")))
  {
    match BirthYear(born)
    case Some(birthYear) =>
      var careerStart := birthYear + 22;
      if currentYear - careerStart > 1 then currentYear - careerStart else 1
    case None =>
      var lower := ToLower(intro);
      if Contains(lower, "veteran") || Contains(lower, "pioneer") then 25
      else if Contains(lower, "senior") || Contains(lower, "experienced") then 15
      else 10
  }

  const WikipediaLeadershipWords: seq<string> :=
    ["founder", "ceo", "president", "chairman", "director", "chief", "inventor", "creator", "pioneer"]

  /** The capitalised words of `words` that `text` contains, in the order of `words`. */
  function KeywordRoles(text: string, words: seq<string>): (r: seq<string>)
    ensures |r| <= |words|
    ensures forall x :: x in r ==> exists k :: 0 <= k < |words| && x == Capitalize(words[k]) && Contains(text, words[k])
    ensures forall k :: 0 <= k < |words| && Contains(text, words[k]) ==> Capitalize(words[k]) in r
    decreases |words|
  {
    if words == [] then []
    else
      var rest := KeywordRoles(text, words[1..]);
      assert forall k :: 1 <= k < |words| ==> words[k] == words[1..][k - 1];
      assert forall k :: 0 <= k < |words[1..]| ==> words[1..][k] == words[k + 1];
      if Contains(text, words[0]) then [Capitalize(words[0])] + rest else rest
  }

  /** `extractWikipediaLeadership`: the leadership words found in the lower-cased intro and occupation. */
  function ExtractWikipediaLeadership(intro: string, occupation: string): (r: seq<string>)
    ensures |r| <= 9
    ensures forall x :: x in r ==>
      exists k :: 0 <= k < |WikipediaLeadershipWords| && x == Capitalize(WikipediaLeadershipWords[k])
                  && Contains(ToLower(intro + " " + occupation), WikipediaLeadershipWords[k])
    ensures forall k :: 0 <= k < |WikipediaLeadershipWords|
                        && Contains(ToLower(intro + " " + occupation), WikipediaLeadershipWords[k])
                        ==> Capitalize(WikipediaLeadershipWords[k]) in r
  {
    KeywordRoles(ToLower(intro + " " + occupation), WikipediaLeadershipWords)
  }

  /** `name.replace(/ - Wikipedia$/, '')`. */
  function StripWikipediaSuffix(name: string): (r: string)
    ensures EndsWith(name, " - Wikipedia") ==> r + " - Wikipedia" == name
    ensures !EndsWith(name, " - Wikipedia") ==> r == name
  {
    if EndsWith(name, " - Wikipedia") then name[..|name| - 12] else name
  }

  // ---------------------------------------------------------------------------
  // Companies

  /** The companies named by the pieces of a list, each trimmed; empty pieces name none. */
  function PieceCompanies(parts: seq<string>, role: string): (r: seq<Company>)
    ensures forall i :: 0 <= i < |r| ==> r[i].name != "" && r[i].role == role && r[i].current && r[i].duration.None?
    decreases |parts|
  {
    if parts == [] then []
    else
      var t := Trim(parts[|parts| - 1]);
      PieceCompanies(parts[..|parts| - 1], role) + (if t != "" then [Company(t, role, None, true)] else [])
  }

  lemma PieceCompaniesSnoc(companies0: seq<Company>, parts: seq<string>, i: nat, role: string)
    requires i < |parts|
    ensures var t := Trim(parts[i]); var before := companies0 + PieceCompanies(parts[..i], role);
      companies0 + PieceCompanies(parts[..i + 1], role) == before + (if t != "" then [Company(t, role, None, true)] else [])
  {
    assert parts[..i + 1][..i] == parts[..i];
    var t := Trim(parts[i]);
    var added: seq<Company> := if t != "" then [Company(t, role, None, true)] else [];
    assert PieceCompanies(parts[..i + 1], role) == PieceCompanies(parts[..i], role) + added;
    assert companies0 + (PieceCompanies(parts[..i], role) + added) == companies0 + PieceCompanies(parts[..i], role) + added;
  }

  /** `for (const e of parts) { const trimmed = e.trim(); if (trimmed) companies.push(...) }`. */
  method PushPieceCompanies(companies0: seq<Company>, parts: seq<string>, role: string) returns (companies: seq<Company>)
    ensures companies == companies0 + PieceCompanies(parts, role)
  {
    companies := companies0;
    for i := 0 to |parts|
      invariant companies == companies0 + PieceCompanies(parts[..i], role)
    {
      var trimmed := Trim(parts[i]);
      PieceCompaniesSnoc(companies0, parts, i, role);
      if trimmed != "" {
        companies := companies + [Company(trimmed, role, None, true)];
      }
    }
    assert parts[..|parts|] == parts;
  }

  /** The patterns `extractCompaniesFromIntro` tries, in order: the lower-cased openers before " of " and the role they give. */
  datatype CompanyPattern = CompanyPattern(openers: seq<string>, role: string)

  const CompanyPatterns: seq<CompanyPattern> := [
    CompanyPattern(["ceo", "chief executive officer"], "CEO"),
    CompanyPattern(["co-founder", "cofounder", "founder"], "Founder"),
    CompanyPattern(["chairman", "chair"], "Chairman"),
    CompanyPattern(["president"], "President"),
    CompanyPattern(["cto", "chief technology officer"], "CTO")]

  /** Length of the run of `\w` and `\s` characters at the start of `s`. */
  function NameRun(s: string): (n: nat)
    ensures n <= |s|
  {
    if s != [] && (IsWordChar(s[0]) || IsSpace(s[0])) then 1 + NameRun(s[1..]) else 0
  }

  /**
   * `(?:o1|o2|...) of (\w[\w\s]*)` (ignoring case) tried at `p`, the
   * openers in order: where the name it captures starts.
   */
  function OpenerMatch(s: string, p: nat, openers: seq<string>): (r: Option<nat>)
    ensures r.Some? ==> p < r.value < |s|
    decreases |openers|
  {
    if openers == [] then None
    else
      var w := openers[0] + " of ";
      if WordAtIgnoringCase(s, w, p) && p + |w| < |s| && IsWordChar(s[p + |w|]) then Some(p + |w|)
      else OpenerMatch(s, p, openers[1..])
  }

  /** A match's captured name: `s[start..end]`. */
  datatype NameMatch = NameMatch(start: nat, end: nat)

  /** The next match of a pattern at or after `from` (`pattern.exec` with `lastIndex = from`). */
  function NextNameMatch(s: string, openers: seq<string>, from: nat): (r: Option<NameMatch>)
    ensures r.Some? ==> from < r.value.start < r.value.end <= |s|
    decreases |s| - from
  {
    if from >= |s| then None
    else match OpenerMatch(s, from, openers)
      case Some(q) => Some(NameMatch(q, q + 1 + NameRun(s[q + 1..])))
      case None => NextNameMatch(s, openers, from + 1)
  }

  /** `name.trim().replace(/[.,;]$/, '').trim()`. */
  function CleanCompanyName(name: string): string {
    var t := Trim(name);
    Trim(if |t| > 0 && t[|t| - 1] in {'.', ',', ';'} then t[..|t| - 1] else t)
  }

  /** A name the intro offers, with the role of the pattern that found it. */
  datatype Candidate = Candidate(name: string, role: string)

  /** The names one pattern finds from `from` on, match after match. */
  function PatternCandidates(s: string, pattern: CompanyPattern, from: nat): (r: seq<Candidate>)
    ensures forall i :: 0 <= i < |r| ==> r[i].role == pattern.role
    decreases |s| - from
  {
    match NextNameMatch(s, pattern.openers, from)
    case None => []
    case Some(m) => [Candidate(CleanCompanyName(s[m.start..m.end]), pattern.role)] + PatternCandidates(s, pattern, m.end)
  }

  /** The names all the patterns find, pattern after pattern. */
  function IntroCandidates(s: string, patterns: seq<CompanyPattern>): seq<Candidate>
    decreases |patterns|
  {
    if patterns == [] then [] else PatternCandidates(s, patterns[0], 0) + IntroCandidates(s, patterns[1..])
  }

  /** The list being extended and the lower-cased names already in it. */
  datatype NameState = NameState(companies: seq<Company>, existing: set<string>)

  /** A candidate is added when it is non-empty, shorter than 50 and not yet named (ignoring case). */
  function Admit(st: NameState, c: Candidate): NameState {
    if c.name != "" && |c.name| < 50 && ToLower(c.name) !in st.existing then
      NameState(st.companies + [Company(c.name, c.role, None, true)], st.existing + {ToLower(c.name)})
    else st
  }

  function AdmitAll(st: NameState, cs: seq<Candidate>): NameState
    decreases |cs|
  {
    if cs == [] then st else AdmitAll(Admit(st, cs[0]), cs[1..])
  }

  /** `new Set(companies.map(c => c.name.toLowerCase()))`. */
  function LowerNames(companies: seq<Company>): set<string> {
    set i | 0 <= i < |companies| :: ToLower(companies[i].name)
  }

  /** The companies after `extractCompaniesFromIntro` has added those the intro names. */
  function IntroCompanies(intro: string, companies: seq<Company>): seq<Company> {
    AdmitAll(NameState(companies, LowerNames(companies)), IntroCandidates(intro, CompanyPatterns)).companies
  }

  lemma AdmitAllCons(st: NameState, c: Candidate, rest: seq<Candidate>, later: seq<Candidate>)
    ensures AdmitAll(st, [c] + rest + later) == AdmitAll(Admit(st, c), rest + later)
  {
    var cs := [c] + rest + later;
    assert cs[0] == c && cs[1..] == rest + later;
  }

  lemma IntroCandidatesFrom(s: string, k: nat)
    requires k < |CompanyPatterns|
    ensures IntroCandidates(s, CompanyPatterns[k..]) == PatternCandidates(s, CompanyPatterns[k], 0) + IntroCandidates(s, CompanyPatterns[k + 1..])
  {
    assert CompanyPatterns[k..][1..] == CompanyPatterns[k + 1..];
  }

  /**
   * `extractCompaniesFromIntro`, which extends the caller's list in place:
   * each pattern's matches in turn, a name added unless it is empty, 50
   * characters or longer, or already present ignoring case.
   */
  method ExtractCompaniesFromIntro(intro: string, companies0: seq<Company>) returns (companies: seq<Company>)
    ensures companies == IntroCompanies(intro, companies0)
  {
    companies := companies0;
    var existingNames := LowerNames(companies0);
    ghost var goal := IntroCompanies(intro, companies0);
    for k := 0 to |CompanyPatterns|
      invariant AdmitAll(NameState(companies, existingNames), IntroCandidates(intro, CompanyPatterns[k..])).companies == goal
    {
      var pattern := CompanyPatterns[k];
      IntroCandidatesFrom(intro, k);
      ghost var later := IntroCandidates(intro, CompanyPatterns[k + 1..]);
      var pos := 0;
      var m := NextNameMatch(intro, pattern.openers, pos);
      while m.Some?
        invariant pos <= |intro| && m == NextNameMatch(intro, pattern.openers, pos)
        invariant AdmitAll(NameState(companies, existingNames), PatternCandidates(intro, pattern, pos) + later).companies == goal
        decreases |intro| - pos
      {
        var companyName := CleanCompanyName(intro[m.value.start..m.value.end]);
        AdmitAllCons(NameState(companies, existingNames), Candidate(companyName, pattern.role), PatternCandidates(intro, pattern, m.value.end), later);
        if companyName != "" && |companyName| < 50 && ToLower(companyName) !in existingNames {
          companies := companies + [Company(companyName, pattern.role, None, true)];
          existingNames := existingNames + {ToLower(companyName)};
        }
        pos := m.value.end;
        m := NextNameMatch(intro, pattern.openers, pos);
      }
      assert PatternCandidates(intro, pattern, pos) + later == later;
    }
  }

  /** What admitting candidates keeps: the original list in front, and after it only fresh, short, pairwise distinct names. */
  ghost predicate AddsOnlyFresh(base: seq<Company>, st: NameState) {
    |st.companies| >= |base| && st.companies[..|base|] == base
    && LowerNames(base) <= st.existing
    && (forall i :: |base| <= i < |st.companies| ==> ToLower(st.companies[i].name) in st.existing)
    && (forall i :: |base| <= i < |st.companies| ==>
          st.companies[i].name != "" && |st.companies[i].name| < 50 && st.companies[i].current
          && ToLower(st.companies[i].name) !in LowerNames(base))
    && (forall i, j :: |base| <= i < j < |st.companies| ==> ToLower(st.companies[i].name) != ToLower(st.companies[j].name))
  }

  lemma AdmitKeeps(base: seq<Company>, st: NameState, c: Candidate)
    requires AddsOnlyFresh(base, st)
    ensures AddsOnlyFresh(base, Admit(st, c))
  {
    var st' := Admit(st, c);
    if st' != st {
      assert st'.companies[..|base|] == st.companies[..|base|];
    }
  }

  lemma {:induction false} AdmitAllKeeps(base: seq<Company>, st: NameState, cs: seq<Candidate>)
    requires AddsOnlyFresh(base, st)
    ensures AddsOnlyFresh(base, AdmitAll(st, cs))
    decreases |cs|
  {
    if cs != [] {
      AdmitKeeps(base, st, cs[0]);
      AdmitAllKeeps(base, Admit(st, cs[0]), cs[1..]);
    }
  }

  /**
   * The intro only adds companies after the given ones: never a name
   * already present ignoring case, never an empty one or one of 50
   * characters or more, and never the same name twice.
   */
  lemma IntroCompaniesAreFresh(intro: string, companies: seq<Company>)
    ensures var r := IntroCompanies(intro, companies);
      |r| >= |companies| && r[..|companies|] == companies
      && (forall i :: |companies| <= i < |r| ==>
            r[i].name != "" && |r[i].name| < 50 && r[i].current && ToLower(r[i].name) !in LowerNames(companies))
      && (forall i, j :: |companies| <= i < j < |r| ==> ToLower(r[i].name) != ToLower(r[j].name))
  {
    assert companies[..|companies|] == companies;
    AdmitAllKeeps(companies, NameState(companies, LowerNames(companies)), IntroCandidates(intro, CompanyPatterns));
  }

  // ---------------------------------------------------------------------------
  // The Wikipedia normaliser

  /** The companies the employer field names or, without one, the title field. */
  function ListedCompanies(employer: string, titleField: string, role: string): seq<Company> {
    if employer != "" then PieceCompanies(Split(employer, SkillSeparators), role)
    else if titleField != "" then PieceCompanies(Split(titleField, AwardSeparators), role)
    else []
  }

  /** The Wikipedia companies: the listed ones, then those the intro names. */
  method WikipediaCompanies(employer: string, titleField: string, role: string, intro: string) returns (companies: seq<Company>)
    ensures companies == IntroCompanies(intro, ListedCompanies(employer, titleField, role))
  {
    companies := [];
    if employer != "" {
      companies := PushPieceCompanies(companies, Split(employer, SkillSeparators), role);
    }
    if titleField != "" && employer == "" {
      companies := PushPieceCompanies(companies, Split(titleField, AwardSeparators), role);
    }
    assert companies == ListedCompanies(employer, titleField, role);
    companies := ExtractCompaniesFromIntro(intro, companies);
  }

  /** The strings longer than `lo`, in order. */
  function LongerThan(xs: seq<string>, lo: int): (r: seq<string>)
    ensures |r| <= |xs|
    ensures forall k :: 0 <= k < |r| ==> lo < |r[k]| && r[k] in xs
    ensures forall x :: x in xs && lo < |x| ==> x in r
    decreases |xs|
  {
    if xs == [] then []
    else
      var rest := LongerThan(xs[1..], lo);
      assert forall x :: x in xs[1..] ==> x in xs;
      if lo < |xs[0]| then [xs[0]] + rest else rest
  }

  /** The skills: occupation pieces then known-for pieces, longer than 1 and shorter than 80, at most 20. */
  function WikipediaSkills(occupation: string, knownFor: string): (r: seq<string>)
    ensures |r| <= 20
    ensures forall k :: 0 <= k < |r| ==> 1 < |r[k]| < 80
  {
    var all := LengthBetween(Pieces(occupation, SkillSeparators) + Pieces(knownFor, SkillSeparators), 1, 80);
    TakeKeepsLengths(all, 20, 1, 80);
    Take(all, 20)
  }

  /** A prefix of strings with lengths in a range keeps them in that range. */
  lemma TakeKeepsLengths(xs: seq<string>, n: nat, lo: int, hi: int)
    requires forall k :: 0 <= k < |xs| ==> lo < |xs[k]| < hi
    ensures forall k :: 0 <= k < |Take(xs, n)| ==> lo < |Take(xs, n)[k]| < hi
  {
    var r := Take(xs, n);
    assert forall k :: 0 <= k < |r| ==> r[k] == xs[k];
  }

  /** The award pieces longer than 2, at most 10. */
  function WikipediaAchievements(awards: string): (r: seq<string>)
    ensures |r| <= 10
    ensures forall k :: 0 <= k < |r| ==> |r[k]| > 2
  {
    var list := if awards != "" then LongerThan(TrimAll(Split(awards, AwardSeparators)), 2) else [];
    Take(list, 10)
  }

  /** The education pieces of more than one character, as institutions. */
  function WikipediaEducation(education: string): (r: seq<Education>)
    ensures forall k :: 0 <= k < |r| ==> |r[k].institution| > 1
  {
    var names := if education != "" then LongerThan(TrimAll(Split(education, SkillSeparators)), 1) else [];
    seq(|names|, i requires 0 <= i < |names| => Education(names[i], None, None, None))
  }

  /** The display title: the first occupation piece, else the description capitalised, else "Notable Figure". */
  function DisplayTitle(occupation: string, description: string): (r: string)
    ensures r != ""
  {
    var fromOccupation := Pieces(occupation, {',', '\n'});
    var choices := [if |fromOccupation| > 0 then fromOccupation[0] else "", if description != "" then Capitalize(description) else "", "Notable Figure"];
    assert choices[2] != "";
    FirstText(choices)
  }

  /** The fields `normalizeWikipediaData` reads, each falling back along its list of infobox keys. */
  datatype WikiFields = WikiFields(
    name: string, intro: string, description: string, box: Record,
    born: string, occupation: string, nationality: string, education: string,
    awards: string, employer: string, knownFor: string, titleField: string)

  function WikiFieldsOf(data: Record): WikiFields {
    var box := FieldsOf(Get(data, "infobox"));
    WikiFields(
      TextOr(Get(data, "title"), TextOr(Get(data, "name"), "Unknown")),
      TextOr(Get(data, "intro"), TextOr(Get(data, "first_paragraph"), "")),
      TextOr(Get(data, "description"), ""),
      box,
      FirstText([Ib(box, "Born"), Ib(box, "birth_date"), TextOf(Get(data, "born"))]),
      FirstText([Ib(box, "Occupation"), Ib(box, "occupation"), Ib(box, "Title"), Ib(box, "title"), TextOf(Get(data, "occupation"))]),
      FirstText([Ib(box, "Nationality"), Ib(box, "Citizenship"), Ib(box, "citizenship"), TextOf(Get(data, "nationality"))]),
      FirstText([Ib(box, "Education"), Ib(box, "Alma mater"), Ib(box, "alma_mater")]),
      FirstText([Ib(box, "Awards"), Ib(box, "honors"), TextOf(Get(data, "awards"))]),
      FirstText([Ib(box, "Employer"), Ib(box, "Organization"), Ib(box, "organization")]),
      FirstText([Ib(box, "Known for"), Ib(box, "known_for")]),
      Ib(box, "Title"))
  }

  /** The avatar: the image, else the thumbnail, else the infobox image as it stands. */
  function WikipediaAvatar(data: Record, box: Record): Option<string> {
    if TextOf(Get(data, "image")) != "" then Some(TextOf(Get(data, "image")))
    else if TextOf(Get(data, "thumbnail")) != "" then Some(TextOf(Get(data, "thumbnail")))
    else OptText(Get(box, "image"))
  }

  /** The summary: the first 500 characters of the intro. */
  function IntroSummary(intro: string): (r: string)
    ensures |r| <= 500 && |r| <= |intro| && r == intro[..|r|]
    ensures |intro| <= 500 ==> r == intro
  {
    Take(intro, 500)
  }

  /**
   * The shape of every Wikipedia profile: a title, at most 20 skills each of 2
   * to 79 characters, at most 10 achievements of more than 2 characters,
   * institutions of more than one character, a summary of at most 500
   * characters and at least one year of experience.
   */
  predicate WikipediaShaped(p: ProfileData) {
    && p.sourceType == Wikipedia && p.title != ""
    && |p.skills| <= 20 && (forall k :: 0 <= k < |p.skills| ==> 1 < |p.skills[k]| < 80)
    && |p.achievements| <= 10 && (forall k :: 0 <= k < |p.achievements| ==> |p.achievements[k]| > 2)
    && (forall k :: 0 <= k < |p.education| ==> |p.education[k].institution| > 1)
    && p.summary.Some? && |p.summary.value| <= 500
    && p.yearsExperience >= 1
  }

  /** `normalizeWikipediaData`. */
  function NormalizeWikipedia(data: Record, currentYear: int): (p: ProfileData)
    ensures WikipediaShaped(p)
  {
    WikipediaProfile(data, WikiFieldsOf(data), currentYear)
  }

  /** The profile built from the fields read out of the article data. */
  function WikipediaProfile(data: Record, f: WikiFields, currentYear: int): (p: ProfileData)
    ensures p.sourceType == Wikipedia && p.title != ""
    ensures |p.skills| <= 20 && forall k :: 0 <= k < |p.skills| ==> 1 < |p.skills[k]| < 80
    ensures |p.achievements| <= 10 && forall k :: 0 <= k < |p.achievements| ==> |p.achievements[k]| > 2
    ensures forall k :: 0 <= k < |p.education| ==> |p.education[k].institution| > 1
    ensures p.summary.Some? && |p.summary.value| <= 500
    ensures p.yearsExperience >= 1
  {
    var displayTitle := DisplayTitle(f.occupation, f.description);
    ProfileData(
      StripWikipediaSuffix(f.name),
      displayTitle,
      WikipediaAvatar(data, f.box),
      Some(FirstText([f.nationality, ExtractNationalityFromDescription(f.description)])),
      WikipediaSkills(f.occupation, f.knownFor),
      EstimateWikipediaExperience(f.born, f.intro, currentYear),
      ExtractWikipediaLeadership(f.intro, f.occupation),
      [],
      WikipediaAchievements(f.awards),
      ActivityMetrics(None, None, Some(0), None, None, None, None, Some(0), None),
      [],
      IntroCompanies(f.intro, ListedCompanies(f.employer, f.titleField, displayTitle)),
      WikipediaEducation(f.education),
      Some(IntroSummary(f.intro)),
      TextOr(Get(data, "url"), ""),
      Wikipedia)
  }

  /** Every Wikipedia company is current and named; the listed ones come first, in order. */
  lemma WikipediaCompaniesCurrent(intro: string, employer: string, titleField: string, role: string)
    ensures var listed := ListedCompanies(employer, titleField, role);
      var r := IntroCompanies(intro, listed);
      |r| >= |listed| && r[..|listed|] == listed
      && forall i :: 0 <= i < |r| ==> r[i].current && r[i].name != ""
  {
    var listed := ListedCompanies(employer, titleField, role);
    var r := IntroCompanies(intro, listed);
    IntroCompaniesAreFresh(intro, listed);
    forall i | 0 <= i < |listed|
      ensures r[i] == listed[i]
    {
      assert r[..|listed|][i] == r[i];
    }
  }

  // ---------------------------------------------------------------------------
  // The LinkedIn normaliser

  /** The company an experience entry names. */
  function ExperienceCompany(experience: Value): Company {
    var e := FieldsOf(experience);
    Company(TextOr(Get(e, "company"), TextOr(Get(e, "company_name"), "")), TextOr(Get(e, "title"), ""),
            Some(TextOr(Get(e, "duration"), "")), Truthy(Get(e, "is_current")))
  }

  /** The LinkedIn companies: the current company when one is named, then one per experience entry. */
  function LinkedInCompanies(companyName: string, position: string, experiences: seq<Value>): (r: seq<Company>)
    ensures |r| == |experiences| + (if companyName != "" then 1 else 0)
    ensures companyName != "" ==> r[0] == Company(companyName, if position != "" then position else "Professional", Some(""), true)
    ensures var d := |r| - |experiences|; forall i :: 0 <= i < |experiences| ==> r[d + i] == ExperienceCompany(experiences[i])
  {
    var head, rest := CurrentCompany(companyName, position), ExperienceCompanies(experiences, |experiences|);
    assert forall i :: 0 <= i < |rest| ==> (head + rest)[|head| + i] == rest[i];
    head + rest
  }

  /** The entry for the current company, when one is named. */
  function CurrentCompany(companyName: string, position: string): seq<Company> {
    if companyName != "" then [Company(companyName, if position != "" then position else "Professional", Some(""), true)] else []
  }

  /** The companies of the first `n` experience entries. */
  function ExperienceCompanies(experiences: seq<Value>, n: nat): (r: seq<Company>)
    requires n <= |experiences|
    ensures |r| == n && forall i :: 0 <= i < n ==> r[i] == ExperienceCompany(experiences[i])
  {
    seq(n, i requires 0 <= i < n => ExperienceCompany(experiences[i]))
  }

  /** One more experience entry. */
  lemma ExperienceCompaniesStep(experiences: seq<Value>, n: nat)
    requires n < |experiences|
    ensures ExperienceCompanies(experiences, n + 1) == ExperienceCompanies(experiences, n) + [ExperienceCompany(experiences[n])]
  {
  }

  /** Builds the LinkedIn companies by pushing one entry at a time. */
  method BuildLinkedInCompanies(companyName: string, position: string, experiences: seq<Value>) returns (companies: seq<Company>)
    ensures companies == LinkedInCompanies(companyName, position, experiences)
  {
    companies := [];
    if companyName != "" {
      companies := companies + [Company(companyName, if position != "" then position else "Professional", Some(""), true)];
    }
    ghost var head := companies;
    assert head == CurrentCompany(companyName, position);
    for i := 0 to |experiences|
      invariant companies == head + ExperienceCompanies(experiences, i)
    {
      ExperienceCompaniesStep(experiences, i);
      companies := companies + [ExperienceCompany(experiences[i])];
    }
  }

  /** The non-empty `title` of each entry, in order. */
  function TitlesOf(items: seq<Value>): (r: seq<string>)
    ensures forall k :: 0 <= k < |r| ==> r[k] != ""
  {
    NonEmpty(seq(|items|, i requires 0 <= i < |items| => TextOr(Get(FieldsOf(items[i]), "title"), "")))
  }

  /** A certification as `title (issuer)`, or the title alone without an issuer. */
  function CertificationText(cert: Value): string {
    var title := TextOr(Get(FieldsOf(cert), "title"), "");
    var issuer := TextOr(Get(FieldsOf(cert), "subtitle"), "");
    if issuer != "" then title + " (" + issuer + ")" else title
  }

  /** The certification lines, the empty ones dropped. */
  function CertificationLines(certs: seq<Value>): (r: seq<string>)
    ensures forall k :: 0 <= k < |r| ==> r[k] != ""
  {
    NonEmpty(seq(|certs|, i requires 0 <= i < |certs| => CertificationText(certs[i])))
  }

  /** The LinkedIn education: one entry per listed school, else the details text, else none. */
  function LinkedInEducation(data: Record): seq<Education> {
    var raw := Get(data, "education");
    if raw.Arr? then
      seq(|raw.items|, i requires 0 <= i < |raw.items| =>
        var e := FieldsOf(raw.items[i]);
        Education(TextOr(Get(e, "school_name"), TextOr(Get(e, "school"), "")), OptText(Get(e, "degree")), OptText(Get(e, "field_of_study")), None))
    else if TextOf(Get(data, "educations_details")) != "" then [Education(TextOf(Get(data, "educations_details")), None, None, None)]
    else []
  }

  /** The name: `name`, else `full_name`, else the non-empty first and last names joined, else "Unknown". */
  function LinkedInName(data: Record): (r: string)
    ensures r != ""
  {
    var choices := [TextOf(Get(data, "name")), TextOf(Get(data, "full_name")),
                    Join(NonEmpty([TextOf(Get(data, "first_name")), TextOf(Get(data, "last_name"))]), " "), "Unknown"];
    assert choices[3] != "";
    FirstText(choices)
  }

  /** The years: from the experience durations when there are any, else 3 for any certificate, organisation or company, else 0. */
  function LinkedInYears(experiences: seq<Value>, certs: nat, orgs: nat, companies: nat): (years: nat)
    ensures |experiences| > 0 ==> years == (TotalMonths(experiences) + 6) / 12
    ensures |experiences| == 0 ==> (years == 3 <==> certs > 0 || orgs > 0 || companies > 0) && years in {0, 3}
  {
    if |experiences| > 0 then (TotalMonths(experiences) + 6) / 12
    else if certs > 0 || orgs > 0 || companies > 0 then 3
    else 0
  }

  /** The fields `normalizeLinkedInData` reads before assembling the profile. */
  datatype LinkedInFields = LinkedInFields(
    experiences: seq<Value>, certs: seq<Value>, orgs: seq<Value>, langs: seq<Value>,
    position: string, companyName: string)

  function LinkedInFieldsOf(data: Record): LinkedInFields {
    LinkedInFields(
      ItemsOf(Get(data, "experience")), ItemsOf(Get(data, "certifications")),
      ItemsOf(Get(data, "organizations")), ItemsOf(Get(data, "languages")),
      TextOr(Get(data, "position"), ""),
      TextOr(Get(data, "current_company_name"), TextOr(Get(FieldsOf(Get(data, "current_company")), "name"), "")))
  }

  /** The skills: certificate titles, then language titles, at most 20. */
  function LinkedInSkills(certs: seq<Value>, langs: seq<Value>): (r: seq<string>)
    ensures |r| <= 20 && forall k :: 0 <= k < |r| ==> r[k] != ""
    ensures var t := TitlesOf(certs); |r| <= |t| ==> r == t[..|r|]
    ensures var t := TitlesOf(certs); |t| <= 20 ==> |r| >= |t| && r[..|t|] == t
  {
    var all := TitlesOf(certs) + TitlesOf(langs);
    var r := Take(all, 20);
    assert forall k :: 0 <= k < |r| ==> r[k] == all[k];
    r
  }

  /** `normalizeLinkedInData`. */
  function NormalizeLinkedIn(data: Record): (p: ProfileData)
    ensures p.sourceType == LinkedIn && p.name != ""
    ensures |p.skills| <= 20 && forall k :: 0 <= k < |p.skills| ==> p.skills[k] != ""
    ensures p.achievements == TitlesOf(ItemsOf(Get(data, "certifications")))
    ensures p.leadershipRoles == ExtractLeadershipRoles(ItemsOf(Get(data, "experience")))
    ensures |p.companies| >= |ItemsOf(Get(data, "experience"))|
  {
    LinkedInProfile(data, LinkedInFieldsOf(data))
  }

  /** The profile assembled from the fields read out of the scraped data. */
  function LinkedInProfile(data: Record, f: LinkedInFields): (p: ProfileData)
    ensures p.sourceType == LinkedIn && p.name != ""
    ensures |p.skills| <= 20 && forall k :: 0 <= k < |p.skills| ==> p.skills[k] != ""
    ensures p.achievements == TitlesOf(f.certs)
    ensures p.leadershipRoles == ExtractLeadershipRoles(f.experiences)
    ensures |p.companies| >= |f.experiences|
  {
    var companies := LinkedInCompanies(f.companyName, f.position, f.experiences);
    ProfileData(
      LinkedInName(data),
      if f.position != "" then f.position else if f.companyName != "" then "Professional at " + f.companyName else "",
      if TextOf(Get(data, "avatar")) != "" then Some(TextOf(Get(data, "avatar"))) else OptText(Get(data, "profile_picture")),
      Some(TextOr(Get(data, "city"), TextOr(Get(data, "location"), ""))),
      LinkedInSkills(f.certs, f.langs),
      LinkedInYears(f.experiences, |f.certs|, |f.orgs|, |companies|),
      ExtractLeadershipRoles(f.experiences),
      [],
      TitlesOf(f.certs),
      ActivityMetrics(None, None, Some(NumOr0(Get(data, "followers"))), None, None, None, None, Some(0), Some(NumOr0(Get(data, "connections")))),
      CertificationLines(f.certs),
      companies,
      LinkedInEducation(data),
      if TextOf(Get(data, "about")) != "" then Some(TextOf(Get(data, "about"))) else OptText(Get(data, "summary")),
      TextOr(Get(data, "url"), TextOr(Get(data, "input_url"), "")),
      LinkedIn)
  }
}
