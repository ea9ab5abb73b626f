# Developer duel backend, modelled in Dafny

The system stages a "duel" between two professional profiles, given as two URLs.
It works in four steps:

1. **Scrape.** It fetches each profile: LinkedIn through Bright Data, GitHub through
   ActionBook and the GitHub REST API, Wikipedia through the REST summary and the
   MediaWiki wikitext. If a fetch fails, it uses one of three demo fighters instead.
2. **Normalise.** It turns the raw JSON into a common profile record.
3. **Score.** It gives each profile six stats (technical, strategy, execution,
   leadership, impact, experience). From the stats it computes a weighted power and
   an anime "archetype", and it generates anime techniques and missions.
4. **Decide and narrate.** It picks the winner (or a draw, when the powers are within
   5 of each other) and asks a narrator for a six-round roast. When there is no
   narrator or its reply is unusable, it uses a fixed fallback. The narrator's rounds
   are repaired so that the attacker alternates and the damage stays in 30..95.

A local session store records every status change and log line of a duel.
Progress events go out as the duel advances.

The model has one module per source file:

| module | file | source |
|---|---|---|
| `Scoring` | `scoring.dfy` | the scoring engine |
| `Scraper` | `scraper.dfy` | URL classification and the LinkedIn, GitHub and Wikipedia normalisers |
| `Automation` | `automation.dfy` | the ActionBook/REST scrapers: URL captures, `decodeURIComponent`, the infobox parser, the merges |
| `Commentary` | `commentary.dfy` | the alternation repair and the fallback commentary |
| `Context` | `context.dfy` | the local session store, as a class over a `map` of sessions |
| `Pipeline` | `pipeline.dfy` | the orchestrator, as a class holding the used demo indices; its duel is a method over the store |

Shared modules:

- `Json`: the JSON values the normalisers read, with JavaScript truthiness, `||` and number coercion.
- `Strings`: ASCII case mapping, trimming, splitting, slicing, digits and de-duplication.
- `Sorting`: a stable descending insertion sort.
- `Types`: the profile, anime profile, session and event records.
- `Wrappers`: `Option` and `Result`.

Everything from outside is passed in as a parameter:

- every network outcome, as `Fetch`/`Result` values (success with data, or failure);
- the narrator's reply;
- the random demo-fighter start indices and the technique rolls, one function per fighter, since each `transformToAnime` call draws its own;
- the clock's year and timestamps;
- a date parser for GitHub's `created_at`;
- the markup-stripping regex chain of `cleanWikiMarkup`;
- whether normalising, scoring or the anime transformation throws, and with which message (the `thrown` field of the environment).

## Model

| member | source | states |
|---|---|---|
| Scoring.RoundDivNearest | backend/src/services/scoring.ts:120 | `Math.round(n / d)` is the integer nearest to n/d, halves rounded up |
| Scoring.RoundDivBounds | backend/src/services/scoring.ts:116-120 | a quotient between lo and hi rounds to a value between lo and hi |
| Scoring.Points | backend/src/services/scoring.ts:12-35 | every skill-tier entry is worth 2, 4, 6, 8 or 10 points |
| Scoring.Tiered | backend/src/services/scoring.ts:12-35 | a tier row pairs each of its keys with the row's tier |
| Scoring.IndexOfKey | backend/src/services/scoring.ts:128 | the index of the first table entry with exactly that key, or the table length when there is none |
| Scoring.FirstOverlap | backend/src/services/scoring.ts:133-137 | the index of the first entry where skill and key contain one another, or the table length |
| Scoring.FindSkillTier | backend/src/services/scoring.ts:126-141 | the tier found is 2, 3, 4, 6, 8 or 10 |
| Scoring.FindSkillTierCases | backend/src/services/scoring.ts:126-141 | an exact key decides first; otherwise the first overlapping entry decides; 3 is returned exactly when no entry overlaps |
| Scoring.EmptySkillScoresTen | backend/src/services/scoring.ts:133-137 | the empty skill overlaps every key (`key.includes('')`), so it gets the first entry's 10 |
| Scoring.TierSum | backend/src/services/scoring.ts:89-93 | the tier points of n skills lie between 2n and 10n |
| Scoring.TierSumAppend | backend/src/services/scoring.ts:89-103 | tier points add up over concatenated skill lists |
| Scoring.TechnicalPossible | backend/src/services/scoring.ts:92-113 | the points possible are always at least 20, so the division is defined |
| Scoring.TechnicalScoreInRange | backend/src/services/scoring.ts:115-120 | `TechnicalScore` lies in 0..100 |
| Scoring.AddSkills | backend/src/services/scoring.ts:89-93 | the skill loop earns the skills' tier points and 10 possible points per skill (in half-points) |
| Scoring.AddTechnologies | backend/src/services/scoring.ts:98-102 | the inner loop adds half of each technology's tier and 5 possible points per technology |
| Scoring.AddProjects | backend/src/services/scoring.ts:96-104 | the project loop adds the tiers of every project's technologies, project by project |
| Scoring.TechnologiesStep | backend/src/services/scoring.ts:96-104 | the technologies of one more project are appended to the previous ones |
| Scoring.ScoreTechnical | backend/src/services/scoring.ts:84-121 | the loops compute the capped, rounded share of the points earned in the points possible |
| Scoring.StrategyScore | backend/src/services/scoring.ts:146-172 | the strategy score lies in 0..100; five projects and three achievements already give 60 |
| Scoring.MetricPoints | backend/src/services/scoring.ts:182-212 | the activity points total at most 95 |
| Scoring.ExecutionScore | backend/src/services/scoring.ts:177-220 | at most 100; with no truthy metric it is 10 per project, capped at 100; with non-zero metric points it is those points |
| Scoring.ExecutionNonNegative | backend/src/services/scoring.ts:197-212 | with no negative pull-request or post count, the execution score is not negative |
| Scoring.ExecutionCanBeNegative | backend/src/services/scoring.ts:197-199 | a negative pull-request count gives a negative execution score (`Math.min(15, -50)`) |
| Scoring.SeniorityPoints | backend/src/services/scoring.ts:237-245 | a leadership title is worth 10, 15, 20 or 25 by seniority tier |
| Scoring.RolePoints | backend/src/services/scoring.ts:233-247 | one role is worth 0..25: nothing without a leadership keyword, otherwise its seniority points |
| Scoring.RolePointsSum | backend/src/services/scoring.ts:233-248 | n roles are worth 0..25n |
| Scoring.LeaderCompanyPoints | backend/src/services/scoring.ts:252-260 | each company whose role has a leadership keyword adds 10 |
| Scoring.LeadershipScoreInRange | backend/src/services/scoring.ts:225-271 | `LeadershipScore` lies in 0..100 |
| Scoring.DirectorScoresAsExecutive | backend/src/services/scoring.ts:236-239 | "Director" contains "cto" and so earns the executive 25 points, not the 20 of the director tier |
| Scoring.KeywordScan | backend/src/services/scoring.ts:234-245 | the keyword loop with `break` adds its points exactly when some keyword occurs |
| Scoring.ScoreLeadership | backend/src/services/scoring.ts:225-271 | the loops compute the leadership score |
| Scoring.ImpactScoreInRange | backend/src/services/scoring.ts:276-319 | `ImpactScore` lies in 0..100 |
| Scoring.ScoreImpact | backend/src/services/scoring.ts:276-319 | the prestige loop adds 15 once when some company is a prestige company; the result is the impact score |
| Scoring.ExperienceScore | backend/src/services/scoring.ts:324-337 | the experience score lies in 15..100 |
| Scoring.ExperienceScoreMonotone | backend/src/services/scoring.ts:324-337 | more years never give a lower experience score |
| Scoring.CalculateStats | backend/src/services/scoring.ts:70-79 | the six stats are the six scores of the profile |
| Scoring.StatsInRange | backend/src/services/scoring.ts:70-79 | every stat lies in 0..100 when the pull-request and post counts are not negative |
| Scoring.DefaultPowerInRange | backend/src/services/scoring.ts:342-351 | `TotalPower` with the default weights: stats in 0..100 give a power in 0..120 |
| Scoring.RoundDivMonotone | backend/src/services/scoring.ts:350 | rounding preserves order |
| Scoring.TotalPowerMonotone | backend/src/services/scoring.ts:342-351 | `TotalPower` with non-negative weights: raising any stat never lowers the power |
| Scoring.TopStatIsFirstMaximal | backend/src/services/scoring.ts:360-369 | the top of the stable sort by value is the first stat, in list order, with the maximum value |
| Scoring.FirstMaxOfStats | backend/src/services/scoring.ts:360-369 | the first maximal position of the stat list names the first maximal stat |
| Scoring.Deviation | backend/src/services/scoring.ts:373-374 | a stat's distance from the mean (times six) is not negative |
| Scoring.EqualStatsAreWarrior | backend/src/services/scoring.ts:376-378 | six equal stats are balanced, so the archetype is Warrior |
| Scoring.DeviationSumCovers | backend/src/services/scoring.ts:374 | the total deviation is at least that of any two stats |
| Scoring.SpreadIsNotBalanced | backend/src/services/scoring.ts:374-378 | stats 60 or more apart are never balanced |
| Scoring.ArchetypeForRules | backend/src/services/scoring.ts:376-409 | each archetype is chosen exactly under its rule and the failure of the earlier rules |
| Scoring.ArchetypeRules | backend/src/services/scoring.ts:356-410 | `DetermineArchetype`: the same rules in terms of the stats: each archetype exactly under its rule, both directions, with the top stat being the first maximal one; Warrior whenever the stats are balanced |
| Scoring.GenericTechnique | backend/src/services/scoring.ts:447-455 | the skill appears, set off by spaces, right after the rolled prefix |
| Scoring.GenerateTechniques | backend/src/services/scoring.ts:437-442 | one technique per skill for the first six skills |
| Scoring.GeneratedTechniquesNamed | backend/src/services/scoring.ts:437-455 | each technique is the table's name for the lower-cased skill, or a generated name containing the skill |
| Scoring.FirstCurrent | backend/src/services/scoring.ts:461 | the index of the first current company, or the list length |
| Scoring.FormatGuild | backend/src/services/scoring.ts:460-466 | "Independent Fighter" exactly for no companies; otherwise the first current company's guild, or the first company's |
| Scoring.ExperienceBand | backend/src/services/scoring.ts:471-480 | each career falls in one of the eight experience bands; `FormatBattleExperience` is the label of this band |
| Scoring.ExperienceBandAgreesWithScore | backend/src/services/scoring.ts:471-480 | the label bands follow the experience-score bands, except that the label joins the 1-year and 2-year bands |
| Scoring.ExperienceScoreDeterminesBand | backend/src/services/scoring.ts:471-480 | careers with the same experience score get the same label |
| Scoring.ExperienceBandMonotone | backend/src/services/scoring.ts:471-480 | more years never give a lower experience label |
| Scoring.MissionRankMonotone | backend/src/services/scoring.ts:499-509 | `DetermineMissionRank`: a higher mission score (stars + 2 × forks) never gives a lower rank |
| Scoring.FormatMissions | backend/src/services/scoring.ts:485-494 | one mission per project for the first five; each keeps the project's name and its rank; each has a non-empty description, the project's own when it has one |
| Scoring.GenerateSpecialAbility | backend/src/services/scoring.ts:514-530 | the ability always names the top skill, or "coding" when there is none |
| Scoring.CompanyNames | backend/src/services/scoring.ts:426 | the guild history lists the companies' names in order |
| Scoring.TransformToAnime | backend/src/services/scoring.ts:415-432 | the anime profile keeps the profile and stats; it has the archetype and the weighted power; the techniques `GenerateTechniques` gives (at most six), the missions `FormatMissions` gives (at most five) and the battle experience `FormatBattleExperience` gives; the guild, the guild history and the scrolls; an ability naming the top skill |
| Scoring.DetermineWinner | backend/src/services/scoring.ts:535-552 | the margin is the power difference; a draw exactly within 5; otherwise the stronger fighter wins |
| Scoring.DetermineWinnerSwap | backend/src/services/scoring.ts:535-552 | swapping the fighters keeps the margin and swaps the winner |
| Scraper.DetectPlatform | backend/src/services/scraper.ts:37-54 | in the lower-cased URL: LinkedIn exactly when it contains linkedin.com; GitHub exactly when it contains github.com and not linkedin.com; Unknown exactly when no marker occurs |
| Scraper.DetectPlatformFirstMatch | backend/src/services/scraper.ts:37-54 | Wikipedia exactly when wikipedia.org is the first marker present; Portfolio exactly when no earlier marker is present and a portfolio marker is |
| Scraper.DetectPlatformIgnoresCase | backend/src/services/scraper.ts:38 | a URL and its lower-case form get the same platform |
| Scraper.QuantityAt | backend/src/services/scraper.ts:536-537 | a quantity match starts with a digit |
| Scraper.TotalMonthsAppend | backend/src/services/scraper.ts:531-542 | months add up over concatenated experience lists |
| Scraper.CalculateYearsExperience | backend/src/services/scraper.ts:528-545 | the loop gives the total months divided by 12 and rounded |
| Scraper.ExtractLeadershipRoles | backend/src/services/scraper.ts:550-559 | a title is listed exactly when some experience has that title and the title names a leadership role |
| Scraper.LeadershipRolesAppend | backend/src/services/scraper.ts:553-558 | the filter distributes over concatenation, so order is kept |
| Scraper.StrItems | backend/src/services/scraper.ts:568-569 | the string items of a list value, all from the list |
| Scraper.StringsOf | backend/src/services/scraper.ts:568-569 | only strings of the list are kept |
| Scraper.SkillsFromRepos | backend/src/services/scraper.ts:564-576 | at most 20 distinct skills, all from the repositories' languages and topics; when fewer than 20, every candidate is there |
| Scraper.DistinctSnoc | backend/src/services/scraper.ts:571-572 | adding to the set appends a new element and ignores a present one |
| Scraper.AddStep | backend/src/services/scraper.ts:571-572 | one more item grows the insertion-ordered set by that item when new |
| Scraper.AddAll | backend/src/services/scraper.ts:571-572 | the `forEach(add)` loop yields the insertion-ordered set of everything added |
| Scraper.CandidatesStep | backend/src/services/scraper.ts:567-573 | one more repository appends its languages, then its topics |
| Scraper.ExtractSkillsFromRepos | backend/src/services/scraper.ts:564-576 | the loop computes the first 20 distinct skills in insertion order |
| Scraper.EstimateGitHubExperience | backend/src/services/scraper.ts:581-587 | 0 exactly without a creation date; otherwise the current year minus the creation year, raised to 1 when smaller |
| Scraper.SumCommitsAppend | backend/src/services/scraper.ts:592-596 | `SumCommits`: commits add up over concatenated repository lists |
| Scraper.SumCommitsNonNegative | backend/src/services/scraper.ts:592-596 | with no negative commit count, the sum is not negative |
| Scraper.GitHubAchievements | backend/src/services/scraper.ts:511-523 | at most four lines; the popular-project line (`HasPopularRepo`) exactly when some repository has 100 stars or more; the total-stars line first when the total reaches 1000 |
| Scraper.LineEndsWithNumberText | backend/src/services/scraper.ts:517-520 | a line that starts with a number is never the popular-project line |
| Scraper.NumberTextStartsWithDigit | backend/src/services/scraper.ts:517 | a number's text starts with a digit or a minus sign |
| Scraper.RecordsOf | backend/src/services/scraper.ts:317 | one record per repository entry |
| Scraper.StripLeadingAt | backend/src/services/scraper.ts:348 | `replace(/^@/, '')` drops one leading `@` and nothing else |
| Scraper.ProjectOf | backend/src/services/scraper.ts:330-337 | a project's stars are the repository's star count, or 0 |
| Scraper.TopRepos | backend/src/services/scraper.ts:318-320 | at most 10 repositories are kept |
| Scraper.NormalizeGitHub | backend/src/services/scraper.ts:316-357 | a GitHub profile with a name and a title; at most 10 projects and 20 distinct skills; one company exactly when a company is given, named without its `@`; no roles, certifications or education |
| Scraper.GitHubProjects | backend/src/services/scraper.ts:318-337 | at most 10 projects |
| Scraper.GitHubProjectsByStars | backend/src/services/scraper.ts:318-337 | the projects are the 10 most-starred repositories, a permutation sorted by stars, none beaten by a repository left out |
| Scraper.SpacesToUnderscores | backend/src/services/scraper.ts:369 | `replace(/ /g, '_')` maps exactly the spaces |
| Scraper.FirstTruthy | backend/src/services/scraper.ts:368-374 | the text of the first key variation with a truthy value, or `""` when none has one |
| Scraper.FirstText | backend/src/services/scraper.ts:376-388 | `a \|\| b \|\| ...` over strings: the first non-empty one, or `""` exactly when all are empty |
| Scraper.Pieces | backend/src/services/scraper.ts:390 | the trimmed pieces kept are non-empty |
| Scraper.LengthBetween | backend/src/services/scraper.ts:403 | keeps exactly the items strictly between the two lengths |
| Scraper.FirstContained | backend/src/services/scraper.ts:461-464 | the first listed name the text contains, or `""` when it contains none |
| Scraper.ExtractNationalityFromDescription | backend/src/services/scraper.ts:455-465 | the first nationality of the list that occurs in the description; empty exactly when none occurs |
| Scraper.FirstFourDigits | backend/src/services/scraper.ts:490 | the first position holding four digits, or none |
| Scraper.EstimateWikipediaExperience | backend/src/services/scraper.ts:489-499 | with a birth year, the years since age 22, raised to 1 when smaller; without one, 25 exactly when the lower-cased intro says veteran or pioneer, 15 exactly when it says neither but says senior or experienced, 10 otherwise |
| Scraper.KeywordRoles | backend/src/services/scraper.ts:505-507 | a keyword's capitalised form is listed exactly when the text contains the keyword |
| Scraper.ExtractWikipediaLeadership | backend/src/services/scraper.ts:501-509 | at most nine roles; a leadership word is a role exactly when it occurs in the lower-cased intro and occupation, capitalised |
| Scraper.StripWikipediaSuffix | backend/src/services/scraper.ts:433 | the trailing " - Wikipedia" is removed when present, and nothing else changes |
| Scraper.PieceCompanies | backend/src/services/scraper.ts:411-420 | each non-empty piece becomes a current company with the display title as role |
| Scraper.PieceCompaniesSnoc | backend/src/services/scraper.ts:411-414 | one more piece adds one company exactly when it trims to non-empty text |
| Scraper.PushPieceCompanies | backend/src/services/scraper.ts:410-421 | the push loop appends the companies of the pieces |
| Scraper.NameRun | backend/src/services/scraper.ts:470-474 | the `[\w\s]*` run stays inside the text |
| Scraper.OpenerMatch | backend/src/services/scraper.ts:470-474 | a matched opener ends inside the text |
| Scraper.NextNameMatch | backend/src/services/scraper.ts:479 | the next match lies after the search position and inside the text |
| Scraper.PatternCandidates | backend/src/services/scraper.ts:477-485 | every name a pattern finds carries that pattern's role |
| Scraper.AdmitAllCons | backend/src/services/scraper.ts:479-485 | names are admitted one by one, in order |
| Scraper.IntroCandidatesFrom | backend/src/services/scraper.ts:477 | the patterns are tried in order, each exhausting its matches first |
| Scraper.ExtractCompaniesFromIntro | backend/src/services/scraper.ts:467-487 | the nested loops compute the companies after the intro's names are added |
| Scraper.AdmitKeeps | backend/src/services/scraper.ts:481-484 | admitting a name keeps the existing list and adds only a fresh, short, current company |
| Scraper.AdmitAllKeeps | backend/src/services/scraper.ts:477-486 | the same over any sequence of candidates |
| Scraper.IntroCompaniesAreFresh | backend/src/services/scraper.ts:467-487 | the intro keeps the listed companies and adds only non-empty, short, current companies; a name already present (ignoring case) is never added, and none is added twice |
| Scraper.WikipediaCompanies | backend/src/services/scraper.ts:409-422 | the employer pieces, else the title pieces, then the companies the intro names |
| Scraper.LongerThan | backend/src/services/scraper.ts:406 | keeps exactly the items longer than the bound |
| Scraper.WikipediaSkills | backend/src/services/scraper.ts:400-403 | at most 20 skills, each 2..79 characters long |
| Scraper.TakeKeepsLengths | backend/src/services/scraper.ts:403 | slicing keeps the length bounds of the items |
| Scraper.WikipediaAchievements | backend/src/services/scraper.ts:405-407 | at most 10 awards, each longer than 2 characters |
| Scraper.WikipediaEducation | backend/src/services/scraper.ts:424-428 | each institution kept is longer than 1 character |
| Scraper.DisplayTitle | backend/src/services/scraper.ts:390-394 | the display title is never empty |
| Scraper.IntroSummary | backend/src/services/scraper.ts:449 | the summary is the intro's first 500 characters |
| Scraper.NormalizeWikipedia | backend/src/services/scraper.ts:362-453 | for any input, a profile of the shape Scraper.WikipediaProfile states |
| Scraper.WikipediaProfile | backend/src/services/scraper.ts:400-453 | a titled Wikipedia profile; at most 20 skills of 2..79 characters; at most 10 awards longer than 2; institutions longer than 1; a summary of at most 500 characters; at least 1 year |
| Scraper.WikipediaCompaniesCurrent | backend/src/services/scraper.ts:409-422 | the listed companies come first, and every company is current and named |
| Scraper.LinkedInCompanies | backend/src/services/scraper.ts:251-262 | the current company first when named (role: the position, or "Professional"), then one company per experience entry |
| Scraper.ExperienceCompanies | backend/src/services/scraper.ts:255-262 | each experience entry gives its company, title, duration and current flag |
| Scraper.ExperienceCompaniesStep | backend/src/services/scraper.ts:255-262 | one more entry pushes one more company |
| Scraper.BuildLinkedInCompanies | backend/src/services/scraper.ts:251-262 | the push loop builds the LinkedIn companies |
| Scraper.TitlesOf | backend/src/services/scraper.ts:247-249 | empty titles are dropped |
| Scraper.CertificationLines | backend/src/services/scraper.ts:300-304 | empty certification lines are dropped |
| Scraper.LinkedInName | backend/src/services/scraper.ts:279-281 | the name is never empty |
| Scraper.LinkedInYears | backend/src/services/scraper.ts:289-291 | with experiences, their rounded total years; without any, 3 exactly when there are certificates, organisations or companies, else 0 |
| Scraper.LinkedInSkills | backend/src/services/scraper.ts:285-288 | at most 20 non-empty skills: the certificate titles first, then the language titles |
| Scraper.NormalizeLinkedIn | backend/src/services/scraper.ts:234-311 | a named LinkedIn profile with at most 20 skills; its achievements are the certificate titles; its roles are the leadership titles; at least one company per experience |
| Scraper.LinkedInProfile | backend/src/services/scraper.ts:278-310 | the same, over the fields read from the record |
| Automation.CaptureAt | backend/src/services/automation.ts:296-297 | the `[^/?#]+` capture is a non-empty run without a stop character that ends at a stop or at the end |
| Automation.FirstMatchFrom | backend/src/services/automation.ts:296 | the leftmost position where the marker is followed by a capturable character |
| Automation.ExtractGitHubUsername | backend/src/services/automation.ts:295-298 | empty exactly when no `github.com/` is followed by a username character; otherwise a segment that follows `github.com/` and holds no `/`, `?` or `#` |
| Automation.UsernameOfProfileUrl | backend/src/services/automation.ts:295-298 | `https://github.com/<name>` followed by a path, query or fragment (or nothing) gives back `<name>` |
| Automation.MarkerAfterScheme | backend/src/services/automation.ts:296 | in a profile URL the marker is found right after the scheme |
| Automation.FirstIndexOfPlainPrefix | backend/src/services/automation.ts:296 | the capture ends where the name ends |
| Automation.EscapedByte | backend/src/services/automation.ts:292 | a `%XY` escape gives a byte |
| Automation.ContinuationAt | backend/src/services/automation.ts:292 | a continuation escape carries six bits |
| Automation.DecodeEscape | backend/src/services/automation.ts:292 | a decoded escape sequence spans at least three characters and stays within the text |
| Automation.DecodeTwo | backend/src/services/automation.ts:292 | a two-byte sequence spans six characters |
| Automation.DecodeThree | backend/src/services/automation.ts:292 | a three-byte sequence spans nine characters |
| Automation.DecodeFour | backend/src/services/automation.ts:292 | a four-byte sequence spans twelve characters |
| Automation.DecodeUriComponent | backend/src/services/automation.ts:292 | `decodeURIComponent` throws only "URI malformed"; it never lengthens its input and keeps non-empty input non-empty; text without `%` decodes to itself |
| Automation.MalformedEscape | backend/src/services/automation.ts:292 | a `%` without two hexadecimal digits after it, as in the title `100%_Wolf`, throws "URI malformed" |
| Automation.HexDigitUpper | backend/src/services/automation.ts:201 | the upper-case hex digit reads back as its value |
| Automation.EscapeByte | backend/src/services/automation.ts:201 | a byte escapes as `%XY` |
| Automation.Utf8Bytes | backend/src/services/automation.ts:201 | a character encodes as 1 to 4 bytes |
| Automation.Escapes | backend/src/services/automation.ts:201 | each byte takes three characters |
| Automation.EscapeChar | backend/src/services/automation.ts:201 | an escaped character starts with `%` |
| Automation.ReadEscape | backend/src/services/automation.ts:292 | an escaped byte reads back as that byte and leaves the rest |
| Automation.LeadOfEscapes | backend/src/services/automation.ts:292 | the first escape of a sequence reads back as its first byte |
| Automation.DecodeEscapeChar | backend/src/services/automation.ts:292 | an escaped character decodes back to itself, spanning its own escape |
| Automation.DecodeTwoBytes | backend/src/services/automation.ts:292 | the same for two-byte characters |
| Automation.DecodeThreeBytes | backend/src/services/automation.ts:292 | the same for three-byte characters |
| Automation.DecodeFourBytes | backend/src/services/automation.ts:292 | the same for four-byte characters |
| Automation.DecodeEncode | backend/src/services/automation.ts:292 | `EncodeUriComponent` is undone by `decodeURIComponent`: decoding the encoding of s gives s, for every string of scalar values |
| Automation.DecodeKept | backend/src/services/automation.ts:292 | an unreserved character decodes to itself |
| Automation.DecodeEscaped | backend/src/services/automation.ts:292 | an escaped character in front of decodable text decodes to that character in front |
| Automation.UnderscoresToSpaces | backend/src/services/automation.ts:292 | `replace(/_/g, ' ')` maps exactly the underscores |
| Automation.ExtractWikipediaTitle | backend/src/services/automation.ts:290-293 | the title is the empty string exactly when no `wikipedia.org/wiki/` is followed by a title character |
| Automation.TitleWithoutEscapes | backend/src/services/automation.ts:290-293 | a captured segment without `%` becomes the title with its underscores turned into spaces |
| Automation.CollapseWhitespace | backend/src/services/automation.ts:286 | after `replace(/\s{2,}/g, ' ')` no two whitespace characters are adjacent; the text is empty only if it was, and starts with whitespace only if it did |
| Automation.NoDoubleSpaceSlice | backend/src/services/automation.ts:286-287 | a slice of text without adjacent whitespace has none either |
| Automation.CleanWikiMarkup | backend/src/services/automation.ts:269-288 | the cleaned text has no adjacent whitespace and no whitespace at either end |
| Automation.CollapseKeepsSingleSpaces | backend/src/services/automation.ts:286 | collapsing leaves alone text without adjacent whitespace |
| Automation.TrimKeepsTrimmed | backend/src/services/automation.ts:287 | trimming leaves alone text without whitespace at either end |
| Automation.CleanIsIdempotent | backend/src/services/automation.ts:286-287 | collapsing and trimming a cleaned value changes nothing |
| Automation.BlockEndFrom | backend/src/services/automation.ts:242 | the lazy `[\s\S]*?` stops at the first `\n}}` that closes its line |
| Automation.InfoboxBlockFrom | backend/src/services/automation.ts:242-245 | a block is found only where the text says `{{Infobox` |
| Automation.KeyRun | backend/src/services/automation.ts:251 | the field-name run `[A-Za-z_\s]` is maximal |
| Automation.ParseInfoboxFromWikitext | backend/src/services/automation.ts:239-267 | the line loop computes the infobox dictionary |
| Automation.NoInfoboxNoFields | backend/src/services/automation.ts:242-243 | wikitext without an infobox gives an empty dictionary |
| Automation.LastField | backend/src/services/automation.ts:250-261 | the last field line, with only continuation lines after it |
| Automation.ContinuationStops | backend/src/services/automation.ts:258-260 | lines after a field line do not extend the text before it |
| Automation.ContinuationGrows | backend/src/services/automation.ts:259 | a continuation line appends a space and its trimmed text |
| Automation.InfoboxFields | backend/src/services/automation.ts:250-264 | the loop invariant: the keys stored are the keys of the field lines; a key keeps the cleaned text of its last field line; the open field holds its text so far |
| Automation.OpensInPrefix | backend/src/services/automation.ts:250-251 | adding a line does not change which earlier lines open fields |
| Automation.LastFieldOfField | backend/src/services/automation.ts:252-257 | a field line becomes the last field line |
| Automation.LastFieldOfOther | backend/src/services/automation.ts:258-260 | a continuation line keeps the last field line |
| Automation.FieldTextStops | backend/src/services/automation.ts:252-257 | a field's text stops at the next field line |
| Automation.FieldPending | backend/src/services/automation.ts:256-257 | a field line becomes the open field |
| Automation.FieldKeys | backend/src/services/automation.ts:253-257 | storing the pending field keeps the stored keys equal to the keys seen |
| Automation.FieldValues | backend/src/services/automation.ts:253-257 | storing the pending field keeps every key at its last field's cleaned text |
| Automation.FieldTextGrows | backend/src/services/automation.ts:258-260 | a continuation line extends the last field's text |
| Automation.OtherPending | backend/src/services/automation.ts:258-260 | a continuation line keeps the open field, with its text extended |
| Automation.OtherKeys | backend/src/services/automation.ts:258-260 | a continuation line does not change the keys |
| Automation.OtherValues | backend/src/services/automation.ts:258-264 | a continuation line keeps the stored values right |
| Automation.InfoboxOfFields | backend/src/services/automation.ts:239-267 | `InfoboxOf` (through `FieldOf`): the dictionary holds exactly the non-empty keys of the field lines; each key maps to the cleaned text of its last field line and the lines under it |
| Automation.MergeGitHub | backend/src/services/automation.ts:44-53 | the merged record has the repositories and the source flags; every other key is the DOM's over the REST user's |
| Automation.MergedIdentity | backend/src/services/automation.ts:44-55 | the login and name of the merge are the DOM's, else the REST user's |
| Automation.ScrapeGitHubProfile | backend/src/services/automation.ts:21-66 | an error without a username; otherwise a result exactly when the merged login or name is truthy; the result carries the URL, the time and the repositories fetched |
| Automation.GitHubNeedsAProfileSource | backend/src/services/automation.ts:55-57 | with both profile sources failed the scrape fails, whatever the repositories |
| Automation.SummaryFields | backend/src/services/automation.ts:200-216 | the summary record always has the same seven keys; the title doubles as the name; the image falls back to the thumbnail |
| Automation.StrFields | backend/src/services/automation.ts:221-237 | the parsed fields as JSON strings, key for key |
| Automation.MergeWikipedia | backend/src/services/automation.ts:148-160 | the merged infobox is the parsed fields over the DOM's infobox; the source flags; every other key is the summary's over the DOM's |
| Automation.InfoboxPrecedence | backend/src/services/automation.ts:151-154 | a parsed infobox field wins over the DOM's |
| Automation.ScrapeWikipediaProfile | backend/src/services/automation.ts:125-173 | a title that does not decode is its error; no title is an error; otherwise, with the infobox parsed from the page's wikitext (`WikitextOf`), a result exactly when the merge has a truthy title, name, intro or first paragraph |
| Automation.SummaryShadowsDom | backend/src/services/automation.ts:148-150 | a fetched summary's seven keys override the DOM's |
| Automation.WikipediaNeedsASource | backend/src/services/automation.ts:162-164 | with all three fetches failed the scrape fails |
| Automation.SummaryTitleSuffices | backend/src/services/automation.ts:162-172 | a summary with a truthy title is enough for a result |
| Commentary.ClampDamage | backend/src/services/commentary.ts:160 | the damage is NaN or within 30..95; falsy damage becomes 60; a non-zero number is clamped |
| Commentary.EnforceAlternation | backend/src/services/commentary.ts:136-163 | one repaired round per round |
| Commentary.EnforceAlternationShape | backend/src/services/commentary.ts:140-162 | round i gets attacker profile1/profile2 by parity and number i+1; its damage is clamped; every other key of the round is kept |
| Commentary.AsValues | backend/src/services/commentary.ts:89 | the repaired rounds as JSON objects |
| Commentary.EnforceAlternationIdempotent | backend/src/services/commentary.ts:136-163 | repairing repaired rounds changes nothing when no damage was NaN |
| Commentary.NaNDamageIsNotIdempotent | backend/src/services/commentary.ts:160 | a non-numeric damage repairs to NaN, and a second repair makes it 60 |
| Commentary.WellFormedRoundsUnchanged | backend/src/services/commentary.ts:140-162 | rounds that already alternate, are numbered and carry damage in 30..95 are left unchanged |
| Commentary.FallbackRounds | backend/src/services/commentary.ts:177-220 | the fallback has six rounds |
| Commentary.FallbackShape | backend/src/services/commentary.ts:168-224 | `FallbackCommentary` names the winner passed in; its six rounds alternate and are numbered 1..6 with damages 65, 70, 75, 80, 85, 70; the repair leaves them unchanged |
| Commentary.FallbackRoundWellFormed | backend/src/services/commentary.ts:178-219 | each fallback round is well formed, with its fixed damage |
| Commentary.GenerateCommentary | backend/src/services/commentary.ts:22-102 | the fallback without a narrator, when the call fails and when the reply cannot be used, including a round whose attacker or damage conversion throws; otherwise the reply with its rounds repaired |
| Commentary.ToStringAttackerFallsBack | backend/src/services/commentary.ts:134-160 | a round whose attacker is an object with its own `toString` key makes the repair throw, so the fallback is returned |
| Commentary.Repaired | backend/src/services/commentary.ts:88-90 | only `rounds` is replaced; every other key of the reply is kept |
| Commentary.CommentaryRoundsAlternate | backend/src/services/commentary.ts:22-102 | whatever the narrator does, the commentary's rounds alternate from profile1 and are numbered from 1 |
| Context.NewSession | backend/src/services/context.ts:45-55 | a new session is pending, with the URLs, no logs and no results |
| Context.Logged | backend/src/services/context.ts:251-256 | a log entry is appended and nothing else changes |
| Context.WithStatus | backend/src/services/context.ts:87-92 | the status is set and an entry for it appended; nothing else changes |
| Context.StatusTrail | backend/src/services/context.ts:79-105 | a run of status updates appends one entry per update, in order, and ends in the last status |
| Context.WithAnimeProfile | backend/src/services/context.ts:163-164 | fighter 1's anime profile goes to profile1, any other number's to profile2 |
| Context.SessionStore.constructor | backend/src/services/context.ts:15 | the store starts empty |
| Context.SessionStore.CreateDuelSession | backend/src/services/context.ts:45-74 | the new session is stored under its id |
| Context.SessionStore.UpdateSessionStatus | backend/src/services/context.ts:79-105 | an unknown session is an error and changes nothing; otherwise only that session's status and logs change |
| Context.SessionStore.StoreProfileData | backend/src/services/context.ts:110-130 | the local store is unchanged |
| Context.SessionStore.StoreNormalizedProfile | backend/src/services/context.ts:135-150 | the local store is unchanged |
| Context.SessionStore.StoreAnimeProfile | backend/src/services/context.ts:155-177 | an unknown session is an error; otherwise only that fighter's profile is set |
| Context.SessionStore.StoreCommentary | backend/src/services/context.ts:182-202 | an unknown session is an error; otherwise only the commentary is set |
| Context.SessionStore.StoreDuelResult | backend/src/services/context.ts:207-230 | an unknown session is an error; otherwise the winner, the winner's name and status complete are set |
| Context.SessionStore.GetDuelSession | backend/src/services/context.ts:235-237 | the session under that id, or none exactly when there is none |
| Context.SessionStore.AddLog | backend/src/services/context.ts:242-258 | an unknown session is silently ignored; otherwise one entry is appended |
| Context.SessionStore.GetLogs | backend/src/services/context.ts:263-265 | the session's logs, or none for an unknown session |
| Json.Or | backend/src/services/scraper.ts:240-243 | `a \|\| b`: a when truthy, else b |
| Json.TextOr | backend/src/services/scraper.ts:240 | `(x as string) \|\| fallback`: a non-empty string, else the fallback |
| Json.Texts | backend/src/services/scraper.ts:247-248 | the texts of a list, item by item |
| Json.ParseNumber | backend/src/services/commentary.ts:160 | `Number(s)` gives a number or NaN; its cases are stated by the lemmas below |
| Json.NumberOfDecimalText | backend/src/services/commentary.ts:160 | the decimal text of a natural number, bare or after a minus sign, converts to that number and its negation |
| Json.NumberOfExponent | backend/src/services/commentary.ts:160 | digits, `e` and digits convert to the mantissa times ten to the exponent |
| Json.FractionForm | backend/src/services/commentary.ts:160 | a fraction with an exponent whose value is whole (`2.50e1`) converts to that whole number |
| Json.PrefixedNumber | backend/src/services/commentary.ts:160 | `0x`, `0o` or `0b` followed by digits of that base converts to their value in that base |
| Json.SignedPrefixIsNaN | backend/src/services/commentary.ts:160 | a minus sign before a base prefix gives NaN |
| Json.PrefixedBodyIsNotDecimal | backend/src/services/commentary.ts:160 | `0` with a base-prefix letter never reads as a decimal literal |
| Json.DecimalOfDigits | backend/src/services/commentary.ts:160 | a run of decimal digits, read as a decimal literal, is worth the digits' value |
| Json.ToNumber | backend/src/services/commentary.ts:160 | `Number(x)`: a number or NaN, and a number stays itself |
| Json.ElementNumber | backend/src/services/commentary.ts:160 | an array's element converts to a number or NaN |
| Strings.ContainsMiddle | backend/src/services/scoring.ts:518-529 | a template around a word contains that word |
| Strings.ToLower | backend/src/services/scraper.ts:38 | `toLowerCase`, character by character |
| Strings.ToLowerIdempotent | backend/src/services/scraper.ts:38 | lower-casing twice is lower-casing once |
| Strings.Capitalize | backend/src/services/scraper.ts:506 | capitalising keeps the length |
| Strings.TrimStart | backend/src/services/automation.ts:251 | leading whitespace is removed, and only that |
| Strings.TrimEnd | backend/src/services/automation.ts:251 | trailing whitespace is removed, and only that |
| Strings.Trim | backend/src/services/scraper.ts:412 | the trimmed text has no whitespace at either end |
| Strings.TrimUnpadded | backend/src/services/scraper.ts:412 | a text with no whitespace at either end trims to itself |
| Strings.FirstIndexIn | backend/src/services/scraper.ts:390 | the first separator position, or the length |
| Strings.Split | backend/src/services/scraper.ts:401 | one piece at least, no piece holding a separator |
| Strings.Take | backend/src/services/scraper.ts:403 | `slice(0, n)` is the prefix of length min(n, length) |
| Strings.NonEmpty | backend/src/services/scraper.ts:249 | `filter(Boolean)` keeps the non-empty items |
| Strings.TrimAll | backend/src/services/scraper.ts:401 | `map(s => s.trim())` item by item |
| Strings.NatToString | backend/src/services/scraper.ts:517-519 | a number's text is a non-empty run of digits |
| Strings.DigitsValueOfText | backend/src/services/scraper.ts:517-519 | the text of a number reads back as that number |
| Strings.SpaceRun | backend/src/services/automation.ts:286 | the `\s` run at the start is maximal (also the `\s*` of the duration pattern) |
| Strings.DigitRun | backend/src/services/scraper.ts:490 | the `\d` run at the start is maximal |
| Strings.Distinct | backend/src/services/scraper.ts:565-575 | the insertion-ordered set: no duplicates, the same members |
| Sorting.Insert | backend/src/services/scraper.ts:318-319 | inserting keeps every element once more |
| Sorting.InsertSorted | backend/src/services/scraper.ts:318-319 | inserting into a descending list keeps it descending |
| Sorting.InsertBounded | backend/src/services/scraper.ts:318-319 | inserting keeps a common upper bound of the keys |
| Sorting.SortDesc | backend/src/services/scraper.ts:318-319 | the sort is a permutation |
| Sorting.SortDescSorted | backend/src/services/scraper.ts:318-319 | the sort is descending by key |
| Sorting.WithKey | backend/src/services/scraper.ts:318-319 | the elements with a given key, in order, no more than the whole list |
| Sorting.InsertWithKey | backend/src/services/scraper.ts:318-319 | an inserted element comes before the elements with its key already there, and the others keep their order |
| Sorting.SortDescStable | backend/src/services/scraper.ts:318-319 | the sort is stable, as `Array.prototype.sort` is: equal keys keep their order |
| Sorting.FirstMax | backend/src/services/scoring.ts:360-369 | the first position with the maximum key |
| Sorting.SortDescHead | backend/src/services/scoring.ts:360-369 | the head of the sort is the first maximal element |
| Pipeline.MockScrapedData | backend/src/orchestrator/pipeline.ts:323-342 | a demo fighter is the catalog entry, marked normalised, carrying the URL and its platform |
| Pipeline.MockProfilesDistinct | backend/src/orchestrator/pipeline.ts:347-415 | the three demo fighters have different names |
| Pipeline.ProbeIndex | backend/src/orchestrator/pipeline.ts:327-330 | the probe keeps the start when it is free or the set is full; otherwise it finds a free index |
| Pipeline.AllThreeTaken | backend/src/orchestrator/pipeline.ts:328-330 | two probes taken leave the third index free |
| Pipeline.FightersGetDistinctEntries | backend/src/orchestrator/pipeline.ts:327-331 | the second fighter never gets the first fighter's entry |
| Pipeline.NumberOr | backend/src/orchestrator/pipeline.ts:306 | `(x as number) \|\| fallback`: a non-zero number, else the fallback |
| Pipeline.ListOf | backend/src/orchestrator/pipeline.ts:305-313 | `(x as T[]) \|\| []`: the list's items, otherwise empty |
| Pipeline.NormalizeGenericData | backend/src/orchestrator/pipeline.ts:299-318 | the generic profile: unknown platform, the URL; name and title falling back to "Unknown Warrior" and "Developer"; years from either field; missing lists empty |
| Pipeline.NormalizeProfile | backend/src/orchestrator/pipeline.ts:275-294 | a demo fighter passes through; a raw payload goes to its platform's normaliser |
| Pipeline.MockPassesThrough | backend/src/orchestrator/pipeline.ts:333-338 | a demo fighter comes out of normalisation as the catalog entry with the URL it stands in for |
| Pipeline.TickerBroadcasts | backend/src/orchestrator/pipeline.ts:132-140 | the ticker broadcasts at most seven ticks, at 88..94, cycling the messages |
| Pipeline.TickerIncreasing | backend/src/orchestrator/pipeline.ts:134-139 | tick progress strictly increases |
| Pipeline.RunTicker | backend/src/orchestrator/pipeline.ts:132-140 | the ticker loop broadcasts the ticker's ticks |
| Pipeline.ProgressOf | backend/src/orchestrator/pipeline.ts:442-451 | progress lies in 0..100; 100 exactly when complete; 0 exactly for pending and error |
| Pipeline.StagesAdvance | backend/src/orchestrator/pipeline.ts:442-451 | the success stages advance in both the broadcast progress and the status progress |
| Pipeline.GetDuelStatus | backend/src/orchestrator/pipeline.ts:431-458 | "Session ... not found" exactly for an unknown session; otherwise its status, progress and logs |
| Pipeline.GetDuelResult | backend/src/orchestrator/pipeline.ts:463-479 | none exactly for an unknown session; otherwise the response built from it |
| Pipeline.SourcesOf | backend/src/orchestrator/pipeline.ts:224-254 | a GitHub scrape keeps the URL and a raw payload; without a username it fails |
| Pipeline.Attempt | backend/src/orchestrator/pipeline.ts:176-196 | GitHub and Wikipedia URLs use their own scrapers; all others use Bright Data |
| Pipeline.ScrapeLog | backend/src/orchestrator/pipeline.ts:204-267 | one log line per attempt, two when it fails |
| Pipeline.AllLoggedAppends | backend/src/services/context.ts:242-258 | logging only appends to the one session |
| Pipeline.ScrapeOutcome | backend/src/orchestrator/pipeline.ts:198-270 | a successful attempt is used as is; a failed one gives a demo fighter and takes its index |
| Pipeline.LinkedInResultKept | backend/src/orchestrator/pipeline.ts:207-215 | a LinkedIn result is kept even without identity fields |
| Pipeline.WinnerNameFollowsPower | backend/src/orchestrator/pipeline.ts:111-116 | `WinnerName` is the stronger fighter's name, or "Draw" within 5 |
| Pipeline.Fight | backend/src/orchestrator/pipeline.ts:69-124 | each anime profile wraps its fighter's profile, each fighter transformed with its own technique rolls; the winner and its name follow the powers |
| Pipeline.FallbackFightersDiffer | backend/src/orchestrator/pipeline.ts:323-342 | `ScrapedPair`: when both scrapes fall back, the fighters are different demo entries |
| Pipeline.TickEvents | backend/src/orchestrator/pipeline.ts:137 | one commentary event per tick, with its progress |
| Pipeline.EvolvesTrans | backend/src/services/context.ts:79-258 | the store's "only appends to this session's logs" relation is transitive |
| Pipeline.EvolvesByUpdate | backend/src/services/context.ts:79-258 | an update that keeps the id and URLs and extends the logs is such a step |
| Pipeline.ForSessionConcat | backend/src/orchestrator/pipeline.ts:40-164 | events of one session stay so when joined |
| Pipeline.AdvancingOrdered | backend/src/orchestrator/pipeline.ts:67-149 | advancing events strictly increase in progress |
| Pipeline.AdvancingConcat | backend/src/orchestrator/pipeline.ts:67-149 | two advancing runs joined in order still advance |
| Pipeline.SuccessTrail | backend/src/orchestrator/pipeline.ts:67-149 | the status updates after scraping follow the success stages |
| Pipeline.StatusEntries | backend/src/services/context.ts:88-92 | one log entry per status update |
| Pipeline.StagesComplete | backend/src/orchestrator/pipeline.ts:67-149 | the store updates after scraping, one at a time, leave the session complete with both profiles, the commentary and the winner |
| Pipeline.StageParts | backend/src/orchestrator/pipeline.ts:67-122 | the stage broadcasts before the ticks start with "Processing warrior data..." |
| Pipeline.HeadEvents | backend/src/orchestrator/pipeline.ts:67-122 | the stage broadcasts from 40 up to 86 advance |
| Pipeline.StageEvents | backend/src/orchestrator/pipeline.ts:67-149 | with the ticks, the "ready" event and the completion, the broadcasts advance from 40 to 100 |
| Pipeline.StageBroadcasts | backend/src/orchestrator/pipeline.ts:67-149 | sixteen fixed events plus the ticks, advancing from the normalising event to the completion event |
| Pipeline.Overwrite | backend/src/services/context.ts:93 | storing a session twice keeps the second |
| Pipeline.StatusesBefore | backend/src/orchestrator/pipeline.ts:66-122 | one to three status changes precede a throw in normalising, scoring or the transformation |
| Pipeline.FailureTrail | backend/src/orchestrator/pipeline.ts:161-166 | the status changes of an interrupted duel end in the handler's `error` with "Battle interrupted: " and the message |
| Pipeline.FailureTrailFollowsSuccess | backend/src/orchestrator/pipeline.ts:66-166 | before the handler, an interrupted duel makes the first status changes of a completed one |
| Pipeline.BroadcastsBefore | backend/src/orchestrator/pipeline.ts:66-122 | one to eight stage broadcasts precede the throw |
| Pipeline.FailureBroadcasts | backend/src/orchestrator/pipeline.ts:161-166 | the broadcasts of an interrupted duel are for the session, advance from the normalising event, and end in two error events at 0: the handler's and its status update's |
| Pipeline.InterruptedTrail | backend/src/orchestrator/pipeline.ts:161-166 | the interrupted session keeps its id and URLs, extends its log, has status `error` and ends in the handler's entry |
| Pipeline.AfterStatusesSnoc | backend/src/services/context.ts:79-105 | one more status update applies after the earlier ones |
| Pipeline.DuelOrchestrator.constructor | backend/src/orchestrator/pipeline.ts:18-22 | no demo index is used yet |
| Pipeline.DuelOrchestrator.GenerateMockScrapedData | backend/src/orchestrator/pipeline.ts:323-342 | the probed index is marked used and its demo fighter returned |
| Pipeline.DuelOrchestrator.ScrapeProfileWithFallback | backend/src/orchestrator/pipeline.ts:176-270 | the scrape outcome and used set; the log lines; the "limited data" notice exactly for a LinkedIn result without identity |
| Pipeline.DuelOrchestrator.ScrapeStage | backend/src/orchestrator/pipeline.ts:42-64 | the pair of scrapes, fighter 1 first; the session only gains logs; all broadcasts are for the session |
| Pipeline.DuelOrchestrator.UpdateStatus | backend/src/orchestrator/pipeline.ts:417-426 | the session's status is updated and the same status broadcast |
| Pipeline.DuelOrchestrator.Judge | backend/src/orchestrator/pipeline.ts:69-142 | normalise, score, transform (each fighter with its own rolls), decide and narrate: the result is `Fight` of the two scraped profiles; the winner and its name follow the powers |
| Pipeline.DuelOrchestrator.RunStages | backend/src/orchestrator/pipeline.ts:67-160 | the session ends completed; the response; broadcasts advance from normalising at 40 to completion at 100 |
| Pipeline.DuelOrchestrator.Interrupt | backend/src/orchestrator/pipeline.ts:161-166 | when a stage throws: the session takes the status changes before the throw and the handler's `error`; the broadcasts are exactly the interrupted ones |
| Pipeline.DuelOrchestrator.InterruptStatuses | backend/src/orchestrator/pipeline.ts:161-166 | the store's side of the handler: the status changes before the throw, then `error`, with the handler's broadcast |
| Pipeline.DuelOrchestrator.StatusStep | backend/src/orchestrator/pipeline.ts:417-426 | one `updateStatus` extends a run of status changes on the session by one |
| Pipeline.DuelOrchestrator.Contest | backend/src/orchestrator/pipeline.ts:42-166 | a result exactly when no stage throws; then it is the duel of the two URLs (`IsDuelOf`: the verdict on their scraped pair), and the scrapes and the stages leave the session complete with the response, the winner follows the powers and the last broadcast is the completion; when a stage throws, the session ends in `error` with the handler's log entry last, the last broadcast is "Battle interrupted: " and the message at 0, and that message is the error |
| Pipeline.DuelOrchestrator.Conclude | backend/src/orchestrator/pipeline.ts:66-166 | the same, from the scraped pair on: a success returns `Verdict` of the two scraped profiles, that is `Fight`'s anime profiles, commentary, winner and name; when a stage throws, the session is exactly the one the status changes before the throw and the handler's leave |
| Pipeline.DuelOrchestrator.OpenSession | backend/src/orchestrator/pipeline.ts:28-40 | a given non-empty id is used, otherwise a new session is created; the first status update fails exactly for a given id with no session, and then changes nothing |
| Pipeline.DuelOrchestrator.RunDuel | backend/src/orchestrator/pipeline.ts:27-168 | an error exactly for a given id with no session (broadcast "Battle interrupted", store unchanged) or when a stage throws (the session then in `error`, as the status query returns it, progress 0); otherwise the duel of the two URLs (`IsDuelOf`: the verdict on their scraped pair), complete, as the store returns it, with the winner following the powers; broadcasts from 5 to completion; other sessions untouched |

## Left out

- Network, the LLM and the remote context client: Bright Data, ActionBook, the GitHub and Wikipedia APIs, OpenAI and the Acontext client are left out. Their outcomes are parameters (`Fetch`, `Result`, `NarratorReply`). The remote copies of the store's messages are not modelled, and storing profile data or normalised profiles leaves the local store unchanged. `buildPrompt` and `generateQuickLine` are left out because they only talk to the narrator.
- `scrapeProfile`, `triggerAsyncScrape`, `getAsyncResults` and `checkJobStatus` of the Bright Data client are left out: they only wrap HTTP calls. Their outcome is the `brightData` result.
- The health checks (`healthCheck` in every service and in the orchestrator) and `initialize` are left out: they only probe remote services.
- Concurrency: `Promise.all` is modelled as sequential, fighter 1 first, which is also the order of the demo-index probe. The ticker `setInterval` is modelled as a number of ticks (at most seven), given as a parameter, that fire before the commentary arrives. Interleaved broadcasts of the two scrapes are not modelled.
- Randomness and the clock: `Math.random` is a parameter (the demo start index, and the technique rolls of each fighter apart). `new Date()` is a parameter too: timestamps, the current year, and a function reading the year of `created_at`.
- `cleanWikiMarkup` regex chain: the template, link, reference and tag rewrites are one parameter `strip`. Only the whitespace collapse and the trim are modelled.
- Numbers: numbers are integers. Fractional JSON numbers and floating-point division are not modelled; the averages and shares are computed exactly in integers.
- `toLocaleString` is modelled as the plain decimal text of the number, with no digit grouping.
- JSON field types: a field of the wrong JSON type is read as absent, where the TypeScript casts would pass it through unchecked. Non-object array elements are read as empty objects. Non-string items in `languages`/`topics` are dropped.
- Strings: these are sequences of Unicode scalar values, not UTF-16 code units. Case mapping is ASCII only. `decodeURIComponent` rejects escapes that encode surrogates, as JavaScript does, but a lone surrogate in the input text is not modelled.
- The demo-data marker: a raw payload that itself carries a `__normalized` key is not cast to a profile. Only demo fighters are pre-normalised.
- `spouses`, `children` and `netWorth` of the Wikipedia normaliser are left out: they are read but never used.
- The attacker inference in `enforceAlternation` (the name and digit tests) is left out, because its result is always overwritten by the expected attacker. Only whether its `String(attacker)` conversion throws is modelled (`Commentary.RoundThrows`).
- Commentary.EnforceAlternationShape: `{...round}` of an array or string round copies its indices as keys; the model spreads only objects, so such a round keeps no other key.
- Pipeline.DuelOrchestrator.RunDuel, Contest, Conclude, Judge and ScrapeStage: the equations tying their results to `Fight`, `Verdict`, `ScrapedPair` and `DuelOf` are stated under a `forall` over equal arguments (through `IsDuelOf` for RunDuel and Contest), which says the same as the plain equation with the arguments themselves, in a form that keeps callers from unfolding the whole duel. The other ensures also state the properties that matter (winner, name, completion, logs) directly.
- Scraper.GitHubAchievements: only the total-stars line and the popular-project line are stated. The followers and public-repository lines are not.
- Scoring.ExperienceBandAgreesWithScore: stated on the label's band number rather than on the label strings.
- Scraper.NormalizeGitHub, Scraper.NormalizeWikipedia, Scraper.NormalizeLinkedIn and Pipeline.NormalizeGenericData: these state the shape of the profile (platform, bounds, key lists), not every field.
- Json.ParseNumber: texts whose value is fractional, `Infinity` and `-Infinity` are read as NaN, because the model's numbers are integers; floating-point rounding and overflow of long literals are not modelled.
- Scraper.EstimateGitHubExperience: an unparsable `created_at` makes the program's result NaN; the model's date parser always gives a year.
- Scoring.FindSkillTier and Scoring.GeneratedTechniquesNamed: `SKILL_TIERS[skill]` and `TECHNIQUE_NAMES[skillLower]` are plain-object lookups, so keys inherited from `Object.prototype` (such as `constructor` or `__proto__`) are found there and yield an inherited value instead of a tier or a name; the model reads them as absent.
- Pipeline.DuelOrchestrator.RunDuel, Contest and Conclude: whether a stage throws is an input (`thrown`), not derived from the payloads. The program throws, for instance, when a generic profile has no `role` (`scoring.ts:253` and `:309` call `toLowerCase` on it) or a skill is not a string; the model's normalisers read missing fields as defaults. A throw while scraping, or from the commentary stage, is not modelled: the scrape and the narrator have their own fallbacks.
- Pipeline.SourcesOf: states only the GitHub part. The Wikipedia part is stated on Automation.ScrapeWikipediaProfile.
