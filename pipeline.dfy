/// The duel orchestrator (backend/src/orchestrator/pipeline.ts): the
/// per-platform scrape with its fallback to a three-entry synthetic catalog,
/// the normalisation dispatch, the fixed stage sequence of a duel with its
/// progress values, the commentary ticker and the status lookups. The network
/// is a set of fetch outcomes handed in; randomness is a start index handed in.
module Pipeline {
  import opened Wrappers
  import opened Strings
  import opened Json
  import opened Types
  import Scraper
  import Automation
  import Scoring
  import Commentary
  import opened Context

  // ---------------------------------------------------------------------------
  // The synthetic catalog

  function MockProject(name: string, description: string, stars: int, forks: int): Project {
    Project(name, description, None, None, Some(stars), Some(forks))
  }

  function MockEducation(institution: string, degree: string, field: string): Education {
    Education(institution, Some(degree), Some(field), None)
  }

  /** The three demo fighters of `getMockProfiles`, in catalog order. */
  const MockProfiles: seq<ProfileData> := [
    ProfileData(
      "Alex Chen", "Senior Software Engineer", None, None,
      ["TypeScript", "React", "Node.js", "AWS", "PostgreSQL", "Docker", "Kubernetes"],
      8, ["Tech Lead", "Mentor"],
      [MockProject("CloudScale", "Distributed microservices platform", 450, 89),
       MockProject("ReactFlow", "Advanced state management library", 1200, 230)],
      ["AWS Certified Solutions Architect", "Google Cloud Professional"],
      ActivityMetrics(Some(2500), Some(890), Some(1200), None, Some(45), None, None, None, None),
      ["AWS Solutions Architect", "Kubernetes Administrator"],
      [Company("TechCorp", "Senior Engineer", None, true), Company("StartupXYZ", "Full Stack Developer", None, false)],
      [MockEducation("MIT", "BS", "Computer Science")],
      Some("Passionate about building scalable systems"), "", LinkedIn),
    ProfileData(
      "Sarah Kim", "Staff Engineer", None, None,
      ["Python", "Machine Learning", "TensorFlow", "PyTorch", "Rust", "Go", "System Design"],
      12, ["Staff Engineer", "Architecture Lead", "Team Lead"],
      [MockProject("MLPipeline", "End-to-end ML infrastructure", 3400, 567),
       MockProject("FastPredict", "Real-time inference engine", 890, 145)],
      ["Patent holder", "Conference Speaker", "Open Source Maintainer"],
      ActivityMetrics(Some(5000), Some(2100), Some(5600), None, Some(78), None, None, None, None),
      ["Google ML Engineer", "Deep Learning Specialization"],
      [Company("Google", "Staff Engineer", None, true), Company("Meta", "Senior Engineer", None, false)],
      [MockEducation("Stanford", "PhD", "Machine Learning")],
      Some("Building the future of AI infrastructure"), "", LinkedIn),
    ProfileData(
      "Marcus Johnson", "Engineering Manager", None, None,
      ["Java", "Spring Boot", "Microservices", "Leadership", "Architecture", "DevOps"],
      15, ["Engineering Manager", "Director", "VP Engineering"],
      [MockProject("EnterpriseCore", "Enterprise integration platform", 780, 234)],
      ["Built teams from 5 to 50 engineers", "IPO experience"],
      ActivityMetrics(Some(1200), None, Some(3400), None, None, None, None, None, Some(8900)),
      ["PMP", "Agile Coach"],
      [Company("Stripe", "Engineering Manager", None, true), Company("Amazon", "Senior Manager", None, false)],
      [MockEducation("Berkeley", "MS", "Computer Science")],
      Some("Building high-performing engineering teams"), "", LinkedIn)
  ]

  /**
   * The mock result for `url` built from catalog entry `index`: the entry with
   * its source URL and detected platform overwritten, marked as already
   * normalised.
   */
  function MockScrapedData(url: string, index: nat, now: int): (d: ScrapedData)
    requires index < |MockProfiles|
    ensures d.url == url && d.scrapedAt == now && d.json.Prenormalized?
    ensures d.json.profile.sourceUrl == url && d.json.profile.sourceType == Scraper.DetectPlatform(url)
    ensures d.json.profile.(sourceUrl := "", sourceType := LinkedIn) == MockProfiles[index]
  {
    ScrapedData(Prenormalized(MockProfiles[index].(sourceUrl := url, sourceType := Scraper.DetectPlatform(url))), url, now)
  }

  /** The three catalog entries are different fighters. */
  lemma MockProfilesDistinct()
    ensures |MockProfiles| == 3
    ensures forall i, j :: 0 <= i < j < |MockProfiles| ==> MockProfiles[i].name != MockProfiles[j].name
  {
  }

  // ---------------------------------------------------------------------------
  // Choosing a catalog entry

  /**
   * The index the probe loop settles on from `start`: `start` itself when it is
   * free or every entry is taken, else the next free one round the catalog.
   */
  function ProbeIndex(used: set<nat>, start: nat): (i: nat)
    requires start < 3
    ensures i < 3
    ensures |used| >= 3 || start !in used ==> i == start
    ensures |used| < 3 && used <= {0, 1, 2} ==> i !in used
  {
    if |used| >= 3 || start !in used then start
    else if (start + 1) % 3 !in used then (start + 1) % 3
    else
      AllThreeTaken(used, start);
      (start + 2) % 3
  }

  /** Three consecutive probes that all hit taken entries cover the whole catalog. */
  lemma AllThreeTaken(used: set<nat>, start: nat)
    requires start < 3
    requires start in used && (start + 1) % 3 in used
    ensures used <= {0, 1, 2} && |used| < 3 ==> (start + 2) % 3 !in used
  {
    if used <= {0, 1, 2} && (start + 2) % 3 in used {
      assert 0 in used && 1 in used && 2 in used;
      assert used == {0, 1, 2};
      assert |{0, 1, 2}| == 3;
    }
  }

  /** Within one duel the set starts empty, so the second fighter never gets the first one's entry. */
  lemma FightersGetDistinctEntries(start1: nat, start2: nat)
    requires start1 < 3 && start2 < 3
    ensures var first := ProbeIndex({}, start1); ProbeIndex({first}, start2) != first
  {
    var first := ProbeIndex({}, start1);
    assert |{first}| == 1;
  }

  // ---------------------------------------------------------------------------
  // Normalisation

  /** `(v as number) || fallback` for a field expected to hold a number. */
  function NumberOr(v: Value, fallback: int): (r: int)
    ensures v.Num? && v.n != 0 ==> r == v.n
    ensures !(v.Num? && v.n != 0) ==> r == fallback
  {
    if v.Num? && v.n != 0 then v.n else fallback
  }

  function ProjectOfValue(v: Value): Project {
    var o := FieldsOf(v);
    Project(TextOr(Get(o, "name"), ""), TextOr(Get(o, "description"), ""),
            if Get(o, "technologies").Arr? then Some(Scraper.StrItems(Get(o, "technologies"))) else None,
            OptText(Get(o, "url")), OptNum(Get(o, "stars")), OptNum(Get(o, "forks")))
  }

  function CompanyOfValue(v: Value): Company {
    var o := FieldsOf(v);
    Company(TextOr(Get(o, "name"), ""), TextOr(Get(o, "role"), ""), OptText(Get(o, "duration")), Truthy(Get(o, "current")))
  }

  function EducationOfValue(v: Value): Education {
    var o := FieldsOf(v);
    Education(TextOr(Get(o, "institution"), ""), OptText(Get(o, "degree")), OptText(Get(o, "field")), OptNum(Get(o, "year")))
  }

  function MetricsOfValue(v: Value): ActivityMetrics {
    var o := FieldsOf(v);
    ActivityMetrics(OptNum(Get(o, "commits")), OptNum(Get(o, "contributions")), OptNum(Get(o, "followers")),
                    OptNum(Get(o, "following")), OptNum(Get(o, "repositories")), OptNum(Get(o, "pullRequests")),
                    OptNum(Get(o, "issues")), OptNum(Get(o, "posts")), OptNum(Get(o, "connections")))
  }

  /** The entries of a list field, converted one by one; no list gives no entries. */
  function ListOf<T>(v: Value, convert: Value -> T): (r: seq<T>)
    ensures !v.Arr? ==> r == []
    ensures v.Arr? ==> |r| == |v.items| && forall i :: 0 <= i < |r| ==> r[i] == convert(v.items[i])
  {
    var items := ItemsOf(v);
    seq(|items|, i requires 0 <= i < |items| => convert(items[i]))
  }

  /** `normalizeGenericData`: the payload read as a profile, every missing part defaulted. */
  function NormalizeGenericData(data: Record, url: string): (p: ProfileData)
    ensures p.sourceType == Unknown && p.sourceUrl == url
    ensures p.name == TextOr(Get(data, "name"), TextOr(Get(data, "title"), "Unknown Warrior")) && p.name != ""
    ensures p.title == TextOr(Get(data, "title"), TextOr(Get(data, "role"), "Developer")) && p.title != ""
    ensures p.yearsExperience == NumberOr(Get(data, "years_experience"), NumberOr(Get(data, "experience"), 0))
    ensures !Get(data, "skills").Arr? ==> p.skills == []
    ensures !Get(data, "leadership_roles").Arr? ==> p.leadershipRoles == []
    ensures !Get(data, "projects").Arr? ==> p.projects == []
    ensures !Get(data, "achievements").Arr? ==> p.achievements == []
    ensures !Get(data, "certifications").Arr? ==> p.certifications == []
    ensures !Get(data, "companies").Arr? ==> p.companies == []
    ensures !Get(data, "education").Arr? ==> p.education == []
  {
    ProfileData(
      TextOr(Get(data, "name"), TextOr(Get(data, "title"), "Unknown Warrior")),
      TextOr(Get(data, "title"), TextOr(Get(data, "role"), "Developer")),
      OptText(Get(data, "avatar")),
      OptText(Get(data, "location")),
      Scraper.StrItems(Get(data, "skills")),
      NumberOr(Get(data, "years_experience"), NumberOr(Get(data, "experience"), 0)),
      Scraper.StrItems(Get(data, "leadership_roles")),
      ListOf(Get(data, "projects"), ProjectOfValue),
      Scraper.StrItems(Get(data, "achievements")),
      MetricsOfValue(Get(data, "activity_metrics")),
      Scraper.StrItems(Get(data, "certifications")),
      ListOf(Get(data, "companies"), CompanyOfValue),
      ListOf(Get(data, "education"), EducationOfValue),
      OptText(Get(data, "summary")),
      url,
      Unknown)
  }

  /** What normalisation needs besides the payload: the clock's year and a date reader. */
  datatype Clock = Clock(currentYear: int, yearOf: string -> int)

  /** `normalizeProfile`: a catalog entry passes through; a raw payload goes to its platform's normaliser. */
  function NormalizeProfile(scraped: ScrapedData, clock: Clock): (p: ProfileData)
    ensures scraped.json.Prenormalized? ==> p == scraped.json.profile
    ensures scraped.json.Raw? ==>
      p.sourceType == (match Scraper.DetectPlatform(scraped.url)
                       case LinkedIn => LinkedIn
                       case GitHub => GitHub
                       case Wikipedia => Wikipedia
                       case _ => Unknown)
    ensures scraped.json.Raw? && Scraper.DetectPlatform(scraped.url) in {Portfolio, Unknown} ==> p.sourceUrl == scraped.url
  {
    match scraped.json
    case Prenormalized(profile) => profile
    case Raw(data) =>
      match Scraper.DetectPlatform(scraped.url)
      case LinkedIn => Scraper.NormalizeLinkedIn(data)
      case GitHub => Scraper.NormalizeGitHub(data, clock.currentYear, clock.yearOf)
      case Wikipedia => Scraper.NormalizeWikipedia(data, clock.currentYear)
      case _ => NormalizeGenericData(data, scraped.url)
  }

  /** A demo fighter comes out of normalisation as the catalog entry, carrying the URL it stands in for. */
  lemma MockPassesThrough(url: string, index: nat, now: int, clock: Clock)
    requires index < |MockProfiles|
    ensures var p := NormalizeProfile(MockScrapedData(url, index, now), clock);
      p == MockProfiles[index].(sourceUrl := url, sourceType := Scraper.DetectPlatform(url))
      && p.sourceUrl == url && p.name == MockProfiles[index].name
  {
  }

  // ---------------------------------------------------------------------------
  // The commentary ticker

  const TickMessages: seq<string> := [
    "Crafting savage roasts...", "Analyzing weak points...", "Loading comeback arsenal...",
    "Sharpening insults...", "Polishing the burns..."]

  /** The ticks that broadcast after `ticks` timer firings: at most seven, progress 88, 89, ... */
  function TickerBroadcasts(ticks: nat): (r: seq<(string, int)>)
    ensures |r| == if ticks < 7 then ticks else 7
    ensures forall i :: 0 <= i < |r| ==> 88 <= r[i].1 <= 94 && r[i].1 == 88 + i
    ensures forall i :: 0 <= i < |r| ==> r[i].0 == TickMessages[i % |TickMessages|]
  {
    var n := if ticks < 7 then ticks else 7;
    seq(n, i requires 0 <= i < n => (TickMessages[i % |TickMessages|], 88 + i))
  }

  /** The progress values of the ticks strictly increase, so no tick ever repeats or goes back. */
  lemma TickerIncreasing(ticks: nat, i: nat, j: nat)
    requires i < j < |TickerBroadcasts(ticks)|
    ensures TickerBroadcasts(ticks)[i].1 < TickerBroadcasts(ticks)[j].1
  {
  }

  /** The interval callback run `ticks` times: each firing below 94 bumps the counter and broadcasts. */
  method RunTicker(ticks: nat) returns (broadcasts: seq<(string, int)>)
    ensures broadcasts == TickerBroadcasts(ticks)
  {
    var tickIndex := 0;
    var tickProgress := 87;
    broadcasts := [];
    for t := 0 to ticks
      invariant tickProgress == 87 + tickIndex && tickIndex == |broadcasts|
      invariant tickIndex == if t < 7 then t else 7
      invariant broadcasts == TickerBroadcasts(t)
    {
      if tickProgress < 94 {
        tickProgress := tickProgress + 1;
        broadcasts := broadcasts + [(TickMessages[tickIndex % |TickMessages|], tickProgress)];
        tickIndex := tickIndex + 1;
      }
    }
  }

  // ---------------------------------------------------------------------------
  // Status lookups

  /** The progress `getDuelStatus` reports for each status. */
  function ProgressOf(status: DuelStatus): (r: int)
    ensures 0 <= r <= 100
    ensures r == 100 <==> status == Complete
    ensures r == 0 <==> status in {Pending, Error}
  {
    match status
    case Pending => 0
    case Scraping => 20
    case Normalizing => 40
    case Scoring => 55
    case Transforming => 70
    case GeneratingCommentary => 85
    case Complete => 100
    case Error => 0
  }

  /** The success path's statuses, in the order a duel passes through them, with the progress each one broadcasts. */
  const SuccessStages: seq<(DuelStatus, int)> := [
    (Scraping, 5), (Normalizing, 40), (Scoring, 55), (Transforming, 70), (GeneratingCommentary, 82), (Complete, 100)]

  /** Both the broadcast progress and the progress the status lookup reports strictly increase along the stages. */
  lemma StagesAdvance(i: nat, j: nat)
    requires i < j < |SuccessStages|
    ensures SuccessStages[i].1 < SuccessStages[j].1
    ensures ProgressOf(SuccessStages[i].0) < ProgressOf(SuccessStages[j].0)
  {
  }

  datatype StatusReport = StatusReport(status: DuelStatus, progress: int, logs: seq<ProcessingLog>)

  /** `getDuelStatus`: throws for an unknown id, else the status, its progress and the log. */
  function GetDuelStatus(store: SessionStore, sessionId: string): (r: Result<StatusReport>)
    reads store
    ensures sessionId !in store.sessions <==> r.Err?
    ensures r.Err? ==> r.error == NotFound(sessionId)
    ensures r.Ok? ==> var s := store.sessions[sessionId];
      r.value.status == s.status && r.value.progress == ProgressOf(s.status) && r.value.logs == s.processingLogs
  {
    match store.GetDuelSession(sessionId)
    case None => Err(NotFound(sessionId))
    case Some(s) => Ok(StatusReport(s.status, ProgressOf(s.status), s.processingLogs))
  }

  /** The response a session stands for. */
  function ResponseOf(s: DuelSession): DuelResponse {
    DuelResponse(s.id, s.status, s.profile1, s.profile2, s.commentary, s.winner, s.winnerName)
  }

  /** `getDuelResult`: none for an unknown id, else the session's id, status and stored results. */
  function GetDuelResult(store: SessionStore, sessionId: string): (r: Option<DuelResponse>)
    reads store
    ensures r.None? <==> sessionId !in store.sessions
    ensures r.Some? ==> r.value == ResponseOf(store.sessions[sessionId])
  {
    match store.GetDuelSession(sessionId)
    case None => None
    case Some(s) => Some(ResponseOf(s))
  }

  // ---------------------------------------------------------------------------
  // Acquisition with fallback

  /**
   * What each wrapper's scrape yields for one profile URL: Bright Data's result
   * (used for LinkedIn and for everything else), the GitHub scrape and the
   * Wikipedia scrape. `Err` is the error the wrapper catches.
   */
  datatype Sources = Sources(brightData: Result<ScrapedData>, github: Result<ScrapedData>, wikipedia: Result<ScrapedData>)

  /** The sources built from the raw fetch outcomes: the two browser/REST scrapes run as the acquisition layer runs them. */
  function SourcesOf(url: string, brightData: Result<ScrapedData>,
                     githubDom: Automation.Fetch<Record>, githubApi: Automation.Fetch<Record>, githubRepos: Automation.Fetch<seq<Value>>,
                     wikiSummary: Automation.Fetch<Value>, wikiText: Automation.Fetch<Value>, wikiDom: Automation.Fetch<Record>,
                     strip: string -> string, now: int): (src: Sources)
    ensures src.github.Ok? ==> src.github.value.url == url && src.github.value.json.Raw?
    ensures Automation.ExtractGitHubUsername(url) == "" ==> src.github.Err?
  {
    Sources(brightData,
            Automation.ScrapeGitHubProfile(url, githubDom, githubApi, githubRepos, now),
            Automation.ScrapeWikipediaProfile(url, wikiSummary, wikiText, wikiDom, strip, now))
  }

  /** The scrape the platform's wrapper attempts before any fallback. */
  function Attempt(url: string, src: Sources): (r: Result<ScrapedData>)
    ensures Scraper.DetectPlatform(url) == GitHub ==> r == src.github
    ensures Scraper.DetectPlatform(url) == Wikipedia ==> r == src.wikipedia
    ensures Scraper.DetectPlatform(url) !in {GitHub, Wikipedia} ==> r == src.brightData
  {
    match Scraper.DetectPlatform(url)
    case GitHub => src.github
    case Wikipedia => src.wikipedia
    case _ => src.brightData
  }

  /** The log line a wrapper writes before it scrapes. */
  function StartMessage(platform: Platform, profileNum: int): string {
    var n := IntToString(profileNum);
    match platform
    case LinkedIn => "[Bright Data] Scraping LinkedIn profile " + n + "..."
    case GitHub => "[ActionBook] Scraping GitHub profile " + n + "..."
    case Wikipedia => "[ActionBook] Scraping Wikipedia article for profile " + n + "..."
    case _ => "[Bright Data] Scraping profile " + n + "..."
  }

  /** The log line a wrapper writes when it falls back to demo data. */
  function FailureMessage(platform: Platform, url: string, error: string): string {
    match platform
    case LinkedIn => "[Bright Data] Failed: " + error + " — using demo data"
    case GitHub => "[ActionBook] Failed: " + error + " — using demo data"
    case Wikipedia => "[ActionBook] Failed: " + error + " — using demo data"
    case _ => "Using demo data for " + url
  }

  /** The log lines of one wrapper run: the start line, and the fallback line when the attempt failed. */
  function ScrapeLog(url: string, profileNum: int, attempt: Result<ScrapedData>): (r: seq<string>)
    ensures |r| == if attempt.Err? then 2 else 1
  {
    var platform := Scraper.DetectPlatform(url);
    [StartMessage(platform, profileNum)] + (if attempt.Err? then [FailureMessage(platform, url, attempt.error)] else [])
  }

  /** The store after `addLog`: one entry appended to the session, or nothing for a missing one. */
  function AddLogged(sessions: map<string, DuelSession>, sessionId: string, entry: ProcessingLog): map<string, DuelSession> {
    if sessionId in sessions then sessions[sessionId := Logged(sessions[sessionId], entry)] else sessions
  }

  /** The store after one `addLog` per message, in order. */
  function AllLogged(sessions: map<string, DuelSession>, sessionId: string, stage: DuelStatus, messages: seq<string>, now: int): map<string, DuelSession>
    decreases |messages|
  {
    if messages == [] then sessions
    else AllLogged(AddLogged(sessions, sessionId, Entry(now, stage, messages[0], None)), sessionId, stage, messages[1..], now)
  }

  /** Logging leaves the set of sessions, every other session and the logged session's other fields alone, and only appends. */
  lemma {:induction false} AllLoggedAppends(sessions: map<string, DuelSession>, sessionId: string, stage: DuelStatus, messages: seq<string>, now: int)
    requires KeyedById(sessions)
    ensures var r := AllLogged(sessions, sessionId, stage, messages, now);
      KeyedById(r) && r.Keys == sessions.Keys
      && (forall k :: k in sessions && k != sessionId ==> r[k] == sessions[k])
      && (sessionId in sessions ==>
            r[sessionId].(processingLogs := sessions[sessionId].processingLogs) == sessions[sessionId]
            && |r[sessionId].processingLogs| == |sessions[sessionId].processingLogs| + |messages|
            && r[sessionId].processingLogs[..|sessions[sessionId].processingLogs|] == sessions[sessionId].processingLogs)
    decreases |messages|
  {
    if messages != [] {
      var next := AddLogged(sessions, sessionId, Entry(now, stage, messages[0], None));
      AllLoggedAppends(next, sessionId, stage, messages[1..], now);
      if sessionId in sessions {
        var n := |sessions[sessionId].processingLogs|;
        var r := AllLogged(sessions, sessionId, stage, messages, now);
        assert r[sessionId].processingLogs[..n] == r[sessionId].processingLogs[..n + 1][..n];
      }
    }
  }

  /** A payload that names its owner: LinkedIn's identity check. */
  predicate HasIdentity(json: Payload) {
    match json
    case Raw(f) =>
      Truthy(Get(f, "name")) || Truthy(Get(f, "full_name")) || Truthy(Get(f, "first_name"))
      || Truthy(Get(f, "about")) || Truthy(Get(f, "position"))
    case Prenormalized(p) => p.name != ""
  }

  /** The notice broadcast for a LinkedIn result without identity fields. */
  function LimitedNotice(sessionId: string, profileNum: int, now: int): ProgressEvent {
    ProgressEvent(sessionId, Scraping, "Profile " + IntToString(profileNum) + ": Limited public data — enriching with available info", 0, now, None)
  }

  /** The scraped data a wrapper run delivers and the used set after it. */
  function ScrapeOutcome(url: string, src: Sources, used: set<nat>, start: nat, now: int): (r: (ScrapedData, set<nat>))
    requires start < 3
    ensures Attempt(url, src).Ok? ==> r == (Attempt(url, src).value, used)
    ensures Attempt(url, src).Err? ==>
      r.0.json.Prenormalized? && r.0.url == url && r.1 == used + {ProbeIndex(used, start)}
  {
    var a := Attempt(url, src);
    if a.Ok? then (a.value, used)
    else
      var index := ProbeIndex(used, start);
      (MockScrapedData(url, index, now), used + {index})
  }

  /** A LinkedIn scrape that succeeds is used as it is, identity fields or not. */
  lemma LinkedInResultKept(url: string, src: Sources, used: set<nat>, start: nat, now: int)
    requires start < 3 && Scraper.DetectPlatform(url) == LinkedIn && src.brightData.Ok?
    ensures ScrapeOutcome(url, src, used, start, now).0 == src.brightData.value
  {
  }

  // ---------------------------------------------------------------------------
  // The pure part of a duel

  /** `winnerName`: 'Draw' for a draw, else the winning fighter's name. */
  function WinnerName(winner: Winner, anime1: AnimeProfile, anime2: AnimeProfile): string {
    match winner
    case Draw => "Draw"
    case Profile1 => anime1.profile.name
    case Profile2 => anime2.profile.name
  }

  /** The winner's name belongs to the higher-powered fighter, unless the powers are within 5 of each other. */
  lemma WinnerNameFollowsPower(anime1: AnimeProfile, anime2: AnimeProfile)
    ensures var name := WinnerName(Scoring.DetermineWinner(anime1, anime2).0, anime1, anime2);
      (anime1.totalPower > anime2.totalPower + 5 ==> name == anime1.profile.name)
      && (anime2.totalPower > anime1.totalPower + 5 ==> name == anime2.profile.name)
      && (Scoring.Abs(anime1.totalPower - anime2.totalPower) <= 5 ==> name == "Draw")
  {
  }

  /**
   * Everything a duel reads from outside: network outcomes, random picks, the
   * clock and the narrator. Each fighter's anime transformation draws its own
   * technique rolls (`rolls1`, `rolls2`).
   */
  datatype DuelEnv = DuelEnv(
    sources1: Sources, sources2: Sources, start1: nat, start2: nat,
    clock: Clock, rolls1: nat -> nat, rolls2: nat -> nat,
    hasClient: bool, reply: Commentary.NarratorReply, ticks: nat, now: int,
    thrown: Option<Thrown>)

  datatype Fighters = Fighters(
    profile1: ProfileData, profile2: ProfileData, anime1: AnimeProfile, anime2: AnimeProfile,
    winner: Winner, winnerName: string, commentary: Record)

  /** Normalisation, scoring, the anime form, the verdict and the commentary of two scraped profiles. */
  function Fight(scraped1: ScrapedData, scraped2: ScrapedData, env: DuelEnv): (f: Fighters)
    ensures f.anime1.profile == f.profile1 && f.anime2.profile == f.profile2
    ensures f.winner == Scoring.DetermineWinner(f.anime1, f.anime2).0
    ensures f.winnerName == WinnerName(f.winner, f.anime1, f.anime2)
  {
    var p1 := NormalizeProfile(scraped1, env.clock);
    var p2 := NormalizeProfile(scraped2, env.clock);
    var a1 := Scoring.TransformToAnime(Scoring.DefaultWeights, p1, Scoring.Stats(p1), env.rolls1);
    var a2 := Scoring.TransformToAnime(Scoring.DefaultWeights, p2, Scoring.Stats(p2), env.rolls2);
    var winner := Scoring.DetermineWinner(a1, a2).0;
    Fighters(p1, p2, a1, a2, winner, WinnerName(winner, a1, a2), Commentary.GenerateCommentary(env.hasClient, env.reply, a1, a2, winner))
  }

  /** The response of a duel completed on two scraped profiles: their fight, as `runDuel` returns it. */
  function Verdict(sid: string, scraped1: ScrapedData, scraped2: ScrapedData, env: DuelEnv): DuelResponse {
    var f := Fight(scraped1, scraped2, env);
    DuelResponse(sid, Complete, Some(f.anime1), Some(f.anime2), Some(f.commentary), Some(f.winner), Some(f.winnerName))
  }

  /** The response of a duel completed on two URLs: the verdict on their scraped pair. */
  function DuelOf(sid: string, url1: string, url2: string, env: DuelEnv): DuelResponse
    requires env.start1 < 3 && env.start2 < 3
  {
    var pair := ScrapedPair(url1, url2, env);
    Verdict(sid, pair.0, pair.1, env)
  }

  /**
   * `response` is the duel of the two URLs. The equation is stated over equal
   * arguments, so that a caller holding it does not unfold the whole duel.
   */
  ghost predicate IsDuelOf(response: DuelResponse, sid: string, url1: string, url2: string, env: DuelEnv)
    requires env.start1 < 3 && env.start2 < 3
  {
    forall u1, u2 :: u1 == url1 && u2 == url2 ==> response == DuelOf(sid, u1, u2, env)
  }

  /** The scraped pair of a duel: fighter 1 first, then fighter 2 with the entries fighter 1 took. */
  function ScrapedPair(url1: string, url2: string, env: DuelEnv): (ScrapedData, ScrapedData)
    requires env.start1 < 3 && env.start2 < 3
  {
    var first := ScrapeOutcome(url1, env.sources1, {}, env.start1, env.now);
    var second := ScrapeOutcome(url2, env.sources2, first.1, env.start2, env.now);
    (first.0, second.0)
  }

  /** When both scrapes fall back, the two fighters are different catalog entries. */
  lemma FallbackFightersDiffer(url1: string, url2: string, env: DuelEnv)
    requires env.start1 < 3 && env.start2 < 3
    requires Attempt(url1, env.sources1).Err? && Attempt(url2, env.sources2).Err?
    ensures var pair := ScrapedPair(url1, url2, env);
      pair.0.json.profile.name != pair.1.json.profile.name
  {
    var first := ProbeIndex({}, env.start1);
    FightersGetDistinctEntries(env.start1, env.start2);
    var second := ProbeIndex({first}, env.start2);
    MockProfilesDistinct();
    assert ScrapedPair(url1, url2, env).0 == MockScrapedData(url1, first, env.now);
    assert ScrapedPair(url1, url2, env).1 == MockScrapedData(url2, second, env.now);
  }

  /** The session id a duel runs under: the one given, when it is non-empty, else the fresh one. */
  function SessionIdOf(existingSessionId: Option<string>, freshId: string): string {
    if existingSessionId.Some? && existingSessionId.value != "" then existingSessionId.value else freshId
  }

  function ToolName(p: Platform): string {
    match p
    case LinkedIn => "Bright Data"
    case GitHub => "ActionBook"
    case Wikipedia => "ActionBook"
    case _ => "Bright Data"
  }

  function Event(sessionId: string, stage: DuelStatus, message: string, progress: int, now: int): ProgressEvent {
    ProgressEvent(sessionId, stage, message, progress, now, None)
  }

  /** The broadcast naming a normalised fighter, with its number, name and avatar (stage, message and data). */
  function Identified(fighter: int, p: ProfileData): (DuelStatus, string, Option<Record>) {
    (Normalizing, "Identified: " + p.name + " — " + p.title,
     Some(map["fighter" := Num(fighter), "name" := Str(p.name), "avatar" := if p.avatar.Some? then Str(p.avatar.value) else Null]))
  }

  function AwakensMessage(a: AnimeProfile): string {
    a.profile.name + " awakens as " + ArchetypeName(a.archetype) + " (Power: " + IntToString(a.totalPower) + ")"
  }

  function CompletionMessage(winner: Winner, winnerName: string): string {
    "BATTLE COMPLETE! " + winnerName + " " + (if winner == Draw then "is declared" else "emerges victorious") + "!"
  }

  function TickEvents(sessionId: string, ticks: seq<(string, int)>, now: int): (r: seq<ProgressEvent>)
    ensures |r| == |ticks|
    ensures forall i :: 0 <= i < |r| ==> r[i].progress == ticks[i].1 && r[i].stage == GeneratingCommentary && r[i].sessionId == sessionId
  {
    seq(|ticks|, i requires 0 <= i < |ticks| => Event(sessionId, GeneratingCommentary, ticks[i].0, ticks[i].1, now))
  }

  /**
   * How the store may change while a duel runs under `sid`: the same sessions,
   * every other one untouched, and the duel's own session keeps its id and URLs
   * and only appends to its log.
   */
  ghost predicate Evolves(before: map<string, DuelSession>, after: map<string, DuelSession>, sid: string) {
    after.Keys == before.Keys
    && (forall k :: k in before && k != sid ==> after[k] == before[k])
    && (sid in before ==>
          after[sid].id == before[sid].id && after[sid].url1 == before[sid].url1 && after[sid].url2 == before[sid].url2
          && before[sid].processingLogs <= after[sid].processingLogs)
  }

  lemma EvolvesTrans(a: map<string, DuelSession>, b: map<string, DuelSession>, c: map<string, DuelSession>, sid: string)
    requires Evolves(a, b, sid) && Evolves(b, c, sid)
    ensures Evolves(a, c, sid)
  {
    if sid in a {
      var x, y, z := a[sid].processingLogs, b[sid].processingLogs, c[sid].processingLogs;
      assert z[..|x|] == z[..|y|][..|x|];
    }
  }

  /** Replacing the duel's session by one with the same id and URLs and a longer log is an evolution. */
  lemma EvolvesByUpdate(sessions: map<string, DuelSession>, sid: string, s: DuelSession)
    requires sid in sessions
    requires s.id == sessions[sid].id && s.url1 == sessions[sid].url1 && s.url2 == sessions[sid].url2
    requires sessions[sid].processingLogs <= s.processingLogs
    ensures Evolves(sessions, sessions[sid := s], sid)
  {
  }

  /** Broadcasts that all go to the duel's channel with a progress in 0..100. */
  predicate ForSession(events: seq<ProgressEvent>, sid: string) {
    forall i :: 0 <= i < |events| ==> events[i].sessionId == sid && 0 <= events[i].progress <= 100
  }

  lemma ForSessionConcat(a: seq<ProgressEvent>, b: seq<ProgressEvent>, sid: string)
    requires ForSession(a, sid) && ForSession(b, sid)
    ensures ForSession(a + b, sid)
  {
    forall i | 0 <= i < |a + b|
      ensures (a + b)[i].sessionId == sid && 0 <= (a + b)[i].progress <= 100
    {
      if i >= |a| {
        assert (a + b)[i] == b[i - |a|];
      }
    }
  }

  /** Broadcasts whose progress goes up at every step. */
  predicate Advancing(events: seq<ProgressEvent>) {
    forall i :: 0 < i < |events| ==> events[i - 1].progress < events[i].progress
  }

  /** Progress that goes up at every step goes up between any two broadcasts. */
  lemma {:induction false} AdvancingOrdered(events: seq<ProgressEvent>, i: nat, j: nat)
    requires Advancing(events) && i < j < |events|
    ensures events[i].progress < events[j].progress
    decreases j - i
  {
    if i + 1 < j {
      AdvancingOrdered(events, i + 1, j);
    }
  }

  lemma AdvancingConcat(a: seq<ProgressEvent>, b: seq<ProgressEvent>)
    requires Advancing(a) && Advancing(b)
    requires |a| > 0 && |b| > 0 ==> a[|a| - 1].progress < b[0].progress
    ensures Advancing(a + b)
  {
    forall i | 0 < i < |a + b|
      ensures (a + b)[i - 1].progress < (a + b)[i].progress
    {
      if i > |a| {
        assert (a + b)[i - 1] == b[i - 1 - |a|] && (a + b)[i] == b[i - |a|];
      } else if i == |a| {
        assert (a + b)[i] == b[0];
      }
    }
  }

  /** The status changes of a duel after scraping, each with the message it logs. */
  function SuccessTrail(winner: Winner, winnerName: string): (r: seq<(DuelStatus, string)>)
    ensures |r| == |SuccessStages| - 1
    ensures forall i :: 0 <= i < |r| ==> r[i].0 == SuccessStages[i + 1].0
  {
    [(Normalizing, "Processing warrior data..."), (Scoring, "Calculating power levels..."),
     (Transforming, "Awakening warrior spirits..."),
     (GeneratingCommentary, "The announcer prepares the battle narrative..."),
     (Complete, CompletionMessage(winner, winnerName))]
  }

  /** The log entries a run of status changes appends. */
  function StatusEntries(steps: seq<(DuelStatus, string)>, now: int): (r: seq<ProcessingLog>)
    ensures |r| == |steps|
    ensures forall i :: 0 <= i < |r| ==> r[i] == Entry(now, steps[i].0, steps[i].1, None)
  {
    seq(|steps|, i requires 0 <= i < |steps| => Entry(now, steps[i].0, steps[i].1, None))
  }

  /**
   * The duel's session once the stages after scraping are through: complete,
   * holding both fighters, the commentary and the verdict, with one log entry per
   * status change appended.
   */
  function Completed(s: DuelSession, f: Fighters, now: int): DuelSession {
    s.(status := Complete, profile1 := Some(f.anime1), profile2 := Some(f.anime2),
       commentary := Some(f.commentary), winner := Some(f.winner), winnerName := Some(f.winnerName),
       processingLogs := s.processingLogs + StatusEntries(SuccessTrail(f.winner, f.winnerName), now))
  }

  /** The store's updates after scraping, applied one at a time, leave the duel's session completed. */
  lemma StagesComplete(s: DuelSession, f: Fighters, now: int)
    ensures var trail := SuccessTrail(f.winner, f.winnerName);
      var transformed := WithStatus(WithStatus(WithStatus(s, trail[0].0, trail[0].1, now), trail[1].0, trail[1].1, now), trail[2].0, trail[2].1, now);
      var stored := WithAnimeProfile(WithAnimeProfile(transformed, 1, f.anime1), 2, f.anime2);
      var narrated := WithStatus(stored, trail[3].0, trail[3].1, now).(commentary := Some(f.commentary));
      var judged := narrated.(winner := Some(f.winner), winnerName := Some(f.winnerName), status := Complete);
      WithStatus(judged, trail[4].0, trail[4].1, now) == Completed(s, f, now)
  {
    var trail := SuccessTrail(f.winner, f.winnerName);
    var entries := StatusEntries(trail, now);
    assert entries == [entries[0], entries[1], entries[2], entries[3], entries[4]];
  }

  /** The progress of the stage broadcasts before the commentary ticks. */
  const HeadProgress: seq<int> := [40, 45, 50, 55, 60, 65, 70, 73, 76, 78, 80, 82, 84, 86]

  /** Stage, message and data of the stage broadcasts before the commentary ticks. */
  function StageParts(f: Fighters): (r: seq<(DuelStatus, string, Option<Record>)>)
    ensures |r| == |HeadProgress|
    ensures r[0] == (Normalizing, "Processing warrior data...", None)
  {
    [(Normalizing, "Processing warrior data...", None),
     Identified(1, f.profile1), Identified(2, f.profile2),
     (Scoring, "Calculating power levels...", None),
     (Scoring, f.profile1.name + ": Power level computed", None),
     (Scoring, f.profile2.name + ": Power level computed", None),
     (Transforming, "Awakening warrior spirits...", None),
     (Transforming, AwakensMessage(f.anime1), None),
     (Transforming, AwakensMessage(f.anime2), None),
     (Transforming, "Warrior profiles sealed ✓", None),
     (Transforming, "Power levels compared — preparing arena...", None),
     (GeneratingCommentary, "The announcer prepares the battle narrative...", None),
     (GeneratingCommentary, "Warming up the roast mic...", None),
     (GeneratingCommentary, "OpenAI generating epic battle commentary...", None)]
  }

  /** The stage broadcasts before the commentary ticks, at the fixed progress values. */
  function HeadEvents(sid: string, parts: seq<(DuelStatus, string, Option<Record>)>, now: int): (r: seq<ProgressEvent>)
    requires |parts| == |HeadProgress|
    ensures ForSession(r, sid) && Advancing(r)
    ensures |r| == |parts| && r[|r| - 1].progress == 86
    ensures r[0] == ProgressEvent(sid, parts[0].0, parts[0].1, 40, now, parts[0].2)
  {
    seq(|HeadProgress|, i requires 0 <= i < |HeadProgress| =>
      ProgressEvent(sid, parts[i].0, parts[i].1, HeadProgress[i], now, parts[i].2))
  }

  /** The stage broadcasts for given parts, ticks and completion message. */
  function StageEvents(sid: string, parts: seq<(DuelStatus, string, Option<Record>)>, ticks: seq<(string, int)>,
                       completion: string, now: int): (r: seq<ProgressEvent>)
    requires |parts| == |HeadProgress|
    requires forall i :: 0 <= i < |ticks| ==> ticks[i].1 == 88 + i && ticks[i].1 <= 94
    ensures ForSession(r, sid) && Advancing(r)
    ensures |r| == |parts| + |ticks| + 2
    ensures r[0] == ProgressEvent(sid, parts[0].0, parts[0].1, 40, now, parts[0].2)
    ensures r[|r| - 1] == Event(sid, Complete, completion, 100, now)
  {
    var head := HeadEvents(sid, parts, now);
    var middle := TickEvents(sid, ticks, now);
    var tail := [Event(sid, GeneratingCommentary, "Battle commentary ready ✓", 95, now), Event(sid, Complete, completion, 100, now)];
    AdvancingConcat(head, middle);
    AdvancingConcat(head + middle, tail);
    ForSessionConcat(head, middle, sid);
    ForSessionConcat(head + middle, tail, sid);
    head + middle + tail
  }

  /**
   * The broadcasts of the stages after scraping, in order: each status change
   * with its progress, the fighters identified, scored and awakened, the
   * commentary ticks and the completion.
   */
  function StageBroadcasts(sid: string, f: Fighters, ticks: seq<(string, int)>, now: int): (r: seq<ProgressEvent>)
    requires forall i :: 0 <= i < |ticks| ==> ticks[i].1 == 88 + i && ticks[i].1 <= 94
    ensures ForSession(r, sid) && Advancing(r)
    ensures |r| == 16 + |ticks|
    ensures r[0] == Event(sid, Normalizing, "Processing warrior data...", 40, now)
    ensures r[|r| - 1] == Event(sid, Complete, CompletionMessage(f.winner, f.winnerName), 100, now)
  {
    StageEvents(sid, StageParts(f), ticks, CompletionMessage(f.winner, f.winnerName), now)
  }

  // ---------------------------------------------------------------------------
  // An exception inside the stages

  /** The computations after scraping that can throw. */
  datatype Step = Normalize | Score | Transform

  /**
   * An exception thrown after scraping: in which step, whether in the call for
   * fighter 2 (fighter 1's call having returned), and the error's message.
   */
  datatype Thrown = Thrown(step: Step, second: bool, message: string)

  /** The text the handler broadcasts and logs for an error message. */
  function InterruptMessage(message: string): string {
    "Battle interrupted: " + message
  }

  /** The status changes made before `step` runs. */
  function StatusesBefore(step: Step): (n: nat)
    ensures 1 <= n <= 3
  {
    match step
    case Normalize => 1
    case Score => 2
    case Transform => 3
  }

  /** The status changes of an interrupted duel after scraping: those made before the throw, then the handler's. */
  function FailureTrail(t: Thrown): (r: seq<(DuelStatus, string)>)
    ensures |r| == StatusesBefore(t.step) + 1
    ensures r[|r| - 1] == (Error, InterruptMessage(t.message))
  {
    [(Normalizing, "Processing warrior data..."), (Scoring, "Calculating power levels..."),
     (Transforming, "Awakening warrior spirits...")][..StatusesBefore(t.step)]
    + [(Error, InterruptMessage(t.message))]
  }

  /** Before the handler's entry, an interrupted duel makes the same status changes as a completed one. */
  lemma FailureTrailFollowsSuccess(t: Thrown, winner: Winner, winnerName: string)
    ensures var r := FailureTrail(t);
      r[..|r| - 1] == SuccessTrail(winner, winnerName)[..StatusesBefore(t.step)]
  {
  }

  /** How many stage broadcasts go out before the throw. */
  function BroadcastsBefore(t: Thrown): (n: nat)
    ensures 1 <= n <= 8
  {
    (match t.step
     case Normalize => 1
     case Score => 4
     case Transform => 7)
    + (if t.second then 1 else 0)
  }

  /**
   * The broadcasts of an interrupted duel after scraping: the stage broadcasts
   * up to the throw, then the handler's error broadcast and the one its status
   * update sends, both at progress 0.
   */
  function FailureBroadcasts(sid: string, f: Fighters, t: Thrown, now: int): (r: seq<ProgressEvent>)
    ensures ForSession(r, sid) && |r| == BroadcastsBefore(t) + 2
    ensures Advancing(r[..|r| - 2])
    ensures r[0] == Event(sid, Normalizing, "Processing warrior data...", 40, now)
    ensures r[|r| - 2] == r[|r| - 1] == Event(sid, Error, InterruptMessage(t.message), 0, now)
  {
    var head := HeadEvents(sid, StageParts(f), now);
    var handler := [Event(sid, Error, InterruptMessage(t.message), 0, now), Event(sid, Error, InterruptMessage(t.message), 0, now)];
    var before := head[..BroadcastsBefore(t)];
    ForSessionConcat(before, handler, sid);
    assert (before + handler)[..|before|] == before;
    before + handler
  }

  /**
   * A session and broadcasts as the error handler leaves them: status `error`,
   * the handler's entry last in the log, and the broadcasts ending in the
   * handler's error broadcast at progress 0.
   */
  predicate Interrupted(s: DuelSession, broadcasts: seq<ProgressEvent>, sid: string, message: string, now: int) {
    s.status == Error
    && |s.processingLogs| > 0
    && s.processingLogs[|s.processingLogs| - 1] == Entry(now, Error, InterruptMessage(message), None)
    && |broadcasts| > 0 && broadcasts[|broadcasts| - 1] == Event(sid, Error, InterruptMessage(message), 0, now)
  }

  /** The interrupted session keeps its id and URLs, extends its log and ends in the handler's entry. */
  lemma InterruptedTrail(s: DuelSession, t: Thrown, now: int)
    ensures var r := AfterStatuses(s, FailureTrail(t), now);
      r.id == s.id && r.url1 == s.url1 && r.url2 == s.url2
      && s.processingLogs <= r.processingLogs
      && r.status == Error
      && r.processingLogs[|r.processingLogs| - 1] == Entry(now, Error, InterruptMessage(t.message), None)
  {
    var trail := FailureTrail(t);
    var before := AfterStatuses(s, trail[..|trail| - 1], now);
    assert AfterStatuses(s, trail, now) == WithStatus(before, Error, InterruptMessage(t.message), now);
    StatusTrail(s, trail, now);
  }

  lemma AfterStatusesSnoc(s: DuelSession, steps: seq<(DuelStatus, string)>, status: DuelStatus, message: string, now: int)
    ensures AfterStatuses(s, steps + [(status, message)], now) == WithStatus(AfterStatuses(s, steps, now), status, message, now)
  {
    assert (steps + [(status, message)])[..|steps|] == steps;
  }

  /** A response that is the verdict on the scraped pair of two URLs is the duel of those URLs. */
  lemma VerdictOfPair(sid: string, url1: string, url2: string, env: DuelEnv, scraped1: ScrapedData, scraped2: ScrapedData,
                      response: DuelResponse)
    requires env.start1 < 3 && env.start2 < 3
    requires (scraped1, scraped2) == ScrapedPair(url1, url2, env)
    requires forall a, b :: a == scraped1 && b == scraped2 ==> response == Verdict(sid, a, b, env)
    ensures response == DuelOf(sid, url1, url2, env)
  {
    var pair := ScrapedPair(url1, url2, env);
    assert response == Verdict(sid, pair.0, pair.1, env);
  }

  lemma Overwrite(m: map<string, DuelSession>, k: string, a: DuelSession, b: DuelSession)
    ensures m[k := a][k := b] == m[k := b]
  {
  }

  // ---------------------------------------------------------------------------
  // The orchestrator

  /** `DuelOrchestrator`: its only state is the set of catalog entries handed out in the current duel. */
  class DuelOrchestrator {
    var usedMockIndices: set<nat>

    ghost predicate Valid()
      reads this
    {
      usedMockIndices <= {0, 1, 2}
    }

    constructor()
      ensures usedMockIndices == {} && Valid()
    {
      usedMockIndices := {};
    }

    /** `generateMockScrapedData`: probes from `start` (the random pick) for a free entry and takes it. */
    method GenerateMockScrapedData(url: string, start: nat, now: int) returns (d: ScrapedData)
      requires Valid() && start < 3
      modifies this
      ensures Valid()
      ensures usedMockIndices == old(usedMockIndices) + {ProbeIndex(old(usedMockIndices), start)}
      ensures d == MockScrapedData(url, ProbeIndex(old(usedMockIndices), start), now)
    {
      var index := start;
      ghost var probes := 0;
      while index in usedMockIndices && |usedMockIndices| < 3
        invariant usedMockIndices == old(usedMockIndices) && Valid()
        invariant index < 3 && probes <= 2 && index == (start + probes) % 3
        invariant probes >= 1 ==> start in usedMockIndices && |usedMockIndices| < 3
        invariant probes >= 2 ==> (start + 1) % 3 in usedMockIndices
        decreases 2 - probes
      {
        if probes >= 1 {
          AllThreeTaken(usedMockIndices, start);
        }
        index := (index + 1) % 3;
        probes := probes + 1;
      }
      assert index == ProbeIndex(usedMockIndices, start);
      usedMockIndices := usedMockIndices + {index};
      d := MockScrapedData(url, index, now);
    }

    /** `scrapeProfileWithFallback` and its four wrappers: the platform's scrape, or a demo fighter when it throws. */
    method ScrapeProfileWithFallback(store: SessionStore, url: string, sessionId: string, profileNum: int,
                                     src: Sources, start: nat, now: int)
      returns (d: ScrapedData, notices: seq<ProgressEvent>)
      requires Valid() && store.Valid() && start < 3
      modifies this, store
      ensures Valid() && store.Valid()
      ensures (d, usedMockIndices) == ScrapeOutcome(url, src, old(usedMockIndices), start, now)
      ensures store.sessions == AllLogged(old(store.sessions), sessionId, Scraping, ScrapeLog(url, profileNum, Attempt(url, src)), now)
      ensures notices == if Scraper.DetectPlatform(url) == LinkedIn && src.brightData.Ok? && !HasIdentity(src.brightData.value.json)
                         then [LimitedNotice(sessionId, profileNum, now)] else []
      ensures ForSession(notices, sessionId)
    {
      var platform := Scraper.DetectPlatform(url);
      ghost var sessions0 := store.sessions;
      store.AddLog(sessionId, Scraping, StartMessage(platform, profileNum), None, now);
      ghost var sessions1 := store.sessions;
      assert sessions1 == AddLogged(sessions0, sessionId, Entry(now, Scraping, StartMessage(platform, profileNum), None));
      var attempt := Attempt(url, src);
      notices := [];
      if attempt.Ok? {
        if platform == LinkedIn && !HasIdentity(attempt.value.json) {
          notices := [LimitedNotice(sessionId, profileNum, now)];
        }
        d := attempt.value;
      } else {
        store.AddLog(sessionId, Scraping, FailureMessage(platform, url, attempt.error), None, now);
        assert store.sessions == AddLogged(sessions1, sessionId, Entry(now, Scraping, FailureMessage(platform, url, attempt.error), None));
        d := GenerateMockScrapedData(url, start, now);
      }
      ghost var msgs := ScrapeLog(url, profileNum, attempt);
      assert msgs[0] == StartMessage(platform, profileNum);
      assert AllLogged(sessions0, sessionId, Scraping, msgs, now) == AllLogged(sessions1, sessionId, Scraping, msgs[1..], now);
      if attempt.Ok? {
        assert msgs[1..] == [];
      } else {
        assert msgs[1..] == [FailureMessage(platform, url, attempt.error)];
        assert msgs[1..][1..] == [];
        assert AllLogged(sessions1, sessionId, Scraping, msgs[1..], now) == AllLogged(store.sessions, sessionId, Scraping, [], now);
      }
    }

    /** The scraping stage: both fighters scraped in turn, with the stage's broadcasts. */
    method ScrapeStage(store: SessionStore, sid: string, url1: string, url2: string, env: DuelEnv)
      returns (scraped1: ScrapedData, scraped2: ScrapedData, broadcasts: seq<ProgressEvent>)
      requires Valid() && store.Valid() && usedMockIndices == {} && env.start1 < 3 && env.start2 < 3
      modifies this, store
      ensures Valid() && store.Valid()
      ensures forall u1, u2 :: u1 == url1 && u2 == url2 ==> (scraped1, scraped2) == ScrapedPair(u1, u2, env)
      ensures Evolves(old(store.sessions), store.sessions, sid)
      ensures ForSession(broadcasts, sid)
    {
      var now := env.now;
      var platform1 := Scraper.DetectPlatform(url1);
      var platform2 := Scraper.DetectPlatform(url2);
      broadcasts := [Event(sid, Scraping, "Fighter 1: Using " + ToolName(platform1) + " for " + PlatformName(platform1) + "...", 10, now),
                     Event(sid, Scraping, "Fighter 2: Using " + ToolName(platform2) + " for " + PlatformName(platform2) + "...", 12, now)];
      ghost var s0 := store.sessions;
      var notices1, notices2;
      scraped1, notices1 := ScrapeProfileWithFallback(store, url1, sid, 1, env.sources1, env.start1, now);
      AllLoggedAppends(s0, sid, Scraping, ScrapeLog(url1, 1, Attempt(url1, env.sources1)), now);
      ghost var s1 := store.sessions;
      ForSessionConcat(broadcasts, notices1, sid);
      ForSessionConcat(broadcasts + notices1, [Event(sid, Scraping, "Fighter 1 data collected ✓", 25, now)], sid);
      broadcasts := broadcasts + notices1 + [Event(sid, Scraping, "Fighter 1 data collected ✓", 25, now)];
      scraped2, notices2 := ScrapeProfileWithFallback(store, url2, sid, 2, env.sources2, env.start2, now);
      AllLoggedAppends(s1, sid, Scraping, ScrapeLog(url2, 2, Attempt(url2, env.sources2)), now);
      EvolvesTrans(s0, s1, store.sessions, sid);
      var closing := [Event(sid, Scraping, "Fighter 2 data collected ✓", 30, now), Event(sid, Scraping, "Both profiles scraped successfully ✓", 35, now)];
      ForSessionConcat(broadcasts, notices2, sid);
      ForSessionConcat(broadcasts + notices2, closing, sid);
      broadcasts := broadcasts + notices2 + closing;
      store.StoreProfileData(sid, 1, scraped1);
      store.StoreProfileData(sid, 2, scraped2);
    }

    /** One `updateStatus` call on a session known to exist: the store's update, then its broadcast. */
    method UpdateStatus(store: SessionStore, sid: string, status: DuelStatus, message: string, progress: int, now: int)
      returns (broadcast: ProgressEvent)
      requires store.Valid() && sid in store.sessions
      modifies store
      ensures store.Valid()
      ensures store.sessions == old(store.sessions)[sid := WithStatus(old(store.sessions)[sid], status, message, now)]
      ensures Evolves(old(store.sessions), store.sessions, sid)
      ensures broadcast == Event(sid, status, message, progress, now)
    {
      var u := store.UpdateSessionStatus(sid, status, message, now);
      assert u.Ok?;
      EvolvesByUpdate(old(store.sessions), sid, WithStatus(old(store.sessions)[sid], status, message, now));
      broadcast := Event(sid, status, message, progress, now);
    }
  

    /**
     * Normalisation, scoring, the anime transformation, the verdict and the
     * narrator, step by step as the pipeline runs them. The result is `Fight`
     * of the two scraped profiles; the equation is stated under a quantifier
     * so that a caller holding only `f` does not unfold the whole computation.
     */
    method Judge(scraped1: ScrapedData, scraped2: ScrapedData, env: DuelEnv) returns (f: Fighters)
      ensures forall a, b :: a == scraped1 && b == scraped2 ==> f == Fight(a, b, env)
      ensures f.anime1.profile == f.profile1 && f.anime2.profile == f.profile2
      ensures f.winner == Scoring.DetermineWinner(f.anime1, f.anime2).0
      ensures f.winnerName == WinnerName(f.winner, f.anime1, f.anime2)
    {
      var profile1 := NormalizeProfile(scraped1, env.clock);
      var profile2 := NormalizeProfile(scraped2, env.clock);
      var stats1 := Scoring.CalculateStats(profile1);
      var stats2 := Scoring.CalculateStats(profile2);
      var anime1 := Scoring.TransformToAnime(Scoring.DefaultWeights, profile1, stats1, env.rolls1);
      var anime2 := Scoring.TransformToAnime(Scoring.DefaultWeights, profile2, stats2, env.rolls2);
      var winner := Scoring.DetermineWinner(anime1, anime2).0;
      var commentary := Commentary.GenerateCommentary(env.hasClient, env.reply, anime1, anime2, winner);
      f := Fighters(profile1, profile2, anime1, anime2, winner, WinnerName(winner, anime1, anime2), commentary);
    }

    /**
     * The stages after scraping, for the fighters `f` that normalisation,
     * scoring, the anime transformation, the verdict and the narrator make of
     * the two scraped profiles: every status change, the anime profiles, the
     * commentary and the result stored, with the stages' broadcasts.
     */
    method RunStages(store: SessionStore, sid: string, f: Fighters, env: DuelEnv)
      returns (response: DuelResponse, broadcasts: seq<ProgressEvent>)
      requires store.Valid() && sid in store.sessions
      modifies store
      ensures store.Valid()
      ensures store.sessions == old(store.sessions)[sid := Completed(old(store.sessions)[sid], f, env.now)]
      ensures response == DuelResponse(sid, Complete, Some(f.anime1), Some(f.anime2), Some(f.commentary), Some(f.winner), Some(f.winnerName))
      ensures ForSession(broadcasts, sid) && Advancing(broadcasts)
      ensures |broadcasts| > 0 && broadcasts[0] == Event(sid, Normalizing, "Processing warrior data...", 40, env.now)
      ensures broadcasts[|broadcasts| - 1] == Event(sid, Complete, CompletionMessage(f.winner, f.winnerName), 100, env.now)
    {
      var now := env.now;
      ghost var s0 := store.sessions[sid];
      var trail := SuccessTrail(f.winner, f.winnerName);
      ghost var m := store.sessions;
      var _ := UpdateStatus(store, sid, trail[0].0, trail[0].1, 40, now);
      store.StoreNormalizedProfile(sid, 1, f.profile1);
      store.StoreNormalizedProfile(sid, 2, f.profile2);
      ghost var s1 := WithStatus(s0, trail[0].0, trail[0].1, now);
      var _ := UpdateStatus(store, sid, trail[1].0, trail[1].1, 55, now);
      ghost var s2 := WithStatus(s1, trail[1].0, trail[1].1, now);
      Overwrite(m, sid, s1, s2);
      var _ := UpdateStatus(store, sid, trail[2].0, trail[2].1, 70, now);
      ghost var s3 := WithStatus(s2, trail[2].0, trail[2].1, now);
      Overwrite(m, sid, s2, s3);
      var _ := store.StoreAnimeProfile(sid, 1, f.anime1);
      var _ := store.StoreAnimeProfile(sid, 2, f.anime2);
      ghost var s4 := WithAnimeProfile(WithAnimeProfile(s3, 1, f.anime1), 2, f.anime2);
      Overwrite(m, sid, s3, WithAnimeProfile(s3, 1, f.anime1));
      Overwrite(m, sid, WithAnimeProfile(s3, 1, f.anime1), s4);
      var _ := UpdateStatus(store, sid, trail[3].0, trail[3].1, 82, now);
      ghost var s5 := WithStatus(s4, trail[3].0, trail[3].1, now);
      Overwrite(m, sid, s4, s5);
      var ticks := RunTicker(env.ticks);
      var _ := store.StoreCommentary(sid, f.commentary);
      var _ := store.StoreDuelResult(sid, f.winner, f.winnerName);
      ghost var s6 := s5.(commentary := Some(f.commentary)).(winner := Some(f.winner), winnerName := Some(f.winnerName), status := Complete);
      Overwrite(m, sid, s5, s5.(commentary := Some(f.commentary)));
      Overwrite(m, sid, s5.(commentary := Some(f.commentary)), s6);
      var _ := UpdateStatus(store, sid, trail[4].0, trail[4].1, 100, now);
      Overwrite(m, sid, s6, WithStatus(s6, trail[4].0, trail[4].1, now));
      StagesComplete(s0, f, now);
      response := DuelResponse(sid, Complete, Some(f.anime1), Some(f.anime2), Some(f.commentary), Some(f.winner), Some(f.winnerName));
      broadcasts := StageBroadcasts(sid, f, ticks, now);
    }

    /**
     * The stages after scraping when `t` is thrown: the status changes before
     * the throw, then the handler, which broadcasts the error at progress 0 and
     * sets the session's status to `error` through `updateStatus`. Nothing is
     * stored for the fighters.
     */
    method Interrupt(store: SessionStore, sid: string, f: Fighters, t: Thrown, now: int)
      returns (broadcasts: seq<ProgressEvent>)
      requires store.Valid() && sid in store.sessions
      modifies store
      ensures store.Valid()
      ensures store.sessions == old(store.sessions)[sid := AfterStatuses(old(store.sessions)[sid], FailureTrail(t), now)]
      ensures broadcasts == FailureBroadcasts(sid, f, t, now)
    {
      var handled := InterruptStatuses(store, sid, f, t, now);
      var head := HeadEvents(sid, StageParts(f), now);
      broadcasts := head[..BroadcastsBefore(t)] + [Event(sid, Error, InterruptMessage(t.message), 0, now), handled];
    }

    /** The store's side of `Interrupt`: the status changes before the throw and the handler's, with the handler's broadcast. */
    method InterruptStatuses(store: SessionStore, sid: string, f: Fighters, t: Thrown, now: int)
      returns (handled: ProgressEvent)
      requires store.Valid() && sid in store.sessions
      modifies store
      ensures store.Valid()
      ensures store.sessions == old(store.sessions)[sid := AfterStatuses(old(store.sessions)[sid], FailureTrail(t), now)]
      ensures handled == Event(sid, Error, InterruptMessage(t.message), 0, now)
    {
      ghost var m := store.sessions;
      ghost var s0 := m[sid];
      assert m[sid := AfterStatuses(s0, [], now)] == m;
      var _ := StatusStep(store, sid, m, s0, [], Normalizing, "Processing warrior data...", 40, now);
      ghost var done: seq<(DuelStatus, string)> := [(Normalizing, "Processing warrior data...")];
      if t.step != Normalize {
        store.StoreNormalizedProfile(sid, 1, f.profile1);
        store.StoreNormalizedProfile(sid, 2, f.profile2);
        var _ := StatusStep(store, sid, m, s0, done, Scoring, "Calculating power levels...", 55, now);
        done := done + [(Scoring, "Calculating power levels...")];
        if t.step == Transform {
          var _ := StatusStep(store, sid, m, s0, done, Transforming, "Awakening warrior spirits...", 70, now);
          done := done + [(Transforming, "Awakening warrior spirits...")];
        }
      }
      handled := StatusStep(store, sid, m, s0, done, Error, InterruptMessage(t.message), 0, now);
      done := done + [(Error, InterruptMessage(t.message))];
      assert done == FailureTrail(t);
    }

    /** `updateStatus` as one more step of a run of status changes on the duel's session. */
    method StatusStep(store: SessionStore, sid: string, ghost m: map<string, DuelSession>, ghost s0: DuelSession,
                      ghost done: seq<(DuelStatus, string)>, status: DuelStatus, message: string, progress: int, now: int)
      returns (broadcast: ProgressEvent)
      requires store.Valid() && store.sessions == m[sid := AfterStatuses(s0, done, now)]
      modifies store
      ensures store.Valid()
      ensures store.sessions == m[sid := AfterStatuses(s0, done + [(status, message)], now)]
      ensures broadcast == Event(sid, status, message, progress, now)
    {
      broadcast := UpdateStatus(store, sid, status, message, progress, now);
      AfterStatusesSnoc(s0, done, status, message, now);
      Overwrite(m, sid, AfterStatuses(s0, done, now), AfterStatuses(s0, done + [(status, message)], now));
    }

    /**
     * A duel's work once its session has taken the first status update: both
     * fighters scraped, judged and carried through the stages, and nothing else
     * in the store changes. Without an exception the session ends complete,
     * holding the response; with one it ends in `error`, its last log entry the
     * handler's, and the same error is returned.
     */
    method Contest(store: SessionStore, sid: string, url1: string, url2: string, env: DuelEnv)
      returns (r: Result<DuelResponse>, broadcasts: seq<ProgressEvent>)
      requires Valid() && store.Valid() && usedMockIndices == {} && env.start1 < 3 && env.start2 < 3
      requires sid in store.sessions
      modifies this, store
      ensures Valid() && store.Valid()
      ensures Evolves(old(store.sessions), store.sessions, sid)
      ensures ForSession(broadcasts, sid) && |broadcasts| > 0
      ensures env.thrown.None? <==> r.Ok?
      ensures r.Ok? ==> var response := r.value;
        store.sessions[sid].status == Complete && ResponseOf(store.sessions[sid]) == response
        && response.id == sid && response.status == Complete
        && response.profile1.Some? && response.profile2.Some? && response.commentary.Some?
        && response.winner == Some(Scoring.DetermineWinner(response.profile1.value, response.profile2.value).0)
        && response.winnerName == Some(WinnerName(response.winner.value, response.profile1.value, response.profile2.value))
        && broadcasts[|broadcasts| - 1] == Event(sid, Complete, CompletionMessage(response.winner.value, response.winnerName.value), 100, env.now)
      ensures r.Ok? ==> IsDuelOf(r.value, sid, url1, url2, env)
      ensures env.thrown.Some? ==>
        Interrupted(store.sessions[sid], broadcasts, sid, env.thrown.value.message, env.now)
        && r == Err(env.thrown.value.message)
    {
      var scraped1, scraped2, scraping := ScrapeStage(store, sid, url1, url2, env);
      ghost var scraped := store.sessions;
      var stages;
      r, stages := Conclude(store, sid, scraped1, scraped2, env);
      if r.Ok? {
        forall u1, u2 | u1 == url1 && u2 == url2
          ensures r.value == DuelOf(sid, u1, u2, env)
        {
          VerdictOfPair(sid, u1, u2, env, scraped1, scraped2, r.value);
        }
      }
      EvolvesTrans(old(store.sessions), scraped, store.sessions, sid);
      ForSessionConcat(scraping, stages, sid);
      broadcasts := scraping + stages;
    }

    /** The verdict on two scraped fighters and the stages that carry it into the session, or the exception that stops them. */
    method Conclude(store: SessionStore, sid: string, scraped1: ScrapedData, scraped2: ScrapedData, env: DuelEnv)
      returns (r: Result<DuelResponse>, broadcasts: seq<ProgressEvent>)
      requires store.Valid() && sid in store.sessions
      modifies store
      ensures store.Valid()
      ensures Evolves(old(store.sessions), store.sessions, sid)
      ensures ForSession(broadcasts, sid) && |broadcasts| > 0
      ensures env.thrown.None? <==> r.Ok?
      ensures r.Ok? ==> var response := r.value;
        store.sessions[sid].status == Complete && ResponseOf(store.sessions[sid]) == response
        && response.id == sid && response.status == Complete
        && response.profile1.Some? && response.profile2.Some? && response.commentary.Some?
        && response.winner == Some(Scoring.DetermineWinner(response.profile1.value, response.profile2.value).0)
        && response.winnerName == Some(WinnerName(response.winner.value, response.profile1.value, response.profile2.value))
        && broadcasts[|broadcasts| - 1] == Event(sid, Complete, CompletionMessage(response.winner.value, response.winnerName.value), 100, env.now)
      ensures r.Ok? ==> forall a, b :: a == scraped1 && b == scraped2 ==> r.value == Verdict(sid, a, b, env)
      ensures env.thrown.Some? ==>
        store.sessions[sid] == AfterStatuses(old(store.sessions)[sid], FailureTrail(env.thrown.value), env.now)
        && Interrupted(store.sessions[sid], broadcasts, sid, env.thrown.value.message, env.now)
        && r == Err(env.thrown.value.message)
    {
      var f := Judge(scraped1, scraped2, env);
      if env.thrown.Some? {
        var t := env.thrown.value;
        broadcasts := Interrupt(store, sid, f, t, env.now);
        ghost var after := AfterStatuses(old(store.sessions)[sid], FailureTrail(t), env.now);
        InterruptedTrail(old(store.sessions)[sid], t, env.now);
        EvolvesByUpdate(old(store.sessions), sid, after);
        r := Err(t.message);
      } else {
        var response;
        response, broadcasts := RunStages(store, sid, f, env);
        EvolvesByUpdate(old(store.sessions), sid, Completed(old(store.sessions)[sid], f, env.now));
        r := Ok(response);
      }
    }

    /**
     * The opening of `runDuel`: a new session unless a non-empty id is given,
     * then the first status update, which fails exactly for a given id the
     * store does not know.
     */
    method OpenSession(store: SessionStore, existingSessionId: Option<string>, freshId: string, url1: string, url2: string, now: int)
      returns (sid: string, u: Result<()>)
      requires store.Valid()
      modifies store
      ensures store.Valid()
      ensures sid == SessionIdOf(existingSessionId, freshId)
      ensures u.Err? <==> existingSessionId.Some? && existingSessionId.value != "" && sid !in old(store.sessions)
      ensures u.Err? ==> u.error == NotFound(sid) && store.sessions == old(store.sessions)
      ensures u.Ok? ==> sid in store.sessions && store.sessions.Keys == old(store.sessions).Keys + {sid}
      ensures u.Ok? ==> forall k :: k in old(store.sessions) && k != sid ==> store.sessions[k] == old(store.sessions)[k]
      ensures u.Ok? && sid !in old(store.sessions) ==> store.sessions[sid].url1 == url1 && store.sessions[sid].url2 == url2
    {
      sid := SessionIdOf(existingSessionId, freshId);
      if !(existingSessionId.Some? && existingSessionId.value != "") {
        var _ := store.CreateDuelSession(sid, url1, url2, now);
      }
      u := store.UpdateSessionStatus(sid, Scraping, "Initiating profile reconnaissance...", now);
    }

    /**
     * `runDuel`: forgets the demo fighters handed out before, opens a session
     * unless a non-empty id is given, then scrapes both fighters and runs the
     * stages. For a given id the store does not know, the first status update
     * throws, the error is broadcast, and the status update of the error
     * handler throws the same error again. An exception inside the stages is
     * caught the same way: broadcast, the session set to `error`, and returned.
     */
    method RunDuel(store: SessionStore, url1: string, url2: string, existingSessionId: Option<string>, freshId: string, env: DuelEnv)
      returns (r: Result<DuelResponse>, broadcasts: seq<ProgressEvent>)
      requires Valid() && store.Valid() && env.start1 < 3 && env.start2 < 3
      modifies this, store
      ensures Valid() && store.Valid()
      ensures var sid := SessionIdOf(existingSessionId, freshId);
        var missing := existingSessionId.Some? && existingSessionId.value != "" && sid !in old(store.sessions);
        (r.Err? <==> missing || env.thrown.Some?)
        && (missing ==>
              r.error == NotFound(sid) && store.sessions == old(store.sessions)
              && broadcasts == [Event(sid, Error, InterruptMessage(NotFound(sid)), 0, env.now)])
      ensures var sid := SessionIdOf(existingSessionId, freshId);
        r.Ok? ==>
          r.value.id == sid && r.value.status == Complete
          && r.value.profile1.Some? && r.value.profile2.Some? && r.value.commentary.Some?
          && r.value.winner == Some(Scoring.DetermineWinner(r.value.profile1.value, r.value.profile2.value).0)
          && r.value.winnerName == Some(WinnerName(r.value.winner.value, r.value.profile1.value, r.value.profile2.value))
          && GetDuelResult(store, sid) == Some(r.value)
          && GetDuelStatus(store, sid).Ok? && GetDuelStatus(store, sid).value.status == Complete && GetDuelStatus(store, sid).value.progress == 100
          && |broadcasts| > 0
          && broadcasts[|broadcasts| - 1] == Event(sid, Complete, CompletionMessage(r.value.winner.value, r.value.winnerName.value), 100, env.now)
      ensures r.Ok? ==> IsDuelOf(r.value, SessionIdOf(existingSessionId, freshId), url1, url2, env)
      ensures var sid := SessionIdOf(existingSessionId, freshId);
        var missing := existingSessionId.Some? && existingSessionId.value != "" && sid !in old(store.sessions);
        !missing && env.thrown.Some? ==>
          r.error == env.thrown.value.message && sid in store.sessions
          && Interrupted(store.sessions[sid], broadcasts, sid, env.thrown.value.message, env.now)
          && GetDuelStatus(store, sid).Ok? && GetDuelStatus(store, sid).value.status == Error && GetDuelStatus(store, sid).value.progress == 0
      ensures var sid := SessionIdOf(existingSessionId, freshId);
        var missing := existingSessionId.Some? && existingSessionId.value != "" && sid !in old(store.sessions);
        !missing ==>
          ForSession(broadcasts, sid) && |broadcasts| > 0
          && broadcasts[0] == Event(sid, Scraping, "Initiating profile reconnaissance...", 5, env.now)
          && store.sessions.Keys == old(store.sessions).Keys + {sid}
          && (forall k :: k in old(store.sessions) && k != sid ==> store.sessions[k] == old(store.sessions)[k])
          && (sid !in old(store.sessions) ==> store.sessions[sid].url1 == url1 && store.sessions[sid].url2 == url2)
    {
      usedMockIndices := {};
      var sid, u := OpenSession(store, existingSessionId, freshId, url1, url2, env.now);
      if u.Err? {
        var message := InterruptMessage(u.error);
        broadcasts := [Event(sid, Error, message, 0, env.now)];
        var again := store.UpdateSessionStatus(sid, Error, message, env.now);
        r := Err(again.error);
        return;
      }
      var first := [Event(sid, Scraping, "Initiating profile reconnaissance...", 5, env.now)];
      var rest;
      r, rest := Contest(store, sid, url1, url2, env);
      ForSessionConcat(first, rest, sid);
      broadcasts := first + rest;
    }
  }
}
