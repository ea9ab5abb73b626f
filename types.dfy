/// The records the core passes around: the normalised profile, its battle stats
/// and anime form, the duel session with its processing log, and the scraped
/// payload handed from acquisition to normalisation.
module Types {
  import opened Wrappers
  import opened Json

  /** The platform a profile URL belongs to (`sourceType`). */
  datatype Platform = LinkedIn | GitHub | Wikipedia | Portfolio | Unknown

  /** The literal `sourceType` takes for a platform: 'linkedin', 'github', 'wikipedia', 'portfolio' or 'unknown'. */
  function PlatformName(p: Platform): string {
    match p
    case LinkedIn => "linkedin"
    case GitHub => "github"
    case Wikipedia => "wikipedia"
    case Portfolio => "portfolio"
    case Unknown => "unknown"
  }

  datatype Project = Project(
    name: string,
    description: string,
    technologies: Option<seq<string>>,
    url: Option<string>,
    stars: Option<int>,
    forks: Option<int>)

  datatype ActivityMetrics = ActivityMetrics(
    commits: Option<int>,
    contributions: Option<int>,
    followers: Option<int>,
    following: Option<int>,
    repositories: Option<int>,
    pullRequests: Option<int>,
    issues: Option<int>,
    posts: Option<int>,
    connections: Option<int>)

  const NoMetrics := ActivityMetrics(None, None, None, None, None, None, None, None, None)

  datatype Company = Company(name: string, role: string, duration: Option<string>, current: bool)

  datatype Education = Education(
    institution: string,
    degree: Option<string>,
    field: Option<string>,
    year: Option<int>)

  /** A fully populated profile, whatever platform it was read from. */
  datatype ProfileData = ProfileData(
    name: string,
    title: string,
    avatar: Option<string>,
    location: Option<string>,
    skills: seq<string>,
    yearsExperience: int,
    leadershipRoles: seq<string>,
    projects: seq<Project>,
    achievements: seq<string>,
    activityMetrics: ActivityMetrics,
    certifications: seq<string>,
    companies: seq<Company>,
    education: seq<Education>,
    summary: Option<string>,
    sourceUrl: string,
    sourceType: Platform)

  /** The six battle stats, each meant to lie in 0..100. */
  datatype BattleStats = BattleStats(
    technical: int,
    strategy: int,
    execution: int,
    leadership: int,
    impact: int,
    experience: int)

  datatype Archetype =
    | Strategist | Executor | Visionary | Warrior
    | Prodigy | Veteran | Shadow | Commander

  /** The literal `archetype` takes on an anime profile. */
  function ArchetypeName(a: Archetype): string {
    match a
    case Strategist => "The Strategist"
    case Executor => "The Executor"
    case Visionary => "The Visionary"
    case Warrior => "The Warrior"
    case Prodigy => "The Prodigy"
    case Veteran => "The Veteran"
    case Shadow => "The Shadow"
    case Commander => "The Commander"
  }

  datatype Rank = S | A | B | C | D

  datatype Mission = Mission(name: string, rank: Rank, description: string)

  datatype AnimeProfile = AnimeProfile(
    profile: ProfileData,
    stats: BattleStats,
    totalPower: int,
    archetype: Archetype,
    techniques: seq<string>,
    guild: string,
    guildHistory: seq<string>,
    battleExperience: string,
    legendaryScrolls: seq<string>,
    missions: seq<Mission>,
    specialAbility: string)

  datatype DuelStatus =
    | Pending | Scraping | Normalizing | Scoring | Transforming
    | GeneratingCommentary | Complete | Error

  datatype Winner = Profile1 | Profile2 | Draw

  /** The literal `winner` takes in a duel: 'profile1', 'profile2' or 'draw'. */
  function WinnerText(w: Winner): string {
    match w
    case Profile1 => "profile1"
    case Profile2 => "profile2"
    case Draw => "draw"
  }

  /** `timestamp` is the clock reading the caller supplies. */
  datatype ProcessingLog = ProcessingLog(
    timestamp: int,
    stage: DuelStatus,
    message: string,
    data: Option<Value>)

  /** `commentary` is the narrator's object as parsed, or the fallback literal. */
  datatype DuelSession = DuelSession(
    id: string,
    createdAt: int,
    status: DuelStatus,
    url1: string,
    url2: string,
    profile1: Option<AnimeProfile>,
    profile2: Option<AnimeProfile>,
    commentary: Option<Record>,
    winner: Option<Winner>,
    winnerName: Option<string>,
    processingLogs: seq<ProcessingLog>)

  /**
   * The `json` part of a scraped result: either a raw key/value payload from a
   * platform, or a profile that is already normalised (a catalog entry marked
   * `__normalized: true`).
   */
  datatype Payload = Raw(fields: Record) | Prenormalized(profile: ProfileData)

  datatype ScrapedData = ScrapedData(json: Payload, url: string, scrapedAt: int)

  /** One message published to the duel's progress channel. */
  datatype ProgressEvent = ProgressEvent(
    sessionId: string,
    stage: DuelStatus,
    message: string,
    progress: int,
    timestamp: int,
    data: Option<Record>)

  datatype DuelResponse = DuelResponse(
    id: string,
    status: DuelStatus,
    profile1: Option<AnimeProfile>,
    profile2: Option<AnimeProfile>,
    commentary: Option<Record>,
    winner: Option<Winner>,
    winnerName: Option<string>)

  datatype DuelStatusResponse = DuelStatusResponse(
    id: string,
    status: DuelStatus,
    logs: seq<ProcessingLog>,
    progress: int)
}
