/// The local half of the duel session store (backend/src/services/context.ts):
/// a map from session id to session, updated in place, with an append-only
/// processing log per session. The remote client is not modelled; every remote
/// call of the service is wrapped in a silent catch and never affects the map.
module Context {
  import opened Wrappers
  import opened Json
  import opened Types

  /** The session `createDuelSession` starts: pending, both URLs, nothing stored yet, an empty log. */
  function NewSession(id: string, url1: string, url2: string, createdAt: int): (s: DuelSession)
    ensures s.id == id && s.status == Pending && s.url1 == url1 && s.url2 == url2
    ensures s.processingLogs == []
    ensures s.profile1.None? && s.profile2.None? && s.commentary.None? && s.winner.None? && s.winnerName.None?
  {
    DuelSession(id, createdAt, Pending, url1, url2, None, None, None, None, None, [])
  }

  /** The log entry appended for `stage`, without data. */
  function Entry(timestamp: int, stage: DuelStatus, message: string, data: Option<Value>): ProcessingLog {
    ProcessingLog(timestamp, stage, message, data)
  }

  /** The session after one log entry is appended. */
  function Logged(s: DuelSession, entry: ProcessingLog): (r: DuelSession)
    ensures |r.processingLogs| == |s.processingLogs| + 1
    ensures r.processingLogs[..|s.processingLogs|] == s.processingLogs && r.processingLogs[|s.processingLogs|] == entry
    ensures r.(processingLogs := s.processingLogs) == s
  {
    s.(processingLogs := s.processingLogs + [entry])
  }

  /** The session after a status change: the status set and one entry for it logged. */
  function WithStatus(s: DuelSession, status: DuelStatus, message: string, timestamp: int): (r: DuelSession)
    ensures r.status == status
    ensures |r.processingLogs| == |s.processingLogs| + 1 && r.processingLogs[..|s.processingLogs|] == s.processingLogs
    ensures r.processingLogs[|s.processingLogs|].stage == status && r.processingLogs[|s.processingLogs|].message == message
    ensures r.(status := s.status, processingLogs := s.processingLogs) == s
  {
    Logged(s.(status := status), Entry(timestamp, status, message, None))
  }

  /** The session after a sequence of status changes, one `(status, message)` step at a time. */
  function AfterStatuses(s: DuelSession, steps: seq<(DuelStatus, string)>, timestamp: int): DuelSession
    decreases |steps|
  {
    if steps == [] then s
    else WithStatus(AfterStatuses(s, steps[..|steps| - 1], timestamp), steps[|steps| - 1].0, steps[|steps| - 1].1, timestamp)
  }

  /**
   * A run of status changes grows the log by one entry per step, each carrying
   * its step's status and message, after the entries that were already there;
   * the final status is the last step's.
   */
  lemma {:induction false} StatusTrail(s: DuelSession, steps: seq<(DuelStatus, string)>, timestamp: int)
    ensures var r := AfterStatuses(s, steps, timestamp);
      |r.processingLogs| == |s.processingLogs| + |steps|
      && r.processingLogs[..|s.processingLogs|] == s.processingLogs
      && (forall i :: 0 <= i < |steps| ==>
            r.processingLogs[|s.processingLogs| + i].stage == steps[i].0
            && r.processingLogs[|s.processingLogs| + i].message == steps[i].1)
      && (steps != [] ==> r.status == steps[|steps| - 1].0)
      && r.id == s.id && r.url1 == s.url1 && r.url2 == s.url2
    decreases |steps|
  {
    if steps != [] {
      var init := steps[..|steps| - 1];
      StatusTrail(s, init, timestamp);
      var before := AfterStatuses(s, init, timestamp);
      var r := AfterStatuses(s, steps, timestamp);
      assert r == WithStatus(before, steps[|steps| - 1].0, steps[|steps| - 1].1, timestamp);
      var n := |s.processingLogs|;
      assert r.processingLogs[..|before.processingLogs|] == before.processingLogs;
      forall i | 0 <= i < |steps|
        ensures r.processingLogs[n + i].stage == steps[i].0 && r.processingLogs[n + i].message == steps[i].1
      {
        if i < |init| {
          assert r.processingLogs[n + i] == before.processingLogs[n + i];
          assert init[i] == steps[i];
        }
      }
      assert r.processingLogs[..n] == before.processingLogs[..n];
    }
  }

  /** The session after an anime profile is stored in slot 1 or 2. */
  function WithAnimeProfile(s: DuelSession, profileNum: int, anime: AnimeProfile): (r: DuelSession)
    ensures profileNum == 1 ==> r == s.(profile1 := Some(anime))
    ensures profileNum != 1 ==> r == s.(profile2 := Some(anime))
  {
    if profileNum == 1 then s.(profile1 := Some(anime)) else s.(profile2 := Some(anime))
  }

  /** Every stored session is filed under its own id. */
  ghost predicate KeyedById(sessions: map<string, DuelSession>) {
    forall k :: k in sessions ==> sessions[k].id == k
  }

  function NotFound(sessionId: string): string {
    "Session " + sessionId + " not found"
  }

  /** The local store: `localStore` of the context service. */
  class SessionStore {
    var sessions: map<string, DuelSession>

    ghost predicate Valid()
      reads this
    {
      KeyedById(sessions)
    }

    constructor()
      ensures sessions == map[] && Valid()
    {
      sessions := map[];
    }

    /** `createDuelSession`: the fresh id and the clock are supplied by the caller. */
    method CreateDuelSession(sessionId: string, url1: string, url2: string, now: int) returns (session: DuelSession)
      requires Valid()
      modifies this
      ensures Valid()
      ensures session == NewSession(sessionId, url1, url2, now)
      ensures sessions == old(sessions)[sessionId := session]
    {
      session := NewSession(sessionId, url1, url2, now);
      sessions := sessions[sessionId := session];
    }

    /** `updateSessionStatus`: throws for a missing session, else sets the status and logs it. */
    method UpdateSessionStatus(sessionId: string, status: DuelStatus, message: string, now: int) returns (r: Result<()>)
      requires Valid()
      modifies this
      ensures Valid()
      ensures sessionId !in old(sessions) ==> r == Err(NotFound(sessionId)) && sessions == old(sessions)
      ensures sessionId in old(sessions) ==>
        r == Ok(()) && sessions == old(sessions)[sessionId := WithStatus(old(sessions)[sessionId], status, message, now)]
    {
      if sessionId !in sessions {
        return Err(NotFound(sessionId));
      }
      var session := sessions[sessionId];
      session := session.(status := status);
      session := session.(processingLogs := session.processingLogs + [Entry(now, status, message, None)]);
      sessions := sessions[sessionId := session];
      r := Ok(());
    }

    /** `storeProfileData`: only the remote client hears of it; the local store is left as it is. */
    method StoreProfileData(sessionId: string, profileNum: int, data: ScrapedData)
      ensures sessions == old(sessions)
    {
    }

    /** `storeNormalizedProfile`: as `storeProfileData`, no local effect. */
    method StoreNormalizedProfile(sessionId: string, profileNum: int, profile: ProfileData)
      ensures sessions == old(sessions)
    {
    }

    /** `storeAnimeProfile`: slot 1 sets `profile1`, any other slot `profile2`; throws for a missing session. */
    method StoreAnimeProfile(sessionId: string, profileNum: int, anime: AnimeProfile) returns (r: Result<()>)
      requires Valid()
      modifies this
      ensures Valid()
      ensures sessionId !in old(sessions) ==> r == Err(NotFound(sessionId)) && sessions == old(sessions)
      ensures sessionId in old(sessions) ==>
        r == Ok(()) && sessions == old(sessions)[sessionId := WithAnimeProfile(old(sessions)[sessionId], profileNum, anime)]
    {
      if sessionId !in sessions {
        return Err(NotFound(sessionId));
      }
      var session := sessions[sessionId];
      if profileNum == 1 {
        session := session.(profile1 := Some(anime));
      } else {
        session := session.(profile2 := Some(anime));
      }
      sessions := sessions[sessionId := session];
      r := Ok(());
    }

    /** `storeCommentary`: sets only the commentary; throws for a missing session. */
    method StoreCommentary(sessionId: string, commentary: Record) returns (r: Result<()>)
      requires Valid()
      modifies this
      ensures Valid()
      ensures sessionId !in old(sessions) ==> r == Err(NotFound(sessionId)) && sessions == old(sessions)
      ensures sessionId in old(sessions) ==>
        r == Ok(()) && sessions == old(sessions)[sessionId := old(sessions)[sessionId].(commentary := Some(commentary))]
    {
      if sessionId !in sessions {
        return Err(NotFound(sessionId));
      }
      var session := sessions[sessionId];
      session := session.(commentary := Some(commentary));
      sessions := sessions[sessionId := session];
      r := Ok(());
    }

    /** `storeDuelResult`: sets the winner, its name and the status `complete`; throws for a missing session. */
    method StoreDuelResult(sessionId: string, winner: Winner, winnerName: string) returns (r: Result<()>)
      requires Valid()
      modifies this
      ensures Valid()
      ensures sessionId !in old(sessions) ==> r == Err(NotFound(sessionId)) && sessions == old(sessions)
      ensures sessionId in old(sessions) ==>
        r == Ok(()) && sessions == old(sessions)[sessionId := old(sessions)[sessionId].(winner := Some(winner), winnerName := Some(winnerName), status := Complete)]
    {
      if sessionId !in sessions {
        return Err(NotFound(sessionId));
      }
      var session := sessions[sessionId];
      session := session.(winner := Some(winner), winnerName := Some(winnerName), status := Complete);
      sessions := sessions[sessionId := session];
      r := Ok(());
    }

    /** `getDuelSession`: the stored session, or none for an unknown id. */
    function GetDuelSession(sessionId: string): (r: Option<DuelSession>)
      reads this
      ensures r.None? <==> sessionId !in sessions
      ensures r.Some? ==> r.value == sessions[sessionId] && (Valid() ==> r.value.id == sessionId)
    {
      if sessionId in sessions then Some(sessions[sessionId]) else None
    }

    /** `addLog`: appends one entry; a missing session is silently ignored. */
    method AddLog(sessionId: string, stage: DuelStatus, message: string, data: Option<Value>, now: int)
      requires Valid()
      modifies this
      ensures Valid()
      ensures sessionId !in old(sessions) ==> sessions == old(sessions)
      ensures sessionId in old(sessions) ==>
        sessions == old(sessions)[sessionId := Logged(old(sessions)[sessionId], Entry(now, stage, message, data))]
    {
      if sessionId !in sessions {
        return;
      }
      var session := sessions[sessionId];
      session := session.(processingLogs := session.processingLogs + [Entry(now, stage, message, data)]);
      sessions := sessions[sessionId := session];
    }

    /** `getLogs`: the session's log, or the empty log for an unknown id. */
    function GetLogs(sessionId: string): (r: seq<ProcessingLog>)
      reads this
      ensures sessionId !in sessions ==> r == []
      ensures sessionId in sessions ==> r == sessions[sessionId].processingLogs
    {
      if sessionId in sessions then sessions[sessionId].processingLogs else []
    }
  }
}
