/** Who wrote last: over any run of one shared detector, without provisos, the
    order of the writes to the store and to the cache decides whether the two
    hold the same risk of a session. */
module LastWriters {
  import opened Basics
  import opened Detection
  import opened Protocol
  import opened Scoring
  import opened SharedCache
  import opened Sites
  import opened Visits

  /** What wrote a risk: nothing yet, an analysis, or a check after a captcha. */
  datatype Writer = Nobody | Analysis(pid: nat) | Captcha

  /** What the action writes to the stored risk of the session. */
  function Stores(s: State, a: Protocol.Action, id: string): Writer {
    match a
    case AnalysisStep(pid, _) =>
      if pid in s.jobs && s.jobs[pid].sessionId == id && s.jobs[pid].stage.Writing? && id in s.world.sessions
      then Analysis(pid) else Nobody
    case CheckStep(_, _, _) => if Resets(s, a, id) && id in s.world.sessions then Captcha else Nobody
    case _ => Nobody
  }

  /** What it writes to the cache. */
  function Caches(s: State, a: Protocol.Action, id: string): Writer {
    if a.AnalysisStep? && Between(s, id, a.pid) then Analysis(a.pid) else Nobody
  }

  /** The last of a run to write the stored risk. */
  function LastStored(s: State, acts: seq<Protocol.Action>, id: string): Writer {
    if acts == [] then Nobody
    else
      var init := acts[..|acts| - 1];
      var writer := Stores(Run(true, s, init), acts[|acts| - 1], id);
      if writer.Nobody? then LastStored(s, init, id) else writer
  }

  /** The last of a run to write the cache. */
  function LastCached(s: State, acts: seq<Protocol.Action>, id: string): Writer {
    if acts == [] then Nobody
    else
      var init := acts[..|acts| - 1];
      var writer := Caches(Run(true, s, init), acts[|acts| - 1], id);
      if writer.Nobody? then LastCached(s, init, id) else writer
  }

  /** The risk an analysis has written, once it has. */
  function Written(stage: Stage): Option<int> {
    match stage
    case Caching(risk) => Some(risk)
    case Reloading(risk) => Some(risk)
    case Blocking(risk, _) => Some(risk)
    case Listing(risk, _) => Some(risk)
    case Finished(Scored(risk, _)) => Some(risk)
    case _ => None
  }

  /** A session is created, and a captcha leaves it, with the risk 0. */
  function RiskBy(s: State, writer: Writer): int {
    if writer.Analysis? && writer.pid in s.jobs && Written(s.jobs[writer.pid].stage).Some?
    then Written(s.jobs[writer.pid].stage).value else 0
  }

  predicate HasWritten(s: State, writer: Writer, id: string) {
    writer.Analysis? ==>
      writer.pid in s.jobs && s.jobs[writer.pid].sessionId == id && Written(s.jobs[writer.pid].stage).Some?
  }

  /** Store and cache hold what these wrote. */
  ghost predicate Traced(s: State, id: string, stored: Writer, cached: Writer) {
    && HasWritten(s, stored, id) && HasWritten(s, cached, id)
    && (id in s.world.sessions ==> id in s.born && s.world.sessions[id].risk == RiskBy(s, stored))
    && (id in s.memory.cache ==> id in s.born && s.memory.cache[id].score == RiskBy(s, cached))
    && (id in s.born || forall pid | pid in s.jobs && s.jobs[pid].sessionId == id :: Written(s.jobs[pid].stage).None?)
  }

  function Latest(before: Writer, now: Writer): Writer {
    if now.Nobody? then before else now
  }

  /** What an analysis has written stays on its record. */
  lemma WrittenStays(w: World, d: Memory, j: Job, now: Time, freshId: string)
    ensures var j' := Advance(w, d, j, now, freshId).2;
            && j'.sessionId == j.sessionId
            && (Written(j.stage).Some? ==> Written(j'.stage) == Written(j.stage))
            && (j.stage.Writing? && j.sessionId in w.sessions ==> Written(j'.stage) == Some(j.stage.risk))
            && (Written(j.stage).None? && !(j.stage.Writing? && j.sessionId in w.sessions) ==> Written(j'.stage).None?)
  {
    hide HeadlessScore, DeepRisk, Judge, Record, Hit, Blacklist.Listed, Blacklist.Upsert, EntryFor, SettingsOf;
  }

  lemma CachingHasWritten(stage: Stage)
    ensures stage.Caching? ==> Written(stage) == Some(stage.risk)
  {
  }

  /** An analysis of another session writes nothing of this one. */
  lemma OtherTraced(s: State, pid: nat, freshId: string, id: string, stored: Writer, cached: Writer)
    requires Traced(s, id, stored, cached) && pid in s.jobs && s.jobs[pid].sessionId != id
    ensures Traced(Step(true, s, AnalysisStep(pid, freshId)), id, stored, cached)
  {
    hide Advance, Written;
    WrittenStays(s.world, s.memory, s.jobs[pid], s.now, freshId);
    OtherAnalysis(s.world, s.memory, s.jobs[pid], s.now, freshId, id);
  }

  lemma OwnTraced(s: State, pid: nat, freshId: string, id: string, stored: Writer, cached: Writer)
    requires Traced(s, id, stored, cached) && pid in s.jobs && s.jobs[pid].sessionId == id
    ensures var a := AnalysisStep(pid, freshId);
            Traced(Step(true, s, a), id, Latest(stored, Stores(s, a, id)), Latest(cached, Caches(s, a, id)))
  {
    hide Advance, Written;
    var j := s.jobs[pid];
    WrittenStays(s.world, s.memory, j, s.now, freshId);
    CachingHasWritten(j.stage);
    OwnAnalysis(s.world, s.memory, j, s.now, freshId);
    var s' := Step(true, s, AnalysisStep(pid, freshId));
    CachingHasWritten(s'.jobs[pid].stage);
  }

  lemma AnalysisTraced(s: State, pid: nat, freshId: string, id: string, stored: Writer, cached: Writer)
    requires Traced(s, id, stored, cached)
    ensures var a := AnalysisStep(pid, freshId);
            Traced(Step(true, s, a), id, Latest(stored, Stores(s, a, id)), Latest(cached, Caches(s, a, id)))
  {
    hide Traced, Advance;
    if pid in s.jobs {
      if s.jobs[pid].sessionId == id {
        OwnTraced(s, pid, freshId, id, stored, cached);
      } else {
        OtherTraced(s, pid, freshId, id, stored, cached);
      }
    }
  }

  lemma CheckTraced(s: State, vid: nat, freshId: string, detached: int, id: string, stored: Writer, cached: Writer)
    requires Traced(s, id, stored, cached)
    ensures var a := CheckStep(vid, freshId, detached);
            Traced(Step(true, s, a), id, Latest(stored, Stores(s, a, id)), cached)
  {
    if vid !in s.visits || (s.visits[vid].phase.Creating? && freshId in s.born) { return; }
    hide Blacklist.Listed, ActionFor;
    if s.visits[vid].phase != Resetting(id) {
      CheckKeepsRisk(s.world, s.visits[vid], s.now, freshId, detached, id);
    }
  }

  lemma JoinTraced(s: State, pid: nat, session: string, ip: string, ua: string, id: string, stored: Writer,
                   cached: Writer)
    requires Traced(s, id, stored, cached)
    ensures Traced(Step(true, s, StartAnalysis(pid, session, ip, ua)), id, stored, cached)
  {
    hide Advance, Proceed;
  }

  lemma SameTraced(s: State, s': State, id: string, stored: Writer, cached: Writer)
    requires Traced(s, id, stored, cached) && s'.jobs == s.jobs && s'.born == s.born
    requires id in s'.world.sessions ==>
               id in s.world.sessions && s'.world.sessions[id].risk == s.world.sessions[id].risk
    requires id in s'.memory.cache ==> id in s.memory.cache && s'.memory.cache[id] == s.memory.cache[id]
    ensures Traced(s', id, stored, cached)
  {
  }

  lemma StepTraced(s: State, a: Protocol.Action, id: string, stored: Writer, cached: Writer)
    requires Traced(s, id, stored, cached)
    ensures Traced(Step(true, s, a), id, Latest(stored, Stores(s, a, id)), Latest(cached, Caches(s, a, id)))
  {
    hide Step, Traced, Between, Resets;
    match a
    case AnalysisStep(pid, freshId) => AnalysisTraced(s, pid, freshId, id, stored, cached);
    case CheckStep(vid, freshId, detached) => CheckTraced(s, vid, freshId, detached, id, stored, cached);
    case StartAnalysis(pid, session, ip, ua) => JoinTraced(s, pid, session, ip, ua, id, stored, cached);
    case _ =>
      EditKeepsRisk(s, a, id);
      SameTraced(s, Step(true, s, a), id, stored, cached);
  }

  lemma {:induction false} RunTraced(sites: SiteRows, now: Time, acts: seq<Protocol.Action>, id: string)
    ensures var s := Start(sites, now);
            Traced(Run(true, s, acts), id, LastStored(s, acts, id), LastCached(s, acts, id))
  {
    hide Step, Traced, Stores, Caches;
    if acts == [] {
      StartTraced(sites, now, id);
    } else {
      var s, init := Start(sites, now), acts[..|acts| - 1];
      RunTraced(sites, now, init, id);
      StepTraced(Run(true, s, init), acts[|acts| - 1], id, LastStored(s, init, id), LastCached(s, init, id));
    }
  }

  lemma StartTraced(sites: SiteRows, now: Time, id: string)
    ensures Traced(Start(sites, now), id, Nobody, Nobody)
  {
  }

  /** In every run of one shared detector: cache and store agree on a session
      they both know exactly when the last to write the store and the last to
      write the cache wrote the same risk; so they do whenever that was one and
      the same analysis, whatever overlapped before. */
  lemma AgreeIffLastWritersDo(sites: SiteRows, now: Time, acts: seq<Protocol.Action>, id: string)
    requires var s := Run(true, Start(sites, now), acts); id in s.memory.cache && id in s.world.sessions
    ensures var s0 := Start(sites, now);
            var s, stored, cached := Run(true, s0, acts), LastStored(s0, acts, id), LastCached(s0, acts, id);
            && (Agrees(s, id) <==> RiskBy(s, stored) == RiskBy(s, cached))
            && (stored == cached ==> Agrees(s, id))
  {
    hide Run, LastStored, LastCached, RiskBy, HasWritten;
    RunTraced(sites, now, acts, id);
  }
}
