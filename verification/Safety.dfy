/** What every step of the visitor-risk protocol keeps, and so every run. */
module Safety {
  import opened Basics
  import opened Blacklist
  import opened Detection
  import opened Protocol
  import opened Scoring
  import opened Sessions
  import opened Sites
  import opened Visits

  // ------------------------------------------------- what every step keeps

  function Top(shared: bool): int {
    if shared then 200 else 100
  }

  ghost predicate SessionOk(s: State, top: int, id: string)
    requires id in s.world.sessions
  {
    var x := s.world.sessions[id];
    && x.id == id && x.isActive == !x.isBlocked && 0 <= x.risk <= top
    && id in s.born && s.born[id] == (x.siteId, x.ip)
  }

  ghost predicate JobOk(s: State, top: int, j: Job) {
    match j.stage
    case Looking => true
    case Loading => true
    case ReadingSettings(_) => true
    case Screening(_, _) => true
    case ReadingMetrics(risk) => 0 <= risk < 70
    case Writing(risk) => 0 <= risk <= top
    case Caching(risk) => 0 <= risk <= top
    case Reloading(risk) => 80 <= risk <= top
    case Blocking(risk, pair) => 80 <= risk <= top && j.sessionId in s.born && s.born[j.sessionId] == pair
    case Listing(risk, pair) => 80 <= risk <= top && j.sessionId in s.born && s.born[j.sessionId] == pair
    case Finished(ending) =>
      ending.Scored? ==>
        && 0 <= ending.risk <= top
        && (ending.entered.Some? ==>
              ending.risk >= 80 && j.sessionId in s.born && s.born[j.sessionId] == ending.entered.value)
  }

  /** The analysis has computed, and stored, a risk of 80 or more. */
  predicate Convicts(j: Job, sessionId: string) {
    j.sessionId == sessionId &&
    match j.stage
    case Caching(risk) => risk >= 80
    case Reloading(risk) => risk >= 80
    case Blocking(risk, _) => risk >= 80
    case Listing(risk, _) => risk >= 80
    case Finished(ending) => ending.Scored? && ending.risk >= 80
    case _ => false
  }

  ghost predicate Convicted(s: State, id: string) {
    exists pid :: pid in s.jobs && Convicts(s.jobs[pid], id)
  }

  ghost predicate Safe(s: State, top: int) {
    && (forall id | id in s.world.sessions :: SessionOk(s, top, id))
    && (forall pid | pid in s.jobs :: JobOk(s, top, s.jobs[pid]))
    && (forall id | id in s.world.sessions && s.world.sessions[id].isBlocked :: Convicted(s, id))
  }

  lemma ConvictionLasts(w: World, d: Memory, j: Job, now: Time, freshId: string, id: string)
    requires Convicts(j, id)
    ensures Convicts(Advance(w, d, j, now, freshId).2, id)
  {
  }

  /** A detector of one analysis scores no volume, any detector at most 100. */
  lemma VolumeRange(shared: bool, s: State, ip: string)
    ensures 0 <= Record(MemoryOf(shared, s).calls, ip, s.now).1 <= 100
    ensures !shared ==> Record(MemoryOf(shared, s).calls, ip, s.now).1 == 0
  {
    assert Recent([], s.now) + [s.now] == [s.now];
  }

  lemma JobStaysOk(shared: bool, s: State, j: Job, freshId: string)
    requires Safe(s, Top(shared)) && JobOk(s, Top(shared), j)
    ensures JobOk(s, Top(shared), Advance(s.world, MemoryOf(shared, s), j, s.now, freshId).2)
  {
    hide Evidence, HeadlessScore, Convicted, Listed, SettingsOf, Record, MemoryOf, Hit;
    HeadlessScoreMeaning(j.userAgent);
    VolumeRange(shared, s, j.ip);
    if j.sessionId in s.world.sessions {
      assert SessionOk(s, Top(shared), j.sessionId);
      EvidenceBound(s.world.sessions[j.sessionId].metrics);
    }
  }

  /** A session keeps who it is; `risk` bounds what its score may become. */
  ghost predicate Kept(before: Session, after: Session, top: int) {
    && after.id == before.id && after.siteId == before.siteId && after.ip == before.ip
    && after.isActive == !after.isBlocked && 0 <= after.risk <= top
  }

  /** What the storage calls of analyses and checks do to any session `x`. */
  lemma WritesKeep(m: Table, id: string, risk: int, now: Time, x: string, top: int)
    requires x in m && Kept(m[x], m[x], top)
    ensures x in Refresh(m, id, now) && Kept(m[x], Refresh(m, id, now)[x], top)
            && Refresh(m, id, now)[x].isBlocked == m[x].isBlocked
    ensures x in Block(m, id) && Kept(m[x], Block(m, id)[x], top)
    ensures Block(m, id)[x].isBlocked ==> m[x].isBlocked || x == id
    ensures var m' := SetRisk(m, id, risk);
            x in m' && (0 <= risk <= top ==> Kept(m[x], m'[x], top)) && m'[x].isBlocked == m[x].isBlocked
  {
  }

  lemma SafeSession(s: State, top: int, id: string)
    requires Safe(s, top)
    ensures id in s.world.sessions ==> SessionOk(s, top, id)
  {
  }

  lemma AdvanceKeepsOne(s: State, top: int, d: Memory, j: Job, now: Time, freshId: string, id: string)
    requires id in s.world.sessions && SessionOk(s, top, id) && JobOk(s, top, j)
    ensures var (w, _, j') := Advance(s.world, d, j, now, freshId);
            && id in w.sessions
            && Kept(s.world.sessions[id], w.sessions[id], top)
            && (w.sessions[id].isBlocked ==> s.world.sessions[id].isBlocked || Convicts(j', id))
  {
    hide Evidence, HeadlessScore, Listed, SettingsOf, DeepRisk, Upsert, BlockReason, Judge, Record, Hit, Refresh;
    hide Block, SetRisk;
    AdvanceKeepsKeys(s.world, d, j, now, freshId);
    WritesKeep(s.world.sessions, j.sessionId, if j.stage.Writing? then j.stage.risk else 0, now, id, top);
  }

  lemma AdvanceKeepsSessions(s: State, top: int, d: Memory, j: Job, now: Time, freshId: string)
    requires Safe(s, top) && JobOk(s, top, j)
    ensures var (w, _, j') := Advance(s.world, d, j, now, freshId);
            && w.sessions.Keys == s.world.sessions.Keys
            && forall id | id in w.sessions ::
                 && Kept(s.world.sessions[id], w.sessions[id], top)
                 && (w.sessions[id].isBlocked ==> s.world.sessions[id].isBlocked || Convicts(j', id))
  {
    hide Advance, Safe, JobOk, SessionOk, Kept, Convicts;
    var (w, _, j') := Advance(s.world, d, j, now, freshId);
    assert w.sessions.Keys == s.world.sessions.Keys by {
      AdvanceKeepsKeys(s.world, d, j, now, freshId);
    }
    forall id | id in w.sessions
      ensures Kept(s.world.sessions[id], w.sessions[id], top)
      ensures w.sessions[id].isBlocked ==> s.world.sessions[id].isBlocked || Convicts(j', id)
    {
      SafeSession(s, top, id);
      AdvanceKeepsOne(s, top, d, j, now, freshId, id);
    }
  }

  lemma AdvanceKeepsKeys(w: World, d: Memory, j: Job, now: Time, freshId: string)
    ensures Advance(w, d, j, now, freshId).0.sessions.Keys == w.sessions.Keys
  {
    hide HeadlessScore, Listed, SettingsOf, DeepRisk, Upsert, BlockReason, Judge, Record, Hit;
  }

  lemma AnalysisStepSafe(shared: bool, s: State, pid: nat, freshId: string)
    requires Safe(s, Top(shared))
    ensures Safe(Step(shared, s, AnalysisStep(pid, freshId)), Top(shared))
  {
    if pid !in s.jobs { return; }
    hide Advance, Convicts, MemoryOf;
    var top, d, j := Top(shared), MemoryOf(shared, s), s.jobs[pid];
    var s' := Step(shared, s, AnalysisStep(pid, freshId));
    JobStaysOk(shared, s, j, freshId);
    AdvanceKeepsSessions(s, top, d, j, s.now, freshId);
    forall id | id in s'.world.sessions
      ensures SessionOk(s', top, id) && (s'.world.sessions[id].isBlocked ==> Convicted(s', id))
    {
      assert SessionOk(s, top, id);
      if s.world.sessions[id].isBlocked {
        var other :| other in s.jobs && Convicts(s.jobs[other], id);
        if other == pid {
          ConvictionLasts(s.world, d, j, s.now, freshId, id);
        }
        assert other in s'.jobs && Convicts(s'.jobs[other], id);
      } else if s'.world.sessions[id].isBlocked {
        assert Convicts(s'.jobs[pid], id);
      }
    }
    forall other | other in s'.jobs
      ensures JobOk(s', top, s'.jobs[other])
    {
      assert other != pid ==> JobOk(s, top, s.jobs[other]);
    }
  }

  lemma ProceedKeepsOne(s: State, top: int, v: Visit, now: Time, freshId: string, detached: int, id: string)
    requires id in s.world.sessions && SessionOk(s, top, id) && (v.phase.Creating? ==> freshId !in s.born)
    ensures var (w, v') := Proceed(s.world, v, now, freshId, detached);
            && id in w.sessions
            && Kept(s.world.sessions[id], w.sessions[id], top)
            && w.sessions[id].isBlocked == s.world.sessions[id].isBlocked
  {
    hide Listed, ActionFor, Refresh, SetRisk;
    var own := if v.phase.Refreshing? || v.phase.Resetting? then v.phase.sessionId else "";
    WritesKeep(s.world.sessions, own, 0, now, id, top);
  }

  lemma ProceedAdds(w: World, v: Visit, now: Time, freshId: string, detached: int)
    ensures var w' := Proceed(w, v, now, freshId, detached).0;
            && w'.sessions.Keys == w.sessions.Keys + (if v.phase.Creating? then {freshId} else {})
            && (v.phase.Creating? ==>
                  var x := w'.sessions[freshId];
                  && x.id == freshId && x.isActive && !x.isBlocked && x.risk == 0
                  && x.siteId == v.req.siteId && x.ip == v.req.ip)
  {
    hide Listed, ActionFor;
  }

  lemma SameJobs(s: State, s': State, id: string)
    requires Convicted(s, id) && s'.jobs == s.jobs
    ensures Convicted(s', id)
  {
  }

  lemma BornGrows(s: State, s': State, top: int, j: Job)
    requires JobOk(s, top, j)
    requires forall id | id in s.born :: id in s'.born && s'.born[id] == s.born[id]
    ensures JobOk(s', top, j)
  {
  }

  lemma CheckStepSafe(shared: bool, s: State, vid: nat, freshId: string, detached: int)
    requires Safe(s, Top(shared))
    ensures Safe(Step(shared, s, CheckStep(vid, freshId, detached)), Top(shared))
  {
    if vid !in s.visits || (s.visits[vid].phase.Creating? && freshId in s.born) { return; }
    hide Proceed, Convicted, JobOk;
    var top, s' := Top(shared), Step(shared, s, CheckStep(vid, freshId, detached));
    ProceedAdds(s.world, s.visits[vid], s.now, freshId, detached);
    forall id | id in s'.world.sessions
      ensures SessionOk(s', top, id) && (s'.world.sessions[id].isBlocked ==> Convicted(s', id))
    {
      if id in s.world.sessions {
        assert SessionOk(s, top, id);
        ProceedKeepsOne(s, top, s.visits[vid], s.now, freshId, detached, id);
        if s.world.sessions[id].isBlocked {
          SameJobs(s, s', id);
        }
      }
    }
    forall pid | pid in s'.jobs
      ensures JobOk(s', top, s'.jobs[pid])
    {
      BornGrows(s, s', top, s.jobs[pid]);
    }
  }

  /** Actions that only edit sessions in place, or drop them. */
  lemma EditSafe(s: State, s': State, top: int)
    requires Safe(s, top) && s'.jobs == s.jobs && s'.born == s.born
    requires s'.world.sessions.Keys <= s.world.sessions.Keys
    requires forall id | id in s'.world.sessions ::
               && Kept(s.world.sessions[id], s'.world.sessions[id], top)
               && (s'.world.sessions[id].isBlocked ==> s.world.sessions[id].isBlocked)
    ensures Safe(s', top)
  {
    hide Convicted, JobOk;
    forall id | id in s'.world.sessions
      ensures SessionOk(s', top, id) && (s'.world.sessions[id].isBlocked ==> Convicted(s', id))
    {
      assert SessionOk(s, top, id);
      if s'.world.sessions[id].isBlocked {
        SameJobs(s, s', id);
      }
    }
    forall pid | pid in s'.jobs
      ensures JobOk(s', top, s'.jobs[pid])
    {
      BornGrows(s, s', top, s.jobs[pid]);
    }
  }

  /** A job that joins convicts nobody new. */
  lemma QuietJobSafe(s: State, top: int, pid: nat, j: Job)
    requires Safe(s, top) && JobOk(s, top, j)
    requires pid !in s.jobs
    ensures Safe(s.(jobs := s.jobs[pid := j]), top)
  {
    hide Convicts;
    var s' := s.(jobs := s.jobs[pid := j]);
    forall id | id in s'.world.sessions
      ensures SessionOk(s', top, id) && (s'.world.sessions[id].isBlocked ==> Convicted(s', id))
    {
      assert SessionOk(s, top, id);
      if s.world.sessions[id].isBlocked {
        var other :| other in s.jobs && Convicts(s.jobs[other], id);
        assert other in s'.jobs && Convicts(s'.jobs[other], id);
      }
    }
    forall other | other in s'.jobs
      ensures JobOk(s', top, s'.jobs[other])
    {
      assert other != pid ==> JobOk(s, top, s.jobs[other]);
    }
  }

  /** Actions of the sweeper, the administrators and the other handlers. */
  predicate Edits(a: Action) {
    !a.AnalysisStep? && !a.CheckStep? && !a.StartAnalysis?
  }

  lemma EditKeepsOne(shared: bool, s: State, a: Action, id: string)
    requires (id in s.world.sessions ==> SessionOk(s, Top(shared), id)) && Edits(a)
    ensures var s' := Step(shared, s, a);
            && s'.jobs == s.jobs && s'.born == s.born
            && (id in s'.world.sessions ==>
                  && id in s.world.sessions
                  && Kept(s.world.sessions[id], s'.world.sessions[id], Top(shared))
                  && (s'.world.sessions[id].isBlocked ==> s.world.sessions[id].isBlocked))
  {
    hide Advance, Proceed, Upsert, Delete, Cascade, CleanCache;
  }

  lemma EditStepSafe(shared: bool, s: State, a: Action)
    requires Safe(s, Top(shared)) && Edits(a)
    ensures Safe(Step(shared, s, a), Top(shared))
  {
    hide Safe, SessionOk, Step, Kept;
    var s' := Step(shared, s, a);
    SafeSession(s, Top(shared), "");
    EditKeepsOne(shared, s, a, "");
    forall id | id in s'.world.sessions
      ensures id in s.world.sessions && Kept(s.world.sessions[id], s'.world.sessions[id], Top(shared))
      ensures s'.world.sessions[id].isBlocked ==> s.world.sessions[id].isBlocked
    {
      SafeSession(s, Top(shared), id);
      EditKeepsOne(shared, s, a, id);
    }
    EditSafe(s, s', Top(shared));
  }

  lemma StepSafe(shared: bool, s: State, a: Action)
    requires Safe(s, Top(shared))
    ensures Safe(Step(shared, s, a), Top(shared))
  {
    hide Advance, Proceed, Safe;
    match a
    case AnalysisStep(pid, freshId) => AnalysisStepSafe(shared, s, pid, freshId);
    case CheckStep(vid, freshId, detached) => CheckStepSafe(shared, s, vid, freshId, detached);
    case StartAnalysis(pid, id, ip, ua) =>
      if pid !in s.jobs {
        QuietJobSafe(s, Top(shared), pid, Job(id, ip, ua, Looking));
      }
    case _ => EditStepSafe(shared, s, a);
  }

  lemma StartSafe(shared: bool, sites: SiteRows, now: Time)
    ensures Safe(Start(sites, now), Top(shared))
  {
  }

  /** In every state of every run: a stored session is active exactly when it
      is not blocked, keeps the site and the address it was created with, holds
      a risk in 0..100 (0..200 with a shared detector), and is blocked only if
      some analysis computed a risk of 80 or more for it. */
  lemma {:induction false} EveryRunIsSafe(shared: bool, sites: SiteRows, now: Time, acts: seq<Action>)
    ensures Safe(Run(shared, Start(sites, now), acts), Top(shared))
  {
    hide Step, Safe;
    if acts == [] {
      StartSafe(shared, sites, now);
    } else {
      EveryRunIsSafe(shared, sites, now, acts[..|acts| - 1]);
      StepSafe(shared, Run(shared, Start(sites, now), acts[..|acts| - 1]), acts[|acts| - 1]);
    }
  }

  // ------------------------------------------------------------ identity

  lemma BornStep(shared: bool, s: State, a: Action, id: string)
    requires id in s.born
    ensures var s' := Step(shared, s, a); id in s'.born && s'.born[id] == s.born[id]
  {
    hide Advance, Proceed;
  }

  /** No session ever changes its site or its address. */
  lemma {:induction false} NoSessionChangesSite(shared: bool, sites: SiteRows, now: Time, acts: seq<Action>,
      more: seq<Action>, id: string)
    requires id in Run(shared, Start(sites, now), acts).world.sessions
    requires id in Run(shared, Start(sites, now), acts + more).world.sessions
    ensures var x, y := Run(shared, Start(sites, now), acts).world.sessions[id],
        Run(shared, Start(sites, now), acts + more).world.sessions[id];
            x.siteId == y.siteId && x.ip == y.ip
  {
    hide Step;
    EveryRunIsSafe(shared, sites, now, acts);
    EveryRunIsSafe(shared, sites, now, acts + more);
    assert SessionOk(Run(shared, Start(sites, now), acts), Top(shared), id);
    assert SessionOk(Run(shared, Start(sites, now), acts + more), Top(shared), id);
    BornRun(shared, sites, now, acts, more, id);
  }

  lemma {:induction false} BornRun(shared: bool, sites: SiteRows, now: Time, acts: seq<Action>, more: seq<Action>,
                                   id: string)
    requires id in Run(shared, Start(sites, now), acts).born
    ensures id in Run(shared, Start(sites, now), acts + more).born
    ensures Run(shared, Start(sites, now), acts + more).born[id] == Run(shared, Start(sites, now), acts).born[id]
    decreases |more|
  {
    hide Step;
    var all := acts + more;
    if more == [] {
      assert all == acts;
    } else {
      assert all[..|all| - 1] == acts + more[..|more| - 1];
      BornRun(shared, sites, now, acts, more[..|more| - 1], id);
      BornStep(shared, Run(shared, Start(sites, now), all[..|all| - 1]), all[|all| - 1], id);
    }
  }
}
