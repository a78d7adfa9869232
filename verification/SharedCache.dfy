/** The cache of one shared detector against the store, at the granularity of
    single calls: an analysis writes its risk to the store first and to the
    cache second, and anything may run between. */
module SharedCache {
  import opened Basics
  import opened Blacklist
  import opened Detection
  import opened Protocol
  import opened Safety
  import opened Scoring
  import opened Sessions
  import opened Sites
  import opened Visits

  /** The analysis has written the risk of the session to the store, but not
      to the cache yet. */
  predicate Between(s: State, id: string, pid: nat) {
    pid in s.jobs && s.jobs[pid].sessionId == id && s.jobs[pid].stage.Caching?
  }

  ghost predicate Quiet(s: State, id: string) {
    forall pid :: !Between(s, id, pid)
  }

  ghost predicate OneWriter(s: State, id: string) {
    forall p, q | Between(s, id, p) && Between(s, id, q) :: p == q
  }

  /** A passed captcha is about to write the risk of the session itself. */
  predicate Resets(s: State, a: Protocol.Action, id: string) {
    a.CheckStep? && a.vid in s.visits && s.visits[a.vid].phase == Resetting(id)
  }

  /** The detector is the only writer of the session's risk, and no two
      analyses of it are between their writes at once. */
  ghost predicate Separate(s: State, acts: seq<Protocol.Action>, id: string) {
    forall k | 0 <= k <= |acts| ::
      OneWriter(Run(true, s, acts[..k]), id) && (k < |acts| ==> !Resets(Run(true, s, acts[..k]), acts[k], id))
  }

  ghost predicate Agrees(s: State, id: string) {
    id in s.memory.cache && id in s.world.sessions ==> s.memory.cache[id].score == s.world.sessions[id].risk
  }

  /** Between the writes the store already holds the risk of the writer. */
  ghost predicate Coherent(s: State, id: string) {
    && (id in s.memory.cache || id in s.world.sessions ==> id in s.born)
    && (forall pid | Between(s, id, pid) ::
          id in s.born && (id in s.world.sessions ==> s.world.sessions[id].risk == s.jobs[pid].stage.risk))
    && (Quiet(s, id) ==> Agrees(s, id))
  }

  // ------------------------------------------------- one step at a time

  lemma OtherAnalysis(w: World, d: Memory, j: Job, now: Time, freshId: string, id: string)
    requires j.sessionId != id
    ensures var (w', d', j') := Advance(w, d, j, now, freshId);
            && j'.sessionId == j.sessionId
            && (id in w'.sessions <==> id in w.sessions) && (id in w.sessions ==> w'.sessions[id] == w.sessions[id])
            && (id in d'.cache <==> id in d.cache) && (id in d.cache ==> d'.cache[id] == d.cache[id])
  {
    hide HeadlessScore, DeepRisk, Judge, Record, Hit, Listed, Upsert, EntryFor, SettingsOf;
  }

  /** What a call of an analysis of the session itself does to it. */
  lemma OwnAnalysis(w: World, d: Memory, j: Job, now: Time, freshId: string)
    ensures var id := j.sessionId;
            var (w', d', j') := Advance(w, d, j, now, freshId);
            && j'.sessionId == id
            && (id in w'.sessions <==> id in w.sessions)
            && (j'.stage.Caching? <==> j.stage.Writing? && id in w.sessions)
            && (j'.stage.Caching? ==> w'.sessions[id].risk == j'.stage.risk)
            && (!j'.stage.Caching? && id in w.sessions ==> w'.sessions[id].risk == w.sessions[id].risk)
            && (if j.stage.Caching? then id in d'.cache && d'.cache[id].score == j.stage.risk
                else (id in d'.cache <==> id in d.cache) && (id in d.cache ==> d'.cache[id] == d.cache[id]))
  {
    hide HeadlessScore, DeepRisk, Judge, Record, Hit, Listed, Upsert, EntryFor, SettingsOf;
  }

  lemma AnalysisCoherent(s: State, pid: nat, freshId: string, id: string)
    requires Coherent(s, id) && OneWriter(s, id) && OneWriter(Step(true, s, AnalysisStep(pid, freshId)), id)
    ensures Coherent(Step(true, s, AnalysisStep(pid, freshId)), id)
  {
    if pid !in s.jobs { return; }
    hide Advance;
    var j, s' := s.jobs[pid], Step(true, s, AnalysisStep(pid, freshId));
    assert forall p | p != pid :: Between(s', id, p) <==> Between(s, id, p);
    if j.sessionId != id {
      OtherAnalysis(s.world, s.memory, j, s.now, freshId, id);
      assert !Between(s, id, pid) && !Between(s', id, pid);
    } else {
      OwnAnalysis(s.world, s.memory, j, s.now, freshId);
      if s'.jobs[pid].stage.Caching? {
        assert Between(s', id, pid);
      } else if j.stage.Caching? {
        assert Between(s, id, pid);
      } else {
        assert !Between(s, id, pid) && !Between(s', id, pid);
      }
    }
  }

  /** A check may create the session, if it was never born, and changes its
      risk only by a reset. */
  lemma CheckKeepsRisk(w: World, v: Visit, now: Time, freshId: string, detached: int, id: string)
    requires v.phase != Resetting(id)
    ensures var w' := Proceed(w, v, now, freshId, detached).0;
            && (id in w'.sessions <==> id in w.sessions || (v.phase.Creating? && id == freshId))
            && (id in w.sessions && !(v.phase.Creating? && id == freshId) ==>
                  w'.sessions[id].risk == w.sessions[id].risk)
  {
    hide Listed, ActionFor;
  }

  lemma CheckCoherent(s: State, vid: nat, freshId: string, detached: int, id: string)
    requires Coherent(s, id) && !Resets(s, CheckStep(vid, freshId, detached), id)
    ensures Coherent(Step(true, s, CheckStep(vid, freshId, detached)), id)
  {
    if vid !in s.visits || (s.visits[vid].phase.Creating? && freshId in s.born) { return; }
    hide Proceed;
    var s' := Step(true, s, CheckStep(vid, freshId, detached));
    CheckKeepsRisk(s.world, s.visits[vid], s.now, freshId, detached, id);
    assert forall p :: Between(s', id, p) <==> Between(s, id, p);
  }

  lemma EditKeepsRisk(s: State, a: Protocol.Action, id: string)
    requires Edits(a)
    ensures var s' := Step(true, s, a);
            && s'.jobs == s.jobs && s'.born == s.born
            && (id in s'.world.sessions ==>
                  id in s.world.sessions && s'.world.sessions[id].risk == s.world.sessions[id].risk)
            && (id in s'.memory.cache ==> id in s.memory.cache && s'.memory.cache[id] == s.memory.cache[id])
  {
    hide Advance, Proceed, Upsert, Delete, Cascade, Dead;
  }

  lemma StepCoherent(s: State, a: Protocol.Action, id: string)
    requires Coherent(s, id) && !Resets(s, a, id) && OneWriter(s, id) && OneWriter(Step(true, s, a), id)
    ensures Coherent(Step(true, s, a), id)
  {
    hide Advance, Proceed, Dead, CleanCache;
    match a
    case AnalysisStep(pid, freshId) => AnalysisCoherent(s, pid, freshId, id);
    case CheckStep(vid, freshId, detached) => CheckCoherent(s, vid, freshId, detached, id);
    case StartAnalysis(pid, _, _, _) =>
      assert forall p :: Between(Step(true, s, a), id, p) <==> Between(s, id, p);
    case StartCheck(_, _) => SameForTheSession(s, Step(true, s, a), id);
    case _ =>
      EditKeepsRisk(s, a, id);
      SameForTheSession(s, Step(true, s, a), id);
  }

  lemma SameForTheSession(s: State, s': State, id: string)
    requires Coherent(s, id) && s'.jobs == s.jobs && s'.born == s.born
    requires id in s'.world.sessions ==>
               id in s.world.sessions && s'.world.sessions[id].risk == s.world.sessions[id].risk
    requires id in s'.memory.cache ==> id in s.memory.cache && s'.memory.cache[id] == s.memory.cache[id]
    ensures Coherent(s', id)
  {
    assert forall p :: Between(s', id, p) <==> Between(s, id, p);
  }

  // ------------------------------------------------------------ whole runs

  lemma {:induction false} RunCoherent(s: State, acts: seq<Protocol.Action>, id: string)
    requires Coherent(s, id) && Separate(s, acts, id)
    ensures Coherent(Run(true, s, acts), id)
  {
    hide Step, Coherent, OneWriter, Resets;
    if acts == [] {
    } else {
      var n := |acts| - 1;
      var init := acts[..n];
      assert Separate(s, init, id) by {
        assert forall k | 0 <= k <= n :: init[..k] == acts[..k];
      }
      RunCoherent(s, init, id);
      assert acts[..|acts|] == acts;
      assert OneWriter(Run(true, s, init), id) && OneWriter(Run(true, s, acts), id);
      assert !Resets(Run(true, s, init), acts[n], id);
      StepCoherent(Run(true, s, init), acts[n], id);
    }
  }

  /** In every run of one shared detector in which nothing else writes the risk
      of a session and no two analyses of it overlap between their two writes:
      whenever none is between them, what the cache holds for the session is
      its stored risk. So `GetCachedRisk`, however old the entry, answers with
      the risk the store holds. */
  lemma CacheAgreesWhenQuiet(sites: SiteRows, now: Time, acts: seq<Protocol.Action>, id: string)
    requires Separate(Start(sites, now), acts, id)
    ensures var s := Run(true, Start(sites, now), acts); Quiet(s, id) ==> Agrees(s, id)
  {
    hide Separate, Step;
    RunCoherent(Start(sites, now), acts, id);
  }

  /** The other writer is a check: a passed captcha clears the stored risk and
      leaves the cache as it is, so the two agree after it exactly when the
      cache holds no risk either. */
  lemma ResetAgreesIff(s: State, vid: nat, freshId: string, detached: int, id: string)
    requires Resets(s, CheckStep(vid, freshId, detached), id)
    requires id in s.world.sessions && id in s.memory.cache
    ensures Agrees(Step(true, s, CheckStep(vid, freshId, detached)), id) <==> s.memory.cache[id].score == 0
  {
    hide Advance, Dead, Listed, ActionFor;
    var s' := Step(true, s, CheckStep(vid, freshId, detached));
    assert s'.memory == s.memory && id in s'.world.sessions && s'.world.sessions[id].risk == 0;
  }

  // ------------------------------------------------- two writers disagree

  const SITES: SiteRows := map["site" := Site(Active, Some(Analyzer(true, true)))]

  const ID := "visitor-1"

  const REQUEST := CheckRequest(false, "site", "10.0.0.1", "", "", "", Parsed(false))

  /** One check, and then two analyses that compute 65 and 70 and are about to write. */
  function Prelude(): seq<Protocol.Action> {
    [StartCheck(0, REQUEST)] + Repeat(CheckStep(0, ID, 0), 5)
    + [StartAnalysis(1, ID, "10.0.0.1", AGENT_65), StartAnalysis(2, ID, "10.0.0.1", AGENT_70)]
    + Repeat(AnalysisStep(1, "row"), 5) + Repeat(AnalysisStep(2, "row"), 4)
  }

  /** The first writes to the store, the second to both, the first to the cache. */
  function Crossing(): seq<Protocol.Action> {
    [AnalysisStep(1, "row"), AnalysisStep(2, "row"), AnalysisStep(2, "row"), AnalysisStep(1, "row")]
  }

  function Enrolled(): Session {
    NewSession(ID, REQUEST).(expiresAt := SESSION_TTL)
  }

  /** The states of the prelude. */
  function Visited(): State {
    State(World(map[ID := Enrolled()], map[], SITES), FORGETFUL, map[],
          map[0 := Visit(REQUEST, Answered(Checked(Allow, ID, 0)))], map[ID := ("site", "10.0.0.1")], 0)
  }

  lemma FiveSteps(s: State, a: Protocol.Action)
    ensures Run(true, s, Repeat(a, 5)) ==
            Step(true, Step(true, Step(true, Step(true, Step(true, s, a), a), a), a), a)
  {
    hide Step;
    assert Repeat(a, 5)[..4] == Repeat(a, 4) && Repeat(a, 4)[..3] == Repeat(a, 3);
    assert Repeat(a, 3)[..2] == Repeat(a, 2) && Repeat(a, 2)[..1] == Repeat(a, 1) && Repeat(a, 1)[..0] == [];
    assert Run(true, s, Repeat(a, 1)) == Step(true, s, a);
    assert Run(true, s, Repeat(a, 2)) == Step(true, Step(true, s, a), a);
    assert Run(true, s, Repeat(a, 3)) == Step(true, Run(true, s, Repeat(a, 2)), a);
    assert Run(true, s, Repeat(a, 4)) == Step(true, Run(true, s, Repeat(a, 3)), a);
  }

  /** The visit once it has come to create a session. */
  function Arrived(): State {
    Start(SITES, 0).(visits := map[0 := Visit(REQUEST, Creating)])
  }

  lemma VisitArrives()
    ensures var s := Start(SITES, 0).(visits := map[0 := Visit(REQUEST, FindingSite)]);
            var a := CheckStep(0, ID, 0);
            Step(true, Step(true, Step(true, s, a), a), a) == Arrived()
  {
    hide Advance, Create, Refresh, SetRisk;
    var s, a := Start(SITES, 0).(visits := map[0 := Visit(REQUEST, FindingSite)]), CheckStep(0, ID, 0);
    assert Step(true, s, a) == s.(visits := map[0 := Visit(REQUEST, CheckingList)]);
    assert Step(true, Step(true, s, a), a) == s.(visits := map[0 := Visit(REQUEST, FindingSession)]);
  }

  lemma VisitIsServed()
    ensures var a := CheckStep(0, ID, 0); Step(true, Step(true, Arrived(), a), a) == Visited()
  {
    hide Advance, Listed;
    var s, a := Arrived(), CheckStep(0, ID, 0);
    assert Step(true, s, a).visits == map[0 := Visit(REQUEST, Refreshing(ID))];
    assert Step(true, s, a).world.sessions == map[ID := Enrolled()];
  }

  lemma VisitEnds()
    ensures Run(true, Start(SITES, 0), [StartCheck(0, REQUEST)] + Repeat(CheckStep(0, ID, 0), 5)) == Visited()
  {
    hide Advance, Proceed;
    var s0, a := Start(SITES, 0), CheckStep(0, ID, 0);
    RunInTwo(true, s0, [StartCheck(0, REQUEST)], Repeat(a, 5));
    assert [StartCheck(0, REQUEST)][..0] == [];
    var s := Run(true, s0, [StartCheck(0, REQUEST)]);
    assert s == s0.(visits := map[0 := Visit(REQUEST, FindingSite)]);
    FiveSteps(s, a);
    VisitArrives();
    VisitIsServed();
  }

  /** Both analyses are about to write what they computed. */
  function Ready(calls: Calls): State {
    Visited().(memory := Memory(map[], calls),
               jobs := map[1 := Job(ID, "10.0.0.1", AGENT_65, Writing(65)),
                           2 := Job(ID, "10.0.0.1", AGENT_70, Writing(70))])
  }

  /** From the visit on, an analysis of an unlisted visitor without metrics
      computes the score of its agent, for one of the first thirty calls. */
  lemma ComputesAgent(w: World, d: Memory, j: Job)
    requires w == Visited().world && d.cache == map[] && j == Job(ID, "10.0.0.1", j.userAgent, Looking)
    requires Record(d.calls, "10.0.0.1", 0).1 == 0
    ensures !Hit(d.cache, ID, 0) && Computed(w, d, j, 0) == HeadlessScore(j.userAgent)
    ensures var (v, d') := Assess(w, d, "site", "10.0.0.1", j.userAgent, 0);
            (v.needDeep <==> HeadlessScore(j.userAgent) < 70) && d'.cache == map[]
            && d'.calls == Record(d.calls, "10.0.0.1", 0).0
  {
    hide HeadlessScore, Record, Evidence;
  }

  lemma FirstTwoCalls()
    ensures var (one, first) := Record(map[], "10.0.0.1", 0);
            first == 0 && Record(one, "10.0.0.1", 0).1 == 0
  {
    assert Recent([], 0) + [0] == [0];
    assert [0][..0] == [];
    assert Recent([0], 0) == [0];
  }

  lemma BothCompute() returns (calls: Calls)
    ensures Run(true, Start(SITES, 0), Prelude()) == Ready(calls)
  {
    hide Step, Alone, Computed, Assess, HeadlessScore, Record, Visited;
    var s0 := Start(SITES, 0);
    var jobs := [StartAnalysis(1, ID, "10.0.0.1", AGENT_65), StartAnalysis(2, ID, "10.0.0.1", AGENT_70)];
    var visit := [StartCheck(0, REQUEST)] + Repeat(CheckStep(0, ID, 0), 5);
    var one, two := Repeat(AnalysisStep(1, "row"), 5), Repeat(AnalysisStep(2, "row"), 4);
    VisitEnds();
    RunInTwo(true, s0, visit, jobs);
    RunInTwo(true, s0, visit + jobs, one);
    RunInTwo(true, s0, visit + jobs + one, two);
    var s := StartBoth();
    FirstTwoCalls();
    SixtyFiveAndSeventy();
    VisitedFacts();
    var w, j1, j2 := s.world, s.jobs[1], s.jobs[2];
    ComputesAgent(w, s.memory, j1);
    var n1 := AloneComputes(w, s.memory, j1, 0, "row");
    RunOneJob(true, s, 1, "row", n1);
    var t := Run(true, s, one);
    ComputesAgent(w, t.memory, j2);
    var n2 := AloneComputes(w, t.memory, j2, 0, "row");
    RunOneJob(true, t, 2, "row", n2);
    calls := Run(true, t, two).memory.calls;
    assert Run(true, t, two).jobs == Ready(calls).jobs;
  }

  lemma VisitedFacts()
    ensures var s := Visited();
            && s.memory == FORGETFUL && s.jobs == map[] && s.now == 0 && s.world.sites == SITES
            && ID in s.world.sessions && s.world.sessions[ID].siteId == "site"
  {
  }

  /** Two analyses join. */
  lemma StartBoth() returns (s: State)
    ensures var a, b := StartAnalysis(1, ID, "10.0.0.1", AGENT_65), StartAnalysis(2, ID, "10.0.0.1", AGENT_70);
            s == Run(true, Visited(), [a, b])
    ensures s == Visited().(jobs := map[1 := Job(ID, "10.0.0.1", AGENT_65, Looking),
                                        2 := Job(ID, "10.0.0.1", AGENT_70, Looking)])
  {
    hide Advance, Proceed;
    var a, b := StartAnalysis(1, ID, "10.0.0.1", AGENT_65), StartAnalysis(2, ID, "10.0.0.1", AGENT_70);
    assert [a, b][..1] == [a] && [a][..0] == [];
    assert Run(true, Visited(), [a]) == Step(true, Visited(), a);
    s := Step(true, Step(true, Visited(), a), b);
  }

  lemma ThenWrites(s: State, pid: nat, risk: int)
    requires pid in s.jobs && s.jobs[pid].sessionId == ID && s.jobs[pid].stage == Writing(risk)
    requires ID in s.world.sessions
    ensures var s' := Step(true, s, AnalysisStep(pid, "row"));
            && s'.jobs == s.jobs[pid := s.jobs[pid].(stage := Caching(risk))] && s'.memory == s.memory
            && ID in s'.world.sessions && s'.world.sessions[ID].risk == risk
  {
    hide Proceed;
  }

  lemma ThenCaches(s: State, pid: nat, risk: int)
    requires pid in s.jobs && s.jobs[pid].sessionId == ID && s.jobs[pid].stage == Caching(risk) && risk < 80
    ensures var s' := Step(true, s, AnalysisStep(pid, "row"));
            && s'.jobs == s.jobs[pid := s.jobs[pid].(stage := Finished(Scored(risk, None)))] && s'.world == s.world
            && ID in s'.memory.cache && s'.memory.cache[ID].score == risk
  {
    hide Proceed;
  }

  lemma Cross(calls: Calls)
    ensures var s := Run(true, Ready(calls), Crossing());
            && Quiet(s, ID) && ID in s.memory.cache && ID in s.world.sessions
            && s.memory.cache[ID].score == 65 && s.world.sessions[ID].risk == 70
  {
    hide Step;
    var a, b := AnalysisStep(1, "row"), AnalysisStep(2, "row");
    var s0 := Ready(calls);
    assert [a, b, b, a][..3] == [a, b, b] && [a, b, b][..2] == [a, b] && [a, b][..1] == [a] && [a][..0] == [];
    ThenWrites(s0, 1, 65);
    var s1 := Step(true, s0, a);
    assert Run(true, s0, [a]) == s1;
    ThenWrites(s1, 2, 70);
    var s2 := Step(true, s1, b);
    assert Run(true, s0, [a, b]) == s2;
    ThenCaches(s2, 2, 70);
    var s3 := Step(true, s2, b);
    assert Run(true, s0, [a, b, b]) == s3;
    ThenCaches(s3, 1, 65);
    assert Run(true, s0, Crossing()) == Step(true, s3, a);
  }

  /** Where two analyses do overlap there, the cache can be left for good with a
      risk that is not the stored one: here 65 against 70. */
  lemma TwoWritersDisagree()
    ensures var s := Run(true, Start(SITES, 0), Prelude() + Crossing());
            Quiet(s, ID) && !Agrees(s, ID)
  {
    hide Run, Step;
    var calls := BothCompute();
    RunInTwo(true, Start(SITES, 0), Prelude(), Crossing());
    Cross(calls);
  }
}
