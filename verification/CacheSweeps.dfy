/** Cleaning the cache of a shared detector, beside analyses broken at every
    call: what nobody can notice, and what somebody can. */
module CacheSweeps {
  import opened Basics
  import opened Detection
  import opened Protocol
  import opened Scoring
  import opened Sessions
  import opened SharedCache
  import opened Sites

  /** The two differ at most in what their caches no longer answer. */
  ghost predicate Alike(s: State, t: State) {
    s == t.(memory := s.memory) && s.memory.calls == t.memory.calls && SameHits(s.memory.cache, t.memory.cache, s.now)
  }

  lemma CallAlike(w: World, a: Memory, b: Memory, j: Job, now: Time, freshId: string)
    requires SameHits(a.cache, b.cache, now) && a.calls == b.calls
    ensures var (w1, a', j1) := Advance(w, a, j, now, freshId);
            var (w2, b', j2) := Advance(w, b, j, now, freshId);
            w1 == w2 && j1 == j2 && a'.calls == b'.calls && SameHits(a'.cache, b'.cache, now)
  {
    hide HeadlessScore, DeepRisk, Judge, Record, Blacklist.Listed, Blacklist.Upsert, EntryFor, SettingsOf;
    assert Hit(a.cache, j.sessionId, now) == Hit(b.cache, j.sessionId, now);
  }

  /** An action does the same to both. */
  lemma StepAlike(s: State, t: State, a: Protocol.Action)
    requires Alike(s, t)
    ensures Alike(Step(true, s, a), Step(true, t, a))
  {
    hide Advance, Proceed, Dead, Create, Refresh, Blacklist.Upsert, Blacklist.Delete, Blacklist.Cascade;
    if a.AnalysisStep? && a.pid in s.jobs {
      CallAlike(s.world, s.memory, t.memory, s.jobs[a.pid], s.now, a.freshId);
    }
  }

  lemma {:induction false} RunAlike(s: State, t: State, acts: seq<Protocol.Action>)
    requires Alike(s, t)
    ensures Alike(Run(true, s, acts), Run(true, t, acts))
  {
    hide Step, Alike;
    if acts != [] {
      RunAlike(s, t, acts[..|acts| - 1]);
      StepAlike(Run(true, s, acts[..|acts| - 1]), Run(true, t, acts[..|acts| - 1]), acts[|acts| - 1]);
    }
  }

  lemma SweepAlike(s: State, t: State)
    requires Alike(s, t)
    ensures Alike(Step(true, s, SweepCache), t)
  {
  }

  function WithoutSweeps(acts: seq<Protocol.Action>): seq<Protocol.Action> {
    if acts == [] then []
    else
      var init, a := acts[..|acts| - 1], acts[|acts| - 1];
      if a.SweepCache? then WithoutSweeps(init) else WithoutSweeps(init) + [a]
  }

  /** Whole sweeps, anywhere between the calls of any analyses and checks, leave
      every answer and every stored value as it would be without them. */
  lemma {:induction false} SweepsUnobservable(s: State, t: State, acts: seq<Protocol.Action>)
    requires Alike(s, t)
    ensures Alike(Run(true, s, acts), Run(true, t, WithoutSweeps(acts)))
  {
    hide Step, Alike;
    if acts == [] { return; }
    var init, a := acts[..|acts| - 1], acts[|acts| - 1];
    SweepsUnobservable(s, t, init);
    if a.SweepCache? {
      SweepAlike(Run(true, s, init), Run(true, t, WithoutSweeps(init)));
    } else {
      StepAlike(Run(true, s, init), Run(true, t, WithoutSweeps(init)), a);
      RunOneMore(true, t, WithoutSweeps(init), a);
    }
  }

  // ------------------------------------------------- a sweep in two steps

  /** A sweep looks at the age of an entry, and then deletes the key: `marked`
      counts what is about to be deleted. */
  datatype Sweeping = Sweeping(state: State, marked: multiset<string>)

  datatype Tick = Do(action: Protocol.Action) | Look(id: string) | Drop(id: string)

  predicate TooOld(s: State, id: string) {
    id in s.memory.cache && s.now - s.memory.cache[id].ts > CACHE_TTL * 2
  }

  function Dropped(s: State, id: string): State {
    s.(memory := s.memory.(cache := s.memory.cache - {id}))
  }

  function TickStep(m: Sweeping, e: Tick): Sweeping {
    match e
    case Do(a) => m.(state := Step(true, m.state, a))
    case Look(id) => if TooOld(m.state, id) then m.(marked := m.marked + multiset{id}) else m
    case Drop(id) =>
      if id in m.marked then Sweeping(Dropped(m.state, id), m.marked - multiset{id}) else m
  }

  function TickRun(m: Sweeping, es: seq<Tick>): Sweeping {
    if es == [] then m else TickStep(TickRun(m, es[..|es| - 1]), es[|es| - 1])
  }

  /** What is left of a run without any sweeping. */
  function Actions(es: seq<Tick>): seq<Protocol.Action> {
    if es == [] then []
    else
      var init, e := Actions(es[..|es| - 1]), es[|es| - 1];
      if e.Do? && !e.action.SweepCache? then init + [e.action] else init
  }

  /** No deletion meets an entry that would still be used. */
  ghost predicate Careful(m: Sweeping, es: seq<Tick>) {
    forall k | 0 <= k < |es| && es[k].Drop? ::
      var before := TickRun(m, es[..k]);
      es[k].id in before.marked ==> !Hit(before.state.memory.cache, es[k].id, before.state.now)
  }

  lemma DropAlike(s: State, t: State, id: string)
    requires Alike(s, t) && !Hit(s.memory.cache, id, s.now)
    ensures Alike(Dropped(s, id), t)
  {
  }

  /** Such sweeps, in whatever pieces, are not noticed either. */
  lemma {:induction false} CarefulTicksUnobservable(m: Sweeping, t: State, es: seq<Tick>)
    requires Alike(m.state, t) && Careful(m, es)
    ensures Alike(TickRun(m, es).state, Run(true, t, Actions(es)))
  {
    hide Step, Alike, Dropped, Hit;
    if es == [] { return; }
    var init, e := es[..|es| - 1], es[|es| - 1];
    assert Careful(m, init) by {
      assert forall k | 0 <= k < |init| :: init[..k] == es[..k];
    }
    CarefulTicksUnobservable(m, t, init);
    var m1, t1 := TickRun(m, init), Run(true, t, Actions(init));
    match e
    case Do(a) =>
      if a.SweepCache? {
        SweepAlike(m1.state, t1);
      } else {
        StepAlike(m1.state, t1, a);
        RunOneMore(true, t, Actions(init), a);
      }
    case Look(_) =>
    case Drop(id) =>
      if id in m1.marked {
        DropAlike(m1.state, t1, id);
      }
  }

  /** Equal but for the caches. */
  ghost predicate LookAlike(s: State, t: State) {
    s == t.(memory := s.memory) && s.memory.calls == t.memory.calls
  }

  /** A deletion is noticed by no continuation whatever if and only if it meets
      an entry that is no longer used: one that was cached anew between the look
      and the deletion is lost, and an analysis that joins then can tell. */
  lemma DropHiddenIff(s: State, id: string)
    ensures (forall acts :: LookAlike(Run(true, Dropped(s, id), acts), Run(true, s, acts)))
            <==> !Hit(s.memory.cache, id, s.now)
  {
    if Hit(s.memory.cache, id, s.now) {
      var pid := FreshPid(s.jobs.Keys);
      var acts := [StartAnalysis(pid, id, "", ""), AnalysisStep(pid, "")];
      LookingTells(s, id, pid);
      LookingTells(Dropped(s, id), id, pid);
      assert !LookAlike(Run(true, Dropped(s, id), acts), Run(true, s, acts));
    } else {
      DropAlike(s, s, id);
      forall acts
        ensures LookAlike(Run(true, Dropped(s, id), acts), Run(true, s, acts))
      {
        RunAlike(Dropped(s, id), s, acts);
      }
    }
  }

  lemma LookingTells(s: State, id: string, pid: nat)
    requires pid !in s.jobs
    ensures var s' := Run(true, s, [StartAnalysis(pid, id, "", ""), AnalysisStep(pid, "")]);
            && pid in s'.jobs
            && s'.jobs[pid].stage == if Hit(s.memory.cache, id, s.now) then Finished(Cached) else Loading
  {
    var a, b := StartAnalysis(pid, id, "", ""), AnalysisStep(pid, "");
    assert [a, b][..1] == [a] && [a][..0] == [];
    assert Run(true, s, [a]) == Step(true, s, a);
    assert Step(true, s, a).jobs[pid] == Job(id, "", "", Looking);
  }

  lemma FreshPid(pids: set<nat>) returns (pid: nat)
    ensures pid !in pids && forall p | p in pids :: p < pid
  {
    if pids == {} {
      pid := 0;
    } else {
      var p :| p in pids;
      var n := FreshPid(pids - {p});
      pid := if n > p then n else p + 1;
      assert forall q | q in pids :: q == p || q in pids - {p};
    }
  }

  // ------------------------------------------------- a fresh entry is lost

  /** A visitor analysed from start to end. */
  function Whole(pid: nat): seq<Protocol.Action> {
    [StartAnalysis(pid, ID, "10.0.0.1", AGENT_65)] + Repeat(AnalysisStep(pid, "row"), 10)
  }

  lemma WholeCaches(s: State, pid: nat)
    requires pid !in s.jobs && ID in s.world.sessions && !Hit(s.memory.cache, ID, s.now)
    ensures var s' := Run(true, s, Whole(pid));
            && ID in s'.world.sessions && s'.jobs.Keys == s.jobs.Keys + {pid} && s'.now == s.now
            && ID in s'.memory.cache && s'.memory.cache[ID].ts == s.now
  {
    hide Step, Alone, Computed, Assess, Analyze, Apply;
    var start := StartAnalysis(pid, ID, "10.0.0.1", AGENT_65);
    var j := Job(ID, "10.0.0.1", AGENT_65, Looking);
    RunInTwo(true, s, [start], Repeat(AnalysisStep(pid, "row"), 10));
    Joins(s, pid);
    var s1 := Run(true, s, [start]);
    RunOneJob(true, s1, pid, "row", 10);
    AloneIsAnalyze(s.world, s.memory, ID, "10.0.0.1", AGENT_65, s.now, "row");
    AnalyzeInParts(s.world, s.memory, j, s.now, s.now, "row");
    ApplyWritesOne(s.world, ID, Computed(s.world, s.memory, j, s.now), "row", s.now);
  }

  lemma Joins(s: State, pid: nat)
    requires pid !in s.jobs
    ensures var start := StartAnalysis(pid, ID, "10.0.0.1", AGENT_65);
            Run(true, s, [start]) == s.(jobs := s.jobs[pid := Job(ID, "10.0.0.1", AGENT_65, Looking)])
  {
    hide Advance, Proceed;
    var start := StartAnalysis(pid, ID, "10.0.0.1", AGENT_65);
    assert [start][..0] == [];
    assert Run(true, s, [start]) == Step(true, s, start);
  }

  lemma OneMoreTick(m: Sweeping, es: seq<Tick>, e: Tick)
    ensures TickRun(m, es + [e]) == TickStep(TickRun(m, es), e)
    ensures Actions(es + [e]) == Actions(es) + if e.Do? && !e.action.SweepCache? then [e.action] else []
  {
    hide TickStep;
    assert (es + [e])[..|es + [e]| - 1] == es;
  }

  function Doing(acts: seq<Protocol.Action>): seq<Tick> {
    seq(|acts|, i requires 0 <= i < |acts| => Do(acts[i]))
  }

  lemma {:induction false} GoOn(m: Sweeping, es: seq<Tick>, acts: seq<Protocol.Action>)
    requires SweepCache !in acts
    ensures var before := TickRun(m, es);
            TickRun(m, es + Doing(acts)) == before.(state := Run(true, before.state, acts))
    ensures Actions(es + Doing(acts)) == Actions(es) + acts
    decreases |acts|
  {
    hide TickRun, Actions, Step;
    if acts == [] {
      assert es + Doing(acts) == es;
    } else {
      var init, a := acts[..|acts| - 1], acts[|acts| - 1];
      GoOn(m, es, init);
      OneMoreTick(m, es + Doing(init), Do(a));
      assert es + Doing(acts) == es + Doing(init) + [Do(a)];
      assert init + [a] == acts;
    }
  }

  /** A visit and an analysis; when the entry is too old, a sweep looks at it, the
      visitor is analysed again, and the sweep deletes what that has cached. */
  function LateDrop(): seq<Tick> {
    Doing(Stale()) + [Look(ID)] + Doing(Whole(2)) + [Drop(ID)]
  }

  function Stale(): seq<Protocol.Action> {
    [StartCheck(0, REQUEST)] + Repeat(CheckStep(0, ID, 0), 5) + Whole(1) + [Pass(CACHE_TTL * 2 + 1)]
  }

  lemma StaleEntry()
    ensures var s := Run(true, Start(SITES, 0), Stale());
            ID in s.world.sessions && s.jobs.Keys == {1} && TooOld(s, ID)
  {
    hide Step, Run, Whole;
    var visit := [StartCheck(0, REQUEST)] + Repeat(CheckStep(0, ID, 0), 5);
    VisitEnds();
    VisitedFacts();
    WholeCaches(Visited(), 1);
    RunInTwo(true, Start(SITES, 0), visit, Whole(1));
    RunOneMore(true, Start(SITES, 0), visit + Whole(1), Pass(CACHE_TTL * 2 + 1));
    TimePasses(Run(true, Visited(), Whole(1)), CACHE_TTL * 2 + 1);
  }

  lemma TimePasses(s: State, duration: nat)
    ensures Step(true, s, Pass(duration)) == s.(now := s.now + duration)
  {
  }

  /** After it the next analysis computes the risk again; had nothing been
      swept, the cache would have answered. */
  lemma FreshEntryLost()
    ensures var m := TickRun(Sweeping(Start(SITES, 0), multiset{}), LateDrop());
            var t := Run(true, Start(SITES, 0), Actions(LateDrop()));
            var next := [StartAnalysis(3, ID, "", ""), AnalysisStep(3, "")];
            && 3 in Run(true, m.state, next).jobs && Run(true, m.state, next).jobs[3].stage == Loading
            && 3 in Run(true, t, next).jobs && Run(true, t, next).jobs[3].stage == Finished(Cached)
  {
    hide Run, Step, TickRun, Actions, Stale, Whole;
    var m0 := Sweeping(Start(SITES, 0), multiset{});
    StaleEntry();
    var s := Run(true, Start(SITES, 0), Stale());
    NoSweeps(2);
    NothingYet(m0);
    assert [] + Doing(Stale()) == Doing(Stale()) && [] + Stale() == Stale();
    GoOn(m0, [], Stale());
    OneMoreTick(m0, Doing(Stale()), Look(ID));
    GoOn(m0, Doing(Stale()) + [Look(ID)], Whole(2));
    WholeCaches(s, 2);
    OneMoreTick(m0, Doing(Stale()) + [Look(ID)] + Doing(Whole(2)), Drop(ID));
    var u := Run(true, s, Whole(2));
    RunInTwo(true, Start(SITES, 0), Stale(), Whole(2));
    assert Actions(LateDrop()) == Stale() + Whole(2);
    LookingTells(u, ID, 3);
    LookingTells(Dropped(u, ID), ID, 3);
  }

  lemma NoSweeps(pid: nat)
    ensures SweepCache !in Stale() && SweepCache !in Whole(pid)
  {
  }

  lemma NothingYet(m: Sweeping)
    ensures TickRun(m, []) == m && Actions([]) == []
  {
  }
}
