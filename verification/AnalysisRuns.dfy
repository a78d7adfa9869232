/** Runs of whole analyses: what repeating them does, and what the cache of
    one shared detector can and cannot change. */
module AnalysisRuns {
  import opened Basics
  import opened Blacklist
  import opened Detection
  import opened Scoring
  import opened Sessions
  import opened Sites

  // ------------------------------------------------- repeated submissions

  /** One analysis started by a behaviour submission. */
  datatype Pass = Pass(now: Time, done: Time, freshId: string)

  ghost predicate OrderedPasses(ps: seq<Pass>) {
    forall i, j | 0 <= i < j < |ps| :: ps[i].now <= ps[j].now
  }

  /** `SubmitBehavior` starts a new detector on the session's own address and agent. */
  function Resubmit(w: World, sessionId: string, p: Pass): World
    requires sessionId in w.sessions
    ensures sessionId in Resubmit(w, sessionId, p).sessions
  {
    var s := w.sessions[sessionId];
    FreshAnalysis(w, sessionId, s.ip, s.userAgent, p.now, p.done, p.freshId);
    Analyze(w, FORGETFUL, sessionId, s.ip, s.userAgent, p.now, p.done, p.freshId).1
  }

  function ResubmitAll(w: World, sessionId: string, ps: seq<Pass>): World
    requires sessionId in w.sessions
    ensures sessionId in ResubmitAll(w, sessionId, ps).sessions
  {
    if ps == [] then w
    else Resubmit(ResubmitAll(w, sessionId, ps[..|ps| - 1]), sessionId, ps[|ps| - 1])
  }

  /** The risk of the session's own submission. */
  function OwnRisk(w: World, sessionId: string, now: Time): int
    requires sessionId in w.sessions
  {
    FreshRisk(w, sessionId, w.sessions[sessionId].ip, w.sessions[sessionId].userAgent, now)
  }

  ghost predicate PermanentlyListed(w: World, sessionId: string) {
    && sessionId in w.sessions
    && var key := (w.sessions[sessionId].siteId, w.sessions[sessionId].ip);
       key in w.rows && w.rows[key].expiresAt == None
  }

  lemma ResubmitLow(w: World, sessionId: string, p: Pass)
    requires sessionId in w.sessions && OwnRisk(w, sessionId, p.now) < 80
    ensures Resubmit(w, sessionId, p) == w.(sessions := SetRisk(w.sessions, sessionId, OwnRisk(w, sessionId, p.now)))
  {
    hide FreshRisk, Analyze;
    var s := w.sessions[sessionId];
    FreshAnalysis(w, sessionId, s.ip, s.userAgent, p.now, p.done, p.freshId);
  }

  /** The session's address can be entered for its site. */
  predicate OwnListable(w: World, sessionId: string)
    requires sessionId in w.sessions
  {
    Listable(w.sites.Keys, (w.sessions[sessionId].siteId, w.sessions[sessionId].ip))
  }

  lemma ResubmitHigh(w: World, sessionId: string, p: Pass)
    requires sessionId in w.sessions && OwnRisk(w, sessionId, p.now) >= 80 && RowsFit(w.rows, w.sites.Keys)
    ensures var w', s := Resubmit(w, sessionId, p), w.sessions[sessionId];
            && RowsFit(w'.rows, w'.sites.Keys) && w'.sites == w.sites
            && w'.sessions[sessionId] == s.(risk := OwnRisk(w, sessionId, p.now), isBlocked := true, isActive := false)
            && (OwnListable(w, sessionId) ==> PermanentlyListed(w', sessionId))
  {
    hide FreshRisk, Analyze;
    var s := w.sessions[sessionId];
    FreshAnalysis(w, sessionId, s.ip, s.userAgent, p.now, p.done, p.freshId);
    ApplyMeaning(w, sessionId, OwnRisk(w, sessionId, p.now), p.freshId, p.done);
  }

  /** An address that cannot be entered is never found listed, so a high score
      is not changed by having been stored either. */
  lemma UnlistableRepeats(w: World, w': World, sessionId: string, t1: Time, t2: Time)
    requires sessionId in w.sessions && sessionId in w'.sessions && !OwnListable(w, sessionId) && w'.sites == w.sites
    requires RowsFit(w.rows, w.sites.Keys) && RowsFit(w'.rows, w'.sites.Keys)
    requires var s, s' := w.sessions[sessionId], w'.sessions[sessionId];
             s'.siteId == s.siteId && s'.ip == s.ip && s'.userAgent == s.userAgent && s'.metrics == s.metrics
    ensures OwnRisk(w', sessionId, t2) == OwnRisk(w, sessionId, t1)
  {
    hide HeadlessScore, DeepRisk, SettingsOf;
  }

  /** A low score is not changed by having been stored, nor by waiting: an
      address that was not listed does not become listed by itself. */
  lemma LowRiskRepeats(w: World, sessionId: string, t1: Time, t2: Time)
    requires sessionId in w.sessions && t1 <= t2 && OwnRisk(w, sessionId, t1) < 80
    ensures var w' := w.(sessions := SetRisk(w.sessions, sessionId, OwnRisk(w, sessionId, t1)));
            OwnRisk(w', sessionId, t2) == OwnRisk(w, sessionId, t1)
  {
    hide HeadlessScore, DeepRisk;
  }

  /** While the metrics do not change, repeated submissions settle: a first
      score r below 80 is stored again and again and touches no blacklist; from
      80 on the first pass blocks the session. If its address can be entered it
      is then listed for good and every later pass stores 100; if not, every
      pass stores r. */
  lemma {:induction false} RepeatedSubmissionsSettle(w: World, sessionId: string, ps: seq<Pass>)
    requires sessionId in w.sessions && ps != [] && OrderedPasses(ps) && RowsFit(w.rows, w.sites.Keys)
    ensures var r := OwnRisk(w, sessionId, ps[0].now);
            var end := ResubmitAll(w, sessionId, ps);
            if r < 80 then end == w.(sessions := SetRisk(w.sessions, sessionId, r))
            else
              && RowsFit(end.rows, end.sites.Keys) && end.sites == w.sites
              && (OwnListable(w, sessionId) ==> PermanentlyListed(end, sessionId))
              && var last := if OwnListable(w, sessionId) && |ps| > 1 then 100 else r;
                 end.sessions[sessionId] == w.sessions[sessionId].(risk := last, isBlocked := true, isActive := false)
  {
    hide OwnRisk, Resubmit, RowsFit, Listable, PermanentlyListed;
    var last := |ps| - 1;
    var before := ResubmitAll(w, sessionId, ps[..last]);
    var r := OwnRisk(w, sessionId, ps[0].now);
    if last == 0 {
      assert before == w;
      if r < 80 {
        ResubmitLow(w, sessionId, ps[0]);
      } else {
        ResubmitHigh(w, sessionId, ps[0]);
      }
    } else {
      RepeatedSubmissionsSettle(w, sessionId, ps[..last]);
      if r < 80 {
        LowRiskRepeats(w, sessionId, ps[0].now, ps[last].now);
        ResubmitLow(before, sessionId, ps[last]);
      } else {
        if OwnListable(w, sessionId) {
          ListedScoresHundred(before, sessionId, ps[last].now);
        } else {
          UnlistableRepeats(w, before, sessionId, ps[0].now, ps[last].now);
        }
        ResubmitHigh(before, sessionId, ps[last]);
      }
    }
  }

  lemma ListedScoresHundred(w: World, sessionId: string, now: Time)
    requires PermanentlyListed(w, sessionId)
    ensures OwnRisk(w, sessionId, now) == 100
  {
  }

  // ------------------------------------------------- one shared detector

  datatype Event =
    | Analysis(sessionId: string, ip: string, userAgent: string, now: Time, done: Time, freshId: string)
    | Screen(sessionId: string, ip: string, userAgent: string, now: Time)
    | Arrive(session: Session, now: Time)
    | Metered(sessionId: string, batch: Metrics, now: Time)
    | SweepSessions(now: Time)
    | SweepCache(now: Time)
    | Listing(entry: Entry, now: Time)
    | Unlisting(siteId: string, ip: string, now: Time)
    | Configure(siteId: string, site: Site, now: Time)
    | Discard(siteId: string, now: Time)
  {
    function End(): Time {
      if Analysis? then done else now
    }
  }

  /** What a caller sees of an event. */
  datatype Answer = Analyzed(result: Result<()>) | Screened(verdict: Result<Verdict>) | Silent

  datatype State = State(world: World, memory: Memory)

  function Step(st: State, e: Event): (State, Answer) {
    var w, d := st.world, st.memory;
    match e
    case Analysis(id, ip, ua, now, done, freshId) =>
      var (r, w', d') := Analyze(w, d, id, ip, ua, now, done, freshId);
      (State(w', d'), Analyzed(r))
    case Screen(id, ip, ua, now) =>
      var (v, d') := Prefilter(w, d, id, ip, ua, now);
      (State(w, d'), Screened(v))
    case Arrive(s, now) => (State(w.(sessions := Create(w.sessions, s, now)), d), Silent)
    case Metered(id, batch, _) => (State(w.(sessions := MergeMetrics(w.sessions, id, batch)), d), Silent)
    case SweepSessions(now) => (State(w.(sessions := Cleanup(w.sessions, now)), d), Silent)
    case SweepCache(now) => (State(w, d.(cache := CleanCache(d.cache, now))), Silent)
    case Listing(entry, _) => (State(w.(rows := Upsert(w.rows, w.sites.Keys, entry).0), d), Silent)
    case Unlisting(siteId, ip, _) => (State(w.(rows := Delete(w.rows, siteId, ip)), d), Silent)
    case Configure(siteId, site, _) => (State(w.(sites := w.sites[siteId := site]), d), Silent)
    case Discard(siteId, _) => (State(w.(sites := w.sites - {siteId}, rows := Cascade(w.rows, siteId)), d), Silent)
  }

  function Run(st: State, es: seq<Event>): (State, seq<Answer>)
    decreases |es|
  {
    if es == [] then (st, [])
    else
      var (st1, a) := Step(st, es[0]);
      var (st2, rest) := Run(st1, es[1..]);
      (st2, if es[0].SweepCache? then rest else [a] + rest)
  }

  /** Session ids are fresh UUIDs. */
  ghost predicate FreshIds(used: set<string>, es: seq<Event>)
    decreases |es|
  {
    es != [] ==>
      if es[0].Arrive? then es[0].session.id !in used && FreshIds(used + {es[0].session.id}, es[1..])
      else FreshIds(used, es[1..])
  }

  ghost predicate OrderedEvents(start: Time, es: seq<Event>)
    decreases |es|
  {
    es != [] ==> start <= es[0].now <= es[0].End() && OrderedEvents(es[0].End(), es[1..])
  }

  /** Each cached score is the stored risk of its session, while that exists. */
  ghost predicate CacheAgrees(st: State) {
    forall id | id in st.memory.cache && id in st.world.sessions ::
      st.memory.cache[id].score == st.world.sessions[id].risk
  }

  ghost predicate KnownIds(st: State, used: set<string>) {
    st.memory.cache.Keys <= used && st.world.sessions.Keys <= used
  }

  lemma AnalyzeTouchesOne(w: World, d: Memory, id: string, ip: string, ua: string, now: Time, done: Time,
                          freshId: string)
    returns (risk: int)
    ensures var (_, w', d') := Analyze(w, d, id, ip, ua, now, done, freshId);
            || (w' == w && d'.cache == d.cache)
            || (id in w.sessions && w' == Apply(w, id, risk, freshId, done)
                && d'.cache == d.cache[id := CachedRisk(risk, done)])
  {
    hide Apply, HeadlessScore, DeepRisk, Listed, SettingsOf, Recent;
    risk := 0;
    var verdict := Prefilter(w, d, id, ip, ua, now).0;
    if verdict.Ok? && id in w.sessions {
      var v := verdict.value;
      risk := if v.needDeep then DeepRisk(MetricsOf(w.sessions, id), v.risk) else v.risk;
    }
  }

  lemma StepAgrees(st: State, used: set<string>, e: Event)
    requires CacheAgrees(st) && KnownIds(st, used)
    requires e.Arrive? ==> e.session.id !in used
    ensures var st' := Step(st, e).0;
            && CacheAgrees(st')
            && KnownIds(st', if e.Arrive? then used + {e.session.id} else used)
  {
    hide Apply, Analyze, Prefilter;
    if e.Analysis? {
      var risk := AnalyzeTouchesOne(st.world, st.memory, e.sessionId, e.ip, e.userAgent, e.now, e.done, e.freshId);
      if e.sessionId in st.world.sessions {
        ApplyWritesOne(st.world, e.sessionId, risk, e.freshId, e.done);
      }
    } else if e.Screen? {
      ScreenKeepsCache(st.world, st.memory, e.sessionId, e.ip, e.userAgent, e.now);
    }
  }

  lemma ScreenKeepsCache(w: World, d: Memory, id: string, ip: string, ua: string, now: Time)
    ensures Prefilter(w, d, id, ip, ua, now).1.cache == d.cache
  {
  }

  /** In every run where the shared detector is the only writer of risks, the
      cache never disagrees with the store. */
  lemma {:induction false} CacheAlwaysAgrees(st: State, used: set<string>, es: seq<Event>)
    requires CacheAgrees(st) && KnownIds(st, used) && FreshIds(used, es)
    ensures CacheAgrees(Run(st, es).0)
    decreases |es|
  {
    hide Step;
    if es != [] {
      StepAgrees(st, used, es[0]);
      CacheAlwaysAgrees(Step(st, es[0]).0, if es[0].Arrive? then used + {es[0].session.id} else used, es[1..]);
    }
  }

  function WithoutCacheSweeps(es: seq<Event>): seq<Event> {
    if es == [] then []
    else if es[0].SweepCache? then WithoutCacheSweeps(es[1..])
    else [es[0]] + WithoutCacheSweeps(es[1..])
  }

  lemma SameHitsSameAnswers(w: World, a: Memory, b: Memory, id: string, ip: string, ua: string, start: Time, now: Time)
    requires SameHits(a.cache, b.cache, start) && a.calls == b.calls && start <= now
    ensures var (va, a') := Prefilter(w, a, id, ip, ua, now);
            var (vb, b') := Prefilter(w, b, id, ip, ua, now);
            va == vb && a'.calls == b'.calls && a'.cache == a.cache && b'.cache == b.cache
  {
    hide HeadlessScore, Record, Listed, SettingsOf, Judge;
    assert Hit(a.cache, id, now) == Hit(b.cache, id, now);
  }

  lemma SameHitsAnalysis(w: World, a: Memory, b: Memory, id: string, ip: string, ua: string, start: Time,
                         now: Time, done: Time, freshId: string)
    requires SameHits(a.cache, b.cache, start) && a.calls == b.calls && start <= now <= done
    ensures var (ra, wa, a') := Analyze(w, a, id, ip, ua, now, done, freshId);
            var (rb, wb, b') := Analyze(w, b, id, ip, ua, now, done, freshId);
            ra == rb && wa == wb && a'.calls == b'.calls && SameHits(a'.cache, b'.cache, done)
  {
    hide Prefilter, Apply, DeepRisk;
    SameHitsSameAnswers(w, a, b, id, ip, ua, start, now);
  }

  lemma SameHitsStep(st: State, other: Memory, e: Event, start: Time)
    requires SameHits(st.memory.cache, other.cache, start) && st.memory.calls == other.calls
    requires start <= e.now <= e.End() && !e.SweepCache?
    ensures var (s1, a1) := Step(st, e);
            var (s2, a2) := Step(State(st.world, other), e);
            && a1 == a2 && s1.world == s2.world && s1.memory.calls == s2.memory.calls
            && SameHits(s1.memory.cache, s2.memory.cache, e.End())
  {
    hide Prefilter, Analyze, Upsert, Cascade, Create, Cleanup, MergeMetrics;
    if e.Analysis? {
      SameHitsAnalysis(st.world, st.memory, other, e.sessionId, e.ip, e.userAgent, start, e.now, e.done, e.freshId);
    } else if e.Screen? {
      SameHitsSameAnswers(st.world, st.memory, other, e.sessionId, e.ip, e.userAgent, start, e.now);
    }
  }

  /** Cleaning the cache between whole calls changes no answer and no stored
      value: it only drops entries twice too old to be used. Between the single
      calls of an analysis it is the same (module `CacheSweeps`). */
  lemma {:induction false} CacheSweepsUnobservable(st: State, other: Memory, start: Time, es: seq<Event>)
    requires SameHits(st.memory.cache, other.cache, start) && st.memory.calls == other.calls
    requires OrderedEvents(start, es)
    ensures var (s1, a1) := Run(st, es);
            var (s2, a2) := Run(State(st.world, other), WithoutCacheSweeps(es));
            a1 == a2 && s1.world == s2.world && s1.memory.calls == s2.memory.calls
    decreases |es|
  {
    if es == [] { return; }
    var e, rest := es[0], es[1..];
    if e.SweepCache? {
      assert SameHits(CleanCache(st.memory.cache, e.now), other.cache, e.now);
      var swept := State(st.world, st.memory.(cache := CleanCache(st.memory.cache, e.now)));
      CacheSweepsUnobservable(swept, other, e.now, rest);
    } else {
      hide Step;
      SameHitsStep(st, other, e, start);
      var s1, s2 := Step(st, e).0, Step(State(st.world, other), e).0;
      var kept := WithoutCacheSweeps(es);
      assert kept[0] == e && kept[1..] == WithoutCacheSweeps(rest);
      assert s2 == State(s1.world, s2.memory);
      CacheSweepsUnobservable(s1, s2.memory, e.End(), rest);
    }
  }
}
