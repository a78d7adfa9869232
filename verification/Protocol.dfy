/** The visitor-risk protocol with everything interleaved: any number of
    analyses and checks, each broken at every call into the storage and into
    the detector's cache, beside cleanup, metric writes, captcha resets and
    edits by administrators.

    A run is any sequence of actions; an action that is not enabled does
    nothing. With `shared` one detector, and so one memory, serves all
    analyses; without it every analysis has a detector of its own, as the
    handlers deploy it. */
module Protocol {
  import opened Basics
  import opened Blacklist
  import opened Detection
  import opened Scoring
  import opened Sessions
  import opened Sites
  import opened Visits

  // -------------------------------------------------------- an analysis

  /** How an analysis ends: answered from the cache, its session not found, or
      scored, with the pair it tried to list. */
  datatype Ending = Cached | Lost | Scored(risk: int, entered: Option<Pair>)

  /** Where an analysis is: each constructor but the last names the call it
      makes next, with the locals it holds. */
  datatype Stage =
    | Looking
    | Loading
    | ReadingSettings(siteId: string)
    | Screening(siteId: string, analyzer: Analyzer)
    | ReadingMetrics(risk: int)
    | Writing(risk: int)
    | Caching(risk: int)
    | Reloading(risk: int)
    | Blocking(risk: int, pair: Pair)
    | Listing(risk: int, pair: Pair)
    | Finished(ending: Ending)

  datatype Job = Job(sessionId: string, ip: string, userAgent: string, stage: Stage)

  /** One call of an analysis; `freshId` is the id of a new blacklist row. */
  function Advance(w: World, d: Memory, j: Job, now: Time, freshId: string): (World, Memory, Job) {
    var id := j.sessionId;
    match j.stage
    case Looking => (w, d, j.(stage := if Hit(d.cache, id, now) then Finished(Cached) else Loading))
    case Loading =>
      if id in w.sessions then (w, d, j.(stage := ReadingSettings(w.sessions[id].siteId)))
      else (w, d, j.(stage := Finished(Lost)))
    case ReadingSettings(siteId) => (w, d, j.(stage := Screening(siteId, SettingsOf(w.sites, siteId))))
    case Screening(siteId, analyzer) =>
      if Listed(w.rows, siteId, j.ip, now) then (w, d, j.(stage := Writing(100)))
      else
        var agent := if analyzer.headlessDetection then HeadlessScore(j.userAgent) else 0;
        var (calls, volume) := if analyzer.rateLimiting then Record(d.calls, j.ip, now) else (d.calls, 0);
        var v := Judge(agent + volume);
        (w, d.(calls := calls), j.(stage := if v.needDeep then ReadingMetrics(v.risk) else Writing(v.risk)))
    case ReadingMetrics(risk) => (w, d, j.(stage := Writing(DeepRisk(MetricsOf(w.sessions, id), risk))))
    case Writing(risk) =>
      if id !in w.sessions then (w, d, j.(stage := Finished(Lost)))
      else (w.(sessions := SetRisk(w.sessions, id, risk)), d, j.(stage := Caching(risk)))
    case Caching(risk) =>
      (w, d.(cache := d.cache[id := CachedRisk(risk, now)]),
       j.(stage := if risk >= 80 then Reloading(risk) else Finished(Scored(risk, None))))
    case Reloading(risk) =>
      if id in w.sessions then (w, d, j.(stage := Blocking(risk, (w.sessions[id].siteId, w.sessions[id].ip))))
      else (w, d, j.(stage := Finished(Scored(risk, None))))
    case Blocking(risk, pair) => (w.(sessions := Block(w.sessions, id)), d, j.(stage := Listing(risk, pair)))
    case Listing(risk, pair) =>
      (w.(rows := Upsert(w.rows, w.sites.Keys, EntryFor(pair, risk, freshId, now)).0), d,
       j.(stage := Finished(Scored(risk, Some(pair)))))
    case Finished(_) => (w, d, j)
  }

  /** The permanent entry an analysis tries to make. */
  function EntryFor(pair: Pair, risk: int, freshId: string, now: Time): Entry {
    Entry(freshId, pair.0, pair.1, BlockReason(if risk < 0 then 0 else risk), now, None)
  }

  // ------------------------------------------------------------- a check

  datatype Phase =
    | FindingSite
    | CheckingList
    | FindingSession
    | Creating
    | Refreshing(sessionId: string)
    | Resetting(sessionId: string)
    | Answered(answer: CheckAnswer)
    | ResetFailed

  datatype Visit = Visit(req: CheckRequest, phase: Phase)

  /** One storage call of a check. `detached` is the risk the handler reads
      through its reference when the session has left the table meanwhile. */
  function Proceed(w: World, v: Visit, now: Time, freshId: string, detached: int): (World, Visit) {
    var req := v.req;
    match v.phase
    case FindingSite =>
      var next := if req.preflight then Answered(Preflight)
                  else if req.siteId == "" then Answered(SiteIdRequired)
                  else if req.siteId !in w.sites then Answered(SiteNotFound)
                  else if w.sites[req.siteId].status != Active then Answered(SiteNotActive)
                  else CheckingList;
      (w, v.(phase := next))
    case CheckingList =>
      var next := if Listed(w.rows, req.siteId, req.ip, now) then Answered(AddressBlocked)
                  else if !req.body.Parsed? then Answered(BadBody)
                  else FindingSession;
      (w, v.(phase := next))
    case FindingSession =>
      var id := req.SessionId();
      var next := if id == "" || id !in w.sessions then Creating
                  else if w.sessions[id].siteId != req.siteId then Answered(ForeignSession)
                  else Refreshing(id);
      (w, v.(phase := next))
    case Creating =>
      (w.(sessions := Create(w.sessions, NewSession(freshId, req), now)), v.(phase := Refreshing(freshId)))
    case Refreshing(id) =>
      var risk := if id in w.sessions then w.sessions[id].risk else detached;
      var next := if req.body.Parsed? && req.body.captchaPassed then Resetting(id)
                  else Answered(Checked(ActionFor(risk), id, risk));
      (w.(sessions := Refresh(w.sessions, id, now)), v.(phase := next))
    case Resetting(id) =>
      if id in w.sessions then
        (w.(sessions := SetRisk(w.sessions, id, 0)), v.(phase := Answered(Checked(Allow, id, 0))))
      else (w, v.(phase := ResetFailed))
    case Answered(_) => (w, v)
    case ResetFailed => (w, v)
  }

  // ---------------------------------------------------------- the system

  /** `born` remembers the (site, address) every session was created with;
      session ids are fresh UUIDs. */
  datatype State = State(world: World, memory: Memory, jobs: map<nat, Job>, visits: map<nat, Visit>,
                         born: map<string, Pair>, now: Time)

  datatype Action =
    | StartAnalysis(pid: nat, sessionId: string, ip: string, userAgent: string)
    | AnalysisStep(pid: nat, freshId: string)
    | SweepCache
    | StartCheck(vid: nat, req: CheckRequest)
    | CheckStep(vid: nat, freshId: string, detached: int)
    | WriteMetrics(sessionId: string, batch: Metrics)
    | SweepOne(sessionId: string, lag: nat)
    | Deactivate(sessionId: string)
    | UnblockOne(sessionId: string)
    | CaptchaShown(sessionId: string)
    | AdminList(entry: Entry)
    | AdminUnlist(siteId: string, ip: string)
    | EditSite(siteId: string, site: Site)
    | DropSite(siteId: string)
    | Pass(duration: nat)

  /** What the detector of an analysis remembers. */
  function MemoryOf(shared: bool, s: State): Memory {
    if shared then s.memory else FORGETFUL
  }

  function Step(shared: bool, s: State, a: Action): State {
    var w := s.world;
    match a
    case StartAnalysis(pid, id, ip, ua) =>
      if pid in s.jobs then s else s.(jobs := s.jobs[pid := Job(id, ip, ua, Looking)])
    case AnalysisStep(pid, freshId) =>
      if pid !in s.jobs then s
      else
        var (w', d', j) := Advance(w, MemoryOf(shared, s), s.jobs[pid], s.now, freshId);
        s.(world := w', memory := if shared then d' else s.memory, jobs := s.jobs[pid := j])
    case SweepCache => s.(memory := s.memory.(cache := CleanCache(s.memory.cache, s.now)))
    case StartCheck(vid, req) =>
      if vid in s.visits then s else s.(visits := s.visits[vid := Visit(req, FindingSite)])
    case CheckStep(vid, freshId, detached) =>
      if vid !in s.visits || (s.visits[vid].phase.Creating? && freshId in s.born) then s
      else
        var v := s.visits[vid];
        var (w', v') := Proceed(w, v, s.now, freshId, detached);
        s.(world := w', visits := s.visits[vid := v'],
           born := if v.phase.Creating? then s.born[freshId := (v.req.siteId, v.req.ip)] else s.born)
    case WriteMetrics(id, batch) => s.(world := w.(sessions := MergeMetrics(w.sessions, id, batch)))
    case SweepOne(id, lag) =>
      // a cleanup tick reads the clock once, `lag` before it reaches this session
      if id in w.sessions && Dead(w.sessions[id], s.now - lag) then
        s.(world := w.(sessions := Remove(w.sessions, id)))
      else s
    case Deactivate(id) => s.(world := w.(sessions := Remove(w.sessions, id)))
    case UnblockOne(id) => s.(world := w.(sessions := Unblock(w.sessions, id)))
    case CaptchaShown(id) => s.(world := w.(sessions := ShowCaptcha(w.sessions, id)))
    case AdminList(entry) => s.(world := w.(rows := Upsert(w.rows, w.sites.Keys, entry).0))
    case AdminUnlist(siteId, ip) => s.(world := w.(rows := Delete(w.rows, siteId, ip)))
    case EditSite(siteId, site) => s.(world := w.(sites := w.sites[siteId := site]))
    case DropSite(siteId) => s.(world := w.(sites := w.sites - {siteId}, rows := Cascade(w.rows, siteId)))
    case Pass(duration) => s.(now := s.now + duration)
  }

  function Run(shared: bool, s: State, acts: seq<Action>): State {
    if acts == [] then s else Step(shared, Run(shared, s, acts[..|acts| - 1]), acts[|acts| - 1])
  }

  function Start(sites: SiteRows, now: Time): State {
    State(World(map[], map[], sites), FORGETFUL, map[], map[], map[], now)
  }

  /** A cleanup takes a session exactly when it was expired, by the clock the
      tick had read, or blocked; and nothing else. */
  lemma SweepTakes(shared: bool, s: State, id: string, lag: nat)
    requires id in s.world.sessions
    ensures var s' := Step(shared, s, SweepOne(id, lag));
            && s' == s.(world := s'.world) && s'.world == s.world.(sessions := s'.world.sessions)
            && (id !in s'.world.sessions <==>
                  s.now - lag > s.world.sessions[id].expiresAt || !s.world.sessions[id].isActive)
            && s'.world.sessions == (if id in s'.world.sessions then s.world.sessions else s.world.sessions - {id})
  {
  }

  /** Detectors of their own leave the shared one alone. */
  lemma OwnMemory(s: State, a: Action)
    requires !a.SweepCache?
    ensures Step(false, s, a).memory == s.memory
  {
    hide Advance, Proceed;
  }

  /** A passed captcha whose session has gone meanwhile cannot be stored, and the
      check fails. */
  lemma LostSessionFails(w: World, v: Visit, now: Time, freshId: string, detached: int)
    requires v.phase.Resetting?
    ensures var (w', v') := Proceed(w, v, now, freshId, detached);
            if v.phase.sessionId in w.sessions then
              v'.phase == Answered(Checked(Allow, v.phase.sessionId, 0)) && v.phase.sessionId in w'.sessions
              && w'.sessions[v.phase.sessionId].risk == 0
            else v'.phase == ResetFailed && w' == w
  {
  }

  lemma RunOneMore(shared: bool, s: State, acts: seq<Action>, a: Action)
    ensures Run(shared, s, acts + [a]) == Step(shared, Run(shared, s, acts), a)
  {
    hide Step;
    assert (acts + [a])[..|acts + [a]| - 1] == acts;
  }

  lemma {:induction false} RunInTwo(shared: bool, s: State, first: seq<Action>, second: seq<Action>)
    ensures Run(shared, s, first + second) == Run(shared, Run(shared, s, first), second)
    decreases |second|
  {
    hide Step;
    if second == [] {
      assert first + second == first;
    } else {
      var init := second[..|second| - 1];
      RunInTwo(shared, s, first, init);
      assert (first + second)[..|first + second| - 1] == first + init;
    }
  }

  // ----------------------------------------- run alone, the steps are the call

  /** An analysis run from start to end with nothing between. */
  function Alone(w: World, d: Memory, j: Job, now: Time, freshId: string, steps: nat): (World, Memory, Job)
    decreases steps
  {
    if steps == 0 then (w, d, j)
    else
      var (w', d', j') := Advance(w, d, j, now, freshId);
      Alone(w', d', j', now, freshId, steps - 1)
  }

  lemma {:induction false} AloneInTwo(w: World, d: Memory, j: Job, now: Time, freshId: string, first: nat, second: nat)
    ensures var (w', d', j') := Alone(w, d, j, now, freshId, first);
            Alone(w, d, j, now, freshId, first + second) == Alone(w', d', j', now, freshId, second)
    decreases first
  {
    hide Advance;
    if first > 0 {
      var (w', d', j') := Advance(w, d, j, now, freshId);
      AloneInTwo(w', d', j', now, freshId, first - 1, second);
    }
  }

  lemma {:induction false} AloneRests(w: World, d: Memory, j: Job, now: Time, freshId: string, steps: nat)
    requires j.stage.Finished?
    ensures Alone(w, d, j, now, freshId, steps) == (w, d, j)
  {
    if steps > 0 {
      AloneRests(w, d, j, now, freshId, steps - 1);
    }
  }

  /** From the computed risk on, the writes of an analysis are `Apply` and the
      cache entry. */
  lemma AloneApplies(w: World, d: Memory, j: Job, now: Time, freshId: string)
    requires j.stage.Writing? && j.sessionId in w.sessions
    ensures var (w', d', j') := Alone(w, d, j, now, freshId, 5);
            && w' == Apply(w, j.sessionId, j.stage.risk, freshId, now)
            && d' == d.(cache := d.cache[j.sessionId := CachedRisk(j.stage.risk, now)])
            && j'.stage.Finished? && j'.stage.ending.Scored? && j'.stage.ending.risk == j.stage.risk
  {
    hide Upsert, BlockReason, HeadlessScore, DeepRisk, Listed, SettingsOf, Record;
    var (w1, d1, j1) := Advance(w, d, j, now, freshId);
    var (w2, d2, j2) := Advance(w1, d1, j1, now, freshId);
    AloneInTwo(w, d, j, now, freshId, 2, 3);
    if j.stage.risk < 80 {
      AloneRests(w2, d2, j2, now, freshId, 3);
    } else {
      var (w3, d3, j3) := Advance(w2, d2, j2, now, freshId);
      var (w4, d4, j4) := Advance(w3, d3, j3, now, freshId);
      assert Alone(w2, d2, j2, now, freshId, 3) == Alone(w3, d3, j3, now, freshId, 2);
      assert Alone(w3, d3, j3, now, freshId, 2) == Alone(w4, d4, j4, now, freshId, 1);
    }
  }

  /** The risk an analysis ends with when it does not end at its cache. */
  function Computed(w: World, d: Memory, j: Job, now: Time): int
    requires j.sessionId in w.sessions
  {
    var v := Assess(w, d, w.sessions[j.sessionId].siteId, j.ip, j.userAgent, now).0;
    if v.needDeep then DeepRisk(MetricsOf(w.sessions, j.sessionId), v.risk) else v.risk
  }

  /** Up to there, its reads compute the verdict of both filters. */
  lemma AloneComputes(w: World, d: Memory, j: Job, now: Time, freshId: string) returns (steps: nat)
    requires j.stage.Looking? && !Hit(d.cache, j.sessionId, now) && j.sessionId in w.sessions
    ensures steps == if Assess(w, d, w.sessions[j.sessionId].siteId, j.ip, j.userAgent, now).0.needDeep then 5 else 4
    ensures Alone(w, d, j, now, freshId, steps) ==
            (w, Assess(w, d, w.sessions[j.sessionId].siteId, j.ip, j.userAgent, now).1,
             j.(stage := Writing(Computed(w, d, j, now))))
  {
    hide HeadlessScore, DeepRisk, Listed, SettingsOf, Apply, Upsert, SetRisk, Block, Record;
    var (w1, d1, j1) := Advance(w, d, j, now, freshId);
    var (w2, d2, j2) := Advance(w1, d1, j1, now, freshId);
    var (w3, d3, j3) := Advance(w2, d2, j2, now, freshId);
    var (w4, d4, j4) := Advance(w3, d3, j3, now, freshId);
    AloneInTwo(w, d, j, now, freshId, 2, 2);
    assert Alone(w, d, j, now, freshId, 2) == Alone(w1, d1, j1, now, freshId, 1) == (w2, d2, j2);
    assert Alone(w2, d2, j2, now, freshId, 2) == Alone(w3, d3, j3, now, freshId, 1) == (w4, d4, j4);
    steps := 4;
    if j4.stage.ReadingMetrics? {
      AloneInTwo(w, d, j, now, freshId, 4, 1);
      steps := 5;
    }
  }

  lemma AloneEndsEarly(w: World, d: Memory, j: Job, now: Time, freshId: string, steps: nat)
    requires j.stage.Looking? && steps >= 2 && (Hit(d.cache, j.sessionId, now) || j.sessionId !in w.sessions)
    ensures Alone(w, d, j, now, freshId, steps) ==
            (w, d, j.(stage := Finished(if Hit(d.cache, j.sessionId, now) then Cached else Lost)))
  {
    AloneRests(w, d, j.(stage := Finished(Cached)), now, freshId, steps - 1);
    AloneRests(w, d, j.(stage := Finished(Lost)), now, freshId, steps - 2);
  }

  lemma AnalyzeInParts(w: World, d: Memory, j: Job, now: Time, done: Time, freshId: string)
    ensures var (r, w', d') := Analyze(w, d, j.sessionId, j.ip, j.userAgent, now, done, freshId);
            if Hit(d.cache, j.sessionId, now) then r == Ok(()) && w' == w && d' == d
            else if j.sessionId !in w.sessions then r == Err(SessionNotFound) && w' == w && d' == d
            else
              var risk := Computed(w, d, j, now);
              var d1 := Assess(w, d, w.sessions[j.sessionId].siteId, j.ip, j.userAgent, now).1;
              && r == Ok(()) && w' == Apply(w, j.sessionId, risk, freshId, done)
              && d' == d1.(cache := d1.cache[j.sessionId := CachedRisk(risk, done)])
  {
    hide HeadlessScore, DeepRisk, Listed, SettingsOf, Apply, Record;
  }

  /** Uninterrupted, its ten calls are exactly `AnalyzeAndUpdate`, whatever the
      detector remembers. */
  lemma AloneIsAnalyze(w: World, d: Memory, id: string, ip: string, ua: string, now: Time, freshId: string)
    ensures var (w', d', j) := Alone(w, d, Job(id, ip, ua, Looking), now, freshId, 10);
            var (r, analyzed, remembered) := Analyze(w, d, id, ip, ua, now, now, freshId);
            && w' == analyzed && d' == remembered && j.stage.Finished?
            && (r.Err? <==> j.stage.ending == Lost)
            && (j.stage.ending == Cached <==> Hit(d.cache, id, now))
  {
    hide Analyze, Apply, Alone, Assess, Computed;
    var j := Job(id, ip, ua, Looking);
    AnalyzeInParts(w, d, j, now, now, freshId);
    if !Hit(d.cache, id, now) && id in w.sessions {
      var steps := AloneComputes(w, d, j, now, freshId);
      var (_, d1, ready) := Alone(w, d, j, now, freshId, steps);
      var (w', d', done) := Alone(w, d1, ready, now, freshId, 5);
      AloneApplies(w, d1, ready, now, freshId);
      AloneInTwo(w, d, j, now, freshId, steps, 5);
      AloneInTwo(w, d, j, now, freshId, steps + 5, 5 - steps);
      AloneRests(w', d', done, now, freshId, 5 - steps);
    } else {
      AloneEndsEarly(w, d, j, now, freshId, 10);
    }
  }

  function CheckAlone(w: World, v: Visit, now: Time, freshId: string, steps: nat): (World, Visit)
    decreases steps
  {
    if steps == 0 then (w, v)
    else
      var (w', v') := Proceed(w, v, now, freshId, 0);
      CheckAlone(w', v', now, freshId, steps - 1)
  }

  /** Uninterrupted, the six storage calls of a check are exactly `CheckRequest`. */
  lemma AloneIsCheck(w: World, req: CheckRequest, now: Time, freshId: string)
    ensures var (w', v) := CheckAlone(w, Visit(req, FindingSite), now, freshId, 6);
            (w', v.phase) == (Check(w, req, freshId, now).0, Answered(Check(w, req, freshId, now).1))
  {
  }

  // --------------------------------------- stretches of one process in a run

  function Repeat(a: Action, n: nat): seq<Action> {
    seq(n, _ => a)
  }

  lemma {:induction false} RunOneJob(shared: bool, s: State, pid: nat, freshId: string, steps: nat)
    requires shared && pid in s.jobs
    ensures var (w, d, j) := Alone(s.world, s.memory, s.jobs[pid], s.now, freshId, steps);
            Run(shared, s, Repeat(AnalysisStep(pid, freshId), steps)) ==
                s.(world := w, memory := d, jobs := s.jobs[pid := j])
  {
    hide Advance;
    if steps > 0 {
      var all := Repeat(AnalysisStep(pid, freshId), steps);
      assert all[..steps - 1] == Repeat(AnalysisStep(pid, freshId), steps - 1);
      RunOneJob(shared, s, pid, freshId, steps - 1);
      AloneInTwo(s.world, s.memory, s.jobs[pid], s.now, freshId, steps - 1, 1);
    } else {
      assert s.jobs[pid := s.jobs[pid]] == s.jobs;
    }
  }
}
