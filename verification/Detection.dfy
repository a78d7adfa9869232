/** What the detector does to the stored world, as values:
    `Prefilter` and `AnalyzeAndUpdate` of backend/detector/detector.go. */
module Detection {
  import opened Basics
  import opened Blacklist
  import opened Scoring
  import opened Sessions
  import opened Sites

  // ----------------------------------------------------------- the world

  datatype World = World(sessions: Table, rows: Rows, sites: SiteRows)

  // -------------------------------------------------------- the detector

  const CACHE_TTL: int := 10 * SECOND

  datatype CachedRisk = CachedRisk(score: int, ts: Time)

  type Cache = map<string, CachedRisk>

  /** What one `Detector` remembers between calls. */
  datatype Memory = Memory(cache: Cache, calls: Calls)

  const FORGETFUL := Memory(map[], map[])

  datatype Reason = FromCache | IpBlacklisted | HighRisk | NeedsDeepAnalysis

  datatype Verdict = Verdict(risk: int, shouldBlock: bool, needDeep: bool, reason: Reason)

  predicate Hit(cache: Cache, sessionId: string, now: Time) {
    sessionId in cache && now - cache[sessionId].ts < CACHE_TTL
  }

  /** The verdict on an address that is not blacklisted. */
  function Judge(risk: int): Verdict {
    if risk >= 70 then Verdict(risk, risk >= 80, false, HighRisk) else Verdict(risk, false, true, NeedsDeepAnalysis)
  }

  /** The checks after the session is found: blacklist, user agent, volume. */
  function Assess(w: World, d: Memory, siteId: string, ip: string, userAgent: string, now: Time): (Verdict, Memory) {
    var analyzer := SettingsOf(w.sites, siteId);
    if Listed(w.rows, siteId, ip, now) then (Verdict(100, true, false, IpBlacklisted), d)
    else
      var agent := if analyzer.headlessDetection then HeadlessScore(userAgent) else 0;
      var (calls, volume) := if analyzer.rateLimiting then Record(d.calls, ip, now) else (d.calls, 0);
      (Judge(agent + volume), d.(calls := calls))
  }

  function Prefilter(w: World, d: Memory, sessionId: string, ip: string, userAgent: string,
      now: Time): (Result<Verdict>, Memory) {
    if Hit(d.cache, sessionId, now) then
      var score := d.cache[sessionId].score;
      (Ok(Verdict(score, score >= 80, false, FromCache)), d)
    else if sessionId !in w.sessions then (Err(SessionNotFound), d)
    else
      var (v, d') := Assess(w, d, w.sessions[sessionId].siteId, ip, userAgent, now);
      (Ok(v), d')
  }

  function BlockReason(risk: nat): string {
    "Auto-blocked by detector with risk score: " + Decimal(risk)
  }

  /** The permanent entry written for a session of high risk. */
  function AutoEntry(s: Session, risk: nat, freshId: string, now: Time): Entry {
    Entry(freshId, s.siteId, s.ip, BlockReason(risk), now, None)
  }

  /** What follows from a final risk: store it, and from 80 on block the
      session and blacklist the address it was created from; if that fails it
      is only logged. */
  function Apply(w: World, sessionId: string, risk: int, freshId: string, now: Time): World
    requires sessionId in w.sessions
  {
    var scored := SetRisk(w.sessions, sessionId, risk);
    if risk >= 80 then
      w.(sessions := Block(scored, sessionId),
         rows := Upsert(w.rows, w.sites.Keys, AutoEntry(w.sessions[sessionId], risk, freshId, now)).0)
    else w.(sessions := scored)
  }

  function MetricsOf(m: Table, sessionId: string): Option<Metrics> {
    if sessionId in m then Some(m[sessionId].metrics) else None
  }

  /** `AnalyzeAndUpdate`, with the clock read at `now` by the filters and at
      `done` by what is written at the end. */
  function Analyze(w: World, d: Memory, sessionId: string, ip: string, userAgent: string,
                   now: Time, done: Time, freshId: string): (Result<()>, World, Memory) {
    var (verdict, d1) := Prefilter(w, d, sessionId, ip, userAgent, now);
    if verdict.Err? then (Err(verdict.error), w, d1)
    else if verdict.value.reason == FromCache || sessionId !in w.sessions then (Ok(()), w, d1)
    else
      var v := verdict.value;
      var risk := if v.needDeep then DeepRisk(MetricsOf(w.sessions, sessionId), v.risk) else v.risk;
      (Ok(()), Apply(w, sessionId, risk, freshId, done),
       d1.(cache := d1.cache[sessionId := CachedRisk(risk, done)]))
  }

  function CleanCache(cache: Cache, now: Time): Cache {
    map id | id in cache && !(now - cache[id].ts > CACHE_TTL * 2) :: cache[id]
  }

  /** Two caches that give the same hits from `now` on. */
  ghost predicate SameHits(a: Cache, b: Cache, now: Time) {
    forall id | id in a || id in b ::
      || (id in a && id in b && a[id] == b[id])
      || ((id in a ==> now - a[id].ts >= CACHE_TTL) && (id in b ==> now - b[id].ts >= CACHE_TTL))
  }

  // ----------------------------------------------------------- the cache

  /** The cache answers with an entry of less than ten seconds, whatever became
      of the session; a cleaning keeps what is at most twenty seconds old. */
  lemma CacheMeaning(w: World, d: Memory, sessionId: string, ip: string, userAgent: string, now: Time)
    ensures var (r, d') := Prefilter(w, d, sessionId, ip, userAgent, now);
            var young := sessionId in d.cache && now - d.cache[sessionId].ts < 10 * SECOND;
            && (r.Ok? && r.value.reason == FromCache <==> young)
            && (young ==> r.value.risk == d.cache[sessionId].score && d' == d)
            && (r.Err? <==> !young && sessionId !in w.sessions)
    ensures forall id :: id in CleanCache(d.cache, now) <==> id in d.cache && now - d.cache[id].ts <= 20 * SECOND
    ensures forall id | id in CleanCache(d.cache, now) :: CleanCache(d.cache, now)[id] == d.cache[id]
  {
    hide HeadlessScore, Record, Listed;
  }

  // --------------------------------------------------- the site's switches

  /** What a site's own settings decide: the agent and the volume of calls are
      looked at where the stored switch is on, and where nothing is stored; an
      address on the list is judged without either. */
  lemma SwitchesDecide(w: World, d: Memory, siteId: string, ip: string, userAgent: string, now: Time)
    requires !Listed(w.rows, siteId, ip, now)
    ensures var stored := siteId in w.sites && w.sites[siteId].analyzer.Some?;
            var agent := !stored || w.sites[siteId].analyzer.value.headlessDetection;
            var volume := !stored || w.sites[siteId].analyzer.value.rateLimiting;
            var (v, d') := Assess(w, d, siteId, ip, userAgent, now);
            && v.risk ==
               (if agent then HeadlessScore(userAgent) else 0) + (if volume then Record(d.calls, ip, now).1 else 0)
            && d'.cache == d.cache
            && d'.calls == (if volume then Record(d.calls, ip, now).0 else d.calls)
            && (v.needDeep <==> v.risk < 70) && (v.shouldBlock <==> v.risk >= 80)
  {
    hide HeadlessScore, Record;
  }

  // ------------------------------------------------------------ verdicts

  /** Scores a detector may hold: those it can have computed itself. */
  ghost predicate PlausibleScores(cache: Cache) {
    forall id | id in cache :: 0 <= cache[id].score <= 200
  }

  /** A verdict blocks exactly from 80 on and asks for more only below 70. */
  lemma VerdictMeaning(w: World, d: Memory, sessionId: string, ip: string, userAgent: string, now: Time)
    requires Prefilter(w, d, sessionId, ip, userAgent, now).0.Ok?
    ensures var v := Prefilter(w, d, sessionId, ip, userAgent, now).0.value;
            && (v.shouldBlock <==> v.risk >= 80)
            && (v.needDeep ==> v.risk < 70)
            && (v.needDeep <==> v.reason == NeedsDeepAnalysis)
            && (PlausibleScores(d.cache) ==> 0 <= v.risk <= 200)
  {
    HeadlessScoreMeaning(userAgent);
  }

  /** A risk after the filters: from 70 on the metrics are not looked at. */
  function FinalRisk(screened: int, metrics: Option<Metrics>): int {
    if screened >= 70 then screened else DeepRisk(metrics, screened)
  }

  /** A user agent that scores higher in the first filter need not end with a
      higher risk, because from 70 on the second filter is skipped: it does, for
      all agents, exactly when no rule of the second filter fires. */
  lemma AgentOrderKeptIff(metrics: Option<Metrics>)
    ensures (forall low, high | HeadlessScore(low) <= HeadlessScore(high) ::
               FinalRisk(HeadlessScore(low), metrics) <= FinalRisk(HeadlessScore(high), metrics))
            <==> metrics.None? || NoRuleFires(metrics.value)
  {
    hide HeadlessScore, Evidence, NoRuleFires;
    if metrics.Some? {
      EvidenceBound(metrics.value);
      NoEvidenceIff(metrics.value);
      EmptyMetrics(metrics.value);
      if NoRuleFires(metrics.value) {
        forall low, high | HeadlessScore(low) <= HeadlessScore(high)
          ensures FinalRisk(HeadlessScore(low), metrics) <= FinalRisk(HeadlessScore(high), metrics)
        {
          HeadlessScoreMeaning(low);
          HeadlessScoreMeaning(high);
        }
      } else {
        SixtyFiveAndSeventy();
        assert FinalRisk(HeadlessScore(AGENT_65), metrics) > FinalRisk(HeadlessScore(AGENT_70), metrics);
      }
    }
  }

  /** Two agents and a page that loads within 50 ms: the agent that looks worse
      at first is stored with the lower risk, and only the other is blocked. */
  lemma WorseAgentLowerRisk()
    ensures HeadlessScore(AGENT_65) < HeadlessScore(AGENT_70)
    ensures var fast: Metrics := map["timing" := Object(map["load_time_ms" := Number(50.0)])];
            FinalRisk(HeadlessScore(AGENT_65), Some(fast)) == 85 && FinalRisk(HeadlessScore(AGENT_70), Some(fast)) == 70
  {
    hide HeadlessScore, Evidence;
    FastPage();
    SixtyFiveAndSeventy();
  }

  // ------------------------------------------- a detector made per request

  /** The risk a new detector computes: a function of the session, the site's
      settings, the blacklist, the metrics, the address and the user agent. */
  function FreshRisk(w: World, sessionId: string, ip: string, userAgent: string, now: Time): int
    requires sessionId in w.sessions
  {
    var s := w.sessions[sessionId];
    if Listed(w.rows, s.siteId, ip, now) then 100
    else
      var agent := if SettingsOf(w.sites, s.siteId).headlessDetection then HeadlessScore(userAgent) else 0;
      FinalRisk(agent, Some(s.metrics))
  }

  /** A new detector never answers from its cache and never scores volume:
      the whole analysis is that risk and its consequences. */
  lemma FreshAnalysis(w: World, sessionId: string, ip: string, userAgent: string, now: Time, done: Time,
                      freshId: string)
    ensures var (r, w', d) := Analyze(w, FORGETFUL, sessionId, ip, userAgent, now, done, freshId);
            if sessionId in w.sessions then
              var risk := FreshRisk(w, sessionId, ip, userAgent, now);
              && r == Ok(()) && w' == Apply(w, sessionId, risk, freshId, done)
              && d.cache == map[sessionId := CachedRisk(risk, done)]
            else r == Err(SessionNotFound) && w' == w && d == FORGETFUL
  {
    assert Recent([], now) + [now] == [now];
  }

  lemma FreshRiskRange(w: World, sessionId: string, ip: string, userAgent: string, now: Time)
    requires sessionId in w.sessions
    ensures 0 <= FreshRisk(w, sessionId, ip, userAgent, now) <= 100
  {
    HeadlessScoreMeaning(userAgent);
    EvidenceBound(w.sessions[sessionId].metrics);
  }

  lemma ApplyWritesOne(w: World, sessionId: string, risk: int, freshId: string, now: Time)
    requires sessionId in w.sessions
    ensures var m := Apply(w, sessionId, risk, freshId, now).sessions;
            && m.Keys == w.sessions.Keys && m[sessionId].risk == risk
            && forall id | id in w.sessions && id != sessionId :: m[id] == w.sessions[id]
  {
  }

  /** The final risk is stored; from 80 on, and only then, the session is
      blocked and the address it was created from is entered for its own site.
      Where every row is one the schema allows, that address is then listed for
      good exactly when it fits the column and the site still exists. */
  lemma ApplyMeaning(w: World, sessionId: string, risk: int, freshId: string, now: Time)
    requires sessionId in w.sessions && RowsFit(w.rows, w.sites.Keys)
    ensures var w', s := Apply(w, sessionId, risk, freshId, now), w.sessions[sessionId];
            && w'.sites == w.sites && w'.sessions.Keys == w.sessions.Keys && RowsFit(w'.rows, w'.sites.Keys)
            && (forall id | id in w.sessions && id != sessionId :: w'.sessions[id] == w.sessions[id])
            && w'.sessions[sessionId] ==
               s.(risk := risk, isBlocked := s.isBlocked || risk >= 80, isActive := s.isActive && risk < 80)
    ensures var w', s := Apply(w, sessionId, risk, freshId, now), w.sessions[sessionId];
            && (risk < 80 ==> w'.rows == w.rows)
            && (forall key: Pair | Some(key.1) != Column(s.ip, IP_WIDTH) || key.0 != s.siteId ::
                  (key in w'.rows <==> key in w.rows) && (key in w.rows ==> w'.rows[key] == w.rows[key]))
            && (risk >= 80 ==>
                  ((forall t: Time :: Listed(w'.rows, s.siteId, s.ip, t)) <==>
                   Listable(w.sites.Keys, (s.siteId, s.ip))))
  {
    var s := w.sessions[sessionId];
    if risk >= 80 {
      EnterMeaning(w.rows, w.sites.Keys, AutoEntry(s, risk, freshId, now));
    }
  }

  /** Where every row is one the schema allows, a permanent entry leaves its
      address listed at all times exactly when a row can hold the pair; the
      other rows are what they were. */
  lemma EnterMeaning(rows: Rows, siteIds: set<string>, e: Entry)
    requires RowsFit(rows, siteIds) && e.expiresAt == None
    ensures var rows' := Upsert(rows, siteIds, e).0;
            && RowsFit(rows', siteIds)
            && (forall key: Pair | Some(key.1) != Column(e.ip, IP_WIDTH) || key.0 != e.siteId ::
                  (key in rows' <==> key in rows) && (key in rows ==> rows'[key] == rows[key]))
            && ((forall t: Time :: Listed(rows', e.siteId, e.ip, t)) <==> Listable(siteIds, (e.siteId, e.ip)))
  {
    var rows' := Upsert(rows, siteIds, e).0;
    if Listable(siteIds, (e.siteId, e.ip)) {
      assert forall t: Time :: Listed(rows', e.siteId, e.ip, t);
    } else {
      assert !Listed(rows', e.siteId, e.ip, 0);
    }
  }

  ghost predicate RisksWithin(m: Table, top: int) {
    forall id | id in m :: 0 <= m[id].risk <= top
  }

  /** The row that a high risk leaves behind says why, and never expires; one
      that was there keeps its id and its creation time. */
  lemma PunishmentRow(w: World, sessionId: string, risk: nat, freshId: string, now: Time)
    requires sessionId in w.sessions && risk >= 80
    requires var s := w.sessions[sessionId]; s.siteId in w.sites && Fits(s.ip, IP_WIDTH)
    ensures var s, rows := w.sessions[sessionId], Apply(w, sessionId, risk, freshId, now).rows;
            var key := (s.siteId, s.ip);
            && key in rows
            && rows[key].reason == "Auto-blocked by detector with risk score: " + Decimal(risk)
            && rows[key].expiresAt == None && (rows[key].siteId, rows[key].ip) == (if key in w.rows then
                 (w.rows[key].siteId, w.rows[key].ip) else key)
            && (rows[key].id, rows[key].createdAt) ==
               (if key in w.rows then (w.rows[key].id, w.rows[key].createdAt) else (freshId, now))
  {
    hide Decimal;
  }

  lemma ApplyKeepsRisks(w: World, sessionId: string, risk: int, freshId: string, now: Time, top: int)
    requires sessionId in w.sessions && RisksWithin(w.sessions, top) && 0 <= risk <= top
    ensures RisksWithin(Apply(w, sessionId, risk, freshId, now).sessions, top)
  {
  }

  /** The scores a shared detector can reach. */
  lemma SharedRiskRange(w: World, d: Memory, sessionId: string, ip: string, userAgent: string, now: Time, done: Time,
      freshId: string)
    returns (risk: int)
    requires PlausibleScores(d.cache)
    ensures 0 <= risk <= 200
    ensures var (_, w', d') := Analyze(w, d, sessionId, ip, userAgent, now, done, freshId);
            || (w' == w && d'.cache == d.cache)
            || (sessionId in w.sessions && w' == Apply(w, sessionId, risk, freshId, done)
                && d'.cache == d.cache[sessionId := CachedRisk(risk, done)])
  {
    hide Apply, HeadlessScore, Evidence, Listed, SettingsOf, Recent;
    HeadlessScoreMeaning(userAgent);
    risk := 0;
    var verdict := Prefilter(w, d, sessionId, ip, userAgent, now).0;
    if verdict.Ok? && sessionId in w.sessions {
      EvidenceBound(w.sessions[sessionId].metrics);
      var v := verdict.value;
      risk := if v.needDeep then DeepRisk(MetricsOf(w.sessions, sessionId), v.risk) else v.risk;
    }
  }

  /** With a detector per request every stored risk stays in 0..100; one
      detector shared between requests keeps them in 0..200. */
  lemma AnalysisKeepsRisks(w: World, d: Memory, sessionId: string, ip: string, userAgent: string, now: Time,
      done: Time, freshId: string)
    ensures RisksWithin(w.sessions, 100) ==>
              RisksWithin(Analyze(w, FORGETFUL, sessionId, ip, userAgent, now, done, freshId).1.sessions, 100)
    ensures RisksWithin(w.sessions, 200) && PlausibleScores(d.cache) ==>
              var (_, w', d') := Analyze(w, d, sessionId, ip, userAgent, now, done, freshId);
              RisksWithin(w'.sessions, 200) && PlausibleScores(d'.cache)
  {
    hide Apply, Analyze, FreshRisk;
    FreshAnalysis(w, sessionId, ip, userAgent, now, done, freshId);
    if sessionId in w.sessions && RisksWithin(w.sessions, 100) {
      FreshRiskRange(w, sessionId, ip, userAgent, now);
      ApplyKeepsRisks(w, sessionId, FreshRisk(w, sessionId, ip, userAgent, now), freshId, done, 100);
    }
    if RisksWithin(w.sessions, 200) && PlausibleScores(d.cache) {
      var risk := SharedRiskRange(w, d, sessionId, ip, userAgent, now, done, freshId);
      if sessionId in w.sessions {
        ApplyKeepsRisks(w, sessionId, risk, freshId, done, 200);
      }
    }
  }

  lemma {:induction false} AllRecent(n: nat, now: Time)
    ensures Recent(seq(n, _ => now), now) == seq(n, _ => now)
  {
    if n > 0 {
      var ts := seq(n, _ => now);
      assert ts[..n - 1] == seq(n - 1, _ => now);
      AllRecent(n - 1, now);
    }
  }

  lemma HeadlessOfEmpty()
    ensures HeadlessScore("") >= 20
  {
    IndicatorScoreCounts(ToLower(""), INDICATORS);
  }

  /** A shared detector takes a stored risk beyond 100 exactly when it does not
      answer from its cache, finds the session, its address not listed and both
      switches on, and the two scores of this call add up to more: the sum is
      not clamped when the second filter is skipped. */
  lemma SharedRiskExceedsIff(
      w: World, d: Memory, sessionId: string, ip: string, userAgent: string, now: Time, done: Time, freshId: string)
    requires RisksWithin(w.sessions, 100)
    ensures !RisksWithin(Analyze(w, d, sessionId, ip, userAgent, now, done, freshId).1.sessions, 100) <==>
              && !Hit(d.cache, sessionId, now) && sessionId in w.sessions
              && var s := w.sessions[sessionId];
              && !Listed(w.rows, s.siteId, ip, now)
              && SettingsOf(w.sites, s.siteId).headlessDetection && SettingsOf(w.sites, s.siteId).rateLimiting
              && HeadlessScore(userAgent) + Record(d.calls, ip, now).1 > 100
  {
    hide Apply, HeadlessScore, Evidence, Listed, SettingsOf, Recent, Stored;
    HeadlessScoreMeaning(userAgent);
    if sessionId in w.sessions && !Hit(d.cache, sessionId, now) {
      EvidenceBound(w.sessions[sessionId].metrics);
      var v := Prefilter(w, d, sessionId, ip, userAgent, now).0.value;
      var risk := if v.needDeep then DeepRisk(MetricsOf(w.sessions, sessionId), v.risk) else v.risk;
      ApplyRange(w, sessionId, risk, freshId, done);
    }
  }

  lemma ApplyRange(w: World, sessionId: string, risk: int, freshId: string, now: Time)
    requires sessionId in w.sessions && RisksWithin(w.sessions, 100) && risk >= 0
    ensures RisksWithin(Apply(w, sessionId, risk, freshId, now).sessions, 100) <==> risk <= 100
  {
    hide Apply;
    ApplyWritesOne(w, sessionId, risk, freshId, now);
  }

  /** One session of a site with default settings. */
  function OneSession(s: Session): World {
    World(map[s.id := s], map[], map[s.siteId := Site(Active, Some(Analyzer(true, true)))])
  }

  /** A shared detector can store more than 100: the sum of the two prefilter
      scores is not clamped. Here the address called a hundred times this
      minute and the user agent is empty. */
  lemma SharedDetectorExceedsHundred(s: Session, now: Time)
    ensures var d := Memory(map[], map[s.ip := seq(100, _ => now)]);
            Analyze(OneSession(s), d, s.id, s.ip, "", now, now, "").1.sessions[s.id].risk >= 120
  {
    hide HeadlessScore;
    AllRecent(100, now);
    HeadlessOfEmpty();
  }
}
