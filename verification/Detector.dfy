/** The storage object and the `Detector` of backend/detector/detector.go,
    tied to the values of modules `Scoring` and `Detection`. */
module Detector {
  import opened Basics
  import opened Blacklist
  import opened Detection
  import opened Scoring
  import opened Sessions
  import opened SessionStore
  import opened Sites

  /** `storage`: the tables behind one interface. */
  class Storage {
    const sessions: MemorySessionStore
    const tables: SiteTables

    constructor ()
      ensures Valid() && fresh(sessions) && fresh(tables)
      ensures Value() == World(map[], map[], map[])
    {
      sessions := new MemorySessionStore();
      tables := new SiteTables();
    }

    ghost predicate Valid()
      reads sessions, tables
    {
      sessions.Valid() && tables.Valid()
    }

    ghost function Parts(): set<object>
      reads sessions
    {
      {sessions, tables} + MemorySessionStore.PartsOf(sessions.sessions)
    }

    ghost function Value(): World
      reads sessions, Parts()
    {
      World(sessions.Contents(), tables.rows, tables.sites)
    }
  }

  class Detector {
    const store: Storage
    var cache: Cache
    var requestCounts: Calls

    constructor (store: Storage)
      ensures this.store == store && Value() == FORGETFUL
    {
      this.store := store;
      cache, requestCounts := map[], map[];
    }

    ghost function Value(): Memory
      reads this
    {
      Memory(cache, requestCounts)
    }

    static method HeadlessScore(userAgent: string) returns (score: int)
      ensures score == Scoring.HeadlessScore(userAgent)
    {
      hide Contains;
      score := 0;
      var ua := ToLower(userAgent);
      for i := 0 to |INDICATORS|
        invariant score == IndicatorScore(ua, INDICATORS[..i])
      {
        if Contains(ua, INDICATORS[i]) {
          score := score + 25;
        }
        assert INDICATORS[..i + 1][..i] == INDICATORS[..i];
      }
      assert INDICATORS[..|INDICATORS|] == INDICATORS;
      if |ua| < 20 {
        score := score + 20;
      }
      if !Contains(ua, "windows") && !Contains(ua, "mac") && !Contains(ua, "linux") && !Contains(ua, "android")
         && !Contains(ua, "iphone") && !Contains(ua, "ipad")
      {
        score := score + 15;
      }
      if score > 100 {
        score := 100;
      }
    }

    method RateLimitScore(ip: string, now: Time) returns (score: int)
      modifies this
      ensures cache == old(cache)
      ensures (requestCounts, score) == Record(old(requestCounts), ip, now)
    {
      var timestamps := if ip in requestCounts then requestCounts[ip] else [];
      var clean := [];
      for i := 0 to |timestamps|
        invariant clean == Recent(timestamps[..i], now)
      {
        var ts := timestamps[i];
        assert timestamps[..i + 1][..i] == timestamps[..i];
        if now - ts < MINUTE {
          clean := clean + [ts];
        }
      }
      assert timestamps[..|timestamps|] == timestamps;
      clean := clean + [now];
      requestCounts := requestCounts[ip := clean];
      var count := |clean|;
      if count > 100 {
        return 100;
      }
      if count > 60 {
        return 50;
      }
      if count > 30 {
        return 20;
      }
      return 0;
    }

    method Assess(siteId: string, ip: string, userAgent: string, now: Time) returns (v: Verdict)
      requires store.Valid()
      modifies this
      ensures (v, Value()) == Detection.Assess(old(store.Value()), old(Value()), siteId, ip, userAgent, now)
    {
      hide Record, Scoring.HeadlessScore, Listed, SettingsOf;
      var settings := store.tables.GetSiteSettings(siteId);
      var risk := 0;
      var blacklisted := store.tables.IsBlacklisted(siteId, ip, now);
      if blacklisted {
        return Verdict(100, true, false, IpBlacklisted);
      }
      if settings.headlessDetection {
        var hs := HeadlessScore(userAgent);
        risk := risk + hs;
      }
      if settings.rateLimiting {
        var rls := RateLimitScore(ip, now);
        risk := risk + rls;
      }
      if risk >= 70 {
        return Verdict(risk, risk >= 80, false, HighRisk);
      }
      return Verdict(risk, false, true, NeedsDeepAnalysis);
    }

    method Prefilter(sessionId: string, ip: string, userAgent: string, now: Time) returns (r: Result<Verdict>)
      requires store.Valid() && |sessionId| >= 8
      modifies this
      ensures (r, Value()) == Detection.Prefilter(old(store.Value()), old(Value()), sessionId, ip, userAgent, now)
    {
      hide Detection.Assess;
      ghost var w, d := store.Value(), Value();
      if sessionId in cache && now - cache[sessionId].ts < CACHE_TTL {
        var score := cache[sessionId].score;
        return Ok(Verdict(score, score >= 80, false, FromCache));
      }
      var found := store.sessions.GetSession(sessionId);
      if found.None? {
        return Err(SessionNotFound);
      }
      store.sessions.Fields();
      assert store.Value() == w;
      PrefilterMiss(w, d, sessionId, ip, userAgent, now);
      var v := Assess(found.value.siteId, ip, userAgent, now);
      return Ok(v);
    }

    static lemma PrefilterMiss(w: World, d: Memory, sessionId: string, ip: string, userAgent: string, now: Time)
      requires !Hit(d.cache, sessionId, now) && sessionId in w.sessions
      ensures var (v, d') := Detection.Assess(w, d, w.sessions[sessionId].siteId, ip, userAgent, now);
              Detection.Prefilter(w, d, sessionId, ip, userAgent, now) == (Ok(v), d')
    {
    }

    /** The counter rules. */
    static method CounterScore(counters: map<string, Json>) returns (risk: int)
      ensures risk == CounterEvidence(CountersOf(counters))
    {
      hide NumberAt;
      risk := 0;
      var mouseMoves, clicks := NumberAt(counters, "mouse_move"), NumberAt(counters, "click");
      var scrolls, keystrokes := NumberAt(counters, "scroll"), NumberAt(counters, "keydown");
      var duration := NumberAt(counters, "duration_sec");
      if mouseMoves > 1000.0 && duration < 30.0 {
        risk := risk + 15;
      }
      if clicks == 0.0 && scrolls > 20.0 {
        risk := risk + 25;
      }
      if keystrokes == 0.0 && mouseMoves > 100.0 {
        risk := risk + 20;
      }
      if duration > 0.0 {
        var eventsPerMinute := (mouseMoves + clicks + scrolls + keystrokes) / (duration / 60.0);
        if eventsPerMinute > 300.0 {
          risk := risk + 15;
        }
        if eventsPerMinute < 5.0 && duration > 60.0 {
          risk := risk + 30;
        }
      }
    }

    method DeepFilter(sessionId: string, currentRisk: int) returns (risk: int)
      requires store.Valid() && |sessionId| >= 8
      ensures risk == DeepRisk(MetricsOf(store.Value().sessions, sessionId), currentRisk)
    {
      hide CounterEvidence, SoftwareRenderer, LoadsTooFast;
      risk := currentRisk;
      var found := store.sessions.GetSessionMetrics(sessionId);
      store.sessions.Values();
      if found.None? {
        return;
      }
      var metrics := found.value.entries;
      if |metrics| == 0 {
        return;
      }
      var counters := ObjectAt(metrics, "counters");
      if counters.Some? {
        var counted := CounterScore(counters.value);
        risk := risk + counted;
      }
      var fingerprint := ObjectAt(metrics, "fingerprint");
      if fingerprint.Some? && SoftwareRenderer(fingerprint.value) {
        risk := risk + 25;
      }
      var timing := ObjectAt(metrics, "timing");
      if timing.Some? && LoadsTooFast(timing.value) {
        risk := risk + 20;
      }
      if risk < 0 {
        risk := 0;
      }
      if risk > 100 {
        risk := 100;
      }
    }

    method AnalyzeAndUpdate(sessionId: string, ip: string, userAgent: string, now: Time, done: Time, freshId: string)
      returns (r: Result<()>)
      requires store.Valid() && |sessionId| >= 8 && freshId != ""
      modifies this, store.tables, store.sessions.At(sessionId)
      ensures store.Valid()
      ensures (r, store.Value(), Value()) ==
              Analyze(old(store.Value()), old(Value()), sessionId, ip, userAgent, now, done, freshId)
    {
      hide Detection.Prefilter, DeepRisk, Detection.Apply, MemorySessionStore.Owned;
      ghost var w, d := store.Value(), Value();
      var prefilter := Prefilter(sessionId, ip, userAgent, now);
      assert store.Value() == w;
      if prefilter.Err? {
        return Err(prefilter.error);
      }
      if prefilter.value.reason == FromCache {
        return Ok(());
      }
      PrefilterFinds(w, d, sessionId, ip, userAgent, now);
      var finalRisk := prefilter.value.risk;
      if prefilter.value.needDeep {
        finalRisk := DeepFilter(sessionId, finalRisk);
      }
      assert store.Value() == w;
      ghost var d1 := Value();
      Finish(sessionId, finalRisk, done, freshId);
      AnalyzeWrites(w, d, sessionId, ip, userAgent, now, done, freshId, prefilter.value, d1, finalRisk);
      return Ok(());
    }

    static lemma AnalyzeWrites(w: World, d: Memory, sessionId: string, ip: string, userAgent: string, now: Time,
                               done: Time, freshId: string, v: Verdict, d1: Memory, risk: int)
      requires Detection.Prefilter(w, d, sessionId, ip, userAgent, now) == (Ok(v), d1)
      requires v.reason != FromCache && sessionId in w.sessions
      requires risk == if v.needDeep then DeepRisk(MetricsOf(w.sessions, sessionId), v.risk) else v.risk
      ensures Analyze(w, d, sessionId, ip, userAgent, now, done, freshId) ==
              (Ok(()), Apply(w, sessionId, risk, freshId, done),
               d1.(cache := d1.cache[sessionId := CachedRisk(risk, done)]))
    {
    }

    /** The final risk goes to the store first, to the cache second. */
    method WriteRisk(sessionId: string, finalRisk: int, done: Time)
      requires store.Valid() && sessionId in store.sessions.sessions
      modifies this, store.sessions.At(sessionId)
      ensures store.Valid()
      ensures var w := old(store.Value()); store.Value() == w.(sessions := SetRisk(w.sessions, sessionId, finalRisk))
      ensures Value() == old(Value()).(cache := old(cache)[sessionId := CachedRisk(finalRisk, done)])
    {
      hide SetRisk, MemorySessionStore.Owned;
      ghost var w := store.Value();
      var updated := store.sessions.UpdateRiskScore(sessionId, finalRisk);
      assert store.Value() == w.(sessions := SetRisk(w.sessions, sessionId, finalRisk));
      cache := cache[sessionId := CachedRisk(finalRisk, done)];
    }

    /** Write the final risk, and act on a high one. */
    method Finish(sessionId: string, finalRisk: int, done: Time, freshId: string)
      requires store.Valid() && sessionId in store.sessions.sessions && freshId != ""
      modifies this, store.tables, store.sessions.At(sessionId)
      ensures store.Valid()
      ensures sessionId in old(store.Value()).sessions
      ensures store.Value() == Apply(old(store.Value()), sessionId, finalRisk, freshId, done)
      ensures Value() == old(Value()).(cache := old(cache)[sessionId := CachedRisk(finalRisk, done)])
    {
      hide Upsert, Block, BlockReason, SetRisk, Apply, SitesOf, Replay, MemorySessionStore.Owned;
      ghost var w := store.Value();
      assert sessionId in w.sessions by { store.sessions.Fields(); }
      ApplyMeans(w, sessionId, finalRisk, freshId, done);
      WriteRisk(sessionId, finalRisk, done);
      if finalRisk >= 80 {
        Punish(sessionId, finalRisk, done, freshId);
      }
    }

    static lemma ApplyMeans(w: World, sessionId: string, risk: int, freshId: string, now: Time)
      requires sessionId in w.sessions
      ensures var scored := SetRisk(w.sessions, sessionId, risk);
              && sessionId in scored
              && Apply(w, sessionId, risk, freshId, now) ==
                 if risk >= 80 then
                   w.(sessions := Block(scored, sessionId),
                      rows := Upsert(w.rows, w.sites.Keys, AutoEntry(scored[sessionId], risk, freshId, now)).0)
                 else w.(sessions := scored)
    {
    }

    static lemma PrefilterFinds(w: World, d: Memory, sessionId: string, ip: string, userAgent: string, now: Time)
      ensures var v := Detection.Prefilter(w, d, sessionId, ip, userAgent, now).0;
              v.Ok? && v.value.reason != FromCache ==> sessionId in w.sessions
    {
    }

    /** Enter an address for good; a failure is only logged. */
    method List(siteId: string, ip: string, finalRisk: nat, done: Time, freshId: string)
      requires store.Valid() && freshId != ""
      modifies store.tables
      ensures store.Valid()
      ensures var w, entry := old(store.Value()), Entry(freshId, siteId, ip, BlockReason(finalRisk), done, None);
              store.Value() == w.(rows := Upsert(w.rows, w.sites.Keys, entry).0)
    {
      hide Upsert, BlockReason, SitesOf, Replay, LastOn, Column, MemorySessionStore.Owned;
      ghost var m := store.sessions.Contents();
      var entered := store.tables.AddToBlacklist(
        Entry("", siteId, ip, BlockReason(finalRisk), ZERO_TIME, None), freshId, done);
      assert store.sessions.Contents() == m;
    }

    /** The steps for a final risk of 80 and more. */
    method Punish(sessionId: string, finalRisk: nat, done: Time, freshId: string)
      requires store.Valid() && sessionId in store.sessions.sessions && freshId != ""
      modifies store.tables, store.sessions.At(sessionId)
      ensures store.Valid()
      ensures var w := old(store.Value());
              && sessionId in w.sessions
              && var entry := AutoEntry(w.sessions[sessionId], finalRisk, freshId, done);
                 store.Value() ==
                   w.(sessions := Block(w.sessions, sessionId), rows := Upsert(w.rows, w.sites.Keys, entry).0)
    {
      hide Upsert, Block, BlockReason, SitesOf, Replay, MemorySessionStore.Owned;
      store.sessions.Fields();
      ghost var w := store.Value();
      var found := store.sessions.GetSession(sessionId);
      if found.Some? {
        var session := found.value;
        assert w.sessions[sessionId].siteId == session.siteId && w.sessions[sessionId].ip == session.ip;
        assert store.Value() == w;
        var blocked := store.sessions.BlockSession(sessionId);
        assert store.Value() == w.(sessions := Block(w.sessions, sessionId));
        List(session.siteId, session.ip, finalRisk, done, freshId);
      }
    }

    /** The cache is visited in any order. */
    method CleanCache(now: Time)
      modifies this
      ensures Value() == old(Value()).(cache := Detection.CleanCache(old(cache), now))
    {
      var todo := cache.Keys;
      ghost var all := cache;
      while todo != {}
        invariant todo <= all.Keys && requestCounts == old(requestCounts)
        invariant forall id :: id in cache <==> id in all && (id in todo || !(now - all[id].ts > CACHE_TTL * 2))
        invariant forall id | id in cache :: cache[id] == all[id]
        decreases |todo|
      {
        var id :| id in todo;
        if now - cache[id].ts > CACHE_TTL * 2 {
          cache := cache - {id};
        }
        todo := todo - {id};
      }
    }

    /** Unlike `Prefilter`, this ignores the age of the entry. */
    method GetCachedRisk(sessionId: string) returns (score: int, ok: bool)
      ensures ok == (sessionId in cache)
      ensures score == if ok then cache[sessionId].score else 0
    {
      if sessionId in cache {
        return cache[sessionId].score, true;
      }
      return 0, false;
    }
  }
}
