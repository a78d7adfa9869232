/** The per-(ip, path) rate limiter of backend/middleware/ratelimit.go.

    `rate.Limiter` is a token bucket over `real` seconds: it starts full,
    refills at `limit` tokens a second up to `burst`, and `Allow` takes one
    token when at least one is there and changes nothing otherwise. */
module RateLimit {
  import opened Basics

  type Seconds = real

  type Rate = r: real | r >= 0.0 witness 0.0

  datatype Quota = Quota(limit: Rate, burst: nat)

  /** A rule: the regular expression as the set of paths it matches. */
  datatype Rule = Rule(matches: string -> bool, quota: Quota)

  const DEFAULT_QUOTA := Quota(100.0 / 60.0, 20)
  const IDLE_LIMIT: Seconds := 600.0

  // ------------------------------------------------------------ the rules

  /** The quota of the first rule that matches, or the default. */
  function QuotaFor(rules: seq<Rule>, path: string): Quota {
    if rules == [] then DEFAULT_QUOTA
    else if rules[0].matches(path) then rules[0].quota
    else QuotaFor(rules[1..], path)
  }

  lemma {:induction false} QuotaForIsFirstMatch(rules: seq<Rule>, path: string)
    ensures forall i | 0 <= i < |rules| && rules[i].matches(path)
                       && (forall j | 0 <= j < i :: !rules[j].matches(path))
              :: QuotaFor(rules, path) == rules[i].quota
    ensures (forall i | 0 <= i < |rules| :: !rules[i].matches(path)) ==> QuotaFor(rules, path) == DEFAULT_QUOTA
  {
    if rules != [] && !rules[0].matches(path) {
      QuotaForIsFirstMatch(rules[1..], path);
      forall i | 0 <= i < |rules| && rules[i].matches(path) && (forall j | 0 <= j < i :: !rules[j].matches(path))
        ensures QuotaFor(rules, path) == rules[i].quota
      {
        assert rules[1..][i - 1] == rules[i];
        assert forall j | 0 <= j < i - 1 :: rules[1..][j] == rules[j + 1];
      }
      if forall i | 0 <= i < |rules| :: !rules[i].matches(path) {
        assert forall i | 0 <= i < |rules[1..]| :: rules[1..][i] == rules[i + 1];
      }
    }
  }

  /** The rules installed by the server. */
  function ConfiguredRules(): seq<Rule> {
    [ Rule((p: string) => p == "/api/login", Quota(5.0 / 60.0, 5)),
      Rule((p: string) => p == "/api/users", Quota(10.0 / 60.0, 10)),
      Rule((p: string) => p == "/api/check", Quota(100.0 / 60.0, 50)),
      Rule((p: string) => "/api/behavior/" <= p, Quota(300.0 / 60.0, 100)),
      Rule((p: string) => "/api/files/upload" <= p, Quota(10.0 / 60.0, 5)),
      Rule((p: string) => "/api/files/" <= p, Quota(30.0 / 60.0, 20)),
      Rule((p: string) => "/api/sites" <= p, Quota(30.0 / 60.0, 15)),
      Rule((p: string) => "/api/keys" <= p, Quota(10.0 / 60.0, 5)),
      Rule((p: string) => "/api/admin/" <= p, Quota(20.0 / 60.0, 10)),
      Rule((p: string) => "/api/me" <= p, Quota(30.0 / 60.0, 15)) ]
  }

  /** Tokens that flow in over `span` seconds. */
  function Refill(rate: Rate, span: Seconds): real {
    rate * span
  }

  lemma RefillGrows(rate: Rate, a: Seconds, b: Seconds)
    requires a >= 0.0 && b >= 0.0
    ensures Refill(rate, a) >= 0.0
    ensures Refill(rate, a + b) == Refill(rate, a) + Refill(rate, b) >= Refill(rate, a)
  {
  }

  /** An empty bucket is full again after the idle time that eviction waits for. */
  predicate RefillsWhileIdle(q: Quota) {
    q.burst as real <= Refill(q.limit, IDLE_LIMIT)
  }

  lemma {:induction false} QuotaForRefills(rules: seq<Rule>, path: string)
    requires forall r | r in rules :: RefillsWhileIdle(r.quota)
    ensures RefillsWhileIdle(QuotaFor(rules, path))
  {
    if rules != [] {
      QuotaForRefills(rules[1..], path);
    }
  }

  // ------------------------------------------------------------- the keys

  function Key(ip: string, path: string): string {
    ip + ":" + path
  }

  predicate Rooted(path: string) {
    path != "" && path[0] == '/'
  }

  /** Another address and path that meet in the same bucket. */
  ghost predicate SharesBucket(ip: string, path: string, ip2: string, path2: string) {
    Rooted(path2) && (ip2, path2) != (ip, path) && Key(ip2, path2) == Key(ip, path)
  }

  /** The key can be read in one way only. */
  predicate Solo(ip: string, path: string) {
    !Contains(ip, ":/") && !Contains(path, ":/")
  }

  lemma OtherReading(ip: string, path: string, ip2: string, path2: string)
    requires Rooted(path) && SharesBucket(ip, path, ip2, path2)
    ensures !Solo(ip, path)
  {
    var key := Key(ip, path);
    var i := |ip2|;
    assert key[i] == ':' && key[i + 1] == '/' by {
      assert Key(ip2, path2)[i] == ':' && Key(ip2, path2)[i + 1] == path2[0];
    }
    assert i != |ip| by {
      assert ip == key[..|ip|] && path == key[|ip| + 1..];
      assert ip2 == Key(ip2, path2)[..i] && path2 == Key(ip2, path2)[i + 1..];
    }
    if i < |ip| {
      assert key[|ip|] == ':';
      assert ip[i] == key[i] && ip[i + 1] == key[i + 1];
      assert ip[i..i + 2] == ":/";
      assert OccursAt(ip, ":/", i);
    } else {
      var k := i - |ip| - 1;
      assert path[k] == key[i] && path[k + 1] == key[i + 1];
      assert path[k..k + 2] == ":/";
      assert OccursAt(path, ":/", k);
    }
  }

  lemma SplitInAddress(ip: string, path: string, i: nat)
    requires OccursAt(ip, ":/", i)
    ensures SharesBucket(ip, path, ip[..i], ip[i + 1..] + ":" + path)
  {
    assert ip[i..i + 2][0] == ':' && ip[i..i + 2][1] == '/';
    assert ip == ip[..i] + ":" + ip[i + 1..];
    assert Key(ip[..i], ip[i + 1..] + ":" + path) == (ip[..i] + ":" + ip[i + 1..]) + ":" + path;
    assert |ip[..i]| < |ip|;
  }

  lemma SplitInPath(ip: string, path: string, i: nat)
    requires OccursAt(path, ":/", i)
    ensures SharesBucket(ip, path, ip + ":" + path[..i], path[i + 1..])
  {
    assert path[i..i + 2][0] == ':' && path[i..i + 2][1] == '/';
    assert path == path[..i] + ":" + path[i + 1..];
    assert Key(ip + ":" + path[..i], path[i + 1..]) == ip + ":" + (path[..i] + ":" + path[i + 1..]);
    assert |ip + ":" + path[..i]| > |ip|;
  }

  ghost predicate HasCompany(ip: string, path: string) {
    exists ip2, path2 :: SharesBucket(ip, path, ip2, path2)
  }

  lemma Company(ip: string, path: string, ip2: string, path2: string)
    requires SharesBucket(ip, path, ip2, path2)
    ensures HasCompany(ip, path)
  {
  }

  /** A client shares its bucket with some other (address, path) exactly when
      ":/" occurs in its address or in its path. */
  lemma SharedBucketIff(ip: string, path: string)
    requires Rooted(path)
    ensures HasCompany(ip, path) <==> Contains(ip, ":/") || Contains(path, ":/")
  {
    hide Key, SharesBucket;
    if Contains(ip, ":/") {
      var i :| 0 <= i <= |ip| && OccursAt(ip, ":/", i);
      SplitInAddress(ip, path, i);
      Company(ip, path, ip[..i], ip[i + 1..] + ":" + path);
    } else if Contains(path, ":/") {
      var i :| 0 <= i <= |path| && OccursAt(path, ":/", i);
      SplitInPath(ip, path, i);
      Company(ip, path, ip + ":" + path[..i], path[i + 1..]);
    } else if HasCompany(ip, path) {
      var ip2, path2 :| SharesBucket(ip, path, ip2, path2);
      OtherReading(ip, path, ip2, path2);
    }
  }

  lemma NoRuleMatches(path: string)
    requires |path| > 1 && path[1] == 'x'
    ensures forall i | 0 <= i < |ConfiguredRules()| :: !ConfiguredRules()[i].matches(path)
  {
  }

  lemma DefaultPathQuota(path: string)
    requires |path| > 1 && path[1] == 'x'
    ensures QuotaFor(ConfiguredRules(), path) == DEFAULT_QUOTA
  {
    hide ConfiguredRules;
    NoRuleMatches(path);
    QuotaForIsFirstMatch(ConfiguredRules(), path);
  }

  lemma LoginQuota()
    ensures QuotaFor(ConfiguredRules(), "/api/login") == Quota(5.0 / 60.0, 5)
  {
  }

  lemma ConfiguredRefill(path: string)
    ensures RefillsWhileIdle(QuotaFor(ConfiguredRules(), path))
  {
    QuotaForRefills(ConfiguredRules(), path);
  }

  // ----------------------------------------------------------- the bucket

  datatype Bucket = Bucket(tokens: real, last: Seconds)

  function Full(q: Quota, now: Seconds): Bucket {
    Bucket(q.burst as real, now)
  }

  /** Tokens available at `t`. */
  function Level(q: Quota, b: Bucket, t: Seconds): real {
    var elapsed := if t < b.last then 0.0 else t - b.last;
    var tokens := b.tokens + Refill(q.limit, elapsed);
    if tokens > q.burst as real then q.burst as real else tokens
  }

  /** One `Allow` call. */
  function Take(q: Quota, b: Bucket, now: Seconds): (Bucket, bool) {
    var level := Level(q, b, now);
    if level >= 1.0 then (Bucket(level - 1.0, now), true) else (b, false)
  }

  // ------------------------------------------------------ the limiter map

  datatype VisitorRec = VisitorRec(quota: Quota, bucket: Bucket, lastSeen: Seconds, ruleKey: string)

  type State = map<string, VisitorRec>

  /** `getLimiter`: refresh the visitor, or create it with a full bucket. */
  function Touch(rules: seq<Rule>, s: State, ip: string, path: string, now: Seconds): State {
    var key := Key(ip, path);
    if key in s then s[key := s[key].(lastSeen := now)]
    else
      var q := QuotaFor(rules, path);
      s[key := VisitorRec(q, Full(q, now), now, path)]
  }

  /** `Allow` on the limiter stored under `key`. */
  function Spend(s: State, key: string, now: Seconds): (State, bool)
    requires key in s
  {
    var (b, ok) := Take(s[key].quota, s[key].bucket, now);
    (s[key := s[key].(bucket := b)], ok)
  }

  function Serve(rules: seq<Rule>, s: State, ip: string, path: string, now: Seconds): (State, bool) {
    Spend(Touch(rules, s, ip, path, now), Key(ip, path), now)
  }

  predicate Idle(v: VisitorRec, now: Seconds) {
    now - v.lastSeen > IDLE_LIMIT
  }

  /** One round of `cleanup`. */
  function Evict(s: State, now: Seconds): State {
    map key | key in s && !Idle(s[key], now) :: s[key]
  }

  predicate Bypassed(upgrade: bool, path: string) {
    upgrade || path == "/health" || "/metrics" <= path
  }

  // ------------------------------------------------------------------ runs

  datatype Event =
    | Request(time: Seconds, upgrade: bool, ip: string, path: string)
    | Sweep(time: Seconds)
  {
    predicate Limited() {
      Request? && !Bypassed(upgrade, path)
    }
  }

  /** One event: the new map, and the answers it produced (none for a sweep). */
  function Step(rules: seq<Rule>, s: State, e: Event): (State, seq<bool>) {
    match e
    case Sweep(t) => (Evict(s, t), [])
    case Request(t, upgrade, ip, path) =>
      if Bypassed(upgrade, path) then (s, [true])
      else
        var (s', ok) := Serve(rules, s, ip, path, t);
        (s', [ok])
  }

  function Run(rules: seq<Rule>, s: State, es: seq<Event>): (State, seq<bool>)
    decreases |es|
  {
    if es == [] then (s, [])
    else
      var (s1, a) := Step(rules, s, es[0]);
      var (s2, b) := Run(rules, s1, es[1..]);
      (s2, a + b)
  }

  /** The same traffic with every sweep taken out: a limiter that never evicts. */
  function WithoutSweeps(es: seq<Event>): seq<Event> {
    if es == [] then []
    else if es[0].Sweep? then WithoutSweeps(es[1..])
    else [es[0]] + WithoutSweeps(es[1..])
  }

  /** The clock never runs backwards. */
  ghost predicate Ordered(now: Seconds, es: seq<Event>)
    decreases |es|
  {
    es != [] ==> now <= es[0].time && Ordered(es[0].time, es[1..])
  }

  // ------------------------------------------------ one key, one quota

  /** Buckets of both quotas always answer alike. */
  predicate Interchangeable(a: Quota, b: Quota) {
    a.burst == b.burst && (a.burst == 0 || a.limit == b.limit)
  }

  /** No key is used under two quotas. */
  ghost predicate OneQuotaPerKey(rules: seq<Rule>, es: seq<Event>) {
    forall e, f | e in es && f in es && e.Limited() && f.Limited() && Key(e.ip, e.path) == Key(f.ip, f.path) ::
      Interchangeable(QuotaFor(rules, e.path), QuotaFor(rules, f.path))
  }

  /** Traffic whose keys can be read in one way only. */
  ghost predicate AllSolo(es: seq<Event>) {
    forall e | e in es && e.Limited() :: Rooted(e.path) && Solo(e.ip, e.path)
  }

  lemma SoloHasOneQuota(rules: seq<Rule>, es: seq<Event>)
    requires AllSolo(es)
    ensures OneQuotaPerKey(rules, es)
  {
    forall e, f | e in es && f in es && e.Limited() && f.Limited() && Key(e.ip, e.path) == Key(f.ip, f.path)
      ensures e.path == f.path
    {
      if (f.ip, f.path) != (e.ip, e.path) {
        OtherReading(e.ip, e.path, f.ip, f.path);
      }
    }
  }

  /** Every request under a key falls under the quota `quotas` gives that key. */
  ghost predicate Consistent(rules: seq<Rule>, quotas: string -> Quota, es: seq<Event>) {
    forall e | e in es && e.Limited() :: Interchangeable(QuotaFor(rules, e.path), quotas(Key(e.ip, e.path)))
  }

  /** The quota under which some request of the traffic uses the key. */
  ghost function QuotaInUse(rules: seq<Rule>, es: seq<Event>, key: string): Quota {
    if e :| e in es && e.Limited() && Key(e.ip, e.path) == key then QuotaFor(rules, e.path) else DEFAULT_QUOTA
  }

  lemma InUseIsConsistent(rules: seq<Rule>, es: seq<Event>)
    requires OneQuotaPerKey(rules, es)
    ensures Consistent(rules, k => QuotaInUse(rules, es, k), es)
  {
    forall e | e in es && e.Limited()
      ensures Interchangeable(QuotaFor(rules, e.path), QuotaInUse(rules, es, Key(e.ip, e.path)))
    {
    }
  }

  // ------------------------------------------------- what a bucket offers

  /** The entry under `k`, if any, is one a run may leave under that quota. */
  ghost predicate SoundAt(q: Quota, s: State, k: string, now: Seconds) {
    k in s ==>
      && Interchangeable(s[k].quota, q)
      && 0.0 <= s[k].bucket.tokens <= q.burst as real
      && s[k].bucket.last <= s[k].lastSeen <= now
  }

  /** Tokens a key could use at `t`: an absent key is as good as a full bucket. */
  ghost function Offered(q: Quota, s: State, k: string, t: Seconds): real {
    if k in s then Level(q, s[k].bucket, t) else q.burst as real
  }

  lemma SameLevel(a: Quota, b: Quota, bucket: Bucket, t: Seconds)
    requires Interchangeable(a, b) && 0.0 <= bucket.tokens <= b.burst as real
    ensures Level(a, bucket, t) == Level(b, bucket, t)
  {
    hide Refill;
    RefillGrows(a.limit, if t < bucket.last then 0.0 else t - bucket.last, 0.0);
    RefillGrows(b.limit, if t < bucket.last then 0.0 else t - bucket.last, 0.0);
  }

  lemma LevelLater(q: Quota, b: Bucket, t1: Seconds, t2: Seconds)
    requires b.last <= t1 <= t2
    ensures var later := Level(q, b, t1) + Refill(q.limit, t2 - t1);
            Level(q, b, t2) == if later > q.burst as real then q.burst as real else later
    ensures Level(q, b, t1) <= Level(q, b, t2)
  {
    hide Refill;
    RefillGrows(q.limit, t1 - b.last, t2 - t1);
    RefillGrows(q.limit, t2 - t1, 0.0);
    assert t1 - b.last + (t2 - t1) == t2 - b.last;
  }

  lemma OfferedLater(q: Quota, s: State, k: string, t1: Seconds, t2: Seconds)
    requires SoundAt(q, s, k, t1) && t1 <= t2
    ensures var later := Offered(q, s, k, t1) + Refill(q.limit, t2 - t1);
            Offered(q, s, k, t2) == if later > q.burst as real then q.burst as real else later
    ensures 0.0 <= Offered(q, s, k, t1) <= Offered(q, s, k, t2) <= q.burst as real
    ensures SoundAt(q, s, k, t2)
  {
    hide Refill;
    RefillGrows(q.limit, t2 - t1, 0.0);
    if k in s {
      LevelLater(q, s[k].bucket, t1, t2);
      RefillGrows(q.limit, t1 - s[k].bucket.last, 0.0);
    }
  }

  /** What one limited request does to the tokens on offer under its key. */
  lemma ServeEffect(rules: seq<Rule>, q: Quota, s: State, ip: string, path: string, prev: Seconds, now: Seconds)
    requires SoundAt(q, s, Key(ip, path), prev) && prev <= now
    requires Key(ip, path) !in s ==> Interchangeable(QuotaFor(rules, path), q)
    ensures var (s', ok) := Serve(rules, s, ip, path, now);
            var key := Key(ip, path);
            && SoundAt(q, s', key, now)
            && (ok <==> Offered(q, s, key, now) >= 1.0)
            && Offered(q, s', key, now) == Offered(q, s, key, now) - (if ok then 1.0 else 0.0)
            && (forall k | k != key :: (k in s' <==> k in s) && (k in s ==> s'[k] == s[k]))
  {
    hide Refill, QuotaFor;
    var key := Key(ip, path);
    RefillGrows(q.limit, 0.0, 0.0);
    OfferedLater(q, s, key, prev, now);
    var touched := Touch(rules, s, ip, path, now);
    SameLevel(touched[key].quota, q, touched[key].bucket, now);
    RefillGrows(touched[key].quota.limit, 0.0, 0.0);
  }

  /** Dropping idle entries leaves the tokens on offer unchanged. */
  lemma EvictEffect(q: Quota, s: State, k: string, prev: Seconds, now: Seconds)
    requires SoundAt(q, s, k, prev) && prev <= now && RefillsWhileIdle(q)
    ensures SoundAt(q, Evict(s, now), k, now)
    ensures Offered(q, Evict(s, now), k, now) == Offered(q, s, k, now)
  {
    hide Refill;
    if k in s && Idle(s[k], now) {
      var b := s[k].bucket;
      RefillGrows(q.limit, IDLE_LIMIT, now - b.last - IDLE_LIMIT);
      assert IDLE_LIMIT + (now - b.last - IDLE_LIMIT) == now - b.last;
    }
  }

  ghost predicate Sound(quotas: string -> Quota, s: State, now: Seconds) {
    forall k: string :: SoundAt(quotas(k), s, k, now)
  }

  ghost predicate Alike(quotas: string -> Quota, s: State, n: State, t: Seconds) {
    forall k: string :: Offered(quotas(k), s, k, t) == Offered(quotas(k), n, k, t)
  }

  ghost predicate AllRefill(quotas: string -> Quota) {
    forall k: string :: RefillsWhileIdle(quotas(k))
  }

  /** One event keeps all of that, and tells the same answer from states that
      offer the same. */
  lemma AlikeStep(rules: seq<Rule>, quotas: string -> Quota, s: State, n: State, now: Seconds, e: Event)
    requires Sound(quotas, s, now) && Sound(quotas, n, now) && Alike(quotas, s, n, now) && AllRefill(quotas)
    requires now <= e.time && Consistent(rules, quotas, [e])
    ensures var (s1, a) := Step(rules, s, e);
            var (n1, b) := if e.Sweep? then (n, []) else Step(rules, n, e);
            a == b && Sound(quotas, s1, e.time) && Sound(quotas, n1, e.time) && Alike(quotas, s1, n1, e.time)
  {
    hide Refill, Serve, QuotaFor, SoundAt, Offered, RefillsWhileIdle, Bypassed, Evict, Interchangeable;
    var s1, n1 := Step(rules, s, e).0, if e.Sweep? then n else Step(rules, n, e).0;
    if e.Limited() {
      assert e in [e];
      var key := Key(e.ip, e.path);
      ServeEffect(rules, quotas(key), s, e.ip, e.path, now, e.time);
      ServeEffect(rules, quotas(key), n, e.ip, e.path, now, e.time);
      OfferedLater(quotas(key), s, key, now, e.time);
      OfferedLater(quotas(key), n, key, now, e.time);
      assert Offered(quotas(key), s, key, now) == Offered(quotas(key), n, key, now);
    }
    forall k: string
      ensures SoundAt(quotas(k), s1, k, e.time) && SoundAt(quotas(k), n1, k, e.time)
      ensures Offered(quotas(k), s1, k, e.time) == Offered(quotas(k), n1, k, e.time)
    {
      AlikeAt(rules, quotas(k), s, n, now, e, k);
    }
  }

  lemma AlikeAt(rules: seq<Rule>, q: Quota, s: State, n: State, now: Seconds, e: Event, k: string)
    requires SoundAt(q, s, k, now) && SoundAt(q, n, k, now) && Offered(q, s, k, now) == Offered(q, n, k, now)
    requires RefillsWhileIdle(q) && now <= e.time
    requires e.Limited() && Key(e.ip, e.path) == k ==> Interchangeable(QuotaFor(rules, e.path), q)
    ensures var s1, n1 := Step(rules, s, e).0, if e.Sweep? then n else Step(rules, n, e).0;
            && SoundAt(q, s1, k, e.time) && SoundAt(q, n1, k, e.time)
            && Offered(q, s1, k, e.time) == Offered(q, n1, k, e.time)
  {
    hide Refill, Serve, QuotaFor, RefillsWhileIdle, Evict, Level, Bypassed, Interchangeable;
    OfferedLater(q, s, k, now, e.time);
    OfferedLater(q, n, k, now, e.time);
    if e.Sweep? {
      EvictEffect(q, s, k, now, e.time);
    } else if e.Limited() {
      if Key(e.ip, e.path) == k {
        ServeEffect(rules, q, s, e.ip, e.path, now, e.time);
        ServeEffect(rules, q, n, e.ip, e.path, now, e.time);
      } else {
        ServeElsewhere(rules, s, e.ip, e.path, e.time, k);
        ServeElsewhere(rules, n, e.ip, e.path, e.time, k);
      }
    }
  }

  lemma ServeElsewhere(rules: seq<Rule>, s: State, ip: string, path: string, now: Seconds, k: string)
    requires k != Key(ip, path)
    ensures var s' := Serve(rules, s, ip, path, now).0; (k in s' <==> k in s) && (k in s ==> s'[k] == s[k])
  {
    hide QuotaFor, Take, Full;
  }

  // ---------------------------------------- eviction cannot be observed

  lemma {:induction false} EvictionUnobservableFrom(
      rules: seq<Rule>, quotas: string -> Quota, s: State, n: State, now: Seconds, es: seq<Event>)
    requires Sound(quotas, s, now) && Sound(quotas, n, now) && Alike(quotas, s, n, now) && AllRefill(quotas)
    requires Ordered(now, es) && Consistent(rules, quotas, es)
    ensures Run(rules, s, es).1 == Run(rules, n, WithoutSweeps(es)).1
    decreases |es|
  {
    hide Step, Sound, Alike, AllRefill;
    if es == [] { return; }
    var e, rest := es[0], es[1..];
    AlikeStep(rules, quotas, s, n, now, e);
    var s1 := Step(rules, s, e).0;
    if e.Sweep? {
      EvictionUnobservableFrom(rules, quotas, s1, n, e.time, rest);
      assert Run(rules, s, es).1 == [] + Run(rules, s1, rest).1;
    } else {
      assert WithoutSweeps(es)[0] == e && WithoutSweeps(es)[1..] == WithoutSweeps(rest);
      EvictionUnobservableFrom(rules, quotas, s1, Step(rules, n, e).0, e.time, rest);
    }
  }

  ghost predicate EvictionHidden(rules: seq<Rule>, es: seq<Event>) {
    Run(rules, map[], es).1 == Run(rules, map[], WithoutSweeps(es)).1
  }

  /** Every schedule of sweeps leaves every allow/deny answer as it would be
      without them, in every run in which no key is used under two quotas and
      the buckets in use refill while idle. */
  lemma EvictionUnobservable(rules: seq<Rule>, start: Seconds, es: seq<Event>)
    requires forall e | e in es && e.Limited() :: RefillsWhileIdle(QuotaFor(rules, e.path))
    requires Ordered(start, es) && OneQuotaPerKey(rules, es)
    ensures EvictionHidden(rules, es)
  {
    var quotas: string -> Quota := k => QuotaInUse(rules, es, k);
    InUseIsConsistent(rules, es);
    EvictionUnobservableFrom(rules, quotas, map[], map[], start, es);
  }

  /** The server's own rules refill while idle, and traffic in which ":/" never
      occurs uses no key twice. */
  lemma ConfiguredEvictionUnobservable(start: Seconds, es: seq<Event>)
    requires Ordered(start, es) && (OneQuotaPerKey(ConfiguredRules(), es) || AllSolo(es))
    ensures EvictionHidden(ConfiguredRules(), es)
  {
    hide ConfiguredRules, QuotaFor, EvictionHidden;
    forall e | e in es && e.Limited()
      ensures RefillsWhileIdle(QuotaFor(ConfiguredRules(), e.path))
    {
      ConfiguredRefill(e.path);
    }
    if AllSolo(es) {
      SoloHasOneQuota(ConfiguredRules(), es);
    }
    EvictionUnobservable(ConfiguredRules(), start, es);
  }

  // ------------------------------- ... exactly when idle buckets refill

  lemma {:induction false} RunAppend(rules: seq<Rule>, s: State, a: seq<Event>, b: seq<Event>)
    ensures var (s1, x) := Run(rules, s, a);
            var (s2, y) := Run(rules, s1, b);
            Run(rules, s, a + b) == (s2, x + y)
    decreases |a|
  {
    if a == [] {
      assert a + b == b;
      assert [] + Run(rules, s, b).1 == Run(rules, s, b).1;
    } else {
      assert (a + b)[0] == a[0] && (a + b)[1..] == a[1..] + b;
      var (s1, x) := Step(rules, s, a[0]);
      var (s2, y) := Run(rules, s1, a[1..]);
      var z := Run(rules, s2, b).1;
      RunAppend(rules, s1, a[1..], b);
      assert x + (y + z) == (x + y) + z;
    }
  }

  /** There is an instant just past the idle limit at which a bucket that
      refills too slowly is still not full. */
  lemma StillRefilling(q: Quota) returns (t: Seconds)
    requires !RefillsWhileIdle(q)
    ensures t > IDLE_LIMIT && Refill(q.limit, t) < q.burst as real
  {
    var missing := q.burst as real - IDLE_LIMIT * q.limit;
    var extra := missing / (q.limit + 1.0);
    assert extra * (q.limit + 1.0) == missing;
    assert extra > 0.0;
    assert extra * q.limit + extra == missing;
    t := IDLE_LIMIT + extra;
  }

  /** `n` requests of one client at one instant. */
  function Volley(ip: string, path: string, t: Seconds, n: nat): seq<Event> {
    seq(n, _ => Request(t, false, ip, path))
  }

  function Granted(n: nat): seq<bool> {
    seq(n, _ => true)
  }

  predicate LimitedPath(path: string) {
    !Bypassed(false, path)
  }

  lemma VolleyUnrolls(rules: seq<Rule>, s: State, ip: string, path: string, t: Seconds, n: nat)
    requires LimitedPath(path) && n > 0
    ensures var (s1, ok) := Serve(rules, s, ip, path, t);
            var (s2, rest) := Run(rules, s1, Volley(ip, path, t, n - 1));
            Run(rules, s, Volley(ip, path, t, n)) == (s2, [ok] + rest)
  {
    assert Volley(ip, path, t, n)[1..] == Volley(ip, path, t, n - 1);
  }

  lemma GrantedCons(ok: bool, rest: seq<bool>, n: nat)
    requires n > 0
    ensures [ok] + rest == Granted(n) <==> ok && rest == Granted(n - 1)
  {
    assert Granted(n)[0] == true && Granted(n)[1..] == Granted(n - 1);
    assert ([ok] + rest)[0] == ok && ([ok] + rest)[1..] == rest;
    if ok && rest == Granted(n - 1) {
      assert [ok] + rest == Granted(n);
    }
  }

  /** A volley is granted in full exactly when the tokens on offer cover it. */
  lemma {:induction false} VolleyOutcome(
      rules: seq<Rule>, q: Quota, s: State, ip: string, path: string, prev: Seconds, t: Seconds, n: nat)
    requires LimitedPath(path) && (Key(ip, path) !in s ==> Interchangeable(QuotaFor(rules, path), q))
    requires SoundAt(q, s, Key(ip, path), prev) && prev <= t
    ensures var (s', out) := Run(rules, s, Volley(ip, path, t, n));
            var offered := Offered(q, s, Key(ip, path), t);
            && SoundAt(q, s', Key(ip, path), t) && |out| == n
            && (n > 0 || Key(ip, path) in s ==> Key(ip, path) in s')
            && (out == Granted(n) <==> n as real <= offered)
            && (out == Granted(n) ==> Offered(q, s', Key(ip, path), t) == offered - n as real)
    decreases n
  {
    hide Refill, Serve, Step, Level, QuotaFor, Interchangeable;
    OfferedLater(q, s, Key(ip, path), prev, t);
    if n > 0 {
      ServeEffect(rules, q, s, ip, path, prev, t);
      var (s1, ok) := Serve(rules, s, ip, path, t);
      ServedIsThere(rules, s, ip, path, t);
      VolleyOutcome(rules, q, s1, ip, path, t, t, n - 1);
      VolleyUnrolls(rules, s, ip, path, t, n);
      GrantedCons(ok, Run(rules, s1, Volley(ip, path, t, n - 1)).1, n);
    }
  }

  lemma ServedIsThere(rules: seq<Rule>, s: State, ip: string, path: string, t: Seconds)
    ensures Key(ip, path) in Serve(rules, s, ip, path, t).0
  {
  }

  lemma {:induction false} VolleyHasNoSweeps(ip: string, path: string, t: Seconds, n: nat, rest: seq<Event>)
    ensures WithoutSweeps(Volley(ip, path, t, n) + rest) == Volley(ip, path, t, n) + WithoutSweeps(rest)
    decreases n
  {
    var v := Volley(ip, path, t, n);
    if n == 0 {
      assert v + rest == rest;
      assert v + WithoutSweeps(rest) == WithoutSweeps(rest);
    } else {
      assert v[1..] == Volley(ip, path, t, n - 1);
      assert (v + rest)[1..] == v[1..] + rest;
      VolleyHasNoSweeps(ip, path, t, n - 1, rest);
      assert [v[0]] + (v[1..] + WithoutSweeps(rest)) == v + WithoutSweeps(rest);
    }
  }

  lemma {:induction false} VolleyOrdered(ip: string, path: string, now: Seconds, t: Seconds, n: nat, rest: seq<Event>)
    requires now <= t && Ordered(t, rest)
    ensures Ordered(now, Volley(ip, path, t, n) + rest)
    decreases n
  {
    var v := Volley(ip, path, t, n);
    if n == 0 {
      assert v + rest == rest;
    } else {
      assert (v + rest)[1..] == Volley(ip, path, t, n - 1) + rest;
      VolleyOrdered(ip, path, t, t, n - 1, rest);
    }
  }

  /** One client's volley, a sweep, and two volleys of another client. */
  function Probe(ip1: string, path1: string, n1: nat, ip2: string, path2: string,
                 t: Seconds, n2: nat, u: Seconds, n3: nat): seq<Event> {
    Volley(ip1, path1, 0.0, n1) + ([Sweep(t)] + (Volley(ip2, path2, t, n2) + Volley(ip2, path2, u, n3)))
  }

  lemma ProbeShape(ip1: string, path1: string, n1: nat, ip2: string, path2: string, t: Seconds, n2: nat, u: Seconds,
                   n3: nat)
    requires 0.0 <= t <= u
    ensures var es := Probe(ip1, path1, n1, ip2, path2, t, n2, u, n3);
            && Ordered(0.0, es)
            && WithoutSweeps(es) ==
               Volley(ip1, path1, 0.0, n1) + (Volley(ip2, path2, t, n2) + Volley(ip2, path2, u, n3))
  {
    var last := Volley(ip2, path2, u, n3);
    VolleyOrdered(ip2, path2, u, u, n3, []);
    VolleyHasNoSweeps(ip2, path2, u, n3, []);
    assert last + [] == last;
    var again := Volley(ip2, path2, t, n2) + last;
    assert Ordered(t, last) by {
      VolleyOrdered(ip2, path2, t, u, n3, []);
    }
    VolleyOrdered(ip2, path2, t, t, n2, last);
    VolleyHasNoSweeps(ip2, path2, t, n2, last);
    assert ([Sweep(t)] + again)[1..] == again;
    VolleyOrdered(ip1, path1, 0.0, 0.0, n1, [Sweep(t)] + again);
    VolleyHasNoSweeps(ip1, path1, 0.0, n1, [Sweep(t)] + again);
  }

  /** The state before the sweep, and the answers of the two last volleys from
      two states of the map. */
  lemma ProbeRuns(rules: seq<Rule>, ip1: string, path1: string, n1: nat, ip2: string, path2: string,
                  t: Seconds, n2: nat, u: Seconds, n3: nat)
    requires 0.0 <= t <= u
    ensures var es := Probe(ip1, path1, n1, ip2, path2, t, n2, u, n3);
            var (s1, first) := Run(rules, map[], Volley(ip1, path1, 0.0, n1));
            var again := Volley(ip2, path2, t, n2) + Volley(ip2, path2, u, n3);
            && Run(rules, map[], es).1 == first + Run(rules, Evict(s1, t), again).1
            && Run(rules, map[], WithoutSweeps(es)).1 == first + Run(rules, s1, again).1
  {
    hide Run, Step, Evict, WithoutSweeps;
    var first := Volley(ip1, path1, 0.0, n1);
    var again := Volley(ip2, path2, t, n2) + Volley(ip2, path2, u, n3);
    ProbeShape(ip1, path1, n1, ip2, path2, t, n2, u, n3);
    RunAppend(rules, map[], first, [Sweep(t)] + again);
    RunAppend(rules, map[], first, again);
    var s1 := Run(rules, map[], first).0;
    SweepFirst(rules, s1, t, again);
  }

  lemma SweepFirst(rules: seq<Rule>, s: State, t: Seconds, rest: seq<Event>)
    ensures Run(rules, s, [Sweep(t)] + rest).1 == Run(rules, Evict(s, t), rest).1
  {
    hide Serve, Evict;
    assert ([Sweep(t)] + rest)[0] == Sweep(t) && ([Sweep(t)] + rest)[1..] == rest;
    assert [] + Run(rules, Evict(s, t), rest).1 == Run(rules, Evict(s, t), rest).1;
  }

  lemma DifferentEnds(first: seq<bool>, a: seq<bool>, b: seq<bool>)
    requires a != b
    ensures first + a != first + b
  {
    assert (first + a)[|first|..] == a && (first + b)[|first|..] == b;
  }

  /** A client whose bucket refills too slowly sees the sweep: it empties the
      bucket, waits just over the idle limit, and is granted a full volley. */
  lemma SlowRefillSeen(rules: seq<Rule>, ip: string, path: string) returns (es: seq<Event>)
    requires LimitedPath(path) && !RefillsWhileIdle(QuotaFor(rules, path))
    ensures Ordered(0.0, es) && !EvictionHidden(rules, es)
    ensures forall e | e in es && e.Request? :: (e.ip, e.path) == (ip, path)
  {
    hide Refill, QuotaFor, Level, Serve;
    var q, key := QuotaFor(rules, path), Key(ip, path);
    var n := q.burst;
    var t := StillRefilling(q);
    es := Probe(ip, path, n, ip, path, t, n, t, 0);
    ProbeShape(ip, path, n, ip, path, t, n, t, 0);
    ProbeRuns(rules, ip, path, n, ip, path, t, n, t, 0);
    assert Volley(ip, path, t, n) + Volley(ip, path, t, 0) == Volley(ip, path, t, n);
    VolleyOutcome(rules, q, map[], ip, path, 0.0, 0.0, n);
    var (s1, first) := Run(rules, map[], Volley(ip, path, 0.0, n));
    VolleyOutcome(rules, q, s1, ip, path, 0.0, t, n);
    OfferedLater(q, s1, key, 0.0, t);
    assert t - 0.0 == t;
    GoneWhenIdle(q, s1, key, t);
    VolleyOutcome(rules, q, Evict(s1, t), ip, path, t, t, n);
    DifferentEnds(first, Run(rules, Evict(s1, t), Volley(ip, path, t, n)).1, Run(rules, s1, Volley(ip, path, t, n)).1);
  }

  lemma GoneWhenIdle(q: Quota, s: State, k: string, t: Seconds)
    requires SoundAt(q, s, k, 0.0) && t > IDLE_LIMIT
    ensures k !in Evict(s, t)
  {
  }

  /** Two clients in one bucket under different quotas see the sweep too: with
      it the second meets a bucket of its own quota, without it one of the
      first's, which admits another number at once, or refills at another rate. */
  lemma SharedKeySeen(rules: seq<Rule>, ip1: string, path1: string, ip2: string, path2: string) returns (es: seq<Event>)
    requires LimitedPath(path1) && LimitedPath(path2) && Key(ip1, path1) == Key(ip2, path2)
    requires RefillsWhileIdle(QuotaFor(rules, path1))
    requires !Interchangeable(QuotaFor(rules, path1), QuotaFor(rules, path2))
    ensures Ordered(0.0, es) && !EvictionHidden(rules, es)
    ensures forall e | e in es && e.Request? :: (e.ip, e.path) in {(ip1, path1), (ip2, path2)}
  {
    hide Refill, QuotaFor, Level, Serve;
    var q1, q2, key := QuotaFor(rules, path1), QuotaFor(rules, path2), Key(ip1, path1);
    var t := 601.0;
    var n2 := if q1.burst > q2.burst then q1.burst else q2.burst;
    var rate := if q1.limit > q2.limit then q1.limit else q2.limit;
    var n3 := if q1.burst == q2.burst then 1 else 0;
    var u := if n3 == 1 then t + 1.0 / rate else t;
    es := Probe(ip1, path1, 1, ip2, path2, t, n2, u, n3);
    ProbeShape(ip1, path1, 1, ip2, path2, t, n2, u, n3);
    ProbeRuns(rules, ip1, path1, 1, ip2, path2, t, n2, u, n3);
    VolleyOutcome(rules, q1, map[], ip1, path1, 0.0, 0.0, 1);
    var (s1, first) := Run(rules, map[], Volley(ip1, path1, 0.0, 1));
    RefilledBy(q1, s1, key, t);
    GoneWhenIdle(q1, s1, key, t);
    SecondClient(rules, q1, s1, ip2, path2, t, n2, u, n3);
    SecondClient(rules, q2, Evict(s1, t), ip2, path2, t, n2, u, n3);
    if n3 == 1 {
      OneRefills(q1, q2, rate);
    }
    var again := Volley(ip2, path2, t, n2) + Volley(ip2, path2, u, n3);
    DifferentEnds(first, Run(rules, Evict(s1, t), again).1, Run(rules, s1, again).1);
  }

  /** After the idle limit a bucket that refills while idle is full. */
  lemma RefilledBy(q: Quota, s: State, k: string, t: Seconds)
    requires SoundAt(q, s, k, 0.0) && RefillsWhileIdle(q) && t > IDLE_LIMIT
    ensures Offered(q, s, k, t) == q.burst as real && SoundAt(q, s, k, t)
  {
    hide Refill;
    OfferedLater(q, s, k, 0.0, t);
    RefillGrows(q.limit, IDLE_LIMIT, t - IDLE_LIMIT);
    assert IDLE_LIMIT + (t - IDLE_LIMIT) == t - 0.0;
  }

  /** Whether two volleys from a full bucket are granted in full. */
  lemma SecondClient(rules: seq<Rule>, q: Quota, s: State, ip: string, path: string, t: Seconds, n2: nat, u: Seconds,
                     n3: nat)
    requires LimitedPath(path) && (Key(ip, path) !in s ==> Interchangeable(QuotaFor(rules, path), q))
    requires SoundAt(q, s, Key(ip, path), t) && Offered(q, s, Key(ip, path), t) == q.burst as real && t <= u
    requires n3 == 0 || n2 == q.burst > 0
    ensures var out := Run(rules, s, Volley(ip, path, t, n2) + Volley(ip, path, u, n3)).1;
            n3 == 0 ==> (out == Granted(n2) <==> n2 <= q.burst)
    ensures var out := Run(rules, s, Volley(ip, path, t, n2) + Volley(ip, path, u, n3)).1;
            n3 == 1 ==> (out == Granted(n2) + Granted(1) <==> Refill(q.limit, u - t) >= 1.0)
  {
    hide Refill, QuotaFor, Level, Serve, Interchangeable;
    var key := Key(ip, path);
    RunAppend(rules, s, Volley(ip, path, t, n2), Volley(ip, path, u, n3));
    VolleyOutcome(rules, q, s, ip, path, t, t, n2);
    var (s2, out2) := Run(rules, s, Volley(ip, path, t, n2));
    if n3 == 1 {
      assert out2 == Granted(n2);
      VolleyOutcome(rules, q, s2, ip, path, t, u, 1);
      OfferedLater(q, s2, key, t, u);
      var out3 := Run(rules, s2, Volley(ip, path, u, 1)).1;
      assert (Granted(n2) + out3)[n2..] == out3 && (Granted(n2) + Granted(1))[n2..] == Granted(1);
    } else if n3 == 0 {
      assert Run(rules, s2, Volley(ip, path, u, 0)).1 == [];
      assert out2 + [] == out2;
    }
  }

  /** Of two rates, only the larger brings a token in the time it takes. */
  lemma OneRefills(q1: Quota, q2: Quota, rate: Rate)
    requires q1.limit != q2.limit && rate == if q1.limit > q2.limit then q1.limit else q2.limit
    ensures var span := 601.0 + 1.0 / rate - 601.0;
            && (Refill(q1.limit, span) >= 1.0 <==> q1.limit > q2.limit)
            && (Refill(q2.limit, span) >= 1.0 <==> q2.limit > q1.limit)
  {
    var d := 1.0 / rate;
    assert rate * d == 1.0;
    var less := if q1.limit > q2.limit then q2.limit else q1.limit;
    assert (rate - less) * d > 0.0;
    assert less * d == rate * d - (rate - less) * d;
  }

  /** A set of clients, as the requests they may send. */
  type Clients = (string, string) -> bool

  ghost predicate From(clients: Clients, es: seq<Event>) {
    forall e | e in es && e.Limited() :: clients(e.ip, e.path)
  }

  ghost predicate AlwaysHidden(rules: seq<Rule>, clients: Clients) {
    forall start: Seconds, es: seq<Event> | Ordered(start, es) && From(clients, es) :: EvictionHidden(rules, es)
  }

  ghost predicate AllClientsRefill(rules: seq<Rule>, clients: Clients) {
    forall ip, path | clients(ip, path) && LimitedPath(path) :: RefillsWhileIdle(QuotaFor(rules, path))
  }

  ghost predicate NoneShare(rules: seq<Rule>, clients: Clients) {
    forall ip1, path1, ip2, path2 |
      clients(ip1, path1) && clients(ip2, path2) && LimitedPath(path1) && LimitedPath(path2)
      && Key(ip1, path1) == Key(ip2, path2)
      :: Interchangeable(QuotaFor(rules, path1), QuotaFor(rules, path2))
  }

  /** Whatever the rules and whoever the clients: eviction is invisible in
      every run of theirs exactly when their buckets refill while idle and no
      two of them meet in one bucket under quotas that differ. */
  lemma EvictionHiddenIff(rules: seq<Rule>, clients: Clients)
    ensures AlwaysHidden(rules, clients) <==> AllClientsRefill(rules, clients) && NoneShare(rules, clients)
  {
    hide QuotaFor, EvictionHidden, Interchangeable, RefillsWhileIdle;
    if !AllClientsRefill(rules, clients) {
      var ip, path :| clients(ip, path) && LimitedPath(path) && !RefillsWhileIdle(QuotaFor(rules, path));
      var es := SlowRefillSeen(rules, ip, path);
      assert Ordered(0.0, es) && From(clients, es) && !EvictionHidden(rules, es);
    } else if !NoneShare(rules, clients) {
      var ip1, path1, ip2, path2 :|
        && clients(ip1, path1) && clients(ip2, path2) && LimitedPath(path1) && LimitedPath(path2)
        && Key(ip1, path1) == Key(ip2, path2)
        && !Interchangeable(QuotaFor(rules, path1), QuotaFor(rules, path2));
      var es := SharedKeySeen(rules, ip1, path1, ip2, path2);
      assert Ordered(0.0, es) && From(clients, es) && !EvictionHidden(rules, es);
    } else {
      forall start, es: seq<Event> | Ordered(start, es) && From(clients, es)
        ensures EvictionHidden(rules, es)
      {
        EvictionUnobservable(rules, start, es);
      }
    }
  }

  /** One forwarded address with ":/" in it is enough to see the installed
      rules evict: it puts another path's requests in a stranger's bucket. */
  lemma ConfiguredEvictionSeen()
    ensures exists es :: Ordered(0.0, es) && !EvictionHidden(ConfiguredRules(), es)
    ensures exists ip1, path1, ip2, path2 ::
              && Rooted(path1) && SharesBucket(ip1, path1, ip2, path2)
              && QuotaFor(ConfiguredRules(), path1) != QuotaFor(ConfiguredRules(), path2)
  {
    hide ConfiguredRules, QuotaFor, EvictionHidden, RefillsWhileIdle;
    var p1, p2 := "/x:/api/login", "/api/login";
    assert Key("1", p1) == Key("1:/x", p2);
    assert SharesBucket("1", p1, "1:/x", p2);
    DefaultPathQuota(p1);
    LoginQuota();
    ConfiguredRefill(p1);
    assert !("/metrics" <= p1) && !("/metrics" <= p2) by {
      assert "/metrics"[1] == 'm' && p1[1] == 'x' && p2[1] == 'a';
    }
    var es := SharedKeySeen(ConfiguredRules(), "1", p1, "1:/x", p2);
  }

  // ------------------------------------------------- one client, in numbers

  /** Websocket upgrades, health checks and metrics pass and leave no trace;
      every other request passes or not by the bucket of its pair, is answered
      once, and leaves every other bucket as it is. */
  lemma WhoIsLimited(rules: seq<Rule>, s: State, t: Seconds, upgrade: bool, ip: string, path: string)
    ensures var (s', answers) := Step(rules, s, Request(t, upgrade, ip, path));
            var key := ip + ":" + path;
            if upgrade || path == "/health" || "/metrics" <= path then s' == s && answers == [true]
            else
              && |answers| == 1 && s'.Keys == s.Keys + {key} && s'[key].lastSeen == t
              && forall k | k in s && k != key :: s'[k] == s[k]
  {
  }

  /** A sweep keeps what was seen within the last ten minutes, as it is. */
  lemma SweepKeeps(rules: seq<Rule>, s: State, now: Seconds)
    ensures var (s', answers) := Step(rules, s, Sweep(now));
            && answers == []
            && (forall k :: k in s' <==> k in s && now - s[k].lastSeen <= 600.0)
            && (forall k | k in s' :: s'[k] == s[k])
  {
  }

  /** A new client is let through as often at once as its rule's burst says, and
      no more often; having used it up, it is let through again exactly when
      the rate has brought one token. */
  lemma BurstThenWait(rules: seq<Rule>, ip: string, path: string, n: nat, wait: Seconds)
    requires LimitedPath(path) && QuotaFor(rules, path).burst > 0 && wait >= 0.0
    ensures var q := QuotaFor(rules, path);
            var again := Run(rules, map[], Volley(ip, path, 0.0, q.burst) + Volley(ip, path, wait, 1)).1;
            && (Run(rules, map[], Volley(ip, path, 0.0, n)).1 == Granted(n) <==> n <= q.burst)
            && (again == Granted(q.burst) + Granted(1) <==> q.limit * wait >= 1.0)
  {
    hide QuotaFor, Level, Serve;
    var q := QuotaFor(rules, path);
    VolleyOutcome(rules, q, map[], ip, path, 0.0, 0.0, n);
    SecondClient(rules, q, map[], ip, path, 0.0, q.burst, wait, 1);
    assert wait - 0.0 == wait;
  }

  /** What the installed rules allow: tokens per minute, and burst. */
  function PerMinute(path: string): (real, nat) {
    var q := QuotaFor(ConfiguredRules(), path);
    (q.limit * 60.0, q.burst)
  }

  /** A prefix is told from a path by one character. */
  lemma OtherPrefix(prefix: string, path: string, i: nat)
    requires i < |prefix| && (i < |path| ==> prefix[i] != path[i])
    ensures !(prefix <= path)
  {
  }

  lemma LoginAndUsers()
    ensures PerMinute("/api/login") == (5.0, 5) && PerMinute("/api/users") == (10.0, 10)
  {
  }

  lemma CheckAndBehavior()
    ensures PerMinute("/api/check") == (100.0, 50) && PerMinute("/api/behavior/1") == (300.0, 100)
  {
  }

  /** The narrower of two prefixes comes first. */
  lemma FileQuotas()
    ensures PerMinute("/api/files/upload") == (10.0, 5) && PerMinute("/api/files/1") == (30.0, 20)
  {
    assert "/api/files/upload"[..17] == "/api/files/upload";
    assert "/api/files/upload"[11] == 'u' && "/api/files/1"[11] == '1';
    assert "/api/files/1"[..11] == "/api/files/";
  }

  lemma NoNarrowPrefix(path: string)
    requires |path| > 5 && path[5] != 'b' && path[5] != 'f'
    ensures !("/api/behavior/" <= path) && !("/api/files/upload" <= path) && !("/api/files/" <= path)
  {
    OtherPrefix("/api/behavior/", path, 5);
    OtherPrefix("/api/files/upload", path, 5);
    OtherPrefix("/api/files/", path, 5);
  }

  lemma ByRule(path: string, i: nat)
    requires i < |ConfiguredRules()| && ConfiguredRules()[i].matches(path)
    requires forall j | 0 <= j < i :: !ConfiguredRules()[j].matches(path)
    ensures PerMinute(path) == (ConfiguredRules()[i].quota.limit * 60.0, ConfiguredRules()[i].quota.burst)
  {
    hide ConfiguredRules, QuotaFor;
    QuotaForIsFirstMatch(ConfiguredRules(), path);
  }

  lemma SitesQuota()
    ensures PerMinute("/api/sites") == (30.0, 15)
  {
    hide PerMinute;
    NoNarrowPrefix("/api/sites");
    assert "/api/sites"[..10] == "/api/sites";
    ByRule("/api/sites", 6);
  }

  lemma SiteQuota()
    ensures PerMinute("/api/sites/1") == (30.0, 15)
  {
    hide PerMinute;
    NoNarrowPrefix("/api/sites/1");
    assert "/api/sites/1"[..10] == "/api/sites";
    ByRule("/api/sites/1", 6);
  }

  lemma KeyQuota()
    ensures PerMinute("/api/keys") == (10.0, 5)
  {
    hide PerMinute;
    NoNarrowPrefix("/api/keys");
    OtherPrefix("/api/sites", "/api/keys", 5);
    ByRule("/api/keys", 7);
  }

  lemma AdminQuota()
    ensures PerMinute("/api/admin/users") == (20.0, 10)
  {
    hide PerMinute;
    NoNarrowPrefix("/api/admin/users");
    OtherPrefix("/api/sites", "/api/admin/users", 5);
    OtherPrefix("/api/keys", "/api/admin/users", 5);
    assert "/api/admin/users"[..11] == "/api/admin/";
    ByRule("/api/admin/users", 8);
  }

  lemma OwnQuota()
    ensures PerMinute("/api/me") == (30.0, 15)
  {
    hide PerMinute;
    NoNarrowPrefix("/api/me");
    OtherPrefix("/api/sites", "/api/me", 5);
    OtherPrefix("/api/keys", "/api/me", 5);
    OtherPrefix("/api/admin/", "/api/me", 5);
    ByRule("/api/me", 9);
  }

  /** Elsewhere, the default: also next to a rule that is for one path only. */
  lemma OtherQuota()
    ensures PerMinute("/api/checks") == (100.0, 20)
  {
    hide QuotaFor;
    NoNarrowPrefix("/api/checks");
    OtherPrefix("/api/sites", "/api/checks", 5);
    OtherPrefix("/api/keys", "/api/checks", 5);
    OtherPrefix("/api/admin/", "/api/checks", 5);
    OtherPrefix("/api/me", "/api/checks", 5);
    QuotaForIsFirstMatch(ConfiguredRules(), "/api/checks");
  }

  /** The prefixes match with nothing after them, too. */
  lemma BarePrefixes()
    ensures PerMinute("/api/behavior/") == (300.0, 100)
    ensures PerMinute("/api/files/") == (30.0, 20)
    ensures PerMinute("/api/admin/") == (20.0, 10)
  {
    hide PerMinute;
    BareBehavior();
    BareFiles();
    BareAdmin();
  }

  lemma BareBehavior()
    ensures PerMinute("/api/behavior/") == (300.0, 100)
  {
    hide PerMinute;
    assert "/api/behavior/"[..14] == "/api/behavior/";
    ByRule("/api/behavior/", 3);
  }

  lemma BareFiles()
    ensures PerMinute("/api/files/") == (30.0, 20)
  {
    hide PerMinute;
    OtherPrefix("/api/behavior/", "/api/files/", 5);
    OtherPrefix("/api/files/upload", "/api/files/", 11);
    assert "/api/files/"[..11] == "/api/files/";
    ByRule("/api/files/", 5);
  }

  lemma BareAdmin()
    ensures PerMinute("/api/admin/") == (20.0, 10)
  {
    hide PerMinute;
    NoNarrowPrefix("/api/admin/");
    OtherPrefix("/api/sites", "/api/admin/", 5);
    OtherPrefix("/api/keys", "/api/admin/", 5);
    assert "/api/admin/"[..11] == "/api/admin/";
    ByRule("/api/admin/", 8);
  }

  /** What the server installs, a path for each rule and one for none. */
  lemma InstalledQuotas()
    ensures PerMinute("/api/login") == (5.0, 5) && PerMinute("/api/users") == (10.0, 10)
    ensures PerMinute("/api/check") == (100.0, 50) && PerMinute("/api/behavior/1") == (300.0, 100)
    ensures PerMinute("/api/files/upload") == (10.0, 5) && PerMinute("/api/files/1") == (30.0, 20)
    ensures PerMinute("/api/sites/1") == (30.0, 15) && PerMinute("/api/keys") == (10.0, 5)
    ensures PerMinute("/api/admin/users") == (20.0, 10) && PerMinute("/api/me") == (30.0, 15)
    ensures PerMinute("/api/sites") == (30.0, 15) && PerMinute("/api/checks") == (100.0, 20)
  {
    hide PerMinute;
    SitesQuota();
    LoginAndUsers();
    CheckAndBehavior();
    FileQuotas();
    SiteQuota();
    KeyQuota();
    AdminQuota();
    OwnQuota();
    OtherQuota();
  }
}
