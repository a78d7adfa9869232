/** How many requests the rate limiter of backend/middleware/ratelimit.go
    admits within a span of time. */
module Admission {
  import opened RateLimit

  /** 1 when `e` is a request under `key` that is admitted from `s`. */
  function Counts(rules: seq<Rule>, s: State, e: Event, key: string): nat {
    if e.Limited() && Key(e.ip, e.path) == key && Step(rules, s, e).1 == [true] then 1 else 0
  }

  /** Requests under `key` that a run admits. */
  function Admitted(rules: seq<Rule>, s: State, es: seq<Event>, key: string): nat
    decreases |es|
  {
    if es == [] then 0
    else Counts(rules, s, es[0], key) + Admitted(rules, Step(rules, s, es[0]).0, es[1..], key)
  }

  /** Whoever uses the key does so under this quota. */
  ghost predicate UsedUnder(rules: seq<Rule>, q: Quota, es: seq<Event>, key: string) {
    forall e | e in es && e.Limited() && Key(e.ip, e.path) == key :: Interchangeable(QuotaFor(rules, e.path), q)
  }

  lemma OneEventSpends(rules: seq<Rule>, q: Quota, s: State, now: Seconds, e: Event, key: string)
    requires SoundAt(q, s, key, now) && now <= e.time && RefillsWhileIdle(q) && UsedUnder(rules, q, [e], key)
    ensures var s1 := Step(rules, s, e).0;
            && SoundAt(q, s1, key, e.time)
            && Offered(q, s1, key, e.time) == Offered(q, s, key, e.time) - Counts(rules, s, e, key) as real
  {
    hide Refill, Serve, QuotaFor, RefillsWhileIdle, Evict, Level, Bypassed, Interchangeable;
    OfferedLater(q, s, key, now, e.time);
    if e.Sweep? {
      EvictEffect(q, s, key, now, e.time);
    } else if e.Limited() {
      assert e in [e];
      if Key(e.ip, e.path) == key {
        ServeEffect(rules, q, s, e.ip, e.path, now, e.time);
      } else {
        ServeElsewhere(rules, s, e.ip, e.path, e.time, key);
      }
    }
  }

  lemma Budget(q: Quota, s: State, s1: State, now: Seconds, mid: Seconds, end: Seconds, key: string, spent: nat,
               later: nat)
    requires SoundAt(q, s, key, now) && now <= mid <= end
    requires Offered(q, s1, key, mid) == Offered(q, s, key, mid) - spent as real
    requires later as real <= Offered(q, s1, key, mid) + Refill(q.limit, end - mid)
    ensures (spent + later) as real <= Offered(q, s, key, now) + Refill(q.limit, end - now)
  {
    hide Refill;
    OfferedLater(q, s, key, now, mid);
    RefillGrows(q.limit, mid - now, end - mid);
    assert mid - now + (end - mid) == end - now;
  }

  lemma {:induction false} SpentTokens(
      rules: seq<Rule>, q: Quota, s: State, now: Seconds, es: seq<Event>, end: Seconds, key: string)
    requires SoundAt(q, s, key, now) && Ordered(now, es) && UsedUnder(rules, q, es, key) && RefillsWhileIdle(q)
    requires now <= end && forall e | e in es :: e.time <= end
    ensures Admitted(rules, s, es, key) as real <= Offered(q, s, key, now) + Refill(q.limit, end - now)
    ensures SoundAt(q, Run(rules, s, es).0, key, end)
    decreases |es|
  {
    hide Refill, Step, Counts, Offered, Level, QuotaFor, RefillsWhileIdle, Interchangeable;
    if es == [] {
      OfferedLater(q, s, key, now, end);
      RefillGrows(q.limit, end - now, 0.0);
      return;
    }
    var e := es[0];
    var s1 := Step(rules, s, e).0;
    OneEventSpends(rules, q, s, now, e, key);
    SpentTokens(rules, q, s1, e.time, es[1..], end, key);
    Budget(q, s, s1, now, e.time, end, key, Counts(rules, s, e, key), Admitted(rules, s1, es[1..], key));
  }

  /** In any run, from any instant on and within any `span` seconds, one
      (ip, path) is admitted at most burst + limit * span times (`Refill`),
      sweeps or not, provided its bucket refills while idle and nobody uses its
      key under another quota; what other keys are used for does not matter. */
  lemma AdmissionBound(
      rules: seq<Rule>, start: Seconds, before: seq<Event>, from: Seconds, window: seq<Event>, span: Seconds,
      ip: string, path: string)
    requires RefillsWhileIdle(QuotaFor(rules, path))
    requires UsedUnder(rules, QuotaFor(rules, path), before + window, Key(ip, path))
    requires start <= from && Ordered(start, before) && forall e | e in before :: e.time <= from
    requires Ordered(from, window) && span >= 0.0 && forall e | e in window :: e.time <= from + span
    ensures var q := QuotaFor(rules, path);
            Admitted(rules, Run(rules, map[], before).0, window, Key(ip, path)) as real
              <= q.burst as real + Refill(q.limit, span)
  {
    hide Refill, QuotaFor, RefillsWhileIdle, Interchangeable, Level;
    var q, key := QuotaFor(rules, path), Key(ip, path);
    SpentTokens(rules, q, map[], start, before, from, key);
    var s := Run(rules, map[], before).0;
    SpentTokens(rules, q, s, from, window, from + span, key);
    OfferedLater(q, s, key, from, from);
    assert from + span - from == span;
  }

  /** A client whose key can be read in one way only needs no such proviso. */
  lemma SoloIsUsedUnder(rules: seq<Rule>, es: seq<Event>, ip: string, path: string)
    requires Rooted(path) && Solo(ip, path) && forall e | e in es && e.Limited() :: Rooted(e.path)
    ensures UsedUnder(rules, QuotaFor(rules, path), es, Key(ip, path))
  {
    forall e | e in es && e.Limited() && Key(e.ip, e.path) == Key(ip, path)
      ensures e.path == path
    {
      if (e.ip, e.path) != (ip, path) {
        OtherReading(ip, path, e.ip, e.path);
      }
    }
  }

  // ------------------------------------- ... exactly when it may be relied on

  /** `window` is what happens in a run between `from` and `from + span`, after `before`. */
  ghost predicate IsWindow(start: Seconds, before: seq<Event>, from: Seconds, window: seq<Event>, span: Seconds) {
    && start <= from && Ordered(start, before) && (forall e | e in before :: e.time <= from)
    && Ordered(from, window) && span >= 0.0 && (forall e | e in window :: e.time <= from + span)
  }

  /** No more is admitted under the key of the client than its own quota allows in `span`. */
  ghost predicate Bounded(rules: seq<Rule>, before: seq<Event>, window: seq<Event>, span: Seconds, ip: string,
                          path: string) {
    var q := QuotaFor(rules, path);
    Admitted(rules, Run(rules, map[], before).0, window, Key(ip, path)) as real
      <= q.burst as real + Refill(q.limit, span)
  }

  /** For every client, in every run of them all and every window. */
  ghost predicate AlwaysBounded(rules: seq<Rule>, clients: Clients) {
    forall ip, path, start: Seconds, before: seq<Event>, from: Seconds, window: seq<Event>, span: Seconds |
      && clients(ip, path) && LimitedPath(path) && From(clients, before + window)
      && IsWindow(start, before, from, window, span)
      :: Bounded(rules, before, window, span, ip, path)
  }

  lemma {:induction false} AdmittedInTwo(rules: seq<Rule>, s: State, a: seq<Event>, b: seq<Event>, key: string)
    ensures Admitted(rules, s, a + b, key) == Admitted(rules, s, a, key) + Admitted(rules, Run(rules, s, a).0, b, key)
    decreases |a|
  {
    hide Step, Counts;
    if a == [] {
      assert a + b == b;
    } else {
      assert (a + b)[0] == a[0] && (a + b)[1..] == a[1..] + b;
      AdmittedInTwo(rules, Step(rules, s, a[0]).0, a[1..], b, key);
    }
  }

  /** Of a volley granted in full every request counts. */
  lemma {:induction false} VolleyCounts(rules: seq<Rule>, s: State, ip: string, path: string, t: Seconds, n: nat)
    requires LimitedPath(path) && Run(rules, s, Volley(ip, path, t, n)).1 == Granted(n)
    ensures Admitted(rules, s, Volley(ip, path, t, n), Key(ip, path)) == n
    decreases n
  {
    hide Serve;
    if n > 0 {
      var (s1, ok) := Serve(rules, s, ip, path, t);
      VolleyUnrolls(rules, s, ip, path, t, n);
      GrantedCons(ok, Run(rules, s1, Volley(ip, path, t, n - 1)).1, n);
      VolleyCounts(rules, s1, ip, path, t, n - 1);
      assert Volley(ip, path, t, n)[1..] == Volley(ip, path, t, n - 1);
    }
  }

  /** A volley of the whole burst from the start of a run is admitted in full. */
  lemma FirstVolley(rules: seq<Rule>, ip: string, path: string)
    requires LimitedPath(path)
    ensures var q := QuotaFor(rules, path);
            var (s, out) := Run(rules, map[], Volley(ip, path, 0.0, q.burst));
            && Admitted(rules, map[], Volley(ip, path, 0.0, q.burst), Key(ip, path)) == q.burst
            && SoundAt(q, s, Key(ip, path), 0.0) && Offered(q, s, Key(ip, path), 0.0) == 0.0
            && (q.burst > 0 ==> Key(ip, path) in s)
  {
    hide QuotaFor, Level, Serve;
    var q := QuotaFor(rules, path);
    VolleyOutcome(rules, q, map[], ip, path, 0.0, 0.0, q.burst);
    VolleyCounts(rules, map[], ip, path, 0.0, q.burst);
  }

  /** Nothing before, the whole run as the window. */
  lemma WholeRun(rules: seq<Rule>, clients: Clients, ip: string, path: string, es: seq<Event>, span: Seconds)
    requires clients(ip, path) && LimitedPath(path) && From(clients, es)
    requires Ordered(0.0, es) && span >= 0.0 && forall e | e in es :: e.time <= span
    requires var q := QuotaFor(rules, path);
             Admitted(rules, map[], es, Key(ip, path)) as real > q.burst as real + Refill(q.limit, span)
    ensures !AlwaysBounded(rules, clients)
  {
    hide Admitted, Refill, QuotaFor;
    assert [] + es == es;
    assert IsWindow(0.0, [], 0.0, es, span);
    assert Run(rules, map[], []).0 == map[];
    assert !Bounded(rules, [], es, span, ip, path);
  }

  /** A bucket that refills too slowly is emptied, swept while it still refills,
      and emptied again. */
  lemma SlowRefillExceeds(rules: seq<Rule>, clients: Clients, ip: string, path: string)
    requires clients(ip, path) && LimitedPath(path) && !RefillsWhileIdle(QuotaFor(rules, path))
    ensures !AlwaysBounded(rules, clients)
  {
    hide Refill, QuotaFor, Level, Serve, Run, Admitted, Volley, AlwaysBounded;
    var q, key := QuotaFor(rules, path), Key(ip, path);
    var n := q.burst;
    var t := StillRefilling(q);
    var first, again := Volley(ip, path, 0.0, n), Volley(ip, path, t, n);
    var s := Run(rules, map[], first).0;
    FirstVolley(rules, ip, path);
    GoneWhenIdle(q, s, key, t);
    VolleyOutcome(rules, q, Evict(s, t), ip, path, t, t, n);
    VolleyCounts(rules, Evict(s, t), ip, path, t, n);
    SweepCountsNothing(rules, s, t, again, key);
    var es := first + ([Sweep(t)] + again);
    AdmittedInTwo(rules, map[], first, [Sweep(t)] + again, key);
    assert Ordered(0.0, es) && From(clients, es) && (forall e | e in es :: e.time <= t) by {
      VolleyAgain(clients, ip, path, n, t, n, true);
    }
    WholeRun(rules, clients, ip, path, es, t);
  }

  lemma SweepCountsNothing(rules: seq<Rule>, s: State, t: Seconds, rest: seq<Event>, key: string)
    ensures Admitted(rules, s, [Sweep(t)] + rest, key) == Admitted(rules, Evict(s, t), rest, key)
  {
    hide Serve, Evict;
    assert ([Sweep(t)] + rest)[0] == Sweep(t) && ([Sweep(t)] + rest)[1..] == rest;
  }

  /** Two volleys of one client, a sweep between them or not. */
  lemma VolleyAgain(clients: Clients, ip: string, path: string, n1: nat, t: Seconds, n2: nat, swept: bool)
    requires clients(ip, path) && t >= 0.0
    ensures var es := Volley(ip, path, 0.0, n1) + ((if swept then [Sweep(t)] else []) + Volley(ip, path, t, n2));
            Ordered(0.0, es) && From(clients, es) && forall e | e in es :: e.time <= t
  {
    var last := Volley(ip, path, t, n2);
    VolleyOrdered(ip, path, t, t, n2, []);
    VolleyOrdered(ip, path, 0.0, t, n2, []);
    assert last + [] == last;
    var rest := (if swept then [Sweep(t)] else []) + last;
    assert Ordered(0.0, rest) by {
      if swept {
        assert rest[1..] == last;
      } else {
        assert rest == last;
      }
    }
    VolleyOrdered(ip, path, 0.0, 0.0, n1, rest);
  }

  /** A client with the larger burst, or else the faster refill, takes more from
      a bucket it has made than the quota of the other allows. */
  lemma SharedKeyExceeds(rules: seq<Rule>, clients: Clients, ip1: string, path1: string, ip2: string, path2: string)
    requires clients(ip1, path1) && clients(ip2, path2) && LimitedPath(path1) && LimitedPath(path2)
    requires Key(ip1, path1) == Key(ip2, path2)
    requires var q1, q2 := QuotaFor(rules, path1), QuotaFor(rules, path2);
             q1.burst > q2.burst || (q1.burst == q2.burst > 0 && q1.limit > q2.limit)
    ensures !AlwaysBounded(rules, clients)
  {
    hide Refill, QuotaFor, Level, Serve, Run, Admitted, Volley, AlwaysBounded;
    var q1, q2, key := QuotaFor(rules, path1), QuotaFor(rules, path2), Key(ip1, path1);
    var first := Volley(ip1, path1, 0.0, q1.burst);
    var s := Run(rules, map[], first).0;
    FirstVolley(rules, ip1, path1);
    var n := if q1.burst == q2.burst then 1 else 0;
    var t := if n == 1 then 1.0 / q1.limit else 0.0;
    var more := Volley(ip1, path1, t, n);
    if n == 1 {
      OneToken(q1, q2);
      OfferedLater(q1, s, key, 0.0, t);
      assert t - 0.0 == t;
    }
    VolleyOutcome(rules, q1, s, ip1, path1, 0.0, t, n);
    OfferedLater(q1, s, key, 0.0, t);
    VolleyCounts(rules, s, ip1, path1, t, n);
    AdmittedInTwo(rules, map[], first, more, key);
    RefillNothing(q2.limit);
    VolleyAgain(clients, ip1, path1, q1.burst, t, n, false);
    assert [] + more == more;
    WholeRun(rules, clients, ip2, path2, first + more, t);
  }

  lemma RefillNothing(rate: Rate)
    ensures Refill(rate, 0.0) == 0.0
  {
  }

  /** The time the faster rate needs for one token. */
  lemma OneToken(q1: Quota, q2: Quota)
    requires q1.limit > q2.limit
    ensures 1.0 / q1.limit >= 0.0 && Refill(q1.limit, 1.0 / q1.limit) == 1.0 > Refill(q2.limit, 1.0 / q1.limit)
  {
    var d := 1.0 / q1.limit;
    assert q1.limit * d == 1.0;
    assert d > 0.0;
    assert (q1.limit - q2.limit) * d > 0.0;
    assert q2.limit * d == q1.limit * d - (q1.limit - q2.limit) * d;
  }

  /** Whatever the rules and whoever the clients: in every run of theirs and
      every window no client is admitted more often than burst + limit * span of
      its own quota, if and only if their buckets refill while idle and no two
      of them meet in one bucket under quotas that differ. It is the condition
      under which eviction is hidden, too. */
  lemma AdmissionBoundIff(rules: seq<Rule>, clients: Clients)
    ensures AlwaysBounded(rules, clients) <==> AllClientsRefill(rules, clients) && NoneShare(rules, clients)
  {
    hide QuotaFor, RefillsWhileIdle, Refill, Run, Admitted, Ordered;
    if !AllClientsRefill(rules, clients) {
      var ip, path :| clients(ip, path) && LimitedPath(path) && !RefillsWhileIdle(QuotaFor(rules, path));
      SlowRefillExceeds(rules, clients, ip, path);
    } else if !NoneShare(rules, clients) {
      var ip1, path1, ip2, path2 :|
        && clients(ip1, path1) && clients(ip2, path2) && LimitedPath(path1) && LimitedPath(path2)
        && Key(ip1, path1) == Key(ip2, path2)
        && !Interchangeable(QuotaFor(rules, path1), QuotaFor(rules, path2));
      var q1, q2 := QuotaFor(rules, path1), QuotaFor(rules, path2);
      if q1.burst > q2.burst || (q1.burst == q2.burst && q1.limit > q2.limit) {
        SharedKeyExceeds(rules, clients, ip1, path1, ip2, path2);
      } else {
        SharedKeyExceeds(rules, clients, ip2, path2, ip1, path1);
      }
    } else {
      forall ip, path, start: Seconds, before: seq<Event>, from: Seconds, window: seq<Event>, span: Seconds |
        && clients(ip, path) && LimitedPath(path) && From(clients, before + window)
        && IsWindow(start, before, from, window, span)
        ensures Bounded(rules, before, window, span, ip, path)
      {
        AdmissionBound(rules, start, before, from, window, span, ip, path);
      }
    }
  }

  /** The installed rules at their login: its quota lets five requests through
      at once; a stranger who first makes the bucket under another path, by a
      forwarded address with ":/" in it, gets twenty. */
  lemma LoginBoundExceeded()
    ensures var login, window := QuotaFor(ConfiguredRules(), "/api/login"),
                [Request(0.0, false, "1", "/x:/api/login")] + Volley("1:/x", "/api/login", 0.0, 19);
            && login.burst == 5 && IsWindow(0.0, [], 0.0, window, 0.0)
            && Admitted(ConfiguredRules(), map[], window, Key("1:/x", "/api/login")) == 20
            && !Bounded(ConfiguredRules(), [], window, 0.0, "1:/x", "/api/login")
  {
    hide ConfiguredRules, QuotaFor, Level, Serve, Refill;
    var rules, p1, p2 := ConfiguredRules(), "/x:/api/login", "/api/login";
    var key := Key("1:/x", p2);
    assert Key("1", p1) == key;
    DefaultPathQuota(p1);
    LoginQuota();
    assert !("/metrics" <= p1) && !("/metrics" <= p2) by {
      assert "/metrics"[1] == 'm' && p1[1] == 'x' && p2[1] == 'a';
    }
    var first, rest := Volley("1", p1, 0.0, 1), Volley("1:/x", p2, 0.0, 19);
    assert first == [Request(0.0, false, "1", p1)];
    var s := Run(rules, map[], first).0;
    VolleyOutcome(rules, DEFAULT_QUOTA, map[], "1", p1, 0.0, 0.0, 1);
    VolleyCounts(rules, map[], "1", p1, 0.0, 1);
    VolleyOutcome(rules, DEFAULT_QUOTA, s, "1:/x", p2, 0.0, 0.0, 19);
    VolleyCounts(rules, s, "1:/x", p2, 0.0, 19);
    AdmittedInTwo(rules, map[], first, rest, key);
    VolleyOrdered("1:/x", p2, 0.0, 0.0, 19, []);
    assert rest + [] == rest;
    assert (first + rest)[1..] == rest;
    RefillNothing(5.0 / 60.0);
  }
}
