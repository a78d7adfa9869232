/** The limiter objects of backend/middleware/ratelimit.go, updated in place
    and tied to the values of module `RateLimit`. */
module Middleware {
  import opened RateLimit

  /** `rate.Limiter`. */
  class Limiter {
    const quota: Quota
    var tokens: real
    var last: Seconds

    constructor (quota: Quota, now: Seconds)
      ensures this.quota == quota && Value() == Full(quota, now)
    {
      this.quota := quota;
      tokens, last := quota.burst as real, now;
    }

    ghost function Value(): Bucket
      reads this
    {
      Bucket(tokens, last)
    }

    method Allow(now: Seconds) returns (ok: bool)
      modifies this
      ensures (Value(), ok) == Take(quota, old(Value()), now)
    {
      var from := if now < last then now else last;
      var available := tokens + Refill(quota.limit, now - from);
      if available > quota.burst as real {
        available := quota.burst as real;
      }
      ok := available - 1.0 >= 0.0;
      if ok {
        tokens, last := available - 1.0, now;
      }
    }
  }

  class Visitor {
    const limiter: Limiter
    var lastSeen: Seconds
    const ruleKey: string

    constructor (limiter: Limiter, now: Seconds, ruleKey: string)
      ensures this.limiter == limiter && lastSeen == now && this.ruleKey == ruleKey
    {
      this.limiter := limiter;
      lastSeen := now;
      this.ruleKey := ruleKey;
    }

    ghost function Value(): VisitorRec
      reads this, limiter
    {
      VisitorRec(limiter.quota, limiter.Value(), lastSeen, ruleKey)
    }
  }

  class RateLimiter {
    var visitors: map<string, Visitor>
    const rules: seq<Rule>

    constructor (rules: seq<Rule>)
      ensures Valid() && Contents() == map[] && this.rules == rules
    {
      visitors := map[];
      this.rules := rules;
    }

    /** Every key owns its visitor and its bucket. */
    static ghost predicate Owned(vs: map<string, Visitor>) {
      forall a, b | a in vs && b in vs && a != b :: vs[a] != vs[b] && vs[a].limiter != vs[b].limiter
    }

    static ghost function PartsOf(vs: map<string, Visitor>): set<object> {
      (set k | k in vs :: vs[k] as object) + (set k | k in vs :: vs[k].limiter)
    }

    static ghost function StateOf(vs: map<string, Visitor>): State
      reads PartsOf(vs)
    {
      map k | k in vs :: vs[k].Value()
    }

    ghost predicate Valid()
      reads this
    {
      Owned(visitors)
    }

    ghost function Parts(): set<object>
      reads this
    {
      PartsOf(visitors)
    }

    ghost function Contents(): State
      reads this, Parts()
    {
      StateOf(visitors)
    }

    lemma Values()
      ensures Contents().Keys == visitors.Keys
      ensures forall k | k in visitors :: Contents()[k] == visitors[k].Value()
    {
    }

    lemma StateIs(s: State)
      requires s.Keys == visitors.Keys && forall k | k in visitors :: s[k] == visitors[k].Value()
      ensures Contents() == s
    {
    }

    static lemma OneMore(vs: map<string, Visitor>, key: string, v: Visitor)
      requires Owned(vs) && key !in vs && forall k | k in vs :: vs[k] != v && vs[k].limiter != v.limiter
      ensures Owned(vs[key := v]) && StateOf(vs[key := v]) == StateOf(vs)[key := v.Value()]
      ensures PartsOf(vs[key := v]) == PartsOf(vs) + {v, v.limiter}
    {
      var more := vs[key := v];
      assert forall k | k in vs :: k in more && more[k] == vs[k];
      assert more[key] == v;
      assert PartsOf(more) <= PartsOf(vs) + {v, v.limiter};
      assert PartsOf(vs) + {v, v.limiter} <= PartsOf(more);
    }

    static lemma Kept(some: map<string, Visitor>, all: map<string, Visitor>, now: Seconds)
      requires Owned(all) && forall k | k in some :: k in all && some[k] == all[k]
      requires forall k :: k in some <==> k in all && !(now - all[k].lastSeen > IDLE_LIMIT)
      ensures Owned(some) && StateOf(some) == Evict(StateOf(all), now) && PartsOf(some) <= PartsOf(all)
    {
    }

    /** The loop that picks a rule. */
    method FindQuota(path: string) returns (q: Quota)
      ensures q == QuotaFor(rules, path)
    {
      q := DEFAULT_QUOTA;
      for i := 0 to |rules|
        invariant q == DEFAULT_QUOTA
        invariant QuotaFor(rules, path) == QuotaFor(rules[i..], path)
      {
        if rules[i].matches(path) {
          q := rules[i].quota;
          break;
        }
        assert rules[i..][1..] == rules[i + 1..];
      }
    }

    method GetLimiter(ip: string, path: string, now: Seconds) returns (limiter: Limiter)
      requires Valid()
      modifies this, Parts()
      ensures Valid() && fresh(Parts() - old(Parts()))
      ensures Contents() == Touch(rules, old(Contents()), ip, path, now)
      ensures Key(ip, path) in visitors && limiter == visitors[Key(ip, path)].limiter
    {
      var key := Key(ip, path);
      if key in visitors {
        limiter := Refresh(key, now);
      } else {
        hide Owned, QuotaFor;
        var q := FindQuota(path);
        limiter := new Limiter(q, now);
        var v := new Visitor(limiter, now, path);
        assert StateOf(visitors) == old(Contents());
        OneMore(visitors, key, v);
        visitors := visitors[key := v];
      }
    }

    /** The branch for a key already in the map. */
    method Refresh(key: string, now: Seconds) returns (limiter: Limiter)
      requires Valid() && key in visitors
      modifies visitors[key]
      ensures limiter == visitors[key].limiter
      ensures Contents() == old(Contents())[key := old(Contents())[key].(lastSeen := now)]
    {
      hide StateOf;
      ghost var before := Contents();
      Values();
      var v := visitors[key];
      v.lastSeen := now;
      StateIs(before[key := before[key].(lastSeen := now)]);
      limiter := v.limiter;
    }

    /** `Allow` on the limiter of a key in the map. */
    method Ask(key: string, now: Seconds) returns (ok: bool)
      requires Valid() && key in visitors
      modifies visitors[key].limiter
      ensures (Contents(), ok) == Spend(old(Contents()), key, now)
    {
      hide StateOf;
      ghost var before := Contents();
      Values();
      var limiter := visitors[key].limiter;
      ok := limiter.Allow(now);
      StateIs(before[key := before[key].(bucket := limiter.Value())]);
    }

    /** `Middleware`: look the limiter up and ask it, as one instant. */
    method Admit(upgrade: bool, ip: string, path: string, now: Seconds) returns (ok: bool)
      requires Valid()
      modifies this, Parts()
      ensures Valid() && fresh(Parts() - old(Parts()))
      ensures (Contents(), [ok]) == Step(rules, old(Contents()), Request(now, upgrade, ip, path))
    {
      if upgrade {
        return true;
      }
      if path == "/health" || "/metrics" <= path {
        return true;
      }
      hide Owned, StateOf, Touch, Spend, QuotaFor;
      var limiter := GetLimiter(ip, path, now);
      ok := Ask(Key(ip, path), now);
    }

    /** One round of `cleanup`; the map is visited in any order. */
    method Cleanup(now: Seconds)
      requires Valid()
      modifies this
      ensures Valid() && Parts() <= old(Parts())
      ensures Contents() == Evict(old(Contents()), now)
    {
      hide Owned, Evict;
      ghost var all, before := visitors, Contents();
      var todo := visitors.Keys;
      while todo != {}
        invariant todo <= all.Keys
        invariant forall k :: k in visitors <==> k in all && (k in todo || !(now - all[k].lastSeen > IDLE_LIMIT))
        invariant forall k | k in visitors :: visitors[k] == all[k]
        decreases |todo|
      {
        var key :| key in todo;
        if now - visitors[key].lastSeen > IDLE_LIMIT {
          visitors := visitors - {key};
        }
        todo := todo - {key};
      }
      assert StateOf(all) == before;
      Kept(visitors, all, now);
    }
  }
}
