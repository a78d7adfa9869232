/** `MemorySessionStore` of backend/storage/session.go: session objects and
    metric maps shared by reference, each method tied to module `Sessions`.
    A `bool` result is the source's error return: false for a missing session. */
module SessionStore {
  import opened Basics
  import opened Sessions

  /** A Go map of metrics: whoever holds the reference sees every write. */
  class MetricsMap {
    var entries: Metrics

    constructor (entries: Metrics)
      ensures this.entries == entries
    {
      this.entries := entries;
    }
  }

  class ActiveSession {
    const id: string
    const siteId: string
    const ip: string
    const userAgent: string
    var isActive: bool
    var risk: int
    var isBlocked: bool
    var captchaShown: bool
    const metrics: MetricsMap
    var createdAt: Time
    var lastActivity: Time
    var expiresAt: Time

    constructor (id: string, siteId: string, ip: string, userAgent: string, metrics: MetricsMap)
      ensures this.metrics == metrics
      ensures this.id == id
      ensures Value() == Session(id, siteId, ip, userAgent, true, 0, false, false,
                                 metrics.entries, ZERO_TIME, ZERO_TIME, ZERO_TIME)
    {
      this.id, this.siteId, this.ip, this.userAgent := id, siteId, ip, userAgent;
      isActive, risk, isBlocked, captchaShown := true, 0, false, false;
      this.metrics := metrics;
      createdAt, lastActivity, expiresAt := ZERO_TIME, ZERO_TIME, ZERO_TIME;
    }

    ghost function Value(): Session
      reads this, metrics
    {
      Session(id, siteId, ip, userAgent, isActive, risk, isBlocked, captchaShown,
              metrics.entries, createdAt, lastActivity, expiresAt)
    }
  }

  class MemorySessionStore {
    var sessions: map<string, ActiveSession>

    constructor ()
      ensures Valid() && Contents() == map[] && sessions == map[]
    {
      sessions := map[];
    }

    /** Every session sits under its own id and owns its metrics map. */
    static ghost predicate Owned(ss: map<string, ActiveSession>) {
      && (forall k | k in ss :: ss[k].id == k)
      && (forall a, b | a in ss && b in ss && a != b :: ss[a].metrics != ss[b].metrics)
    }

    static lemma OwnedPart(some: map<string, ActiveSession>, all: map<string, ActiveSession>)
      requires Owned(all) && some.Keys <= all.Keys && forall k | k in some :: some[k] == all[k]
      ensures Owned(some)
    {
    }

    ghost predicate Valid()
      reads this
    {
      Owned(sessions)
    }

    /** The objects that hold some sessions. */
    static ghost function PartsOf(ss: map<string, ActiveSession>): set<object> {
      (set k | k in ss :: ss[k] as object) + (set k | k in ss :: ss[k].metrics)
    }

    static ghost function TableOf(ss: map<string, ActiveSession>): Table
      reads PartsOf(ss)
    {
      map k | k in ss :: ss[k].Value()
    }

    ghost function Contents(): Table
      reads this, PartsOf(sessions)
    {
      TableOf(sessions)
    }

    lemma Values()
      ensures Contents().Keys == sessions.Keys
      ensures forall k | k in sessions :: Contents()[k] == sessions[k].Value()
    {
    }

    lemma TableIs(m: Table)
      requires m.Keys == sessions.Keys && forall k | k in sessions :: m[k] == sessions[k].Value()
      ensures Contents() == m
    {
    }

    /** The fields of each stored value are those of its object. */
    lemma Fields()
      requires Valid()
      ensures forall id | id in sessions ::
                var s := sessions[id];
                && id in Contents() && s.id == id
                && Contents()[id].siteId == s.siteId && Contents()[id].ip == s.ip && Contents()[id].risk == s.risk
                && Contents()[id].isActive == s.isActive && Contents()[id].isBlocked == s.isBlocked
                && Contents()[id].expiresAt == s.expiresAt
    {
    }

    /** The session under `id`, as the set of objects a method may change. */
    ghost function At(id: string): set<ActiveSession>
      reads this
    {
      if id in sessions then {sessions[id]} else {}
    }

    ghost function MetricsAt(id: string): set<MetricsMap>
      reads this
    {
      if id in sessions then {sessions[id].metrics} else {}
    }

    static lemma TableOneMore(ss: map<string, ActiveSession>, session: ActiveSession)
      requires Owned(ss) && forall k | k in ss :: ss[k].metrics != session.metrics
      ensures Owned(ss[session.id := session])
      ensures TableOf(ss[session.id := session]) == TableOf(ss)[session.id := session.Value()]
    {
    }

    method CreateSession(session: ActiveSession, now: Time)
      requires Valid() && session !in sessions.Values
      requires forall k | k in sessions :: sessions[k].metrics != session.metrics
      modifies this, session
      ensures Valid() && sessions == old(sessions)[session.id := session]
      ensures Contents() == Create(old(Contents()), old(session.Value()), now)
    {
      hide Owned;
      ghost var all, before := sessions, Contents();
      session.createdAt := now;
      session.lastActivity := now;
      if session.expiresAt == ZERO_TIME {
        session.expiresAt := now + SESSION_TTL;
      }
      assert session.Value() ==
             old(session.Value()).(createdAt := now, lastActivity := now, expiresAt := session.expiresAt);
      assert TableOf(all) == before;
      TableOneMore(all, session);
      sessions := sessions[session.id := session];
    }

    method GetSession(id: string) returns (r: Option<ActiveSession>)
      ensures r.Some? <==> id in sessions
      ensures r.Some? ==> r.value == sessions[id]
    {
      r := if id in sessions then Some(sessions[id]) else None;
    }

    method UpdateSessionActivity(id: string, now: Time) returns (found: bool)
      requires Valid()
      modifies At(id)
      ensures Valid() && found == (id in sessions)
      ensures Contents() == Refresh(old(Contents()), id, now)
    {
      hide TableOf;
      ghost var after := Refresh(Contents(), id, now);
      Values();
      if id in sessions {
        var session := sessions[id];
        session.lastActivity := now;
        session.expiresAt := now + SESSION_TTL;
        TableIs(after);
        return true;
      }
      TableIs(after);
      return false;
    }

    method DeactivateSession(id: string) returns (found: bool)
      requires Valid()
      modifies this
      ensures Valid() && found == (id in old(sessions)) && sessions == old(sessions) - {id}
      ensures Contents() == Remove(old(Contents()), id)
    {
      hide TableOf, Owned;
      ghost var after := Remove(Contents(), id);
      ghost var all := sessions;
      Values();
      if id in sessions {
        sessions := sessions - {id};
        OwnedPart(sessions, all);
        TableIs(after);
        return true;
      }
      TableIs(after);
      return false;
    }

    method BlockSession(id: string) returns (found: bool)
      requires Valid()
      modifies At(id)
      ensures Valid() && found == (id in sessions)
      ensures Contents() == Block(old(Contents()), id)
    {
      hide TableOf;
      ghost var after := Block(Contents(), id);
      Values();
      if id in sessions {
        var session := sessions[id];
        session.isBlocked := true;
        session.isActive := false;
        TableIs(after);
        return true;
      }
      TableIs(after);
      return false;
    }

    method UnblockSession(id: string) returns (found: bool)
      requires Valid()
      modifies At(id)
      ensures Valid() && found == (id in sessions)
      ensures Contents() == Unblock(old(Contents()), id)
    {
      hide TableOf;
      ghost var after := Unblock(Contents(), id);
      Values();
      if id in sessions {
        var session := sessions[id];
        session.isBlocked := false;
        session.isActive := true;
        TableIs(after);
        return true;
      }
      TableIs(after);
      return false;
    }

    method UpdateRiskScore(id: string, score: int) returns (found: bool)
      requires Valid()
      modifies At(id)
      ensures Valid() && found == (id in sessions)
      ensures Contents() == SetRisk(old(Contents()), id, score)
    {
      hide TableOf;
      ghost var after := SetRisk(Contents(), id, score);
      Values();
      if id in sessions {
        var session := sessions[id];
        session.risk := score;
        TableIs(after);
        return true;
      }
      TableIs(after);
      return false;
    }

    method MarkCaptchaShown(id: string) returns (found: bool)
      requires Valid()
      modifies At(id)
      ensures Valid() && found == (id in sessions)
      ensures Contents() == ShowCaptcha(old(Contents()), id)
    {
      hide TableOf;
      ghost var after := ShowCaptcha(Contents(), id);
      Values();
      if id in sessions {
        var session := sessions[id];
        session.captchaShown := true;
        TableIs(after);
        return true;
      }
      TableIs(after);
      return false;
    }

    /** `own` with the entries of `source` written over it, except those still to do. */
    static ghost function Overlaid(own: Metrics, source: Metrics, todo: set<string>): Metrics {
      own + map k | k in source && k !in todo :: source[k]
    }

    static lemma OverlayStep(own: Metrics, source: Metrics, todo: set<string>, k: string)
      requires k in todo && k in source
      ensures Overlaid(own, source, todo - {k}) == Overlaid(own, source, todo)[k := source[k]]
    {
    }

    static lemma OverlayEnds(own: Metrics, source: Metrics)
      ensures Overlaid(own, source, source.Keys) == own
      ensures Overlaid(own, source, {}) == own + source
    {
    }

    /** The loop that copies one map into another. The two may be the same map:
        then it writes each entry over itself. */
    static method Overlay(target: MetricsMap, source: MetricsMap)
      modifies target
      ensures target.entries == old(target.entries) + old(source.entries)
    {
      hide Overlaid;
      ghost var own, entries := target.entries, source.entries;
      var todo := source.entries.Keys;
      OverlayEnds(own, entries);
      while todo != {}
        invariant todo <= entries.Keys && source.entries == entries
        invariant target.entries == Overlaid(own, entries, todo)
        decreases |todo|
      {
        var k :| k in todo;
        OverlayStep(own, entries, todo, k);
        target.entries := target.entries[k := source.entries[k]];
        todo := todo - {k};
      }
    }

    /** The argument may be the session's own map. */
    method UpdateSessionMetrics(id: string, metrics: MetricsMap) returns (found: bool)
      requires Valid()
      requires forall k | k in sessions && k != id :: sessions[k].metrics != metrics
      modifies MetricsAt(id)
      ensures Valid() && found == (id in sessions)
      ensures Contents() == MergeMetrics(old(Contents()), id, old(metrics.entries))
    {
      hide TableOf;
      ghost var after := MergeMetrics(Contents(), id, metrics.entries);
      Values();
      if id in sessions {
        var session := sessions[id];
        Overlay(session.metrics, metrics);
        TableIs(after);
        return true;
      }
      TableIs(after);
      return false;
    }

    /** The map itself, not a copy. */
    method GetSessionMetrics(id: string) returns (r: Option<MetricsMap>)
      requires Valid()
      ensures r.Some? <==> id in sessions
      ensures r.Some? ==> r.value == sessions[id].metrics
    {
      r := if id in sessions then Some(sessions[id].metrics) else None;
    }

    /** A listing of the sessions under `ids`: every one of them, each once. */
    ghost predicate Lists(found: seq<ActiveSession>, ids: set<string>)
      reads this
    {
      && |found| == |ids|
      && (forall i | 0 <= i < |found| ::
            found[i].id in ids && found[i].id in sessions && sessions[found[i].id] == found[i])
      && (forall i, j | 0 <= i < j < |found| :: found[i] != found[j])
      && (forall id | id in ids :: id in sessions && sessions[id] in found)
    }

    lemma ListsOneMore(found: seq<ActiveSession>, ids: set<string>, id: string)
      requires Lists(found, ids) && id !in ids
      requires id in sessions && sessions[id].id == id
      ensures Lists(found + [sessions[id]], ids + {id})
    {
      var longer := found + [sessions[id]];
      assert longer[|found|] == sessions[id];
      forall x | x in ids + {id}
        ensures x in sessions && sessions[x] in longer
      {
      }
    }

    lemma ListsNone()
      ensures Lists([], {})
    {
    }

    lemma ListsSize(found: seq<ActiveSession>, ids: set<string>)
      requires Lists(found, ids)
      ensures |found| == |ids|
    {
    }

    /** Visiting one more key of a range. */
    static lemma Visit(all: set<string>, todo: set<string>, x: string)
      requires x in todo
      ensures x in all ==> x !in all - todo && all - (todo - {x}) == all - todo + {x}
      ensures x !in all ==> all - (todo - {x}) == all - todo
      ensures |all - (todo - {x})| == |all - todo| + (if x in all then 1 else 0)
    {
      if x in all {
        assert all - (todo - {x}) == all - todo + {x};
      } else {
        assert all - (todo - {x}) == all - todo;
      }
    }

    /** Only stored sessions are counted or listed. */
    lemma Within(siteId: string, now: Time, minRisk: int)
      ensures Contents().Keys == sessions.Keys
      ensures LiveIds(Contents(), siteId, now) <= sessions.Keys
      ensures SiteIds(Contents(), siteId) <= sessions.Keys && BlockedIds(Contents(), siteId) <= sessions.Keys
      ensures SuspiciousIds(Contents(), siteId, minRisk) <= sessions.Keys
    {
    }

    static lemma LiveMember(m: Table, siteId: string, now: Time, id: string)
      requires id in m
      ensures id in LiveIds(m, siteId, now) <==> m[id].siteId == siteId && m[id].isActive && now < m[id].expiresAt
      ensures id in SiteIds(m, siteId) <==> m[id].siteId == siteId
      ensures id in BlockedIds(m, siteId) <==> m[id].siteId == siteId && m[id].isBlocked
    {
    }

    static lemma SuspiciousMember(m: Table, siteId: string, minRisk: int, id: string)
      requires id in m
      ensures id in SuspiciousIds(m, siteId, minRisk) <==>
                m[id].siteId == siteId && m[id].risk >= minRisk && m[id].isActive
    {
    }

    /** The range stops once `limit` sessions are collected. */
    method GetActiveSessionsBySite(siteId: string, limit: int, now: Time) returns (found: seq<ActiveSession>)
      requires Valid()
      ensures exists ids :: ids <= LiveIds(Contents(), siteId, now) && Lists(found, ids)
      ensures limit >= 1 ==>
                var matches := |LiveIds(Contents(), siteId, now)|;
                |found| == if limit < matches then limit else matches
      ensures limit < 1 ==> |found| <= 1
    {
      hide *;
      found := [];
      var todo := sessions.Keys;
      ghost var m, live := Contents(), LiveIds(Contents(), siteId, now);
      Fields();
      Within(siteId, now, 0);
      assert live - todo == {};
      ListsNone();
      while todo != {}
        invariant todo <= sessions.Keys && Contents() == m
        invariant Lists(found, live - todo)
        invariant |found| < limit || (limit < 1 && found == [])
        decreases |todo|
      {
        var id :| id in todo;
        var session := sessions[id];
        LiveMember(m, siteId, now, id);
        Visit(live, todo, id);
        if session.siteId == siteId && session.isActive && now < session.expiresAt {
          ListsOneMore(found, live - todo, id);
          found := found + [session];
        }
        todo := todo - {id};
        if !(|found| < limit) {
          SubsetSize(live - todo, live);
          ListsSize(found, live - todo);
          return;
        }
      }
      assert live - todo == live;
      ListsSize(found, live);
    }

    method GetSuspiciousSessions(siteId: string, minRisk: int) returns (found: seq<ActiveSession>)
      requires Valid()
      ensures Lists(found, SuspiciousIds(Contents(), siteId, minRisk))
    {
      hide *;
      found := [];
      var todo := sessions.Keys;
      ghost var m, all := Contents(), SuspiciousIds(Contents(), siteId, minRisk);
      Fields();
      Within(siteId, ZERO_TIME, minRisk);
      assert all - todo == {};
      ListsNone();
      while todo != {}
        invariant todo <= sessions.Keys && Contents() == m
        invariant Lists(found, all - todo)
        decreases |todo|
      {
        var id :| id in todo;
        var session := sessions[id];
        SuspiciousMember(m, siteId, minRisk, id);
        Visit(all, todo, id);
        if session.siteId == siteId && session.risk >= minRisk && session.isActive {
          ListsOneMore(found, all - todo, id);
          found := found + [session];
        }
        todo := todo - {id};
      }
      assert all - todo == all;
    }

    /** The running figures once all but the sessions under `todo` are visited. */
    static ghost predicate Tally(m: Table, siteId: string, now: Time, todo: set<string>,
                                 total: int, active: int, blocked: int, risk: real, ips: set<string>) {
      var ids := SiteIds(m, siteId);
      && total == |ids - todo|
      && active == |LiveIds(m, siteId, now) - todo|
      && blocked == |BlockedIds(m, siteId) - todo|
      && risk == RiskSum(m, ids - todo) as real
      && ips == Addresses(m, ids - todo)
    }

    static lemma TallyStart(m: Table, siteId: string, now: Time)
      ensures Tally(m, siteId, now, m.Keys, 0, 0, 0, 0.0, {})
    {
      assert SiteIds(m, siteId) - m.Keys == {} && LiveIds(m, siteId, now) - m.Keys == {};
      assert BlockedIds(m, siteId) - m.Keys == {};
    }

    static lemma RiskOneMore(m: Table, ids: set<string>, id: string)
      requires ids <= m.Keys && id in m && id !in ids
      ensures RiskSum(m, ids + {id}) == RiskSum(m, ids) + m[id].risk
      ensures Addresses(m, ids + {id}) == Addresses(m, ids) + {m[id].ip}
    {
      RiskSumAnyOrder(m, ids + {id}, id);
      assert ids + {id} - {id} == ids;
    }

    static lemma TallyOther(m: Table, siteId: string, now: Time, todo: set<string>, id: string,
                            total: int, active: int, blocked: int, risk: real, ips: set<string>)
      requires Tally(m, siteId, now, todo, total, active, blocked, risk, ips)
      requires id in todo && id in m && m[id].siteId != siteId
      ensures Tally(m, siteId, now, todo - {id}, total, active, blocked, risk, ips)
    {
      LiveMember(m, siteId, now, id);
      Visit(SiteIds(m, siteId), todo, id);
      Visit(LiveIds(m, siteId, now), todo, id);
      Visit(BlockedIds(m, siteId), todo, id);
    }

    static lemma TallySite(m: Table, siteId: string, now: Time, todo: set<string>, id: string,
                           total: int, active: int, blocked: int, risk: real, ips: set<string>)
      requires Tally(m, siteId, now, todo, total, active, blocked, risk, ips)
      requires id in todo && id in m && m[id].siteId == siteId
      ensures Tally(m, siteId, now, todo - {id}, total + 1,
                    active + (if m[id].isActive && now < m[id].expiresAt then 1 else 0),
                    blocked + (if m[id].isBlocked then 1 else 0),
                    risk + m[id].risk as real, ips + {m[id].ip})
    {
      hide LiveIds, BlockedIds, RiskSum, Addresses;
      LiveMember(m, siteId, now, id);
      Visit(SiteIds(m, siteId), todo, id);
      Visit(LiveIds(m, siteId, now), todo, id);
      Visit(BlockedIds(m, siteId), todo, id);
      RiskOneMore(m, SiteIds(m, siteId) - todo, id);
    }

    static lemma TallyEnd(m: Table, siteId: string, now: Time,
                          total: int, active: int, blocked: int, risk: real, ips: set<string>)
      requires Tally(m, siteId, now, {}, total, active, blocked, risk, ips)
      ensures StatsOf(m, siteId, now) ==
              Stats(total, active, blocked, if total > 0 then risk / total as real else risk, |ips|)
    {
      assert SiteIds(m, siteId) - {} == SiteIds(m, siteId);
      assert LiveIds(m, siteId, now) - {} == LiveIds(m, siteId, now);
      assert BlockedIds(m, siteId) - {} == BlockedIds(m, siteId);
    }

    method GetSessionStats(siteId: string, now: Time) returns (stats: Stats)
      requires Valid()
      ensures stats == StatsOf(Contents(), siteId, now)
    {
      hide *;
      var total, active, blocked, risk := 0, 0, 0, 0.0;
      var ips: set<string> := {};
      var todo := sessions.Keys;
      ghost var m := Contents();
      Fields();
      Within(siteId, now, 0);
      TallyStart(m, siteId, now);
      while todo != {}
        invariant todo <= sessions.Keys && Contents() == m
        invariant Tally(m, siteId, now, todo, total, active, blocked, risk, ips)
        decreases |todo|
      {
        var id :| id in todo;
        var session := sessions[id];
        if session.siteId == siteId {
          TallySite(m, siteId, now, todo, id, total, active, blocked, risk, ips);
          total := total + 1;
          if session.isActive && now < session.expiresAt {
            active := active + 1;
          }
          if session.isBlocked {
            blocked := blocked + 1;
          }
          risk := risk + session.risk as real;
          ips := ips + {session.ip};
        } else {
          TallyOther(m, siteId, now, todo, id, total, active, blocked, risk, ips);
        }
        todo := todo - {id};
      }
      TallyEnd(m, siteId, now, total, active, blocked, risk, ips);
      if total > 0 {
        risk := risk / total as real;
      }
      stats := Stats(total, active, blocked, risk, |ips|);
    }

    /** The range of a cleanup tick. */
    method Sweep(now: Time) returns (deleted: int)
      modifies this
      ensures forall k :: k in sessions <==>
                k in old(sessions) && !(now > old(sessions)[k].expiresAt || !old(sessions)[k].isActive)
      ensures forall k | k in sessions :: sessions[k] == old(sessions)[k]
      ensures deleted == |old(sessions)| - |sessions|
    {
      deleted := 0;
      var todo := sessions.Keys;
      ghost var all := sessions;
      while todo != {}
        invariant todo <= all.Keys
        invariant forall k :: k in sessions <==>
                    k in all && (k in todo || !(now > all[k].expiresAt || !all[k].isActive))
        invariant forall k | k in sessions :: sessions[k] == all[k]
        invariant deleted == |all| - |sessions|
        decreases |todo|
      {
        var id :| id in todo;
        var session := sessions[id];
        if now > session.expiresAt || !session.isActive {
          SizeWithout(sessions, id);
          sessions := sessions - {id};
          deleted := deleted + 1;
        }
        todo := todo - {id};
      }
    }

    static lemma Swept(some: map<string, ActiveSession>, all: map<string, ActiveSession>, now: Time)
      requires Owned(all) && forall k | k in some :: k in all && some[k] == all[k]
      requires forall k :: k in some <==> k in all && !(now > all[k].expiresAt || !all[k].isActive)
      ensures Owned(some) && TableOf(some) == Cleanup(TableOf(all), now)
    {
    }

    method CleanupExpiredSessions(now: Time) returns (deleted: int)
      requires Valid()
      modifies this
      ensures Valid() && forall k | k in sessions :: k in old(sessions) && sessions[k] == old(sessions)[k]
      ensures Contents() == Cleanup(old(Contents()), now)
      ensures deleted == |old(sessions)| - |sessions|
    {
      hide Owned, Cleanup;
      ghost var all, before := sessions, Contents();
      deleted := Sweep(now);
      assert TableOf(all) == before;
      Swept(sessions, all, now);
    }

    static lemma SizeWithout(ss: map<string, ActiveSession>, id: string)
      requires id in ss
      ensures |ss - {id}| == |ss| - 1
    {
      assert (ss - {id}).Keys == ss.Keys - {id};
    }
  }
}
