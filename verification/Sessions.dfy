/** Visitor sessions as values: what each operation of
    backend/storage/session.go does to the table of sessions. */
module Sessions {
  import opened Basics

  /** A decoded JSON value (`interface{}`). */
  datatype Json =
    | Null
    | Boolean(b: bool)
    | Number(n: real)
    | Text(s: string)
    | List(items: seq<Json>)
    | Object(fields: map<string, Json>)

  type Metrics = map<string, Json>

  datatype Session = Session(
    id: string,
    siteId: string,
    ip: string,
    userAgent: string,
    isActive: bool,
    risk: int,
    isBlocked: bool,
    captchaShown: bool,
    metrics: Metrics,
    createdAt: Time,
    lastActivity: Time,
    expiresAt: Time)

  type Table = map<string, Session>

  const SESSION_TTL: int := 30 * MINUTE

  /** Change the session stored under `id`, if there is one. */
  function Amend(m: Table, id: string, change: Session -> Session): Table {
    if id in m then m[id := change(m[id])] else m
  }

  function Create(m: Table, s: Session, now: Time): Table {
    m[s.id := s.(createdAt := now, lastActivity := now,
                 expiresAt := if s.expiresAt == ZERO_TIME then now + SESSION_TTL else s.expiresAt)]
  }

  function Refresh(m: Table, id: string, now: Time): Table {
    Amend(m, id, (s: Session) => s.(lastActivity := now, expiresAt := now + SESSION_TTL))
  }

  function Block(m: Table, id: string): Table {
    Amend(m, id, (s: Session) => s.(isBlocked := true, isActive := false))
  }

  function Unblock(m: Table, id: string): Table {
    Amend(m, id, (s: Session) => s.(isBlocked := false, isActive := true))
  }

  function SetRisk(m: Table, id: string, risk: int): Table {
    Amend(m, id, (s: Session) => s.(risk := risk))
  }

  function ShowCaptcha(m: Table, id: string): Table {
    Amend(m, id, (s: Session) => s.(captchaShown := true))
  }

  function MergeMetrics(m: Table, id: string, batch: Metrics): Table {
    Amend(m, id, (s: Session) => s.(metrics := s.metrics + batch))
  }

  function Remove(m: Table, id: string): Table {
    m - {id}
  }

  predicate Dead(s: Session, now: Time) {
    now > s.expiresAt || !s.isActive
  }

  function Cleanup(m: Table, now: Time): Table {
    map id | id in m && !Dead(m[id], now) :: m[id]
  }

  /** What every stored session keeps: it sits under its own id and is active
      exactly when it is not blocked. */
  ghost predicate WellKept(m: Table) {
    forall id | id in m :: m[id].id == id && m[id].isActive == !m[id].isBlocked
  }

  /** Cleanup keeps exactly the unexpired active sessions, unchanged; a second
      round at the same instant, or any round after a later one, adds nothing. */
  lemma CleanupKeeps(m: Table, now: Time, later: Time)
    requires now <= later
    ensures forall id :: id in Cleanup(m, now) <==> id in m && m[id].isActive && now <= m[id].expiresAt
    ensures forall id | id in Cleanup(m, now) :: Cleanup(m, now)[id] == m[id]
    ensures Cleanup(Cleanup(m, now), later) == Cleanup(m, later) == Cleanup(Cleanup(m, later), now)
    ensures |Cleanup(m, now)| <= |m|
  {
    assert Cleanup(m, now).Keys <= m.Keys;
    SubsetSize(Cleanup(m, now).Keys, m.Keys);
  }

  /** What the operations do, field by field, to the session they name; no
      other session moves, and none comes or goes but by creation and removal. */
  lemma OperationsMeaning(m: Table, id: string, other: string, risk: int, batch: Metrics, now: Time)
    requires id in m
    ensures forall m' | m' in [Refresh(m, id, now), Block(m, id), Unblock(m, id), SetRisk(m, id, risk),
                               ShowCaptcha(m, id), MergeMetrics(m, id, batch)] ::
              m'.Keys == m.Keys && (other in m && other != id ==> m'[other] == m[other])
    ensures var s := m[id];
            && Refresh(m, id, now)[id] == s.(lastActivity := now, expiresAt := now + 30 * MINUTE)
            && (var b := Block(m, id)[id]; b.isBlocked && !b.isActive && s == b.(isBlocked := s.isBlocked,
                                                                               isActive := s.isActive))
            && (var u := Unblock(m, id)[id]; !u.isBlocked && u.isActive && s == u.(isBlocked := s.isBlocked,
                                                                                 isActive := s.isActive))
            && (var r := SetRisk(m, id, risk)[id]; r.risk == risk && s == r.(risk := s.risk))
            && (var c := ShowCaptcha(m, id)[id]; c.captchaShown && s == c.(captchaShown := s.captchaShown))
            && (var b := MergeMetrics(m, id, batch)[id];
                b.metrics == s.metrics + batch && s == b.(metrics := s.metrics))
    ensures var left := Remove(m, id);
            id !in left && (other in m && other != id ==> other in left && left[other] == m[other])
  {
  }

  /** Nothing happens to a session that is not there. */
  lemma MissingSession(m: Table, id: string, risk: int, batch: Metrics, now: Time)
    requires id !in m
    ensures Refresh(m, id, now) == Block(m, id) == Unblock(m, id) == SetRisk(m, id, risk) == m
    ensures ShowCaptcha(m, id) == MergeMetrics(m, id, batch) == Remove(m, id) == m
  {
  }

  /** From its creation a session is listed as live for thirty minutes, unless it
      came with an expiry; a check starts them again; one that is blocked is not
      listed, and suspicious from the risk asked for on. */
  lemma ListedWhile(m: Table, s: Session, siteId: string, now: Time, t: Time, risk: int, minRisk: int)
    ensures var made := Create(m, s, now);
            && made.Keys == m.Keys + {s.id} && (forall id | id in m && id != s.id :: made[id] == m[id])
            && made[s.id] == s.(createdAt := now, lastActivity := now, expiresAt := made[s.id].expiresAt)
            && made[s.id].expiresAt == (if s.expiresAt == ZERO_TIME then now + 30 * MINUTE else s.expiresAt)
            && (s.id in LiveIds(made, siteId, t) <==>
                  s.siteId == siteId && s.isActive && t < made[s.id].expiresAt)
    ensures var kept := Refresh(Create(m, s, now), s.id, now);
            && (s.id in LiveIds(kept, siteId, t) <==> s.siteId == siteId && s.isActive && t < now + 30 * MINUTE)
            && s.id !in LiveIds(Block(kept, s.id), siteId, t)
            && (s.id in LiveIds(Unblock(kept, s.id), siteId, t) <==> s.siteId == siteId && t < now + 30 * MINUTE)
            && (s.id in SuspiciousIds(SetRisk(kept, s.id, risk), siteId, minRisk) <==>
                  s.siteId == siteId && s.isActive && minRisk <= risk)
  {
  }

  // ------------------------------------------------------------- metrics

  /** Batches merged in order, later batches winning. */
  function MergeAll(start: Metrics, batches: seq<Metrics>): Metrics
    decreases |batches|
  {
    if batches == [] then start else MergeAll(start + batches[0], batches[1..])
  }

  /** Each key ends with the value of the last batch that holds it. */
  lemma {:induction false} LastBatchWins(start: Metrics, batches: seq<Metrics>, key: string)
    ensures var merged := MergeAll(start, batches);
            && (key in merged <==> key in start || exists b | b in batches :: key in b)
            && (forall i | 0 <= i < |batches| && key in batches[i]
                           && (forall j | i < j < |batches| :: key !in batches[j])
                  :: merged[key] == batches[i][key])
            && (key in start && (forall b | b in batches :: key !in b) ==> merged[key] == start[key])
    decreases |batches|
  {
    if batches != [] {
      var rest := batches[1..];
      LastBatchWins(start + batches[0], rest, key);
      assert forall i | 1 <= i < |batches| :: batches[i] == rest[i - 1];
      assert forall b :: b in batches <==> b == batches[0] || b in rest;
      forall i | 0 <= i < |batches| && key in batches[i] && (forall j | i < j < |batches| :: key !in batches[j])
        ensures MergeAll(start, batches)[key] == batches[i][key]
      {
        if i > 0 {
          assert rest[i - 1] == batches[i];
          assert forall j | i - 1 < j < |rest| :: rest[j] == batches[j + 1];
        }
      }
    }
  }

  // ------------------------------------------------------------ listings

  predicate Live(s: Session, siteId: string, now: Time) {
    s.siteId == siteId && s.isActive && now < s.expiresAt
  }

  predicate Suspicious(s: Session, siteId: string, minRisk: int) {
    s.siteId == siteId && s.risk >= minRisk && s.isActive
  }

  function LiveIds(m: Table, siteId: string, now: Time): set<string> {
    set id | id in m && Live(m[id], siteId, now)
  }

  function SuspiciousIds(m: Table, siteId: string, minRisk: int): set<string> {
    set id | id in m && Suspicious(m[id], siteId, minRisk)
  }

  function SiteIds(m: Table, siteId: string): set<string> {
    set id | id in m && m[id].siteId == siteId
  }

  function BlockedIds(m: Table, siteId: string): set<string> {
    set id | id in SiteIds(m, siteId) && m[id].isBlocked
  }

  function Addresses(m: Table, ids: set<string>): set<string>
    requires ids <= m.Keys
  {
    set id | id in ids :: m[id].ip
  }

  /** The sum of the risks of `ids`, in whatever order they are visited. */
  ghost function RiskSum(m: Table, ids: set<string>): int
    requires ids <= m.Keys
    decreases |ids|
  {
    if ids == {} then 0
    else
      var id :| id in ids;
      m[id].risk + RiskSum(m, ids - {id})
  }

  lemma {:induction false} RiskSumAnyOrder(m: Table, ids: set<string>, id: string)
    requires ids <= m.Keys && id in ids
    ensures RiskSum(m, ids) == m[id].risk + RiskSum(m, ids - {id})
    decreases |ids|
  {
    var first :| first in ids && RiskSum(m, ids) == m[first].risk + RiskSum(m, ids - {first});
    if first != id {
      RiskSumAnyOrder(m, ids - {first}, id);
      RiskSumAnyOrder(m, ids - {id}, first);
      assert ids - {first} - {id} == ids - {id} - {first};
    }
  }

  lemma {:induction false} SubsetSize<T>(a: set<T>, b: set<T>)
    requires a <= b
    ensures |a| <= |b|
    decreases |a|
  {
    if a != {} {
      var x :| x in a;
      SubsetSize(a - {x}, b - {x});
    }
  }

  lemma {:induction false} AddressesSize(m: Table, ids: set<string>)
    requires ids <= m.Keys
    ensures |Addresses(m, ids)| <= |ids|
    decreases |ids|
  {
    if ids != {} {
      var id :| id in ids;
      AddressesSize(m, ids - {id});
      assert Addresses(m, ids) == Addresses(m, ids - {id}) + {m[id].ip};
    }
  }

  datatype Stats = Stats(total: int, active: int, blocked: int, avgRisk: real, uniqueIPs: int)

  ghost function StatsOf(m: Table, siteId: string, now: Time): Stats {
    var ids := SiteIds(m, siteId);
    var sum := RiskSum(m, ids) as real;
    Stats(|ids|, |LiveIds(m, siteId, now)|, |BlockedIds(m, siteId)|,
          if |ids| > 0 then sum / |ids| as real else sum, |Addresses(m, ids)|)
  }

  /** What each figure counts. */
  lemma StatsCount(m: Table, siteId: string, now: Time)
    ensures StatsOf(m, siteId, now).total == |set id | id in m && m[id].siteId == siteId|
    ensures StatsOf(m, siteId, now).active ==
            |set id | id in m && m[id].siteId == siteId && m[id].isActive && now < m[id].expiresAt|
    ensures StatsOf(m, siteId, now).blocked == |set id | id in m && m[id].siteId == siteId && m[id].isBlocked|
    ensures StatsOf(m, siteId, now).uniqueIPs == |set id | id in m && m[id].siteId == siteId :: m[id].ip|
  {
    var ids := SiteIds(m, siteId);
    assert ids == set id | id in m && m[id].siteId == siteId;
    assert LiveIds(m, siteId, now) ==
           set id | id in m && m[id].siteId == siteId && m[id].isActive && now < m[id].expiresAt;
    assert BlockedIds(m, siteId) == set id | id in m && m[id].siteId == siteId && m[id].isBlocked;
    assert Addresses(m, ids) == set id | id in m && m[id].siteId == siteId :: m[id].ip;
  }

  /** The figures fit together, for a table kept by the store's operations. */
  lemma StatsAgree(m: Table, siteId: string, now: Time)
    requires WellKept(m)
    ensures var st := StatsOf(m, siteId, now);
            && st.active + st.blocked <= st.total
            && st.uniqueIPs <= st.total && (st.uniqueIPs == 0 <==> st.total == 0)
            && st.avgRisk * st.total as real == RiskSum(m, SiteIds(m, siteId)) as real
  {
    var ids, live, blocked := SiteIds(m, siteId), LiveIds(m, siteId, now), BlockedIds(m, siteId);
    assert live !! blocked && live + blocked <= ids;
    SubsetSize(live + blocked, ids);
    AddressesSize(m, ids);
    if ids != {} {
      var id :| id in ids;
      assert m[id].ip in Addresses(m, ids);
    }
  }
}
