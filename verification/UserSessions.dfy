/** Login sessions of users and the tokens that carry their ids:
    backend/auth/session_manager.go and backend/auth/auth.go, as values, and
    what they mean over whole histories of use. */
module UserSessions {
  import opened Basics

  datatype User = User(id: string, email: string, role: string)

  datatype SessionRecord = SessionRecord(id: string, user: User, ip: string, userAgent: string,
                                     createdAt: Time, lastSeen: Time, expiresAt: Time)

  type Table = map<string, SessionRecord>

  /** Both lifetimes the server is configured with. */
  const SESSION_TTL: int := 24 * HOUR
  const TOKEN_LIFETIME: int := 24 * HOUR

  // ------------------------------------------------------ the operations

  function Create(m: Table, ttl: int, id: string, user: User, ip: string, userAgent: string, now: Time): Table {
    m[id := SessionRecord(id, user, ip, userAgent, now, now, now + ttl)]
  }

  predicate Expired(s: SessionRecord, now: Time) {
    now > s.expiresAt
  }

  /** `Get` removes the session it finds expired. */
  function Get(m: Table, id: string, now: Time): (Table, Option<SessionRecord>) {
    if id !in m then (m, None)
    else if Expired(m[id], now) then (m - {id}, None)
    else (m, Some(m[id]))
  }

  function UpdateLastSeen(m: Table, ttl: int, id: string, now: Time): Table {
    if id in m then m[id := m[id].(lastSeen := now, expiresAt := now + ttl)] else m
  }

  /** A request whose token is valid: `Get`, then `UpdateLastSeen`. */
  function Authenticate(m: Table, ttl: int, id: string, now: Time): (Table, bool) {
    var (found, s) := Get(m, id, now);
    if s.Some? then (UpdateLastSeen(found, ttl, id, now), true) else (found, false)
  }

  /** Logout and forced revocation: `Get`, then `Delete`. */
  function Revoke(m: Table, id: string, now: Time): (Table, bool) {
    var (found, s) := Get(m, id, now);
    if s.Some? then (found - {id}, true) else (found, false)
  }

  /** Some of a sweep's deletions, its clock having been read at `seen`. */
  function Sweep(m: Table, ids: set<string>, seen: Time): Table {
    map id | id in m && !(id in ids && Expired(m[id], seen)) :: m[id]
  }

  // ----------------------------------------------------------- histories

  /** `signed` is when the token of a login reads the clock for its expiry. */
  datatype Event =
    | Login(at: Time, signed: Time, id: string, user: User, ip: string, userAgent: string)
    | Request(at: Time, id: string)
    | Revocation(at: Time, id: string)
    | Tick(at: Time, seen: Time, ids: set<string>)

  /** The clock only goes forward; a tick acts on a clock read before. */
  ghost predicate Ordered(log: seq<Event>) {
    && (forall i, j | 0 <= i < j < |log| :: log[i].at <= log[j].at)
    && (forall i | 0 <= i < |log| && log[i].Tick? :: log[i].seen <= log[i].at)
  }

  function Step(m: Table, ttl: int, e: Event): (Table, bool) {
    match e
    case Login(at, _, id, user, ip, ua) => (Create(m, ttl, id, user, ip, ua, at), true)
    case Request(at, id) => Authenticate(m, ttl, id, at)
    case Revocation(at, id) => Revoke(m, id, at)
    case Tick(_, seen, ids) => (Sweep(m, ids, seen), true)
  }

  function Run(ttl: int, log: seq<Event>): Table {
    if log == [] then map[] else Step(Run(ttl, log[..|log| - 1]), ttl, log[|log| - 1]).0
  }

  /** What the callers are answered, in order; a tick answers nobody. */
  function Answers(ttl: int, log: seq<Event>): seq<bool> {
    if log == [] then []
    else
      var before, e := log[..|log| - 1], log[|log| - 1];
      Answers(ttl, before) + if e.Tick? then [] else [Step(Run(ttl, before), ttl, e).1]
  }

  function WithoutTicks(log: seq<Event>): seq<Event> {
    if log == [] then []
    else
      var e := log[|log| - 1];
      WithoutTicks(log[..|log| - 1]) + if e.Tick? then [] else [e]
  }

  // --------------------------------------------- sweeps change no answer

  /** Both tables hold the same sessions, up to what has expired. */
  ghost predicate SameLive(a: Table, b: Table, now: Time) {
    forall id ::
      && (id in a && !Expired(a[id], now) ==> id in b && b[id] == a[id])
      && (id in b && !Expired(b[id], now) ==> id in a && a[id] == b[id])
  }

  lemma SameLiveStep(a: Table, b: Table, ttl: int, e: Event)
    requires SameLive(a, b, e.at) && !e.Tick?
    ensures Step(a, ttl, e).1 == Step(b, ttl, e).1
    ensures SameLive(Step(a, ttl, e).0, Step(b, ttl, e).0, e.at)
  {
  }

  lemma OneMore(ttl: int, log: seq<Event>, e: Event)
    ensures Run(ttl, log + [e]) == Step(Run(ttl, log), ttl, e).0
    ensures Answers(ttl, log + [e]) == Answers(ttl, log) + if e.Tick? then [] else [Step(Run(ttl, log), ttl, e).1]
  {
    hide Step;
    assert (log + [e])[..|log + [e]| - 1] == log;
  }

  ghost predicate Reached(log: seq<Event>, now: Time) {
    forall i | 0 <= i < |log| :: log[i].at <= now
  }

  /** Sweeping anywhere, and in any part, never changes whether a request is
      accepted or a revocation finds its session. */
  lemma {:induction false} TicksUnobservable(ttl: int, log: seq<Event>, now: Time)
    requires Ordered(log) && Reached(log, now)
    ensures SameLive(Run(ttl, log), Run(ttl, WithoutTicks(log)), now)
    ensures Answers(ttl, log) == Answers(ttl, WithoutTicks(log))
  {
    hide Step, SameLive;
    if log == [] {
      LiveLater(map[], map[], now, now);
    } else {
      var before, e := log[..|log| - 1], log[|log| - 1];
      var kept := WithoutTicks(before);
      TicksUnobservable(ttl, before, e.at);
      assert log == before + [e];
      OneMore(ttl, before, e);
      if e.Tick? {
        assert WithoutTicks(log) == kept;
        TickKeepsLive(Run(ttl, before), Run(ttl, kept), ttl, e);
      } else {
        assert WithoutTicks(log) == kept + [e];
        OneMore(ttl, kept, e);
        SameLiveStep(Run(ttl, before), Run(ttl, kept), ttl, e);
      }
      LiveLater(Run(ttl, log), Run(ttl, WithoutTicks(log)), e.at, now);
    }
  }

  lemma LiveLater(a: Table, b: Table, now: Time, later: Time)
    requires (SameLive(a, b, now) || a == b) && now <= later
    ensures SameLive(a, b, later)
  {
  }

  lemma TickKeepsLive(a: Table, b: Table, ttl: int, e: Event)
    requires SameLive(a, b, e.at) && e.Tick? && e.seen <= e.at
    ensures SameLive(Step(a, ttl, e).0, b, e.at)
  {
  }

  /** A listing of all sessions, in contrast, does see the sweep: an expired
      session is listed until a tick takes it away. */
  lemma ListingsSeeTicks(ttl: nat, user: User, at: Time)
    ensures var log := [Login(at, at, "s", user, "", ""), Tick(at + ttl + 1, at + ttl + 1, {"s"})];
            Ordered(log) && "s" !in Run(ttl, log) && "s" in Run(ttl, WithoutTicks(log))
  {
    var log := [Login(at, at, "s", user, "", ""), Tick(at + ttl + 1, at + ttl + 1, {"s"})];
    assert log[..1] == [log[0]];
    assert WithoutTicks([log[0]]) == [log[0]];
  }

  // ----------------------------------------- alive means used in time

  /** When `id` was logged in and then used, unless revoked since. */
  function Uses(log: seq<Event>, id: string): Option<seq<Time>> {
    if log == [] then None
    else
      var before, e := Uses(log[..|log| - 1], id), log[|log| - 1];
      if e.Tick? || e.id != id then before
      else
        match e
        case Login(at, _, _, _, _, _) => Some([at])
        case Request(at, _) => if before.Some? then Some(before.value + [at]) else None
        case Revocation(_, _) => None
  }

  ghost predicate GapsWithin(times: seq<Time>, ttl: int) {
    forall i | 0 <= i < |times| - 1 :: times[i + 1] - times[i] <= ttl
  }

  /** The session was used often enough to be alive at `t`. */
  ghost predicate KeptAlive(log: seq<Event>, ttl: int, id: string, t: Time) {
    var uses := Uses(log, id);
    uses.Some? && GapsWithin(uses.value + [t], ttl)
  }

  lemma GapsExtend(times: seq<Time>, at: Time, t: Time, ttl: int)
    ensures GapsWithin(times + [at] + [t], ttl) <==> GapsWithin(times + [at], ttl) && t - at <= ttl
  {
    var longer := times + [at] + [t];
    if GapsWithin(longer, ttl) {
      assert longer[|times| + 1] - longer[|times|] <= ttl;
      forall i | 0 <= i < |times|
        ensures (times + [at])[i + 1] - (times + [at])[i] <= ttl
      {
        assert longer[i + 1] - longer[i] <= ttl;
      }
    } else if GapsWithin(times + [at], ttl) && t - at <= ttl {
      forall i | 0 <= i < |longer| - 1
        ensures longer[i + 1] - longer[i] <= ttl
      {
        assert i < |times| ==> (times + [at])[i + 1] - (times + [at])[i] <= ttl;
      }
    }
  }

  predicate Serves(m: Table, id: string, t: Time) {
    Get(m, id, t).1.Some?
  }

  /** A session answers at `t` exactly when it was logged in, not revoked
      since, and no gap in its uses up to `t` is longer than the lifetime. */
  lemma {:induction false} AliveIffKeptAlive(ttl: int, log: seq<Event>, id: string, t: Time)
    requires Ordered(log) && Reached(log, t)
    ensures Serves(Run(ttl, log), id, t) <==> KeptAlive(log, ttl, id, t)
  {
    hide Step, GapsWithin;
    if log != [] {
      var before, e := log[..|log| - 1], log[|log| - 1];
      AliveIffKeptAlive(ttl, before, id, t);
      AliveIffKeptAlive(ttl, before, id, e.at);
      if e.Tick? || e.id != id {
        OthersKeepServing(Run(ttl, before), ttl, e, id, t);
      } else {
        OwnEvent(Run(ttl, before), ttl, e, t);
        if e.Login? {
          GapsExtend([], e.at, t, ttl);
          assert [] + [e.at] + [t] == [e.at] + [t];
          LoneGap(e.at, ttl);
        } else if e.Request? && Uses(before, id).Some? {
          GapsExtend(Uses(before, id).value, e.at, t, ttl);
        }
      }
    }
  }

  // ------------------------------------------------- what callers are told

  /** A sweep takes exactly those it comes to that were expired when it read the clock. */
  lemma TickTakes(m: Table, ttl: int, e: Event)
    requires e.Tick?
    ensures var m' := Step(m, ttl, e).0;
            && (forall id :: id in m' <==> id in m && !(id in e.ids && e.seen > m[id].expiresAt))
            && forall id | id in m' :: m'[id] == m[id]
  {
  }

  /** What a login stores, and what a use changes of it. */
  lemma LoginStores(m: Table, ttl: int, e: Event, later: Time)
    requires e.Login?
    ensures var m' := Step(m, ttl, e).0;
            && m'.Keys == m.Keys + {e.id} && (forall id | id in m && id != e.id :: m'[id] == m[id])
            && var s := m'[e.id];
               && s.id == e.id && s.user == e.user && s.ip == e.ip && s.userAgent == e.userAgent
               && s.createdAt == s.lastSeen == e.at && s.expiresAt == e.at + ttl
    ensures var m' := Step(m, ttl, e).0;
            later <= e.at + ttl ==>
              Step(m', ttl, Request(later, e.id)) ==
              (m'[e.id := m'[e.id].(lastSeen := later, expiresAt := later + ttl)], true)
  {
  }

  /** The answer to the event at `k`. */
  function AnswerAt(ttl: int, log: seq<Event>, k: nat): bool
    requires k < |log|
  {
    Step(Run(ttl, log[..k]), ttl, log[k]).1
  }

  /** In every run, a request is let through, and a revocation finds its
      session, exactly when the session was kept alive until then. */
  lemma AnsweredIffKeptAlive(ttl: int, log: seq<Event>, k: nat)
    requires Ordered(log) && k < |log| && (log[k].Request? || log[k].Revocation?)
    ensures AnswerAt(ttl, log, k) <==> KeptAlive(log[..k], ttl, log[k].id, log[k].at)
  {
    hide Run, KeptAlive;
    AliveIffKeptAlive(ttl, log[..k], log[k].id, log[k].at);
  }

  /** Without ticks, these are the answers in order. */
  lemma {:induction false} AnswersInOrder(ttl: int, log: seq<Event>)
    requires forall e | e in log :: !e.Tick?
    ensures |Answers(ttl, log)| == |log|
    ensures forall k | 0 <= k < |log| :: Answers(ttl, log)[k] == AnswerAt(ttl, log, k)
    ensures forall k | 0 <= k < |log| && log[k].Login? :: Answers(ttl, log)[k]
  {
    hide Run;
    if log != [] {
      var before := log[..|log| - 1];
      AnswersInOrder(ttl, before);
      assert forall k | 0 <= k < |before| :: before[..k] == log[..k];
    }
  }

  lemma LoneGap(at: Time, ttl: int)
    ensures GapsWithin([] + [at], ttl)
  {
  }

  lemma OthersKeepServing(m: Table, ttl: int, e: Event, id: string, t: Time)
    requires e.at <= t && (if e.Tick? then e.seen <= e.at else e.id != id)
    ensures Serves(Step(m, ttl, e).0, id, t) == Serves(m, id, t)
  {
  }

  lemma OwnEvent(m: Table, ttl: int, e: Event, t: Time)
    requires e.at <= t && !e.Tick?
    ensures var m' := Step(m, ttl, e).0;
            match e
            case Login(at, _, id, _, _, _) => Serves(m', id, t) <==> t - at <= ttl
            case Request(at, id) => Serves(m', id, t) <==> Serves(m, id, at) && t - at <= ttl
            case Revocation(_, id) => !Serves(m', id, t)
  {
  }

  // -------------------------------------------------------------- tokens

  /** `exp` counts whole seconds, rounded down. */
  function TokenExpiry(signed: Time): int {
    (signed + TOKEN_LIFETIME) / SECOND
  }

  /** The token of a session stops being valid at its `exp`. */
  predicate Unexpired(signed: Time, t: Time) {
    t < TokenExpiry(signed) * SECOND
  }

  /** When the token of `id` was signed; each session id is a fresh UUID. */
  function SignedAt(log: seq<Event>, id: string): Option<Time> {
    if log == [] then None
    else
      var e := log[|log| - 1];
      if e.Login? && e.id == id then Some(e.signed) else SignedAt(log[..|log| - 1], id)
  }

  ghost predicate FreshIds(log: seq<Event>) {
    forall i, j | 0 <= i < j < |log| && log[i].Login? && log[j].Login? :: log[i].id != log[j].id
  }

  /** The bearer middleware: the token first, the session second. */
  function Bearer(m: Table, ttl: int, id: string, signed: Time, now: Time): (Table, bool) {
    if Unexpired(signed, now) then Authenticate(m, ttl, id, now) else (m, false)
  }

  /** A token is let through exactly before its expiry and while its session is
      stored and not past its own; only then the session is extended. */
  lemma BearerMeaning(m: Table, ttl: int, id: string, signed: Time, now: Time)
    ensures var (m', ok) := Bearer(m, ttl, id, signed, now);
            && (ok <==> now < (signed + 24 * HOUR) / SECOND * SECOND && id in m && now <= m[id].expiresAt)
            && (ok ==> m' == m[id := m[id].(lastSeen := now, expiresAt := now + ttl)])
            && (!ok ==> m'.Keys <= m.Keys && (forall k | k in m' :: m'[k] == m[k])
                        && (forall k | k in m && k !in m' :: k == id && now > m[k].expiresAt))
  {
  }

  /** What the middleware tells the bearer of the token of `id` at `t`, after a
      log whose requests are those that got past the token. */
  ghost predicate Accepted(ttl: int, log: seq<Event>, id: string, t: Time) {
    var signed := SignedAt(log, id);
    signed.Some? && Bearer(Run(ttl, log), ttl, id, signed.value, t).1
  }

  ghost predicate LoggedInAt(log: seq<Event>, id: string, k: nat) {
    k < |log| && log[k].Login? && log[k].id == id
  }

  ghost predicate Revoked(log: seq<Event>, id: string) {
    exists i | 0 <= i < |log| :: log[i] == Revocation(log[i].at, id)
  }

  /** No revocation comes before the login: the id is still to be drawn. */
  ghost predicate RevokedAfterLogin(log: seq<Event>, id: string, k: nat) {
    forall i | 0 <= i < |log| && log[i].Revocation? && log[i].id == id :: i > k
  }

  lemma {:induction false} LoginSigns(log: seq<Event>, id: string, k: nat)
    requires FreshIds(log) && LoggedInAt(log, id, k)
    ensures SignedAt(log, id) == Some(log[k].signed)
  {
    if k < |log| - 1 {
      LoginSigns(log[..|log| - 1], id, k);
    }
  }

  /** The uses of a session run from its login on, in order. */
  lemma {:induction false} UsesOfLogin(log: seq<Event>, id: string, k: nat)
    requires Ordered(log) && FreshIds(log) && LoggedInAt(log, id, k) && RevokedAfterLogin(log, id, k)
    ensures Uses(log, id).None? <==> Revoked(log, id)
    ensures var uses := Uses(log, id);
            uses.Some? ==>
              && |uses.value| > 0 && uses.value[0] == log[k].at && SortedTimes(uses.value)
              && uses.value[|uses.value| - 1] <= log[|log| - 1].at
  {
    var before, e := log[..|log| - 1], log[|log| - 1];
    if k < |log| - 1 {
      UsesOfLogin(before, id, k);
      assert Revoked(log, id) <==> Revoked(before, id) || e == Revocation(e.at, id) by {
        assert forall i | 0 <= i < |before| :: before[i] == log[i];
      }
    }
  }

  /** When the sliding lifetime cannot cut a token short: the last instant the
      token is valid is no later than a session never used would live. */
  predicate SessionOutlivesToken(e: Event)
    requires e.Login?
  {
    TokenExpiry(e.signed) * SECOND - 1 <= e.at + SESSION_TTL
  }

  lemma OneClockReadSuffices(e: Event)
    requires e.Login? && e.signed == e.at
    ensures SessionOutlivesToken(e)
  {
  }

  lemma ShortGaps(times: seq<Time>, t: Time, span: int)
    requires |times| > 0 && SortedTimes(times) && times[|times| - 1] <= t && t - times[0] <= span
    ensures GapsWithin(times + [t], span)
  {
    var longer := times + [t];
    forall i | 0 <= i < |longer| - 1
      ensures longer[i + 1] - longer[i] <= span
    {
      assert times[0] <= longer[i] && longer[i + 1] <= t;
    }
  }

  /** With both lifetimes at 24 hours the middleware accepts a token at `t`
      exactly when `t` is before its expiry and its session was not revoked. */
  lemma BearerAcceptsIff(log: seq<Event>, id: string, k: nat, t: Time)
    requires Ordered(log) && Reached(log, t) && FreshIds(log)
    requires LoggedInAt(log, id, k) && RevokedAfterLogin(log, id, k) && SessionOutlivesToken(log[k])
    ensures Accepted(SESSION_TTL, log, id, t) <==>
              t < (log[k].signed + 24 * HOUR) / SECOND * SECOND && !Revoked(log, id)
  {
    hide Run, Uses, GapsWithin, SortedTimes;
    LoginSigns(log, id, k);
    UsesOfLogin(log, id, k);
    AliveIffKeptAlive(SESSION_TTL, log, id, t);
    var uses := Uses(log, id);
    if Unexpired(log[k].signed, t) && uses.Some? {
      ShortGaps(uses.value, t, SESSION_TTL);
    }
  }

  /** That condition is exact: without it, an unexpired token of a session
      that was just never used is refused. */
  lemma LateSignatureIsRefused(e: Event)
    requires e.Login? && !SessionOutlivesToken(e)
    ensures var t := e.at + SESSION_TTL + 1;
            Unexpired(e.signed, t) && !Revoked([e], e.id) && !Accepted(SESSION_TTL, [e], e.id, t)
  {
    assert [e][..0] == [];
  }

  /** A revoked session is never accepted again, whatever the lifetimes. */
  lemma RevokedForever(ttl: int, log: seq<Event>, id: string, k: nat, t: Time)
    requires Ordered(log) && Reached(log, t) && FreshIds(log)
    requires LoggedInAt(log, id, k) && RevokedAfterLogin(log, id, k) && Revoked(log, id)
    ensures !Accepted(ttl, log, id, t)
  {
    hide Run;
    UsesOfLogin(log, id, k);
    AliveIffKeptAlive(ttl, log, id, t);
  }

  // ----------------------------------------------------- sessions per user

  /** How many of the sessions' users are this one. */
  function CountOf(list: seq<User>, userId: string): nat {
    if list == [] then 0
    else CountOf(list[..|list| - 1], userId) + if list[|list| - 1].id == userId then 1 else 0
  }

  ghost function OneOf(users: set<string>): (u: string)
    requires users != {}
    ensures u in users
  {
    var u :| u in users; u
  }

  ghost function CountsOver(list: seq<User>, users: set<string>): nat {
    if users == {} then 0
    else
      var u := OneOf(users);
      CountOf(list, u) + CountsOver(list, users - {u})
  }

  /** The sum of some counts, in whatever order they are added. */
  ghost function Total(counts: map<string, nat>, users: set<string>): nat
    requires users <= counts.Keys
  {
    if users == {} then 0
    else
      var u := OneOf(users);
      counts[u] + Total(counts, users - {u})
  }

  lemma {:induction false} TotalOfCounts(counts: map<string, nat>, list: seq<User>, users: set<string>)
    requires users <= counts.Keys && forall u | u in users :: counts[u] == CountOf(list, u)
    ensures Total(counts, users) == CountsOver(list, users)
  {
    if users != {} {
      TotalOfCounts(counts, list, users - {OneOf(users)});
    }
  }

  lemma {:induction false} OneMoreCounted(list: seq<User>, users: set<string>)
    requires list != []
    ensures var s := list[|list| - 1];
            CountsOver(list, users) == CountsOver(list[..|list| - 1], users) + if s.id in users then 1 else 0
  {
    if users != {} {
      var u := OneOf(users);
      OneMoreCounted(list, users - {u});
    }
  }

  /** The counts per user add up to the number of sessions. */
  lemma {:induction false} CountsAddUp(list: seq<User>, users: set<string>)
    requires forall s | s in list :: s.id in users
    ensures CountsOver(list, users) == |list|
  {
    if list == [] {
      NothingCounted(users);
    } else {
      assert list[|list| - 1] in list;
      CountsAddUp(list[..|list| - 1], users);
      OneMoreCounted(list, users);
    }
  }

  lemma {:induction false} NothingCounted(users: set<string>)
    ensures CountsOver([], users) == 0
  {
    if users != {} {
      var u := OneOf(users);
      NothingCounted(users - {u});
    }
  }
}
