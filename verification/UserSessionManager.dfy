/** `UserSessionManager` of backend/auth/session_manager.go, with the bearer
    branch of backend/auth/middleware.go and the handlers of
    backend/handlers/user_session.go: session objects shared by reference,
    each method tied to module `UserSessions`. */
module UserSessionManager {
  import opened Basics
  import opened UserSessions

  class UserSession {
    const id: string
    const user: User
    const ip: string
    const userAgent: string
    const createdAt: Time
    var lastSeen: Time
    var expiresAt: Time

    constructor (id: string, user: User, ip: string, userAgent: string, now: Time, ttl: int)
      ensures this.id == id
      ensures Value() == SessionRecord(id, user, ip, userAgent, now, now, now + ttl)
    {
      this.id, this.user, this.ip, this.userAgent := id, user, ip, userAgent;
      createdAt, lastSeen, expiresAt := now, now, now + ttl;
    }

    ghost function Value(): SessionRecord
      reads this
    {
      SessionRecord(id, user, ip, userAgent, createdAt, lastSeen, expiresAt)
    }
  }

  class Manager {
    var sessions: map<string, UserSession>
    const ttl: int

    constructor (ttl: int)
      ensures Valid() && Contents() == map[] && this.ttl == ttl && sessions == map[]
    {
      sessions := map[];
      this.ttl := ttl;
    }

    /** Every session sits under its own id. */
    ghost predicate Valid()
      reads this
    {
      forall k | k in sessions :: sessions[k].id == k
    }

    static ghost function Parts(ss: map<string, UserSession>): set<UserSession> {
      set k | k in ss :: ss[k]
    }

    ghost function Contents(): Table
      reads this, Parts(sessions)
    {
      map k | k in sessions :: sessions[k].Value()
    }

    method Create(sessionId: string, user: User, ip: string, userAgent: string, now: Time) returns (sess: UserSession)
      requires Valid()
      modifies this
      ensures Valid() && fresh(sess) && sessions == old(sessions)[sessionId := sess]
      ensures Contents() == UserSessions.Create(old(Contents()), ttl, sessionId, user, ip, userAgent, now)
    {
      sess := new UserSession(sessionId, user, ip, userAgent, now, ttl);
      sessions := sessions[sessionId := sess];
    }

    method Get(sessionId: string, now: Time) returns (found: Option<UserSession>)
      requires Valid()
      modifies this
      ensures Valid() && sessions.Keys <= old(sessions.Keys)
      ensures forall k | k in sessions :: sessions[k] == old(sessions)[k]
      ensures (Contents(), found.Some?) == (UserSessions.Get(old(Contents()), sessionId, now).0,
                                            UserSessions.Get(old(Contents()), sessionId, now).1.Some?)
      ensures found.Some? ==> sessionId in sessions && sessions[sessionId] == found.value
    {
      if sessionId !in sessions {
        return None;
      }
      var sess := sessions[sessionId];
      if now > sess.expiresAt {
        sessions := sessions - {sessionId};
        assert Contents() == old(Contents()) - {sessionId};
        return None;
      }
      return Some(sess);
    }

    method UpdateLastSeen(sessionId: string, now: Time)
      requires Valid()
      modifies if sessionId in sessions then {sessions[sessionId]} else {}
      ensures Valid()
      ensures Contents() == UserSessions.UpdateLastSeen(old(Contents()), ttl, sessionId, now)
    {
      if sessionId in sessions {
        var sess := sessions[sessionId];
        sess.lastSeen := now;
        sess.expiresAt := now + ttl;
      }
    }

    method Delete(sessionId: string)
      requires Valid()
      modifies this
      ensures Valid() && sessions == old(sessions) - {sessionId}
      ensures Contents() == old(Contents()) - {sessionId}
    {
      sessions := sessions - {sessionId};
    }

    /** The range of one tick of `cleanupLoop`. */
    method Cleanup(now: Time)
      requires Valid()
      modifies this
      ensures Valid() && forall k | k in sessions :: k in old(sessions) && sessions[k] == old(sessions)[k]
      ensures Contents() == Sweep(old(Contents()), old(sessions.Keys), now)
    {
      var todo := sessions.Keys;
      ghost var all := sessions;
      while todo != {}
        invariant todo <= all.Keys
        invariant forall k :: k in sessions <==> k in all && (k in todo || !(now > all[k].expiresAt))
        invariant forall k | k in sessions :: sessions[k] == all[k]
        decreases |todo|
      {
        var key :| key in todo;
        var sess := sessions[key];
        if now > sess.expiresAt {
          sessions := sessions - {key};
        }
        todo := todo - {key};
      }
    }

    /** Every stored session once, expired or not, in whatever order. */
    method ListAll() returns (result: seq<UserSession>)
      requires Valid()
      ensures forall sess :: sess in result <==> sess in Parts(sessions)
      ensures forall i, j | 0 <= i < j < |result| :: result[i] != result[j]
      ensures |result| == |sessions|
    {
      result := [];
      var todo := sessions.Keys;
      while todo != {}
        invariant todo <= sessions.Keys
        invariant forall sess | sess in result :: sess.id in sessions && sess.id !in todo && sessions[sess.id] == sess
        invariant forall k | k in sessions && k !in todo :: sessions[k] in result
        invariant forall i, j | 0 <= i < j < |result| :: result[i] != result[j]
        invariant |result| + |todo| == |sessions|
        decreases |todo|
      {
        var key :| key in todo;
        result := result + [sessions[key]];
        todo := todo - {key};
      }
    }

    // -------------------------------------------------------- its callers

    /** The session part of the bearer branch, after the token is validated. */
    method Authenticate(sessionId: string, now: Time) returns (ok: bool)
      requires Valid()
      modifies this, Parts(sessions)
      ensures Valid()
      ensures (Contents(), ok) == UserSessions.Authenticate(old(Contents()), ttl, sessionId, now)
      ensures ok <==> sessionId in old(Contents()) && now <= old(Contents())[sessionId].expiresAt
    {
      var found := Get(sessionId, now);
      if found.Some? {
        UpdateLastSeen(sessionId, now);
        return true;
      }
      return false;
    }

    /** The bearer branch: an expired token is refused before its session is
        looked up, and so never extends it. */
    method Bearer(sessionId: string, signed: Time, now: Time) returns (ok: bool)
      requires Valid()
      modifies this, Parts(sessions)
      ensures Valid()
      ensures (Contents(), ok) == UserSessions.Bearer(old(Contents()), ttl, sessionId, signed, now)
      ensures ok <==> now < (signed + 24 * HOUR) / SECOND * SECOND
                      && sessionId in old(Contents()) && now <= old(Contents())[sessionId].expiresAt
    {
      BearerMeaning(Contents(), ttl, sessionId, signed, now);
      if now >= TokenExpiry(signed) * SECOND {
        return false;
      }
      ok := Authenticate(sessionId, now);
    }

    /** `ForceRevokeSession` and the body of `Logout`, past their guards. */
    method Revoke(sessionId: string, now: Time) returns (revoked: bool)
      requires Valid()
      modifies this
      ensures Valid()
      ensures (Contents(), revoked) == UserSessions.Revoke(old(Contents()), sessionId, now)
      ensures revoked <==> sessionId in old(Contents()) && now <= old(Contents())[sessionId].expiresAt
      ensures sessionId !in Contents()
    {
      var found := Get(sessionId, now);
      if found.None? {
        return false;
      }
      Delete(sessionId);
      return true;
    }
  }

  // ----------------------------------------------------------- statistics

  function UsersOf(list: seq<UserSession>): seq<User> {
    seq(|list|, i requires 0 <= i < |list| => list[i].user)
  }

  /** `u` is described as in the first of the sessions that are theirs. */
  ghost predicate Introduces(list: seq<User>, u: User) {
    exists i | 0 <= i < |list| :: list[i] == u && forall j | 0 <= j < i :: list[j].id != u.id
  }

  /** The loop of `GetSessionsStats`: the sessions of each user counted, and
      the user as the first of them has it. */
  method CountPerUser(sessions: seq<UserSession>) returns (counts: map<string, nat>, info: map<string, User>)
    ensures forall u :: u in counts <==> CountOf(UsersOf(sessions), u) > 0
    ensures forall u | u in counts :: counts[u] == CountOf(UsersOf(sessions), u)
    ensures info.Keys == counts.Keys
    ensures forall u | u in info :: info[u].id == u && Introduces(UsersOf(sessions), info[u])
  {
    hide Introduces;
    ghost var users := UsersOf(sessions);
    counts, info := map[], map[];
    for n := 0 to |sessions|
      invariant forall u :: u in counts <==> CountOf(users[..n], u) > 0
      invariant forall u | u in counts :: counts[u] == CountOf(users[..n], u)
      invariant info.Keys == counts.Keys
      invariant forall u | u in info :: info[u].id == u && Introduces(users[..n], info[u])
    {
      var user := sessions[n].user;
      assert users[..n + 1] == users[..n] + [user];
      Introduced(users[..n], user);
      OneMoreUser(users[..n], user);
      counts := counts[user.id := (if user.id in counts then counts[user.id] else 0) + 1];
      if user.id !in info {
        info := info[user.id := user];
      }
    }
    assert users[..|sessions|] == users;
  }

  lemma OneMoreUser(list: seq<User>, user: User)
    ensures forall u :: CountOf(list + [user], u) == CountOf(list, u) + if user.id == u then 1 else 0
  {
    assert (list + [user])[..|list + [user]| - 1] == list;
  }

  lemma Introduced(list: seq<User>, user: User)
    ensures forall u | Introduces(list, u) :: Introduces(list + [user], u)
    ensures CountOf(list, user.id) == 0 ==> Introduces(list + [user], user)
  {
    var longer := list + [user];
    forall u | Introduces(list, u)
      ensures Introduces(longer, u)
    {
      var i :| 0 <= i < |list| && list[i] == u && forall j | 0 <= j < i :: list[j].id != u.id;
      assert longer[i] == u;
    }
    if CountOf(list, user.id) == 0 {
      NotCounted(list, user.id);
      assert longer[|list|] == user;
    }
  }

  lemma {:induction false} NotCounted(list: seq<User>, userId: string)
    requires CountOf(list, userId) == 0
    ensures forall i | 0 <= i < |list| :: list[i].id != userId
  {
    if list != [] {
      NotCounted(list[..|list| - 1], userId);
    }
  }

  ghost function SessionsOf(all: set<UserSession>, userId: string): set<UserSession> {
    set sess | sess in all && sess.user.id == userId
  }

  ghost function Listed(list: seq<UserSession>): set<UserSession> {
    set sess | sess in list
  }

  lemma OneMoreListed(list: seq<UserSession>, sess: UserSession, userId: string)
    requires sess !in list
    ensures Listed(list + [sess]) == Listed(list) + {sess} && sess !in Listed(list)
    ensures |SessionsOf(Listed(list) + {sess}, userId)| == |SessionsOf(Listed(list), userId)|
        + if sess.user.id == userId then 1 else 0
  {
    var earlier := SessionsOf(Listed(list), userId);
    assert SessionsOf(Listed(list) + {sess}, userId) == if sess.user.id == userId then earlier + {sess} else earlier;
  }

  /** Among sessions listed once each, the count of a user is how many are theirs. */
  lemma {:induction false} CountIsSize(list: seq<UserSession>, userId: string)
    requires forall i, j | 0 <= i < j < |list| :: list[i] != list[j]
    ensures CountOf(UsersOf(list), userId) == |SessionsOf(Listed(list), userId)|
  {
    hide Listed, SessionsOf;
    if list == [] {
      NoneListed(userId);
    } else {
      var before, last := list[..|list| - 1], list[|list| - 1];
      CountIsSize(before, userId);
      assert UsersOf(list) == UsersOf(before) + [last.user];
      OneMoreUser(UsersOf(before), last.user);
      assert list == before + [last];
      OneMoreListed(before, last, userId);
    }
  }

  lemma NoneListed(userId: string)
    ensures SessionsOf(Listed([]), userId) == {}
  {
  }

  lemma SomeoneCounts(ss: map<string, UserSession>, userId: string)
    ensures |SessionsOf(Manager.Parts(ss), userId)| > 0 <==> exists k | k in ss :: ss[k].user.id == userId
  {
    if k :| k in ss && ss[k].user.id == userId {
      assert ss[k] in SessionsOf(Manager.Parts(ss), userId);
    }
  }

  /** What the counts over a full listing say of the stored sessions. */
  lemma CountsOfAll(ss: map<string, UserSession>, list: seq<UserSession>, counts: map<string, nat>)
    requires forall i, j | 0 <= i < j < |list| :: list[i] != list[j]
    requires Listed(list) == Manager.Parts(ss)
    requires forall u :: u in counts <==> CountOf(UsersOf(list), u) > 0
    requires forall u | u in counts :: counts[u] == CountOf(UsersOf(list), u)
    ensures forall u :: u in counts <==> exists k | k in ss :: ss[k].user.id == u
    ensures forall u | u in counts :: counts[u] == |SessionsOf(Manager.Parts(ss), u)|
    ensures Total(counts, counts.Keys) == |list|
  {
    hide CountOf, Listed, SessionsOf, Total;
    forall u
      ensures CountOf(UsersOf(list), u) == |SessionsOf(Manager.Parts(ss), u)|
      ensures CountOf(UsersOf(list), u) > 0 <==> exists k | k in ss :: ss[k].user.id == u
    {
      CountIsSize(list, u);
      SomeoneCounts(ss, u);
    }
    forall u | u in UsersOf(list)
      ensures u.id in counts.Keys
    {
      Counted(UsersOf(list), u);
    }
    CountsAddUp(UsersOf(list), counts.Keys);
    TotalOfCounts(counts, UsersOf(list), counts.Keys);
  }

  lemma IntroducedIsStored(ss: map<string, UserSession>, list: seq<UserSession>, u: User)
    requires Listed(list) == Manager.Parts(ss) && Introduces(UsersOf(list), u)
    ensures exists k | k in ss :: ss[k].user == u
  {
    var i :| 0 <= i < |list| && UsersOf(list)[i] == u;
    assert list[i] in Manager.Parts(ss);
  }

  /** `GetSessionsStats`: how many sessions are stored, how many each user has,
      and each user as one of those sessions has them; the counts add up. */
  method GetSessionsStats(m: Manager)
    returns (total: nat, users: nat, counts: map<string, nat>, info: map<string, User>)
    requires m.Valid()
    ensures total == |m.sessions| && users == |counts| && info.Keys == counts.Keys
    ensures forall u :: u in counts <==> exists k | k in m.sessions :: m.sessions[k].user.id == u
    ensures forall u | u in counts :: counts[u] == |SessionsOf(Manager.Parts(m.sessions), u)|
    ensures Total(counts, counts.Keys) == total
    ensures forall u | u in info :: info[u].id == u && exists k | k in m.sessions :: m.sessions[k].user == info[u]
  {
    hide CountOf, SessionsOf, Total, Introduces, UsersOf;
    var sessions := m.ListAll();
    assert Listed(sessions) == Manager.Parts(m.sessions);
    counts, info := CountPerUser(sessions);
    CountsOfAll(m.sessions, sessions, counts);
    forall u | u in info
      ensures exists k | k in m.sessions :: m.sessions[k].user == info[u]
    {
      IntroducedIsStored(m.sessions, sessions, info[u]);
    }
    total, users := |sessions|, |counts|;
  }

  lemma {:induction false} Counted(list: seq<User>, user: User)
    requires user in list
    ensures CountOf(list, user.id) > 0
  {
    if list[|list| - 1] != user {
      assert user in list[..|list| - 1];
      Counted(list[..|list| - 1], user);
    }
  }
}
