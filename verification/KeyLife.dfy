/** The life of an API key over whole runs: from the moment a row holds it until
    somebody ends it, and ever after. */
module KeyLife {
  import opened ApiKeys
  import opened Basics

  /** What ends the key: its owner is deleted, or a request with a bearer token
      of its owner, or of an administrator, to revoke or delete it is handled. */
  ghost predicate Ends(s: State, a: Action, k: string)
    requires k in s.db.keys
  {
    match a
    case Leave(userId) => userId == s.db.keys[k].userId
    case Handle(rid, freshId, freshHash) =>
      && rid in s.pending && freshHash !in s.drawn && freshId != ""
      && (s.pending[rid].request == Revocation(k) || s.pending[rid].request == Deletion(k))
      && var bearer := s.pending[rid].credential;
      && bearer.BearerToken? && bearer.userId != "" && (bearer.userId == s.db.keys[k].userId || bearer.role == "admin")
    case _ => false
  }

  /** Nothing in the run ends the key. */
  ghost predicate Survives(sha: string -> Digest, s: State, acts: seq<Action>, k: string) {
    acts != [] ==>
      && Survives(sha, s, acts[..|acts| - 1], k)
      && var before := Run(sha, s, acts[..|acts| - 1]);
         k in before.db.keys && !Ends(before, acts[|acts| - 1], k)
  }

  /** The row of the key, as far as it matters, and not revoked. */
  ghost predicate Holds(db: KeyDb, k: string, key: ApiKey) {
    && k in db.keys && !db.keys[k].revoked
    && db.keys[k].hash == key.hash && db.keys[k].userId == key.userId && db.keys[k].expiresAt == key.expiresAt
  }

  /** No row of the hash is good any more. */
  ghost predicate Ended(db: KeyDb, hash: Digest) {
    forall k | k in db.keys && db.keys[k].hash == hash :: db.keys[k].revoked
  }

  lemma HandledLife(sha: string -> Digest, s: State, a: Action, k: string)
    requires Consistent(s.db) && Provenance(s) && a.Handle? && k in s.db.keys && !s.db.keys[k].revoked
    ensures Ends(s, a, k) ==> Ended(Step(sha, s, a).db, s.db.keys[k].hash)
    ensures !Ends(s, a, k) ==> Holds(Step(sha, s, a).db, k, s.db.keys[k])
  {
    hide Consistent, CreateKey, RevokeKey, DeleteKey, UniqueHashes;
    if a.rid in s.pending && a.freshHash !in s.drawn && a.freshId != "" {
      var p := s.pending[a.rid];
      assert Authenticated(p);
      match p.request
      case Creation(req) => CreationHolds(s.db, p.caller, req, a.freshId, a.freshHash, s.now, k);
      case Revocation(keyId) =>
        ChangedKey(s.db, p.caller, keyId);
        OnlyRow(s.db, k);
      case Deletion(keyId) =>
        ChangedKey(s.db, p.caller, keyId);
        OnlyRow(s.db, k);
    }
  }

  lemma OnlyRow(db: KeyDb, k: string)
    requires Consistent(db) && k in db.keys
    ensures k != "" && forall j | j in db.keys && db.keys[j].hash == db.keys[k].hash :: j == k
  {
  }

  lemma CreationHolds(db: KeyDb, caller: Caller, req: CreateKeyRequest, freshId: string, freshHash: Digest, now: Time,
                      k: string)
    requires Consistent(db) && freshId != "" && k in db.keys && !db.keys[k].revoked
    ensures Holds(CreateKey(db, caller, req, freshId, freshHash, now).0, k, db.keys[k])
  {
    hide GoDays, Column;
  }

  lemma OtherLife(sha: string -> Digest, s: State, a: Action, k: string)
    requires Consistent(s.db) && !a.Handle? && k in s.db.keys && !s.db.keys[k].revoked
    ensures Ends(s, a, k) ==> Ended(Step(sha, s, a).db, s.db.keys[k].hash)
    ensures !Ends(s, a, k) ==> Holds(Step(sha, s, a).db, k, s.db.keys[k])
  {
    hide Identify, Validate, Accounts.CreateUser, Accounts.UpdateUser;
  }

  lemma EndedStep(sha: string -> Digest, s: State, a: Action, hash: Digest)
    requires Ended(s.db, hash) && hash in s.drawn && Consistent(s.db)
    ensures Ended(Step(sha, s, a).db, hash) && hash in Step(sha, s, a).drawn
  {
    hide Answer, Identify, Validate, Accounts.CreateUser, Accounts.UpdateUser, Consistent;
    if a.Handle? && a.rid in s.pending && a.freshId != "" {
      AnswerKeeps(s.db, s.pending[a.rid].caller, s.pending[a.rid].request, a.freshId, a.freshHash, s.now);
    }
  }

  lemma {:induction false} EndedRun(sha: string -> Digest, s: State, acts: seq<Action>, hash: Digest)
    requires Ended(s.db, hash) && hash in s.drawn && Consistent(s.db) && Provenance(s)
    ensures var s' := Run(sha, s, acts); Ended(s'.db, hash) && hash in s'.drawn
  {
    hide Step, Ended, Consistent, Provenance;
    if acts != [] {
      EndedRun(sha, s, acts[..|acts| - 1], hash);
      RunKeeps(sha, s, acts[..|acts| - 1]);
      EndedStep(sha, Run(sha, s, acts[..|acts| - 1]), acts[|acts| - 1], hash);
    }
  }

  lemma {:induction false} LifeRun(sha: string -> Digest, s: State, acts: seq<Action>, k: string)
    requires Consistent(s.db) && Provenance(s) && k in s.db.keys && !s.db.keys[k].revoked
    ensures Survives(sha, s, acts, k) ==> Holds(Run(sha, s, acts).db, k, s.db.keys[k])
    ensures !Survives(sha, s, acts, k) ==> Ended(Run(sha, s, acts).db, s.db.keys[k].hash)
    ensures s.db.keys[k].hash in Run(sha, s, acts).drawn
  {
    hide Step, Ended, Consistent, Ends;
    if acts != [] {
      var init, a := acts[..|acts| - 1], acts[|acts| - 1];
      var before := Run(sha, s, init);
      LifeRun(sha, s, init, k);
      RunKeeps(sha, s, init);
      if Survives(sha, s, init, k) {
        if a.Handle? {
          HandledLife(sha, before, a, k);
        } else {
          OtherLife(sha, before, a, k);
        }
        DrawnStays(sha, before, a, s.db.keys[k].hash);
      } else {
        EndedStep(sha, before, a, s.db.keys[k].hash);
      }
    }
  }

  lemma DrawnStays(sha: string -> Digest, s: State, a: Action, hash: Digest)
    requires hash in s.drawn
    ensures hash in Step(sha, s, a).drawn
  {
    hide Answer, Identify, Validate, Accounts.CreateUser, Accounts.UpdateUser;
  }

  /** From any state of any run in which a row holds the key unrevoked, and over
      any continuation: the raw key is accepted, as its owner, if and only if
      nothing has ended it and its expiry, if any, has not passed. */
  lemma KeyAcceptedIff(start: Time, before: seq<Action>, sha: string -> Digest, raw: string, k: string,
                       after: seq<Action>)
    requires var s := Run(sha, Start(start), before);
             k in s.db.keys && !s.db.keys[k].revoked && s.db.keys[k].hash == sha(raw) && "hg_v1_" <= raw
    ensures var s := Run(sha, Start(start), before);
            var s', key := Run(sha, s, after), s.db.keys[k];
            var caller := Validate(s'.db, sha, raw, s'.now);
            && (caller.Some? <==>
                  Survives(sha, s, after, k) && (key.expiresAt == None || s'.now <= key.expiresAt.value))
            && (caller.Some? ==> caller.value.userId == key.userId && caller.value.apiKeyId == k)
  {
    hide Run, Survives, Consistent, Provenance;
    var s := Run(sha, Start(start), before);
    var s' := Run(sha, s, after);
    StartKeeps(start);
    RunKeeps(sha, Start(start), before);
    RunKeeps(sha, s, after);
    LifeRun(sha, s, after, k);
    AcceptedKeyIff(s'.db, sha, raw, s'.now);
    if Survives(sha, s, after, k) {
      OneKeyPerHash(s'.db, sha, raw, k, s'.now);
    }
  }

  /** Once a request to revoke or delete a key was answered with 204, the raw
      key is refused in every state of every continuation. */
  lemma RefusedAfterRevocation(start: Time, before: seq<Action>, sha: string -> Digest, raw: string, k: string,
                               rid: nat, freshId: string, freshHash: Digest, after: seq<Action>)
    requires var s := Run(sha, Start(start), before);
             && k in s.db.keys && s.db.keys[k].hash == sha(raw)
             && rid in s.pending && (s.pending[rid].request == Revocation(k) || s.pending[rid].request == Deletion(k))
             && freshId != "" && freshHash !in s.drawn
             && Answer(s.db, s.pending[rid].caller, s.pending[rid].request, freshId, freshHash, s.now).1 == 204
    ensures var s := Run(sha, Start(start), before);
            var s' := Run(sha, Step(sha, s, Handle(rid, freshId, freshHash)), after);
            Validate(s'.db, sha, raw, s'.now) == None
  {
    hide Run, Consistent, Provenance;
    var s := Run(sha, Start(start), before);
    var s1 := Step(sha, s, Handle(rid, freshId, freshHash));
    var s' := Run(sha, s1, after);
    StartKeeps(start);
    RunKeeps(sha, Start(start), before);
    EndsIt(sha, s, k, rid, freshId, freshHash);
    RequestStepKeeps(sha, s, Handle(rid, freshId, freshHash));
    EndedRun(sha, s1, after, sha(raw));
    RunKeeps(sha, s1, after);
    AcceptedKeyIff(s'.db, sha, raw, s'.now);
  }

  lemma EndsIt(sha: string -> Digest, s: State, k: string, rid: nat, freshId: string, freshHash: Digest)
    requires Consistent(s.db) && Provenance(s) && k in s.db.keys && rid in s.pending
    requires s.pending[rid].request == Revocation(k) || s.pending[rid].request == Deletion(k)
    requires freshId != "" && freshHash !in s.drawn
    requires Answer(s.db, s.pending[rid].caller, s.pending[rid].request, freshId, freshHash, s.now).1 == 204
    ensures var s' := Step(sha, s, Handle(rid, freshId, freshHash));
            Ended(s'.db, s.db.keys[k].hash) && s.db.keys[k].hash in s'.drawn
  {
    hide Consistent, RevokeKey, DeleteKey, UniqueHashes;
    ChangedKey(s.db, s.pending[rid].caller, k);
    OnlyRow(s.db, k);
  }

  /** A key acts in the role its owner has at the moment. */
  lemma RoleFollowsOwner(sha: string -> Digest, s: State, raw: string, name: string, role: string)
    requires Consistent(s.db) && Validate(s.db, sha, raw, s.now).Some?
    requires role in {"user", "admin"} && Fits(name, 255)
    ensures var caller := Validate(s.db, sha, raw, s.now).value;
            var s' := Step(sha, s, Edit(caller.userId, name, role));
            && caller.userId in s'.db.users && s'.db.users[caller.userId].name == name
            && Validate(s'.db, sha, raw, s'.now) == Some(caller.(role := role))
  {
    AcceptedKeyIff(s.db, sha, raw, s.now);
    var k :| k in s.db.keys && s.db.keys[k].hash == sha(raw);
    OneKeyPerHash(s.db, sha, raw, k, s.now);
    var s' := Step(sha, s, Edit(s.db.keys[k].userId, name, role));
    assert Consistent(s'.db);
    OneKeyPerHash(s'.db, sha, raw, k, s'.now);
  }

  // -------------------------------------------------------- a whole life

  const OWNER := Accounts.Account("user-1", "ann@x.io", "Ann", "user", true, 0)

  /** A user joins, asks for a key, has it made, and later has it revoked. */
  function Making(hash: Digest): seq<Action> {
    [Join(OWNER), Arrive(1, BearerToken("user-1", "user"), Creation(CreateKeyRequest(true, "ci", None))),
     Handle(1, "key-1", hash)]
  }

  function Revoking(next: Digest): seq<Action> {
    [Arrive(2, BearerToken("user-1", "user"), Revocation("key-1")), Handle(2, "unused", next)]
  }

  lemma OneMore(sha: string -> Digest, s: State, acts: seq<Action>, a: Action)
    ensures Run(sha, s, acts + [a]) == Step(sha, Run(sha, s, acts), a)
  {
    hide Step;
    assert (acts + [a])[..|acts + [a]| - 1] == acts;
  }

  lemma MadeKey(sha: string -> Digest, hash: Digest)
    ensures var s := Run(sha, Start(0), Making(hash));
            && s.db.users == map["user-1" := OWNER] && s.now == 0 && s.pending == map[] && s.drawn == {hash}
            && s.db.keys == map["key-1" := ApiKey("key-1", "user-1", "ci", hash, 0, None, None, false, "user-1")]
  {
    var acts := Making(hash);
    assert [] + [acts[0]] == [acts[0]] && [acts[0]] + [acts[1]] + [acts[2]] == acts;
    OneMore(sha, Start(0), [], acts[0]);
    OneMore(sha, Start(0), [acts[0]], acts[1]);
    OneMore(sha, Start(0), [acts[0]] + [acts[1]], acts[2]);
    var s1 := Step(sha, Start(0), acts[0]);
    assert s1.db.users == map["user-1" := OWNER];
    var s2 := Step(sha, s1, acts[1]);
    assert s2.pending == map[1 := Pending(BearerToken("user-1", "user"), Caller("user-1", "user", ""),
                                          Creation(CreateKeyRequest(true, "ci", None)))];
  }

  /** The key works for its owner from then on, and not any more once revoked. */
  lemma OneLife(sha: string -> Digest, raw: string, next: Digest)
    requires "hg_v1_" <= raw && next != sha(raw)
    ensures var s := Run(sha, Start(0), Making(sha(raw)));
            var s' := Run(sha, s, Revoking(next));
            && Validate(s.db, sha, raw, s.now) == Some(Caller("user-1", "user", "key-1"))
            && Validate(s'.db, sha, raw, s'.now) == None
  {
    hide Making, Consistent;
    var s := Run(sha, Start(0), Making(sha(raw)));
    MadeKey(sha, sha(raw));
    StartKeeps(0);
    RunKeeps(sha, Start(0), Making(sha(raw)));
    OneKeyPerHash(s.db, sha, raw, "key-1", s.now);
    var acts := Revoking(next);
    assert [] + [acts[0]] == [acts[0]] && acts[..1] == [acts[0]];
    OneMore(sha, s, [], acts[0]);
    var s1 := Step(sha, s, acts[0]);
    assert 2 in s1.pending && s1.db == s.db;
    assert Ends(s1, acts[1], "key-1");
    KeyAcceptedIff(0, Making(sha(raw)), sha, raw, "key-1", acts);
  }
}
