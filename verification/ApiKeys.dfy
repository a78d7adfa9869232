/** API keys: backend/storage/api_keys.go, `validateAPIKey` of
    backend/auth/middleware.go and the handlers of
    backend/handlers/api_keys.go as values, over whole runs. */
module ApiKeys {
  import opened Accounts
  import opened Basics

  /** SHA-256 in hexadecimal. */
  type Digest = s: string | |s| == 64 && '\0' !in s witness seq(64, _ => '0')

  datatype ApiKey = ApiKey(id: string, userId: string, name: string, hash: Digest, createdAt: Time,
                           expiresAt: Option<Time>, lastUsedAt: Option<Time>, revoked: bool, createdBy: string)

  /** Rows by primary key; deleting a user cascades to their keys. */
  datatype KeyDb = KeyDb(users: map<string, Account>, keys: map<string, ApiKey>)

  const PREFIX := "hg_v1_"

  // --------------------------------------------------------- constraints

  ghost predicate UniqueHashes(keys: map<string, ApiKey>) {
    forall a, b | a in keys && b in keys && keys[a].hash == keys[b].hash :: a == b
  }

  ghost predicate Consistent(db: KeyDb) {
    && (forall k | k in db.keys :: k != "" && db.keys[k].id == k && db.keys[k].userId in db.users)
    && (forall u | u in db.users :: db.users[u].id == u)
    && UniqueHashes(db.keys)
  }

  // ------------------------------------------------------------ statements

  predicate HasHash(keys: map<string, ApiKey>, hash: Digest) {
    exists k | k in keys :: keys[k].hash == hash
  }

  /** `CreateAPIKey`: a name the column takes, unique id and hash, an existing user. */
  function Insert(db: KeyDb, key: ApiKey): (KeyDb, Result<()>) {
    var name := Column(key.name, TEXT_WIDTH);
    if name.None? then (db, Err(ValueRefused))
    else if key.id in db.keys || HasHash(db.keys, key.hash) then (db, Err(KeyAlreadyExists))
    else if key.userId !in db.users then (db, Err(UserNotFound))
    else (db.(keys := db.keys[key.id := key.(name := name.value)]), Ok(()))
  }

  function MarkRevoked(db: KeyDb, id: string): (KeyDb, Result<()>) {
    if id !in db.keys then (db, Err(KeyNotFound))
    else (db.(keys := db.keys[id := db.keys[id].(revoked := true)]), Ok(()))
  }

  function Remove(db: KeyDb, id: string): (KeyDb, Result<()>) {
    if id !in db.keys then (db, Err(KeyNotFound)) else (db.(keys := db.keys - {id}), Ok(()))
  }

  function MarkUsed(db: KeyDb, id: string, now: Time): KeyDb {
    if id in db.keys then db.(keys := db.keys[id := db.keys[id].(lastUsedAt := Some(now))]) else db
  }

  function DropUser(db: KeyDb, userId: string): KeyDb {
    KeyDb(db.users - {userId}, map k | k in db.keys && db.keys[k].userId != userId :: db.keys[k])
  }

  // -------------------------------------------------------- authentication

  /** What the middleware leaves in the request's context. */
  datatype Caller = Caller(userId: string, role: string, apiKeyId: string)

  datatype Credential = XApiKey(raw: string) | BearerToken(userId: string, role: string)

  predicate Usable(key: ApiKey, now: Time) {
    !key.revoked && (key.expiresAt.Some? ==> now <= key.expiresAt.value)
  }

  /** `validateAPIKey`; `sha` is the hash of the raw key in hexadecimal. */
  ghost function Validate(db: KeyDb, sha: string -> Digest, raw: string, now: Time): Option<Caller> {
    if !(PREFIX <= raw) || !HasHash(db.keys, sha(raw)) then None
    else
      var k :| k in db.keys && db.keys[k].hash == sha(raw);
      var key := db.keys[k];
      if !Usable(key, now) || key.userId !in db.users then None
      else Some(Caller(key.userId, db.users[key.userId].role, key.id))
  }

  /** A key in the header takes precedence; a bearer token is taken as valid. */
  ghost function Identify(db: KeyDb, sha: string -> Digest, c: Credential, now: Time): Option<Caller> {
    match c
    case XApiKey(raw) => Validate(db, sha, raw, now)
    case BearerToken(userId, role) => Some(Caller(userId, role, ""))
  }

  // -------------------------------------------------------------- handlers

  datatype CreateKeyRequest = CreateKeyRequest(parsed: bool, name: string, expiresInDays: Option<int>)

  /** `time.Duration(days) * 24 * time.Hour`. */
  function GoDays(days: int): int {
    Wrap(Wrap(days * 24) * HOUR)
  }

  function CreateKey(db: KeyDb, caller: Caller, req: CreateKeyRequest, freshId: string, freshHash: Digest,
      now: Time): (KeyDb, int) {
    if caller.apiKeyId != "" then (db, 403)
    else if caller.userId == "" then (db, 401)
    else if !req.parsed || req.name == "" then (db, 400)
    else if req.expiresInDays.Some? && !(0 < req.expiresInDays.value <= 36500) then (db, 400)
    else
      var expiresAt := if req.expiresInDays.Some? then Some(now + GoDays(req.expiresInDays.value)) else None;
      var key := ApiKey(freshId, caller.userId, req.name, freshHash, now, expiresAt, None, false, caller.userId);
      var (db', r) := Insert(db, key);
      (db', if r.Ok? then 201 else 500)
  }

  /** The guards `RevokeAPIKey` and `DeleteAPIKey` share. */
  function Refusal(db: KeyDb, caller: Caller, keyId: string): Option<int> {
    if caller.apiKeyId != "" then Some(403)
    else if keyId == "" then Some(400)
    else if caller.userId == "" then Some(401)
    else if keyId !in db.keys then Some(404)
    else if db.keys[keyId].userId != caller.userId && caller.role != "admin" then Some(403)
    else None
  }

  function RevokeKey(db: KeyDb, caller: Caller, keyId: string): (KeyDb, int) {
    var refusal := Refusal(db, caller, keyId);
    if refusal.Some? then (db, refusal.value) else (MarkRevoked(db, keyId).0, 204)
  }

  function DeleteKey(db: KeyDb, caller: Caller, keyId: string): (KeyDb, int) {
    var refusal := Refusal(db, caller, keyId);
    if refusal.Some? then (db, refusal.value) else (Remove(db, keyId).0, 204)
  }

  // ----------------------------------------------------- expiry arithmetic

  /** The duration is exact precisely for 106751 days either way, wherever the
      wrap-around happens; `CreateAPIKey` accepts 1 to 36500. */
  lemma GoDaysExactIff(days: int)
    ensures GoDays(days) == days * DAY <==> -106751 <= days <= 106751
  {
    var q := (days * 24 + 0x8000_0000_0000_0000) / 0x1_0000_0000_0000_0000;
    assert Wrap(days * 24) == days * 24 - q * 0x1_0000_0000_0000_0000;
    assert Wrap(days * 24) * HOUR == days * DAY + (-q * HOUR) * 0x1_0000_0000_0000_0000;
    WrapDropsMultiples(days * DAY, -q * HOUR);
    WrapIsIdentityIff(days * DAY);
  }

  /** A key is created exactly when a person asks, names it so that the column
      takes the name, and gives no expiry or one of 1 to 36500 days; it then
      expires that many whole days later, and never before it was made. */
  lemma CreatedKey(db: KeyDb, caller: Caller, req: CreateKeyRequest, freshId: string, freshHash: Digest, now: Time)
    requires freshId !in db.keys && !HasHash(db.keys, freshHash)
    ensures var (db', status) := CreateKey(db, caller, req, freshId, freshHash, now);
            && (status == 201 <==>
                  && caller.apiKeyId == "" && caller.userId != "" && caller.userId in db.users
                  && req.parsed && req.name != "" && Column(req.name, TEXT_WIDTH).Some?
                  && (req.expiresInDays.Some? ==> 1 <= req.expiresInDays.value <= 36500))
            && (status == 403 <==> caller.apiKeyId != "")
            && (status == 401 <==> caller.apiKeyId == "" && caller.userId == "")
            && (status == 400 <==>
                  && caller.apiKeyId == "" && caller.userId != ""
                  && (!req.parsed || req.name == ""
                      || (req.expiresInDays.Some? && !(1 <= req.expiresInDays.value <= 36500))))
            && status in {201, 400, 401, 403, 500}
            && (status != 201 ==> db' == db)
            && (status == 201 ==>
                  && db'.users == db.users && db'.keys.Keys == db.keys.Keys + {freshId}
                  && (forall k | k in db.keys :: db'.keys[k] == db.keys[k])
                  && var key := db'.keys[freshId];
                  && key.userId == key.createdBy == caller.userId && key.hash == freshHash && !key.revoked
                  && Some(key.name) == Column(req.name, TEXT_WIDTH)
                  && key.expiresAt ==
                     (if req.expiresInDays.None? then None else Some(now + req.expiresInDays.value * DAY))
                  && (key.expiresAt.Some? ==> key.expiresAt.value > now))
  {
    hide GoDays;
    if req.expiresInDays.Some? {
      GoDaysExactIff(req.expiresInDays.value);
    }
  }

  // ------------------------------------------------------- authentication

  /** The one row of the hash decides: a key that is revoked, or past its
      expiry, is refused, and any other accepted as its owner. */
  lemma OneKeyPerHash(db: KeyDb, sha: string -> Digest, raw: string, k: string, now: Time)
    requires Consistent(db) && k in db.keys && db.keys[k].hash == sha(raw) && "hg_v1_" <= raw
    ensures Validate(db, sha, raw, now) ==
            var key := db.keys[k];
            if key.revoked || (key.expiresAt.Some? && now > key.expiresAt.value) then None
            else Some(Caller(key.userId, db.users[key.userId].role, k))
  {
  }

  /** A raw key is accepted exactly when it has the prefix and a row of its
      hash is not revoked and not past its expiry. */
  lemma AcceptedKeyIff(db: KeyDb, sha: string -> Digest, raw: string, now: Time)
    requires Consistent(db)
    ensures Validate(db, sha, raw, now).Some? <==>
              "hg_v1_" <= raw
              && exists k | k in db.keys ::
                   && db.keys[k].hash == sha(raw) && !db.keys[k].revoked
                   && (db.keys[k].expiresAt == None || now <= db.keys[k].expiresAt.value)
  {
  }

  /** Whom the shared guards let through, and what is then done: only a person
      changes a key, their own or, as an administrator, anybody's. */
  lemma ChangedKey(db: KeyDb, caller: Caller, keyId: string)
    ensures var (revoked, r) := RevokeKey(db, caller, keyId);
            var (deleted, d) := DeleteKey(db, caller, keyId);
            && r == d
            && (r == 204 <==>
                  && caller.apiKeyId == "" && caller.userId != "" && keyId != "" && keyId in db.keys
                  && (db.keys[keyId].userId == caller.userId || caller.role == "admin"))
            && (r == 404 <==> caller.apiKeyId == "" && caller.userId != "" && keyId != "" && keyId !in db.keys)
            && (r == 401 <==> caller.apiKeyId == "" && caller.userId == "" && keyId != "")
            && (r == 400 <==> caller.apiKeyId == "" && keyId == "") && r in {204, 400, 401, 403, 404}
            && (if r == 204 then
                  && deleted == KeyDb(db.users, db.keys - {keyId})
                  && revoked.users == db.users && revoked.keys.Keys == db.keys.Keys
                  && (forall k | k in db.keys && k != keyId :: revoked.keys[k] == db.keys[k])
                  && revoked.keys[keyId].revoked && revoked.keys[keyId].(revoked := false) ==
                                                    db.keys[keyId].(revoked := false)
                else revoked == db && deleted == db)
  {
  }

  /** No request with an API key ever changes the table of keys, valid or
      not, its own or another's, even as an administrator. */
  lemma KeysNeverManageKeys(db: KeyDb, sha: string -> Digest, raw: string, now: Time,
                            req: CreateKeyRequest, freshId: string, freshHash: Digest, keyId: string)
    requires Consistent(db)
    ensures var caller := Identify(db, sha, XApiKey(raw), now);
            caller.Some? ==>
              && CreateKey(db, caller.value, req, freshId, freshHash, now) == (db, 403)
              && RevokeKey(db, caller.value, keyId) == (db, 403)
              && DeleteKey(db, caller.value, keyId) == (db, 403)
  {
  }

  /** Using a key is remembered with it, and nowhere else. */
  lemma UsedKey(db: KeyDb, k: string, now: Time)
    ensures var db' := MarkUsed(db, k, now);
            && db'.users == db.users && db'.keys.Keys == db.keys.Keys
            && (forall j | j in db.keys && j != k :: db'.keys[j] == db.keys[j])
            && (k in db.keys ==> db'.keys[k].lastUsedAt == Some(now)
                                 && db'.keys[k].(lastUsedAt := None) == db.keys[k].(lastUsedAt := None))
  {
  }

  /** The statements fail exactly for a missing row, or for one that is not new,
      has no owner or no name the column takes. */
  lemma KeyStatements(db: KeyDb, key: ApiKey)
    ensures (MarkRevoked(db, key.id).1 == Ok(()) <==> key.id in db.keys)
            && (Remove(db, key.id).1 == Ok(()) <==> key.id in db.keys)
    ensures Insert(db, key).1 == Ok(()) <==>
              && key.id !in db.keys && (forall k | k in db.keys :: db.keys[k].hash != key.hash)
              && key.userId in db.users && Column(key.name, 255).Some?
  {
  }

  /** A name too long for the column passes every check of the handler and
      then fails in the table. */
  lemma LongNameFails(db: KeyDb, userId: string, role: string, freshId: string, freshHash: Digest, now: Time)
    requires userId != ""
    ensures var req := CreateKeyRequest(true, seq(256, _ => 'n'), None);
            CreateKey(db, Caller(userId, role, ""), req, freshId, freshHash, now) == (db, 500)
  {
    assert seq(256, _ => 'n')[255] == 'n';
  }

  // ------------------------------------------------------------------- runs

  datatype Request = Creation(req: CreateKeyRequest) | Revocation(keyId: string) | Deletion(keyId: string)

  /** A request between its authentication and its handler. */
  datatype Pending = Pending(credential: Credential, caller: Caller, request: Request)

  /** `drawn` holds every hash ever drawn, `makers` what each key was made with. */
  datatype State = State(db: KeyDb, drawn: set<Digest>, makers: map<string, Credential>, pending: map<nat, Pending>,
                         now: Time)

  /** A request arrives with a credential and is authenticated against the
      tables as they are; its handler may run much later, in a context that is
      by then out of date. */
  datatype Action =
    | Arrive(rid: nat, credential: Credential, request: Request)
    | Handle(rid: nat, freshId: string, freshHash: Digest)
    | Used(keyId: string)
    | Join(user: Account)
    | Leave(userId: string)
    | Edit(userId: string, name: string, role: string)
    | Pass(duration: nat)

  function Answer(db: KeyDb, caller: Caller, request: Request, freshId: string, freshHash: Digest,
                  now: Time): (KeyDb, int) {
    match request
    case Creation(req) => CreateKey(db, caller, req, freshId, freshHash, now)
    case Revocation(keyId) => RevokeKey(db, caller, keyId)
    case Deletion(keyId) => DeleteKey(db, caller, keyId)
  }

  ghost function Step(sha: string -> Digest, s: State, a: Action): State {
    match a
    case Arrive(rid, credential, request) =>
      var caller := Identify(s.db, sha, credential, s.now);
      if rid in s.pending || caller.None? then s
      else s.(pending := s.pending[rid := Pending(credential, caller.value, request)])
    case Handle(rid, freshId, freshHash) =>
      if rid !in s.pending || freshHash in s.drawn || freshId == "" then s // draws are fresh
      else
        var p := s.pending[rid];
        var (db, status) := Answer(s.db, p.caller, p.request, freshId, freshHash, s.now);
        State(db, s.drawn + {freshHash}, if status == 201 then s.makers[freshId := p.credential] else s.makers,
              s.pending - {rid}, s.now)
    case Used(keyId) => s.(db := MarkUsed(s.db, keyId, s.now))
    case Join(user) => s.(db := s.db.(users := CreateUser(Db(s.db.users, map[]), user).0.users))
    case Leave(userId) => s.(db := DropUser(s.db, userId))
    case Edit(userId, name, role) =>
      s.(db := s.db.(users := UpdateUser(Db(s.db.users, map[]), userId, name, role).0.users))
    case Pass(duration) => s.(now := s.now + duration)
  }

  ghost function Run(sha: string -> Digest, s: State, acts: seq<Action>): State {
    if acts == [] then s else Step(sha, Run(sha, s, acts[..|acts| - 1]), acts[|acts| - 1])
  }

  function Start(now: Time): State {
    State(KeyDb(map[], map[]), {}, map[], map[], now)
  }

  /** The context of a request says how it was authenticated. */
  ghost predicate Authenticated(p: Pending) {
    match p.credential
    case XApiKey(_) => p.caller.apiKeyId != ""
    case BearerToken(userId, role) => p.caller == Caller(userId, role, "")
  }

  /** Every stored key was made with a bearer token, by its owner. */
  ghost predicate Provenance(s: State) {
    && (forall k | k in s.db.keys ::
          && s.db.keys[k].hash in s.drawn
          && k in s.makers && s.makers[k].BearerToken?
          && s.makers[k].userId == s.db.keys[k].userId == s.db.keys[k].createdBy)
    && (forall rid | rid in s.pending :: Authenticated(s.pending[rid]))
  }

  lemma InsertKeeps(db: KeyDb, key: ApiKey)
    requires Consistent(db) && key.id != ""
    ensures Consistent(Insert(db, key).0)
    ensures Insert(db, key).1.Ok? ==>
              && key.id !in db.keys && Column(key.name, TEXT_WIDTH).Some?
              && Insert(db, key).0 == db.(keys := db.keys[key.id := key.(name := Column(key.name, TEXT_WIDTH).value)])
    ensures Insert(db, key).1.Err? ==> Insert(db, key).0 == db
  {
  }

  /** What a handler may do to the table: rows go, are revoked, or one is
      added, for the caller and not for a key. */
  ghost predicate Follows(db: KeyDb, db': KeyDb, status: int, caller: Caller, freshId: string, freshHash: Digest) {
    && db'.users == db.users
    && db'.keys.Keys <= db.keys.Keys + (if status == 201 then {freshId} else {})
    && (forall k | k in db'.keys && k in db.keys ::
          && db'.keys[k].hash == db.keys[k].hash && db'.keys[k].userId == db.keys[k].userId
          && db'.keys[k].createdBy == db.keys[k].createdBy && db'.keys[k].expiresAt == db.keys[k].expiresAt
          && (db.keys[k].revoked ==> db'.keys[k].revoked))
    && (status == 201 ==>
          && freshId !in db.keys && freshId in db'.keys && db'.keys[freshId].hash == freshHash
          && db'.keys[freshId].userId == caller.userId == db'.keys[freshId].createdBy && caller.apiKeyId == "")
  }

  lemma CreationFollows(db: KeyDb, caller: Caller, req: CreateKeyRequest, freshId: string, freshHash: Digest, now: Time)
    requires Consistent(db) && freshId != ""
    ensures var (db', status) := CreateKey(db, caller, req, freshId, freshHash, now);
            Consistent(db') && Follows(db, db', status, caller, freshId, freshHash)
  {
    hide GoDays, Insert, Column, Consistent;
    var days := if req.expiresInDays.Some? then req.expiresInDays.value else 0;
    var expiresAt := if req.expiresInDays.Some? then Some(now + GoDays(days)) else None;
    InsertKeeps(db, ApiKey(freshId, caller.userId, req.name, freshHash, now, expiresAt, None, false, caller.userId));
  }

  lemma ChangeFollows(db: KeyDb, caller: Caller, keyId: string, freshId: string, freshHash: Digest)
    requires Consistent(db)
    ensures var (db', status) := RevokeKey(db, caller, keyId);
            Consistent(db') && Follows(db, db', status, caller, freshId, freshHash)
    ensures var (db', status) := DeleteKey(db, caller, keyId);
            Consistent(db') && Follows(db, db', status, caller, freshId, freshHash)
  {
    hide RevokeKey, DeleteKey;
    ChangedKey(db, caller, keyId);
  }

  lemma AnswerKeeps(db: KeyDb, caller: Caller, request: Request, freshId: string, freshHash: Digest, now: Time)
    requires Consistent(db) && freshId != ""
    ensures var (db', status) := Answer(db, caller, request, freshId, freshHash, now);
            Consistent(db') && Follows(db, db', status, caller, freshId, freshHash)
  {
    hide CreateKey, RevokeKey, DeleteKey, Consistent, Follows;
    match request
    case Creation(req) => CreationFollows(db, caller, req, freshId, freshHash, now);
    case Revocation(keyId) => ChangeFollows(db, caller, keyId, freshId, freshHash);
    case Deletion(keyId) => ChangeFollows(db, caller, keyId, freshId, freshHash);
  }

  lemma IdentifyAuthenticates(db: KeyDb, sha: string -> Digest, c: Credential, request: Request, now: Time)
    requires Consistent(db) && Identify(db, sha, c, now).Some?
    ensures Authenticated(Pending(c, Identify(db, sha, c, now).value, request))
  {
  }

  lemma RequestStepKeeps(sha: string -> Digest, s: State, a: Action)
    requires Consistent(s.db) && Provenance(s) && (a.Arrive? || a.Handle?)
    ensures Consistent(Step(sha, s, a).db) && Provenance(Step(sha, s, a))
  {
    hide Answer, Consistent, Identify, Validate;
    if a.Arrive? {
      if Identify(s.db, sha, a.credential, s.now).Some? {
        IdentifyAuthenticates(s.db, sha, a.credential, a.request, s.now);
      }
    } else if a.rid in s.pending && a.freshId != "" {
      assert Authenticated(s.pending[a.rid]);
      AnswerKeeps(s.db, s.pending[a.rid].caller, s.pending[a.rid].request, a.freshId, a.freshHash, s.now);
    }
  }

  lemma OtherStepKeeps(sha: string -> Digest, s: State, a: Action)
    requires Consistent(s.db) && Provenance(s) && !a.Arrive? && !a.Handle?
    ensures Consistent(Step(sha, s, a).db) && Provenance(Step(sha, s, a))
  {
    hide Answer, Identify, Validate, Column, HasEmail, Authenticated;
  }

  lemma StartKeeps(now: Time)
    ensures Consistent(Start(now).db) && Provenance(Start(now))
  {
  }

  lemma {:induction false} RunKeeps(sha: string -> Digest, s: State, acts: seq<Action>)
    requires Consistent(s.db) && Provenance(s)
    ensures Consistent(Run(sha, s, acts).db) && Provenance(Run(sha, s, acts))
  {
    hide Step, Consistent, Provenance;
    if acts != [] {
      var before, a := Run(sha, s, acts[..|acts| - 1]), acts[|acts| - 1];
      RunKeeps(sha, s, acts[..|acts| - 1]);
      if a.Arrive? || a.Handle? {
        RequestStepKeeps(sha, before, a);
      } else {
        OtherStepKeeps(sha, before, a);
      }
    }
  }

  /** In every state of every run, every key in the table was made by a request
      that was authenticated by a bearer token, and belongs to its user. */
  lemma EveryKeyWasMadeByAPerson(sha: string -> Digest, now: Time, acts: seq<Action>, k: string)
    requires k in Run(sha, Start(now), acts).db.keys
    ensures var s := Run(sha, Start(now), acts);
            k in s.makers && s.makers[k].BearerToken? && s.makers[k].userId == s.db.keys[k].userId
  {
    hide Run, Consistent;
    StartKeeps(now);
    RunKeeps(sha, Start(now), acts);
  }

  /** In every state of every run, the handler of a request that came with an
      API key changes no row, whatever became of the key since. */
  lemma KeyRequestsChangeNothing(sha: string -> Digest, now: Time, acts: seq<Action>, rid: nat, freshId: string,
                                 freshHash: Digest)
    requires rid in Run(sha, Start(now), acts).pending && Run(sha, Start(now), acts).pending[rid].credential.XApiKey?
    ensures var s := Run(sha, Start(now), acts); Step(sha, s, Handle(rid, freshId, freshHash)).db == s.db
  {
    hide Run, Consistent, Insert, MarkRevoked, Remove;
    StartKeeps(now);
    RunKeeps(sha, Start(now), acts);
    assert Authenticated(Run(sha, Start(now), acts).pending[rid]);
  }

  /** No row, or one that is revoked or expired. */
  ghost predicate Dead(db: KeyDb, hash: Digest, now: Time) {
    forall k | k in db.keys && db.keys[k].hash == hash :: !Usable(db.keys[k], now)
  }

  lemma DeadStep(sha: string -> Digest, s: State, a: Action, hash: Digest)
    requires Dead(s.db, hash, s.now) && hash in s.drawn && Consistent(s.db)
    ensures Dead(Step(sha, s, a).db, hash, Step(sha, s, a).now) && hash in Step(sha, s, a).drawn
  {
    hide Answer, Identify, Validate, CreateUser, UpdateUser, Consistent;
    if a.Handle? && a.rid in s.pending && a.freshId != "" {
      AnswerKeeps(s.db, s.pending[a.rid].caller, s.pending[a.rid].request, a.freshId, a.freshHash, s.now);
    }
  }

  lemma {:induction false} DeadRun(sha: string -> Digest, s: State, acts: seq<Action>, hash: Digest)
    requires Dead(s.db, hash, s.now) && hash in s.drawn && Consistent(s.db) && Provenance(s)
    ensures var s' := Run(sha, s, acts); Dead(s'.db, hash, s'.now) && hash in s'.drawn
  {
    hide Step, Dead, Consistent, Provenance;
    if acts != [] {
      DeadRun(sha, s, acts[..|acts| - 1], hash);
      RunKeeps(sha, s, acts[..|acts| - 1]);
      DeadStep(sha, Run(sha, s, acts[..|acts| - 1]), acts[|acts| - 1], hash);
    }
  }

  /** A key that was ever drawn and is refused, for being revoked, expired,
      deleted or its owner being gone, is refused ever after. */
  lemma RefusedForever(start: Time, before: seq<Action>, sha: string -> Digest, raw: string, after: seq<Action>)
    requires var s := Run(sha, Start(start), before);
             sha(raw) in s.drawn && Validate(s.db, sha, raw, s.now).None?
    ensures var s' := Run(sha, Run(sha, Start(start), before), after);
            Validate(s'.db, sha, raw, s'.now).None?
  {
    hide Run, Consistent, Provenance, UniqueHashes;
    var s := Run(sha, Start(start), before);
    StartKeeps(start);
    RunKeeps(sha, Start(start), before);
    if PREFIX <= raw {
      forall k | k in s.db.keys && s.db.keys[k].hash == sha(raw)
        ensures !Usable(s.db.keys[k], s.now)
      {
        OneKeyPerHash(s.db, sha, raw, k, s.now);
      }
      DeadRun(sha, s, after, sha(raw));
    }
  }
}
