/** The key table changed in place: the statements of
    backend/storage/api_keys.go, `validateAPIKey` of backend/auth/middleware.go
    and the guards of backend/handlers/api_keys.go, each tied to `ApiKeys`. */
module ApiKeyStore {
  import opened Accounts
  import opened ApiKeys
  import opened Basics

  class KeyTables {
    var users: map<string, Account>
    var keys: map<string, ApiKey>

    constructor ()
      ensures Rows() == KeyDb(map[], map[])
    {
      users, keys := map[], map[];
    }

    function Rows(): KeyDb
      reads this
    {
      KeyDb(users, keys)
    }

    // ------------------------------------------------------- statements

    method CreateAPIKey(key: ApiKey) returns (r: Result<()>)
      modifies this`keys
      ensures (Rows(), r) == Insert(old(Rows()), key)
    {
      var name := Column(key.name, TEXT_WIDTH);
      if name.None? {
        return Err(ValueRefused);
      }
      if key.id in keys || exists k | k in keys :: keys[k].hash == key.hash {
        return Err(KeyAlreadyExists);
      }
      if key.userId !in users {
        return Err(UserNotFound);
      }
      keys := keys[key.id := key.(name := name.value)];
      return Ok(());
    }

    method GetAPIKeyByHash(hash: Digest) returns (r: Option<ApiKey>)
      requires Consistent(Rows())
      ensures r.Some? <==> HasHash(keys, hash)
      ensures r.Some? ==> r.value.id in keys && keys[r.value.id] == r.value && r.value.hash == hash
    {
      if k :| k in keys && keys[k].hash == hash {
        return Some(keys[k]);
      }
      return None;
    }

    method RevokeAPIKey(id: string) returns (r: Result<()>)
      modifies this`keys
      ensures (Rows(), r) == MarkRevoked(old(Rows()), id)
    {
      if id !in keys {
        return Err(KeyNotFound);
      }
      keys := keys[id := keys[id].(revoked := true)];
      return Ok(());
    }

    method DeleteAPIKey(id: string) returns (r: Result<()>)
      modifies this`keys
      ensures (Rows(), r) == Remove(old(Rows()), id)
    {
      if id !in keys {
        return Err(KeyNotFound);
      }
      keys := keys - {id};
      return Ok(());
    }

    method UpdateAPIKeyLastUsed(id: string, now: Time)
      modifies this`keys
      ensures Rows() == MarkUsed(old(Rows()), id, now)
    {
      if id in keys {
        keys := keys[id := keys[id].(lastUsedAt := Some(now))];
      }
    }

    // ---------------------------------------------------- authentication

    /** The caller's last-used update comes later, on its own: it is the `Used`
        step of a run and no part of the answer. */
    method ValidateAPIKey(sha: string -> Digest, raw: string, now: Time) returns (r: Option<Caller>)
      requires Consistent(Rows())
      ensures r == Validate(Rows(), sha, raw, now)
      ensures r.Some? <==> "hg_v1_" <= raw
                           && exists k | k in keys ::
                                && keys[k].hash == sha(raw) && !keys[k].revoked
                                && (keys[k].expiresAt == None || now <= keys[k].expiresAt.value)
    {
      AcceptedKeyIff(Rows(), sha, raw, now);
      if !(PREFIX <= raw) {
        return None;
      }
      var key := GetAPIKeyByHash(sha(raw));
      if key.None? {
        return None;
      }
      OneKeyPerHash(Rows(), sha, raw, key.value.id, now);
      if key.value.revoked {
        return None;
      }
      if key.value.expiresAt.Some? && now > key.value.expiresAt.value {
        return None;
      }
      var user := users[key.value.userId];
      return Some(Caller(user.id, user.role, key.value.id));
    }

    // ----------------------------------------------------------- handlers

    method HandleCreate(caller: Caller, req: CreateKeyRequest, freshId: string, freshHash: Digest, now: Time)
        returns (status: int)
      modifies this`keys
      ensures (Rows(), status) == CreateKey(old(Rows()), caller, req, freshId, freshHash, now)
    {
      hide Insert, GoDays;
      if caller.apiKeyId != "" {
        return 403;
      }
      if caller.userId == "" {
        return 401;
      }
      if !req.parsed {
        return 400;
      }
      if req.name == "" {
        return 400;
      }
      var expiresAt := None;
      if req.expiresInDays.Some? {
        if req.expiresInDays.value <= 0 {
          return 400;
        }
        if req.expiresInDays.value > 36500 {
          return 400;
        }
        expiresAt := Some(now + GoDays(req.expiresInDays.value));
      }
      var key := ApiKey(freshId, caller.userId, req.name, freshHash, now, expiresAt, None, false, caller.userId);
      var r := CreateAPIKey(key);
      if r.Err? {
        return 500;
      }
      return 201;
    }

    method Guard(caller: Caller, keyId: string) returns (refused: Option<int>)
      ensures refused == Refusal(Rows(), caller, keyId)
    {
      if caller.apiKeyId != "" {
        return Some(403);
      }
      if keyId == "" {
        return Some(400);
      }
      if caller.userId == "" {
        return Some(401);
      }
      if keyId !in keys {
        return Some(404);
      }
      if keys[keyId].userId != caller.userId && caller.role != "admin" {
        return Some(403);
      }
      return None;
    }

    method HandleRevoke(caller: Caller, keyId: string) returns (status: int)
      modifies this`keys
      ensures (Rows(), status) == RevokeKey(old(Rows()), caller, keyId)
    {
      var refused := Guard(caller, keyId);
      if refused.Some? {
        return refused.value;
      }
      var r := RevokeAPIKey(keyId);
      return if r.Err? then 500 else 204;
    }

    method HandleDelete(caller: Caller, keyId: string) returns (status: int)
      modifies this`keys
      ensures (Rows(), status) == DeleteKey(old(Rows()), caller, keyId)
    {
      var refused := Guard(caller, keyId);
      if refused.Some? {
        return refused.value;
      }
      var r := DeleteAPIKey(keyId);
      return if r.Err? then 500 else 204;
    }

    /** Any of the three handlers: the table keeps what its schema promises, rows
        go, are revoked or one is added for the caller, and a caller with an
        API key changes nothing. */
    method Handle(caller: Caller, request: Request, freshId: string, freshHash: Digest, now: Time) returns (status: int)
      requires Consistent(Rows()) && freshId != ""
      modifies this`keys
      ensures Consistent(Rows()) && Follows(old(Rows()), Rows(), status, caller, freshId, freshHash)
      ensures (Rows(), status) == Answer(old(Rows()), caller, request, freshId, freshHash, now)
      ensures caller.apiKeyId != "" ==> status == 403 && Rows() == old(Rows())
    {
      hide Consistent, Follows, Insert, MarkRevoked, Remove;
      AnswerKeeps(Rows(), caller, request, freshId, freshHash, now);
      match request
      case Creation(req) => status := HandleCreate(caller, req, freshId, freshHash, now);
      case Revocation(keyId) => status := HandleRevoke(caller, keyId);
      case Deletion(keyId) => status := HandleDelete(caller, keyId);
    }
  }
}
