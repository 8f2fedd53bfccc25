/** The `/api/…` routes: API accounts.  `signup`, `check_token` and `delete`
    sit behind the "X-Misato-Token" guard (`api` is the API user that guard
    resolved); `login` and `clear_tokens` take no guard at all. */
module ApiAccount {
  import opened Collection
  import opened Security
  import opened Tokens
  import opened ApiUserModel
  import A = ApiUserManagement
  import opened Db
  import opened Responses

  predicate Accepted(apiusers: seq<ApiUser>, username: string, password: string, isCorrect: (string, Password) -> bool)
  {
    var found := FindOne(apiusers, A.WithUsername(username));
    found.Some? && isCorrect(password, found.value.password)
  }

  /** `signup`: only an Admin caller holding a token may create an API
      account; an existing username is refused; otherwise the account is
      upserted, given a fresh day-long token (a failure of `set_token` is
      ignored) and returned. */
  method Signup(db: Database, api: ApiUser, username: string, hashed: Password,
                generatedUuid: string, generated: string, now: nat)
    returns (r: Response)
    requires IsGeneratedToken(generated)
    modifies db.apiusermanager
    ensures api.access.role != Admin || api.token.None? <==> r == Error(400, NoPermission)
    ensures r.Reply? || r == Error(400, NoPermission) || r == Error(400, UsernameTaken) || r == Error(500, DatabaseError)
    ensures !r.Reply? ==> db.apiusermanager.apiusers == old(db.apiusermanager.apiusers)
    ensures r == Error(400, UsernameTaken) ==>
      exists i :: 0 <= i < |old(db.apiusermanager.apiusers)| && old(db.apiusermanager.apiusers)[i].username == username
    ensures r.Reply? ==> api.access.role == Admin && api.token.Some?
    ensures r.Reply? ==>
      forall i :: 0 <= i < |old(db.apiusermanager.apiusers)| ==> old(db.apiusermanager.apiusers)[i].username != username
    ensures r.Reply? ==>
      var created := CreateApiUser(generatedUuid, username, hashed, now);
      var t := IssueToken(generated, now, TokenDuration);
      r.body == Account(username, generatedUuid, generated) &&
      (db.apiusermanager.apiusers == old(db.apiusermanager.apiusers) + [created] ||
       db.apiusermanager.apiusers == A.SetTokenIn(old(db.apiusermanager.apiusers) + [created], generatedUuid, t))
  {
    if api.access.role != Admin || api.token.None? {
      return Error(BadRequest, NoPermission);
    }
    var user := CreateApiUser(generatedUuid, username, hashed, now);
    var taken := db.apiusermanager.UsernameExists(user.username);
    if taken.Err? {
      return Error(InternalError, DatabaseError);
    }
    if taken.value {
      return Error(BadRequest, UsernameTaken);
    }
    ghost var before := db.apiusermanager.apiusers;
    assert forall j :: 0 <= j < |before| ==> !A.WithUsername(username)(before[j]);
    var created := db.apiusermanager.CreateApiUser(user);
    if created.Err? {
      return Error(InternalError, DatabaseError);
    }
    var issued := NewToken(user, generated, now, TokenDuration);
    user := issued.0;
    var token := issued.1;
    var _ := db.apiusermanager.SetToken(user.uuid, token);
    return Reply(Account(user.username, user.uuid, token.value));
  }

  /** `login`: by username only; on success the API user's single token is
      replaced by a fresh day-long one (a failure of `set_token` is
      ignored). */
  method Login(db: Database, username: string, password: string,
               isCorrect: (string, Password) -> bool, generated: string, now: nat)
    returns (r: Response)
    requires IsGeneratedToken(generated)
    modifies db.apiusermanager
    ensures r.Reply? || r == Error(400, AccountMissing) || r == Error(500, DatabaseError)
    ensures r.Reply? ==> Accepted(old(db.apiusermanager.apiusers), username, password, isCorrect)
    ensures Accepted(old(db.apiusermanager.apiusers), username, password, isCorrect) ==> r.Reply? || r == Error(500, DatabaseError)
    ensures r.Reply? ==>
      var u := FindOne(old(db.apiusermanager.apiusers), A.WithUsername(username)).value;
      var t := IssueToken(generated, now, TokenDuration);
      r.body == Account(u.username, u.uuid, generated) &&
      (db.apiusermanager.apiusers == old(db.apiusermanager.apiusers) ||
       db.apiusermanager.apiusers == A.SetTokenIn(old(db.apiusermanager.apiusers), u.uuid, t))
    ensures !r.Reply? ==> db.apiusermanager.apiusers == old(db.apiusermanager.apiusers)
  {
    var result := db.apiusermanager.GetApiUser(Some(username), None);
    if result.Err? {
      return Error(InternalError, DatabaseError);
    }
    var user := result.value;
    if user.Some? && isCorrect(password, user.value.password) {
      var issued := NewToken(user.value, generated, now, TokenDuration);
      var token := issued.1;
      var _ := db.apiusermanager.SetToken(issued.0.uuid, token);
      return Reply(Account(issued.0.username, issued.0.uuid, token.value));
    }
    return Error(BadRequest, AccountMissing);
  }

  /** `check_token`: only a Dev caller holding a token is served (an Admin is
      refused too); the caller's own token is resolved again. */
  method CheckToken(db: Database, api: ApiUser, now: nat) returns (r: Response)
    ensures api.access.role != Dev || api.token.None? <==> r == Error(400, NoPermission)
    ensures r.Reply? || r == Error(400, NoPermission) || r == Error(400, AccountMissing) || r == Error(500, DatabaseError)
    ensures r.Reply? ==>
      api.access.role == Dev && api.token.Some? &&
      var found := A.FindByLiveToken(db.apiusermanager.apiusers, api.token.value.value, now);
      found.Some? && r.body == Account(found.value.username, found.value.uuid, api.token.value.value)
    ensures r == Error(400, AccountMissing) ==>
      api.token.Some? && A.FindByLiveToken(db.apiusermanager.apiusers, api.token.value.value, now).None?
  {
    if api.access.role != Dev || api.token.None? {
      return Error(BadRequest, NoPermission);
    }
    var token := api.token.value.value;
    var result := db.apiusermanager.GetApiUserFromToken(token, now);
    if result.Err? {
      return Error(InternalError, DatabaseError);
    }
    if result.value.Some? {
      var user := result.value.value;
      return Reply(Account(user.username, user.uuid, token));
    }
    return Error(BadRequest, AccountMissing);
  }

  /** `delete`: removes the API user holding the caller's token while it is
      live; success exactly when one record was deleted. */
  method Delete(db: Database, api: ApiUser, now: nat) returns (r: Response)
    modifies db.apiusermanager
    ensures api.token.None? <==> r == Error(400, NoPermission)
    ensures r.Reply? || r == Error(400, NoPermission) || r == Error(400, AccountMissing) || r == Error(500, DatabaseError)
    ensures !r.Reply? ==> db.apiusermanager.apiusers == old(db.apiusermanager.apiusers)
    ensures r.Reply? ==>
      api.token.Some? && r.body == Message("account deleted.") &&
      (db.apiusermanager.apiusers, DeleteResult(1)) ==
        DeleteOne(old(db.apiusermanager.apiusers), A.HoldingLive(api.token.value.value, now))
    ensures r == Error(400, AccountMissing) ==>
      api.token.Some? && A.FindByLiveToken(old(db.apiusermanager.apiusers), api.token.value.value, now).None?
  {
    if api.token.None? {
      return Error(BadRequest, NoPermission);
    }
    var token := api.token.value.value;
    var result := db.apiusermanager.DeleteApiUserFromToken(token, now);
    if result.Err? {
      return Error(InternalError, DatabaseError);
    }
    if result.value.Some? && result.value.value.deletedCount >= 1 {
      return Reply(Message("account deleted."));
    }
    return Error(BadRequest, AccountMissing);
  }

  /** `clear_tokens`: no caller check; unsets the token of the API user
      holding the given live token; success exactly when one record was
      modified. */
  method ClearTokens(db: Database, token: string, now: nat) returns (r: Response)
    modifies db.apiusermanager
    ensures r.Reply? || r == Error(400, AccountMissing) || r == Error(500, DatabaseError)
    ensures !r.Reply? ==> db.apiusermanager.apiusers == old(db.apiusermanager.apiusers)
    ensures r.Reply? ==>
      r.body == Message("token removed.") &&
      (db.apiusermanager.apiusers, UpdateResult(1, 1)) ==
        UpdateOne(old(db.apiusermanager.apiusers), A.HoldingLive(token, now), A.TokenSetter(None))
    ensures r == Error(400, AccountMissing) ==> A.FindByLiveToken(old(db.apiusermanager.apiusers), token, now).None?
  {
    var result := db.apiusermanager.ClearTokensFromToken(token, now);
    if result.Err? {
      return Error(InternalError, DatabaseError);
    }
    if result.value.modifiedCount == 1 {
      return Reply(Message("token removed."));
    }
    return Error(BadRequest, AccountMissing);
  }
}
