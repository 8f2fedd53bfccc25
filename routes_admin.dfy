/** The `/admin/…` routes: human accounts, administered by an API user that
    the "X-Misato-API-Token" guard resolved (`api`).  Every handler turns a
    caller whose role is not Admin away before it asks the store anything. */
module AdminAccount {
  import opened Collection
  import opened Security
  import opened Tokens
  import opened ApiUserModel
  import opened UserModel
  import U = UserManagement
  import opened Db
  import opened Responses

  /** `signup`: refuses a username already in use, inserts the new user
      under the uuid it was created with, pushes one fresh day-long token
      (a failure of that push is ignored) and answers the token and the
      uuid. */
  method Signup(db: Database, api: ApiUser, username: string, hashed: Password,
                generatedUuid: string, generated: string, now: nat)
    returns (r: Response)
    requires IsGeneratedToken(generated)
    modifies db.usermanager
    ensures api.access.role != Admin <==> r == Error(400, NoPermission)
    ensures r.Reply? || r == Error(400, NoPermission) || r == Error(400, UsernameTaken) || r == Error(500, DatabaseError)
    ensures !r.Reply? ==> db.usermanager.users == old(db.usermanager.users)
    ensures r == Error(400, UsernameTaken) ==>
      exists i :: 0 <= i < |old(db.usermanager.users)| && old(db.usermanager.users)[i].username == username
    ensures r.Reply? ==> api.access.role == Admin
    ensures r.Reply? ==>
      forall i :: 0 <= i < |old(db.usermanager.users)| ==> old(db.usermanager.users)[i].username != username
    ensures r.Reply? ==>
      var created := CreateUser(username, hashed, None, generatedUuid);
      var t := IssueToken(generated, now, TokenDuration);
      r.body == TokenInfos(t, Some(generatedUuid)) &&
      (db.usermanager.users == old(db.usermanager.users) + [created] ||
       db.usermanager.users == U.SaveTokenIn(old(db.usermanager.users) + [created], generatedUuid, t))
  {
    if api.access.role != Admin {
      return Error(BadRequest, NoPermission);
    }
    var user := CreateUser(username, hashed, None, generatedUuid);
    var taken := db.usermanager.UsernameExists(user.username);
    if taken.Err? {
      return Error(InternalError, DatabaseError);
    }
    if taken.value {
      return Error(BadRequest, UsernameTaken);
    }
    var created := db.usermanager.CreateUser(user);
    if created.Err? {
      return Error(InternalError, DatabaseError);
    }
    var token := IssueToken(generated, now, TokenDuration);
    var _ := db.usermanager.SaveToken(user.uuid, token);
    return Reply(TokenInfos(token, Some(user.uuid)));
  }

  /** `profile`: the uuid and username of the first user with that uuid. */
  method Profile(db: Database, api: ApiUser, uuid: string) returns (r: Response)
    ensures api.access.role != Admin <==> r == Error(400, NoPermission)
    ensures r.Reply? || r == Error(400, NoPermission) || r == Error(400, AccountMissing) || r == Error(500, DatabaseError)
    ensures r.Reply? ==>
      var found := FindOne(db.usermanager.users, U.WithUuid(uuid));
      api.access.role == Admin && found.Some? &&
      found.value.uuid == uuid && r.body == UserProfile(uuid, found.value.username)
    ensures r == Error(400, AccountMissing) ==>
      forall i :: 0 <= i < |db.usermanager.users| ==> db.usermanager.users[i].uuid != uuid
  {
    if api.access.role != Admin {
      return Error(BadRequest, NoPermission);
    }
    var result := db.usermanager.GetUser(None, Some(uuid));
    if result.Err? {
      return Error(InternalError, DatabaseError);
    }
    if result.value.Some? {
      var user := result.value.value;
      return Reply(UserProfile(user.uuid, user.username));
    }
    return Error(BadRequest, AccountMissing);
  }

  /** `profile_from_token`: the uuid and username of the first user the
      token filter matches. */
  method ProfileFromToken(db: Database, api: ApiUser, token: string, now: nat) returns (r: Response)
    ensures api.access.role != Admin <==> r == Error(400, NoPermission)
    ensures r.Reply? || r == Error(400, NoPermission) || r == Error(400, TokenNotRelated) || r == Error(500, DatabaseError)
    ensures r.Reply? ==>
      var found := U.FindByToken(db.usermanager.users, token, now);
      api.access.role == Admin && found.Some? &&
      found.value.tokens.Some? && U.HasTokenValue(found.value.tokens.value, token) &&
      r.body == UserProfile(found.value.uuid, found.value.username)
    ensures r == Error(400, TokenNotRelated) ==> U.FindByToken(db.usermanager.users, token, now).None?
  {
    if api.access.role != Admin {
      return Error(BadRequest, NoPermission);
    }
    var result := db.usermanager.GetUserFromToken(token, now);
    if result.Err? {
      return Error(InternalError, DatabaseError);
    }
    if result.value.Some? {
      var user := result.value.value;
      return Reply(UserProfile(user.uuid, user.username));
    }
    return Error(BadRequest, TokenNotRelated);
  }

  /** `refresh_token`: pushes one more day-long token onto the first user
      with that uuid (earlier tokens stay; a failure of the push is ignored)
      and answers it. */
  method RefreshToken(db: Database, api: ApiUser, uuid: string, generated: string, now: nat)
    returns (r: Response)
    requires IsGeneratedToken(generated)
    modifies db.usermanager
    ensures api.access.role != Admin <==> r == Error(400, NoPermission)
    ensures r.Reply? || r == Error(400, NoPermission) || r == Error(400, AccountMissing) || r == Error(500, DatabaseError)
    ensures !r.Reply? ==> db.usermanager.users == old(db.usermanager.users)
    ensures r == Error(400, AccountMissing) ==>
      forall i :: 0 <= i < |old(db.usermanager.users)| ==> old(db.usermanager.users)[i].uuid != uuid
    ensures r.Reply? ==>
      var t := IssueToken(generated, now, TokenDuration);
      api.access.role == Admin &&
      FindOne(old(db.usermanager.users), U.WithUuid(uuid)).Some? &&
      r.body == TokenInfos(t, Some(uuid)) &&
      (db.usermanager.users == old(db.usermanager.users) ||
       db.usermanager.users == U.SaveTokenIn(old(db.usermanager.users), uuid, t))
  {
    if api.access.role != Admin {
      return Error(BadRequest, NoPermission);
    }
    var result := db.usermanager.GetUser(None, Some(uuid));
    if result.Err? {
      return Error(InternalError, DatabaseError);
    }
    if result.value.Some? {
      var user := result.value.value;
      var token := IssueToken(generated, now, TokenDuration);
      var _ := db.usermanager.SaveToken(user.uuid, token);
      return Reply(TokenInfos(token, Some(user.uuid)));
    }
    return Error(BadRequest, AccountMissing);
  }

  /** `check_token`: the first stored token with the given value, of the
      first user the token filter matches, with that user's uuid.  The
      token answered may itself have expired. */
  method CheckToken(db: Database, api: ApiUser, token: string, now: nat) returns (r: Response)
    ensures api.access.role != Admin <==> r == Error(400, NoPermission)
    ensures r.Reply? || r == Error(400, NoPermission) || r == Error(400, TokenNotRelated) || r == Error(500, DatabaseError)
    ensures r.Reply? ==>
      var found := U.FindByToken(db.usermanager.users, token, now);
      api.access.role == Admin && found.Some? && found.value.tokens.Some? &&
      r.body.TokenInfos? && r.body.owner == Some(found.value.uuid) &&
      IsFirstWithValue(found.value.tokens.value, token, r.body.info)
    ensures r == Error(400, TokenNotRelated) ==> U.FindByToken(db.usermanager.users, token, now).None?
  {
    if api.access.role != Admin {
      return Error(BadRequest, NoPermission);
    }
    var result := db.usermanager.GetUserFromToken(token, now);
    if result.Err? {
      return Error(InternalError, DatabaseError);
    }
    if result.value.Some? {
      var user := result.value.value;
      WithValueFirst(user.tokens.value, token);
      var tokens := Retain(user.tokens.value, token);
      var first := tokens[0];
      return Reply(TokenInfos(first, Some(user.uuid)));
    }
    return Error(BadRequest, TokenNotRelated);
  }

  /** `delete`: removes the first user with that uuid; success exactly when
      one record was deleted. */
  method Delete(db: Database, api: ApiUser, uuid: string) returns (r: Response)
    modifies db.usermanager
    ensures api.access.role != Admin <==> r == Error(400, NoPermission)
    ensures r.Reply? || r == Error(400, NoPermission) || r == Error(400, AccountMissing) || r == Error(500, DatabaseError)
    ensures !r.Reply? ==> db.usermanager.users == old(db.usermanager.users)
    ensures r == Error(400, AccountMissing) ==>
      forall i :: 0 <= i < |old(db.usermanager.users)| ==> old(db.usermanager.users)[i].uuid != uuid
    ensures r.Reply? ==>
      api.access.role == Admin && r.body == Message("Account deleted.") &&
      (db.usermanager.users, DeleteResult(1)) == DeleteOne(old(db.usermanager.users), U.WithUuid(uuid))
  {
    if api.access.role != Admin {
      return Error(BadRequest, NoPermission);
    }
    var result := db.usermanager.DeleteUser(None, Some(uuid));
    if result.Err? {
      return Error(InternalError, DatabaseError);
    }
    if result.value.Some? && result.value.value.deletedCount >= 1 {
      return Reply(Message("Account deleted."));
    }
    return Error(BadRequest, AccountMissing);
  }

  /** `clear_tokens`: unsets the token list of the first user with that
      uuid; success exactly when that record changed, so a user holding no
      list is reported as missing. */
  method ClearTokens(db: Database, api: ApiUser, uuid: string) returns (r: Response)
    modifies db.usermanager
    ensures api.access.role != Admin <==> r == Error(400, NoPermission)
    ensures r.Reply? || r == Error(400, NoPermission) || r == Error(400, AccountMissing) || r == Error(500, DatabaseError)
    ensures !r.Reply? ==> db.usermanager.users == old(db.usermanager.users)
    ensures r == Error(400, AccountMissing) ==>
      var found := FindOne(old(db.usermanager.users), U.WithUuid(uuid));
      found.None? || found.value.tokens.None?
    ensures r.Reply? ==>
      api.access.role == Admin && r.body == Message("Tokens cleared.") &&
      (db.usermanager.users, UpdateResult(1, 1)) ==
        UpdateOne(old(db.usermanager.users), U.WithUuid(uuid), U.TokensUnsetter())
  {
    if api.access.role != Admin {
      return Error(BadRequest, NoPermission);
    }
    var result := db.usermanager.ClearTokens(uuid);
    if result.Err? {
      return Error(InternalError, DatabaseError);
    }
    if result.value.modifiedCount == 1 {
      return Reply(Message("Tokens cleared."));
    }
    return Error(BadRequest, AccountMissing);
  }
}
