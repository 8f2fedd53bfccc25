/** The `/user/…` routes, called by an API user that the
    "X-Misato-API-Token" guard resolved (`api`).  Each handler first asks for
    the human user that shares the caller's uuid, then checks the given token
    in one of two ways: an Admin caller through the token filter of the user
    collection, any other caller against that user's own token list (by
    value only, with no expiry check).  The writes that follow go to the API
    user collection. */
module UserAccount {
  import opened Collection
  import opened Tokens
  import opened ApiUserModel
  import opened UserModel
  import A = ApiUserManagement
  import U = UserManagement
  import opened Db
  import opened Responses

  /** The human user sharing the caller's uuid (the first such record). */
  function Own(users: seq<User>, api: ApiUser): Option<User>
  {
    FindOne(users, U.WithUuid(api.uuid))
  }

  /** The token check that a handler applies before it answers or writes. */
  predicate Admitted(users: seq<User>, api: ApiUser, token: string, now: nat)
  {
    if api.access.role == Admin then U.FindByToken(users, token, now).Some?
    else
      var own := Own(users, api);
      own.Some? && own.value.tokens.Some? && U.HasTokenValue(own.value.tokens.value, token)
  }

  /** `check_token`: the first token with the given value, taken from the
      user the token filter matches (Admin) or from the caller's own user
      (any other role), without an owner uuid.  A failed lookup whose result
      is unwrapped panics. */
  method CheckToken(db: Database, api: ApiUser, token: string, now: nat) returns (r: Response)
    ensures r.Reply? || r == Error(400, UserAccountMissing) || r == Error(400, TokenNotRelated) || r == Panicked
    ensures r.Reply? ==> Admitted(db.usermanager.users, api, token, now)
    ensures Admitted(db.usermanager.users, api, token, now) && Own(db.usermanager.users, api).Some? ==>
      r.Reply? || r == Panicked
    ensures r == Error(400, UserAccountMissing) ==> Own(db.usermanager.users, api).None?
    ensures r == Error(400, TokenNotRelated) ==> !Admitted(db.usermanager.users, api, token, now)
    ensures api.access.role != Admin && Own(db.usermanager.users, api).None? ==>
      r == Error(400, UserAccountMissing) || r == Panicked
    ensures r.Reply? && api.access.role == Admin ==>
      var found := U.FindByToken(db.usermanager.users, token, now);
      found.Some? && found.value.tokens.Some? &&
      r.body.TokenInfos? && r.body.owner.None? &&
      IsFirstWithValue(found.value.tokens.value, token, r.body.info)
    ensures r.Reply? && api.access.role != Admin ==>
      var own := Own(db.usermanager.users, api);
      own.Some? && own.value.tokens.Some? &&
      r.body.TokenInfos? && r.body.owner.None? &&
      IsFirstWithValue(own.value.tokens.value, token, r.body.info)
  {
    var result := db.usermanager.GetUser(None, Some(api.uuid));
    if result.Ok? && result.value.None? {
      return Error(BadRequest, UserAccountMissing);
    }
    if api.access.role == Admin {
      var found := db.usermanager.GetUserFromToken(token, now);
      if found.Ok? && found.value.None? {
        return Error(BadRequest, TokenNotRelated);
      }
      if found.Err? {
        return Panicked;
      }
      var user := found.value.value;
      WithValueFirst(user.tokens.value, token);
      var tokens := Retain(user.tokens.value, token);
      return Reply(TokenInfos(tokens[0], None));
    } else {
      if result.Err? {
        return Panicked;
      }
      var own := result.value.value;
      if own.tokens.None? {
        return Error(BadRequest, TokenNotRelated);
      }
      WithValueFirst(own.tokens.value, token);
      var tokens := Retain(own.tokens.value, token);
      if |tokens| == 0 {
        return Error(BadRequest, TokenNotRelated);
      }
      return Reply(TokenInfos(tokens[0], None));
    }
  }

  /** `delete`: once the token is admitted, removes the API user holding it
      as a live token (not the human user) and reports success whatever was
      deleted.  For an Admin caller a failed lookup is not an obstacle and
      nothing is unwrapped. */
  method Delete(db: Database, api: ApiUser, token: string, now: nat) returns (r: Response)
    modifies db.apiusermanager
    ensures r.Reply? || r == Error(400, UserAccountMissing) || r == Error(400, TokenNotRelated) ||
            r == Error(500, DatabaseError) || r == Panicked
    ensures r.Reply? ==> r.body == Message("Account deleted.")
    ensures !r.Reply? ==> db.apiusermanager.apiusers == old(db.apiusermanager.apiusers)
    ensures r.Reply? ==>
      db.apiusermanager.apiusers == DeleteOne(old(db.apiusermanager.apiusers), A.HoldingLive(token, now)).0
    ensures r == Error(400, UserAccountMissing) ==> Own(db.usermanager.users, api).None?
    ensures r == Error(400, TokenNotRelated) ==> !Admitted(db.usermanager.users, api, token, now)
    ensures r.Reply? && api.access.role != Admin ==> Admitted(db.usermanager.users, api, token, now)
    ensures Admitted(db.usermanager.users, api, token, now) && Own(db.usermanager.users, api).Some? ==>
      r.Reply? || r == Error(500, DatabaseError) || r == Panicked
    ensures api.access.role != Admin && Own(db.usermanager.users, api).None? ==>
      r == Error(400, UserAccountMissing) || r == Panicked
    ensures api.access.role == Admin ==> r != Panicked
    ensures api.access.role != Admin && r == Error(500, DatabaseError) ==>
      Admitted(db.usermanager.users, api, token, now)
  {
    var result := db.usermanager.GetUser(None, Some(api.uuid));
    if result.Ok? && result.value.None? {
      return Error(BadRequest, UserAccountMissing);
    }
    if api.access.role == Admin {
      var found := db.usermanager.GetUserFromToken(token, now);
      if found.Ok? && found.value.None? {
        return Error(BadRequest, TokenNotRelated);
      }
    } else {
      if result.Err? {
        return Panicked;
      }
      var own := result.value.value;
      if own.tokens.None? {
        return Error(BadRequest, TokenNotRelated);
      }
      WithValueFirst(own.tokens.value, token);
      var tokens := Retain(own.tokens.value, token);
      if |tokens| == 0 {
        return Error(BadRequest, TokenNotRelated);
      }
    }
    var deleted := db.apiusermanager.DeleteApiUserFromToken(token, now);
    if deleted.Err? {
      return Error(InternalError, DatabaseError);
    }
    return Reply(Message("Account deleted."));
  }

  /** `clear_tokens`: once the token is admitted, unsets the token of the
      API user whose UUID equals the token string, and reports success
      whatever was modified. */
  method ClearTokens(db: Database, api: ApiUser, token: string, now: nat) returns (r: Response)
    modifies db.apiusermanager
    ensures r.Reply? || r == Error(400, UserAccountMissing) || r == Error(400, TokenNotRelated) ||
            r == Error(500, DatabaseError) || r == Panicked
    ensures r.Reply? ==> r.body == Message("Tokens removed.")
    ensures !r.Reply? ==> db.apiusermanager.apiusers == old(db.apiusermanager.apiusers)
    ensures r.Reply? ==> db.apiusermanager.apiusers == A.ClearTokenIn(old(db.apiusermanager.apiusers), token)
    ensures r == Error(400, UserAccountMissing) ==> Own(db.usermanager.users, api).None?
    ensures r == Error(400, TokenNotRelated) ==> !Admitted(db.usermanager.users, api, token, now)
    ensures r.Reply? && api.access.role != Admin ==> Admitted(db.usermanager.users, api, token, now)
    ensures Admitted(db.usermanager.users, api, token, now) && Own(db.usermanager.users, api).Some? ==>
      r.Reply? || r == Error(500, DatabaseError) || r == Panicked
    ensures api.access.role != Admin && Own(db.usermanager.users, api).None? ==>
      r == Error(400, UserAccountMissing) || r == Panicked
    ensures api.access.role == Admin ==> r != Panicked
    ensures api.access.role != Admin && r == Error(500, DatabaseError) ==>
      Admitted(db.usermanager.users, api, token, now)
  {
    var result := db.usermanager.GetUser(None, Some(api.uuid));
    if result.Ok? && result.value.None? {
      return Error(BadRequest, UserAccountMissing);
    }
    if api.access.role == Admin {
      var found := db.usermanager.GetUserFromToken(token, now);
      if found.Ok? && found.value.None? {
        return Error(BadRequest, TokenNotRelated);
      }
    } else {
      if result.Err? {
        return Panicked;
      }
      var own := result.value.value;
      if own.tokens.None? {
        return Error(BadRequest, TokenNotRelated);
      }
      WithValueFirst(own.tokens.value, token);
      var tokens := Retain(own.tokens.value, token);
      if |tokens| == 0 {
        return Error(BadRequest, TokenNotRelated);
      }
    }
    var cleared := db.apiusermanager.ClearTokens(token);
    if cleared.Err? {
      return Error(InternalError, DatabaseError);
    }
    return Reply(Message("Tokens removed."));
  }

  /** What `clear_tokens` writes: the API user whose uuid equals the token
      string loses its token; when no API user has such a uuid the collection
      is left exactly as it was, although the answer is still a success. */
  lemma {:induction false} ClearByTokenString(s: seq<ApiUser>, token: string)
    ensures (forall i :: 0 <= i < |s| ==> s[i].uuid != token) ==> A.ClearTokenIn(s, token) == s
    ensures forall i :: 0 <= i < |s| && s[i].uuid == token && (forall j :: 0 <= j < i ==> s[j].uuid != token) ==>
      A.ClearTokenIn(s, token) == s[i := s[i].(token := None)]
  {
    forall i | 0 <= i < |s| && s[i].uuid == token && (forall j :: 0 <= j < i ==> s[j].uuid != token)
      ensures A.ClearTokenIn(s, token) == s[i := s[i].(token := None)]
    {
      FirstIndexAt(s, A.WithUuid(token), i);
    }
  }
}
