/** `UserManager`: the `users` collection and the operations on it.  A user
    holds a list of tokens; issuing a token appends to it, revoking removes
    the whole list. */
module UserManagement {
  import opened Collection
  import opened Security
  import opened Tokens
  import opened UserModel
  import opened Filters

  // ---------------------------------------------------------------------
  // Filters and updates

  function WithUsername(name: string): User -> bool
  {
    (u: User) => u.username == name
  }

  function WithUuid(id: string): User -> bool
  {
    (u: User) => u.uuid == id
  }

  predicate HasTokenValue(ts: seq<Token>, t: string)
  {
    exists i :: 0 <= i < |ts| && ts[i].value == t
  }

  predicate HasLiveToken(ts: seq<Token>, now: nat)
  {
    exists j :: 0 <= j < |ts| && IsLive(ts[j], now)
  }

  /** `{"tokens.token": t, "tokens.expiration_timestamp": {"$gte": now}}`.
      Without `$elemMatch` each condition is met by SOME element of the list
      on its own: the element with value `t` and the live element need not be
      the same one. */
  function HoldingToken(t: string, now: nat): (f: User -> bool)
    ensures forall u: User :: f(u) ==> u.tokens.Some? && HasTokenValue(u.tokens.value, t)
    ensures forall u: User :: u.tokens.Some? && !HasLiveToken(u.tokens.value, now) ==> !f(u)
  {
    (u: User) => u.tokens.Some? && HasTokenValue(u.tokens.value, t) && HasLiveToken(u.tokens.value, now)
  }

  function Where(f: Selector): User -> bool
  {
    match f
    case NoFilter => (u: User) => true
    case ByUuid(id) => WithUuid(id)
    case ByUsername(name) => WithUsername(name)
  }

  /** The token list after `$push`: a missing list becomes a one-element
      list. */
  function Appended(tokens: Option<seq<Token>>, t: Token): (r: seq<Token>)
    ensures |r| >= 1 && r[|r| - 1] == t
    ensures tokens.None? ==> r == [t]
    ensures tokens.Some? ==> r[..|r| - 1] == tokens.value
  {
    match tokens
    case None => [t]
    case Some(ts) => ts + [t]
  }

  /** `{"$push": {"tokens": t}}`. */
  function TokenPusher(t: Token): User -> User
  {
    (u: User) => u.(tokens := Some(Appended(u.tokens, t)))
  }

  /** `{"$unset": {"tokens": ""}}`. */
  function TokensUnsetter(): User -> User
  {
    (u: User) => u.(tokens := None)
  }

  // ---------------------------------------------------------------------
  // The collection after each write

  function SaveTokenIn(s: seq<User>, id: string, t: Token): seq<User>
  {
    UpdateOne(s, WithUuid(id), TokenPusher(t)).0
  }

  function ClearTokensIn(s: seq<User>, id: string): seq<User>
  {
    UpdateOne(s, WithUuid(id), TokensUnsetter()).0
  }

  /** The first user matched by the token filter (`get_user_from_token`). */
  function FindByToken(s: seq<User>, t: string, now: nat): Option<User>
  {
    FindOne(s, HoldingToken(t, now))
  }

  // ---------------------------------------------------------------------
  // The manager

  class UserManager {
    var users: seq<User>

    constructor (users: seq<User>)
      ensures this.users == users
    {
      this.users := users;
    }

    /** `username_exists`: some stored user has that username. */
    method UsernameExists(username: string) returns (r: Result<bool>)
      ensures r.Ok? ==> (r.value <==> exists i :: 0 <= i < |users| && users[i].username == username)
    {
      var ok := StoreRoundTrip();
      if !ok {
        return Err(TransportFailure);
      }
      CountNonZeroIffAny(users, WithUsername(username));
      r := Ok(CountMatching(users, WithUsername(username)) != 0);
    }

    /** `uuid_exists`: some stored user has that uuid. */
    method UuidExists(uuid: string) returns (r: Result<bool>)
      ensures r.Ok? ==> (r.value <==> exists i :: 0 <= i < |users| && users[i].uuid == uuid)
    {
      var ok := StoreRoundTrip();
      if !ok {
        return Err(TransportFailure);
      }
      CountNonZeroIffAny(users, WithUuid(uuid));
      r := Ok(CountMatching(users, WithUuid(uuid)) != 0);
    }

    /** `create_user`: a plain `insert_one`, with no username check. */
    method CreateUser(user: User) returns (r: Result<()>)
      modifies this
      ensures r.Err? ==> users == old(users)
      ensures r.Ok? ==> users == old(users) + [user]
    {
      var ok := StoreRoundTrip();
      if !ok {
        return Err(TransportFailure);
      }
      users := users + [user];
      r := Ok(());
    }

    /** `get_user`: the username wins over the uuid; with neither the store
        is not asked at all. */
    method GetUser(username: Option<string>, uuid: Option<string>) returns (r: Result<Option<User>>)
      ensures username.None? && uuid.None? ==> r == Ok(None)
      ensures r.Ok? && username.Some? ==> r.value == FindOne(users, WithUsername(username.value))
      ensures r.Ok? && username.None? && uuid.Some? ==> r.value == FindOne(users, WithUuid(uuid.value))
    {
      var doc := BuildSelector(username, uuid);
      if doc == NoFilter {
        return Ok(None);
      }
      var ok := StoreRoundTrip();
      if !ok {
        return Err(TransportFailure);
      }
      r := Ok(FindOne(users, Where(doc)));
    }

    /** `delete_user`: same filter as `get_user`, removes the first match. */
    method DeleteUser(username: Option<string>, uuid: Option<string>) returns (r: Result<Option<DeleteResult>>)
      modifies this
      ensures username.None? && uuid.None? ==> r == Ok(None) && users == old(users)
      ensures r.Err? ==> users == old(users)
      ensures r.Ok? && r.value.None? ==> username.None? && uuid.None?
      ensures r.Ok? && r.value.Some? ==>
        (users, r.value.value) == DeleteOne(old(users), Where(SelectorOf(username, uuid)))
    {
      var doc := BuildSelector(username, uuid);
      if doc == NoFilter {
        return Ok(None);
      }
      var ok := StoreRoundTrip();
      if !ok {
        return Err(TransportFailure);
      }
      var res := DeleteOne(users, Where(doc));
      users := res.0;
      r := Ok(Some(res.1));
    }

    /** `delete_user_from_token`: removes the first user matched by the token
        filter. */
    method DeleteUserFromToken(token: string, now: nat) returns (r: Result<Option<DeleteResult>>)
      modifies this
      ensures r.Err? ==> users == old(users)
      ensures r.Ok? ==> r.value.Some?
      ensures r.Ok? ==> (users, r.value.value) == DeleteOne(old(users), HoldingToken(token, now))
    {
      var ok := StoreRoundTrip();
      if !ok {
        return Err(TransportFailure);
      }
      var res := DeleteOne(users, HoldingToken(token, now));
      users := res.0;
      r := Ok(Some(res.1));
    }

    /** `save_token`: `$push` of the token onto the first user with that
        uuid. */
    method SaveToken(uuid: string, token: Token) returns (r: Result<UpdateResult>)
      modifies this
      ensures r.Err? ==> users == old(users)
      ensures r.Ok? ==> (users, r.value) == UpdateOne(old(users), WithUuid(uuid), TokenPusher(token))
    {
      var ok := StoreRoundTrip();
      if !ok {
        return Err(TransportFailure);
      }
      var res := UpdateOne(users, WithUuid(uuid), TokenPusher(token));
      users := res.0;
      r := Ok(res.1);
    }

    /** `clear_tokens`: `$unset` of the whole token list of the first user
        with that uuid. */
    method ClearTokens(uuid: string) returns (r: Result<UpdateResult>)
      modifies this
      ensures r.Err? ==> users == old(users)
      ensures r.Ok? ==> (users, r.value) == UpdateOne(old(users), WithUuid(uuid), TokensUnsetter())
    {
      var ok := StoreRoundTrip();
      if !ok {
        return Err(TransportFailure);
      }
      var res := UpdateOne(users, WithUuid(uuid), TokensUnsetter());
      users := res.0;
      r := Ok(res.1);
    }

    /** `clear_tokens_from_token`: `$unset` of the token list of the first
        user matched by the token filter. */
    method ClearTokensFromToken(token: string, now: nat) returns (r: Result<UpdateResult>)
      modifies this
      ensures r.Err? ==> users == old(users)
      ensures r.Ok? ==> (users, r.value) == UpdateOne(old(users), HoldingToken(token, now), TokensUnsetter())
    {
      var ok := StoreRoundTrip();
      if !ok {
        return Err(TransportFailure);
      }
      var res := UpdateOne(users, HoldingToken(token, now), TokensUnsetter());
      users := res.0;
      r := Ok(res.1);
    }

    /** `get_user_from_token`: the first user that has a token with that value
        and has some live token. */
    method GetUserFromToken(token: string, now: nat) returns (r: Result<Option<User>>)
      ensures r.Ok? ==> r.value == FindByToken(users, token, now)
      ensures r.Ok? && r.value.Some? ==>
        r.value.value in users && r.value.value.tokens.Some? &&
        HasTokenValue(r.value.value.tokens.value, token) && HasLiveToken(r.value.value.tokens.value, now)
      ensures r.Ok? && r.value.None? ==>
        forall i :: 0 <= i < |users| ==> !HoldingToken(token, now)(users[i])
    {
      var ok := StoreRoundTrip();
      if !ok {
        return Err(TransportFailure);
      }
      r := Ok(FindOne(users, HoldingToken(token, now)));
    }
  }

  // ---------------------------------------------------------------------
  // Properties of the filters and writes

  /** The token filter lets an expired token through as long as the same
      user holds some other, live token, wherever either sits in the list. */
  lemma ExpiredTokenStillMatches(u: User, expired: Token, live: Token, now: nat)
    requires u.tokens.Some? && expired in u.tokens.value && live in u.tokens.value
    requires IsLive(live, now)
    ensures HoldingToken(expired.value, now)(u)
  {
    var ts := u.tokens.value;
    var i :| 0 <= i < |ts| && ts[i] == expired;
    var j :| 0 <= j < |ts| && ts[j] == live;
    assert ts[i].value == expired.value;
    assert IsLive(ts[j], now);
  }

  /** Concretely: a user whose token "a" expired at 10 and who also holds a
      token "b" live until 100 is found by "a" at time 50. */
  lemma ExpiredTokenResolvesExample(u: User)
    requires u.tokens == Some([Token("a", 0, 10), Token("b", 0, 100)])
    ensures FindByToken([u], "a", 50) == Some(u)
  {
    ExpiredTokenStillMatches(u, Token("a", 0, 10), Token("b", 0, 100), 50);
    FirstIndexAt([u], HoldingToken("a", 50), 0);
  }

  /** But a token never resolves when every token of every user has expired. */
  lemma AllExpiredNeverResolves(s: seq<User>, t: string, now: nat)
    requires forall i, k :: 0 <= i < |s| && s[i].tokens.Some? && 0 <= k < |s[i].tokens.value| ==>
               !IsLive(s[i].tokens.value[k], now)
    ensures FindByToken(s, t, now) == None
  {
  }

  /** `save_token` appends to the first user with that uuid: every earlier
      token stays in place and in order, and nothing else changes. */
  lemma {:induction false} SaveTokenEffect(s: seq<User>, id: string, t: Token, i: nat)
    requires FirstIndex(s, WithUuid(id)) == Some(i)
    ensures |SaveTokenIn(s, id, t)| == |s|
    ensures SaveTokenIn(s, id, t)[i] == s[i].(tokens := Some(Appended(s[i].tokens, t)))
    ensures s[i].tokens.Some? ==> SaveTokenIn(s, id, t)[i].tokens.value[..|s[i].tokens.value|] == s[i].tokens.value
    ensures forall j :: 0 <= j < |s| && j != i ==> SaveTokenIn(s, id, t)[j] == s[j]
  {
    assert SaveTokenIn(s, id, t) == s[i := s[i].(tokens := Some(Appended(s[i].tokens, t)))];
    if s[i].tokens.Some? {
      assert Appended(s[i].tokens, t)[..|s[i].tokens.value|] == s[i].tokens.value;
    }
  }

  /** Two logins of one user leave both tokens stored, the first before the
      second, and each resolves on its own while it (or the other) is live. */
  lemma {:induction false} TokensAccumulate(s: seq<User>, id: string, i: nat, t1: Token, t2: Token, now: nat)
    requires FirstIndex(s, WithUuid(id)) == Some(i)
    requires IsLive(t1, now) && IsLive(t2, now)
    ensures var s2 := SaveTokenIn(SaveTokenIn(s, id, t1), id, t2);
            var ts := s2[i].tokens.value;
            s2[i].tokens.Some? && |ts| >= 2 && ts[|ts| - 2] == t1 && ts[|ts| - 1] == t2 &&
            FindByToken(s2, t1.value, now).Some? && FindByToken(s2, t2.value, now).Some?
  {
    SaveTokenEffect(s, id, t1, i);
    var s1 := SaveTokenIn(s, id, t1);
    assert s1[i].uuid == id;
    FirstIndexAt(s1, WithUuid(id), i);
    SaveTokenEffect(s1, id, t2, i);
    var s2 := SaveTokenIn(s1, id, t2);
    var ts := s2[i].tokens.value;
    assert ts == Appended(s1[i].tokens, t2) && s1[i].tokens.value == Appended(s[i].tokens, t1);
    assert ts[|ts| - 2] == t1 && ts[|ts| - 1] == t2;
    assert HoldingToken(t1.value, now)(s2[i]);
    assert HoldingToken(t2.value, now)(s2[i]);
  }

  /** `clear_tokens` removes the whole list: afterwards that user matches no
      token filter at all, so no single token can be revoked alone. */
  lemma {:induction false} ClearTokensRevokesAll(s: seq<User>, id: string, i: nat)
    requires FirstIndex(s, WithUuid(id)) == Some(i)
    ensures |ClearTokensIn(s, id)| == |s|
    ensures ClearTokensIn(s, id)[i] == s[i].(tokens := None)
    ensures forall t, now :: !HoldingToken(t, now)(ClearTokensIn(s, id)[i])
    ensures forall j :: 0 <= j < |s| && j != i ==> ClearTokensIn(s, id)[j] == s[j]
  {
    assert ClearTokensIn(s, id) == s[i := s[i].(tokens := None)];
  }

  /** Signup then revocation, end to end: a new account "alice" gets a token
      `t` that resolves to her; after `clear_tokens` on her uuid it resolves
      to nobody. */
  lemma {:induction false} SignupResolveRevoke(s: seq<User>, alice: User, t: Token, now: nat)
    requires alice.username == "alice" && alice.tokens.None?
    requires forall j :: 0 <= j < |s| ==> s[j].uuid != alice.uuid
    requires forall j :: 0 <= j < |s| ==> !HoldingToken(t.value, now)(s[j])
    requires IsLive(t, now)
    ensures var s2 := SaveTokenIn(s + [alice], alice.uuid, t);
            FindByToken(s2, t.value, now).Some? &&
            FindByToken(s2, t.value, now).value.username == "alice" &&
            FindByToken(ClearTokensIn(s2, alice.uuid), t.value, now) == None
  {
    var s1 := s + [alice];
    var n := |s|;
    FirstIndexAt(s1, WithUuid(alice.uuid), n);
    SaveTokenEffect(s1, alice.uuid, t, n);
    var s2 := SaveTokenIn(s1, alice.uuid, t);
    assert s2[n].tokens == Some([t]);
    assert s2[n].tokens.value[0] == t;
    assert HoldingToken(t.value, now)(s2[n]);
    FirstIndexAt(s2, HoldingToken(t.value, now), n);
    assert s2[n].uuid == alice.uuid;
    FirstIndexAt(s2, WithUuid(alice.uuid), n);
    ClearTokensRevokesAll(s2, alice.uuid, n);
    var s3 := ClearTokensIn(s2, alice.uuid);
    forall j | 0 <= j < |s3|
      ensures !HoldingToken(t.value, now)(s3[j])
    {
      if j < n {
        assert s3[j] == s[j];
      }
    }
  }

  /** Admin `clear_tokens` on an existing user that holds no token list
      reports `modified_count == 0`: the unset changes nothing. */
  lemma {:induction false} ClearingNoTokensModifiesNothing(s: seq<User>, id: string, i: nat)
    requires FirstIndex(s, WithUuid(id)) == Some(i) && s[i].tokens.None?
    ensures UpdateOne(s, WithUuid(id), TokensUnsetter()).1 == UpdateResult(1, 0)
  {
    assert TokensUnsetter()(s[i]) == s[i];
  }

  /** A user inserted under a uuid no other user has receives the pushed
      token itself: the new record ends up with exactly that one token. */
  lemma {:induction false} SaveTokenOnFreshUuid(s: seq<User>, x: User, t: Token)
    requires forall j :: 0 <= j < |s| ==> s[j].uuid != x.uuid
    ensures SaveTokenIn(s + [x], x.uuid, t) == s + [x.(tokens := Some(Appended(x.tokens, t)))]
  {
    var s1 := s + [x];
    FirstIndexAt(s1, WithUuid(x.uuid), |s|);
    assert SaveTokenIn(s1, x.uuid, t) == s1[|s| := x.(tokens := Some(Appended(x.tokens, t)))];
  }
}
