/** `ApiUserManager`: the `apiusers` collection and the operations on it.
    An API user holds at most one token; issuing a token overwrites it. */
module ApiUserManagement {
  import opened Collection
  import opened Security
  import opened Tokens
  import opened ApiUserModel
  import opened Filters

  // ---------------------------------------------------------------------
  // Filters and updates

  function WithUsername(name: string): ApiUser -> bool
  {
    (u: ApiUser) => u.username == name
  }

  function WithUuid(id: string): ApiUser -> bool
  {
    (u: ApiUser) => u.uuid == id
  }

  /** `{"token.token": t, "token.expiration_timestamp": {"$gte": now}}`:
      the record's single token has value `t` and is live. */
  function HoldingLive(t: string, now: nat): (f: ApiUser -> bool)
    ensures forall u: ApiUser :: f(u) ==> u.token.Some? && u.token.value.value == t
    ensures forall u: ApiUser :: u.token.Some? && !IsLive(u.token.value, now) ==> !f(u)
  {
    (u: ApiUser) => u.token.Some? && u.token.value.value == t && IsLive(u.token.value, now)
  }

  /** The filter document built from a selector (the empty document matches
      every record, but the manager never sends it). */
  function Where(f: Selector): ApiUser -> bool
  {
    match f
    case NoFilter => (u: ApiUser) => true
    case ByUuid(id) => WithUuid(id)
    case ByUsername(name) => WithUsername(name)
  }

  /** `{"$set": {"token": t}}` and `{"$unset": {"token": ""}}`. */
  function TokenSetter(t: Option<Token>): (f: ApiUser -> ApiUser)
    ensures forall u: ApiUser :: f(u).token == t && f(u).(token := u.token) == u
  {
    (u: ApiUser) => u.(token := t)
  }

  // ---------------------------------------------------------------------
  // The collection after each write

  function Upsert(s: seq<ApiUser>, x: ApiUser): seq<ApiUser>
  {
    ReplaceOneUpsert(s, WithUsername(x.username), x).0
  }

  function SetTokenIn(s: seq<ApiUser>, id: string, t: Token): seq<ApiUser>
  {
    UpdateOne(s, WithUuid(id), TokenSetter(Some(t))).0
  }

  function ClearTokenIn(s: seq<ApiUser>, id: string): seq<ApiUser>
  {
    UpdateOne(s, WithUuid(id), TokenSetter(None)).0
  }

  /** The first record with a live token `t` (`get_apiuser_from_token`). */
  function FindByLiveToken(s: seq<ApiUser>, t: string, now: nat): Option<ApiUser>
  {
    FindOne(s, HoldingLive(t, now))
  }

  // ---------------------------------------------------------------------
  // The manager

  class ApiUserManager {
    var apiusers: seq<ApiUser>

    constructor (apiusers: seq<ApiUser>)
      ensures this.apiusers == apiusers
    {
      this.apiusers := apiusers;
    }

    /** `username_exists`: some stored record has that username. */
    method UsernameExists(username: string) returns (r: Result<bool>)
      ensures r.Ok? ==> (r.value <==> exists i :: 0 <= i < |apiusers| && apiusers[i].username == username)
    {
      var ok := StoreRoundTrip();
      if !ok {
        return Err(TransportFailure);
      }
      CountNonZeroIffAny(apiusers, WithUsername(username));
      r := Ok(CountMatching(apiusers, WithUsername(username)) != 0);
    }

    /** `create_apiuser`: `replace_one` keyed by username with upsert. */
    method CreateApiUser(apiuser: ApiUser) returns (r: Result<UpdateResult>)
      modifies this
      ensures r.Err? ==> apiusers == old(apiusers)
      ensures r.Ok? ==> (apiusers, r.value) == ReplaceOneUpsert(old(apiusers), WithUsername(apiuser.username), apiuser)
    {
      var ok := StoreRoundTrip();
      if !ok {
        return Err(TransportFailure);
      }
      var res := ReplaceOneUpsert(apiusers, WithUsername(apiuser.username), apiuser);
      apiusers := res.0;
      r := Ok(res.1);
    }

    /** `get_apiuser`: the username wins over the uuid; with neither the
        store is not asked at all. */
    method GetApiUser(username: Option<string>, uuid: Option<string>) returns (r: Result<Option<ApiUser>>)
      ensures username.None? && uuid.None? ==> r == Ok(None)
      ensures r.Ok? && username.Some? ==> r.value == FindOne(apiusers, WithUsername(username.value))
      ensures r.Ok? && username.None? && uuid.Some? ==> r.value == FindOne(apiusers, WithUuid(uuid.value))
    {
      var doc := BuildSelector(username, uuid);
      if doc == NoFilter {
        return Ok(None);
      }
      var ok := StoreRoundTrip();
      if !ok {
        return Err(TransportFailure);
      }
      r := Ok(FindOne(apiusers, Where(doc)));
    }

    /** `delete_apiuser`: same filter as `get_apiuser`, removes the first
        match. */
    method DeleteApiUser(username: Option<string>, uuid: Option<string>) returns (r: Result<Option<DeleteResult>>)
      modifies this
      ensures username.None? && uuid.None? ==> r == Ok(None) && apiusers == old(apiusers)
      ensures r.Err? ==> apiusers == old(apiusers)
      ensures r.Ok? && r.value.None? ==> username.None? && uuid.None?
      ensures r.Ok? && r.value.Some? ==>
        (apiusers, r.value.value) == DeleteOne(old(apiusers), Where(SelectorOf(username, uuid)))
    {
      var doc := BuildSelector(username, uuid);
      if doc == NoFilter {
        return Ok(None);
      }
      var ok := StoreRoundTrip();
      if !ok {
        return Err(TransportFailure);
      }
      var res := DeleteOne(apiusers, Where(doc));
      apiusers := res.0;
      r := Ok(Some(res.1));
    }

    /** `delete_apiuser_from_token`: removes the first record whose token
        has value `token` and is live. */
    method DeleteApiUserFromToken(token: string, now: nat) returns (r: Result<Option<DeleteResult>>)
      modifies this
      ensures r.Err? ==> apiusers == old(apiusers)
      ensures r.Ok? ==> r.value.Some?
      ensures r.Ok? ==> (apiusers, r.value.value) == DeleteOne(old(apiusers), HoldingLive(token, now))
    {
      var ok := StoreRoundTrip();
      if !ok {
        return Err(TransportFailure);
      }
      var res := DeleteOne(apiusers, HoldingLive(token, now));
      apiusers := res.0;
      r := Ok(Some(res.1));
    }

    /** `set_token`: `$set` of the single token on the first record with that
        uuid. */
    method SetToken(uuid: string, token: Token) returns (r: Result<UpdateResult>)
      modifies this
      ensures r.Err? ==> apiusers == old(apiusers)
      ensures r.Ok? ==> (apiusers, r.value) == UpdateOne(old(apiusers), WithUuid(uuid), TokenSetter(Some(token)))
    {
      var ok := StoreRoundTrip();
      if !ok {
        return Err(TransportFailure);
      }
      var res := UpdateOne(apiusers, WithUuid(uuid), TokenSetter(Some(token)));
      apiusers := res.0;
      r := Ok(res.1);
    }

    /** `clear_tokens`: `$unset` of the token on the first record with that
        uuid. */
    method ClearTokens(uuid: string) returns (r: Result<UpdateResult>)
      modifies this
      ensures r.Err? ==> apiusers == old(apiusers)
      ensures r.Ok? ==> (apiusers, r.value) == UpdateOne(old(apiusers), WithUuid(uuid), TokenSetter(None))
    {
      var ok := StoreRoundTrip();
      if !ok {
        return Err(TransportFailure);
      }
      var res := UpdateOne(apiusers, WithUuid(uuid), TokenSetter(None));
      apiusers := res.0;
      r := Ok(res.1);
    }

    /** `clear_tokens_from_token`: `$unset` on the first record holding that
        live token. */
    method ClearTokensFromToken(token: string, now: nat) returns (r: Result<UpdateResult>)
      modifies this
      ensures r.Err? ==> apiusers == old(apiusers)
      ensures r.Ok? ==> (apiusers, r.value) == UpdateOne(old(apiusers), HoldingLive(token, now), TokenSetter(None))
    {
      var ok := StoreRoundTrip();
      if !ok {
        return Err(TransportFailure);
      }
      var res := UpdateOne(apiusers, HoldingLive(token, now), TokenSetter(None));
      apiusers := res.0;
      r := Ok(res.1);
    }

    /** `get_apiuser_from_token`: only a record whose token has that value and
        has not expired is returned. */
    method GetApiUserFromToken(token: string, now: nat) returns (r: Result<Option<ApiUser>>)
      ensures r.Ok? ==> r.value == FindByLiveToken(apiusers, token, now)
      ensures r.Ok? && r.value.Some? ==>
        r.value.value in apiusers && r.value.value.token.Some? &&
        r.value.value.token.value.value == token && IsLive(r.value.value.token.value, now)
      ensures r.Ok? && r.value.None? ==>
        forall i :: 0 <= i < |apiusers| ==> !HoldingLive(token, now)(apiusers[i])
    {
      var ok := StoreRoundTrip();
      if !ok {
        return Err(TransportFailure);
      }
      r := Ok(FindOne(apiusers, HoldingLive(token, now)));
    }
  }

  // ---------------------------------------------------------------------
  // Properties of the writes

  /** After `create_apiuser(x)`, looking `x.username` up yields `x` itself. */
  lemma {:induction false} UpsertThenGet(s: seq<ApiUser>, x: ApiUser)
    ensures FindOne(Upsert(s, x), WithUsername(x.username)) == Some(x)
  {
    var p := WithUsername(x.username);
    var s' := Upsert(s, x);
    match FirstIndex(s, p)
    case None =>
      assert s' == s + [x];
      FirstIndexAt(s', p, |s|);
    case Some(i) =>
      assert s' == s[i := x];
      FirstIndexAt(s', p, i);
  }

  /** Upsert keeps the count when the username exists and adds one record
      otherwise; records at other positions are untouched. */
  lemma {:induction false} UpsertSize(s: seq<ApiUser>, x: ApiUser)
    ensures (exists i :: 0 <= i < |s| && s[i].username == x.username) ==> |Upsert(s, x)| == |s|
    ensures (forall i :: 0 <= i < |s| ==> s[i].username != x.username) ==> Upsert(s, x) == s + [x]
    ensures forall j :: 0 <= j < |s| && s[j].username != x.username ==> Upsert(s, x)[j] == s[j]
  {
    var p := WithUsername(x.username);
    if exists i :: 0 <= i < |s| && s[i].username == x.username {
      var i :| 0 <= i < |s| && s[i].username == x.username;
      assert p(s[i]);
    }
  }

  /** Two creations under the same username: the second write wins and the
      first leaves no trace. */
  lemma {:induction false} UpsertLastWriteWins(s: seq<ApiUser>, a: ApiUser, b: ApiUser)
    requires a.username == b.username
    ensures Upsert(Upsert(s, a), b) == Upsert(s, b)
  {
    var p := WithUsername(a.username);
    assert WithUsername(b.username) == p;
    match FirstIndex(s, p)
    case None =>
      FirstIndexAt(s + [a], p, |s|);
    case Some(i) =>
      FirstIndexAt(s[i := a], p, i);
      assert s[i := a][i := b] == s[i := b];
  }

  /** Provisioning the same identity twice changes nothing the second time
      (the bootstrap seeding is safe to run at every start). */
  lemma UpsertIdempotent(s: seq<ApiUser>, x: ApiUser)
    ensures Upsert(Upsert(s, x), x) == Upsert(s, x)
  {
    UpsertLastWriteWins(s, x, x);
  }

  /** A token that has expired never resolves, whatever its value. */
  lemma ExpiredTokenNeverResolves(s: seq<ApiUser>, t: string, now: nat)
    requires forall i :: 0 <= i < |s| && s[i].token.Some? && s[i].token.value.value == t ==>
               !IsLive(s[i].token.value, now)
    ensures FindByLiveToken(s, t, now) == None
  {
  }

  /** `set_token` gives the first record with that uuid exactly the new token
      and touches no other record. */
  lemma {:induction false} SetTokenEffect(s: seq<ApiUser>, id: string, t: Token, i: nat)
    requires FirstIndex(s, WithUuid(id)) == Some(i)
    ensures |SetTokenIn(s, id, t)| == |s|
    ensures SetTokenIn(s, id, t)[i] == s[i].(token := Some(t))
    ensures forall j :: 0 <= j < |s| && j != i ==> SetTokenIn(s, id, t)[j] == s[j]
  {
    assert SetTokenIn(s, id, t) == s[i := s[i].(token := Some(t))];
  }

  /** Re-issuing a token invalidates the previous one: if the record that
      held `old` live was its only holder, after `set_token` with a different
      value nothing resolves `old` any more. */
  lemma {:induction false} ReissueInvalidatesPrevious(s: seq<ApiUser>, id: string, i: nat, prev: string, t: Token, now: nat)
    requires FirstIndex(s, WithUuid(id)) == Some(i)
    requires forall j :: 0 <= j < |s| && j != i ==> !HoldingLive(prev, now)(s[j])
    requires t.value != prev
    ensures FindByLiveToken(SetTokenIn(s, id, t), prev, now) == None
  {
    SetTokenEffect(s, id, t, i);
    var s' := SetTokenIn(s, id, t);
    forall j | 0 <= j < |s'|
      ensures !HoldingLive(prev, now)(s'[j])
    {
      if j == i {
        assert s'[j].token == Some(t);
      }
    }
  }

  /** A live token just set on an existing uuid resolves afterwards. */
  lemma {:induction false} SetTokenThenResolves(s: seq<ApiUser>, id: string, t: Token, now: nat)
    requires exists i :: 0 <= i < |s| && s[i].uuid == id
    requires IsLive(t, now)
    ensures FindByLiveToken(SetTokenIn(s, id, t), t.value, now).Some?
  {
    var i :| 0 <= i < |s| && s[i].uuid == id;
    assert WithUuid(id)(s[i]);
    var k := FirstIndex(s, WithUuid(id)).value;
    SetTokenEffect(s, id, t, k);
    assert HoldingLive(t.value, now)(SetTokenIn(s, id, t)[k]);
  }

  /** `clear_tokens` drops the token of the first record with that uuid and
      keeps every other field of it and every other record. */
  lemma {:induction false} ClearTokenEffect(s: seq<ApiUser>, id: string, i: nat, now: nat)
    requires FirstIndex(s, WithUuid(id)) == Some(i)
    ensures |ClearTokenIn(s, id)| == |s|
    ensures ClearTokenIn(s, id)[i] == s[i].(token := None)
    ensures forall t :: !HoldingLive(t, now)(ClearTokenIn(s, id)[i])
    ensures forall j :: 0 <= j < |s| && j != i ==> ClearTokenIn(s, id)[j] == s[j]
  {
    assert ClearTokenIn(s, id) == s[i := s[i].(token := None)];
  }

  /** A record created under a uuid no other record has receives the token
      itself. */
  lemma {:induction false} SetTokenOnFreshUuid(s: seq<ApiUser>, x: ApiUser, t: Token)
    requires forall j :: 0 <= j < |s| ==> s[j].uuid != x.uuid
    ensures SetTokenIn(s + [x], x.uuid, t) == s + [x.(token := Some(t))]
  {
    var s1 := s + [x];
    FirstIndexAt(s1, WithUuid(x.uuid), |s|);
    assert SetTokenIn(s1, x.uuid, t) == s1[|s| := x.(token := Some(t))];
  }
}
