/** The managed `Database` state every handler receives: one manager per
    account domain.  The two domains never share storage. */
module Db {
  import A = ApiUserManagement
  import U = UserManagement
  import opened ApiUserModel
  import opened UserModel

  class Database {
    const apiusermanager: A.ApiUserManager
    const usermanager: U.UserManager

    constructor (apiusers: seq<ApiUser>, users: seq<User>)
      ensures fresh(apiusermanager) && fresh(usermanager)
      ensures apiusermanager.apiusers == apiusers && usermanager.users == users
    {
      apiusermanager := new A.ApiUserManager(apiusers);
      usermanager := new U.UserManager(users);
    }
  }
}

/** What a handler answers: a JSON body, an error with its HTTP status, or a
    panic (an `unwrap` on a failed store call), which the server turns into
    a 500 response. */
module Responses {
  import opened Collection
  import opened Tokens

  /** Lifetime of every token the routes issue: one day, in seconds. */
  const TokenDuration: nat := 24 * 60 * 60

  const BadRequest: nat := 400
  const InternalError: nat := 500

  /** The error messages, by what they say. */
  datatype Reason =
    | NoPermission        // "No permission"
    | UsernameTaken       // "... already exists / already used ..."
    | AccountMissing      // "Account doesn't exist ..."
    | TokenNotRelated     // "Token not related to any account."
    | UserAccountMissing  // "User account doesn't exist."
    | DatabaseError       // "Database error."

  datatype Body =
    | Account(username: string, uuid: string, token: string)
    | UserProfile(uuid: string, username: string)
    | TokenInfos(info: Token, owner: Option<string>)
    | Message(text: string)

  datatype Response = Reply(body: Body) | Error(code: nat, reason: Reason) | Panicked

  /** The tokens whose value is `v`, in stored order: what `retain` leaves. */
  function WithValue(ts: seq<Token>, v: string): (r: seq<Token>)
    ensures |r| <= |ts|
    ensures forall k :: 0 <= k < |r| ==> r[k].value == v && r[k] in ts
  {
    if |ts| == 0 then []
    else if ts[0].value == v then [ts[0]] + WithValue(ts[1..], v)
    else WithValue(ts[1..], v)
  }

  lemma {:induction false} WithValueAppend(ts: seq<Token>, t: Token, v: string)
    ensures WithValue(ts + [t], v) == WithValue(ts, v) + (if t.value == v then [t] else [])
  {
    if |ts| != 0 {
      assert (ts + [t])[1..] == ts[1..] + [t];
      WithValueAppend(ts[1..], t, v);
    } else {
      assert ts + [t] == [t];
    }
  }

  /** `retain` keeps something exactly when some token has that value, and
      the first kept token is the first stored token with that value. */
  lemma {:induction false} WithValueFirst(ts: seq<Token>, v: string)
    ensures |WithValue(ts, v)| > 0 <==> exists i :: 0 <= i < |ts| && ts[i].value == v
    ensures |WithValue(ts, v)| > 0 ==>
      exists i :: 0 <= i < |ts| && ts[i] == WithValue(ts, v)[0] &&
        forall j :: 0 <= j < i ==> ts[j].value != v
  {
    if |ts| != 0 {
      WithValueFirst(ts[1..], v);
      if ts[0].value != v {
        if exists i :: 0 <= i < |ts| && ts[i].value == v {
          var i :| 0 <= i < |ts| && ts[i].value == v;
          assert ts[1..][i - 1].value == v;
        }
        if |WithValue(ts, v)| > 0 {
          var i :| 0 <= i < |ts[1..]| && ts[1..][i] == WithValue(ts[1..], v)[0] &&
            forall j :: 0 <= j < i ==> ts[1..][j].value != v;
          assert ts[i + 1] == WithValue(ts, v)[0];
          forall j | 0 <= j < i + 1 ensures ts[j].value != v {
            if j > 0 { assert ts[j] == ts[1..][j - 1]; }
          }
        }
      } else {
        assert ts[0] == WithValue(ts, v)[0];
      }
    }
  }

  /** `t` is the first token of `ts` whose value is `v`: what
      `tokens.get(0)` yields after the `retain`. */
  predicate IsFirstWithValue(ts: seq<Token>, v: string, t: Token)
  {
    exists i :: 0 <= i < |ts| && ts[i] == t && t.value == v &&
      forall j :: 0 <= j < i ==> ts[j].value != v
  }

  /** `tokens.retain(|t| t.token == v)` on a copy of the list. */
  method Retain(tokens: seq<Token>, v: string) returns (kept: seq<Token>)
    ensures kept == WithValue(tokens, v)
  {
    kept := [];
    var i := 0;
    while i < |tokens|
      invariant 0 <= i <= |tokens|
      invariant kept == WithValue(tokens[..i], v)
    {
      assert tokens[..i + 1] == tokens[..i] + [tokens[i]];
      WithValueAppend(tokens[..i], tokens[i], v);
      if tokens[i].value == v {
        kept := kept + [tokens[i]];
      }
      i := i + 1;
    }
    assert tokens[..i] == tokens;
  }
}

/** The two request guards.  Each reads every value of one designated header
    and resolves a single value to an API user holding it as a live token. */
module Fairings {
  import opened Collection
  import opened Tokens
  import opened ApiUserModel
  import A = ApiUserManagement

  datatype Header = Header(name: string, value: string)

  /** Header names are compared without regard to ASCII case. */
  function LowerAscii(c: char): char
  {
    if 'A' <= c <= 'Z' then (c as int + 32) as char else c
  }

  predicate SameName(a: string, b: string)
  {
    |a| == |b| && forall i :: 0 <= i < |a| ==> LowerAscii(a[i]) == LowerAscii(b[i])
  }

  /** `request.headers().get(name)`: every value of that header, in order. */
  function HeaderValues(headers: seq<Header>, name: string): (vs: seq<string>)
    ensures |vs| <= |headers|
  {
    if |headers| == 0 then []
    else (if SameName(headers[0].name, name) then [headers[0].value] else [])
         + HeaderValues(headers[1..], name)
  }

  /** A header under another name does not change what a guard sees. */
  lemma {:induction false} OtherHeadersIgnored(headers: seq<Header>, h: Header, name: string)
    requires !SameName(h.name, name)
    ensures HeaderValues(headers + [h], name) == HeaderValues(headers, name)
    ensures HeaderValues([h] + headers, name) == HeaderValues(headers, name)
  {
    if |headers| != 0 {
      assert (headers + [h])[1..] == headers[1..] + [h];
      OtherHeadersIgnored(headers[1..], h, name);
    } else {
      assert headers + [h] == [h];
    }
    assert ([h] + headers)[1..] == headers;
  }

  /** A header under the guard's name, whatever its case, adds its value at
      the same end of the list the header was added to. */
  lemma {:induction false} OwnHeaderRead(headers: seq<Header>, h: Header, name: string)
    requires SameName(h.name, name)
    ensures HeaderValues(headers + [h], name) == HeaderValues(headers, name) + [h.value]
    ensures HeaderValues([h] + headers, name) == [h.value] + HeaderValues(headers, name)
  {
    if |headers| != 0 {
      assert (headers + [h])[1..] == headers[1..] + [h];
      OwnHeaderRead(headers[1..], h, name);
    } else {
      assert headers + [h] == [h];
      assert HeaderValues([h][1..], name) == [];
    }
    assert ([h] + headers)[1..] == headers;
  }

  const ApiUserTokenHeader: string := "X-Misato-API-Token"
  const ApiTokenHeader: string := "X-Misato-Token"

  datatype TokenError = BadCount | Missing | Invalid

  /** `request::Outcome`: the resolved API user, or the status and reason. */
  datatype Outcome = Success(apiuser: ApiUser) | Failure(status: nat, error: TokenError)

  /** The decision a guard takes on the values of its header. */
  predicate Decided(keys: seq<string>, apiusers: seq<ApiUser>, now: nat, o: Outcome)
  {
    && (|keys| == 0 ==> o == Failure(400, Missing))
    && (|keys| >= 2 ==> o == Failure(400, BadCount))
    && (|keys| == 1 ==>
          o == Failure(400, Invalid) ||
          (o.Success? && A.FindByLiveToken(apiusers, keys[0], now) == Some(o.apiuser)))
    && (|keys| == 1 && A.FindByLiveToken(apiusers, keys[0], now).None? ==> o == Failure(400, Invalid))
  }

  /** The shared body of both guards: a count check, then one lookup. */
  method Authenticate(keys: seq<string>, manager: A.ApiUserManager, now: nat) returns (o: Outcome)
    ensures Decided(keys, manager.apiusers, now, o)
  {
    if |keys| == 0 {
      return Failure(400, Missing);
    } else if |keys| == 1 {
      var apiuser := manager.GetApiUserFromToken(keys[0], now);
      if apiuser.Ok? && apiuser.value.Some? {
        return Success(apiuser.value.value);
      }
      return Failure(400, Invalid);
    } else {
      return Failure(400, BadCount);
    }
  }

  /** `ApiUserToken::from_request`: reads only "X-Misato-API-Token". */
  method ApiUserTokenFromRequest(headers: seq<Header>, manager: A.ApiUserManager, now: nat) returns (o: Outcome)
    ensures Decided(HeaderValues(headers, ApiUserTokenHeader), manager.apiusers, now, o)
  {
    o := Authenticate(HeaderValues(headers, ApiUserTokenHeader), manager, now);
  }

  /** `ApiToken::from_request`: reads only "X-Misato-Token". */
  method ApiTokenFromRequest(headers: seq<Header>, manager: A.ApiUserManager, now: nat) returns (o: Outcome)
    ensures Decided(HeaderValues(headers, ApiTokenHeader), manager.apiusers, now, o)
  {
    o := Authenticate(HeaderValues(headers, ApiTokenHeader), manager, now);
  }

  /** A guard that lets a request through hands the route a stored API user
      whose token is exactly the single header value and is live. */
  lemma SuccessHoldsLiveToken(keys: seq<string>, apiusers: seq<ApiUser>, now: nat, o: Outcome)
    requires Decided(keys, apiusers, now, o) && o.Success?
    ensures |keys| == 1 && o.apiuser in apiusers
    ensures o.apiuser.token.Some? && o.apiuser.token.value.value == keys[0]
    ensures IsLive(o.apiuser.token.value, now)
  {
  }
}
