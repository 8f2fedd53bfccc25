/** The pieces of the security crate the record models need.  Hashing and
    verification of passwords (argon2) and the random token generator are
    not modelled: a password is an opaque salt/hash pair, and a generated
    token is any value of the shape the generator produces. */
module Security {

  /** `Password`: the salt and the argon2 hash derived from it. */
  datatype Password = Password(salt: seq<bv8>, hash: seq<bv8>)

  /** The length every route asks `generate_token` for. */
  const TokenLength: nat := 128

  predicate IsAlphanumeric(c: char)
  {
    ('0' <= c <= '9') || ('a' <= c <= 'z') || ('A' <= c <= 'Z')
  }

  /** What `generate_token(128)` returns: 128 characters drawn from the
      alphanumeric alphabet. */
  predicate IsGeneratedToken(s: string)
  {
    |s| == TokenLength && forall i :: 0 <= i < |s| ==> IsAlphanumeric(s[i])
  }
}

/** Bearer tokens: the same three fields for both kinds of account. */
module Tokens {
  import opened Security

  /** `ApiUserToken` (and the structurally identical user token): timestamps
      are milliseconds since the epoch. */
  datatype Token = Token(value: string, timestamp: nat, expirationTimestamp: nat)

  /** A token is live while its expiry is not before `now`; this is the
      `$gte` condition of every token filter. */
  predicate IsLive(t: Token, now: nat)
  {
    t.expirationTimestamp >= now
  }

  /** A freshly issued token: value from the generator, issued now, expiring
      `seconds` later (`seconds * 1000` milliseconds). */
  function IssueToken(value: string, now: nat, seconds: nat): (t: Token)
    requires IsGeneratedToken(value)
    ensures |t.value| == TokenLength && t.value == value
    ensures t.timestamp == now && t.expirationTimestamp == now + seconds * 1000
    ensures IsLive(t, now)
  {
    Token(value, now, now + seconds * 1000)
  }
}

/** The ApiUser record: one optional token, a role and optional permissions. */
module ApiUserModel {
  import opened Collection
  import opened Security
  import opened Tokens

  /** Largest signed 64-bit value, the expiry of the bootstrap token. */
  const I64Max: nat := 0x7FFF_FFFF_FFFF_FFFF

  datatype Role = Admin | Dev | User

  datatype Permission = UserManager | PermissionNone

  datatype Access = Access(role: Role, permissions: Option<seq<Permission>>)

  datatype ApiUser = ApiUser(
    timestamp: nat,
    uuid: string,
    username: string,
    password: Password,
    token: Option<Token>,
    access: Access)

  /** `Default` of the role enum. */
  function DefaultRole(): (r: Role)
    ensures r == User && r != Admin && r != Dev
  {
    User
  }

  /** `Default` of the permission enum. */
  function DefaultPermission(): (p: Permission)
    ensures p == PermissionNone && p != UserManager
  {
    PermissionNone
  }

  /** `Default` of `ApiUserAccess`: the default role and no permission list. */
  function DefaultAccess(): (a: Access)
    ensures a.role == DefaultRole() && a.permissions.None?
  {
    Access(DefaultRole(), None)
  }

  /** The password every field left to `Default` gets. */
  function DefaultPassword(): Password
  {
    Password([], [])
  }

  /** `ApiUser::create_default(secret)`: the bootstrap identity with uuid
      "admin", timestamp 0, role Admin, no permissions, and a token whose value
      is the configured secret and that never expires before `I64Max`. */
  function CreateDefault(secret: string, now: nat): (u: ApiUser)
    ensures u.uuid == "admin" && u.timestamp == 0
    ensures u.access == Access(Admin, None)
    ensures u.token.Some? && u.token.value.value == secret
    ensures u.token.value.timestamp == now && u.token.value.expirationTimestamp == I64Max
  {
    ApiUser(0, "admin", "", DefaultPassword(),
            Some(Token(secret, now, I64Max)), Access(Admin, None))
  }

  /** `ApiUser::create`: the given identity, stamped now, no token, default
      access. */
  function CreateApiUser(uuid: string, username: string, password: Password, now: nat): (u: ApiUser)
    ensures u.uuid == uuid && u.username == username && u.password == password
    ensures u.timestamp == now && u.token.None?
    ensures u.access == DefaultAccess() && u.access.role == User && u.access.permissions.None?
  {
    ApiUser(now, uuid, username, password, None, DefaultAccess())
  }

  /** `ApiUser::new_token(&mut self, seconds)`: the updated record and the
      token it now holds.  The previous token is overwritten and nothing else
      changes. */
  function NewToken(u: ApiUser, value: string, now: nat, seconds: nat): (r: (ApiUser, Token))
    requires IsGeneratedToken(value)
    ensures r.0.token == Some(r.1)
    ensures r.0 == u.(token := Some(r.1))
    ensures |r.1.value| == TokenLength && r.1.value == value
    ensures r.1.timestamp == now && r.1.expirationTimestamp == now + seconds * 1000
  {
    var t := IssueToken(value, now, seconds);
    (u.(token := Some(t)), t)
  }

  /** The bootstrap token is live at every instant up to `I64Max`. */
  lemma DefaultTokenLiveUntilI64Max(secret: string, created: nat, now: nat)
    requires now <= I64Max
    ensures IsLive(CreateDefault(secret, created).token.value, now)
  {
  }
}

/** The User record: a list of tokens, appended to on every login. */
module UserModel {
  import opened Collection
  import opened Security
  import opened Tokens

  datatype UserLog = UserLog(ip: string, timestamp: nat)

  datatype User = User(
    uuid: string,
    username: string,
    password: Password,
    logs: seq<UserLog>,
    tokens: Option<seq<Token>>)

  /** `User::create(username, password, uuid)`: the given uuid when one is
      supplied, otherwise `generated` (what `Uuid::new_v4` returned); the
      other fields take their `Default`: no logs and no token list. */
  function CreateUser(username: string, password: Password, uuid: Option<string>, generated: string): (u: User)
    ensures uuid.Some? ==> u.uuid == uuid.value
    ensures uuid.None? ==> u.uuid == generated
    ensures u.username == username && u.password == password
    ensures u.logs == [] && u.tokens.None?
  {
    User(match uuid case Some(id) => id case None => generated,
         username, password, [], None)
  }
}
