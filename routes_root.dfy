/** `POST /login`: password login of a human user. */
module RootAccount {
  import opened Collection
  import opened Security
  import opened Tokens
  import opened UserModel
  import U = UserManagement
  import opened Db
  import opened Responses

  /** The credentials are accepted: the first user with that username exists
      and the password verifies against its stored hash. */
  predicate Accepted(users: seq<User>, username: string, password: string, isCorrect: (string, Password) -> bool)
  {
    var found := FindOne(users, U.WithUsername(username));
    found.Some? && isCorrect(password, found.value.password)
  }

  /** `login`: looks the user up by username only; on success one new day-long
      token is pushed onto that user's list (a failure of that push is
      ignored) and returned.  An unknown username and a wrong password give
      the same 400, and nothing is written. */
  method Login(db: Database, username: string, password: string,
               isCorrect: (string, Password) -> bool, generated: string, now: nat)
    returns (r: Response)
    requires IsGeneratedToken(generated)
    modifies db.usermanager
    ensures r.Reply? || r == Error(400, AccountMissing) || r == Error(500, DatabaseError)
    ensures r.Reply? ==> Accepted(old(db.usermanager.users), username, password, isCorrect)
    ensures Accepted(old(db.usermanager.users), username, password, isCorrect) ==> r.Reply? || r == Error(500, DatabaseError)
    ensures r.Reply? ==>
      var u := FindOne(old(db.usermanager.users), U.WithUsername(username)).value;
      var t := IssueToken(generated, now, TokenDuration);
      r.body == Account(u.username, u.uuid, generated) &&
      (db.usermanager.users == old(db.usermanager.users) ||
       db.usermanager.users == U.SaveTokenIn(old(db.usermanager.users), u.uuid, t))
    ensures !r.Reply? ==> db.usermanager.users == old(db.usermanager.users)
  {
    var result := db.usermanager.GetUser(Some(username), None);
    if result.Err? {
      return Error(InternalError, DatabaseError);
    }
    var user := result.value;
    if user.Some? && isCorrect(password, user.value.password) {
      var token := IssueToken(generated, now, TokenDuration);
      var _ := db.usermanager.SaveToken(user.value.uuid, token);
      return Reply(Account(user.value.username, user.value.uuid, token.value));
    }
    return Error(BadRequest, AccountMissing);
  }
}
