/**
 * AuthController: registration and the two password resets. The password
 * encoder is outside the model: callers pass the encoded password in.
 */
module AuthController {
  import opened JavaLang
  import opened Entities
  import opened Store

  /** What a unique-result query throws when several users match. */
  const NOT_UNIQUE: Exception := Exception(IncorrectResultSizeDataAccessException, Some("query did not return a unique result"))

  /**
   * The checks register makes, in order: the username, then a non-empty
   * email, then a non-empty phone number must be free; the first clash wins.
   */
  function RegistrationCheck(users: seq<User>, username: string, email: Option<string>, phone: Option<string>)
    : (r: Result<()>)
    ensures FindUser(users, ByUsername(username)).Found? ==> r == Fail(IllegalArgumentException, "Username already exists")
    ensures FindUser(users, ByUsername(username)) == NotFound && HasText(email) && FindUser(users, ByEmail(email)).Found? ==>
      r == Fail(IllegalArgumentException, "Email already exists")
    ensures FindUser(users, ByUsername(username)) == NotFound && (HasText(email) ==> FindUser(users, ByEmail(email)) == NotFound) &&
            HasText(phone) && FindUser(users, ByPhone(phone)).Found? ==>
      r == Fail(IllegalArgumentException, "Phone number already exists")
    ensures FindUser(users, ByUsername(username)) == Ambiguous ==> r == Throw(NOT_UNIQUE)
    ensures FindUser(users, ByUsername(username)) == NotFound && HasText(email) && FindUser(users, ByEmail(email)) == Ambiguous ==>
      r == Throw(NOT_UNIQUE)
    ensures FindUser(users, ByUsername(username)) == NotFound && (HasText(email) ==> FindUser(users, ByEmail(email)) == NotFound) &&
            HasText(phone) && FindUser(users, ByPhone(phone)) == Ambiguous ==>
      r == Throw(NOT_UNIQUE)
    ensures r.Ok? <==>
      FindUser(users, ByUsername(username)) == NotFound &&
      (HasText(email) ==> FindUser(users, ByEmail(email)) == NotFound) &&
      (HasText(phone) ==> FindUser(users, ByPhone(phone)) == NotFound)
  {
    match FindUser(users, ByUsername(username))
    case Ambiguous => Throw(NOT_UNIQUE)
    case Found(_) => Fail(IllegalArgumentException, "Username already exists")
    case NotFound =>
      if HasText(email) && FindUser(users, ByEmail(email)) == Ambiguous then Throw(NOT_UNIQUE)
      else if HasText(email) && FindUser(users, ByEmail(email)).Found? then Fail(IllegalArgumentException, "Email already exists")
      else if HasText(phone) && FindUser(users, ByPhone(phone)) == Ambiguous then Throw(NOT_UNIQUE)
      else if HasText(phone) && FindUser(users, ByPhone(phone)).Found? then Fail(IllegalArgumentException, "Phone number already exists")
      else Ok(())
  }

  /**
   * register: after the checks, one user is added with the encoded password.
   * `invitationUuid` is whatever the User entity assigns when saved.
   */
  method Register(w: World, username: string, encodedPassword: string, email: Option<string>, phone: Option<string>,
                  newId: nat, invitationUuid: Option<string>) returns (r: Result<string>)
    requires forall i :: 0 <= i < |w.users| ==> w.users[i].id != newId
    modifies w`users
    ensures var c := RegistrationCheck(old(w.users), username, email, phone);
      if c.Throw? then r == Throw(c.exception) && w.users == old(w.users)
      else r == Ok("User registered successfully") &&
           w.users == old(w.users) + [User(newId, username, email, phone, encodedPassword, invitationUuid, None)]
  {
    var c := RegistrationCheck(w.users, username, email, phone);
    if c.Throw? {
      return Throw(c.exception);
    }
    w.users := w.users + [User(newId, username, email, phone, encodedPassword, invitationUuid, None)];
    r := Ok("User registered successfully");
  }

  /** A key no old user matches is matched by exactly the one appended user that does. */
  lemma FindAppended(users: seq<User>, u: User, key: UserKey)
    requires FindUser(users, key) == NotFound && Matches(u, key)
    ensures FindUser(users + [u], key) == Found(|users|)
  {
    var after := users + [u];
    assert after[|users|] == u;
    assert forall i :: 0 <= i < |users| ==> after[i] == users[i];
  }

  /** Registration keeps names unique: the new user is the one user with their name, email and phone. */
  lemma RegisteredUserIsUnique(users: seq<User>, username: string, encodedPassword: string, email: Option<string>,
                               phone: Option<string>, newId: nat, invitationUuid: Option<string>)
    requires RegistrationCheck(users, username, email, phone).Ok?
    ensures var after := users + [User(newId, username, email, phone, encodedPassword, invitationUuid, None)];
      FindUser(after, ByUsername(username)) == Found(|users|) &&
      (HasText(email) ==> FindUser(after, ByEmail(email)) == Found(|users|)) &&
      (HasText(phone) ==> FindUser(after, ByPhone(phone)) == Found(|users|))
  {
    var u := User(newId, username, email, phone, encodedPassword, invitationUuid, None);
    FindAppended(users, u, ByUsername(username));
    if HasText(email) {
      FindAppended(users, u, ByEmail(email));
    }
    if HasText(phone) {
      FindAppended(users, u, ByPhone(phone));
    }
  }

  /** The password resets: the one user matching `key` gets the new encoded password, and nothing else changes. */
  method ResetPassword(w: World, key: UserKey, encodedPassword: string, missing: string) returns (r: Result<string>)
    modifies w`users
    ensures FindUser(old(w.users), key) == NotFound ==> r == Fail(IllegalArgumentException, missing) && w.users == old(w.users)
    ensures FindUser(old(w.users), key) == Ambiguous ==> r == Throw(NOT_UNIQUE) && w.users == old(w.users)
    ensures FindUser(old(w.users), key).Found? ==>
      var i := FindUser(old(w.users), key).index;
      r.Ok? && w.users == old(w.users)[i := old(w.users)[i].(password := encodedPassword)]
  {
    match FindUser(w.users, key)
    case NotFound =>
      r := Fail(IllegalArgumentException, missing);
    case Ambiguous =>
      r := Throw(NOT_UNIQUE);
    case Found(i) =>
      w.users := w.users[i := w.users[i].(password := encodedPassword)];
      r := Ok("Password reset successfully");
  }

  /** resetPasswordByEmail */
  method ResetPasswordByEmail(w: World, email: Option<string>, encodedPassword: string) returns (r: Result<string>)
    modifies w`users
    ensures FindUser(old(w.users), ByEmail(email)) == NotFound ==>
      r == Fail(IllegalArgumentException, "Email not found") && w.users == old(w.users)
    ensures FindUser(old(w.users), ByEmail(email)).Found? ==>
      var i := FindUser(old(w.users), ByEmail(email)).index;
      r == Ok("Password reset successfully via email") &&
      w.users == old(w.users)[i := old(w.users)[i].(password := encodedPassword)]
    ensures r.Throw? ==> w.users == old(w.users)
  {
    r := ResetPassword(w, ByEmail(email), encodedPassword, "Email not found");
    if r.Ok? {
      r := Ok("Password reset successfully via email");
    }
  }

  /** resetPasswordByPhone */
  method ResetPasswordByPhone(w: World, phone: Option<string>, encodedPassword: string) returns (r: Result<string>)
    modifies w`users
    ensures FindUser(old(w.users), ByPhone(phone)) == NotFound ==>
      r == Fail(IllegalArgumentException, "Phone number not found") && w.users == old(w.users)
    ensures FindUser(old(w.users), ByPhone(phone)).Found? ==>
      var i := FindUser(old(w.users), ByPhone(phone)).index;
      r == Ok("Password reset successfully via phone") &&
      w.users == old(w.users)[i := old(w.users)[i].(password := encodedPassword)]
    ensures r.Throw? ==> w.users == old(w.users)
  {
    r := ResetPassword(w, ByPhone(phone), encodedPassword, "Phone number not found");
    if r.Ok? {
      r := Ok("Password reset successfully via phone");
    }
  }

  /** A reset keeps every lookup key, so the user it found is found again by the same key. */
  lemma ResetKeepsLookups(users: seq<User>, key: UserKey, encodedPassword: string, other: UserKey)
    requires FindUser(users, key).Found?
    ensures var i := FindUser(users, key).index;
      FindUser(users[i := users[i].(password := encodedPassword)], other) == FindUser(users, other)
  {
    var i := FindUser(users, key).index;
    var after := users[i := users[i].(password := encodedPassword)];
    assert forall j :: 0 <= j < |users| ==> (Matches(after[j], other) <==> Matches(users[j], other));
    FindUserSameMatches(users, after, other);
  }

  /** Two tables whose rows match a key alike answer the lookup alike. */
  lemma {:induction false} FindUserSameMatches(a: seq<User>, b: seq<User>, key: UserKey)
    requires |a| == |b|
    requires forall j :: 0 <= j < |a| ==> (Matches(a[j], key) <==> Matches(b[j], key))
    ensures FindUser(a, key) == FindUser(b, key)
  {
    var ra := FindUser(a, key);
    var rb := FindUser(b, key);
    if ra == Ambiguous {
      var i, j :| 0 <= i < j < |a| && Matches(a[i], key) && Matches(a[j], key);
      assert Matches(b[i], key) && Matches(b[j], key);
    }
  }
}
