/**
 * UserProfileController: changing one's email and phone number, one's
 * password, and one's avatar. Refusals are HTTP responses, not exceptions;
 * a refused change saves nothing.
 */
module UserProfileController {
  import opened JavaLang
  import opened Entities
  import opened Store
  import opened AuthController

  /** An HTTP status with its body text. */
  datatype Response = Response(status: nat, body: string)

  const USER_NOT_FOUND: Response := Response(404, "User not found")

  /** Where updateProfile's checks lead: the user to save, or the refusal. */
  datatype ProfileOutcome = Updated(user: User) | Refused(response: Response)

  /** Whether `value` would replace `current`: non-null, non-empty and different. */
  predicate Replaces(value: Option<string>, current: Option<string>)
  {
    HasText(value) && value != current
  }

  /** A lookup by `key` finds a user other than the one with id `id`. */
  predicate HeldByOther(users: seq<User>, key: UserKey, id: nat)
  {
    FindUser(users, key).Found? && users[FindUser(users, key).index].id != id
  }

  /** The requested email, if it replaces the current one, is neither ambiguous nor another user's. */
  predicate EmailFree(users: seq<User>, user: User, newEmail: Option<string>)
  {
    Replaces(newEmail, user.email) ==>
      FindUser(users, ByEmail(newEmail)) != Ambiguous && !HeldByOther(users, ByEmail(newEmail), user.id)
  }

  /** The same for the requested phone number. */
  predicate PhoneFree(users: seq<User>, user: User, newPhone: Option<string>)
  {
    Replaces(newPhone, user.phoneNumber) ==>
      FindUser(users, ByPhone(newPhone)) != Ambiguous && !HeldByOther(users, ByPhone(newPhone), user.id)
  }

  /**
   * The checks and changes of updateProfile for `user`: the email first,
   * then the phone number, each taken only if it replaces the current value
   * and no other user holds it.
   */
  function ProfileChange(users: seq<User>, user: User, newEmail: Option<string>, newPhone: Option<string>)
    : (r: Result<ProfileOutcome>)
    ensures r.Ok? && r.value.Updated? ==>
      r.value.user == user.(email := if Replaces(newEmail, user.email) then newEmail else user.email,
                            phoneNumber := if Replaces(newPhone, user.phoneNumber) then newPhone else user.phoneNumber)
    ensures Replaces(newEmail, user.email) && HeldByOther(users, ByEmail(newEmail), user.id) ==>
      r == Ok(Refused(Response(400, "Email already exists")))
    ensures r.Ok? && r.value.Updated? && r.value.user.email != user.email ==>
      !HeldByOther(users, ByEmail(r.value.user.email), user.id)
    ensures r.Ok? && r.value.Updated? && r.value.user.phoneNumber != user.phoneNumber ==>
      !HeldByOther(users, ByPhone(r.value.user.phoneNumber), user.id)
    ensures Replaces(newEmail, user.email) && FindUser(users, ByEmail(newEmail)) == Ambiguous ==> r == Throw(NOT_UNIQUE)
    ensures EmailFree(users, user, newEmail) && Replaces(newPhone, user.phoneNumber) &&
            FindUser(users, ByPhone(newPhone)) == Ambiguous ==>
      r == Throw(NOT_UNIQUE)
    ensures EmailFree(users, user, newEmail) && Replaces(newPhone, user.phoneNumber) &&
            HeldByOther(users, ByPhone(newPhone), user.id) ==>
      r == Ok(Refused(Response(400, "Phone number already exists")))
    ensures EmailFree(users, user, newEmail) && PhoneFree(users, user, newPhone) ==> r.Ok? && r.value.Updated?
  {
    if Replaces(newEmail, user.email) && FindUser(users, ByEmail(newEmail)) == Ambiguous then Throw(NOT_UNIQUE)
    else if Replaces(newEmail, user.email) && HeldByOther(users, ByEmail(newEmail), user.id) then
      Ok(Refused(Response(400, "Email already exists")))
    else
      var withEmail := if Replaces(newEmail, user.email) then user.(email := newEmail) else user;
      if Replaces(newPhone, user.phoneNumber) && FindUser(users, ByPhone(newPhone)) == Ambiguous then Throw(NOT_UNIQUE)
      else if Replaces(newPhone, user.phoneNumber) && HeldByOther(users, ByPhone(newPhone), user.id) then
        Ok(Refused(Response(400, "Phone number already exists")))
      else Ok(Updated(if Replaces(newPhone, user.phoneNumber) then withEmail.(phoneNumber := newPhone) else withEmail))
  }

  /** updateProfile: the current user's row is replaced by the checked one, or nothing is saved. */
  method UpdateProfile(w: World, principal: string, newEmail: Option<string>, newPhone: Option<string>)
    returns (r: Result<Response>)
    modifies w`users
    ensures FindUser(old(w.users), ByUsername(principal)) == NotFound ==> r == Ok(USER_NOT_FOUND) && w.users == old(w.users)
    ensures FindUser(old(w.users), ByUsername(principal)).Found? ==>
      var i := FindUser(old(w.users), ByUsername(principal)).index;
      var c := ProfileChange(old(w.users), old(w.users)[i], newEmail, newPhone);
      if c.Throw? then r == Throw(c.exception) && w.users == old(w.users)
      else if c.value.Refused? then r == Ok(c.value.response) && w.users == old(w.users)
      else r == Ok(Response(200, "Profile updated successfully")) && w.users == old(w.users)[i := c.value.user]
    ensures r.Throw? || (r.Ok? && r.value.status != 200) ==> w.users == old(w.users)
  {
    match FindUser(w.users, ByUsername(principal))
    case NotFound =>
      return Ok(USER_NOT_FOUND);
    case Ambiguous =>
      return Throw(NOT_UNIQUE);
    case Found(i) =>
      var c := ProfileChange(w.users, w.users[i], newEmail, newPhone);
      match c
      case Throw(e) =>
        r := Throw(e);
      case Ok(Refused(response)) =>
        r := Ok(response);
      case Ok(Updated(user)) =>
        w.users := w.users[i := user];
        r := Ok(Response(200, "Profile updated successfully"));
  }

  /** An update keeps the user's identity: id, name and password are never touched. */
  lemma ProfileChangeKeepsIdentity(users: seq<User>, user: User, newEmail: Option<string>, newPhone: Option<string>)
    requires ProfileChange(users, user, newEmail, newPhone).Ok?
    requires ProfileChange(users, user, newEmail, newPhone).value.Updated?
    ensures var u := ProfileChange(users, user, newEmail, newPhone).value.user;
      u.id == user.id && u.username == user.username && u.password == user.password &&
      u.avatarUrl == user.avatarUrl && u.invitationUuid == user.invitationUuid
  {
  }

  /**
   * changePassword: `currentMatches` is the encoder's verdict on the
   * current password; only a match stores the new encoded password.
   */
  method ChangePassword(w: World, principal: string, currentMatches: bool, encodedPassword: string)
    returns (r: Result<Response>)
    modifies w`users
    ensures FindUser(old(w.users), ByUsername(principal)) == NotFound ==> r == Ok(USER_NOT_FOUND) && w.users == old(w.users)
    ensures FindUser(old(w.users), ByUsername(principal)).Found? && !currentMatches ==>
      r == Ok(Response(400, "Current password is incorrect")) && w.users == old(w.users)
    ensures FindUser(old(w.users), ByUsername(principal)).Found? && currentMatches ==>
      var i := FindUser(old(w.users), ByUsername(principal)).index;
      r == Ok(Response(200, "Password changed successfully")) &&
      w.users == old(w.users)[i := old(w.users)[i].(password := encodedPassword)]
    ensures FindUser(old(w.users), ByUsername(principal)) == Ambiguous ==> r == Throw(NOT_UNIQUE) && w.users == old(w.users)
  {
    match FindUser(w.users, ByUsername(principal))
    case NotFound =>
      return Ok(USER_NOT_FOUND);
    case Ambiguous =>
      return Throw(NOT_UNIQUE);
    case Found(i) =>
      if !currentMatches {
        return Ok(Response(400, "Current password is incorrect"));
      }
      w.users := w.users[i := w.users[i].(password := encodedPassword)];
      r := Ok(Response(200, "Password changed successfully"));
  }

  /** The file extension: from the last '.' of the original name to its end, or "" when there is none. */
  function Extension(originalFilename: Option<string>): (ext: string)
    ensures originalFilename.None? ==> ext == ""
    ensures originalFilename.Some? && '.' !in originalFilename.value ==> ext == ""
    ensures originalFilename.Some? && '.' in originalFilename.value ==>
      0 < |ext| <= |originalFilename.value| && ext[0] == '.' && '.' !in ext[1..] &&
      ext == originalFilename.value[|originalFilename.value| - |ext|..]
  {
    if originalFilename.Some? && '.' in originalFilename.value then
      originalFilename.value[LastIndexOf(originalFilename.value, '.')..]
    else ""
  }

  /** The avatar url: the upload directory under the site root, then the file name. */
  function AvatarUrl(uploadDir: string, uuid: string, ext: string): (url: string)
    ensures |url| == 1 + |uploadDir| + |uuid| + |ext| && url[0] == '/'
    ensures url[1..1 + |uploadDir|] == uploadDir && url[|url| - |ext|..] == ext
    ensures url[1 + |uploadDir|..|url| - |ext|] == uuid
  {
    "/" + uploadDir + uuid + ext
  }

  /**
   * uploadAvatar without the file copy: an empty file is refused;
   * otherwise the user's avatar url names a fresh file with the original
   * extension.
   */
  method UploadAvatar(w: World, principal: string, fileIsEmpty: bool, originalFilename: Option<string>,
                      uploadDir: string, uuid: string) returns (r: Result<Response>)
    modifies w`users
    ensures FindUser(old(w.users), ByUsername(principal)) == NotFound ==> r == Ok(USER_NOT_FOUND) && w.users == old(w.users)
    ensures FindUser(old(w.users), ByUsername(principal)).Found? && fileIsEmpty ==>
      r == Ok(Response(400, "Avatar file is empty")) && w.users == old(w.users)
    ensures FindUser(old(w.users), ByUsername(principal)).Found? && !fileIsEmpty ==>
      var i := FindUser(old(w.users), ByUsername(principal)).index;
      var url := AvatarUrl(uploadDir, uuid, Extension(originalFilename));
      r == Ok(Response(200, "Avatar uploaded successfully")) && w.users == old(w.users)[i := old(w.users)[i].(avatarUrl := Some(url))]
    ensures FindUser(old(w.users), ByUsername(principal)) == Ambiguous ==> r == Throw(NOT_UNIQUE) && w.users == old(w.users)
  {
    match FindUser(w.users, ByUsername(principal))
    case NotFound =>
      return Ok(USER_NOT_FOUND);
    case Ambiguous =>
      return Throw(NOT_UNIQUE);
    case Found(i) =>
      if fileIsEmpty {
        return Ok(Response(400, "Avatar file is empty"));
      }
      var fileExtension := "";
      if originalFilename.Some? && '.' in originalFilename.value {
        fileExtension := originalFilename.value[LastIndexOf(originalFilename.value, '.')..];
      }
      var avatarUrl := "/" + uploadDir + uuid + fileExtension;
      w.users := w.users[i := w.users[i].(avatarUrl := Some(avatarUrl))];
      r := Ok(Response(200, "Avatar uploaded successfully"));
  }
}
