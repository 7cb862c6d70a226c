/**
 * DocumentCollaboratorController: inviting a user by invitation UUID,
 * listing a document's collaborators, changing a collaborator's level and
 * removing a collaborator.
 */
module CollaboratorController {
  import opened JavaLang
  import opened Entities
  import opened DocumentModel
  import opened Store
  import opened PermissionService
  import opened ActionLogService

  /** One entry of the collaborator listing. */
  datatype CollaboratorInfo = CollaboratorInfo(userId: nat, username: string, permissionLevel: Level)

  const INVITED: string := "User invited successfully!"
  const INVITE_FAILED: string := "Failed to invite user. Check if user exists and is not already a collaborator."
  const INVITE_ACTION: string := "邀请用户参与文档协作"
  const REMOVE_ACTION: string := "删除文档协作者"

  function Info(c: Collaborator): CollaboratorInfo
  {
    CollaboratorInfo(c.userId, c.username, c.level)
  }

  /** The listing: one entry per record of the document, in record order. */
  function InfosOf(records: seq<Collaborator>, docId: nat): (r: seq<CollaboratorInfo>)
    ensures |r| == |CollaboratorsOf(records, docId)|
    ensures forall i :: 0 <= i < |r| ==> r[i] == Info(CollaboratorsOf(records, docId)[i])
    ensures forall c :: c in records && c.docId == docId ==> Info(c) in r
    ensures forall i :: 0 <= i < |r| ==> exists c :: c in records && c.docId == docId && r[i] == Info(c)
  {
    var cs := CollaboratorsOf(records, docId);
    var r := seq(|cs|, i requires 0 <= i < |cs| => Info(cs[i]));
    assert forall c :: c in cs ==> Info(c) in r by {
      forall c | c in cs ensures Info(c) in r {
        var i :| 0 <= i < |cs| && cs[i] == c;
        assert r[i] == Info(c);
      }
    }
    assert forall i :: 0 <= i < |r| ==> cs[i] in cs;
    r
  }

  /**
   * The description an invitation is logged with. The inviting user enters
   * it through string concatenation, that is through User.toString, which
   * `render` stands for.
   */
  function InviteDescription(render: User -> string, inviter: User, documentId: string): string
  {
    "邀请用户" + render(inviter) + "参与文档协作" + "文档的ID:" + documentId
  }

  /**
   * inviteUserByUuid: an unknown document is an IllegalArgumentException; a
   * refused invitation is one too; a successful one is logged.
   */
  method InviteUserByUuid(w: World, principal: string, documentId: string, invitationUuid: string, level: Level,
                          render: User -> string)
    returns (r: Result<string>)
    modifies w`collaborators, w`logs
    ensures var doc := FindDocument(w.documents, Some(documentId));
      var inviter := CurrentUser(w.users, principal);
      if doc.None? then
        r == Fail(IllegalArgumentException, "Invalid document ID:" + documentId) &&
        w.collaborators == old(w.collaborators) && w.logs == old(w.logs)
      else if inviter.Throw? then
        r == Throw(inviter.exception) && w.collaborators == old(w.collaborators) && w.logs == old(w.logs)
      else
        var o := Invitation(old(w.collaborators), w.users, w.documents[doc.value], w.users[inviter.value],
                            ByInvitation(invitationUuid), level);
        if o.Throw? then
          r == Throw(o.exception) && w.collaborators == old(w.collaborators) && w.logs == old(w.logs)
        else if o.value.None? then
          r == Fail(IllegalArgumentException, INVITE_FAILED) &&
          w.collaborators == old(w.collaborators) && w.logs == old(w.logs)
        else
          r == Ok(INVITED) &&
          w.collaborators == old(w.collaborators) + [o.value.value] &&
          w.logs == old(w.logs) + [ActionLog(principal, INVITE_ACTION,
                                             Some(InviteDescription(render, w.users[inviter.value], documentId)), None)]
    ensures UniqueRecords(old(w.collaborators)) ==> UniqueRecords(w.collaborators)
  {
    var doc := FindDocument(w.documents, Some(documentId));
    if doc.None? {
      return Fail(IllegalArgumentException, "Invalid document ID:" + documentId);
    }
    var inviter := CurrentUser(w.users, principal);
    if inviter.Throw? {
      return Throw(inviter.exception);
    }
    var invitingUser := w.users[inviter.value];
    var success := InviteUserToDocumentByUuid(w, w.documents[doc.value], invitingUser, invitationUuid, level);
    if success.Throw? {
      return Throw(success.exception);
    }
    if UniqueRecords(old(w.collaborators)) {
      InvitationKeepsRecordsUnique(old(w.collaborators), w.users, w.documents[doc.value], invitingUser,
                                   ByInvitation(invitationUuid), level);
    }
    if success.value {
      LogAction(w, principal, INVITE_ACTION, Some(InviteDescription(render, invitingUser, documentId)));
      return Ok(INVITED);
    } else {
      return Fail(IllegalArgumentException, INVITE_FAILED);
    }
  }

  /** getDocumentCollaborators: every user may view, so any existing document is listed. */
  method GetDocumentCollaborators(w: World, principal: string, documentId: string)
    returns (r: Result<seq<CollaboratorInfo>>)
    ensures var doc := FindDocument(w.documents, Some(documentId));
      var user := CurrentUser(w.users, principal);
      if doc.None? then r == Fail(IllegalArgumentException, "Invalid document ID:" + documentId)
      else if user.Throw? then r == Throw(user.exception)
      else r == Ok(InfosOf(w.collaborators, w.documents[doc.value].id))
  {
    var doc := FindDocument(w.documents, Some(documentId));
    if doc.None? {
      return Fail(IllegalArgumentException, "Invalid document ID:" + documentId);
    }
    var document := w.documents[doc.value];
    var user := CurrentUser(w.users, principal);
    if user.Throw? {
      return Throw(user.exception);
    }
    if !CanView(w.collaborators, document, w.users[user.value]) {
      return Fail(IllegalAccessException, "User not authorized to view collaborators for document");
    }
    r := Ok(InfosOf(w.collaborators, document.id));
  }

  /**
   * The record table after updateCollaboratorPermission: the document, then
   * the numeric user id, then that user's record, then the level name are
   * checked in turn. No check is made on who asks.
   */
  function PermissionUpdate(records: seq<Collaborator>, docs: seq<DocumentState>, docId: string,
                            userId: string, permission: Option<string>): (r: Result<seq<Collaborator>>)
    ensures FindDocument(docs, Some(docId)).None? ==>
      r == Fail(IllegalArgumentException, "Invalid document ID:" + docId)
    ensures ParseLong(userId).Throw? && FindDocument(docs, Some(docId)).Some? ==> r == Throw(ParseLong(userId).exception)
    ensures FindDocument(docs, Some(docId)).Some? && ParseLong(userId).Ok? &&
            FindRecord(records, docs[FindDocument(docs, Some(docId)).value].id, ParseLong(userId).value).None? ==>
      r == Fail(IllegalArgumentException, "Invalid Argument" + userId + "or" + docId)
    ensures FindDocument(docs, Some(docId)).Some? && ParseLong(userId).Ok? &&
            FindRecord(records, docs[FindDocument(docs, Some(docId)).value].id, ParseLong(userId).value).Some? &&
            LevelValueOf(permission).Throw? ==>
      r == Throw(LevelValueOf(permission).exception)
    ensures r.Ok? <==>
      FindDocument(docs, Some(docId)).Some? && ParseLong(userId).Ok? &&
      FindRecord(records, docs[FindDocument(docs, Some(docId)).value].id, ParseLong(userId).value).Some? &&
      LevelValueOf(permission).Ok?
    ensures r.Ok? ==> |r.value| == |records|
    ensures r.Ok? ==> (FindDocument(docs, Some(docId)).Some? && ParseLong(userId).Ok? &&
      FindRecord(records, docs[FindDocument(docs, Some(docId)).value].id, ParseLong(userId).value).Some?)
    ensures r.Ok? ==>
      var d := docs[FindDocument(docs, Some(docId)).value].id;
      var i := FindRecord(records, d, ParseLong(userId).value).value;
      LevelValueOf(permission) == Ok(r.value[i].level) &&
      r.value[i] == records[i].(level := r.value[i].level) && r.value[i].docId == d &&
      forall j :: 0 <= j < |records| && j != i ==> r.value[j] == records[j]
  {
    match FindDocument(docs, Some(docId))
    case None => Fail(IllegalArgumentException, "Invalid document ID:" + docId)
    case Some(d) =>
      match ParseLong(userId)
      case Throw(e) => Throw(e)
      case Ok(n) =>
        match FindRecord(records, docs[d].id, n)
        case None => Fail(IllegalArgumentException, "Invalid Argument" + userId + "or" + docId)
        case Some(i) =>
          match LevelValueOf(permission)
          case Throw(e) => Throw(e)
          case Ok(level) => Ok(records[i := records[i].(level := level)])
  }

  /** updateCollaboratorPermission */
  method UpdateCollaboratorPermission(w: World, docId: string, userId: string, permission: Option<string>)
    returns (r: Result<string>)
    modifies w`collaborators
    ensures var o := PermissionUpdate(old(w.collaborators), w.documents, docId, userId, permission);
      if o.Throw? then r == Throw(o.exception) && w.collaborators == old(w.collaborators)
      else r == Ok("Collaborator permission updated successfully!") && w.collaborators == o.value
    ensures UniqueRecords(old(w.collaborators)) ==> UniqueRecords(w.collaborators)
  {
    var doc := FindDocument(w.documents, Some(docId));
    if doc.None? {
      return Fail(IllegalArgumentException, "Invalid document ID:" + docId);
    }
    var document := w.documents[doc.value];
    var parsed := ParseLong(userId);
    if parsed.Throw? {
      return Throw(parsed.exception);
    }
    var found := FindRecord(w.collaborators, document.id, parsed.value);
    if found.None? {
      return Fail(IllegalArgumentException, "Invalid Argument" + userId + "or" + docId);
    }
    var level := LevelValueOf(permission);
    if level.Throw? {
      return Throw(level.exception);
    }
    var i := found.value;
    if UniqueRecords(w.collaborators) {
      PermissionUpdateKeepsRecordsUnique(w.collaborators, w.documents, docId, userId, permission);
    }
    w.collaborators := w.collaborators[i := w.collaborators[i].(level := level.value)];
    r := Ok("Collaborator permission updated successfully!");
  }

  /** The records that remain after deleteByDocumentAndUserId. */
  function WithoutRecord(records: seq<Collaborator>, docId: nat, userId: int): (r: seq<Collaborator>)
    ensures forall c :: c in r <==> c in records && !(c.docId == docId && c.userId == userId)
    ensures FindRecord(r, docId, userId).None?
    ensures FindRecord(records, docId, userId).None? ==> r == records
    ensures |r| <= |records|
  {
    if records == [] then []
    else
      var rest := WithoutRecord(records[1..], docId, userId);
      assert records == [records[0]] + records[1..];
      if records[0].docId == docId && records[0].userId == userId then rest else [records[0]] + rest
  }

  /**
   * The record table after removeCollaborator: the caller, then the
   * document, then the numeric user id are checked in turn. The caller's
   * own level is not consulted.
   */
  function Removal(records: seq<Collaborator>, users: seq<User>, docs: seq<DocumentState>,
                   principal: string, docId: string, userId: string): (r: Result<seq<Collaborator>>)
    ensures FindUser(users, ByUsername(principal)) == NotFound ==> r == Fail(IllegalArgumentException, "Invalid user")
    ensures FindUser(users, ByUsername(principal)).Found? && FindDocument(docs, Some(docId)).None? ==>
      r == Fail(IllegalArgumentException, "Invalid document ID:" + docId)
    ensures FindUser(users, ByUsername(principal)).Found? && FindDocument(docs, Some(docId)).Some? &&
            ParseLong(userId).Throw? ==>
      r == Throw(ParseLong(userId).exception)
    ensures r.Ok? <==>
      FindUser(users, ByUsername(principal)).Found? && FindDocument(docs, Some(docId)).Some? && ParseLong(userId).Ok?
    ensures r.Ok? ==> (FindDocument(docs, Some(docId)).Some? && ParseLong(userId).Ok? &&
      r.value == WithoutRecord(records, docs[FindDocument(docs, Some(docId)).value].id, ParseLong(userId).value))
  {
    match RequireUser(users, ByUsername(principal), Exception(IllegalArgumentException, Some("Invalid user")))
    case Throw(e) => Throw(e)
    case Ok(_) =>
      match FindDocument(docs, Some(docId))
      case None => Fail(IllegalArgumentException, "Invalid document ID:" + docId)
      case Some(d) =>
        match ParseLong(userId)
        case Throw(e) => Throw(e)
        case Ok(n) => Ok(WithoutRecord(records, docs[d].id, n))
  }

  /** removeCollaborator: deletes the record and logs the removal. */
  method RemoveCollaborator(w: World, principal: string, docId: string, userId: string)
    returns (r: Result<string>)
    modifies w`collaborators, w`logs
    ensures var o := Removal(old(w.collaborators), w.users, w.documents, principal, docId, userId);
      if o.Throw? then r == Throw(o.exception) && w.collaborators == old(w.collaborators) && w.logs == old(w.logs)
      else (r == Ok("Collaborator removed successfully!") && w.collaborators == o.value &&
            w.logs == old(w.logs) + [ActionLog(principal, REMOVE_ACTION,
                                               Some("删除文档协作者" + "文档的ID:" + docId + "用户ID:" + userId), None)])
    ensures UniqueRecords(old(w.collaborators)) ==> UniqueRecords(w.collaborators)
  {
    var user := RequireUser(w.users, ByUsername(principal), Exception(IllegalArgumentException, Some("Invalid user")));
    if user.Throw? {
      return Throw(user.exception);
    }
    var doc := FindDocument(w.documents, Some(docId));
    if doc.None? {
      return Fail(IllegalArgumentException, "Invalid document ID:" + docId);
    }
    var parsed := ParseLong(userId);
    if parsed.Throw? {
      return Throw(parsed.exception);
    }
    if UniqueRecords(w.collaborators) {
      WithoutRecordKeepsRecordsUnique(w.collaborators, w.documents[doc.value].id, parsed.value);
    }
    w.collaborators := WithoutRecord(w.collaborators, w.documents[doc.value].id, parsed.value);
    LogAction(w, principal, REMOVE_ACTION, Some("删除文档协作者" + "文档的ID:" + docId + "用户ID:" + userId));
    r := Ok("Collaborator removed successfully!");
  }

  // ---------------------------------------------------------------------
  // Properties
  // ---------------------------------------------------------------------

  /** A successful invitation puts the invitee in the document's listing with the requested level. */
  lemma InviteeIsListed(records: seq<Collaborator>, users: seq<User>, doc: DocumentState,
                        inviter: User, key: UserKey, level: Level)
    requires var o := Invitation(records, users, doc, inviter, key, level); o.Ok? && o.value.Some?
    ensures var o := Invitation(records, users, doc, inviter, key, level);
      var invitee := users[FindUser(users, key).index];
      CollaboratorInfo(invitee.id, invitee.username, level) in InfosOf(records + [o.value.value], doc.id)
  {
    var o := Invitation(records, users, doc, inviter, key, level);
    assert o.value.value in records + [o.value.value];
  }

  /** After an update, the collaborator (if not the owner) has exactly the new level. */
  lemma UpdateSetsLevel(records: seq<Collaborator>, docs: seq<DocumentState>, docId: string,
                        user: User, permission: Option<string>)
    requires user.id <= LONG_MAX
    requires PermissionUpdate(records, docs, docId, Decimal(user.id), permission).Ok?
    ensures var doc := docs[FindDocument(docs, Some(docId)).value];
      user.id != doc.ownerId ==>
        Ok(LevelOf(PermissionUpdate(records, docs, docId, Decimal(user.id), permission).value, doc, user))
          == LevelValueOf(permission)
  {
    ParseDecimal(user.id);
    var doc := docs[FindDocument(docs, Some(docId)).value];
    var after := PermissionUpdate(records, docs, docId, Decimal(user.id), permission).value;
    var i := FindRecord(records, doc.id, user.id).value;
    assert after[i].docId == doc.id && after[i].userId == user.id;
    assert FindRecord(after, doc.id, user.id) == Some(i) by {
      assert forall j :: 0 <= j < i ==> after[j] == records[j];
    }
  }

  /** After a removal, the user falls back to the default level on that document. */
  lemma RemovalMakesViewer(records: seq<Collaborator>, users: seq<User>, docs: seq<DocumentState>,
                           principal: string, docId: string, user: User)
    requires user.id <= LONG_MAX
    requires Removal(records, users, docs, principal, docId, Decimal(user.id)).Ok?
    ensures var doc := docs[FindDocument(docs, Some(docId)).value];
      user.id != doc.ownerId ==>
        LevelOf(Removal(records, users, docs, principal, docId, Decimal(user.id)).value, doc, user) == VIEWER
  {
    ParseDecimal(user.id);
  }

  /** A level change rewrites one record in place, so the pairs stay unique. */
  lemma PermissionUpdateKeepsRecordsUnique(records: seq<Collaborator>, docs: seq<DocumentState>, docId: string,
                                           userId: string, permission: Option<string>)
    requires UniqueRecords(records)
    requires PermissionUpdate(records, docs, docId, userId, permission).Ok?
    ensures UniqueRecords(PermissionUpdate(records, docs, docId, userId, permission).value)
  {
    var after := PermissionUpdate(records, docs, docId, userId, permission).value;
    var d := docs[FindDocument(docs, Some(docId)).value].id;
    var k := FindRecord(records, d, ParseLong(userId).value).value;
    forall i, j | 0 <= i < j < |after|
      ensures !(after[i].docId == after[j].docId && after[i].userId == after[j].userId)
    {
      assert after[i].docId == records[i].docId && after[i].userId == records[i].userId by {
        if i != k { assert after[i] == records[i]; }
      }
      assert after[j].docId == records[j].docId && after[j].userId == records[j].userId by {
        if j != k { assert after[j] == records[j]; }
      }
    }
  }

  /** Deleting a pair's records keeps the remaining pairs unique. */
  lemma {:induction false} WithoutRecordKeepsRecordsUnique(records: seq<Collaborator>, docId: nat, userId: int)
    requires UniqueRecords(records)
    ensures UniqueRecords(WithoutRecord(records, docId, userId))
  {
    if records != [] {
      TailKeepsUnique(records);
      WithoutRecordKeepsRecordsUnique(records[1..], docId, userId);
      var rest := WithoutRecord(records[1..], docId, userId);
      if !(records[0].docId == docId && records[0].userId == userId) {
        ConsKeepsUnique(records[0], rest);
      }
    }
  }

  /** Hence a removal keeps the pairs unique. */
  lemma RemovalKeepsRecordsUnique(records: seq<Collaborator>, users: seq<User>, docs: seq<DocumentState>,
                                  principal: string, docId: string, userId: string)
    requires UniqueRecords(records)
    requires Removal(records, users, docs, principal, docId, userId).Ok?
    ensures UniqueRecords(Removal(records, users, docs, principal, docId, userId).value)
  {
    WithoutRecordKeepsRecordsUnique(records, docs[FindDocument(docs, Some(docId)).value].id, ParseLong(userId).value);
  }

  // ---------------------------------------------------------------------
  // Level changes by whoever asks
  // ---------------------------------------------------------------------

  /**
   * A viewer who asks for their own record to become OWNER gets it, and may
   * then invite: the update consults nothing about the caller.
   */
  lemma ViewerCanPromoteSelf()
    ensures var doc := DocumentState(1, Some("d"), 1, None, None, None, None, None, None);
      var bob := User(2, "bob", None, None, "", None, None);
      var before := [Collaborator(1, 2, "bob", VIEWER)];
      var after := [Collaborator(1, 2, "bob", OWNER)];
      LevelOf(before, doc, bob) == VIEWER && !CanInvite(before, doc, bob) &&
      PermissionUpdate(before, [doc], "d", "2", Some("OWNER")) == Ok(after) &&
      LevelOf(after, doc, bob) == OWNER && CanInvite(after, doc, bob)
  {
    var doc := DocumentState(1, Some("d"), 1, None, None, None, None, None, None);
    var bob := User(2, "bob", None, None, "", None, None);
    var before := [Collaborator(1, 2, "bob", VIEWER)];
    var after := [Collaborator(1, 2, "bob", OWNER)];
    ParseDecimal(2);
    assert Decimal(2) == "2";
    assert FindDocument([doc], Some("d")) == Some(0);
    assert ParseLong("2") == Ok(2);
    assert FindRecord(before, 1, 2) == Some(0);
    assert LevelValueOf(Some("OWNER")) == Ok(OWNER);
    assert before[0 := before[0].(level := OWNER)] == after;
    assert PermissionUpdate(before, [doc], "d", "2", Some("OWNER")) == Ok(after);
    assert FindRecord(after, 1, 2) == Some(0);
  }

  /**
   * The level change with the check its siblings make: only a caller whose
   * level on the document is OWNER may change anyone's level.
   */
  function CheckedPermissionUpdate(records: seq<Collaborator>, users: seq<User>, docs: seq<DocumentState>,
                                   principal: string, docId: string, userId: string,
                                   permission: Option<string>): (r: Result<seq<Collaborator>>)
    ensures r.Ok? ==>
      var d := FindDocument(docs, Some(docId));
      var caller := CurrentUser(users, principal);
      d.Some? && caller.Ok? && LevelOf(records, docs[d.value], users[caller.value]) == OWNER &&
      r == PermissionUpdate(records, docs, docId, userId, permission)
    ensures (FindDocument(docs, Some(docId)).Some? && CurrentUser(users, principal).Ok? &&
             LevelOf(records, docs[FindDocument(docs, Some(docId)).value], users[CurrentUser(users, principal).value]) != OWNER)
      ==> r == Fail(IllegalAccessException, "Only the owner may change permissions.")
  {
    match FindDocument(docs, Some(docId))
    case None => Fail(IllegalArgumentException, "Invalid document ID:" + docId)
    case Some(d) =>
      match CurrentUser(users, principal)
      case Throw(e) => Throw(e)
      case Ok(u) =>
        if LevelOf(records, docs[d], users[u]) != OWNER then
          Fail(IllegalAccessException, "Only the owner may change permissions.")
        else PermissionUpdate(records, docs, docId, userId, permission)
  }

  /** With the check, a caller who is not an owner leaves every level as it was. */
  lemma {:induction false} CheckedUpdateKeepsNonOwnersOut(records: seq<Collaborator>, users: seq<User>,
                                                          docs: seq<DocumentState>, principal: string,
                                                          docId: string, userId: string,
                                                          permission: Option<string>, other: User)
    requires var r := CheckedPermissionUpdate(records, users, docs, principal, docId, userId, permission);
      r.Ok?
    ensures var d := docs[FindDocument(docs, Some(docId)).value];
      LevelOf(records, d, users[CurrentUser(users, principal).value]) == OWNER
    ensures var d := docs[FindDocument(docs, Some(docId)).value];
      var after := CheckedPermissionUpdate(records, users, docs, principal, docId, userId, permission).value;
      other.id != ParseLong(userId).value ==> LevelOf(after, d, other) == LevelOf(records, d, other)
  {
    var d := docs[FindDocument(docs, Some(docId)).value];
    var after := PermissionUpdate(records, docs, docId, userId, permission).value;
    var i := FindRecord(records, d.id, ParseLong(userId).value).value;
    if other.id != ParseLong(userId).value {
      UpdateKeepsOtherLookups(records, i, after, d.id, other.id);
    }
  }

  /** Rewriting one record's level leaves every other user's first record where it was. */
  lemma UpdateKeepsOtherLookups(records: seq<Collaborator>, i: nat, after: seq<Collaborator>, docId: nat, userId: int)
    requires i < |records| && |after| == |records|
    requires after[i].docId == records[i].docId && after[i].userId == records[i].userId
    requires forall j :: 0 <= j < |records| && j != i ==> after[j] == records[j]
    ensures FindRecord(after, docId, userId).Some? == FindRecord(records, docId, userId).Some?
    ensures FindRecord(records, docId, userId).Some? ==>
      FindRecord(after, docId, userId) == FindRecord(records, docId, userId) &&
      (FindRecord(records, docId, userId).value != i ==>
        after[FindRecord(records, docId, userId).value] == records[FindRecord(records, docId, userId).value])
  {
    var b := FindRecord(records, docId, userId);
    if b.Some? {
      assert after[b.value].docId == docId && after[b.value].userId == userId;
    }
  }
}
