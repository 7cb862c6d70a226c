/**
 * DocumentPermissionService: who may do what with a document. A user's level
 * is OWNER when they own the document, else the level of their permission
 * record, else VIEWER. Only a user whose record says OWNER may invite.
 */
module PermissionService {
  import opened JavaLang
  import opened Entities
  import opened DocumentModel
  import opened Store

  /** getUserPermissionLevel */
  function LevelOf(records: seq<Collaborator>, doc: DocumentState, user: User): (l: Level)
    ensures user.id == doc.ownerId ==> l == OWNER
    ensures user.id != doc.ownerId && FindRecord(records, doc.id, user.id).None? ==> l == VIEWER
    ensures user.id != doc.ownerId && FindRecord(records, doc.id, user.id).Some? ==>
      l == records[FindRecord(records, doc.id, user.id).value].level
  {
    if doc.ownerId == user.id then OWNER
    else match FindRecord(records, doc.id, user.id)
      case Some(i) => records[i].level
      case None => VIEWER
  }

  /** canEditDocument */
  predicate CanEdit(records: seq<Collaborator>, doc: DocumentState, user: User): (b: bool)
    ensures b <==> LevelOf(records, doc, user) != VIEWER
    ensures user.id == doc.ownerId ==> b
  {
    var l := LevelOf(records, doc, user);
    l == OWNER || l == EDITOR
  }

  /** canViewDocument: the level is never null, so every user may view. */
  predicate CanView(records: seq<Collaborator>, doc: DocumentState, user: User): (b: bool)
    ensures b
  {
    Some(LevelOf(records, doc, user)).Some?
  }

  /** canInviteUsers: an explicit record whose level is OWNER. */
  predicate CanInvite(records: seq<Collaborator>, doc: DocumentState, user: User): (b: bool)
    ensures FindRecord(records, doc.id, user.id).None? ==> !b
    ensures b ==> LevelOf(records, doc, user) == OWNER && CanEdit(records, doc, user)
    ensures FindRecord(records, doc.id, user.id).Some? && user.id != doc.ownerId ==>
      (b <==> LevelOf(records, doc, user) == OWNER)
  {
    match FindRecord(records, doc.id, user.id)
    case Some(i) => records[i].level == OWNER
    case None => false
  }

  /** getDocumentCollaborators: the document's records, in table order. */
  function CollaboratorsOf(records: seq<Collaborator>, docId: nat): (r: seq<Collaborator>)
    ensures forall c :: c in r <==> c in records && c.docId == docId
    ensures |r| <= |records|
  {
    if records == [] then []
    else
      var rest := CollaboratorsOf(records[1..], docId);
      assert records == [records[0]] + records[1..];
      if records[0].docId == docId then [records[0]] + rest else rest
  }

  /** The listing of a table is the listing of its front followed by that of its back: table order is kept. */
  lemma {:induction false} CollaboratorsOfAppend(a: seq<Collaborator>, b: seq<Collaborator>, docId: nat)
    ensures CollaboratorsOf(a + b, docId) == CollaboratorsOf(a, docId) + CollaboratorsOf(b, docId)
  {
    if a != [] {
      assert (a + b)[0] == a[0] && (a + b)[1..] == a[1..] + b;
      CollaboratorsOfAppend(a[1..], b, docId);
      var head := if a[0].docId == docId then [a[0]] else [];
      assert CollaboratorsOf(a + b, docId) == head + CollaboratorsOf(a[1..] + b, docId);
      assert CollaboratorsOf(a, docId) == head + CollaboratorsOf(a[1..], docId);
    } else {
      assert a + b == b;
    }
  }

  /** At most one record per (document, user) pair. */
  predicate UniqueRecords(records: seq<Collaborator>)
  {
    forall i, j :: 0 <= i < j < |records| ==>
      !(records[i].docId == records[j].docId && records[i].userId == records[j].userId)
  }

  /**
   * The record an invitation adds, if any: none when the inviter may not
   * invite, when no user matches `key`, or when the invitee already has a
   * record; the repository throws when several users match.
   */
  function Invitation(records: seq<Collaborator>, users: seq<User>, doc: DocumentState,
                      inviter: User, key: UserKey, level: Level): (r: Result<Option<Collaborator>>)
    ensures !CanInvite(records, doc, inviter) ==> r == Ok(None)
    ensures r.Throw? ==> FindUser(users, key) == Ambiguous
    ensures CanInvite(records, doc, inviter) && FindUser(users, key) == Ambiguous ==>
      r == Fail(IncorrectResultSizeDataAccessException, "query did not return a unique result")
    ensures CanInvite(records, doc, inviter) && FindUser(users, key) == NotFound ==> r == Ok(None)
    ensures CanInvite(records, doc, inviter) && FindUser(users, key).Found? &&
            FindRecord(records, doc.id, users[FindUser(users, key).index].id).Some? ==>
      r == Ok(None)
    ensures r.Ok? && r.value.Some? ==>
      CanInvite(records, doc, inviter) &&
      FindUser(users, key).Found? &&
      r.value.value == Collaborator(doc.id, users[FindUser(users, key).index].id,
                                    users[FindUser(users, key).index].username, level) &&
      FindRecord(records, doc.id, r.value.value.userId).None?
    ensures (CanInvite(records, doc, inviter) && FindUser(users, key).Found? &&
             FindRecord(records, doc.id, users[FindUser(users, key).index].id).None?) ==> r.Ok? && r.value.Some?
  {
    if !CanInvite(records, doc, inviter) then Ok(None)
    else match FindUser(users, key)
      case NotFound => Ok(None)
      case Ambiguous => Fail(IncorrectResultSizeDataAccessException, "query did not return a unique result")
      case Found(i) =>
        if FindRecord(records, doc.id, users[i].id).Some? then Ok(None)
        else Ok(Some(Collaborator(doc.id, users[i].id, users[i].username, level)))
  }

  function Added(o: Option<Collaborator>): seq<Collaborator>
  {
    if o.Some? then [o.value] else []
  }

  /** A new document's owner gets an OWNER record. */
  method InitializeDocumentPermissions(w: World, doc: DocumentState, owner: User)
    modifies w`collaborators
    ensures w.collaborators == old(w.collaborators) + [Collaborator(doc.id, owner.id, owner.username, OWNER)]
  {
    w.collaborators := w.collaborators + [Collaborator(doc.id, owner.id, owner.username, OWNER)];
  }

  /** inviteUserToDocument and inviteUserToDocumentByUuid, which differ only in the user key. */
  method Invite(w: World, doc: DocumentState, inviter: User, key: UserKey, level: Level) returns (r: Result<bool>)
    modifies w`collaborators
    ensures var o := Invitation(old(w.collaborators), w.users, doc, inviter, key, level);
      if o.Throw? then r == Throw(o.exception) && w.collaborators == old(w.collaborators)
      else r == Ok(o.value.Some?) && w.collaborators == old(w.collaborators) + Added(o.value)
  {
    if !CanInvite(w.collaborators, doc, inviter) {
      return Ok(false);
    }
    match FindUser(w.users, key)
    case NotFound =>
      return Ok(false);
    case Ambiguous =>
      return Fail(IncorrectResultSizeDataAccessException, "query did not return a unique result");
    case Found(i) =>
      var invited := w.users[i];
      if FindRecord(w.collaborators, doc.id, invited.id).Some? {
        return Ok(false);
      }
      w.collaborators := w.collaborators + [Collaborator(doc.id, invited.id, invited.username, level)];
      return Ok(true);
  }

  method InviteUserToDocument(w: World, doc: DocumentState, inviter: User, username: string, level: Level)
    returns (r: Result<bool>)
    modifies w`collaborators
    ensures var o := Invitation(old(w.collaborators), w.users, doc, inviter, ByUsername(username), level);
      if o.Throw? then r == Throw(o.exception) && w.collaborators == old(w.collaborators)
      else r == Ok(o.value.Some?) && w.collaborators == old(w.collaborators) + Added(o.value)
  {
    r := Invite(w, doc, inviter, ByUsername(username), level);
  }

  method InviteUserToDocumentByUuid(w: World, doc: DocumentState, inviter: User, invitationUuid: string, level: Level)
    returns (r: Result<bool>)
    modifies w`collaborators
    ensures var o := Invitation(old(w.collaborators), w.users, doc, inviter, ByInvitation(invitationUuid), level);
      if o.Throw? then r == Throw(o.exception) && w.collaborators == old(w.collaborators)
      else r == Ok(o.value.Some?) && w.collaborators == old(w.collaborators) + Added(o.value)
  {
    r := Invite(w, doc, inviter, ByInvitation(invitationUuid), level);
  }

  // ---------------------------------------------------------------------
  // Properties of the permission rules
  // ---------------------------------------------------------------------

  /** The owner may edit and view, whatever the records say. */
  lemma OwnerMayEdit(records: seq<Collaborator>, doc: DocumentState, user: User)
    requires user.id == doc.ownerId
    ensures CanEdit(records, doc, user) && CanView(records, doc, user)
  {
  }

  /** Editing is allowed exactly at OWNER and EDITOR; every user may view. */
  lemma EditIffOwnerOrEditor(records: seq<Collaborator>, doc: DocumentState, user: User)
    ensures CanEdit(records, doc, user) <==> LevelOf(records, doc, user) != VIEWER
    ensures CanView(records, doc, user)
  {
  }

  /** A user with no record who is not the owner is a viewer and may not edit. */
  lemma StrangerIsViewer(records: seq<Collaborator>, doc: DocumentState, user: User)
    requires user.id != doc.ownerId && FindRecord(records, doc.id, user.id).None?
    ensures LevelOf(records, doc, user) == VIEWER && !CanEdit(records, doc, user) && !CanInvite(records, doc, user)
  {
  }

  /** Invitation needs an explicit OWNER record: ownership alone does not suffice. */
  lemma OwnerWithoutRecordCannotInvite(records: seq<Collaborator>, doc: DocumentState, owner: User)
    requires owner.id == doc.ownerId && FindRecord(records, doc.id, owner.id).None?
    ensures LevelOf(records, doc, owner) == OWNER && !CanInvite(records, doc, owner)
  {
  }

  /** After initialisation the owner holds an OWNER record and so may invite. */
  lemma InitializedOwnerMayInvite(records: seq<Collaborator>, doc: DocumentState, owner: User)
    requires FindRecord(records, doc.id, owner.id).None?
    ensures var after := records + [Collaborator(doc.id, owner.id, owner.username, OWNER)];
      CanInvite(after, doc, owner) && LevelOf(after, doc, owner) == OWNER
  {
    FindRecordAppend(records, Collaborator(doc.id, owner.id, owner.username, OWNER), doc.id, owner.id);
  }

  /** A successful invitation gives the invitee (not the owner) exactly the requested level. */
  lemma InvitationGrantsLevel(records: seq<Collaborator>, users: seq<User>, doc: DocumentState,
                              inviter: User, key: UserKey, level: Level)
    requires var o := Invitation(records, users, doc, inviter, key, level); o.Ok? && o.value.Some?
    ensures var o := Invitation(records, users, doc, inviter, key, level);
      var invitee := users[FindUser(users, key).index];
      invitee.id != doc.ownerId ==> LevelOf(records + Added(o.value), doc, invitee) == level
  {
    var o := Invitation(records, users, doc, inviter, key, level);
    var c := o.value.value;
    FindRecordAppend(records, c, doc.id, c.userId);
  }

  /** An invitation changes no other user's level. */
  lemma InvitationKeepsOthers(records: seq<Collaborator>, c: Collaborator, doc: DocumentState, other: User)
    requires other.id != c.userId
    ensures LevelOf(records + [c], doc, other) == LevelOf(records, doc, other)
    ensures CanInvite(records + [c], doc, other) == CanInvite(records, doc, other)
  {
    FindRecordAppend(records, c, doc.id, other.id);
  }

  /** Invitations keep at most one record per (document, user) pair. */
  lemma InvitationKeepsRecordsUnique(records: seq<Collaborator>, users: seq<User>, doc: DocumentState,
                                     inviter: User, key: UserKey, level: Level)
    requires UniqueRecords(records)
    requires Invitation(records, users, doc, inviter, key, level).Ok?
    ensures UniqueRecords(records + Added(Invitation(records, users, doc, inviter, key, level).value))
  {
    var o := Invitation(records, users, doc, inviter, key, level);
    if o.value.Some? {
      AppendKeepsUnique(records, o.value.value);
    }
  }

  lemma AppendKeepsUnique(records: seq<Collaborator>, c: Collaborator)
    requires UniqueRecords(records)
    requires FindRecord(records, c.docId, c.userId).None?
    ensures UniqueRecords(records + [c])
  {
    var after := records + [c];
    forall i, j | 0 <= i < j < |after|
      ensures !(after[i].docId == after[j].docId && after[i].userId == after[j].userId)
    {
      if j == |records| {
        assert after[i] == records[i];
      }
    }
  }

  /**
   * With at most one record per pair, the first record FindRecord returns
   * is the only one, so it answers as the single-result query does.
   */
  lemma UniqueRecordIsOnlyMatch(records: seq<Collaborator>, docId: nat, userId: int, j: nat)
    requires UniqueRecords(records)
    requires j < |records| && records[j].docId == docId && records[j].userId == userId
    ensures FindRecord(records, docId, userId) == Some(j)
  {
  }

  /** A new document's OWNER record keeps the pairs unique when its owner had no record on it. */
  lemma InitializationKeepsRecordsUnique(records: seq<Collaborator>, doc: DocumentState, owner: User)
    requires UniqueRecords(records)
    requires FindRecord(records, doc.id, owner.id).None?
    ensures UniqueRecords(records + [Collaborator(doc.id, owner.id, owner.username, OWNER)])
  {
    AppendKeepsUnique(records, Collaborator(doc.id, owner.id, owner.username, OWNER));
  }

  /** Dropping the head of a table with unique pairs leaves unique pairs, none of them the head's. */
  lemma TailKeepsUnique(records: seq<Collaborator>)
    requires records != [] && UniqueRecords(records)
    ensures UniqueRecords(records[1..])
    ensures forall c :: c in records[1..] ==> !(c.docId == records[0].docId && c.userId == records[0].userId)
  {
    var tail := records[1..];
    forall i, j | 0 <= i < j < |tail|
      ensures !(tail[i].docId == tail[j].docId && tail[i].userId == tail[j].userId)
    {
      assert tail[i] == records[i + 1] && tail[j] == records[j + 1];
    }
    forall c | c in tail ensures !(c.docId == records[0].docId && c.userId == records[0].userId) {
      var j :| 0 <= j < |tail| && tail[j] == c;
      assert records[j + 1] == c;
    }
  }

  /** A record whose pair the rest does not hold keeps the pairs unique in front of it. */
  lemma ConsKeepsUnique(c: Collaborator, rest: seq<Collaborator>)
    requires UniqueRecords(rest)
    requires forall x :: x in rest ==> !(x.docId == c.docId && x.userId == c.userId)
    ensures UniqueRecords([c] + rest)
  {
    var all := [c] + rest;
    forall i, j | 0 <= i < j < |all|
      ensures !(all[i].docId == all[j].docId && all[i].userId == all[j].userId)
    {
      assert all[j] == rest[j - 1];
      if i > 0 {
        assert all[i] == rest[i - 1];
      }
    }
  }
}
