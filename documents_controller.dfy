/**
 * DocumentsController: saving a document's content, deleting a document,
 * retitling it, adding tags, and the tag queries. Each operation loads the
 * stored row into a Document entity, changes it through its setters and
 * saves it back.
 */
module DocumentsController {
  import opened JavaLang
  import opened Entities
  import opened DocumentModel
  import opened Store
  import opened PermissionService

  const SAVED: string := "Document saved successfully!"
  const DELETED: string := "Document deleted successfully!"
  const RETITLED: string := "Document title updated successfully!"
  const TAGGED: string := "Tags added successfully!"

  // ---------------------------------------------------------------------
  // saveDocument
  // ---------------------------------------------------------------------

  /**
   * The row saveDocument writes: the content is always replaced, language
   * and title only by a non-null, non-empty argument; nothing else changes,
   * but the update time moves to `now` whenever one of those did.
   */
  function Saved(row: DocumentState, content: string, language: Option<string>, title: Option<string>,
                 now: int): (r: DocumentState)
    ensures r.content == Some(content)
    ensures r.language == (if HasText(language) then language else row.language)
    ensures r.title == (if HasText(title) then title else row.title)
    ensures r.id == row.id && r.uniqueId == row.uniqueId && r.ownerId == row.ownerId
    ensures r.tags == row.tags && r.createdAt == row.createdAt
    ensures r == row <==>
      row.content == Some(content) && (HasText(language) ==> row.language == language) &&
      (HasText(title) ==> row.title == title)
    ensures r != row ==> r.updatedAt == Some(now)
  {
    Flushed(row, row.(content := Some(content),
                      language := if HasText(language) then language else row.language,
                      title := if HasText(title) then title else row.title), now)
  }

  /** Saving the same content again, at any later time, writes nothing new. */
  lemma SavedIdempotent(row: DocumentState, content: string, language: Option<string>, title: Option<string>,
                        now: int, later: int)
    ensures Saved(Saved(row, content, language, title, now), content, language, title, later)
         == Saved(row, content, language, title, now)
  {
  }

  /**
   * saveDocument: the document, then the user, then edit permission are
   * checked; the first failure is thrown and nothing is written.
   */
  method SaveDocument(w: World, principal: string, documentId: string, content: string,
                      language: Option<string>, title: Option<string>, now: int) returns (r: Result<string>)
    modifies w`documents
    ensures var d := FindDocument(old(w.documents), Some(documentId));
      var u := RequireUser(w.users, ByUsername(principal), Exception(IllegalStateException, Some("User not found")));
      if d.None? then
        r == Fail(IllegalArgumentException, "Invalid document ID:" + documentId) && w.documents == old(w.documents)
      else if u.Throw? then
        r == Throw(u.exception) && w.documents == old(w.documents)
      else if !CanEdit(w.collaborators, old(w.documents)[d.value], w.users[u.value]) then
        r == Fail(IllegalAccessException, "You don't have permission to save this document.") &&
        w.documents == old(w.documents)
      else
        r == Ok(SAVED) &&
        w.documents == old(w.documents)[d.value := Saved(old(w.documents)[d.value], content, language, title, now)]
  {
    var found := FindDocument(w.documents, Some(documentId));
    if found.None? {
      return Fail(IllegalArgumentException, "Invalid document ID:" + documentId);
    }
    var i := found.value;
    var document := new Document.Load(w.documents[i]);
    var user := RequireUser(w.users, ByUsername(principal), Exception(IllegalStateException, Some("User not found")));
    if user.Throw? {
      return Throw(user.exception);
    }
    if !CanEdit(w.collaborators, document.State(), w.users[user.value]) {
      return Fail(IllegalAccessException, "You don't have permission to save this document.");
    }
    document.content := Some(content);
    if HasText(language) {
      document.language := language;
    }
    if HasText(title) {
      document.title := title;
    }
    document.Flush(w.documents[i], now);
    w.documents := w.documents[i := document.State()];
    r := Ok(SAVED);
  }

  // ---------------------------------------------------------------------
  // deleteDocument
  // ---------------------------------------------------------------------

  /** documentCollaboratorRepository.deleteByDocumentId: the records of other documents. */
  function WithoutDocument(records: seq<Collaborator>, docId: nat): (r: seq<Collaborator>)
    ensures forall c :: c in r <==> c in records && c.docId != docId
    ensures |r| <= |records|
  {
    if records == [] then []
    else
      var rest := WithoutDocument(records[1..], docId);
      assert records == [records[0]] + records[1..];
      if records[0].docId == docId then rest else [records[0]] + rest
  }

  /** The table after deleting row `i`. */
  function RemoveAt(docs: seq<DocumentState>, i: nat): (r: seq<DocumentState>)
    requires i < |docs|
    ensures |r| == |docs| - 1
    ensures multiset(r) == multiset(docs) - multiset{docs[i]}
    ensures forall j :: 0 <= j < i ==> r[j] == docs[j]
    ensures forall j :: i <= j < |r| ==> r[j] == docs[j + 1]
  {
    assert docs == docs[..i] + [docs[i]] + docs[i + 1..];
    docs[..i] + docs[i + 1..]
  }

  /** Deleting a document's records keeps the remaining pairs unique. */
  lemma {:induction false} WithoutDocumentKeepsRecordsUnique(records: seq<Collaborator>, docId: nat)
    requires UniqueRecords(records)
    ensures UniqueRecords(WithoutDocument(records, docId))
  {
    if records != [] {
      TailKeepsUnique(records);
      WithoutDocumentKeepsRecordsUnique(records[1..], docId);
      if records[0].docId != docId {
        ConsKeepsUnique(records[0], WithoutDocument(records[1..], docId));
      }
    }
  }

  /** Deleting a document's records leaves nobody with a record on it. */
  lemma WithoutDocumentLeavesNone(records: seq<Collaborator>, docId: nat)
    ensures CollaboratorsOf(WithoutDocument(records, docId), docId) == []
  {
  }

  /** Deleting one document's records changes no user's level on any other document. */
  lemma {:induction false} WithoutDocumentKeepsOthers(records: seq<Collaborator>, docId: nat, userId: int, other: nat)
    requires other != docId
    ensures FindRecord(WithoutDocument(records, docId), other, userId).Some? == FindRecord(records, other, userId).Some?
    ensures FindRecord(records, other, userId).Some? ==>
      WithoutDocument(records, docId)[FindRecord(WithoutDocument(records, docId), other, userId).value]
        == records[FindRecord(records, other, userId).value]
  {
    if records != [] {
      var rest := WithoutDocument(records[1..], docId);
      WithoutDocumentKeepsOthers(records[1..], docId, userId, other);
      if records[0].docId == docId {
        assert WithoutDocument(records, docId) == rest;
      } else {
        assert WithoutDocument(records, docId) == [records[0]] + rest;
        assert ([records[0]] + rest)[1..] == rest;
      }
    }
  }

  /** Hence every level on another document is unchanged. */
  lemma DeleteKeepsOtherLevels(records: seq<Collaborator>, docId: nat, doc: DocumentState, user: User)
    requires doc.id != docId
    ensures LevelOf(WithoutDocument(records, docId), doc, user) == LevelOf(records, doc, user)
  {
    WithoutDocumentKeepsOthers(records, docId, user.id, doc.id);
  }

  /**
   * deleteDocument: the user, then the document are looked up; a user whose
   * level is OWNER removes every record of the document and then the
   * document; anyone else is refused and nothing is removed.
   */
  method DeleteDocument(w: World, principal: string, docId: string) returns (r: Result<string>)
    modifies w`documents, w`collaborators
    ensures var u := RequireUser(w.users, ByUsername(principal), Exception(IllegalStateException, Some("no user exist")));
      var d := FindDocument(old(w.documents), Some(docId));
      if u.Throw? then
        r == Throw(u.exception) && w.documents == old(w.documents) && w.collaborators == old(w.collaborators)
      else if d.None? then
        r == Fail(IllegalArgumentException, "Invalid document ID;") &&
        w.documents == old(w.documents) && w.collaborators == old(w.collaborators)
      else if LevelOf(old(w.collaborators), old(w.documents)[d.value], w.users[u.value]) != OWNER then
        r == Fail(IllegalAccessException, "You don't have permission to delete this document.") &&
        w.documents == old(w.documents) && w.collaborators == old(w.collaborators)
      else
        r == Ok(DELETED) &&
        w.collaborators == WithoutDocument(old(w.collaborators), old(w.documents)[d.value].id) &&
        w.documents == RemoveAt(old(w.documents), d.value)
    ensures UniqueRecords(old(w.collaborators)) ==> UniqueRecords(w.collaborators)
  {
    var user := RequireUser(w.users, ByUsername(principal), Exception(IllegalStateException, Some("no user exist")));
    if user.Throw? {
      return Throw(user.exception);
    }
    var found := FindDocument(w.documents, Some(docId));
    if found.None? {
      return Fail(IllegalArgumentException, "Invalid document ID;");
    }
    var document := w.documents[found.value];
    if LevelOf(w.collaborators, document, w.users[user.value]) == OWNER {
      if UniqueRecords(w.collaborators) {
        WithoutDocumentKeepsRecordsUnique(w.collaborators, document.id);
      }
      w.collaborators := WithoutDocument(w.collaborators, document.id);
      w.documents := RemoveAt(w.documents, found.value);
      r := Ok(DELETED);
    } else {
      r := Fail(IllegalAccessException, "You don't have permission to delete this document.");
    }
  }

  // ---------------------------------------------------------------------
  // updateDocumentTitle
  // ---------------------------------------------------------------------

  /**
   * updateDocumentTitle: any known user may retitle any document; the
   * payload's "title" is stored as given, a missing entry as null.
   */
  method UpdateDocumentTitle(w: World, principal: string, docId: string, title: Option<string>, now: int)
    returns (r: Result<string>)
    modifies w`documents
    ensures var u := RequireUser(w.users, ByUsername(principal), Exception(IllegalStateException, Some("no user exist")));
      var d := FindDocument(old(w.documents), Some(docId));
      if u.Throw? then r == Throw(u.exception) && w.documents == old(w.documents)
      else if d.None? then r == Fail(IllegalArgumentException, "Invalid document ID;") && w.documents == old(w.documents)
      else
        var row := old(w.documents)[d.value];
        r == Ok(RETITLED) &&
        w.documents == old(w.documents)[d.value := if row.title == title then row
                                                   else row.(title := title, updatedAt := Some(now))]
  {
    var user := RequireUser(w.users, ByUsername(principal), Exception(IllegalStateException, Some("no user exist")));
    if user.Throw? {
      return Throw(user.exception);
    }
    var found := FindDocument(w.documents, Some(docId));
    if found.None? {
      return Fail(IllegalArgumentException, "Invalid document ID;");
    }
    var document := new Document.Load(w.documents[found.value]);
    document.title := title;
    document.Flush(w.documents[found.value], now);
    w.documents := w.documents[found.value := document.State()];
    r := Ok(RETITLED);
  }

  // ---------------------------------------------------------------------
  // addTagsToDocument
  // ---------------------------------------------------------------------

  /** Each piece of a split tag string, trimmed. */
  function TrimAll(pieces: seq<string>): seq<string>
  {
    seq(|pieces|, i requires 0 <= i < |pieces| => Trim(pieces[i]))
  }

  /** The tags a split tag string contributes: its trimmed, non-empty pieces. */
  function NewTags(pieces: seq<string>): set<string>
  {
    NonEmpty(TrimAll(pieces))
  }

  /** The new tags are non-empty, carry no surrounding blanks, and keep a comma-free piece comma-free. */
  lemma NewTagsShape(pieces: seq<string>)
    requires forall i :: 0 <= i < |pieces| ==> ',' !in pieces[i]
    ensures forall t :: t in NewTags(pieces) ==> t != "" && ',' !in t && !IsSpace(t[0]) && !IsSpace(t[|t| - 1])
  {
    var trimmed := TrimAll(pieces);
    forall t | t in NewTags(pieces)
      ensures t != "" && ',' !in t && !IsSpace(t[0]) && !IsSpace(t[|t| - 1])
    {
      var i :| 0 <= i < |trimmed| && trimmed[i] == t;
      assert t == Trim(pieces[i]);
    }
  }

  /** The merge loop: the existing tags plus every trimmed, non-empty new piece. */
  method MergeTags(existing: seq<string>, pieces: seq<string>) returns (tagSet: set<string>)
    ensures tagSet == Elements(existing) + NewTags(pieces)
  {
    ghost var trimmed := TrimAll(pieces);
    tagSet := Elements(existing);
    var k := 0;
    while k < |pieces|
      invariant 0 <= k <= |pieces|
      invariant tagSet == Elements(existing) + NonEmpty(trimmed[..k])
    {
      var t := Trim(pieces[k]);
      TrimmedPrefix(pieces, k);
      if t != "" {
        tagSet := tagSet + {t};
      }
      k := k + 1;
    }
    assert trimmed[..k] == trimmed;
  }

  /** The next trimmed prefix adds the next piece's trimmed text when that is non-empty. */
  lemma TrimmedPrefix(pieces: seq<string>, k: nat)
    requires k < |pieces|
    ensures NonEmpty(TrimAll(pieces)[..k + 1]) ==
            NonEmpty(TrimAll(pieces)[..k]) + (if Trim(pieces[k]) != "" then {Trim(pieces[k])} else {})
  {
    assert TrimAll(pieces)[..k + 1] == TrimAll(pieces)[..k] + [Trim(pieces[k])];
    NonEmptySnoc(TrimAll(pieces)[..k], Trim(pieces[k]));
  }

  /**
   * The tags a document holds after addTagsToDocument: the non-empty tags
   * it had, plus the trimmed non-empty pieces of the tag string.
   */
  function TagsAfterAdding(tags: Option<string>, tagsString: string): set<string>
  {
    NonEmpty(TagList(tags)) + NewTags(Split(tagsString, ','))
  }

  /** Adding never loses a tag. */
  lemma AddingKeepsTags(tags: Option<string>, tagsString: string)
    ensures NonEmpty(TagList(tags)) <= TagsAfterAdding(tags, tagsString)
  {
  }

  /** Adding the same tag string again changes nothing further. */
  lemma AddingIdempotent(tags: Option<string>, again: Option<string>, tagsString: string)
    requires NonEmpty(TagList(again)) == TagsAfterAdding(tags, tagsString)
    ensures TagsAfterAdding(again, tagsString) == TagsAfterAdding(tags, tagsString)
  {
  }

  /**
   * addTagsToDocument: the user, the document, edit permission and a
   * non-blank tag string are checked in turn; on success the document's
   * non-empty tags become the union of the old ones and the new pieces.
   */
  method AddTagsToDocument(w: World, principal: string, docId: string, tagsString: Option<string>, now: int)
    returns (r: Result<string>)
    modifies w`documents
    ensures |w.documents| == |old(w.documents)|
    ensures var u := RequireUser(w.users, ByUsername(principal), Exception(IllegalStateException, Some("User not found")));
      var d := FindDocument(old(w.documents), Some(docId));
      if u.Throw? then r == Throw(u.exception) && w.documents == old(w.documents)
      else if d.None? then
        r == Fail(IllegalArgumentException, "Invalid document ID: " + docId) && w.documents == old(w.documents)
      else if !CanEdit(w.collaborators, old(w.documents)[d.value], w.users[u.value]) then
        r == Fail(IllegalAccessException, "You don't have permission to add tags to this document.") &&
        w.documents == old(w.documents)
      else if tagsString.None? || Trim(tagsString.value) == "" then
        r == Fail(IllegalArgumentException, "Tags cannot be empty.") && w.documents == old(w.documents)
      else
        var row := old(w.documents)[d.value];
        r == Ok(TAGGED) &&
        NonEmpty(TagList(w.documents[d.value].tags)) == TagsAfterAdding(row.tags, tagsString.value) &&
        (w.documents[d.value].tags == row.tags ==> w.documents[d.value] == row) &&
        (w.documents[d.value].tags != row.tags ==>
           w.documents[d.value] == row.(tags := w.documents[d.value].tags, updatedAt := Some(now))) &&
        forall j :: 0 <= j < |w.documents| && j != d.value ==> w.documents[j] == old(w.documents)[j]
  {
    var user := RequireUser(w.users, ByUsername(principal), Exception(IllegalStateException, Some("User not found")));
    if user.Throw? {
      return Throw(user.exception);
    }
    var found := FindDocument(w.documents, Some(docId));
    if found.None? {
      return Fail(IllegalArgumentException, "Invalid document ID: " + docId);
    }
    var row := w.documents[found.value];
    if !CanEdit(w.collaborators, row, w.users[user.value]) {
      return Fail(IllegalAccessException, "You don't have permission to add tags to this document.");
    }
    if tagsString.None? || Trim(tagsString.value) == "" {
      return Fail(IllegalArgumentException, "Tags cannot be empty.");
    }
    var next := Tagged(row, tagsString.value, now);
    w.documents := w.documents[found.value := next];
    r := Ok(TAGGED);
  }

  /** A list holding exactly the merged set is comma-free and keeps exactly the merged tags. */
  lemma MergedListShape(existing: seq<string>, pieces: seq<string>, list: seq<string>)
    requires forall i :: 0 <= i < |existing| ==> ',' !in existing[i]
    requires forall i :: 0 <= i < |pieces| ==> ',' !in pieces[i]
    requires Elements(list) == Elements(existing) + NewTags(pieces)
    ensures forall k :: 0 <= k < |list| ==> ',' !in list[k]
    ensures NonEmpty(list) == NonEmpty(existing) + NewTags(pieces)
  {
    NewTagsShape(pieces);
    forall k | 0 <= k < |list| ensures ',' !in list[k] {
      var t := list[k];
      assert t in Elements(list);
      if t !in NewTags(pieces) {
        assert t in Elements(existing);
        assert t in existing;
        var i :| 0 <= i < |existing| && existing[i] == t;
      }
    }
    SameElementsSameNonEmpty(list, existing, NewTags(pieces));
  }

  lemma SameElementsSameNonEmpty(list: seq<string>, existing: seq<string>, added: set<string>)
    requires Elements(list) == Elements(existing) + added
    requires "" !in added
    ensures NonEmpty(list) == NonEmpty(existing) + added
  {
    forall x: string ensures x in NonEmpty(list) <==> x in NonEmpty(existing) + added {
      assert x in list <==> x in Elements(list);
      assert x in existing <==> x in Elements(existing);
    }
  }

  /** The merge itself, on the loaded entity: the row addTagsToDocument saves. */
  method Tagged(row: DocumentState, tagsString: string, now: int) returns (next: DocumentState)
    ensures NonEmpty(TagList(next.tags)) == TagsAfterAdding(row.tags, tagsString)
    ensures next.tags == row.tags ==> next == row
    ensures next.tags != row.tags ==> next == row.(tags := next.tags, updatedAt := Some(now))
  {
    var document := new Document.Load(row);
    var pieces := Split(tagsString, ',');
    var existing := document.GetTagList();
    var tagSet := MergeTags(existing, pieces);
    var list := ListOf(tagSet);
    MergedListShape(existing, pieces, list);
    TagListKeepsTags(list);
    document.SetTagList(Some(list));
    document.Flush(row, now);
    next := document.State();
  }

  // ---------------------------------------------------------------------
  // getTags and getDocumentsByTag
  // ---------------------------------------------------------------------

  /** The union of the tag lists of `ds`. */
  function TagsOf(ds: seq<DocumentState>): (r: set<string>)
    ensures forall t :: t in r <==> exists d :: d in ds && t in TagList(d.tags)
  {
    if ds == [] then {}
    else
      var last := ds[|ds| - 1];
      var front := ds[..|ds| - 1];
      assert ds == front + [last];
      TagsOf(front) + Elements(TagList(last.tags))
  }

  /** The documents the user holds a record for, in record order. */
  function MyDocuments(records: seq<Collaborator>, docs: seq<DocumentState>, userId: nat): seq<DocumentState>
  {
    DocumentsOfRecords(RecordsOfUser(records, userId), docs)
  }

  /** getTags: the union of the tags of every document the user holds a record for. */
  method GetTags(w: World, principal: string) returns (r: Result<set<string>>)
    ensures var u := RequireUser(w.users, ByUsername(principal), Exception(IllegalStateException, Some("User not found")));
      if u.Throw? then r == Throw(u.exception)
      else r.Ok? && forall t :: t in r.value <==>
        exists d :: d in MyDocuments(w.collaborators, w.documents, w.users[u.value].id) && t in TagList(d.tags)
  {
    var tags: set<string> := {};
    var user := RequireUser(w.users, ByUsername(principal), Exception(IllegalStateException, Some("User not found")));
    if user.Throw? {
      return Throw(user.exception);
    }
    var documents := MyDocuments(w.collaborators, w.documents, w.users[user.value].id);
    var k := 0;
    while k < |documents|
      invariant 0 <= k <= |documents|
      invariant tags == TagsOf(documents[..k])
    {
      var prefix := documents[..k + 1];
      assert prefix[..k] == documents[..k] && prefix[k] == documents[k];
      tags := tags + Elements(TagList(documents[k].tags));
      k := k + 1;
    }
    assert documents[..k] == documents;
    assert tags == TagsOf(documents);
    r := Ok(tags);
  }

  /** documentRepository.findByTags: the documents whose tags column is exactly `tag`. */
  function WithTags(docs: seq<DocumentState>, tag: string): (r: seq<DocumentState>)
    ensures forall d :: d in r <==> d in docs && d.tags == Some(tag)
  {
    if docs == [] then []
    else
      var rest := WithTags(docs[1..], tag);
      assert docs == [docs[0]] + docs[1..];
      if docs[0].tags == Some(tag) then [docs[0]] + rest else rest
  }

  /** getDocumentsByTag: any known user sees every document whose column equals `tag`. */
  method GetDocumentsByTag(w: World, principal: string, tag: string) returns (r: Result<seq<DocumentState>>)
    ensures var u := RequireUser(w.users, ByUsername(principal), Exception(IllegalStateException, Some("User not found")));
      if u.Throw? then r == Throw(u.exception)
      else r.Ok? && forall d :: d in r.value <==> d in w.documents && d.tags == Some(tag)
  {
    var user := RequireUser(w.users, ByUsername(principal), Exception(IllegalStateException, Some("User not found")));
    if user.Throw? {
      return Throw(user.exception);
    }
    r := Ok(WithTags(w.documents, tag));
  }
}
