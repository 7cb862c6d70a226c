/**
 * DocumentSynAspect: the advice around DocumentsController that keeps the
 * search index in step. Before any delete* the index entry named by the
 * first argument is removed, whatever the delete then does; after a save*,
 * update* or create* that returns normally, the document named by the
 * first argument is re-read and its projection stored.
 *
 * The delete advice passes the first argument's text, the document's
 * uniqueId, to deleteDocumentFromIndex, which takes a Long: as written the
 * call does not type-check. The index is therefore given two key kinds:
 * `DeleteSyncDocument` reads the call as a delete under the uniqueId text
 * (a `TextKey`), which names no stored entry because projections are kept
 * under the numeric id; `DeleteSyncDocumentByKey` removes the deleted
 * document's own entry instead.
 */
module DocumentSynAspect {
  import opened JavaLang
  import opened Entities
  import opened DocumentModel
  import opened Store
  import opened PermissionService
  import opened DocumentsController
  import opened DocumentSyncService

  /** The outcome of a call followed by advice: the advice's exception, if any, replaces the result. */
  function Followed<T>(result: Result<T>, advice: Result<()>): (r: Result<T>)
    ensures advice.Ok? ==> r == result
    ensures advice.Throw? ==> r == Throw(advice.exception)
  {
    if advice.Throw? then Throw(advice.exception) else result
  }

  /** Every entry written by a sync is under a numeric key. */
  predicate NumericKeysOnly(index: map<IndexKey, Projection>)
  {
    forall k :: k in index ==> k.NumericKey?
  }

  /** deleteSyncDocument as written: the text key is removed first, then the controller runs. */
  method DeleteSyncDocument(w: World, principal: string, docId: string) returns (r: Result<string>)
    modifies w`index, w`documents, w`collaborators
    ensures w.index == old(w.index) - {TextKey(docId)}
    ensures r.Throw? ==> w.documents == old(w.documents) && w.collaborators == old(w.collaborators)
    ensures r.Ok? ==>
      var d := FindDocument(old(w.documents), Some(docId));
      d.Some? && r == Ok(DELETED) && w.documents == RemoveAt(old(w.documents), d.value) &&
      w.collaborators == WithoutDocument(old(w.collaborators), old(w.documents)[d.value].id)
  {
    DeleteDocumentFromIndex(w, TextKey(docId));
    r := DeleteDocument(w, principal, docId);
  }

  /**
   * What the delete advice as written does to an index of numeric keys:
   * nothing, so the projection of a deleted document stays searchable.
   */
  lemma TextKeyDeleteIsNoOp(index: map<IndexKey, Projection>, docId: string, id: nat)
    requires NumericKeysOnly(index)
    ensures index - {TextKey(docId)} == index
    ensures NumericKey(id) in index ==> NumericKey(id) in index - {TextKey(docId)}
  {
    assert TextKey(docId) !in index;
  }

  /** Syncing keeps every key numeric, so the delete advice never finds its entry. */
  lemma SyncKeepsKeysNumeric(index: map<IndexKey, Projection>, d: DocumentState, docs: seq<DocumentState>)
    requires NumericKeysOnly(index)
    ensures NumericKeysOnly(index[NumericKey(d.id) := Convert(d)])
    ensures NumericKeysOnly(Synced(index, docs))
  {
  }

  /**
   * The delete advice with the key the index uses: after a delete the
   * controller accepts, the document's projection is gone; a refused
   * delete leaves the index alone.
   */
  method DeleteSyncDocumentByKey(w: World, principal: string, docId: string) returns (r: Result<string>)
    modifies w`index, w`documents, w`collaborators
    ensures r.Throw? ==> w.documents == old(w.documents) && w.collaborators == old(w.collaborators) &&
                         w.index == old(w.index)
    ensures r.Ok? ==>
      var d := FindDocument(old(w.documents), Some(docId));
      d.Some? && r == Ok(DELETED) && w.documents == RemoveAt(old(w.documents), d.value) &&
      w.collaborators == WithoutDocument(old(w.collaborators), old(w.documents)[d.value].id) &&
      w.index == old(w.index) - {NumericKey(old(w.documents)[d.value].id)} &&
      NumericKey(old(w.documents)[d.value].id) !in w.index
  {
    var found := FindDocument(w.documents, Some(docId));
    var key := if found.Some? then NumericKey(w.documents[found.value].id) else TextKey(docId);
    r := DeleteDocument(w, principal, docId);
    if r.Ok? {
      DeleteDocumentFromIndex(w, key);
    }
  }

  /**
   * The sync half of createUpdateSyncDocument: re-read the document by its
   * uniqueId and store its projection; a document that cannot be found
   * reaches the converter as null, which throws.
   */
  method SyncAfter(w: World, uniqueId: string) returns (r: Result<()>)
    modifies w`index
    ensures FindDocument(w.documents, Some(uniqueId)).None? ==>
      r == Throw(Exception(NullPointerException, None)) && w.index == old(w.index)
    ensures FindDocument(w.documents, Some(uniqueId)).Some? ==>
      var d := w.documents[FindDocument(w.documents, Some(uniqueId)).value];
      r == Ok(()) && w.index == old(w.index)[NumericKey(d.id) := Convert(d)]
  {
    var found := FindDocument(w.documents, Some(uniqueId));
    if found.None? {
      return Throw(Exception(NullPointerException, None));
    }
    SyncDocument(w, w.documents[found.value]);
    r := Ok(());
  }

  /** saveDocument under the advice: a refused save leaves the index alone, a saved document is re-indexed. */
  method SaveSyncDocument(w: World, principal: string, documentId: string, content: string,
                          language: Option<string>, title: Option<string>, now: int) returns (r: Result<string>)
    modifies w`documents, w`index
    ensures r.Throw? ==> w.documents == old(w.documents) && w.index == old(w.index)
    ensures r.Ok? ==>
      var d := FindDocument(old(w.documents), Some(documentId));
      d.Some? && r == Ok(SAVED) &&
      w.documents == old(w.documents)[d.value := Saved(old(w.documents)[d.value], content, language, title, now)] &&
      w.index == old(w.index)[NumericKey(old(w.documents)[d.value].id) := Convert(w.documents[d.value])] &&
      w.index[NumericKey(old(w.documents)[d.value].id)].content == Some(content)
  {
    ghost var before := w.documents;
    r := SaveDocument(w, principal, documentId, content, language, title, now);
    if r.Throw? {
      return;
    }
    ghost var i := FindDocument(before, Some(documentId)).value;
    FindDocumentAfterUpdate(before, Some(documentId), i, w.documents[i]);
    var synced := SyncAfter(w, documentId);
    r := Followed(r, synced);
  }

  /** updateDocumentTitle under the advice: the retitled document is re-indexed with its new title. */
  method UpdateTitleSyncDocument(w: World, principal: string, docId: string, title: Option<string>, now: int)
    returns (r: Result<string>)
    modifies w`documents, w`index
    ensures r.Throw? ==> w.documents == old(w.documents) && w.index == old(w.index)
    ensures r.Ok? ==>
      var d := FindDocument(old(w.documents), Some(docId));
      d.Some? && r == Ok(RETITLED) &&
      w.documents == old(w.documents)[d.value := if old(w.documents)[d.value].title == title then old(w.documents)[d.value]
                                                 else old(w.documents)[d.value].(title := title, updatedAt := Some(now))] &&
      w.index == old(w.index)[NumericKey(old(w.documents)[d.value].id) := Convert(w.documents[d.value])] &&
      w.index[NumericKey(old(w.documents)[d.value].id)].title == title
  {
    ghost var before := w.documents;
    r := UpdateDocumentTitle(w, principal, docId, title, now);
    if r.Throw? {
      return;
    }
    ghost var i := FindDocument(before, Some(docId)).value;
    FindDocumentAfterUpdate(before, Some(docId), i, w.documents[i]);
    var synced := SyncAfter(w, docId);
    r := Followed(r, synced);
  }
}
