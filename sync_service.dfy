/**
 * DocumentSyncService: keeps the search index, a map from key to
 * projection, in step with the document table. Projections are stored
 * under the document's numeric id.
 */
module DocumentSyncService {
  import opened JavaLang
  import opened Entities
  import opened DocumentModel
  import opened Store

  /** convertToSearchableDocument: a field copy that leaves the uniqueId unset. */
  function Convert(d: DocumentState): (p: Projection)
    ensures p.id == d.id && p.title == d.title && p.content == d.content && p.language == d.language
    ensures p.createAt == d.createdAt && p.updateAt == d.updatedAt
    ensures p.uniqueId.None?
  {
    Projection(d.id, d.title, d.content, d.language, None, d.createdAt, d.updatedAt)
  }

  /** The keys a series of documents is stored under. */
  function IdKeys(docs: seq<DocumentState>): (keys: set<IndexKey>)
    ensures forall i :: 0 <= i < |docs| ==> NumericKey(docs[i].id) in keys
    ensures forall k :: k in keys ==> k.NumericKey?
  {
    if docs == [] then {} else IdKeys(docs[..|docs| - 1]) + {NumericKey(docs[|docs| - 1].id)}
  }

  /** The index after saving the projections of `docs` in order: a later document wins a shared id. */
  function Synced(index: map<IndexKey, Projection>, docs: seq<DocumentState>): (r: map<IndexKey, Projection>)
    ensures forall k :: k in r <==> k in index || k in IdKeys(docs)
    ensures forall k :: k in index && k !in IdKeys(docs) ==> r[k] == index[k]
  {
    if docs == [] then index
    else
      var last := docs[|docs| - 1];
      Synced(index, docs[..|docs| - 1])[NumericKey(last.id) := Convert(last)]
  }

  /** syncDocument: the document's projection is stored under its id; other entries are unchanged. */
  method SyncDocument(w: World, d: DocumentState)
    modifies w`index
    ensures w.index == old(w.index)[NumericKey(d.id) := Convert(d)]
    ensures w.index[NumericKey(d.id)].content == d.content
    ensures forall k :: k != NumericKey(d.id) ==> (k in w.index <==> k in old(w.index))
  {
    w.index := w.index[NumericKey(d.id) := Convert(d)];
  }

  /** deleteDocumentFromIndex: removes the entry under `key`, if any, and nothing else. */
  method DeleteDocumentFromIndex(w: World, key: IndexKey)
    modifies w`index
    ensures w.index == old(w.index) - {key}
    ensures key !in w.index
    ensures forall k :: k != key && k in old(w.index) ==> k in w.index && w.index[k] == old(w.index)[k]
  {
    w.index := w.index - {key};
  }

  /** syncAllDocuments: one projection per stored document; entries of vanished documents stay. */
  method SyncAllDocuments(w: World)
    modifies w`index
    ensures w.index == Synced(old(w.index), w.documents)
    ensures forall k :: k in old(w.index) ==> k in w.index
  {
    var documents := w.documents;
    var k := 0;
    while k < |documents|
      invariant 0 <= k <= |documents|
      invariant w.index == Synced(old(w.index), documents[..k])
    {
      assert documents[..k + 1][..k] == documents[..k];
      w.index := w.index[NumericKey(documents[k].id) := Convert(documents[k])];
      k := k + 1;
    }
    assert documents[..k] == documents;
  }

  /** When ids are distinct, every document's own projection is what a full sync leaves under its id. */
  lemma {:induction false} SyncedHoldsEachDocument(index: map<IndexKey, Projection>, docs: seq<DocumentState>, i: nat)
    requires i < |docs|
    requires forall a, b :: 0 <= a < b < |docs| ==> docs[a].id != docs[b].id
    ensures Synced(index, docs)[NumericKey(docs[i].id)] == Convert(docs[i])
    decreases |docs|
  {
    if i < |docs| - 1 {
      var init := docs[..|docs| - 1];
      assert init[i] == docs[i];
      SyncedHoldsEachDocument(index, init, i);
    }
  }
}
