/**
 * EditorController: the dashboard (the user's documents, or every document
 * whose tags match a filter), document creation, joining a document by its
 * uniqueId, and opening the editor.
 */
module EditorController {
  import opened JavaLang
  import opened Entities
  import opened DocumentModel
  import opened Store
  import opened PermissionService
  import opened DocumentsController

  /** A one-shot message carried across a redirect. */
  datatype Flash = NoFlash | Notice(text: string) | Error(text: string)

  datatype Redirect = Redirect(target: string, flash: Flash)

  /** What the dashboard handler renders. */
  datatype DashboardPage =
    | LoginRedirect
    | DashboardView(user: User, documents: seq<DocumentState>)

  /** What the editor handler renders. */
  datatype EditorPage =
    | EditorRedirect(redirect: Redirect)
    | EditorView(document: DocumentState, user: User, level: Level, canEdit: bool)

  const WELCOME: string := "// Welcome to Code Share!\n// Start typing your code here...\n\n"
  const NO_ACCESS: string := "You don't have permission to access this document."

  // ---------------------------------------------------------------------
  // dashboard
  // ---------------------------------------------------------------------

  /** findByTagContaining: the tags column contains `tag`, ignoring case. */
  predicate TagMatches(d: DocumentState, tag: string)
  {
    d.tags.Some? && Contains(Lower(d.tags.value), Lower(tag))
  }

  function WithTagContaining(docs: seq<DocumentState>, tag: string): (r: seq<DocumentState>)
    ensures forall d :: d in r <==> d in docs && TagMatches(d, tag)
  {
    if docs == [] then []
    else
      var rest := WithTagContaining(docs[1..], tag);
      assert docs == [docs[0]] + docs[1..];
      if TagMatches(docs[0], tag) then [docs[0]] + rest else rest
  }

  /** Matching ignores the case of the filter. */
  lemma TagMatchIgnoresCase(d: DocumentState, tag: string)
    ensures TagMatches(d, tag) == TagMatches(d, Lower(tag))
  {
    LowerIdempotent(tag);
  }

  /** Every tag a document holds matches it. */
  lemma OwnTagMatches(d: DocumentState, i: nat)
    requires i < |TagList(d.tags)|
    ensures TagMatches(d, TagList(d.tags)[i])
  {
    ContainsField(d.tags.value, ',', i);
    ContainsLower(d.tags.value, TagList(d.tags)[i]);
  }

  /**
   * dashboard: no principal redirects to the login page; with a non-empty
   * filter, every document matching one of its trimmed non-empty pieces,
   * each once and whatever the user's permissions; else the documents of
   * the user's records.
   */
  method Dashboard(w: World, principal: Option<string>, tagsParam: Option<string>) returns (r: Result<DashboardPage>)
    ensures principal.None? ==> r == Ok(LoginRedirect)
    ensures principal.Some? && CurrentUser(w.users, principal.value).Throw? ==>
      r == Throw(CurrentUser(w.users, principal.value).exception)
    ensures principal.Some? && CurrentUser(w.users, principal.value).Ok? ==>
      r.Ok? && r.value.DashboardView? && r.value.user == w.users[CurrentUser(w.users, principal.value).value]
    ensures principal.Some? && CurrentUser(w.users, principal.value).Ok? && !HasText(tagsParam) ==>
      r.value.documents == MyDocuments(w.collaborators, w.documents, r.value.user.id)
    ensures principal.Some? && CurrentUser(w.users, principal.value).Ok? && HasText(tagsParam) ==>
      NoDuplicates(r.value.documents) &&
      forall d :: d in r.value.documents <==>
        d in w.documents && exists t :: t in NewTags(Split(tagsParam.value, ',')) && TagMatches(d, t)
  {
    if principal.None? {
      return Ok(LoginRedirect);
    }
    var found := CurrentUser(w.users, principal.value);
    if found.Throw? {
      return Throw(found.exception);
    }
    var user := w.users[found.value];
    var documents: seq<DocumentState>;
    if HasText(tagsParam) {
      var documentSet := Matching(w.documents, Split(tagsParam.value, ','));
      documents := ListOf(documentSet);
    } else {
      documents := MyDocuments(w.collaborators, w.documents, user.id);
    }
    r := Ok(DashboardView(user, documents));
  }

  /** The documents of `docs` that match at least one of `tags`. */
  ghost function MatchingAny(docs: seq<DocumentState>, tags: set<string>): set<DocumentState>
  {
    set d | d in docs && exists t :: t in tags && TagMatches(d, t)
  }

  /** One more tag adds exactly the documents it matches. */
  lemma MatchingAnyAdd(docs: seq<DocumentState>, tags: set<string>, tag: string)
    ensures MatchingAny(docs, tags + {tag}) == MatchingAny(docs, tags) + Elements(WithTagContaining(docs, tag))
  {
    forall d | d in MatchingAny(docs, tags + {tag})
      ensures d in MatchingAny(docs, tags) + Elements(WithTagContaining(docs, tag))
    {
      var t :| t in tags + {tag} && TagMatches(d, t);
      if t != tag {
        assert t in tags;
      }
    }
  }

  /** The filter loop: the documents matching some trimmed, non-empty piece. */
  method Matching(docs: seq<DocumentState>, pieces: seq<string>) returns (documentSet: set<DocumentState>)
    ensures forall d :: d in documentSet <==> d in docs && exists t :: t in NewTags(pieces) && TagMatches(d, t)
  {
    ghost var trimmed := TrimAll(pieces);
    documentSet := {};
    var k := 0;
    while k < |pieces|
      invariant 0 <= k <= |pieces|
      invariant documentSet == MatchingAny(docs, NonEmpty(trimmed[..k]))
    {
      var tag := Trim(pieces[k]);
      TrimmedPrefix(pieces, k);
      if tag != "" {
        MatchingAnyAdd(docs, NonEmpty(trimmed[..k]), tag);
        documentSet := documentSet + Elements(WithTagContaining(docs, tag));
      } else {
        assert NonEmpty(trimmed[..k + 1]) == NonEmpty(trimmed[..k]);
      }
      k := k + 1;
    }
    assert trimmed[..k] == trimmed;
  }

  /** A blank filter is still a filter: its one piece trims to nothing, so nothing is shown. */
  lemma BlankFilterShowsNothing(tagsParam: string)
    requires tagsParam != "" && forall k :: 0 <= k < |tagsParam| ==> IsSpace(tagsParam[k])
    ensures NewTags(Split(tagsParam, ',')) == {}
  {
    assert TrimAll([tagsParam]) == [Trim(tagsParam)];
  }

  // ---------------------------------------------------------------------
  // createDocument
  // ---------------------------------------------------------------------

  /** The row a new document is stored as. */
  function Created(id: nat, uniqueId: string, ownerId: nat, now: int): DocumentState
  {
    DocumentState(id, Some(uniqueId), ownerId, Some("Untitled Document"), Some("javascript"), Some(WELCOME),
                  None, Some(now), Some(now))
  }

  /**
   * createDocument: the current user owns a new "Untitled Document" in
   * javascript with the welcome text, and holds an OWNER record on it, so
   * may edit it and invite to it.
   */
  method CreateDocument(w: World, principal: string, newId: nat, freshUuid: string, now: int)
    returns (r: Result<Redirect>)
    requires forall i :: 0 <= i < |w.documents| ==> w.documents[i].id != newId
    requires forall i :: 0 <= i < |w.collaborators| ==> w.collaborators[i].docId != newId
    modifies w`documents, w`collaborators
    ensures var u := CurrentUser(w.users, principal);
      if u.Throw? then
        r == Throw(u.exception) && w.documents == old(w.documents) && w.collaborators == old(w.collaborators)
      else
        var owner := w.users[u.value];
        var doc := Created(newId, freshUuid, owner.id, now);
        r == Ok(Redirect("redirect:/", Notice("Document created successfully!"))) &&
        w.documents == old(w.documents) + [doc] &&
        w.collaborators == old(w.collaborators) + [Collaborator(newId, owner.id, owner.username, OWNER)] &&
        LevelOf(w.collaborators, doc, owner) == OWNER &&
        CanEdit(w.collaborators, doc, owner) && CanInvite(w.collaborators, doc, owner)
    ensures UniqueRecords(old(w.collaborators)) ==> UniqueRecords(w.collaborators)
  {
    var found := CurrentUser(w.users, principal);
    if found.Throw? {
      return Throw(found.exception);
    }
    var user := w.users[found.value];
    var doc := new Document();
    doc.ownerId := user.id;
    doc.title := Some("Untitled Document");
    doc.language := Some("javascript");
    doc.content := Some(WELCOME);
    doc.PrePersist(freshUuid, now);
    doc.id := newId;
    var row := doc.State();
    w.documents := w.documents + [row];
    InitializeDocumentPermissions(w, row, user);
    InitializedOwnerMayInvite(old(w.collaborators), row, user);
    if UniqueRecords(old(w.collaborators)) {
      InitializationKeepsRecordsUnique(old(w.collaborators), row, user);
    }
    r := Ok(Redirect("redirect:/", Notice("Document created successfully!")));
  }

  // ---------------------------------------------------------------------
  // joinDocument and editor
  // ---------------------------------------------------------------------

  /** joinDocument: to the editor exactly when the document exists. */
  function JoinDocument(docs: seq<DocumentState>, documentId: string): (r: Redirect)
    ensures FindDocument(docs, Some(documentId)).Some? ==> r == Redirect("redirect:/editor/" + documentId, NoFlash)
    ensures FindDocument(docs, Some(documentId)).None? ==>
      r == Redirect("redirect:/", Error("Document not found. Please check the document ID."))
  {
    if FindDocument(docs, Some(documentId)).Some? then Redirect("redirect:/editor/" + documentId, NoFlash)
    else Redirect("redirect:/", Error("Document not found. Please check the document ID."))
  }

  /**
   * editor: no principal goes to the login page, an unknown document back
   * to the dashboard; otherwise every known user gets the editor, with
   * their level and whether they may edit.
   */
  function Editor(docs: seq<DocumentState>, users: seq<User>, records: seq<Collaborator>,
                  principal: Option<string>, documentId: string): (r: Result<EditorPage>)
    ensures principal.None? ==> r == Ok(EditorRedirect(Redirect("redirect:/login", NoFlash)))
    ensures principal.Some? && FindDocument(docs, Some(documentId)).None? ==>
      r == Ok(EditorRedirect(Redirect("redirect:/", Error("Document not found."))))
    ensures principal.Some? && FindDocument(docs, Some(documentId)).Some? ==>
      var u := CurrentUser(users, principal.value);
      (u.Throw? ==> r == Throw(u.exception)) &&
      (u.Ok? ==> r.Ok? && r.value.EditorView? &&
                 r.value.document == docs[FindDocument(docs, Some(documentId)).value] &&
                 r.value.user == users[u.value] &&
                 r.value.level == LevelOf(records, r.value.document, r.value.user) &&
                 r.value.canEdit == (r.value.level != VIEWER))
    ensures r != Ok(EditorRedirect(Redirect("redirect:/", Error(NO_ACCESS))))
  {
    if principal.None? then Ok(EditorRedirect(Redirect("redirect:/login", NoFlash)))
    else match FindDocument(docs, Some(documentId))
      case None => Ok(EditorRedirect(Redirect("redirect:/", Error("Document not found."))))
      case Some(d) =>
        match CurrentUser(users, principal.value)
        case Throw(e) => Throw(e)
        case Ok(u) =>
          if !CanView(records, docs[d], users[u]) then Ok(EditorRedirect(Redirect("redirect:/", Error(NO_ACCESS))))
          else Ok(EditorView(docs[d], users[u], LevelOf(records, docs[d], users[u]), CanEdit(records, docs[d], users[u])))
  }

  /** A document that can be joined can be opened by every known user. */
  lemma JoinedDocumentOpens(docs: seq<DocumentState>, users: seq<User>, records: seq<Collaborator>,
                            principal: string, documentId: string)
    requires JoinDocument(docs, documentId).target == "redirect:/editor/" + documentId
    requires CurrentUser(users, principal).Ok?
    ensures Editor(docs, users, records, Some(principal), documentId).Ok?
    ensures Editor(docs, users, records, Some(principal), documentId).value.EditorView?
  {
  }
}
