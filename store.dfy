/**
 * The state every service reads and writes: the relational tables, the
 * AMQP and STOMP brokers (as the sequences of messages handed to them), the
 * registry of online users, the search index and the audit log; and the
 * repository queries the services run against the tables.
 */
module Store {
  import opened JavaLang
  import opened Entities
  import opened DocumentModel
  import opened CommentModel

  class World {
    var users: seq<User>
    var documents: seq<DocumentState>
    var collaborators: seq<Collaborator>
    var comments: map<nat, CommentState>
    var tasks: map<nat, Task>
    var logs: seq<ActionLog>
    var publishes: seq<Publish>
    var sends: seq<StompSend>
    var online: set<string>
    var index: map<IndexKey, Projection>

    /** An empty system. */
    constructor ()
      ensures users == [] && documents == [] && collaborators == [] && logs == []
      ensures comments == map[] && tasks == map[] && index == map[]
      ensures publishes == [] && sends == [] && online == {}
    {
      users := [];
      documents := [];
      collaborators := [];
      comments := map[];
      tasks := map[];
      logs := [];
      publishes := [];
      sends := [];
      online := {};
      index := map[];
    }
  }

  /**
   * The key a repository save stores an entity under: a non-null id that
   * names a stored row is merged into that row; a null id, or one naming no
   * row, is inserted under the generated key `newId`.
   */
  function SaveKey<T>(table: map<nat, T>, id: Option<nat>, newId: nat): (k: nat)
    ensures id.Some? && id.value in table ==> k == id.value
    ensures !(id.Some? && id.value in table) ==> k == newId
  {
    if id.Some? && id.value in table then id.value else newId
  }

  // ---------------------------------------------------------------------
  // Users: single-result queries, which throw when several rows match
  // ---------------------------------------------------------------------

  datatype UserKey =
    | ByUsername(name: string)
    | ByEmail(email: Option<string>)     // a null email matches the users without one
    | ByPhone(phone: Option<string>)
    | ByInvitation(uuid: string)

  predicate Matches(u: User, key: UserKey)
  {
    match key
    case ByUsername(n) => u.username == n
    case ByEmail(e) => u.email == e
    case ByPhone(p) => u.phoneNumber == p
    case ByInvitation(x) => u.invitationUuid == Some(x)
  }

  datatype Lookup = NotFound | Found(index: nat) | Ambiguous

  /** The one user matching `key`, if exactly one does. */
  function FindUser(users: seq<User>, key: UserKey): (r: Lookup)
    ensures r == NotFound <==> forall i :: 0 <= i < |users| ==> !Matches(users[i], key)
    ensures r.Found? ==> r.index < |users| && Matches(users[r.index], key)
    ensures r.Found? ==> forall j :: 0 <= j < |users| && j != r.index ==> !Matches(users[j], key)
    ensures r == Ambiguous ==> exists i, j :: 0 <= i < j < |users| && Matches(users[i], key) && Matches(users[j], key)
  {
    if users == [] then NotFound
    else
      var rest := FindUser(users[1..], key);
      if !Matches(users[0], key) then
        (match rest
         case Found(k) => Found(k + 1)
         case _ => rest)
      else if rest == NotFound then Found(0)
      else if rest.Found? then
        assert Matches(users[rest.index + 1], key);
        Ambiguous
      else
        var i, j :| 0 <= i < j < |users[1..]| && Matches(users[1..][i], key) && Matches(users[1..][j], key);
        assert Matches(users[i + 1], key) && Matches(users[j + 1], key);
        Ambiguous
  }

  /**
   * A lookup that must find a user: `missing` when none matches, the
   * repository's exception when several do.
   */
  function RequireUser(users: seq<User>, key: UserKey, missing: Exception): (r: Result<nat>)
    ensures r.Ok? <==> FindUser(users, key).Found?
    ensures r.Ok? ==> r.value < |users| && Matches(users[r.value], key)
    ensures FindUser(users, key) == NotFound ==> r == Throw(missing)
  {
    match FindUser(users, key)
    case NotFound => Throw(missing)
    case Ambiguous => Fail(IncorrectResultSizeDataAccessException, "query did not return a unique result")
    case Found(i) => Ok(i)
  }

  /** `orElseThrow()` on a username lookup. */
  function CurrentUser(users: seq<User>, principal: string): (r: Result<nat>)
    ensures r.Ok? ==> r.value < |users| && users[r.value].username == principal
    ensures r.Throw? && FindUser(users, ByUsername(principal)) == NotFound ==>
      r.exception == Exception(NoSuchElementException, Some("No value present"))
  {
    RequireUser(users, ByUsername(principal), Exception(NoSuchElementException, Some("No value present")))
  }

  // ---------------------------------------------------------------------
  // Documents and permission records
  // ---------------------------------------------------------------------

  /** documentRepository.findByUniqueId: the row with that uniqueId (a unique column). */
  function FindDocument(docs: seq<DocumentState>, uniqueId: Option<string>): (r: Option<nat>)
    ensures r.None? ==> forall i :: 0 <= i < |docs| ==> docs[i].uniqueId != uniqueId || uniqueId.None?
    ensures r.Some? ==> r.value < |docs| && uniqueId.Some? && docs[r.value].uniqueId == uniqueId
    ensures r.Some? ==> forall i :: 0 <= i < r.value ==> docs[i].uniqueId != uniqueId
  {
    if uniqueId.None? || docs == [] then None
    else if docs[0].uniqueId == uniqueId then Some(0)
    else
      match FindDocument(docs[1..], uniqueId)
      case None => None
      case Some(k) => Some(k + 1)
  }

  /** A row rewritten with its uniqueId kept is still the one a lookup by that uniqueId finds. */
  lemma FindDocumentAfterUpdate(docs: seq<DocumentState>, uniqueId: Option<string>, i: nat, row: DocumentState)
    requires FindDocument(docs, uniqueId) == Some(i)
    requires row.uniqueId == docs[i].uniqueId
    ensures FindDocument(docs[i := row], uniqueId) == Some(i)
  {
    assert docs[i := row][i].uniqueId == uniqueId;
  }

  /** The row with the given primary key. */
  function FindDocumentById(docs: seq<DocumentState>, id: nat): (r: Option<nat>)
    ensures r.None? ==> forall i :: 0 <= i < |docs| ==> docs[i].id != id
    ensures r.Some? ==> r.value < |docs| && docs[r.value].id == id
  {
    if docs == [] then None
    else if docs[0].id == id then Some(0)
    else
      match FindDocumentById(docs[1..], id)
      case None => None
      case Some(k) => Some(k + 1)
  }

  /** The first permission record of user `userId` on document `docId`. */
  function FindRecord(records: seq<Collaborator>, docId: nat, userId: int): (r: Option<nat>)
    ensures r.None? ==> forall i :: 0 <= i < |records| ==> !(records[i].docId == docId && records[i].userId == userId)
    ensures r.Some? ==> r.value < |records| && records[r.value].docId == docId && records[r.value].userId == userId
    ensures r.Some? ==> forall i :: 0 <= i < r.value ==> !(records[i].docId == docId && records[i].userId == userId)
  {
    if records == [] then None
    else if records[0].docId == docId && records[0].userId == userId then Some(0)
    else
      match FindRecord(records[1..], docId, userId)
      case None => None
      case Some(k) => Some(k + 1)
  }

  /** Appending a record leaves the first record of any pair that already had one. */
  lemma {:induction false} FindRecordAppend(records: seq<Collaborator>, c: Collaborator, docId: nat, userId: int)
    ensures FindRecord(records + [c], docId, userId) ==
      (if FindRecord(records, docId, userId).Some? then FindRecord(records, docId, userId)
       else if c.docId == docId && c.userId == userId then Some(|records|)
       else None)
  {
    if records != [] {
      assert (records + [c])[1..] == records[1..] + [c];
      FindRecordAppend(records[1..], c, docId, userId);
    }
  }

  /** documentCollaboratorRepository.findByUser: the user's records, in table order. */
  function RecordsOfUser(records: seq<Collaborator>, userId: nat): (r: seq<Collaborator>)
    ensures forall c :: c in r <==> c in records && c.userId == userId
  {
    if records == [] then []
    else
      var rest := RecordsOfUser(records[1..], userId);
      assert records == [records[0]] + records[1..];
      if records[0].userId == userId then [records[0]] + rest else rest
  }

  /** The documents a list of records points at, in record order. */
  function DocumentsOfRecords(cs: seq<Collaborator>, docs: seq<DocumentState>): (r: seq<DocumentState>)
    ensures forall d :: d in r ==> d in docs && exists c :: c in cs && c.docId == d.id
    ensures forall c :: c in cs && FindDocumentById(docs, c.docId).Some? ==>
      docs[FindDocumentById(docs, c.docId).value] in r
  {
    if cs == [] then []
    else
      var rest := DocumentsOfRecords(cs[1..], docs);
      assert cs == [cs[0]] + cs[1..];
      match FindDocumentById(docs, cs[0].docId)
      case None => rest
      case Some(i) => [docs[i]] + rest
  }
}
