/**
 * The Document entity: one collaboratively edited text. Its tags live in a
 * single comma-separated column that the entity exposes as a list.
 */
module DocumentModel {
  import opened JavaLang

  /** One row of the documents table. `ownerId` is the owning user's id. */
  datatype DocumentState = DocumentState(
    id: nat,
    uniqueId: Option<string>,
    ownerId: nat,
    title: Option<string>,
    language: Option<string>,
    content: Option<string>,
    tags: Option<string>,
    createdAt: Option<int>,
    updatedAt: Option<int>)

  /** The tag list a tags column holds: none for a null or empty column, else its split on ','. */
  function TagList(tags: Option<string>): (r: seq<string>)
    ensures forall i :: 0 <= i < |r| ==> ',' !in r[i]
    ensures !HasText(tags) ==> r == []
  {
    if tags.None? || tags.value == "" then [] else Split(tags.value, ',')
  }

  /** The column a tag list is stored as: null for a null or empty list, else the ','-join. */
  function TagsColumn(list: Option<seq<string>>): (r: Option<string>)
    ensures r.None? <==> list.None? || list.value == []
  {
    if list.None? || list.value == [] then None else Some(Join(',', list.value))
  }

  /**
   * Storing a tag list and reading it back gives the same list, provided no
   * tag contains ',' and the last tag is not empty (a trailing empty field
   * is dropped by split).
   */
  lemma TagListRoundTrip(list: seq<string>)
    requires list != [] && list[|list| - 1] != ""
    requires forall i :: 0 <= i < |list| ==> ',' !in list[i]
    ensures TagList(TagsColumn(Some(list))) == list
  {
    SplitOfJoin(',', list);
  }

  /** Whatever the order, storing a comma-free list keeps exactly its non-empty tags. */
  lemma TagListKeepsTags(list: seq<string>)
    requires forall i :: 0 <= i < |list| ==> ',' !in list[i]
    ensures NonEmpty(TagList(TagsColumn(Some(list)))) == NonEmpty(list)
  {
    if list != [] {
      var j := Join(',', list);
      if j == "" {
        assert |list| == 1 by {
          if |list| >= 2 { JoinHasSep(',', list); }
        }
        assert NonEmpty(list) == {};
      } else {
        SplitOfJoinNonEmpty(',', list);
      }
    }
  }

  /**
   * The row a flush writes for an entity loaded from `loaded` that now holds
   * `current`: the persistence layer runs the update callback, which sets
   * the modification time, only for an entity that differs from its row.
   */
  function Flushed(loaded: DocumentState, current: DocumentState, now: int): (r: DocumentState)
    ensures current == loaded ==> r == loaded
    ensures current != loaded ==> r == current.(updatedAt := Some(now))
  {
    if current == loaded then loaded else current.(updatedAt := Some(now))
  }

  class Document {
    var id: nat
    var uniqueId: Option<string>
    var ownerId: nat
    var title: Option<string>
    var language: Option<string>
    var content: Option<string>
    var tags: Option<string>
    var createdAt: Option<int>
    var updatedAt: Option<int>

    /** `new Document()`: every field null; the id is assigned when the row is first saved. */
    constructor ()
      ensures State() == DocumentState(0, None, 0, None, None, None, None, None, None)
    {
      id := 0;
      uniqueId := None;
      ownerId := 0;
      title := None;
      language := None;
      content := None;
      tags := None;
      createdAt := None;
      updatedAt := None;
    }

    /** The entity the persistence layer materialises for a stored row. */
    constructor Load(row: DocumentState)
      ensures State() == row
    {
      id := row.id;
      uniqueId := row.uniqueId;
      ownerId := row.ownerId;
      title := row.title;
      language := row.language;
      content := row.content;
      tags := row.tags;
      createdAt := row.createdAt;
      updatedAt := row.updatedAt;
    }

    function State(): DocumentState
      reads this
    {
      DocumentState(id, uniqueId, ownerId, title, language, content, tags, createdAt, updatedAt)
    }

    function GetTagList(): (list: seq<string>)
      reads this
      ensures tags.None? || tags == Some("") ==> list == []
      ensures forall k :: 0 <= k < |list| ==> ',' !in list[k]
    {
      TagList(tags)
    }

    method SetTagList(list: Option<seq<string>>)
      modifies this`tags
      ensures tags == TagsColumn(list)
    {
      if list.None? || list.value == [] {
        tags := None;
      } else {
        tags := Some(Join(',', list.value));
      }
    }

    /** The insert callback: a missing uniqueId gets a fresh UUID, both timestamps are set. */
    method PrePersist(freshUuid: string, now: int)
      modifies this`uniqueId, this`createdAt, this`updatedAt
      ensures uniqueId == (if old(uniqueId).None? then Some(freshUuid) else old(uniqueId))
      ensures createdAt == Some(now) && updatedAt == Some(now)
    {
      if uniqueId.None? {
        uniqueId := Some(freshUuid);
      }
      createdAt := Some(now);
      updatedAt := Some(now);
    }

    /** The update callback: refreshes the modification time. */
    method PreUpdate(now: int)
      modifies this`updatedAt
      ensures updatedAt == Some(now)
    {
      updatedAt := Some(now);
    }

    /** The flush of an entity loaded from `loaded`: the update callback runs only if a field changed. */
    method Flush(loaded: DocumentState, now: int)
      modifies this`updatedAt
      ensures State() == Flushed(loaded, old(State()), now)
    {
      if State() != loaded {
        PreUpdate(now);
      }
    }
  }
}
