/**
 * CommentService: creating, deleting, liking and unliking comments. The
 * comment table maps a comment's id to its stored state. Creation and likes
 * are announced on the broker before the change is saved, so a refused
 * publish leaves the table as it was.
 */
module CommentService {
  import opened JavaLang
  import opened Entities
  import opened DocumentModel
  import opened CommentModel
  import opened Store
  import opened PermissionService
  import opened MessageProducer

  // ---------------------------------------------------------------------
  // createComment
  // ---------------------------------------------------------------------

  /** The comment as announced: authored by the caller, with a like list that is never null. */
  function Authored(c: CommentState, username: string): (r: CommentState)
    ensures r.author == Some(username) && r.likedUsers.Some?
    ensures Likes(r.likedUsers) == Likes(c.likedUsers)
    ensures r.content == c.content && r.documentId == c.documentId && r.id == c.id
    ensures r.parentCommentId == c.parentCommentId
  {
    c.(author := Some(username), likedUsers := Some(Likes(c.likedUsers)))
  }

  /** The notification sent for a new comment: the whole comment as data. */
  function CreatedNotice(c: CommentState): Message
  {
    Message(Some("comment"), Some("create"), CommentData(c), None, None)
  }

  /**
   * createComment: the caller becomes the author, the comment is announced
   * and then saved: merged into the stored comment its id names, if any,
   * else stored under a fresh id. A refused publish stores nothing.
   */
  method CreateComment(w: World, comment: CommentState, username: string, newId: nat, brokerUp: bool)
    returns (r: Result<CommentState>)
    requires newId !in w.comments
    modifies w`comments, w`publishes
    ensures var c := Authored(comment, username);
      var key := SaveKey(old(w.comments), comment.id, newId);
      if brokerUp then
        r == Ok(c.(id := Some(key))) &&
        w.publishes == old(w.publishes) + [Publish(TASK_EXCHANGE, TASK_ROUTING_KEY, CreatedNotice(c))] &&
        w.comments == old(w.comments)[key := c.(id := Some(key))]
      else
        r == Throw(BROKER_DOWN) && w.publishes == old(w.publishes) && w.comments == old(w.comments)
    ensures brokerUp && comment.id.Some? && comment.id.value in old(w.comments) ==>
      w.comments.Keys == old(w.comments).Keys
    ensures brokerUp && !(comment.id.Some? && comment.id.value in old(w.comments)) ==>
      w.comments.Keys == old(w.comments).Keys + {newId}
  {
    var entity := new Comment.Load(comment);
    if entity.likedUsers.None? {
      entity.likedUsers := Some([]);
    }
    entity.author := Some(username);
    var sent := SendTaskMessage(w, CreatedNotice(entity.State()), brokerUp);
    if sent.Throw? {
      return Throw(sent.exception);
    }
    var key := SaveKey(w.comments, entity.id, newId);
    entity.id := Some(key);
    w.comments := w.comments[key := entity.State()];
    r := Ok(entity.State());
  }

  // ---------------------------------------------------------------------
  // deleteComment
  // ---------------------------------------------------------------------

  /**
   * Whether deleteComment may remove comment `id`: the comment, the caller
   * and the comment's document must exist, in that order, and the caller
   * must be the author or the document's owner; a comment without an
   * author cannot be compared and throws.
   */
  function DeletionCheck(comments: map<nat, CommentState>, users: seq<User>, docs: seq<DocumentState>,
                         records: seq<Collaborator>, id: nat, username: string): (r: Result<()>)
    ensures id !in comments ==> r == Fail(RuntimeException, "Comment not found with id: " + Decimal(id))
    ensures id in comments && FindUser(users, ByUsername(username)) == NotFound ==>
      r == Fail(RuntimeException, "User not found with username: " + username)
    ensures id in comments && FindUser(users, ByUsername(username)).Found? &&
            FindDocument(docs, comments[id].documentId).None? ==>
      r == Fail(RuntimeException, "Document not found with id: " + Str(comments[id].documentId))
    ensures id in comments && FindUser(users, ByUsername(username)).Found? &&
            FindDocument(docs, comments[id].documentId).Some? && comments[id].author.None? ==>
      r == Throw(Exception(NullPointerException, None))
    ensures id in comments && FindUser(users, ByUsername(username)).Found? &&
            FindDocument(docs, comments[id].documentId).Some? && comments[id].author.Some? &&
            comments[id].author.value != username &&
            LevelOf(records, docs[FindDocument(docs, comments[id].documentId).value],
                    users[FindUser(users, ByUsername(username)).index]) != OWNER ==>
      r == Fail(RuntimeException, "You are not authorized to delete this comment.")
    ensures r.Ok? <==>
      id in comments && FindUser(users, ByUsername(username)).Found? &&
      FindDocument(docs, comments[id].documentId).Some? && comments[id].author.Some? &&
      (comments[id].author.value == username ||
       LevelOf(records, docs[FindDocument(docs, comments[id].documentId).value],
               users[FindUser(users, ByUsername(username)).index]) == OWNER)
  {
    if id !in comments then Fail(RuntimeException, "Comment not found with id: " + Decimal(id))
    else
      var c := comments[id];
      match RequireUser(users, ByUsername(username),
                        Exception(RuntimeException, Some("User not found with username: " + username)))
      case Throw(e) => Throw(e)
      case Ok(u) =>
        match FindDocument(docs, c.documentId)
        case None => Fail(RuntimeException, "Document not found with id: " + Str(c.documentId))
        case Some(d) =>
          if c.author.None? then Throw(Exception(NullPointerException, None))
          else if c.author.value != username && LevelOf(records, docs[d], users[u]) != OWNER then
            Fail(RuntimeException, "You are not authorized to delete this comment.")
          else Ok(())
  }

  /** deleteComment: removes exactly the checked comment, and announces nothing. */
  method DeleteComment(w: World, id: nat, username: string) returns (r: Result<()>)
    modifies w`comments
    ensures r == DeletionCheck(old(w.comments), w.users, w.documents, w.collaborators, id, username)
    ensures r.Ok? ==> w.comments == old(w.comments) - {id}
    ensures r.Throw? ==> w.comments == old(w.comments)
  {
    r := DeletionCheck(w.comments, w.users, w.documents, w.collaborators, id, username);
    if r.Ok? {
      w.comments := w.comments - {id};
    }
  }

  /** The author may always delete their own comment, once they and the document exist. */
  lemma AuthorMayDelete(comments: map<nat, CommentState>, users: seq<User>, docs: seq<DocumentState>,
                        records: seq<Collaborator>, id: nat, username: string)
    requires id in comments && comments[id].author == Some(username)
    requires FindUser(users, ByUsername(username)).Found?
    requires FindDocument(docs, comments[id].documentId).Some?
    ensures DeletionCheck(comments, users, docs, records, id, username) == Ok(())
  {
  }

  /** An editor who neither wrote the comment nor owns the document may not delete it. */
  lemma EditorMayNotDelete(comments: map<nat, CommentState>, users: seq<User>, docs: seq<DocumentState>,
                           records: seq<Collaborator>, id: nat, username: string)
    requires id in comments && comments[id].author.Some? && comments[id].author.value != username
    requires FindUser(users, ByUsername(username)).Found?
    requires FindDocument(docs, comments[id].documentId).Some?
    requires LevelOf(records, docs[FindDocument(docs, comments[id].documentId).value],
                     users[FindUser(users, ByUsername(username)).index]) == EDITOR
    ensures DeletionCheck(comments, users, docs, records, id, username) ==
      Fail(RuntimeException, "You are not authorized to delete this comment.")
  {
  }

  // ---------------------------------------------------------------------
  // likeComment and unlikeComment
  // ---------------------------------------------------------------------

  /** The stored comment after a like by `username`, or why there is none. */
  function Liked(comments: map<nat, CommentState>, id: nat, username: string): (r: Result<CommentState>)
    ensures id !in comments ==> r == Fail(RuntimeException, "Comment not found with id: " + Decimal(id))
    ensures id in comments && username in Likes(comments[id].likedUsers) ==>
      r == Fail(IllegalStateException, "User has already liked this comment.")
    ensures r.Ok? <==> id in comments && username !in Likes(comments[id].likedUsers)
    ensures r.Ok? ==> Likes(r.value.likedUsers) == Likes(comments[id].likedUsers) + [username]
    ensures r.Ok? ==> r.value == comments[id].(likedUsers := r.value.likedUsers)
  {
    if id !in comments then Fail(RuntimeException, "Comment not found with id: " + Decimal(id))
    else
      var c := comments[id];
      if username in Likes(c.likedUsers) then Fail(IllegalStateException, "User has already liked this comment.")
      else Ok(c.(likedUsers := Some(WithLike(Likes(c.likedUsers), username))))
  }

  /** The stored comment after `username` withdraws a like, or why there is none. */
  function Unliked(comments: map<nat, CommentState>, id: nat, username: string): (r: Result<CommentState>)
    ensures id !in comments ==> r == Fail(RuntimeException, "Comment not found with id: " + Decimal(id))
    ensures id in comments && username !in Likes(comments[id].likedUsers) ==>
      r == Fail(IllegalStateException, "User has not liked this comment.")
    ensures r.Ok? <==> id in comments && username in Likes(comments[id].likedUsers)
    ensures r.Ok? ==> multiset(Likes(r.value.likedUsers)) == multiset(Likes(comments[id].likedUsers)) - multiset{username}
    ensures r.Ok? ==> r.value == comments[id].(likedUsers := r.value.likedUsers)
  {
    if id !in comments then Fail(RuntimeException, "Comment not found with id: " + Decimal(id))
    else
      var c := comments[id];
      if username !in Likes(c.likedUsers) then Fail(IllegalStateException, "User has not liked this comment.")
      else Ok(c.(likedUsers := Some(RemoveFirst(c.likedUsers.value, username))))
  }

  /** The notification for a like: the comment's author as data, the liker as sender. */
  function LikeNotice(c: CommentState, username: string): Message
  {
    Message(Some("comment"), Some("like"), if c.author.Some? then TextData(c.author.value) else NoData,
            Some(username), None)
  }

  /** likeComment: the like is announced to the author, then stored. */
  method LikeComment(w: World, id: nat, username: string, brokerUp: bool) returns (r: Result<CommentState>)
    modifies w`comments, w`publishes
    ensures var l := Liked(old(w.comments), id, username);
      if l.Throw? then r == l && w.comments == old(w.comments) && w.publishes == old(w.publishes)
      else if !brokerUp then r == Throw(BROKER_DOWN) && w.comments == old(w.comments) && w.publishes == old(w.publishes)
      else r == l && w.comments == old(w.comments)[id := l.value] &&
           w.publishes == old(w.publishes) + [Publish(TASK_EXCHANGE, TASK_ROUTING_KEY, LikeNotice(l.value, username))]
  {
    if id !in w.comments {
      return Fail(RuntimeException, "Comment not found with id: " + Decimal(id));
    }
    var entity := new Comment.Load(w.comments[id]);
    var added := entity.AddLikeUser(username);
    if !added {
      return Fail(IllegalStateException, "User has already liked this comment.");
    }
    var sent := SendTaskMessage(w, LikeNotice(entity.State(), username), brokerUp);
    if sent.Throw? {
      return Throw(sent.exception);
    }
    w.comments := w.comments[id := entity.State()];
    r := Ok(entity.State());
  }

  /** unlikeComment: the like is withdrawn and stored, without an announcement. */
  method UnlikeComment(w: World, id: nat, username: string) returns (r: Result<CommentState>)
    modifies w`comments
    ensures r == Unliked(old(w.comments), id, username)
    ensures r.Ok? ==> w.comments == old(w.comments)[id := r.value]
    ensures r.Throw? ==> w.comments == old(w.comments)
  {
    if id !in w.comments {
      return Fail(RuntimeException, "Comment not found with id: " + Decimal(id));
    }
    var row := w.comments[id];
    var entity := new Comment.Load(row);
    var removed := entity.RemoveLikeUser(username);
    if !removed {
      return Fail(IllegalStateException, "User has not liked this comment.");
    }
    var unliked := entity.State();
    UnlikedStored(w.comments, id, username);
    w.comments := w.comments[id := unliked];
    r := Ok(unliked);
  }

  /** A stored comment the user has liked loses that user's first like. */
  lemma UnlikedStored(comments: map<nat, CommentState>, id: nat, username: string)
    requires id in comments && comments[id].likedUsers.Some? && username in comments[id].likedUsers.value
    ensures Unliked(comments, id, username) ==
      Ok(comments[id].(likedUsers := Some(RemoveFirst(comments[id].likedUsers.value, username))))
  {
  }

  /** A second like by the same user is refused. */
  lemma LikeTwiceFails(comments: map<nat, CommentState>, id: nat, username: string)
    requires Liked(comments, id, username).Ok?
    ensures Liked(comments[id := Liked(comments, id, username).value], id, username) ==
      Fail(IllegalStateException, "User has already liked this comment.")
  {
  }

  /** Liking and then unliking restores the like list. */
  lemma LikeThenUnlikeRestores(comments: map<nat, CommentState>, id: nat, username: string)
    requires Liked(comments, id, username).Ok?
    ensures var after := comments[id := Liked(comments, id, username).value];
      Unliked(after, id, username).Ok? &&
      Likes(Unliked(after, id, username).value.likedUsers) == Likes(comments[id].likedUsers)
  {
    LikeThenUnlike(Likes(comments[id].likedUsers), username);
  }

  /** Likes keep the list free of duplicates, so one unlike removes the user's like entirely. */
  lemma LikesStayDistinct(comments: map<nat, CommentState>, id: nat, username: string)
    requires id in comments && NoDuplicates(Likes(comments[id].likedUsers))
    ensures Liked(comments, id, username).Ok? ==> NoDuplicates(Likes(Liked(comments, id, username).value.likedUsers))
    ensures Unliked(comments, id, username).Ok? ==>
      NoDuplicates(Likes(Unliked(comments, id, username).value.likedUsers)) &&
      username !in Likes(Unliked(comments, id, username).value.likedUsers)
  {
    WithLikeNoDuplicates(Likes(comments[id].likedUsers), username);
    if Unliked(comments, id, username).Ok? {
      RemoveFirstRemovesUser(comments[id].likedUsers.value, username);
    }
  }
}
