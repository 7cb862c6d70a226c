/**
 * CommentController: the comment endpoints. Deleting and liking write an
 * audit entry before calling the service. Deletion runs in a transaction of
 * its own that any exception rolls back, entry included; liking runs in
 * none, so its entry stays even when the like is refused.
 */
module CommentController {
  import opened JavaLang
  import opened Entities
  import opened CommentModel
  import opened Store
  import opened ActionLogService
  import opened MessageProducer
  import opened CommentService

  const NOT_FOUND: Exception := Exception(IllegalArgumentException, Some("Comment not found"))

  /** The audit entry for a deletion, naming the comment's author and its text. */
  function DeletionEntry(principal: string, c: CommentState): (e: ActionLog)
    ensures e.username == principal && e.action == "删除评论" && e.documentId == c.documentId
  {
    ActionLog(principal, "删除评论", Some("删除了" + "用户" + Str(c.author) + "的评论" + Str(c.content)), c.documentId)
  }

  /** The audit entry for a like. */
  function LikeEntry(principal: string, c: CommentState): (e: ActionLog)
    ensures e.username == principal && e.action == "点赞评论" && e.documentId == c.documentId
  {
    ActionLog(principal, "点赞评论", Some("点赞了" + "用户" + Str(c.author) + "的评论" + "评论:" + Str(c.content)),
              c.documentId)
  }

  /** createComment: the service's outcome, with the authenticated user as the author. */
  method CreateComment(w: World, principal: string, comment: CommentState, newId: nat, brokerUp: bool)
    returns (r: Result<CommentState>)
    requires newId !in w.comments
    modifies w`comments, w`publishes
    ensures var c := Authored(comment, principal);
      var key := SaveKey(old(w.comments), comment.id, newId);
      if brokerUp then
        r == Ok(c.(id := Some(key))) && r.value.author == Some(principal) &&
        r.value.content == comment.content && r.value.documentId == comment.documentId &&
        w.publishes == old(w.publishes) + [Publish(TASK_EXCHANGE, TASK_ROUTING_KEY, CreatedNotice(c))] &&
        w.comments == old(w.comments)[key := r.value]
      else
        r == Throw(BROKER_DOWN) && w.publishes == old(w.publishes) && w.comments == old(w.comments)
  {
    r := CommentService.CreateComment(w, comment, principal, newId, brokerUp);
  }

  /**
   * deleteComment: an unknown comment throws before anything is written;
   * otherwise the entry and the deletion are kept together or not at all.
   */
  method DeleteComment(w: World, principal: string, id: nat) returns (r: Result<()>)
    modifies w`comments, w`logs
    ensures id !in old(w.comments) ==> r == Throw(NOT_FOUND) && w.comments == old(w.comments) && w.logs == old(w.logs)
    ensures id in old(w.comments) ==>
      r == DeletionCheck(old(w.comments), w.users, w.documents, w.collaborators, id, principal)
    ensures r.Ok? ==> w.comments == old(w.comments) - {id} &&
                      w.logs == old(w.logs) + [DeletionEntry(principal, old(w.comments)[id])]
    ensures r.Throw? ==> w.comments == old(w.comments) && w.logs == old(w.logs)
  {
    if id !in w.comments {
      return Throw(NOT_FOUND);
    }
    var c := w.comments[id];
    var logsBefore := w.logs;
    LogActionOnDocument(w, principal, "删除评论", Some("删除了" + "用户" + Str(c.author) + "的评论" + Str(c.content)),
                        c.documentId);
    r := CommentService.DeleteComment(w, id, principal);
    if r.Throw? {
      // the transaction is rolled back
      w.logs := logsBefore;
    }
  }

  /**
   * likeComment: the entry is written first and stays whatever the like
   * does; then the service's outcome: a refused like or a refused publish
   * stores nothing, an accepted one is announced and stored.
   */
  method LikeComment(w: World, principal: string, id: nat, brokerUp: bool) returns (r: Result<CommentState>)
    modifies w`comments, w`logs, w`publishes
    ensures id !in old(w.comments) ==>
      (r == Throw(NOT_FOUND) && w.comments == old(w.comments) && w.logs == old(w.logs) && w.publishes == old(w.publishes))
    ensures id in old(w.comments) ==>
      var l := Liked(old(w.comments), id, principal);
      w.logs == old(w.logs) + [LikeEntry(principal, old(w.comments)[id])] &&
      if l.Throw? then r == l && w.comments == old(w.comments) && w.publishes == old(w.publishes)
      else if !brokerUp then r == Throw(BROKER_DOWN) && w.comments == old(w.comments) && w.publishes == old(w.publishes)
      else r == l && w.comments == old(w.comments)[id := l.value] &&
           w.publishes == old(w.publishes) + [Publish(TASK_EXCHANGE, TASK_ROUTING_KEY, LikeNotice(l.value, principal))]
  {
    if id !in w.comments {
      return Throw(NOT_FOUND);
    }
    var c := w.comments[id];
    LogActionOnDocument(w, principal, "点赞评论",
                        Some("点赞了" + "用户" + Str(c.author) + "的评论" + "评论:" + Str(c.content)), c.documentId);
    r := CommentService.LikeComment(w, id, principal, brokerUp);
  }

  /** unlikeComment: the service's outcome, with no entry. */
  method UnlikeComment(w: World, principal: string, id: nat) returns (r: Result<CommentState>)
    modifies w`comments
    ensures r == Unliked(old(w.comments), id, principal)
    ensures r.Ok? ==> w.comments == old(w.comments)[id := r.value]
    ensures r.Throw? ==> w.comments == old(w.comments)
  {
    r := CommentService.UnlikeComment(w, id, principal);
  }
}
