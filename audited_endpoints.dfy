/**
 * The endpoints that ActionLogAspect's pointcut intercepts, each composed
 * with the advice: the endpoint runs (under the document-sync advice where
 * that applies), and when it returns normally the advice classifies the
 * call and appends its entry. Neither advice is ordered against the other
 * in the application, so the audit is taken here as the outer one.
 *
 * removeCollaborator, deleteComment and deleteTask are intercepted too, but
 * the advice writes no entry for a delete* or remove* outside
 * DocumentsController (Classify's contract), so their outcome is the
 * endpoint's own.
 */
module AuditedEndpoints {
  import opened JavaLang
  import opened Entities
  import opened Store
  import opened ActionLogAspect
  import opened DocumentsController
  import opened DocumentSyncService
  import opened DocumentSynAspect
  import opened MessageProducer
  import opened EditorController
  import opened CollaboratorController
  import opened CommentModel
  import opened CommentService
  import opened CommentController
  import opened UserProfileController
  import opened TaskService

  const DOCUMENTS: string := CONTROLLER + "DocumentsController"
  const COLLABORATORS: string := CONTROLLER + "DocumentCollaboratorController"
  const EDITOR: string := CONTROLLER + "EditorController"
  const COMMENTS: string := CONTROLLER + "CommentController"
  const TASKS: string := CONTROLLER + "TaskController"

  /** An optional request parameter as the advice sees it: the string, or null. */
  function ParamArg(p: Option<string>): (a: Arg)
    ensures a.StringArg? <==> p.Some?
    ensures a.NullArg? <==> p.None?
  {
    if p.Some? then StringArg(p.value) else NullArg
  }

  /** saveDocument's entry: "保存" with the first argument as the document id. */
  lemma SaveDocumentEntry(docId: string, rest: seq<Arg>)
    ensures Intercepted("saveDocument")
    ensures Classify("saveDocument", DOCUMENTS, [StringArg(docId)] + rest) ==
      Ok(Some(Entry("保存", Some("保存文档" + docId), Some(docId))))
  {
    assert "save" <= "saveDocument";
  }

  /** updateDocumentTitle's entry: the description names "DocumentTitle", the rest of the method name. */
  lemma UpdateDocumentTitleEntry(docId: string, rest: seq<Arg>)
    ensures Intercepted("updateDocumentTitle")
    ensures Classify("updateDocumentTitle", DOCUMENTS, [StringArg(docId)] + rest) ==
      Ok(Some(Entry("更新", Some("更新并保存文档：" + "DocumentTitle" + "   文档id：" + docId), Some(docId))))
  {
    assert "update" <= "updateDocumentTitle";
    assert "updateDocumentTitle"[6..] == "DocumentTitle";
    assert CONTROLLER + "Document" <= DOCUMENTS;
  }

  /** deleteDocument's entry: the description names "Document", the rest of the method name. */
  lemma DeleteDocumentEntry(docId: string, rest: seq<Arg>)
    ensures Intercepted("deleteDocument")
    ensures Classify("deleteDocument", DOCUMENTS, [StringArg(docId)] + rest) ==
      Ok(Some(Entry("删除", Some("删除文档：" + "Document" + docId), Some(docId))))
  {
    assert "delete" <= "deleteDocument";
    assert "deleteDocument"[6..] == "Document";
    assert CONTROLLER + "Documents" <= DOCUMENTS;
  }

  /**
   * updateCollaboratorPermission's entry: the class name starts with the
   * "Document" prefix, so a permission update is logged like a document
   * update.
   */
  lemma UpdateCollaboratorPermissionEntry(docId: string, rest: seq<Arg>)
    ensures Intercepted("updateCollaboratorPermission")
    ensures Classify("updateCollaboratorPermission", COLLABORATORS, [StringArg(docId)] + rest) ==
      Ok(Some(Entry("更新", Some("更新并保存文档：" + "CollaboratorPermission" + "   文档id：" + docId), Some(docId))))
  {
    assert "updateCollaboratorPermission"[..6] == "update";
    assert "updateCollaboratorPermission"[6..] == "CollaboratorPermission";
    assert CONTROLLER + "Document" <= COLLABORATORS;
  }

  /**
   * removeCollaborator gets no entry: its class name does not start with
   * the "Documents" prefix.
   */
  lemma RemoveCollaboratorEntry(args: seq<Arg>)
    ensures Intercepted("removeCollaborator")
    ensures Classify("removeCollaborator", COLLABORATORS, args) == Ok(None)
  {
    assert "remove" <= "removeCollaborator";
    assert !(CONTROLLER + "Documents" <= COLLABORATORS) by {
      assert COLLABORATORS[|CONTROLLER| + 8] == 'C';
      assert (CONTROLLER + "Documents")[|CONTROLLER| + 8] == 's';
    }
  }

  /**
   * The entry the advice writes for the create and update endpoints
   * outside the document controllers: a new document, a comment and a
   * task by their request bodies, and a status update by the second
   * argument, the request body rather than the stored task.
   */
  lemma OtherEndpointEntries(principal: string, comment: CommentState, task: Task, id: int)
    ensures Intercepted("createDocument") && Intercepted("createComment") && Intercepted("createTask")
    ensures Intercepted("updateTaskStatus")
    ensures Classify("createDocument", EDITOR, [PrincipalArg(principal), OtherArg("RedirectAttributes")]) ==
      Ok(Some(Entry("创建", Some("创建文档"), None)))
    ensures Classify("createComment", COMMENTS, [CommentArg(comment), PrincipalArg(principal)]) ==
      Ok(Some(Entry("创建", Some("创建评论：" + Str(comment.content)), comment.documentId)))
    ensures Classify("createTask", TASKS, [TaskArg(task), PrincipalArg(principal)]) ==
      Ok(Some(Entry("创建", Some("创建任务：" + Str(task.title)), task.documentId)))
    ensures Classify("updateTaskStatus", TASKS, [LongArg(id), TaskArg(task), PrincipalArg(principal)]) ==
      Ok(Some(Entry("更新", Some("更新任务：" + Str(task.title)), task.documentId)))
  {
    assert "create" <= "createDocument";
    assert "create" <= "createComment";
    assert "create" <= "createTask";
    assert "update" <= "updateTaskStatus";
    assert !("create" <= "updateTaskStatus") by {
      assert "updateTaskStatus"[0] != "create"[0];
    }
    assert CONTROLLER + "Editor" <= EDITOR;
    assert !(CONTROLLER + "Editor" <= COMMENTS) by {
      assert COMMENTS[|CONTROLLER|] == 'C';
    }
    assert !(CONTROLLER + "Editor" <= TASKS) by {
      assert TASKS[|CONTROLLER|] == 'T';
    }
    assert !(CONTROLLER + "Document" <= TASKS) by {
      assert TASKS[|CONTROLLER|] == 'T';
      assert (CONTROLLER + "Document")[|CONTROLLER|] == 'D';
    }
  }

  /** saveDocument under both advices: a save that succeeds is re-indexed and logged. */
  method AuditedSaveDocument(w: World, principal: string, documentId: string, content: string,
                             language: Option<string>, title: Option<string>, now: int) returns (r: Result<string>)
    modifies w`documents, w`index, w`logs
    ensures r.Throw? ==> w.documents == old(w.documents) && w.index == old(w.index) && w.logs == old(w.logs)
    ensures r.Ok? ==>
      var d := FindDocument(old(w.documents), Some(documentId));
      d.Some? && r == Ok(SAVED) &&
      w.documents == old(w.documents)[d.value := Saved(old(w.documents)[d.value], content, language, title, now)] &&
      w.index == old(w.index)[NumericKey(old(w.documents)[d.value].id) := Convert(w.documents[d.value])] &&
      w.logs == old(w.logs) + [ActionLog(principal, "保存", Some("保存文档" + documentId), Some(documentId))]
  {
    var inner := SaveSyncDocument(w, principal, documentId, content, language, title, now);
    var args := [StringArg(documentId)] + [StringArg(content), ParamArg(language), ParamArg(title), PrincipalArg(principal)];
    SaveDocumentEntry(documentId, args[1..]);
    r := OperateCUDLog(w, principal, "saveDocument", DOCUMENTS, args, inner);
  }

  /** updateDocumentTitle under both advices. */
  method AuditedUpdateDocumentTitle(w: World, principal: string, docId: string, title: Option<string>, now: int)
    returns (r: Result<string>)
    modifies w`documents, w`index, w`logs
    ensures r.Throw? ==> w.documents == old(w.documents) && w.index == old(w.index) && w.logs == old(w.logs)
    ensures r.Ok? ==>
      var d := FindDocument(old(w.documents), Some(docId));
      d.Some? && r == Ok(RETITLED) &&
      w.documents == old(w.documents)[d.value := if old(w.documents)[d.value].title == title then old(w.documents)[d.value]
                                                 else old(w.documents)[d.value].(title := title, updatedAt := Some(now))] &&
      w.index == old(w.index)[NumericKey(old(w.documents)[d.value].id) := Convert(w.documents[d.value])] &&
      w.logs == old(w.logs) +
        [ActionLog(principal, "更新", Some("更新并保存文档：" + "DocumentTitle" + "   文档id：" + docId), Some(docId))]
  {
    var inner := UpdateTitleSyncDocument(w, principal, docId, title, now);
    var args := [StringArg(docId)] + [MapArg, PrincipalArg(principal)];
    UpdateDocumentTitleEntry(docId, args[1..]);
    r := OperateCUDLog(w, principal, "updateDocumentTitle", DOCUMENTS, args, inner);
  }

  /**
   * deleteDocument under both advices: the index loses the text key before
   * the delete runs, whatever its outcome, and a deletion is logged.
   */
  method AuditedDeleteDocument(w: World, principal: string, docId: string) returns (r: Result<string>)
    modifies w`index, w`documents, w`collaborators, w`logs
    ensures w.index == old(w.index) - {TextKey(docId)}
    ensures r.Throw? ==>
      w.documents == old(w.documents) && w.collaborators == old(w.collaborators) && w.logs == old(w.logs)
    ensures r.Ok? ==>
      var d := FindDocument(old(w.documents), Some(docId));
      d.Some? && r == Ok(DELETED) && w.documents == RemoveAt(old(w.documents), d.value) &&
      w.collaborators == WithoutDocument(old(w.collaborators), old(w.documents)[d.value].id) &&
      w.logs == old(w.logs) + [ActionLog(principal, "删除", Some("删除文档：" + "Document" + docId), Some(docId))]
  {
    var inner := DeleteSyncDocument(w, principal, docId);
    var args := [StringArg(docId)] + [PrincipalArg(principal)];
    DeleteDocumentEntry(docId, args[1..]);
    r := OperateCUDLog(w, principal, "deleteDocument", DOCUMENTS, args, inner);
  }

  /** createDocument under the advice: a created document is logged without a document id. */
  method AuditedCreateDocument(w: World, principal: string, newId: nat, freshUuid: string, now: int)
    returns (r: Result<Redirect>)
    requires forall i :: 0 <= i < |w.documents| ==> w.documents[i].id != newId
    requires forall i :: 0 <= i < |w.collaborators| ==> w.collaborators[i].docId != newId
    modifies w`documents, w`collaborators, w`logs
    ensures var u := CurrentUser(w.users, principal);
      if u.Throw? then
        r == Throw(u.exception) && w.documents == old(w.documents) &&
        w.collaborators == old(w.collaborators) && w.logs == old(w.logs)
      else
        var owner := w.users[u.value];
        r.Ok? && w.documents == old(w.documents) + [Created(newId, freshUuid, owner.id, now)] &&
        w.collaborators == old(w.collaborators) + [Collaborator(newId, owner.id, owner.username, OWNER)] &&
        w.logs == old(w.logs) + [ActionLog(principal, "创建", Some("创建文档"), None)]
  {
    var inner := EditorController.CreateDocument(w, principal, newId, freshUuid, now);
    OtherEndpointEntries(principal, CommentState(None, None, None, None, None, None),
                         Task(None, None, None, None, false, None, None), 0);
    r := OperateCUDLog(w, principal, "createDocument", EDITOR,
                       [PrincipalArg(principal), OtherArg("RedirectAttributes")], inner);
  }

  /** updateCollaboratorPermission under the advice: a changed level is logged against the document. */
  method AuditedUpdateCollaboratorPermission(w: World, docId: string, userId: string, permission: Option<string>,
                                             principal: string)
    returns (r: Result<string>)
    modifies w`collaborators, w`logs
    ensures var o := PermissionUpdate(old(w.collaborators), w.documents, docId, userId, permission);
      if o.Throw? then r == Throw(o.exception) && w.collaborators == old(w.collaborators) && w.logs == old(w.logs)
      else r.Ok? && w.collaborators == o.value &&
           w.logs == old(w.logs) + [ActionLog(principal, "更新",
                      Some("更新并保存文档：" + "CollaboratorPermission" + "   文档id：" + docId), Some(docId))]
  {
    var inner := UpdateCollaboratorPermission(w, docId, userId, permission);
    var args := [StringArg(docId)] + [StringArg(userId), MapArg];
    UpdateCollaboratorPermissionEntry(docId, args[1..]);
    r := OperateCUDLog(w, principal, "updateCollaboratorPermission", COLLABORATORS, args, inner);
  }

  /** createComment under the advice: a stored comment is logged by its content and document. */
  method AuditedCreateComment(w: World, principal: string, comment: CommentState, newId: nat, brokerUp: bool)
    returns (r: Result<CommentState>)
    requires newId !in w.comments
    modifies w`comments, w`publishes, w`logs
    ensures var c := Authored(comment, principal);
      var key := SaveKey(old(w.comments), comment.id, newId);
      if brokerUp then
        r == Ok(c.(id := Some(key))) && r.value.author == Some(principal) &&
        r.value.content == comment.content && r.value.documentId == comment.documentId &&
        w.comments == old(w.comments)[key := r.value] &&
        w.publishes == old(w.publishes) + [Publish(TASK_EXCHANGE, TASK_ROUTING_KEY, CreatedNotice(c))] &&
        w.logs == old(w.logs) +
          [ActionLog(principal, "创建", Some("创建评论：" + Str(comment.content)), comment.documentId)]
      else
        r == Throw(BROKER_DOWN) && w.comments == old(w.comments) && w.publishes == old(w.publishes) &&
        w.logs == old(w.logs)
  {
    var inner := CommentController.CreateComment(w, principal, comment, newId, brokerUp);
    OtherEndpointEntries(principal, comment, Task(None, None, None, None, false, None, None), 0);
    r := OperateCUDLog(w, principal, "createComment", COMMENTS, [CommentArg(comment), PrincipalArg(principal)], inner);
  }

  /**
   * updateProfile under the advice: the advice reads a second argument
   * the endpoint does not have, so every call that returns normally ends
   * in an index-out-of-bounds error after the user row has been saved.
   */
  method AuditedUpdateProfile(w: World, principal: string, newEmail: Option<string>, newPhone: Option<string>)
    returns (r: Result<Response>)
    modifies w`users, w`logs
    ensures w.logs == old(w.logs)
    ensures r.Throw?
    ensures FindUser(old(w.users), ByUsername(principal)) == NotFound ==>
      r == Throw(OutOfBounds(1, 1)) && w.users == old(w.users)
    ensures FindUser(old(w.users), ByUsername(principal)).Found? ==>
      var i := FindUser(old(w.users), ByUsername(principal)).index;
      var c := ProfileChange(old(w.users), old(w.users)[i], newEmail, newPhone);
      if c.Throw? then r == Throw(c.exception) && w.users == old(w.users)
      else r == Throw(OutOfBounds(1, 1)) &&
           w.users == (if c.value.Refused? then old(w.users) else old(w.users)[i := c.value.user])
  {
    var inner := UpdateProfile(w, principal, newEmail, newPhone);
    UpdateProfileThrows();
    r := OperateCUDLog(w, principal, "updateProfile", CONTROLLER + "UserProfileController", [MapArg], inner);
  }

  /** createTask under the advice: a stored task is logged by its request body's title and document. */
  method AuditedCreateTask(w: World, task: Task, username: string, newId: nat, brokerUp: bool) returns (r: Result<Task>)
    requires newId !in w.tasks
    modifies w`tasks, w`publishes, w`logs
    ensures var t := task.(createdBy := Some(username));
      var p := Permitted(w.documents, w.users, w.collaborators, t, username);
      var key := SaveKey(old(w.tasks), task.id, newId);
      if p.Throw? then
        r == Throw(p.exception) && w.tasks == old(w.tasks) && w.publishes == old(w.publishes) && w.logs == old(w.logs)
      else
        r == Ok(t.(id := Some(key))) && w.tasks == old(w.tasks)[key := t.(id := Some(key))] &&
        w.publishes == old(w.publishes) + Announced(t.(id := Some(key)), "create", brokerUp) &&
        w.logs == old(w.logs) + [ActionLog(username, "创建", Some("创建任务：" + Str(task.title)), task.documentId)]
  {
    var inner := TaskService.CreateTask(w, task, username, newId, brokerUp);
    OtherEndpointEntries(username, CommentState(None, None, None, None, None, None), task, 0);
    r := OperateCUDLog(w, username, "createTask", TASKS, [TaskArg(task), PrincipalArg(username)], inner);
  }

  /**
   * updateTaskStatus under the advice: the stored task takes the request
   * body's completed flag, and the entry names the request body's title and
   * document, which the client need not send.
   */
  method AuditedUpdateTaskStatus(w: World, id: nat, taskDetails: Task, username: string, brokerUp: bool)
    returns (r: Result<Task>)
    modifies w`tasks, w`publishes, w`logs
    ensures id !in old(w.tasks) ==>
      r == Fail(IllegalArgumentException, "Task not found with id: " + Decimal(id)) &&
      w.tasks == old(w.tasks) && w.publishes == old(w.publishes) && w.logs == old(w.logs)
    ensures id in old(w.tasks) ==>
      var p := Permitted(w.documents, w.users, w.collaborators, old(w.tasks)[id], username);
      if p.Throw? then
        r == Throw(p.exception) && w.tasks == old(w.tasks) && w.publishes == old(w.publishes) && w.logs == old(w.logs)
      else r == Ok(old(w.tasks)[id].(completed := taskDetails.completed)) && w.tasks == old(w.tasks)[id := r.value] &&
           w.publishes == old(w.publishes) + Announced(r.value, "update", brokerUp) &&
           w.logs == old(w.logs) +
             [ActionLog(username, "更新", Some("更新任务：" + Str(taskDetails.title)), taskDetails.documentId)]
  {
    var inner := TaskService.UpdateTaskStatus(w, id, taskDetails.completed, username, brokerUp);
    OtherEndpointEntries(username, CommentState(None, None, None, None, None, None), taskDetails, id);
    r := OperateCUDLog(w, username, "updateTaskStatus", TASKS,
                       [LongArg(id), TaskArg(taskDetails), PrincipalArg(username)], inner);
  }
}
