/**
 * TaskService: creating, deleting and completing the tasks of a document.
 * Only the document's owner may change its tasks. Each change is announced
 * on the broker; a refused announcement is caught and does not undo or
 * prevent the change.
 */
module TaskService {
  import opened JavaLang
  import opened Entities
  import opened DocumentModel
  import opened Store
  import opened PermissionService
  import opened MessageProducer

  const NO_PERMISSION: string := "You don't have permission to edit this task."

  /**
   * canEditTask: the task's document must exist, then the user; the answer
   * is whether the user's level on the document is OWNER.
   */
  function CanEditTask(docs: seq<DocumentState>, users: seq<User>, records: seq<Collaborator>,
                       task: Task, username: string): (r: Result<bool>)
    ensures FindDocument(docs, task.documentId).None? ==>
      r == Fail(IllegalArgumentException, "Invalid document ID:" + Str(task.documentId))
    ensures FindDocument(docs, task.documentId).Some? && FindUser(users, ByUsername(username)) == NotFound ==>
      r == Fail(IllegalArgumentException, "Invalid user")
    ensures r.Ok? <==> FindDocument(docs, task.documentId).Some? && FindUser(users, ByUsername(username)).Found?
    ensures r.Ok? ==> (r.value <==>
      LevelOf(records, docs[FindDocument(docs, task.documentId).value],
              users[FindUser(users, ByUsername(username)).index]) == OWNER)
  {
    match FindDocument(docs, task.documentId)
    case None => Fail(IllegalArgumentException, "Invalid document ID:" + Str(task.documentId))
    case Some(d) =>
      match RequireUser(users, ByUsername(username), Exception(IllegalArgumentException, Some("Invalid user")))
      case Throw(e) => Throw(e)
      case Ok(u) => Ok(LevelOf(records, docs[d], users[u]) == OWNER)
  }

  /** The permission check as the three operations apply it: a `false` becomes an exception. */
  function Permitted(docs: seq<DocumentState>, users: seq<User>, records: seq<Collaborator>,
                     task: Task, username: string): (r: Result<()>)
    ensures r.Ok? <==> CanEditTask(docs, users, records, task, username) == Ok(true)
    ensures CanEditTask(docs, users, records, task, username) == Ok(false) ==> r == Fail(IllegalStateException, NO_PERMISSION)
  {
    match CanEditTask(docs, users, records, task, username)
    case Throw(e) => Throw(e)
    case Ok(b) => if b then Ok(()) else Fail(IllegalStateException, NO_PERMISSION)
  }

  /** The notification for a task change: the whole task as data. */
  function TaskNotice(task: Task, action: string): Message
  {
    Message(Some("task"), Some(action), TaskData(task), None, None)
  }

  /** The publishes a notification leaves behind: none when the broker refuses. */
  function Announced(task: Task, action: string, brokerUp: bool): (s: seq<Publish>)
    ensures |s| <= 1
    ensures brokerUp <==> s == [Publish(TASK_EXCHANGE, TASK_ROUTING_KEY, TaskNotice(task, action))]
  {
    if brokerUp then [Publish(TASK_EXCHANGE, TASK_ROUTING_KEY, TaskNotice(task, action))] else []
  }

  /** sendTaskNotification: a refused publish is caught. */
  method SendTaskNotification(w: World, task: Task, action: string, brokerUp: bool)
    modifies w`publishes
    ensures w.publishes == old(w.publishes) + Announced(task, action, brokerUp)
  {
    var sent := SendTaskMessage(w, TaskNotice(task, action), brokerUp);
  }

  /**
   * createTask: the caller becomes the creator; an owner's task is saved,
   * merged into the stored task its id names, if any, else stored under a
   * fresh id, and then announced.
   */
  method CreateTask(w: World, task: Task, username: string, newId: nat, brokerUp: bool) returns (r: Result<Task>)
    requires newId !in w.tasks
    modifies w`tasks, w`publishes
    ensures var t := task.(createdBy := Some(username));
      var p := Permitted(w.documents, w.users, w.collaborators, t, username);
      var key := SaveKey(old(w.tasks), task.id, newId);
      if p.Throw? then r == Throw(p.exception) && w.tasks == old(w.tasks) && w.publishes == old(w.publishes)
      else r == Ok(t.(id := Some(key))) && w.tasks == old(w.tasks)[key := t.(id := Some(key))] &&
           w.publishes == old(w.publishes) + Announced(t.(id := Some(key)), "create", brokerUp)
  {
    var t := task.(createdBy := Some(username));
    var p := Permitted(w.documents, w.users, w.collaborators, t, username);
    if p.Throw? {
      return Throw(p.exception);
    }
    var key := SaveKey(w.tasks, task.id, newId);
    var saved := t.(id := Some(key));
    w.tasks := w.tasks[key := saved];
    SendTaskNotification(w, saved, "create", brokerUp);
    r := Ok(saved);
  }

  /** deleteTask: an owner's deletion is announced first, then the task is removed. */
  method DeleteTask(w: World, id: nat, username: string, brokerUp: bool) returns (r: Result<()>)
    modifies w`tasks, w`publishes
    ensures id !in old(w.tasks) ==>
      (r == Fail(RuntimeException, "Task not found with id: " + Decimal(id)) &&
       w.tasks == old(w.tasks) && w.publishes == old(w.publishes))
    ensures id in old(w.tasks) ==>
      var p := Permitted(w.documents, w.users, w.collaborators, old(w.tasks)[id], username);
      if p.Throw? then r == Throw(p.exception) && w.tasks == old(w.tasks) && w.publishes == old(w.publishes)
      else r == Ok(()) && w.tasks == old(w.tasks) - {id} &&
           w.publishes == old(w.publishes) + Announced(old(w.tasks)[id], "delete", brokerUp)
  {
    if id !in w.tasks {
      return Fail(RuntimeException, "Task not found with id: " + Decimal(id));
    }
    var task := w.tasks[id];
    var p := Permitted(w.documents, w.users, w.collaborators, task, username);
    if p.Throw? {
      return Throw(p.exception);
    }
    SendTaskNotification(w, task, "delete", brokerUp);
    w.tasks := w.tasks - {id};
    r := Ok(());
  }

  /** updateTaskStatus: an owner sets the completed flag, and nothing else; the result is announced. */
  method UpdateTaskStatus(w: World, id: nat, completed: bool, username: string, brokerUp: bool)
    returns (r: Result<Task>)
    modifies w`tasks, w`publishes
    ensures id !in old(w.tasks) ==>
      (r == Fail(IllegalArgumentException, "Task not found with id: " + Decimal(id)) &&
       w.tasks == old(w.tasks) && w.publishes == old(w.publishes))
    ensures id in old(w.tasks) ==>
      var p := Permitted(w.documents, w.users, w.collaborators, old(w.tasks)[id], username);
      if p.Throw? then r == Throw(p.exception) && w.tasks == old(w.tasks) && w.publishes == old(w.publishes)
      else r == Ok(old(w.tasks)[id].(completed := completed)) && w.tasks == old(w.tasks)[id := r.value] &&
           w.publishes == old(w.publishes) + Announced(r.value, "update", brokerUp)
  {
    if id !in w.tasks {
      return Fail(IllegalArgumentException, "Task not found with id: " + Decimal(id));
    }
    var task := w.tasks[id];
    var p := Permitted(w.documents, w.users, w.collaborators, task, username);
    if p.Throw? {
      return Throw(p.exception);
    }
    var updated := task.(completed := completed);
    w.tasks := w.tasks[id := updated];
    SendTaskNotification(w, updated, "update", brokerUp);
    r := Ok(updated);
  }

  /** Editing a document does not extend to its tasks: an EDITOR is refused. */
  lemma EditorMayNotChangeTasks(docs: seq<DocumentState>, users: seq<User>, records: seq<Collaborator>,
                                task: Task, username: string)
    requires FindDocument(docs, task.documentId).Some? && FindUser(users, ByUsername(username)).Found?
    requires LevelOf(records, docs[FindDocument(docs, task.documentId).value],
                     users[FindUser(users, ByUsername(username)).index]) == EDITOR
    ensures Permitted(docs, users, records, task, username) == Fail(IllegalStateException, NO_PERMISSION)
  {
  }

  /** The document's owner may change its tasks, record or no record. */
  lemma OwnerMayChangeTasks(docs: seq<DocumentState>, users: seq<User>, records: seq<Collaborator>,
                            task: Task, username: string)
    requires FindDocument(docs, task.documentId).Some? && FindUser(users, ByUsername(username)).Found?
    requires users[FindUser(users, ByUsername(username)).index].id == docs[FindDocument(docs, task.documentId).value].ownerId
    ensures Permitted(docs, users, records, task, username) == Ok(())
  {
  }

  /** A task without a document can be changed by nobody. */
  lemma TaskWithoutDocumentIsLocked(docs: seq<DocumentState>, users: seq<User>, records: seq<Collaborator>,
                                    task: Task, username: string)
    requires task.documentId.None?
    ensures Permitted(docs, users, records, task, username) == Fail(IllegalArgumentException, "Invalid document ID:null")
  {
    assert "Invalid document ID:" + Str(task.documentId) == "Invalid document ID:null";
  }
}
