/**
 * ActionLogAspect: the advice around the controllers' create*, update*,
 * delete*, save* and remove* methods. After the target returns normally it
 * classifies the call by method name, class name and arguments into an
 * audit entry, or none, and appends the entry. Casting or indexing an
 * argument the call does not have throws, after the target has done its
 * work.
 *
 * `Classify` models the classification as written; `ClassifyChecked` reads
 * the second argument as a task only when there is one.
 */
module ActionLogAspect {
  import opened JavaLang
  import opened Entities
  import opened CommentModel
  import opened Store
  import opened ActionLogService

  const CONTROLLER: string := "com.example.wsTextEditor.controller."

  /** An audit entry before the current user's name is attached. */
  datatype Entry = Entry(action: string, description: Option<string>, documentId: Option<string>)

  /** The methods the pointcut intercepts, in a controller class. */
  predicate Intercepted(methodName: string)
  {
    "create" <= methodName || "update" <= methodName || "delete" <= methodName ||
    "save" <= methodName || "remove" <= methodName
  }

  /** `(String) arg`: a string or null, else a ClassCastException. */
  function AsString(a: Arg): (r: Result<Option<string>>)
    ensures r.Ok? <==> a.StringArg? || a.NullArg?
    ensures a.StringArg? ==> r == Ok(Some(a.s))
  {
    match a
    case StringArg(s) => Ok(Some(s))
    case NullArg => Ok(None)
    case _ => Throw(Exception(ClassCastException, None))
  }

  /** Reading `args[i]` of a call with fewer arguments. */
  function OutOfBounds(i: nat, length: nat): Exception
  {
    Exception(ArrayIndexOutOfBoundsException, Some("Index " + Decimal(i) + " out of bounds for length " + Decimal(length)))
  }

  /** The create* entry outside the editor: from a comment or a task first argument. */
  function CreateEntry(first: Arg): (r: Result<Entry>)
    ensures first.CommentArg? ==> r == Ok(Entry("创建", Some("创建评论：" + Str(first.comment.content)), first.comment.documentId))
    ensures first.TaskArg? ==> r == Ok(Entry("创建", Some("创建任务：" + Str(first.task.title)), first.task.documentId))
    ensures r.Ok? <==> first.CommentArg? || first.TaskArg?
  {
    match first
    case NullArg => Throw(Exception(NullPointerException, None))
    case CommentArg(c) => Ok(Entry("创建", Some("创建评论：" + Str(c.content)), c.documentId))
    case TaskArg(t) => Ok(Entry("创建", Some("创建任务：" + Str(t.title)), t.documentId))
    case _ => Throw(Exception(ClassCastException, None))
  }

  /** The entry for a task read from `(Task) args[1]`. */
  function TaskUpdateEntry(second: Arg): (r: Result<Entry>)
    ensures second.TaskArg? ==> r == Ok(Entry("更新", Some("更新任务：" + Str(second.task.title)), second.task.documentId))
    ensures r.Ok? <==> second.TaskArg?
  {
    match second
    case NullArg => Throw(Exception(NullPointerException, None))
    case TaskArg(t) => Ok(Entry("更新", Some("更新任务：" + Str(t.title)), t.documentId))
    case _ => Throw(Exception(ClassCastException, None))
  }

  /** An entry whose document id is the first argument, cast to a string. */
  function ByFirstArgument(action: string, prefix: string, first: Arg): (r: Result<Entry>)
    ensures first.StringArg? ==> r == Ok(Entry(action, Some(prefix + first.s), Some(first.s)))
    ensures first.NullArg? ==> r == Ok(Entry(action, Some(prefix + "null"), None))
    ensures r.Ok? <==> first.StringArg? || first.NullArg?
  {
    match AsString(first)
    case Throw(e) => Throw(e)
    case Ok(id) => Ok(Entry(action, Some(prefix + Str(id)), id))
  }

  /**
   * OperateCUDLog's classification as written: the entry to append, none
   * (delete* and remove* outside DocumentsController), or the exception the
   * advice throws.
   */
  function Classify(methodName: string, className: string, args: seq<Arg>): (r: Result<Option<Entry>>)
    requires Intercepted(methodName)
    ensures "create" <= methodName && CONTROLLER + "Editor" <= className ==>
      r == Ok(Some(Entry("创建", Some("创建文档"), None)))
    ensures ("delete" <= methodName || "remove" <= methodName) && !(CONTROLLER + "Documents" <= className) ==>
      r == Ok(None)
    ensures r.Ok? && r.value.Some? ==> r.value.value.action in {"创建", "更新", "删除", "保存"}
    ensures "create" <= methodName && !(CONTROLLER + "Editor" <= className) && |args| > 0 && args[0].CommentArg? ==>
      r == Ok(Some(Entry("创建", Some("创建评论：" + Str(args[0].comment.content)), args[0].comment.documentId)))
    ensures "create" <= methodName && !(CONTROLLER + "Editor" <= className) && |args| > 0 && args[0].TaskArg? ==>
      r == Ok(Some(Entry("创建", Some("创建任务：" + Str(args[0].task.title)), args[0].task.documentId)))
    ensures "update" <= methodName && CONTROLLER + "Document" <= className && |args| > 0 && args[0].StringArg? ==>
      r == Ok(Some(Entry("更新", Some("更新并保存文档：" + methodName[6..] + "   文档id：" + args[0].s), Some(args[0].s))))
    ensures "update" <= methodName && !(CONTROLLER + "Document" <= className) && |args| == 1 ==>
      r == Throw(OutOfBounds(1, 1))
    ensures "update" <= methodName && !(CONTROLLER + "Document" <= className) && |args| >= 2 && args[1].TaskArg? ==>
      r == Ok(Some(Entry("更新", Some("更新任务：" + Str(args[1].task.title)), args[1].task.documentId)))
    ensures ("delete" <= methodName || "remove" <= methodName) && CONTROLLER + "Documents" <= className &&
            |args| > 0 && args[0].StringArg? ==>
      r == Ok(Some(Entry("删除", Some("删除文档：" + methodName[6..] + args[0].s), Some(args[0].s))))
    ensures "save" <= methodName && |args| > 0 && args[0].StringArg? ==>
      r == Ok(Some(Entry("保存", Some("保存文档" + args[0].s), Some(args[0].s))))
    ensures "save" <= methodName && |args| == 0 ==> r == Throw(OutOfBounds(0, 0))
  {
    if "create" <= methodName then
      assert methodName[0] == 'c';
      if CONTROLLER + "Editor" <= className then Ok(Some(Entry("创建", Some("创建文档"), None)))
      else if |args| > 0 then
        match CreateEntry(args[0])
        case Throw(e) => Throw(e)
        case Ok(e) => Ok(Some(e))
      else Ok(Some(Entry("创建", None, None)))
    else if "update" <= methodName then
      assert methodName[0] == 'u';
      if CONTROLLER + "Document" <= className then
        if |args| > 0 then
          match ByFirstArgument("更新", "更新并保存文档：" + methodName[6..] + "   文档id：", args[0])
          case Throw(e) => Throw(e)
          case Ok(e) => Ok(Some(e))
        else Ok(Some(Entry("更新", None, None)))
      else if |args| > 0 then
        if |args| < 2 then Throw(OutOfBounds(1, |args|))
        else
          match TaskUpdateEntry(args[1])
          case Throw(e) => Throw(e)
          case Ok(e) => Ok(Some(e))
      else Ok(Some(Entry("更新", None, None)))
    else if "delete" <= methodName || "remove" <= methodName then
      assert methodName[0] in {'d', 'r'};
      if CONTROLLER + "Documents" <= className then
        if |args| > 0 then
          match ByFirstArgument("删除", "删除文档：" + methodName[6..], args[0])
          case Throw(e) => Throw(e)
          case Ok(e) => Ok(Some(e))
        else Ok(Some(Entry("删除", None, None)))
      else Ok(None)
    else if |args| == 0 then Throw(OutOfBounds(0, 0))
    else
      match ByFirstArgument("保存", "保存文档", args[0])
      case Throw(e) => Throw(e)
      case Ok(e) => Ok(Some(e))
  }

  /**
   * The classification with the task argument read only when present: an
   * update* outside the document controllers without a second argument
   * logs a bare "更新" entry.
   */
  function ClassifyChecked(methodName: string, className: string, args: seq<Arg>): (r: Result<Option<Entry>>)
    requires Intercepted(methodName)
  {
    if "update" <= methodName && !("create" <= methodName) && !(CONTROLLER + "Document" <= className) &&
       |args| == 1 then Ok(Some(Entry("更新", None, None)))
    else Classify(methodName, className, args)
  }

  /** Wherever the classification as written succeeds, the checked one gives the same entry. */
  lemma CheckedAgreesWhereWrittenSucceeds(methodName: string, className: string, args: seq<Arg>)
    requires Intercepted(methodName)
    requires Classify(methodName, className, args).Ok?
    ensures ClassifyChecked(methodName, className, args) == Classify(methodName, className, args)
  {
  }

  /** The checked classification never fails on an update* outside the document controllers for want of arguments. */
  lemma CheckedUpdateNeedsNoSecondArgument(methodName: string, className: string, args: seq<Arg>)
    requires "update" <= methodName && !(CONTROLLER + "Document" <= className) && |args| <= 1
    ensures Intercepted(methodName)
    ensures ClassifyChecked(methodName, className, args).Ok?
    ensures ClassifyChecked(methodName, className, args).value == Some(Entry("更新", None, None))
  {
    assert !("create" <= methodName) by {
      assert methodName[0] == 'u';
    }
  }

  /**
   * UserProfileController.updateProfile(Map) matches update*, and its class
   * is not a document controller, so the advice as written reads args[1]
   * of a one-argument call and throws after the profile is saved.
   */
  lemma UpdateProfileThrows()
    ensures Intercepted("updateProfile")
    ensures Classify("updateProfile", CONTROLLER + "UserProfileController", [MapArg]) == Throw(OutOfBounds(1, 1))
    ensures ClassifyChecked("updateProfile", CONTROLLER + "UserProfileController", [MapArg]) ==
      Ok(Some(Entry("更新", None, None)))
  {
    assert "update" <= "updateProfile";
    assert !("create" <= "updateProfile") by {
      assert "updateProfile"[0] != "create"[0];
    }
    assert !(CONTROLLER + "Document" <= CONTROLLER + "UserProfileController") by {
      assert (CONTROLLER + "UserProfileController")[|CONTROLLER|] == 'U';
      assert (CONTROLLER + "Document")[|CONTROLLER|] == 'D';
    }
  }

  /**
   * OperateCUDLog as written: a target that throws is passed through
   * without an entry; otherwise the classification decides the entry, and
   * an exception in it replaces the target's result.
   */
  method OperateCUDLog<T>(w: World, principal: string, methodName: string, className: string, args: seq<Arg>,
                          result: Result<T>) returns (r: Result<T>)
    requires Intercepted(methodName)
    modifies w`logs
    ensures result.Throw? ==> r == result && w.logs == old(w.logs)
    ensures result.Ok? ==>
      var c := Classify(methodName, className, args);
      if c.Throw? then r == Throw(c.exception) && w.logs == old(w.logs)
      else r == result &&
           w.logs == old(w.logs) + (if c.value.Some? then [ActionLog(principal, c.value.value.action,
                                     c.value.value.description, c.value.value.documentId)] else [])
  {
    if result.Throw? {
      return result;
    }
    var c := Classify(methodName, className, args);
    r := Logged(w, principal, c, result);
  }

  /** OperateCUDLog with the checked classification. */
  method OperateCUDLogChecked<T>(w: World, principal: string, methodName: string, className: string, args: seq<Arg>,
                                 result: Result<T>) returns (r: Result<T>)
    requires Intercepted(methodName)
    modifies w`logs
    ensures result.Throw? ==> r == result && w.logs == old(w.logs)
    ensures result.Ok? ==>
      var c := ClassifyChecked(methodName, className, args);
      if c.Throw? then r == Throw(c.exception) && w.logs == old(w.logs)
      else r == result &&
           w.logs == old(w.logs) + (if c.value.Some? then [ActionLog(principal, c.value.value.action,
                                     c.value.value.description, c.value.value.documentId)] else [])
  {
    if result.Throw? {
      return result;
    }
    var c := ClassifyChecked(methodName, className, args);
    r := Logged(w, principal, c, result);
  }

  /** Appends a classified entry, through the overload its document id selects. */
  method Logged<T>(w: World, principal: string, c: Result<Option<Entry>>, result: Result<T>) returns (r: Result<T>)
    modifies w`logs
    ensures c.Throw? ==> r == Throw(c.exception) && w.logs == old(w.logs)
    ensures c.Ok? ==> r == result
    ensures c.Ok? ==> w.logs == old(w.logs) + (if c.value.Some? then [ActionLog(principal, c.value.value.action,
                                                c.value.value.description, c.value.value.documentId)] else [])
  {
    match c
    case Throw(e) =>
      r := Throw(e);
    case Ok(None) =>
      r := result;
    case Ok(Some(e)) =>
      if e.documentId.Some? {
        LogActionOnDocument(w, principal, e.action, e.description, e.documentId);
      } else {
        LogAction(w, principal, e.action, e.description);
      }
      r := result;
  }
}
