/**
 * The editor's data holders: users, permission records, tasks, broker and
 * STOMP messages, audit entries, search-index projections, and the values
 * an advice sees as a join point's arguments.
 */
module Entities {
  import opened JavaLang
  import opened CommentModel

  /** DocumentCollaborator.PermissionLevel */
  datatype Level = OWNER | EDITOR | VIEWER

  function LevelName(l: Level): string
  {
    match l
    case OWNER => "OWNER"
    case EDITOR => "EDITOR"
    case VIEWER => "VIEWER"
  }

  /** The canonical name of the level enum, which valueOf's message names. */
  const LEVEL_CLASS := "com.example.wsTextEditor.model.DocumentCollaborator.PermissionLevel"

  /**
   * PermissionLevel.valueOf: the constant with exactly that name; a null name
   * throws NullPointerException and any other name IllegalArgumentException.
   */
  function LevelValueOf(name: Option<string>): (r: Result<Level>)
    ensures name.None? ==> r.Throw? && r.exception.cls == NullPointerException
    ensures name.Some? && r.Throw? ==> r.exception.cls == IllegalArgumentException
    ensures r.Ok? ==> name == Some(LevelName(r.value))
    ensures name.Some? && name.value != "OWNER" && name.value != "EDITOR" && name.value != "VIEWER" ==>
      r == Fail(IllegalArgumentException, "No enum constant " + LEVEL_CLASS + "." + name.value)
  {
    if name.None? then Fail(NullPointerException, "Name is null")
    else if name.value == "OWNER" then Ok(OWNER)
    else if name.value == "EDITOR" then Ok(EDITOR)
    else if name.value == "VIEWER" then Ok(VIEWER)
    else Fail(IllegalArgumentException, "No enum constant " + LEVEL_CLASS + "." + name.value)
  }

  /** valueOf inverts name(). */
  lemma LevelValueOfName(l: Level)
    ensures LevelValueOf(Some(LevelName(l))) == Ok(l)
  {
  }

  /** A user account; `password` holds the encoder's output. */
  datatype User = User(
    id: nat,
    username: string,
    email: Option<string>,
    phoneNumber: Option<string>,
    password: string,
    invitationUuid: Option<string>,
    avatarUrl: Option<string>)

  /**
   * A permission record: `level` for user `userId` on document `docId`.
   * The record keeps the user's username, which no operation ever changes.
   */
  datatype Collaborator = Collaborator(docId: nat, userId: nat, username: string, level: Level)

  /** A task attached to a document; `documentId` is the document's uniqueId. */
  datatype Task = Task(
    id: Option<nat>,
    title: Option<string>,
    description: Option<string>,
    assignee: Option<string>,
    completed: bool,
    createdBy: Option<string>,
    documentId: Option<string>)

  /** What a MessageDTO carries in its `data` field. */
  datatype Payload = NoData | TextData(text: string) | TaskData(task: Task) | CommentData(comment: CommentState)

  /** MessageDTO, without its timestamp. */
  datatype Message = Message(
    msgType: Option<string>,
    action: Option<string>,
    data: Payload,
    sender: Option<string>,
    targetUserId: Option<string>)

  /** A message handed to the AMQP broker. */
  datatype Publish = Publish(exchange: string, routingKey: string, message: Message)

  /** A message handed to the STOMP broker: to a topic, or to one user's queue. */
  datatype StompSend =
    | ToDestination(destination: string, message: Message)
    | ToUser(user: string, destination: string, message: Message)

  /** An audit entry, without its creation time and cost. */
  datatype ActionLog = ActionLog(
    username: string,
    action: string,
    description: Option<string>,
    documentId: Option<string>)

  /** The search-index entity a document is copied into. */
  datatype Projection = Projection(
    id: nat,
    title: Option<string>,
    content: Option<string>,
    language: Option<string>,
    uniqueId: Option<string>,
    createAt: Option<int>,
    updateAt: Option<int>)

  /**
   * The key an index operation names. The index stores projections under the
   * document's numeric id; a delete can also be handed the text of a uniqueId.
   */
  datatype IndexKey = NumericKey(id: nat) | TextKey(text: string)

  /** A join point argument, as an advice inspects it. */
  datatype Arg =
    | NullArg
    | StringArg(s: string)
    | LongArg(n: int)
    | CommentArg(comment: CommentState)
    | TaskArg(task: Task)
    | MapArg
    | PrincipalArg(name: string)
    | ServletRequestArg
    | ServletResponseArg
    | MultipartFileArg
    | BindingResultArg
    | OtherArg(text: string)
}
