/**
 * MessageConsumerService: the listeners on the task and comment queues.
 * Each decides from the message's type and action whether to pass the
 * message on, unchanged, to everyone subscribed to the public topic.
 */
module MessageConsumer {
  import opened JavaLang
  import opened Entities
  import opened Store
  import opened MessageProducer
  import opened WebSocketNotification

  /** What processMessage decides. */
  datatype Dispatch = Broadcast(message: Message) | Drop

  /** The (type, action) pairs that are passed on. */
  predicate Announced(msgType: string, action: string)
  {
    (msgType == "task" && action in {"create", "update", "delete"}) ||
    (msgType == "comment" && action in {"create", "update", "like"})
  }

  /**
   * processMessage: a switch over the type and then over the action; a
   * switch on a missing string throws, and an unknown type or action is
   * only logged.
   */
  function ProcessMessage(m: Message): (r: Result<Dispatch>)
    ensures r.Throw? <==> m.msgType.None? || (m.msgType.value in {"task", "comment"} && m.action.None?)
    ensures r.Throw? ==> r.exception.cls == NullPointerException
    ensures r.Ok? && r.value.Broadcast? ==> r.value.message == m
    ensures r == Ok(Broadcast(m)) <==> m.msgType.Some? && m.action.Some? && Announced(m.msgType.value, m.action.value)
  {
    if m.msgType.None? then Throw(Exception(NullPointerException, None))
    else if m.msgType.value == "task" then
      if m.action.None? then Throw(Exception(NullPointerException, None))
      else if m.action.value in {"create", "update", "delete"} then Ok(Broadcast(m))
      else Ok(Drop)
    else if m.msgType.value == "comment" then
      if m.action.None? then Throw(Exception(NullPointerException, None))
      else if m.action.value in {"create", "update", "like"} then Ok(Broadcast(m))
      else Ok(Drop)
    else Ok(Drop)
  }

  /** The public-topic sends a processed message produces. */
  function Broadcasts(d: Result<Dispatch>, stompUp: bool): seq<StompSend>
  {
    if d.Ok? && d.value.Broadcast? && stompUp then [ToDestination(PUBLIC_TOPIC, d.value.message)] else []
  }

  /** The outcome of a listener: the processing error, else the send error, else normal return. */
  function Outcome(d: Result<Dispatch>, stompUp: bool): Result<()>
  {
    if d.Throw? then Throw(d.exception)
    else if d.value.Broadcast? && !stompUp then Throw(STOMP_DOWN)
    else Ok(())
  }

  /** handleTaskMessage and handleCommentMessage, which do the same thing. */
  method ProcessAndBroadcast(w: World, m: Message, stompUp: bool) returns (r: Result<()>)
    modifies w`sends
    ensures r == Outcome(ProcessMessage(m), stompUp)
    ensures w.sends == old(w.sends) + Broadcasts(ProcessMessage(m), stompUp)
  {
    var d := ProcessMessage(m);
    if d.Throw? {
      return Throw(d.exception);
    }
    match d.value
    case Drop =>
      r := Ok(());
    case Broadcast(message) =>
      r := BroadcastToAllUsers(w, message, stompUp);
  }

  method HandleTaskMessage(w: World, m: Message, stompUp: bool) returns (r: Result<()>)
    modifies w`sends
    ensures r == Outcome(ProcessMessage(m), stompUp)
    ensures w.sends == old(w.sends) + Broadcasts(ProcessMessage(m), stompUp)
  {
    r := ProcessAndBroadcast(w, m, stompUp);
  }

  method HandleCommentMessage(w: World, m: Message, stompUp: bool) returns (r: Result<()>)
    modifies w`sends
    ensures r == Outcome(ProcessMessage(m), stompUp)
    ensures w.sends == old(w.sends) + Broadcasts(ProcessMessage(m), stompUp)
  {
    r := ProcessAndBroadcast(w, m, stompUp);
  }

  /**
   * Which listener consumes a publish: the one on the queue the publish is
   * routed to; a publish that reaches no queue is consumed by nobody.
   */
  function Consume(p: Publish): (d: Result<Dispatch>)
    ensures QueueFor(p.exchange, p.routingKey).None? ==> d == Ok(Drop)
    ensures QueueFor(p.exchange, p.routingKey).Some? ==> d == ProcessMessage(p.message)
  {
    if QueueFor(p.exchange, p.routingKey).Some? then ProcessMessage(p.message) else Ok(Drop)
  }

  /** A comment deletion is never announced: the comment switch has no "delete" case. */
  lemma CommentDeletionIsDropped(m: Message)
    requires m.msgType == Some("comment") && m.action == Some("delete")
    ensures ProcessMessage(m) == Ok(Drop)
  {
  }

  /** A task like is not announced either: likes exist only for comments. */
  lemma TaskLikeIsDropped(m: Message)
    requires m.msgType == Some("task") && m.action == Some("like")
    ensures ProcessMessage(m) == Ok(Drop)
  {
  }

  /**
   * A broadcast publish of an announced message is consumed from both
   * queues, so it reaches the public topic twice.
   */
  lemma BroadcastReachesTopicTwice(m: Message)
    requires m.msgType.Some? && m.action.Some? && Announced(m.msgType.value, m.action.value)
    ensures Consume(Publish(TASK_EXCHANGE, TASK_ROUTING_KEY, m)) == Ok(Broadcast(m))
    ensures Consume(Publish(COMMENT_EXCHANGE, COMMENT_ROUTING_KEY, m)) == Ok(Broadcast(m))
  {
  }
}
