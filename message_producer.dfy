/**
 * MessageProducerService: hands notifications to the message broker. Task
 * messages go to the task exchange, comment messages to the comment
 * exchange, and a broadcast to both. The broker is the sequence of
 * publishes it has accepted; a flag per publish says whether it accepts
 * that one.
 */
module MessageProducer {
  import opened JavaLang
  import opened Entities
  import opened Store

  const TASK_EXCHANGE: string := "task.exchange"
  const COMMENT_EXCHANGE: string := "comment.exchange"
  const TASK_QUEUE: string := "task.queue"
  const COMMENT_QUEUE: string := "comment.queue"
  const TASK_ROUTING_KEY: string := "task.notify"
  const COMMENT_ROUTING_KEY: string := "comment.notify"

  /** What a refused publish throws. */
  const BROKER_DOWN: Exception := Exception(AmqpException, Some("Broker not available"))

  /**
   * The queue the two bindings deliver a publish to: the task queue is
   * bound to the task exchange with the task key, the comment queue to the
   * comment exchange with the comment key; any other pair reaches no queue.
   */
  function QueueFor(exchange: string, routingKey: string): (q: Option<string>)
    ensures q.Some? ==> q.value in {TASK_QUEUE, COMMENT_QUEUE}
    ensures q == Some(TASK_QUEUE) <==> exchange == TASK_EXCHANGE && routingKey == TASK_ROUTING_KEY
    ensures q == Some(COMMENT_QUEUE) <==> exchange == COMMENT_EXCHANGE && routingKey == COMMENT_ROUTING_KEY
  {
    if exchange == TASK_EXCHANGE && routingKey == TASK_ROUTING_KEY then Some(TASK_QUEUE)
    else if exchange == COMMENT_EXCHANGE && routingKey == COMMENT_ROUTING_KEY then Some(COMMENT_QUEUE)
    else None
  }

  /** sendTaskMessage: one publish of the unchanged message to the task exchange. */
  method SendTaskMessage(w: World, message: Message, brokerUp: bool) returns (r: Result<()>)
    modifies w`publishes
    ensures brokerUp ==> r == Ok(()) && w.publishes == old(w.publishes) + [Publish(TASK_EXCHANGE, TASK_ROUTING_KEY, message)]
    ensures !brokerUp ==> r == Throw(BROKER_DOWN) && w.publishes == old(w.publishes)
    ensures QueueFor(TASK_EXCHANGE, TASK_ROUTING_KEY) == Some(TASK_QUEUE)
  {
    if !brokerUp {
      return Throw(BROKER_DOWN);
    }
    w.publishes := w.publishes + [Publish(TASK_EXCHANGE, TASK_ROUTING_KEY, message)];
    r := Ok(());
  }

  /** sendCommentMessage: one publish of the unchanged message to the comment exchange. */
  method SendCommentMessage(w: World, message: Message, brokerUp: bool) returns (r: Result<()>)
    modifies w`publishes
    ensures brokerUp ==> r == Ok(()) && w.publishes == old(w.publishes) + [Publish(COMMENT_EXCHANGE, COMMENT_ROUTING_KEY, message)]
    ensures !brokerUp ==> r == Throw(BROKER_DOWN) && w.publishes == old(w.publishes)
    ensures QueueFor(COMMENT_EXCHANGE, COMMENT_ROUTING_KEY) == Some(COMMENT_QUEUE)
  {
    if !brokerUp {
      return Throw(BROKER_DOWN);
    }
    w.publishes := w.publishes + [Publish(COMMENT_EXCHANGE, COMMENT_ROUTING_KEY, message)];
    r := Ok(());
  }

  /**
   * broadcastMessage: the same message to the task exchange, then to the
   * comment exchange; `taskUp` and `commentUp` say whether the broker
   * accepts each publish. A refused first publish stops the second; a
   * refused second one leaves the first in place.
   */
  method BroadcastMessage(w: World, message: Message, taskUp: bool, commentUp: bool) returns (r: Result<()>)
    modifies w`publishes
    ensures r.Ok? <==> taskUp && commentUp
    ensures !taskUp ==> r == Throw(BROKER_DOWN) && w.publishes == old(w.publishes)
    ensures taskUp && !commentUp ==>
      r == Throw(BROKER_DOWN) && w.publishes == old(w.publishes) + [Publish(TASK_EXCHANGE, TASK_ROUTING_KEY, message)]
    ensures taskUp && commentUp ==>
      w.publishes == old(w.publishes) + [Publish(TASK_EXCHANGE, TASK_ROUTING_KEY, message),
                                         Publish(COMMENT_EXCHANGE, COMMENT_ROUTING_KEY, message)]
  {
    r := SendTaskMessage(w, message, taskUp);
    if r.Throw? {
      return;
    }
    r := SendCommentMessage(w, message, commentUp);
  }
}
