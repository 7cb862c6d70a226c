/**
 * The browser's shared connection manager: one STOMP client, a pending
 * connection promise, a table of subscriptions in insertion order, and a
 * FIFO queue of messages waiting for the connection. Promises and
 * callbacks run one at a time: the client's connect, error and disconnect
 * callbacks are the methods On*, which the library calls later.
 */
module WebSocketManager {
  import opened JavaLang

  /** `connectionPromise`: null, a promise still pending, or one already rejected. */
  datatype PromiseState = NoPromise | Pending | Rejected

  /** A message waiting in the queue; the body is the JSON text of the message object. */
  datatype Outgoing = Outgoing(destination: string, body: string)

  /** A stored subscription; `active` says whether it holds a client subscription. */
  datatype Subscriber = Subscriber(topic: string, active: bool)

  /** What the manager hands to the STOMP client, in order. */
  datatype Frame =
    | SendFrame(destination: string, body: string)
    | SubscribeFrame(id: string, topic: string)
    | UnsubscribeFrame(id: string)

  /** What connect() returns. */
  datatype ConnectResult =
    | AlreadyConnected              // Promise.resolve()
    | SamePromise(state: PromiseState)  // the promise stored earlier
    | Started                       // a new promise around a new client
    | CreationFailed                // a new promise, rejected at once

  /** The send frames a queue drains into, in queue order; `accepts` says which sends the client took. */
  function Sends(queue: seq<Outgoing>, accepts: Outgoing -> bool): (frames: seq<Frame>)
    ensures |frames| <= |queue|
    ensures forall f :: f in frames ==> f.SendFrame? && Outgoing(f.destination, f.body) in queue
    ensures forall m :: m in queue && accepts(m) ==> SendFrame(m.destination, m.body) in frames
  {
    if queue == [] then []
    else
      var last := queue[|queue| - 1];
      Sends(queue[..|queue| - 1], accepts) + (if accepts(last) then [SendFrame(last.destination, last.body)] else [])
  }

  /** Draining one more message adds its send frame, when the client takes it. */
  lemma SendsPrefix(queue: seq<Outgoing>, k: nat, accepts: Outgoing -> bool)
    requires k < |queue|
    ensures Sends(queue[..k + 1], accepts) ==
            Sends(queue[..k], accepts) + (if accepts(queue[k]) then [SendFrame(queue[k].destination, queue[k].body)] else [])
  {
    assert queue[..k + 1][..k] == queue[..k];
  }

  /** A queue whose every send is taken is sent whole and in order. */
  lemma {:induction false} SendsAllAccepted(queue: seq<Outgoing>, accepts: Outgoing -> bool)
    requires forall i :: 0 <= i < |queue| ==> accepts(queue[i])
    ensures |Sends(queue, accepts)| == |queue|
    ensures forall i :: 0 <= i < |queue| ==> Sends(queue, accepts)[i] == SendFrame(queue[i].destination, queue[i].body)
    decreases |queue|
  {
    if queue != [] {
      var front, last := queue[..|queue| - 1], queue[|queue| - 1];
      SendsAllAccepted(front, accepts);
      assert Sends(queue, accepts) == Sends(front, accepts) + [SendFrame(last.destination, last.body)];
      forall i | 0 <= i < |queue|
        ensures Sends(queue, accepts)[i] == SendFrame(queue[i].destination, queue[i].body)
      {
        if i < |front| {
          assert queue[i] == front[i];
        }
      }
    }
  }

  /** The subscribe frames resubscribeAll emits, one per stored id in insertion order. */
  function Resubscribes(ids: seq<string>, subscribers: map<string, Subscriber>): (frames: seq<Frame>)
    requires forall i :: 0 <= i < |ids| ==> ids[i] in subscribers
    ensures |frames| == |ids|
    ensures forall i :: 0 <= i < |ids| ==> frames[i] == SubscribeFrame(ids[i], subscribers[ids[i]].topic)
  {
    if ids == [] then []
    else Resubscribes(ids[..|ids| - 1], subscribers) + [SubscribeFrame(ids[|ids| - 1], subscribers[ids[|ids| - 1]].topic)]
  }

  /** `ids` without `id`, order kept. */
  function Without(ids: seq<string>, id: string): (r: seq<string>)
    ensures forall x :: x in r <==> x in ids && x != id
  {
    if ids == [] then []
    else if ids[0] == id then Without(ids[1..], id)
    else [ids[0]] + Without(ids[1..], id)
  }

  /** Removing an id keeps the others listed once each. */
  lemma {:induction false} WithoutNoDuplicates(ids: seq<string>, id: string)
    requires NoDuplicates(ids)
    ensures NoDuplicates(Without(ids, id))
    decreases |ids|
  {
    if ids != [] {
      assert NoDuplicates(ids[1..]) by {
        forall i, j | 0 <= i < j < |ids[1..]|
          ensures ids[1..][i] != ids[1..][j]
        {
          assert ids[1..][i] == ids[i + 1] && ids[1..][j] == ids[j + 1];
        }
      }
      WithoutNoDuplicates(ids[1..], id);
      if ids[0] != id {
        var rest := Without(ids[1..], id);
        assert ids[0] !in rest by {
          assert ids[0] !in ids[1..];
        }
        forall i, j | 0 <= i < j < |[ids[0]] + rest|
          ensures ([ids[0]] + rest)[i] != ([ids[0]] + rest)[j]
        {
          if i == 0 {
            assert ([ids[0]] + rest)[j] == rest[j - 1];
          } else {
            assert ([ids[0]] + rest)[i] == rest[i - 1] && ([ids[0]] + rest)[j] == rest[j - 1];
          }
        }
      }
    }
  }

  class Manager {
    var hasClient: bool          // stompClient != null
    var connected: bool
    var promise: PromiseState    // connectionPromise
    var ids: seq<string>         // the subscribers Map's keys, in insertion order
    var subscribers: map<string, Subscriber>
    var messageQueue: seq<Outgoing>
    var frames: seq<Frame>       // everything handed to the client so far

    /**
     * The subscription ids are listed once each; while connected there is
     * a client, no promise, nothing queued, and every subscription is live.
     */
    ghost predicate Valid()
      reads this
    {
      NoDuplicates(ids) && (forall id :: id in subscribers <==> id in ids) &&
      (connected ==> hasClient && promise == NoPromise && messageQueue == [] &&
                     forall id :: id in subscribers ==> subscribers[id].active)
    }

    /** The promise that can never settle differently: connect() keeps returning it. */
    predicate Stuck()
      reads this
    {
      !connected && promise == Rejected
    }

    constructor ()
      ensures Valid()
      ensures !hasClient && !connected && promise == NoPromise
      ensures ids == [] && subscribers == map[] && messageQueue == [] && frames == []
    {
      hasClient := false;
      connected := false;
      promise := NoPromise;
      ids := [];
      subscribers := map[];
      messageQueue := [];
      frames := [];
    }

    function IsConnected(): (b: bool)
      reads this
      ensures b <==> connected
    {
      connected
    }

    /**
     * connect(), as written: when creating the socket throws, the executor
     * clears connectionPromise before the constructor's result is stored,
     * so the rejected promise stays. `socketCreated` says whether the
     * socket could be created.
     */
    method ConnectAsWritten(socketCreated: bool) returns (r: ConnectResult)
      requires Valid()
      modifies this`hasClient, this`promise
      ensures Valid()
      ensures old(connected) ==> r == AlreadyConnected && unchanged(this)
      ensures !old(connected) && old(promise) != NoPromise ==> r == SamePromise(old(promise)) && unchanged(this)
      ensures !old(connected) && old(promise) == NoPromise && socketCreated ==>
        r == Started && promise == Pending && hasClient
      ensures !old(connected) && old(promise) == NoPromise && !socketCreated ==>
        r == CreationFailed && promise == Rejected && hasClient == old(hasClient)
      ensures old(Stuck()) ==> Stuck()
    {
      if connected {
        return AlreadyConnected;
      }
      if promise != NoPromise {
        return SamePromise(promise);
      }
      if socketCreated {
        hasClient := true;
        promise := Pending;
        r := Started;
      } else {
        promise := Rejected;
        r := CreationFailed;
      }
    }

    /** connect(), with a creation failure leaving no promise behind, so a later call tries again. */
    method Connect(socketCreated: bool) returns (r: ConnectResult)
      requires Valid()
      modifies this`hasClient, this`promise
      ensures Valid()
      ensures old(connected) ==> r == AlreadyConnected && unchanged(this)
      ensures !old(connected) && old(promise) != NoPromise ==> r == SamePromise(old(promise)) && unchanged(this)
      ensures !old(connected) && old(promise) == NoPromise && socketCreated ==>
        r == Started && promise == Pending && hasClient
      ensures !old(connected) && old(promise) == NoPromise && !socketCreated ==>
        r == CreationFailed && unchanged(this)
      ensures old(promise) != Rejected ==> promise != Rejected
    {
      if connected {
        return AlreadyConnected;
      }
      if promise != NoPromise {
        return SamePromise(promise);
      }
      if socketCreated {
        hasClient := true;
        promise := Pending;
        r := Started;
      } else {
        r := CreationFailed;
      }
    }

    /**
     * sendMessage, as written: sent at once while connected (a send the
     * client refuses is dropped); otherwise queued, and connect() is asked
     * for a connection, so a socket that cannot be created leaves the
     * rejected promise behind and the message queued.
     */
    method SendMessage(destination: string, body: string, accepted: bool, socketCreated: bool)
      requires Valid()
      modifies this`hasClient, this`promise, this`messageQueue, this`frames
      ensures Valid()
      ensures old(connected) ==>
        messageQueue == old(messageQueue) &&
        frames == old(frames) + (if accepted then [SendFrame(destination, body)] else [])
      ensures !old(connected) ==>
        messageQueue == old(messageQueue) + [Outgoing(destination, body)] && frames == old(frames)
      ensures connected == old(connected)
      ensures hasClient == (old(hasClient) || (!old(connected) && old(promise) == NoPromise && socketCreated))
      ensures promise ==
        if old(connected) || old(promise) != NoPromise then old(promise)
        else if socketCreated then Pending
        else Rejected
      ensures old(Stuck()) ==> Stuck()
    {
      if !connected || !hasClient {
        messageQueue := messageQueue + [Outgoing(destination, body)];
        var _ := ConnectAsWritten(socketCreated);
        return;
      }
      if accepted {
        frames := frames + [SendFrame(destination, body)];
      }
    }

    /** sendMessage over the connect() that clears the promise of a failed creation. */
    method SendMessageRetrying(destination: string, body: string, accepted: bool, socketCreated: bool)
      requires Valid()
      modifies this`hasClient, this`promise, this`messageQueue, this`frames
      ensures Valid()
      ensures old(connected) ==>
        messageQueue == old(messageQueue) &&
        frames == old(frames) + (if accepted then [SendFrame(destination, body)] else [])
      ensures !old(connected) ==>
        messageQueue == old(messageQueue) + [Outgoing(destination, body)] && frames == old(frames)
      ensures connected == old(connected)
      ensures hasClient == (old(hasClient) || (!old(connected) && old(promise) == NoPromise && socketCreated))
      ensures promise == if !old(connected) && old(promise) == NoPromise && socketCreated then Pending else old(promise)
      ensures old(promise) != Rejected ==> promise != Rejected
    {
      if !connected || !hasClient {
        messageQueue := messageQueue + [Outgoing(destination, body)];
        var _ := Connect(socketCreated);
        return;
      }
      if accepted {
        frames := frames + [SendFrame(destination, body)];
      }
    }

    /** processMessageQueue: drains the queue front first while connected; a refused send is still removed. */
    method ProcessMessageQueue(accepts: Outgoing -> bool)
      modifies this`messageQueue, this`frames
      ensures connected && hasClient ==> messageQueue == [] && frames == old(frames) + Sends(old(messageQueue), accepts)
      ensures !(connected && hasClient) ==> messageQueue == old(messageQueue) && frames == old(frames)
    {
      ghost var queue, sent, k := messageQueue, frames, 0;
      while |messageQueue| > 0 && connected && hasClient
        invariant 0 <= k <= |queue|
        invariant messageQueue == queue[k..]
        invariant frames == sent + Sends(queue[..k], accepts)
        invariant !(connected && hasClient) ==> k == 0
        decreases |messageQueue|
      {
        var m := messageQueue[0];
        messageQueue := messageQueue[1..];
        SendsPrefix(queue, k, accepts);
        if accepts(m) {
          frames := frames + [SendFrame(m.destination, m.body)];
        }
        k := k + 1;
      }
      if connected && hasClient {
        assert queue[..k] == queue;
      }
    }

    /** resubscribeAll: every stored subscription is subscribed again, in insertion order. */
    method ResubscribeAll()
      requires NoDuplicates(ids)
      requires forall i :: 0 <= i < |ids| ==> ids[i] in subscribers
      modifies this`subscribers, this`frames
      ensures hasClient ==> frames == old(frames) + Resubscribes(ids, old(subscribers))
      ensures hasClient ==> subscribers.Keys == old(subscribers).Keys
      ensures hasClient ==> forall i :: 0 <= i < |ids| ==> subscribers[ids[i]] == old(subscribers)[ids[i]].(active := true)
      ensures !hasClient ==> unchanged(this)
    {
      if !hasClient {
        return;
      }
      for k := 0 to |ids|
        invariant subscribers.Keys == old(subscribers).Keys
        invariant forall i :: 0 <= i < |ids| ==>
          subscribers[ids[i]] == old(subscribers)[ids[i]].(active := i < k || old(subscribers)[ids[i]].active)
        invariant frames == old(frames) + Resubscribes(ids[..k], old(subscribers))
      {
        assert ids[..k + 1][..k] == ids[..k];
        var id := ids[k];
        subscribers := subscribers[id := subscribers[id].(active := true)];
        frames := frames + [SubscribeFrame(id, subscribers[id].topic)];
      }
      assert ids[..|ids|] == ids;
    }

    /** The connect callback: connected, no promise, the queue drained, then every subscription renewed. */
    method OnConnected(accepts: Outgoing -> bool)
      requires Valid() && hasClient
      modifies this`connected, this`promise, this`messageQueue, this`frames, this`subscribers
      ensures Valid()
      ensures connected && promise == NoPromise && messageQueue == []
      ensures frames == old(frames) + Sends(old(messageQueue), accepts) + Resubscribes(ids, old(subscribers))
      ensures subscribers.Keys == old(subscribers).Keys
      ensures forall id :: id in subscribers ==> subscribers[id] == old(subscribers)[id].(active := true)
    {
      connected := true;
      promise := NoPromise;
      ProcessMessageQueue(accepts);
      ResubscribeAll();
    }

    /** The error callback: not connected and no promise; the queue and subscriptions stay. */
    method OnConnectError()
      requires Valid()
      modifies this`connected, this`promise
      ensures Valid()
      ensures !connected && promise == NoPromise
    {
      connected := false;
      promise := NoPromise;
    }

    /** disconnect(): a disconnect is asked of the client only while connected; nothing changes until its callback. */
    method Disconnect() returns (requested: bool)
      ensures requested <==> hasClient && connected
    {
      requested := hasClient && connected;
    }

    /** The disconnect callback: not connected and no client. */
    method OnDisconnected()
      requires Valid()
      modifies this`connected, this`hasClient
      ensures Valid()
      ensures !connected && !hasClient
    {
      connected := false;
      hasClient := false;
    }

    /**
     * subscribe(topic, callback) with `id` the generated subscription id:
     * the entry is stored (a new id goes last, a reused one keeps its
     * place) and is live at once only while connected.
     */
    method Subscribe(topic: string, id: string) returns (subscriptionId: string)
      requires Valid()
      modifies this`ids, this`subscribers, this`frames
      ensures Valid()
      ensures subscriptionId == id
      ensures subscribers == old(subscribers)[id := Subscriber(topic, connected && hasClient)]
      ensures ids == if id in old(ids) then old(ids) else old(ids) + [id]
      ensures frames == old(frames) + (if connected && hasClient then [SubscribeFrame(id, topic)] else [])
    {
      if id !in ids {
        ids := ids + [id];
      }
      subscribers := subscribers[id := Subscriber(topic, false)];
      if connected && hasClient {
        subscribers := subscribers[id := Subscriber(topic, true)];
        frames := frames + [SubscribeFrame(id, topic)];
      }
      subscriptionId := id;
    }

    /** unsubscribe(id): a live subscription is ended first; an unknown id changes nothing. */
    method Unsubscribe(id: string)
      requires Valid()
      modifies this`ids, this`subscribers, this`frames
      ensures Valid()
      ensures id !in old(subscribers) ==> unchanged(this)
      ensures id in old(subscribers) ==>
        subscribers == old(subscribers) - {id} && ids == Without(old(ids), id) &&
        frames == old(frames) + (if old(subscribers)[id].active then [UnsubscribeFrame(id)] else [])
    {
      if id in subscribers {
        if subscribers[id].active {
          frames := frames + [UnsubscribeFrame(id)];
        }
        subscribers := subscribers - {id};
        WithoutNoDuplicates(ids, id);
        ids := Without(ids, id);
      }
    }
  }

  /** As written, a socket that cannot be created once blocks every later connect. */
  method CreationFailureBlocksRetry() returns (first: ConnectResult, second: ConnectResult)
    ensures first == CreationFailed && second == SamePromise(Rejected)
  {
    var m := new Manager();
    first := m.ConnectAsWritten(false);
    second := m.ConnectAsWritten(true);
  }

  /** With the promise cleared, the next connect starts a new client. */
  method CreationFailureAllowsRetry() returns (first: ConnectResult, second: ConnectResult)
    ensures first == CreationFailed && second == Started
  {
    var m := new Manager();
    first := m.Connect(false);
    second := m.Connect(true);
  }

  /**
   * As written, a message sent while the socket cannot be created stays
   * queued behind the rejected promise: the next send, with the socket now
   * available, starts no client either.
   */
  method SendAfterCreationFailureStaysQueued(a: Outgoing, b: Outgoing) returns (queue: seq<Outgoing>, client: bool)
    ensures queue == [a, b] && !client
  {
    var m := new Manager();
    m.SendMessage(a.destination, a.body, true, false);
    m.SendMessage(b.destination, b.body, true, true);
    assert m.promise == Rejected;
    queue, client := m.messageQueue, m.hasClient;
  }

  /** With the promise cleared, the next send starts a client that will drain the queue. */
  method SendAfterCreationFailureRetries(a: Outgoing, b: Outgoing) returns (queue: seq<Outgoing>, client: bool)
    ensures queue == [a, b] && client
  {
    var m := new Manager();
    m.SendMessageRetrying(a.destination, a.body, true, false);
    m.SendMessageRetrying(b.destination, b.body, true, true);
    queue, client := m.messageQueue, m.hasClient;
  }

  /** Messages sent while disconnected reach the client in the order they were sent, once it connects. */
  method QueuedMessagesKeepOrder(a: Outgoing, b: Outgoing) returns (frames: seq<Frame>)
    ensures frames == [SendFrame(a.destination, a.body), SendFrame(b.destination, b.body)]
  {
    var m := new Manager();
    m.SendMessage(a.destination, a.body, true, true);
    m.SendMessage(b.destination, b.body, true, true);
    var queue := [Outgoing(a.destination, a.body), Outgoing(b.destination, b.body)];
    assert m.messageQueue == queue && m.frames == [] && m.ids == [];
    var accepts: Outgoing -> bool := _ => true;
    m.OnConnected(accepts);
    SendsAllAccepted(queue, accepts);
    assert Resubscribes([], map[]) == [];
    frames := m.frames;
  }
}
