/**
 * WebSocketEventListener: a STOMP session that connects with a principal
 * puts the principal's name on the online list, one that disconnects takes
 * it off; a session without a principal changes nothing.
 */
module EventListener {
  import opened JavaLang
  import opened Entities
  import opened Store
  import opened WebSocketNotification

  datatype SessionEvent = Connect(principal: Option<string>) | Disconnect(principal: Option<string>)

  /** The online list after one event. */
  function Apply(online: set<string>, e: SessionEvent): (r: set<string>)
    ensures e.principal.None? ==> r == online
    ensures forall u :: e.principal != Some(u) ==> (u in r <==> u in online)
    ensures e.principal.Some? ==> (e.principal.value in r <==> e.Connect?)
  {
    match e
    case Connect(p) => if p.Some? then online + {p.value} else online
    case Disconnect(p) => if p.Some? then online - {p.value} else online
  }

  /** The online list after a series of events, oldest first. */
  function Replay(online: set<string>, events: seq<SessionEvent>): set<string>
    decreases |events|
  {
    if events == [] then online else Replay(Apply(online, events[0]), events[1..])
  }

  /** Whether the last event naming `u` was a connection, if any event names u. */
  function LastFor(events: seq<SessionEvent>, u: string): Option<bool>
    decreases |events|
  {
    if events == [] then None
    else
      var last := events[|events| - 1];
      if last.principal == Some(u) then Some(last.Connect?) else LastFor(events[..|events| - 1], u)
  }

  lemma ReplaySnoc(online: set<string>, events: seq<SessionEvent>, e: SessionEvent)
    ensures Replay(online, events + [e]) == Apply(Replay(online, events), e)
    decreases |events|
  {
    if events != [] {
      assert (events + [e])[1..] == events[1..] + [e];
      ReplaySnoc(Apply(online, events[0]), events[1..], e);
    }
  }

  /**
   * A user is online exactly when the last session event naming them was a
   * connection, or, when no event names them, when they were online before:
   * however many sessions a user opens, one disconnection takes them off.
   */
  lemma {:induction false} OnlineIffLastConnected(online: set<string>, events: seq<SessionEvent>, u: string)
    ensures u in Replay(online, events) <==>
      (LastFor(events, u) == Some(true) || (LastFor(events, u).None? && u in online))
    decreases |events|
  {
    if events != [] {
      var init := events[..|events| - 1];
      var last := events[|events| - 1];
      assert events == init + [last];
      ReplaySnoc(online, init, last);
      OnlineIffLastConnected(online, init, u);
    }
  }

  /** handleWebSocketConnectListener */
  method HandleConnect(w: World, principal: Option<string>, stompUp: bool)
    modifies w`online, w`sends
    ensures w.online == Apply(old(w.online), Connect(principal))
    ensures w.sends == old(w.sends) + (if principal.Some? then OnlineUpdate(stompUp) else [])
  {
    if principal.Some? {
      AddUser(w, principal.value, stompUp);
    }
  }

  /** handleWebSocketDisconnectListener */
  method HandleDisconnect(w: World, principal: Option<string>, stompUp: bool)
    modifies w`online, w`sends
    ensures w.online == Apply(old(w.online), Disconnect(principal))
    ensures w.sends == old(w.sends) + (if principal.Some? then OnlineUpdate(stompUp) else [])
  {
    if principal.Some? {
      RemoveUser(w, principal.value, stompUp);
    }
  }
}
