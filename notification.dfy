/**
 * WebSocketNotificationService: the registry of online users and the STOMP
 * sends. The STOMP broker is the sequence of sends it has accepted;
 * `stompUp` says whether it accepts one now.
 */
module WebSocketNotification {
  import opened JavaLang
  import opened Entities
  import opened Store

  const PUBLIC_TOPIC: string := "/topic/public"
  const ONLINE_TOPIC: string := "/topic/online-users"
  const USER_QUEUE: string := "/queue/messages"

  /** The marker every registry change announces. */
  const ONLINE_UPDATE: Message := Message(Some("online-users"), None, TextData("Online users list updated"), None, None)

  /** What a refused send throws. */
  const STOMP_DOWN: Exception := Exception(MessagingException, Some("STOMP broker not available"))

  /** The sends broadcastOnlineUsersUpdate leaves behind: a refused send is caught and logged. */
  function OnlineUpdate(stompUp: bool): (s: seq<StompSend>)
    ensures |s| <= 1
    ensures forall i :: 0 <= i < |s| ==> s[i] == ToDestination(ONLINE_TOPIC, ONLINE_UPDATE)
  {
    if stompUp then [ToDestination(ONLINE_TOPIC, ONLINE_UPDATE)] else []
  }

  method BroadcastOnlineUsersUpdate(w: World, stompUp: bool)
    modifies w`sends
    ensures w.sends == old(w.sends) + OnlineUpdate(stompUp)
  {
    if stompUp {
      w.sends := w.sends + [ToDestination(ONLINE_TOPIC, ONLINE_UPDATE)];
    }
  }

  /** addUser: the user is online, and the change is announced even if there was none. */
  method AddUser(w: World, userId: string, stompUp: bool)
    modifies w`online, w`sends
    ensures w.online == old(w.online) + {userId}
    ensures w.sends == old(w.sends) + OnlineUpdate(stompUp)
  {
    w.online := w.online + {userId};
    BroadcastOnlineUsersUpdate(w, stompUp);
  }

  /** removeUser: the user is offline, and the change is announced even if there was none. */
  method RemoveUser(w: World, userId: string, stompUp: bool)
    modifies w`online, w`sends
    ensures w.online == old(w.online) - {userId}
    ensures w.sends == old(w.sends) + OnlineUpdate(stompUp)
  {
    w.online := w.online - {userId};
    BroadcastOnlineUsersUpdate(w, stompUp);
  }

  /** sendToUser: to the user's private queue, whether or not the user is online. */
  method SendToUser(w: World, userId: string, message: Message, stompUp: bool) returns (r: Result<()>)
    modifies w`sends
    ensures stompUp ==> r == Ok(()) && w.sends == old(w.sends) + [ToUser(userId, USER_QUEUE, message)]
    ensures !stompUp ==> r == Throw(STOMP_DOWN) && w.sends == old(w.sends)
  {
    if !stompUp {
      return Throw(STOMP_DOWN);
    }
    w.sends := w.sends + [ToUser(userId, USER_QUEUE, message)];
    r := Ok(());
  }

  /** broadcastToAllUsers: the unchanged message to the public topic. */
  method BroadcastToAllUsers(w: World, message: Message, stompUp: bool) returns (r: Result<()>)
    modifies w`sends
    ensures stompUp ==> r == Ok(()) && w.sends == old(w.sends) + [ToDestination(PUBLIC_TOPIC, message)]
    ensures !stompUp ==> r == Throw(STOMP_DOWN) && w.sends == old(w.sends)
  {
    if !stompUp {
      return Throw(STOMP_DOWN);
    }
    w.sends := w.sends + [ToDestination(PUBLIC_TOPIC, message)];
    r := Ok(());
  }

  /** getOnlineUserCount: the number of distinct online users; each name counts once. */
  function GetOnlineUserCount(w: World): (n: nat)
    reads w
    ensures n == 0 <==> w.online == {}
    ensures forall u :: u in w.online ==> n == |w.online - {u}| + 1
  {
    |w.online|
  }

  /** getOnlineUsers: a copy; the registry is a value, so no caller can change it through the copy. */
  function GetOnlineUsers(w: World): (s: set<string>)
    reads w
    ensures s == w.online
  {
    w.online
  }

  /** Adding twice is adding once. */
  lemma AddIdempotent(online: set<string>, u: string)
    ensures (online + {u}) + {u} == online + {u}
  {
  }

  /** Removing an absent user changes nothing. */
  lemma RemoveAbsent(online: set<string>, u: string)
    requires u !in online
    ensures online - {u} == online
  {
  }
}
