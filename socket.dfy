/** The socket.io connection handler: the presence map `userSocketMap`, the
    live connections with the handshake id each one's disconnect closure
    captured, the emits sent so far and the emits waiting on a timer. */
module SocketServer {
  import opened JsValues
  import opened Presence
  import opened Events
  import NumberText

  class Server {
    /** `userSocketMap`: user id to the handle of the connection that last
        registered it. */
    var online: map<UserId, Handle>
    /** Every live connection, with the `userId` of its handshake. */
    var sessions: map<Handle, Value>
    /** Every emit so far, oldest first. */
    var outbox: seq<Emit>
    /** Emits scheduled with `setTimeout`, oldest first. */
    var timers: seq<Timer>
    /** Every connect and disconnect so far, oldest first. */
    ghost var history: seq<PresenceEvent>

    /** Every registered user maps to a live connection whose handshake
        carried that very id, and to the latest such connection; the
        registered users are exactly the ones `OnlineBy` the history. */
    ghost predicate Valid()
      reads this
    {
      && (forall u :: u in online ==> online[u] in sessions && sessions[online[u]] == Str(u))
      && (forall u :: u in online ==> LatestHandle(history, u) == Some(online[u]))
      && (forall u :: u in online <==> OnlineBy(history, u))
    }

    constructor ()
      ensures Valid()
      ensures online == map[] && sessions == map[]
      ensures outbox == [] && timers == [] && history == []
    {
      online, sessions := map[], map[];
      outbox, timers := [], [];
      history := [];
    }

    /** `getReceiverSocketId`: the handle a user is reachable on, if any,
        for the property key of `receiverId`. A handle it returns is the
        latest connection that registered that user and is still live, so
        it is never stale and never an anonymous connection. */
    function GetReceiverSocketId(receiverId: Value): (r: Option<Handle>)
      reads this
      requires Valid()
      ensures r.Some? <==> OnlineBy(history, Key(receiverId))
      ensures r.Some? ==> LatestHandle(history, Key(receiverId)) == r
      ensures r.Some? ==> r.value in sessions && sessions[r.value] == Str(Key(receiverId))
    {
      Lookup(online, Key(receiverId))
    }

    /** `Object.keys(userSocketMap)`: exactly the users registered by some
        connect and not unregistered by any later disconnect. */
    function OnlineUsers(): (users: set<UserId>)
      reads this
      requires Valid()
      ensures forall u :: u in users <==> OnlineBy(history, u)
    {
      online.Keys
    }

    /** The `connection` handler: register the handshake id unless it is
        `undefined`, overwriting any earlier handle of that user, then
        broadcast the online users. */
    method Connect(h: Handle, userId: Value)
      requires Valid()
      requires h !in sessions
      modifies this
      ensures Valid()
      ensures sessions == old(sessions)[h := userId]
      ensures online == if userId.Str? then old(online)[userId.s := h] else old(online)
      ensures outbox == old(outbox) + [Emit(Everyone, GetOnlineUsers, OnlineUserIds(OnlineUsers()))]
      ensures timers == old(timers)
      ensures history == old(history) + [Connected(h, userId)]
      ensures userId.Str? ==> GetReceiverSocketId(userId) == Some(h)
    {
      var e := Connected(h, userId);
      if userId != Undefined {
        online := online[userId.s := h];
      }
      sessions := sessions[h := userId];
      outbox := outbox + [Emit(Everyone, GetOnlineUsers, OnlineUserIds(online.Keys))];
      history := history + [e];
      forall u ensures (u in online <==> OnlineBy(history, u))
        && (u in online ==> LatestHandle(history, u) == Some(online[u])) {
        OnlineByStep(old(history), e, u);
        LatestHandleStep(old(history), e, u);
      }
    }

    /** The `disconnect` handler of connection `h`: delete the key of its
        handshake id, whichever handle that key now maps to (a no-op when the
        key is absent), then broadcast the online users. */
    method Disconnect(h: Handle)
      requires Valid()
      requires h in sessions
      modifies this
      ensures Valid()
      ensures sessions == old(sessions) - {h}
      ensures online == old(online) - {Key(old(sessions)[h])}
      ensures outbox == old(outbox) + [Emit(Everyone, GetOnlineUsers, OnlineUserIds(OnlineUsers()))]
      ensures timers == old(timers)
      ensures history == old(history) + [Disconnected(h, old(sessions)[h])]
      ensures GetReceiverSocketId(old(sessions)[h]) == None
    {
      var userId := sessions[h];
      var e := Disconnected(h, userId);
      online := online - {Key(userId)};
      sessions := sessions - {h};
      outbox := outbox + [Emit(Everyone, GetOnlineUsers, OnlineUserIds(online.Keys))];
      history := history + [e];
      forall u ensures (u in online <==> OnlineBy(history, u))
        && (u in online ==> LatestHandle(history, u) == Some(online[u])) {
        OnlineByStep(old(history), e, u);
        LatestHandleStep(old(history), e, u);
      }
    }

    /** The `sendMessage` handler; it leaves presence alone. */
    method SendMessage(data: MessageData, now: int, createdAt: string)
      requires Valid()
      requires NumberText.IsTimeValue(now)
      modifies this`outbox, this`timers
      ensures Valid()
      ensures outbox == old(outbox) + SendMessageEffects(online, data, now, createdAt).emits
      ensures timers == old(timers) + SendMessageEffects(online, data, now, createdAt).timers
      ensures forall e :: e in SendMessageEffects(online, data, now, createdAt).emits ==>
        e.target.Socket? && e.target.handle in sessions
    {
      var msg := BuildMessage(data, now, createdAt);
      var note := StatusNote(msg.id, data.receiverId);
      var receiverSocketId := Lookup(online, Key(data.receiverId));
      if receiverSocketId.Some? {
        outbox := outbox + [Emit(Socket(receiverSocketId.value), NewMessage, MessageObject(msg))];
        var senderSocketId := Lookup(online, Key(data.senderId));
        if senderSocketId.Some? {
          outbox := outbox + [Emit(Socket(senderSocketId.value), MessageSent, note)];
          timers := timers + [Timer(DeliveredDelay, Emit(Socket(senderSocketId.value), MessageDelivered, note))];
        }
      } else {
        var senderSocketId := Lookup(online, Key(data.senderId));
        if senderSocketId.Some? {
          outbox := outbox + [Emit(Socket(senderSocketId.value), MessageSent, note)];
        }
      }
    }

    /** The `markAsRead` handler; it leaves presence alone. */
    method MarkAsRead(data: AckData)
      requires Valid()
      modifies this`outbox
      ensures Valid()
      ensures outbox == old(outbox) + AckEmits(online, Read, data)
      ensures forall e :: e in AckEmits(online, Read, data) ==> e.target.Socket? && e.target.handle in sessions
    {
      var senderSocketId := Lookup(online, Key(data.senderId));
      if senderSocketId.Some? {
        outbox := outbox + [Emit(Socket(senderSocketId.value), MessageRead, ReadNote(NormaliseIds(data.messageIds), data.receiverId))];
      }
    }

    /** The `markAsSeen` handler; it leaves presence alone. */
    method MarkAsSeen(data: AckData)
      requires Valid()
      modifies this`outbox
      ensures Valid()
      ensures outbox == old(outbox) + AckEmits(online, Seen, data)
      ensures forall e :: e in AckEmits(online, Seen, data) ==> e.target.Socket? && e.target.handle in sessions
    {
      var senderSocketId := Lookup(online, Key(data.senderId));
      if senderSocketId.Some? {
        outbox := outbox + [Emit(Socket(senderSocketId.value), MessageSeen, SeenNote(NormaliseIds(data.messageIds), data.receiverId))];
      }
    }

    /** The earliest pending timer fires: its emit goes out to the handle it
        captured, with no new presence lookup. All timers share one delay,
        so they fire in the order they were set. */
    method FireTimer() returns (fired: bool)
      requires Valid()
      modifies this`outbox, this`timers
      ensures Valid()
      ensures fired <==> old(timers) != []
      ensures fired ==> outbox == old(outbox) + [old(timers)[0].emit] && timers == old(timers)[1..]
      ensures !fired ==> outbox == old(outbox) && timers == old(timers)
    {
      fired := timers != [];
      if fired {
        outbox := outbox + [timers[0].emit];
        timers := timers[1..];
      }
    }
  }
}
