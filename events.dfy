/** The events the router sends, the payloads of the events it receives, and
    what each message handler emits, as functions of the presence map. */
module Events {
  import opened JsValues
  import opened Presence
  import NumberText

  /** Who an emit is addressed to: every connection (`io.emit`) or one
      connection (`socket.to(handle).emit`). */
  datatype Target = Everyone | Socket(handle: Handle)

  datatype EventName =
    | GetOnlineUsers
    | NewMessage
    | MessageSent
    | MessageDelivered
    | MessageRead
    | MessageSeen

  /** The message object relayed to a receiver. */
  datatype Message = Message(
    id: string,
    message: Value,
    senderId: Value,
    receiverId: Value,
    createdAt: string,
    status: string)

  datatype Payload =
    | OnlineUserIds(users: set<UserId>)
    | MessageObject(msg: Message)
    | StatusNote(messageId: string, receiverId: Value)
    | ReadNote(messageIds: seq<Value>, readBy: Value)
    | SeenNote(messageIds: seq<Value>, seenBy: Value)

  datatype Emit = Emit(target: Target, event: EventName, payload: Payload)

  /** An emit scheduled with `setTimeout`, to go out `delay` ms later. */
  datatype Timer = Timer(delay: nat, emit: Emit)

  /** The delay before a sender is told that a message was delivered. */
  const DeliveredDelay: nat := 800

  /** The `sendMessage` payload. */
  datatype MessageData = MessageData(receiverId: Value, senderId: Value, message: Value, tempId: Value)

  /** `messageIds` of an acknowledgement: one id, or an array of them. */
  datatype MessageIds = Single(id: Value) | Many(ids: seq<Value>)

  /** The `markAsRead` / `markAsSeen` payload: `receiverId` acknowledges the
      messages `senderId` sent. */
  datatype AckData = AckData(messageIds: MessageIds, receiverId: Value, senderId: Value)

  datatype Ack = Read | Seen

  /** What one handler invocation emits now and schedules for later. */
  datatype Effects = Effects(emits: seq<Emit>, timers: seq<Timer>)

  /** The emits of `es` that carry event `ev`, in order. */
  function Named(es: seq<Emit>, ev: EventName): seq<Emit> {
    if es == [] then []
    else (if es[0].event == ev then [es[0]] else []) + Named(es[1..], ev)
  }

  /** `_id` of a relayed message: the client's temporary id when it is
      truthy, otherwise the text of the clock reading `now`. */
  function MessageId(tempId: Value, now: int): (id: string)
    requires NumberText.IsTimeValue(now)
    ensures id != []
    ensures Truthy(tempId) ==> id == tempId.s
    ensures !Truthy(tempId) ==> NumberText.CanonicalInt(id) && NumberText.ParseInt(id) == Some(now)
  {
    if Truthy(tempId) then tempId.s
    else
      NumberText.FormatIntRoundTrip(now);
      NumberText.FormatInt(now)
  }

  function BuildMessage(data: MessageData, now: int, createdAt: string): Message
    requires NumberText.IsTimeValue(now)
  {
    Message(MessageId(data.tempId, now), data.message, data.senderId, data.receiverId, createdAt, "sent")
  }

  /** The `sendMessage` handler. The receiver gets the message if online;
      the sender is told `messageSent` if online, whether or not the
      receiver is; `messageDelivered` to the sender's handle of this moment
      is scheduled exactly when both are online. */
  function SendMessageEffects(online: map<UserId, Handle>, data: MessageData, now: int, createdAt: string): (r: Effects)
    requires NumberText.IsTimeValue(now)
    ensures r.emits == Named(r.emits, NewMessage) + Named(r.emits, MessageSent)
    ensures Named(r.emits, NewMessage) ==
      if Key(data.receiverId) in online
      then [Emit(Socket(online[Key(data.receiverId)]), NewMessage, MessageObject(BuildMessage(data, now, createdAt)))]
      else []
    ensures Named(r.emits, MessageSent) ==
      if Key(data.senderId) in online
      then [Emit(Socket(online[Key(data.senderId)]), MessageSent, StatusNote(MessageId(data.tempId, now), data.receiverId))]
      else []
    ensures r.timers ==
      if Key(data.receiverId) in online && Key(data.senderId) in online
      then [Timer(DeliveredDelay, Emit(Socket(online[Key(data.senderId)]), MessageDelivered, StatusNote(MessageId(data.tempId, now), data.receiverId)))]
      else []
  {
    var msg := BuildMessage(data, now, createdAt);
    var note := StatusNote(msg.id, data.receiverId);
    var receiverSocket := Lookup(online, Key(data.receiverId));
    if receiverSocket.Some? then
      var toReceiver := Emit(Socket(receiverSocket.value), NewMessage, MessageObject(msg));
      var senderSocket := Lookup(online, Key(data.senderId));
      if senderSocket.Some? then
        var sent := Emit(Socket(senderSocket.value), MessageSent, note);
        assert [toReceiver, sent][1..] == [sent] && [sent][1..] == [];
        assert Named([sent], NewMessage) == [];
        assert Named([sent], MessageSent) == [sent] + Named([], MessageSent) == [sent];
        assert Named([toReceiver, sent], NewMessage) == [toReceiver];
        assert Named([toReceiver, sent], MessageSent) == [sent];
        Effects([toReceiver, sent], [Timer(DeliveredDelay, Emit(Socket(senderSocket.value), MessageDelivered, note))])
      else
        Effects([toReceiver], [])
    else
      var senderSocket := Lookup(online, Key(data.senderId));
      if senderSocket.Some? then
        Effects([Emit(Socket(senderSocket.value), MessageSent, note)], [])
      else
        Effects([], [])
  }

  /** The delayed notification repeats the immediate `messageSent`: same
      handle, same payload, only the event name differs, 800 ms later. */
  lemma DeliveredMirrorsSent(online: map<UserId, Handle>, data: MessageData, now: int, createdAt: string)
    requires NumberText.IsTimeValue(now)
    ensures var r := SendMessageEffects(online, data, now, createdAt);
      forall t :: t in r.timers ==>
        && t.delay == DeliveredDelay
        && t.emit.event == MessageDelivered
        && Named(r.emits, MessageSent) == [Emit(t.emit.target, MessageSent, t.emit.payload)]
    ensures var r := SendMessageEffects(online, data, now, createdAt);
      |r.timers| == if Named(r.emits, NewMessage) != [] && Named(r.emits, MessageSent) != [] then 1 else 0
  {
  }

  /** `Array.isArray(messageIds) ? messageIds : [messageIds]`. */
  function NormaliseIds(ids: MessageIds): seq<Value> {
    match ids
    case Single(id) => [id]
    case Many(vs) => vs
  }

  /** The `markAsRead` / `markAsSeen` handlers: exactly one notification to
      the original sender's handle if the sender is online, none otherwise,
      carrying every acknowledged id and the acknowledger. */
  function AckEmits(online: map<UserId, Handle>, kind: Ack, data: AckData): (r: seq<Emit>)
    ensures |r| == if Key(data.senderId) in online then 1 else 0
    ensures r != [] ==> r[0].target == Socket(online[Key(data.senderId)])
    ensures r != [] ==> r[0].event == (if kind == Read then MessageRead else MessageSeen)
    ensures r != [] && kind == Read ==> r[0].payload.ReadNote? && r[0].payload.readBy == data.receiverId
    ensures r != [] && kind == Seen ==> r[0].payload.SeenNote? && r[0].payload.seenBy == data.receiverId
    ensures r != [] ==>
      r[0].payload.messageIds == (if data.messageIds.Many? then data.messageIds.ids else [data.messageIds.id])
  {
    var senderSocket := Lookup(online, Key(data.senderId));
    if senderSocket.None? then []
    else
      var ids := NormaliseIds(data.messageIds);
      match kind
      case Read => [Emit(Socket(senderSocket.value), MessageRead, ReadNote(ids, data.receiverId))]
      case Seen => [Emit(Socket(senderSocket.value), MessageSeen, SeenNote(ids, data.receiverId))]
  }
}
