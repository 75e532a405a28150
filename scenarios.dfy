/** Runs of the connection handler that show behaviour the code has and a
    reader might not expect. Each is proved from the method contracts alone. */
module Scenarios {
  import opened JsValues
  import opened Presence
  import opened Events
  import opened SocketServer

  /** A second connection of the same user overwrites the first, and when
      the FIRST connection then closes it deletes the user's key: the user
      is offline although the second connection is still live. */
  method ReconnectThenOldDisconnect() returns (afterReconnect: Option<Handle>, users: set<UserId>, live: set<Handle>)
    ensures afterReconnect.Some? && afterReconnect.value == "h2"
    ensures users == {} && live == {"h2"}
  {
    var s := new Server();
    s.Connect("h1", Str("u"));
    s.Connect("h2", Str("u"));
    afterReconnect := s.GetReceiverSocketId(Str("u"));
    s.Disconnect("h1");
    users := s.OnlineUsers();
    live := s.sessions.Keys;
  }

  /** The delayed `messageDelivered` goes to the handle the sender had when
      the message was sent, even once that connection has closed. */
  method DeliveredAfterSenderLeft() returns (last: Emit, senderLive: bool)
    ensures last == Emit(Socket("a"), MessageDelivered, StatusNote("t1", Str("bob")))
    ensures !senderLive
  {
    var s := new Server();
    s.Connect("a", Str("alice"));
    s.Connect("b", Str("bob"));
    SendThenSenderLeaves(s);
    senderLive := "a" in s.sessions;
    var fired := s.FireTimer();
    last := s.outbox[|s.outbox| - 1];
  }

  /** Alice on "a" sends to Bob on "b", then Alice's connection closes: the
      `messageDelivered` for Alice's old handle is still pending. */
  method SendThenSenderLeaves(s: Server)
    requires s.Valid()
    requires s.online == map["alice" := "a", "bob" := "b"]
    requires s.sessions == map["a" := Str("alice"), "b" := Str("bob")]
    requires s.timers == []
    modifies s
    ensures s.Valid()
    ensures "a" !in s.sessions
    ensures s.timers == [Timer(DeliveredDelay, Emit(Socket("a"), MessageDelivered, StatusNote("t1", Str("bob"))))]
  {
    s.SendMessage(MessageData(Str("bob"), Str("alice"), Str("hi"), Str("t1")), 0, "1970-01-01T00:00:00.000Z");
    assert s.timers == [Timer(DeliveredDelay, Emit(Socket("a"), MessageDelivered, StatusNote("t1", Str("bob"))))];
    assert s.sessions == map["a" := Str("alice"), "b" := Str("bob")];
    s.Disconnect("a");
  }

  /** A connection without a handshake id is never registered, yet its
      disconnect deletes the key "undefined", so it unregisters a user who
      connected with the literal id "undefined". */
  method AnonymousDisconnect() returns (before: set<UserId>, after: set<UserId>)
    ensures before == {"undefined"} && after == {}
  {
    var s := new Server();
    s.Connect("x", Str("undefined"));
    s.Connect("y", Undefined);
    before := s.OnlineUsers();
    s.Disconnect("y");
    after := s.OnlineUsers();
  }
}
