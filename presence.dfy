/** The presence registry's vocabulary and an independent, history-based
    definition of who is online. */
module Presence {
  import opened JsValues

  /** A user id as it keys the registry: JavaScript object keys are strings. */
  type UserId = string

  /** A socket.io connection id. socket.io never issues an empty one, so a
      stored handle is always truthy and `if (socketId)` is a presence test. */
  type Handle = s: string | s != [] witness "h"

  function Lookup(m: map<UserId, Handle>, k: UserId): Option<Handle> {
    if k in m then Some(m[k]) else None
  }

  /** What the registry observes: a connection opening with the user id of
      its handshake, and that connection closing. The disconnect closure
      captures the handshake id, so the closing event carries it too. */
  datatype PresenceEvent =
    | Connected(handle: Handle, userId: Value)
    | Disconnected(handle: Handle, userId: Value)

  /** The event writes the key `u` (only a handshake id that is not
      `undefined` is written). */
  predicate Registers(e: PresenceEvent, u: UserId) {
    e.Connected? && e.userId == Str(u)
  }

  /** The event deletes the key `u`: the key of the closing connection's
      handshake id, whatever handle that key maps to by then. */
  predicate Unregisters(e: PresenceEvent, u: UserId) {
    e.Disconnected? && Key(e.userId) == u
  }

  /** `u` is online after the history `t` iff some event registered `u` and
      no later event unregistered it. */
  ghost predicate OnlineBy(t: seq<PresenceEvent>, u: UserId) {
    exists i :: 0 <= i < |t| && Registers(t[i], u) &&
      forall j :: i < j < |t| ==> !Unregisters(t[j], u)
  }

  /** The handle of the last connection whose handshake registered `u`,
      if any connection ever did. */
  ghost function LatestHandle(t: seq<PresenceEvent>, u: UserId): Option<Handle> {
    if t == [] then None
    else if Registers(t[|t| - 1], u) then Some(t[|t| - 1].handle)
    else LatestHandle(t[..|t| - 1], u)
  }

  /** One more event makes its own handle the latest one of the user it
      registers, and changes no other user's latest handle. */
  lemma LatestHandleStep(t: seq<PresenceEvent>, e: PresenceEvent, u: UserId)
    ensures LatestHandle(t + [e], u) == if Registers(e, u) then Some(e.handle) else LatestHandle(t, u)
  {
  }

  /** `LatestHandle` is `None` exactly when no event ever registered `u`. */
  lemma {:induction false} LatestHandleNone(t: seq<PresenceEvent>, u: UserId)
    ensures LatestHandle(t, u) == None <==> forall i :: 0 <= i < |t| ==> !Registers(t[i], u)
  {
    if t != [] {
      var p := t[..|t| - 1];
      LatestHandleNone(p, u);
      assert forall i :: 0 <= i < |p| ==> p[i] == t[i];
    }
  }

  /** `LatestHandle` is `Some(h)` exactly when some event registered `u` on
      handle `h` and no later event registered `u` again. */
  lemma {:induction false} LatestHandleSome(t: seq<PresenceEvent>, u: UserId, h: Handle)
    ensures LatestHandle(t, u) == Some(h) <==>
      exists i :: 0 <= i < |t| && Registers(t[i], u) && t[i].handle == h &&
        forall j :: i < j < |t| ==> !Registers(t[j], u)
  {
    if t != [] {
      var k := |t| - 1;
      var p := t[..k];
      var e := t[k];
      assert forall i :: 0 <= i < |p| ==> p[i] == t[i];
      LatestHandleSome(p, u, h);
      if Registers(e, u) {
        if e.handle == h {
          assert Registers(t[k], u) && t[k].handle == h;
        } else {
          forall i | 0 <= i < |t| && Registers(t[i], u) && t[i].handle == h
            ensures exists j :: i < j < |t| && Registers(t[j], u)
          {
            assert i != k;
            assert Registers(t[k], u);
          }
        }
      } else {
        if LatestHandle(p, u) == Some(h) {
          var i :| 0 <= i < |p| && Registers(p[i], u) && p[i].handle == h &&
            forall j :: i < j < |p| ==> !Registers(p[j], u);
          assert Registers(t[i], u) && t[i].handle == h;
          assert forall j :: i < j < |t| ==> !Registers(t[j], u);
        } else {
          forall i | 0 <= i < |t| && Registers(t[i], u) && t[i].handle == h
            ensures exists j :: i < j < |t| && Registers(t[j], u)
          {
            assert i < k;
            assert !(Registers(p[i], u) && p[i].handle == h && forall j :: i < j < |p| ==> !Registers(p[j], u));
            var j :| i < j < |p| && Registers(p[j], u);
            assert Registers(t[j], u);
          }
        }
      }
    }
  }

  /** How one more event changes who is online: it either registers `u`, or
      `u` was online and the event does not unregister it. */
  lemma OnlineByStep(t: seq<PresenceEvent>, e: PresenceEvent, u: UserId)
    ensures OnlineBy(t + [e], u) <==> Registers(e, u) || (OnlineBy(t, u) && !Unregisters(e, u))
  {
    var t' := t + [e];
    assert t'[|t|] == e;
    if OnlineBy(t', u) {
      var i :| 0 <= i < |t'| && Registers(t'[i], u) &&
        forall j :: i < j < |t'| ==> !Unregisters(t'[j], u);
      if i < |t| {
        assert !Unregisters(t'[|t|], u);
        assert t'[i] == t[i];
        forall j | i < j < |t| ensures !Unregisters(t[j], u) {
          assert t'[j] == t[j];
        }
      }
    }
    if !Registers(e, u) && OnlineBy(t, u) && !Unregisters(e, u) {
      var i :| 0 <= i < |t| && Registers(t[i], u) &&
        forall j :: i < j < |t| ==> !Unregisters(t[j], u);
      assert t'[i] == t[i];
      forall j | i < j < |t'| ensures !Unregisters(t'[j], u) {
        if j < |t| { assert t'[j] == t[j]; }
      }
    }
  }
}
