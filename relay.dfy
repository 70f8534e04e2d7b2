/**
 * The relay's registry of connected clients (`active_connections`) and the
 * per-connection handler `websocket_endpoint` that registers a client, routes
 * each message it sends, and deregisters it when its loop ends.
 */
module Relay {

  import opened Wrappers
  import opened Json
  import opened Routing

  /** A client id as matched by the route `/ws/{client_id}`: one non-empty path segment. */
  predicate ValidClientId(id: string) {
    id != "" && '/' !in id
  }

  /**
   * What one `receive_text` in a client's loop yields:
   * - Text: a frame arrived; `decoded` is None when `json.loads` rejects it, and
   *   `sendOk` says whether the `send_text` this message triggers, if any, succeeds;
   * - Closed: the client went away (`WebSocketDisconnect`);
   * - Broken: the receive failed with any other `Exception` (`except Exception`).
   */
  datatype Inbound = Text(decoded: Option<Value>, sendOk: bool) | Closed | Broken

  /** Where a client's handler stands: still waiting for frames, or finished by one of the two exit paths. */
  datatype Exit = Listening | Disconnected | Errored

  /** What a run of a handler does: the messages it wrote, in order, and where it stands afterwards. */
  datatype Turn = Turn(sent: seq<Delivery>, exit: Exit)

  /** One iteration of the receive loop of the handler for `clientId` on connection `self`. */
  function Handle(active: map<string, ConnId>, clientId: string, self: ConnId, ev: Inbound): (t: Turn)
    // at most one message per frame, and a frame that ends the loop writes nothing
    ensures |t.sent| <= 1 && (t.exit != Listening ==> t.sent == [])
    // only `WebSocketDisconnect` takes the disconnect path; every other failure takes the error path
    ensures t.exit == Disconnected <==> ev.Closed?
  {
    match ev
    case Closed => Turn([], Disconnected)
    case Broken => Turn([], Errored)
    case Text(None, _) => Turn([], Errored)
    case Text(Some(j), sendOk) =>
      match Route(active, clientId, self, j)
      case Drop => Turn([], Listening)
      case Raise => Turn([], Errored)
      case Send(to, m) => if sendOk then Turn([Delivery(to, m)], Listening) else Turn([], Errored)
  }

  /**
   * The receive loop run over frames arriving one after another while the
   * registry stays as it is: every frame is handled until one ends the loop.
   */
  function Run(active: map<string, ConnId>, clientId: string, self: ConnId, evs: seq<Inbound>): (t: Turn)
    ensures |t.sent| <= |evs|
    ensures forall d :: d in t.sent ==> d.to == self || d.to in active.Values
    decreases |evs|
  {
    if evs == [] then Turn([], Listening)
    else
      var first := Handle(active, clientId, self, evs[0]);
      if first.exit != Listening then first
      else
        var rest := Run(active, clientId, self, evs[1..]);
        Turn(first.sent + rest.sent, rest.exit)
  }

  /** Frames that follow one that ended the loop are never read. */
  lemma {:induction false} RunAppend(active: map<string, ConnId>, clientId: string, self: ConnId, evs: seq<Inbound>, more: seq<Inbound>)
    ensures var t := Run(active, clientId, self, evs);
      Run(active, clientId, self, evs + more) ==
        if t.exit == Listening then
          var u := Run(active, clientId, self, more);
          Turn(t.sent + u.sent, u.exit)
        else t
    decreases |evs|
  {
    if evs == [] {
      assert evs + more == more;
    } else {
      assert (evs + more)[0] == evs[0];
      assert (evs + more)[1..] == evs[1..] + more;
      RunAppend(active, clientId, self, evs[1..], more);
      var first := Handle(active, clientId, self, evs[0]);
      if first.exit == Listening {
        var r, u := Run(active, clientId, self, evs[1..]), Run(active, clientId, self, more);
        if r.exit == Listening {
          assert first.sent + (r.sent + u.sent) == (first.sent + r.sent) + u.sent;
        }
      }
    }
  }

  /** Handling one more frame while the loop is still listening extends the run by that frame's turn. */
  lemma RunSnoc(active: map<string, ConnId>, clientId: string, self: ConnId, evs: seq<Inbound>, i: nat)
    requires i < |evs| && Run(active, clientId, self, evs[..i]).exit == Listening
    ensures var t, h := Run(active, clientId, self, evs[..i]), Handle(active, clientId, self, evs[i]);
      Run(active, clientId, self, evs[..i + 1]) == Turn(t.sent + h.sent, h.exit)
  {
    RunAppend(active, clientId, self, evs[..i], [evs[i]]);
    assert evs[..i] + [evs[i]] == evs[..i + 1];
    var one, h := [evs[i]], Handle(active, clientId, self, evs[i]);
    assert one[0] == evs[i] && one[1..] == [];
    assert h.sent + [] == h.sent;
  }

  /** Messages without a usable target are ignored: nothing is written and the loop keeps going. */
  lemma {:induction false} RunSilentWithoutTarget(active: map<string, ConnId>, clientId: string, self: ConnId, evs: seq<Inbound>)
    requires forall i :: 0 <= i < |evs| ==>
      evs[i].Text? && evs[i].decoded.Some? && evs[i].decoded.value.JObj?
      && !Truthy(Target(evs[i].decoded.value.fields))
    ensures Run(active, clientId, self, evs) == Turn([], Listening)
    decreases |evs|
  {
    if evs != [] {
      RunSilentWithoutTarget(active, clientId, self, evs[1..]);
    }
  }

  /**
   * Every message the handler writes either carries the sender's own id as
   * `sender_id`, or is the not-online error written back to the sender.
   */
  lemma {:induction false} RunStampsSender(active: map<string, ConnId>, clientId: string, self: ConnId, evs: seq<Inbound>)
    ensures forall d :: d in Run(active, clientId, self, evs).sent ==>
      (SenderKey in d.msg && d.msg[SenderKey] == JStr(clientId))
      || (d.to == self && d.msg.Keys == {"type", "message"} && d.msg["type"] == JStr("error"))
    decreases |evs|
  {
    if evs != [] {
      RunStampsSender(active, clientId, self, evs[1..]);
      match evs[0]
      case Text(Some(j), _) =>
        if j.JObj? {
          var target := Target(j.fields);
          if Truthy(target) && Hashable(target) {
            if target.JStr? && target.s in active {
              ForwardToAddressee(active, clientId, self, j.fields);
            } else {
              ReplyWhenNotOnline(active, clientId, self, j.fields);
            }
          }
        }
      case _ =>
    }
  }

  /**
   * The relay's state: the registry, the handlers still running, and every
   * message written so far.
   */
  class Relay {
    /** `active_connections`: client id to the connection registered under it. */
    var active: map<string, ConnId>
    /** The handlers still running: each accepted connection and the client id in its path. */
    var handlers: map<ConnId, string>
    /** Every message written to a connection, in order. */
    var outbox: seq<Delivery>

    /** The registry only points at running handlers, each serving the id it is registered under. */
    ghost predicate Valid()
      reads this
    {
      && (forall c :: c in handlers ==> ValidClientId(handlers[c]))
      && (forall id :: id in active ==> active[id] in handlers && handlers[active[id]] == id)
    }

    /** The server starts with nobody connected. */
    constructor ()
      ensures Valid()
      ensures active == map[] && handlers == map[] && outbox == []
    {
      active, handlers, outbox := map[], map[], [];
    }

    /**
     * A client opens `/ws/{id}` and is accepted on the new connection `conn`:
     * `id` now maps to `conn`, replacing any earlier connection under the same id.
     */
    method Connect(id: string, conn: ConnId)
      requires Valid() && ValidClientId(id) && conn !in handlers
      modifies this
      ensures Valid()
      ensures active == old(active)[id := conn]
      ensures handlers == old(handlers)[conn := id]
      ensures outbox == old(outbox)
    {
      active := active[id := conn];
      handlers := handlers[conn := id];
    }

    /** The error path: the client's entry, if there still is one, goes away and its handler ends. */
    method Crash(conn: ConnId)
      requires Valid() && conn in handlers
      modifies this
      ensures Valid()
      ensures active == old(active) - {old(handlers)[conn]}
      ensures handlers == old(handlers) - {conn}
      ensures outbox == old(outbox)
    {
      var id := handlers[conn];
      if id in active {
        active := active - {id};
      }
      handlers := handlers - {conn};
    }

    /**
     * The disconnect path: the client's entry is deleted; when it is already
     * gone, the deletion raises (`keyError`) and the registry stays as it is.
     */
    method Disconnect(conn: ConnId) returns (keyError: bool)
      requires Valid() && conn in handlers
      modifies this
      ensures Valid()
      ensures keyError <==> old(handlers)[conn] !in old(active)
      ensures active == old(active) - {old(handlers)[conn]}
      ensures handlers == old(handlers) - {conn}
      ensures outbox == old(outbox)
    {
      var id := handlers[conn];
      keyError := id !in active;
      if !keyError {
        active := active - {id};
      }
      handlers := handlers - {conn};
    }

    /**
     * One frame received on `conn`: it is routed, and a failure anywhere
     * (decoding, inspecting, sending) takes the error path.
     */
    method Receive(conn: ConnId, decoded: Option<Value>, sendOk: bool) returns (exit: Exit)
      requires Valid() && conn in handlers
      modifies this
      ensures Valid()
      ensures var t := Handle(old(active), old(handlers)[conn], conn, Text(decoded, sendOk));
        && exit == t.exit
        && outbox == old(outbox) + t.sent
        && (exit == Listening ==> active == old(active) && handlers == old(handlers))
        && (exit != Listening ==>
              exit == Errored
              && active == old(active) - {old(handlers)[conn]}
              && handlers == old(handlers) - {conn})
      // whatever is written goes to a connection whose handler was running
      ensures forall i :: |old(outbox)| <= i < |outbox| ==> outbox[i].to in old(handlers)
    {
      if decoded.None? {
        Crash(conn);
        return Errored;
      }
      var action := Route(active, handlers[conn], conn, decoded.value);
      match action
      case Drop =>
        exit := Listening;
      case Raise =>
        Crash(conn);
        exit := Errored;
      case Send(to, m) =>
        if sendOk {
          outbox := outbox + [Delivery(to, m)];
          exit := Listening;
        } else {
          Crash(conn);
          exit := Errored;
        }
    }

    /** One iteration of the handler's loop on `conn`, whatever the receive yields. */
    method Step(conn: ConnId, ev: Inbound) returns (exit: Exit, keyError: bool)
      requires Valid() && conn in handlers
      modifies this
      ensures Valid()
      ensures var t := Handle(old(active), old(handlers)[conn], conn, ev);
        && exit == t.exit
        && outbox == old(outbox) + t.sent
        && (exit == Listening ==> active == old(active) && handlers == old(handlers))
        && (exit != Listening ==>
              active == old(active) - {old(handlers)[conn]}
              && handlers == old(handlers) - {conn})
      // the `del` of the disconnect path raises when the id is already gone
      ensures keyError <==> exit == Disconnected && old(handlers)[conn] !in old(active)
      // whatever is written goes to a connection whose handler was running
      ensures forall i :: |old(outbox)| <= i < |outbox| ==> outbox[i].to in old(handlers)
    {
      keyError := false;
      match ev
      case Text(decoded, sendOk) =>
        exit := Receive(conn, decoded, sendOk);
      case Closed =>
        keyError := Disconnect(conn);
        exit := Disconnected;
      case Broken =>
        Crash(conn);
        exit := Errored;
    }

    /**
     * The handler's `while True` loop over the frames `evs` that arrive on
     * `conn` one after another: it stops at the first one that ends the loop.
     */
    method Serve(conn: ConnId, evs: seq<Inbound>) returns (exit: Exit, keyError: bool)
      requires Valid() && conn in handlers
      modifies this
      ensures Valid()
      ensures var t := Run(old(active), old(handlers)[conn], conn, evs);
        && exit == t.exit
        && outbox == old(outbox) + t.sent
        && (exit == Listening ==> active == old(active) && handlers == old(handlers))
        && (exit != Listening ==>
              active == old(active) - {old(handlers)[conn]}
              && handlers == old(handlers) - {conn})
      // the loop ends in an escaping `KeyError` exactly when it is closed after its id was taken away
      ensures keyError <==> exit == Disconnected && old(handlers)[conn] !in old(active)
      // whatever is written goes to a connection whose handler was running
      ensures forall i :: |old(outbox)| <= i < |outbox| ==> outbox[i].to in old(handlers)
    {
      ghost var id, a0, h0, o0 := handlers[conn], active, handlers, outbox;
      var i := 0;
      exit, keyError := Listening, false;
      while i < |evs| && exit == Listening
        invariant 0 <= i <= |evs|
        invariant Valid()
        invariant var t := Run(a0, id, conn, evs[..i]);
          && exit == t.exit
          && outbox == o0 + t.sent
          && (exit == Listening ==> active == a0 && handlers == h0)
          && (exit != Listening ==> active == a0 - {id} && handlers == h0 - {conn})
        invariant keyError <==> exit == Disconnected && id !in a0
        invariant forall k :: |o0| <= k < |outbox| ==> outbox[k].to in h0
        decreases |evs| - i
      {
        ghost var done, step := Run(a0, id, conn, evs[..i]), Handle(a0, id, conn, evs[i]);
        RunSnoc(a0, id, conn, evs, i);
        exit, keyError := Step(conn, evs[i]);
        assert outbox == o0 + done.sent + step.sent;
        i := i + 1;
      }
      if i < |evs| {
        RunAppend(a0, id, conn, evs[..i], evs[i..]);
        assert evs[..i] + evs[i..] == evs;
      } else {
        assert evs[..i] == evs;
      }
    }
  }

  /**
   * Two connections under one id: when the replaced one closes, it deletes the
   * entry of the one that replaced it, which stays open but can no longer be
   * reached; its own later close then finds no entry to delete.
   */
  method ReusedIdScenario() returns (registry: map<string, ConnId>, running: set<ConnId>,
                                      firstKeyError: bool, reply: seq<Delivery>, secondKeyError: bool)
    ensures "alice" !in registry && 2 in running && !firstKeyError
    ensures reply == [Delivery(3, NotOnline(JStr("alice")))]
    ensures secondKeyError
  {
    var relay := new Relay();
    relay.Connect("alice", 1);
    relay.Connect("alice", 2);
    firstKeyError := relay.Disconnect(1);
    registry, running := relay.active, relay.handlers.Keys;
    relay.Connect("bob", 3);
    var _ := relay.Receive(3, Some(JObj(map[TargetKey := JStr("alice")])), true);
    reply := relay.outbox;
    secondKeyError := relay.Disconnect(2);
  }
}
