/**
 * The relay's routing rule: what the server does with one decoded message
 * received from a client, given the registry of connected clients.
 */
module Routing {

  import opened Json

  /** An accepted WebSocket connection, as an opaque handle. */
  type ConnId = nat

  /** A decoded JSON object, as forwarded or sent by the relay. */
  type Message = map<string, Value>

  /** One `send_text` that went through: the connection written to and the object written. */
  datatype Delivery = Delivery(to: ConnId, msg: Message)

  /**
   * Outcome of handling one received message:
   * - Drop: ignored, the loop waits for the next message;
   * - Send: exactly one message written to connection `to`;
   * - Raise: an exception is raised, which ends the client's loop through the error path.
   */
  datatype Action = Drop | Send(to: ConnId, msg: Message) | Raise

  const TargetKey: string := "target_id"
  const SenderKey: string := "sender_id"

  /** `message.get("target_id")`: the value under the key, or None when it is absent. */
  function Target(m: Message): Value {
    if TargetKey in m then m[TargetKey] else JNull
  }

  /** The reply sent back to a client whose addressee is not registered. */
  function NotOnline(target: Value): (r: Message)
    requires Hashable(target)
    ensures r.Keys == {"type", "message"}
    ensures r["type"] == JStr("error")
    ensures r["message"].JStr?
    ensures var text := r["message"].s;
      |text| >= 20 && text[..5] == "User " && text[|text| - 15..] == " is not online."
      && text[5..|text| - 15] == PyStr(target)
  {
    var text := "User " + PyStr(target) + " is not online.";
    assert text[5..|text| - 15] == PyStr(target);
    map["type" := JStr("error"), "message" := JStr(text)]
  }

  /**
   * Handling of one decoded message `msg` received on connection `self`,
   * which was opened under client id `clientId`.
   */
  function Route(active: map<string, ConnId>, clientId: string, self: ConnId, msg: Value): (a: Action)
    // `.get` on something other than an object, or an unhashable truthy target, raises
    ensures a.Raise? <==>
      !msg.JObj? || (Truthy(Target(msg.fields)) && !Hashable(Target(msg.fields)))
    // a missing or falsy target is ignored
    ensures a.Drop? <==> msg.JObj? && !Truthy(Target(msg.fields))
    // a message is only ever written to the addressee's connection or back to the sender
    ensures a.Send? ==>
      a.to == self ||
      (Target(msg.fields).JStr? && Target(msg.fields).s in active
       && a.to == active[Target(msg.fields).s])
  {
    if !msg.JObj? then Raise
    else
      var target := Target(msg.fields);
      if !Truthy(target) then Drop
      else if !Hashable(target) then Raise
      else if target.JStr? && target.s in active then
        Send(active[target.s], msg.fields[SenderKey := JStr(clientId)])
      else
        Send(self, NotOnline(target))
  }

  /**
   * A message addressed to a registered client is forwarded to that client's
   * connection only, unchanged except that `sender_id` is the sender's own id.
   */
  lemma ForwardToAddressee(active: map<string, ConnId>, clientId: string, self: ConnId, m: Message)
    requires Target(m).JStr? && Target(m).s != "" && Target(m).s in active
    ensures var a := Route(active, clientId, self, JObj(m));
      && a.Send?
      && a.to == active[Target(m).s]
      && a.msg.Keys == m.Keys + {SenderKey}
      && a.msg[SenderKey] == JStr(clientId)
      && (forall k :: k in m && k != SenderKey ==> a.msg[k] == m[k])
  {
  }

  /**
   * A message whose truthy, hashable target is not a registered id gets exactly
   * the not-online error back on the sender's own connection.
   */
  lemma ReplyWhenNotOnline(active: map<string, ConnId>, clientId: string, self: ConnId, m: Message)
    requires Truthy(Target(m)) && Hashable(Target(m))
    requires !(Target(m).JStr? && Target(m).s in active)
    ensures Route(active, clientId, self, JObj(m)) == Send(self, NotOnline(Target(m)))
  {
  }

  /** The registry key is compared exactly: an int target never reaches a client, even one whose id is its digits. */
  lemma NonStringTargetIsNeverForwarded(active: map<string, ConnId>, clientId: string, self: ConnId, m: Message)
    requires Truthy(Target(m)) && Hashable(Target(m)) && !Target(m).JStr?
    ensures Route(active, clientId, self, JObj(m)) == Send(self, NotOnline(Target(m)))
  {
  }

  /** Whatever `sender_id` a client puts in its message, the relay's decision is the same as if it had put none. */
  lemma SuppliedSenderIgnored(active: map<string, ConnId>, clientId: string, self: ConnId, m: Message, forged: Value)
    ensures Route(active, clientId, self, JObj(m[SenderKey := forged]))
         == Route(active, clientId, self, JObj(m - {SenderKey}))
  {
  }
}
