# Signaling relay of the Video-call server, in Dafny

The server side of Video-call is a small relay. Browsers open a WebSocket at
`/ws/{client_id}`. The server keeps a table `active_connections` from client id
to connection. It passes each signaling message (offer, answer, ICE candidate,
decline, end) to the client named in its `target_id`. The offer/answer/ICE call
state machine runs in the browsers. The relay only routes.

This project models:

- **the routing rule** (`Routing.Route`). It decides what happens to one decoded
  message from client `c`:
  - it is dropped when `target_id` is missing or falsy;
  - it is forwarded to the registered connection, with `sender_id` set to `c`;
  - otherwise the not-online error goes back on the sender's own connection.
  The exceptions the same lines can raise are modelled too. A message that is
  not a JSON object makes `.get` fail. A non-empty list or object as
  `target_id` cannot be a dictionary key. Both end the client's loop through the
  error path.
- **the registry and the per-connection handler** (class `Relay.Relay`):
  - connect (insert, replacing an earlier connection under the same id);
  - one loop iteration (`Receive`, `Step`);
  - the disconnect path (`del`, which raises `KeyError` when the entry is
    already gone);
  - the error path (delete only if present);
  - the `while True` loop itself over a finite run of frames (`Serve`), proved
    against the pure specification `Relay.Run`.
- **the page's socket address** (`Page.WsUrl`): `wss` or `ws`, then `://`, the
  `Host` header, then `/ws`. A missing header prints as `None`.
- **the Python details the rule depends on** (module `Json`): truth values,
  which values can be dictionary keys, and `str()` of the values that reach the
  error text. A number renders as its decimal digits, `true` as `True`.

Connections are opaque handles (`ConnId`). Sending is an append to an outbox of
`Delivery(to, msg)` records. A frame's failure to decode, and a `send_text` that
fails, are inputs of the model.

Behaviour of the code as written, shown by `Relay.ReusedIdScenario`: suppose a
second connection reuses a client id and then the first one closes. The close
deletes the entry that now belongs to the second connection. That connection
stays open, but messages addressed to its id get the not-online reply. When it
closes in turn, its `del` raises `KeyError`.

The call state machine, session negotiator and roster belong to the browser
client, whose JavaScript is not part of this model.

## Model

| member | source | states |
|---|---|---|
| `Routing.Route` | app/main.py:53-70 | exactly one of drop / send / raise. Raise iff the message is not an object, or its truthy target is a list or object. Drop iff the target is missing or falsy. A send goes only to the addressee's registered connection or back to the sender |
| `Routing.ForwardToAddressee` | app/main.py:59-64 | a message for a registered id goes to that id's connection only. It has the received keys plus `sender_id`, `sender_id` is the sender's id, and every other field is unchanged |
| `Routing.ReplyWhenNotOnline` | app/main.py:65-70 | a truthy, hashable target that is not a registered id gets exactly the not-online error, sent back on the sender's own connection |
| `Routing.NotOnline` | app/main.py:67-70 | the reply has exactly the keys `type` and `message`, with `type` = `"error"`. The text is `"User "`, then `str()` of the target, then `" is not online."` |
| `Routing.NonStringTargetIsNeverForwarded` | app/main.py:22-22 | the registry is keyed by strings, so a number or `true` as target always gets the error reply, even when a client id spells the same digits |
| `Routing.SuppliedSenderIgnored` | app/main.py:62-62 | a `sender_id` supplied by the client has no effect: the decision is the same as for the message without that key |
| `Json.PyStr` | app/main.py:69-69 | `str()` of a string target is the string itself. `str()` of an integer target is canonical decimal text (no leading zeros, no `-0`) that reads back to the same integer. `true` prints as `True`, `false` as `False`, null as `None` |
| `Json.DecimalRoundTrip` | app/main.py:69-69 | the decimal text of any integer parses back to that integer, so error texts for different numeric targets differ |
| `Page.WsUrl` | app/main.py:28-32 | a secure request gives an address starting `wss://`, an insecure one `ws://`. Every address ends with `/ws` |
| `Page.WsUrlRoundTrip` | app/main.py:28-32 | parsing the address gives back the secure flag and the host text (`None` when the header is missing) |
| `Page.WsUrlInjective` | app/main.py:28-32 | two requests get the same address only if they agree on the secure flag and the host text |
| `Relay.Handle` | app/main.py:47-81 | one received frame writes at most one message, and a frame that ends the loop writes nothing. Only `WebSocketDisconnect` takes the disconnect path |
| `Relay.Run` | app/main.py:44-71 | over any run of frames, at most one message per frame, each written to the sender or to a registered connection |
| `Relay.RunAppend` | app/main.py:45-47 | frames are handled one after another, and none is read after the one that ends the loop |
| `Relay.RunSnoc` | app/main.py:45-47 | while the loop is listening, receiving one more frame extends the run by exactly that frame's writes and outcome |
| `Relay.RunSilentWithoutTarget` | app/main.py:53-56 | objects without a truthy `target_id` produce no message and keep the loop running |
| `Relay.RunStampsSender` | app/main.py:59-70 | every message written carries `sender_id` = the sender's id, or is the error reply on the sender's own connection |
| `Relay.Relay.constructor` | app/main.py:22-22 | the registry starts empty and nothing has been sent |
| `Relay.Relay.Connect` | app/main.py:37-41 | the id maps to the new connection, replacing any earlier one. All other entries and the outbox are unchanged. The registry invariant is kept |
| `Relay.Relay.Disconnect` | app/main.py:73-76 | the client's id is removed and every other entry is kept. `KeyError` is raised iff the id was already gone, and then the registry is unchanged |
| `Relay.Relay.Crash` | app/main.py:77-81 | the client's id is removed if present, without failing, and every other entry is kept |
| `Relay.Relay.Receive` | app/main.py:47-71 | one frame: the outbox grows by the routed message. While the loop continues the registry is unchanged. Any failure (bad JSON, raise, failed send) takes the error path. Whatever is written goes to a connection whose handler is running |
| `Relay.Relay.Step` | app/main.py:45-81 | one loop iteration for any receive outcome, matching `Relay.Handle` in outbox, registry and running handlers. It reports the `KeyError` of the disconnect path iff the id was already gone. Writes go only to running handlers |
| `Relay.Relay.Serve` | app/main.py:44-81 | the receive loop over a run of frames matches `Relay.Run`. The registry changes only when the loop ends, and then only by losing the client's id. The loop ends in `KeyError` iff it is closed after its id was taken away. Writes go only to running handlers |
| `Relay.ReusedIdScenario` | app/main.py:38-81 | when a replaced connection closes, it removes the id of the connection that replaced it. That connection stays running but unreachable, and its own later close raises `KeyError` |

## Left out

- JSON decoding and encoding: a message is an already decoded value, and a frame that does not decode is an input that takes the error path. The key order of the forwarded object is not modelled, because a map has none.
- Floating-point numbers: JSON numbers are integers here, so a fractional `target_id` and how Python prints it are not modelled.
- WebSocket I/O (`accept`, `receive_text`, `send_text`): connections are opaque handles and sends are appends to an outbox. A failing `accept` is not modelled.
- A failed `send_text` always takes the generic error path. If the library raised `WebSocketDisconnect` there, the handler would take the disconnect path instead. The registry ends the same way in both cases, and only the `KeyError` report differs.
- `if target_websocket:` is taken as always true. A Starlette WebSocket is a non-empty mapping, so a registered connection is never falsy.
- Concurrency between the per-client coroutines: events are applied one at a time. The class methods can be called in any interleaving. `Relay.Relay.Serve` covers frames of one client arriving with no other client's events in between.
- FastAPI plumbing: app construction, static files and template rendering. Also the `print` logging.
- The call state machine, session negotiator and roster of the browser client: none of the browser code is part of this model.
