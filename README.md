# Text channel wrapper: collaboration handshake and delivery pipeline

A model of `textchannelwrapper.py` from the bibliography activity. The file has two classes.

- `CollabWrapper` reacts to the activity being shared (this participant becomes the leader) or
  joined. On join it opens the shared activity's text channel, waits for init and posts an
  `INIT_REQUEST`. Each incoming envelope is then handled in one of three ways:
  - a leader answers a request with the activity's data;
  - a participant waiting for init imports the first response;
  - everything else goes to the activity as a `message`.
- `TextChannelWrapper` owns one Telepathy text channel. It subscribes to the channel's `Closed`
  and `Received` signals and sends JSON envelopes as Base64 text. For each normal-type
  delivery it decodes the message, resolves the sender to a buddy, calls the received callback
  and only then acknowledges the message. It replays the messages the channel buffered. On close
  it removes its subscriptions and forgets the channel.

The foreign calls are modelled like this:
- Queries to Telepathy, the presence service and the activity (`GetSelfHandle`,
  `GetGroupFlags`, `GetHandleOwners`, `RequestAliases`, `get_buddy_by_telepathy_handle`,
  `get_data`, `ListPendingMessages`) become parameters. Most of them are gathered in the
  `World` datatype.
- Calls that act on the outside (`connect_to_signal`, `remove`, `Send`, `Close`,
  `AcknowledgePendingMessages`, `read_data`, the close callback, the `message` and `joined`
  emissions) are appended, in order, to one effect log (`Telepathy.Trace`). Both wrappers
  share this log.
- An exception that escapes a callback is an `Outcome.Raised` carrying the cause.

Modules:
- `Outcomes`: Option, Result, and the exceptions the wrappers can raise.
- `Wire`: JSON values, the opaque JSON+Base64 codec, and the two control envelopes.
- `Telepathy`: handles, constants, foreign answers, effects, and the trace.
- `Sender`: the handle choice and buddy construction of `_get_buddy` and `_received_cb`.
- `Handshake`: the pure decision of `__received_cb`, and what a series of envelopes does.
- `Delivery`: the effects of `_received_cb`, `handle_pending_messages`, `post` and
  `_closed_cb`, as functions, with lemmas about them.
- `Collab`: the classes `CollabWrapper` and `TextChannelWrapper`. Each method's `ensures` ties
  its new fields and the log to the functions above.

Constants: `CHANNEL_TEXT_MESSAGE_TYPE_NORMAL` is 0, as the code compares it at line 256.
`CHANNEL_GROUP_FLAG_CHANNEL_SPECIFIC_HANDLES` is 256. That value is Channel_Group_Flags bit
`Channel_Specific_Handles` of the Telepathy D-Bus interface specification.

## Behaviour of note

- A request that reaches a participant who is not the leader is emitted as a `message`. So is a
  response that arrives when init is not awaited (`Handshake.Step`).
- `set_received_callback` appends a new `Received` subscription on every call and keeps the
  earlier ones (`TextChannelWrapper.SetReceivedCallback`).
- A payload that does not decode raises out of `_received_cb`. The message is neither delivered
  nor acknowledged (`Delivery.DeliverFilters`).
- The non-zero check applies only when the raw channel handle is used. A zero owner returned by
  the handle-owner translation is passed on unchecked (`Sender.SelectHandle`).
- An unresolved buddy reaches the `message` signal as None. The `'???'` nick is used only in a
  log line.
- An exception in one pending message ends `handle_pending_messages`. The rest of the list is
  not replayed (`Delivery.Replay`).
- Python's `None` is the JSON value `JNull` in the model. `post(None)` sends nothing.
- A delivery on a wrapper whose channel is already gone does not raise at the Group-interface lookup. Indexing `None` raises inside the `try` of lines 264-266, and the message is taken as coming from a one-to-one chat. It is resolved through `RequestAliases` (`Delivery.GroupOf`). It is the acknowledgement at line 280 that then raises.

## Model

| member | source | states |
|---|---|---|
| `Wire.Encode` | textchannelwrapper.py:200-210 | The payload `post` sends decodes back (line 260-261) to exactly the message posted. |
| `Wire.RequestEnvelope` | textchannelwrapper.py:121 | The join request carries the request action and not the response action. |
| `Wire.ResponseEnvelope` | textchannelwrapper.py:146 | The leader's answer carries the response action and the given data under `data`. |
| `Sender.SelectHandle` | textchannelwrapper.py:307-318 | The three-way choice, in order. The sender that is our own group handle maps to the connection's self handle, whatever the flags. Other senders on a channel with channel-specific handles map to their owner, and a zero owner is not rejected. The lookup fails exactly when neither rule applies and the handle is 0. |
| `Sender.ResolveSender` | textchannelwrapper.py:263-277 | Without a Group interface the buddy is `{nick: alias(sender), color: '#000000,#808080'}`. Otherwise the lookup fails exactly when the handle choice fails. When it succeeds, the buddy is the presence service's buddy for the chosen handle, or None. |
| `Sender.OneToOneIgnoresGroupLookups` | textchannelwrapper.py:264-270 | On a one-to-one channel the buddy depends only on the sender's alias, and resolution cannot fail. |
| `Handshake.Step` | textchannelwrapper.py:141-162 | A request is answered, with `get_data()`, iff this participant leads. A well-formed response is imported iff init is awaited, and that clears the flag. Every other object, including a request at a non-leader and a response when not waiting, is passed on unchanged with the buddy as supplied. Only a non-object, or an awaited response without `data`, raises. Nothing else changes the flags. |
| `Handshake.LeaderAnswersEveryRequest` | textchannelwrapper.py:144-147 | A leader given n requests posts n identical responses carrying its data. Nothing is passed on and its flags stay as they were. |
| `Handshake.OnlyFirstResponseImported` | textchannelwrapper.py:148-152 | Over any series of envelopes, a waiting participant imports the data of the first well-formed response and nothing else. A participant that is not waiting imports nothing. The wait ends exactly when a response was imported. |
| `Handshake.ResponseImportedAtMostOnce` | textchannelwrapper.py:148-152 | `read_data` runs at most once, and never unless init was awaited. |
| `Handshake.HandshakeTransfersLeaderData` | textchannelwrapper.py:119-152 | The request a joiner posts reaches the leader, which answers with its data. The answer, delivered back, is imported and ends the wait. A later application message reaches the leader as a `message` from the joiner. |
| `Delivery.PostEffects` | textchannelwrapper.py:197-210 | Posting sends iff the message is not None and the channel is open. It sends once, a normal-type text that decodes to the message. |
| `Delivery.DeliverFilters` | textchannelwrapper.py:256-262 | A delivery of a non-normal type causes no decode, no callback and no acknowledgement. An undecodable normal one raises before anything happens. Without a callback nothing happens. |
| `Delivery.CallbackBeforeAcknowledge` | textchannelwrapper.py:263-281 | When the callback is reached, it runs once with the resolved buddy and the decoded message. Its effects come first. `AcknowledgePendingMessages([identity])` follows only if it returned and the channel is still open. |
| `Delivery.AcknowledgedIffCallbackReturned` | textchannelwrapper.py:279-285 | A delivery acknowledges exactly its own id when the callback ran and returned, and acknowledges nothing otherwise. |
| `Delivery.DeliverKeepsReceiver` | textchannelwrapper.py:249-285 | A delivery keeps the callback set or unset, and does not change the callback wrapper's role or channel. |
| `Delivery.Deliver` | textchannelwrapper.py:249-285 | `_received_cb` for one message, with its effects, the callback state afterwards and the outcome. Its properties are stated by `DeliverFilters`, `CallbackBeforeAcknowledge`, `AcknowledgedIffCallbackReturned` and `DeliverKeepsReceiver`. |
| `Delivery.Replay` | textchannelwrapper.py:242-247 | `handle_pending_messages`: the listed messages go through `Deliver` in order, and the first exception ends the replay. Its properties are stated by `ReplayInListOrder`, `ReplayAcknowledgesInOrder` and `ReplayWithoutCallbackIsSilent`. |
| `Delivery.ReplayAcknowledgesInOrder` | textchannelwrapper.py:242-247 | The ids a replay acknowledges are a subsequence of the normal messages' ids, in the order the channel listed them. |
| `Delivery.ReplayInListOrder` | textchannelwrapper.py:242-247 | Replaying `ms1 + ms2` is replaying `ms1` and then, unless that raised, `ms2`. So the effects of earlier messages precede those of later ones. |
| `Delivery.ReplayWithoutCallbackIsSilent` | textchannelwrapper.py:242-247 | With no received callback, replaying pending messages has no effect at all. |
| `Delivery.Disconnects` | textchannelwrapper.py:223-224 | One `remove()` per subscription, in list order. |
| `Delivery.ClosingEffects` | textchannelwrapper.py:221-228 | Closing removes every subscription in order. It then runs the close callback iff one is set. |
| `Collab.CollabWrapper.constructor` | textchannelwrapper.py:56-62 | Starts as no leader, not waiting, and no text channel. |
| `Collab.CollabWrapper.SharedCb` | textchannelwrapper.py:99-106 | Records the shared activity, sets up its channel and becomes leader, leaving `init_waiting` alone. The new channel wrapper holds the activity's channel and connection, the Closed and Received subscriptions, this wrapper as its callback, and no close callback. With no shared activity it raises and changes nothing else. |
| `Collab.CollabWrapper.JoinedCb` | textchannelwrapper.py:108-124 | With no shared activity only the field is updated. Otherwise it sets up the channel, sets `init_waiting` and sends exactly one `INIT_REQUEST`, then emits `joined`. The new channel wrapper holds the activity's channel and connection, the Closed and Received subscriptions, this wrapper as its callback, and no close callback. The role is left alone. |
| `Collab.CollabWrapper.SetupTextChannel` | textchannelwrapper.py:126-139 | A fresh channel wrapper with the Closed and Received subscriptions, this wrapper as its callback, and the buddy-joined and buddy-left subscriptions. |
| `Collab.CollabWrapper.ReceivedCb` | textchannelwrapper.py:141-162 | The new init flag, the effects and the outcome are those of `Handshake.Step`. The leader's answer is posted through this wrapper's channel. |
| `Collab.CollabWrapper.Post` | textchannelwrapper.py:164-168 | Without a text channel nothing happens. Otherwise the effects are those of the channel's `post`. |
| `Collab.TextChannelWrapper.constructor` | textchannelwrapper.py:186-195 | Exactly one subscription (Closed), no callbacks, and the channel open. |
| `Collab.TextChannelWrapper.Post` | textchannelwrapper.py:197-200 | The effects are `Delivery.PostEffects` of the current channel. So None (`JNull`), or a closed channel, sends nothing. |
| `Collab.TextChannelWrapper.Send` | textchannelwrapper.py:202-210 | One normal-type `Send` of the text while the channel is open, and nothing once it is gone. |
| `Collab.TextChannelWrapper.Close` | textchannelwrapper.py:212-219 | A `Close` call that returns changes no field. A failing one, or a channel already gone, runs the closing clean-up. |
| `Collab.TextChannelWrapper.ClosedCb` | textchannelwrapper.py:221-228 | Leaves no subscriptions and no channel. The log grows by `Delivery.ClosingEffects` of the old subscriptions. |
| `Collab.TextChannelWrapper.SetReceivedCallback` | textchannelwrapper.py:230-240 | On a closed channel nothing changes. On an open one it stores the callback and appends exactly one Received subscription, so repeated calls accumulate. |
| `Collab.TextChannelWrapper.SetClosedCallback` | textchannelwrapper.py:287-294 | Stores the close callback. |
| `Collab.TextChannelWrapper.ReceivedCb` | textchannelwrapper.py:249-285 | The effects, outcome and callback state are those of `Delivery.Deliver`. The callback's wrapper keeps its role and channel. |
| `Collab.TextChannelWrapper.HandlePendingMessages` | textchannelwrapper.py:242-247 | On a closed channel it raises and does nothing. Otherwise the effects, outcome and callback state are those of `Delivery.Replay` over the listed messages. |

## Left out

- Telepathy D-Bus calls and presence-service lookups are not executed. Their answers are parameters (`World`, the pending list, whether `Close` fails). Their actions are entries in the effect log. Errors of every D-Bus and presence-service call except `Close` are not modelled. That covers `connect_to_signal`, `match.remove()`, `Send`, `AcknowledgePendingMessages`, `ListPendingMessages`, `RequestAliases`, `GetSelfHandle`, `GetGroupFlags`, `GetHandleOwners` and the presence-service lookups. For example, an error from `RequestAliases` or `GetGroupFlags` would leave `_received_cb` before the callback runs, so the message would not be acknowledged.
- JSON serialisation and Base64 are an opaque codec (`Wire.Encode`/`Wire.Decode`), because they are library code. JSON floats are not represented.
- GObject signal machinery and callback dispatch are not modelled. Emissions are log entries and callbacks are method calls.
- `_alert`, `NotifyAlert` and all logging are cosmetic and left out. That includes the nick computed only for a log line in `__received_cb`.
- The constructor glue of `CollabWrapper.__init__` (lines 66-89) is left out. It chooses the alert and the lifecycle event to wait for. When the activity is already shared (line 72), it also calls `__joined_cb` at once (line 74). The model gives that case as the constructor followed by `JoinedCb`. Because line 70 has already connected `joined`, a later `joined` signal runs the join a second time. That is another `JoinedCb` call.
- `__buddy_joined_cb` and `__buddy_left_cb` return at once. The code after the `return` is unreachable, so there is nothing to model.
- `Collab.TextChannelWrapper.ReceivedCb`: the received callback is modelled as a `CollabWrapper`'s `__received_cb`, the only callback this file registers. Arbitrary callables, and callbacks that re-enter the channel wrapper, are not modelled.
- The close callback is an opaque token. Its invocation is logged and its own behaviour is not modelled.
- `Collab.TextChannelWrapper.HandlePendingMessages`: the foreign answers (`World`) are fixed for one replay. They cannot change between two pending messages.
- `activity.read_data` and `activity.get_data` are assumed to return normally. The case where `read_data` raises, which would leave `init_waiting` set, is not modelled.
- A `TextChannelWrapper` left behind when `_setup_text_channel` runs a second time keeps its subscriptions. The model does not follow what such a stale wrapper later delivers.
