/**
 * The two wrapper classes: CollabWrapper, which reacts to the activity being shared or joined and
 * runs the init handshake, and TextChannelWrapper, which owns one Telepathy text channel.
 * Every call into Telepathy, the presence service or the activity, and every signal emission,
 * is appended to the Trace both wrappers share.
 */
module Collab {
  import opened Outcomes
  import opened Wire
  import opened Telepathy
  import opened Sender
  import opened Handshake
  import opened Delivery

  /** The channel a collaboration wrapper's posts go to: that of its text channel, while open. */
  function PostChannel(cw: CollabWrapper): (r: Option<ChanId>)
    reads cw, cw.textChannel
  {
    if cw.textChannel == null then None else cw.textChannel.textChan
  }

  /** A text channel's received callback as a Receiver, or None when none is set. */
  function ReceiverOf(cw: CollabWrapper?): (r: Option<Receiver>)
    reads cw, if cw == null then {} else {cw.textChannel}
  {
    if cw == null then None else Some(Receiver(Peer(cw.leader, cw.initWaiting), PostChannel(cw)))
  }

  /** Subscriptions and effects of `_setup_text_channel` for shared activity `sa`. */
  function SetupEffects(sa: SharedActivity): (r: seq<Effect>)
  {
    [Connect(SignalMatch(sa.textChan, Closed)), Connect(SignalMatch(sa.textChan, Received)),
     ConnectActivity(BuddyJoined), ConnectActivity(BuddyLeft)]
  }

  class CollabWrapper {
    const trace: Trace
    var sharedActivity: Option<SharedActivity>
    var leader: bool
    var initWaiting: bool
    var textChannel: TextChannelWrapper?

    /** The text channel records its effects in the same trace. */
    ghost predicate Valid()
      reads this
    {
      textChannel != null ==> textChannel.trace == trace
    }

    /** `__init__` up to the glue that decides which lifecycle event to wait for. */
    constructor (trace: Trace, sharedActivity: Option<SharedActivity>)
      ensures Valid() && this.trace == trace && this.sharedActivity == sharedActivity
      ensures !leader && !initWaiting && textChannel == null
    {
      this.trace := trace;
      this.sharedActivity := sharedActivity;
      leader := false;
      initWaiting := false;
      textChannel := null;
    }

    /** `__shared_cb`: this participant shares the activity and becomes its leader. */
    method SharedCb(current: Option<SharedActivity>) returns (outcome: Outcome)
      requires Valid()
      modifies this, trace
      ensures Valid() && sharedActivity == current && initWaiting == old(initWaiting)
      ensures current.None? ==>
        outcome == Raised(NoSharedActivity) && leader == old(leader) && textChannel == old(textChannel)
        && trace.events == old(trace.events)
      ensures current.Some? ==>
        outcome == Returned && leader && textChannel != null && fresh(textChannel)
        && textChannel.textChan == Some(current.value.textChan) && textChannel.conn == current.value.conn
        && textChannel.signalMatches == [SignalMatch(current.value.textChan, Closed), SignalMatch(current.value.textChan, Received)]
        && textChannel.activityCb == this && textChannel.activityCloseCb.None?
        && trace.events == old(trace.events) + SetupEffects(current.value)
    {
      sharedActivity := current;
      if sharedActivity.None? {
        return Raised(NoSharedActivity);
      }
      SetupTextChannel();
      leader := true;
      outcome := Returned;
    }

    /** `__joined_cb`: with a shared activity, open its channel, await init and request it. */
    method JoinedCb(current: Option<SharedActivity>)
      requires Valid()
      modifies this, trace
      ensures Valid() && sharedActivity == current && leader == old(leader)
      ensures current.None? ==>
        initWaiting == old(initWaiting) && textChannel == old(textChannel) && trace.events == old(trace.events)
      ensures current.Some? ==>
        initWaiting && textChannel != null && fresh(textChannel)
        && textChannel.textChan == Some(current.value.textChan) && textChannel.conn == current.value.conn
        && textChannel.signalMatches == [SignalMatch(current.value.textChan, Closed), SignalMatch(current.value.textChan, Received)]
        && textChannel.activityCb == this && textChannel.activityCloseCb.None?
        && trace.events == old(trace.events) + SetupEffects(current.value)
           + [Send(current.value.textChan, CHANNEL_TEXT_MESSAGE_TYPE_NORMAL, Encode(RequestEnvelope())), EmitJoined]
    {
      sharedActivity := current;
      if sharedActivity.None? {
        return;
      }
      SetupTextChannel();
      initWaiting := true;
      Post(RequestEnvelope());
      trace.events := trace.events + [EmitJoined];
    }

    /** `_setup_text_channel`: wrap the activity's channel, take its deliveries, watch buddies. */
    method SetupTextChannel()
      requires sharedActivity.Some?
      modifies this`textChannel, trace
      ensures Valid() && textChannel != null && fresh(textChannel)
      ensures textChannel.textChan == Some(sharedActivity.value.textChan) && textChannel.conn == sharedActivity.value.conn
      ensures textChannel.signalMatches == [SignalMatch(sharedActivity.value.textChan, Closed),
                                            SignalMatch(sharedActivity.value.textChan, Received)]
      ensures textChannel.activityCb == this && textChannel.activityCloseCb.None?
      ensures trace.events == old(trace.events) + SetupEffects(sharedActivity.value)
    {
      var sa := sharedActivity.value;
      textChannel := new TextChannelWrapper(sa.textChan, sa.conn, trace);
      textChannel.SetReceivedCallback(this);
      trace.events := trace.events + [ConnectActivity(BuddyJoined), ConnectActivity(BuddyLeft)];
    }

    /** `__received_cb(buddy, msg)`; `appData` is what the activity's `get_data()` returns. */
    method ReceivedCb(buddy: Option<Buddy>, msg: Json, appData: Json) returns (outcome: Outcome)
      requires Valid()
      modifies this`initWaiting, trace
      ensures Valid()
      ensures var s := Step(Peer(leader, old(initWaiting)), buddy, msg, appData);
        initWaiting == s.peer.initWaiting
        && trace.events == old(trace.events) + ReactionEffects(s.reaction, PostChannel(this))
        && outcome == (if s.reaction.Fail? then Raised(s.reaction.error) else Returned)
    {
      if !msg.JObject? {
        return Raised(NotAnEnvelope);
      }
      if leader && HasAction(msg, ACTION_INIT_REQUEST) {
        var data := appData;
        Post(ResponseEnvelope(data));
        return Returned;
      } else if initWaiting && HasAction(msg, ACTION_INIT_RESPONSE) {
        if "data" !in msg.fields {
          return Raised(MissingData);
        }
        var data := msg.fields["data"];
        trace.events := trace.events + [ReadData(data)];
        initWaiting := false;
        return Returned;
      }
      trace.events := trace.events + [EmitMessage(buddy, msg)];
      outcome := Returned;
    }

    /** `post(msg)`: forwarded to the text channel when there is one. */
    method Post(msg: Json)
      requires Valid()
      modifies trace
      ensures trace.events == old(trace.events) + PostEffects(PostChannel(this), msg)
    {
      if textChannel != null {
        textChannel.Post(msg);
      }
    }
  }

  class TextChannelWrapper {
    const trace: Trace
    const conn: ConnId
    var textChan: Option<ChanId>
    var signalMatches: seq<SignalMatch>
    var activityCb: CollabWrapper?
    var activityCloseCb: Option<CloseCallback>

    /** The received callback's wrapper records its effects in the same trace. */
    ghost predicate Valid()
      reads this
    {
      activityCb != null ==> activityCb.trace == trace
    }

    /** `__init__`: keep the channel and subscribe to its Closed signal. */
    constructor (textChan: ChanId, conn: ConnId, trace: Trace)
      modifies trace
      ensures Valid() && this.trace == trace && this.conn == conn && this.textChan == Some(textChan)
      ensures signalMatches == [SignalMatch(textChan, Closed)]
      ensures activityCb == null && activityCloseCb.None?
      ensures trace.events == old(trace.events) + [Connect(SignalMatch(textChan, Closed))]
    {
      activityCb := null;
      activityCloseCb := None;
      this.textChan := Some(textChan);
      this.conn := conn;
      this.trace := trace;
      signalMatches := [];
      new;
      var m := SignalMatch(textChan, Closed);
      trace.events := trace.events + [Connect(m)];
      signalMatches := signalMatches + [m];
    }

    /** `post(msg)`: send the encoded message unless it is None (`JNull`). */
    method Post(msg: Json)
      modifies trace
      ensures trace.events == old(trace.events) + PostEffects(textChan, msg)
    {
      if msg != JNull {
        Send(Encode(msg));
      }
    }

    /** `_send(text)`: a normal-type Send, unless the channel is gone. */
    method Send(text: Payload)
      modifies trace
      ensures trace.events == old(trace.events) +
        if textChan.Some? then [Effect.Send(textChan.value, CHANNEL_TEXT_MESSAGE_TYPE_NORMAL, text)] else []
    {
      if textChan.Some? {
        trace.events := trace.events + [Effect.Send(textChan.value, CHANNEL_TEXT_MESSAGE_TYPE_NORMAL, text)];
      }
    }

    /** `close()`: ask the channel to close; if that call fails, clean up at once. */
    method Close(closeFails: bool)
      modifies this, trace
      ensures activityCb == old(activityCb) && activityCloseCb == old(activityCloseCb)
      ensures old(textChan).Some? && !closeFails ==>
        textChan == old(textChan) && signalMatches == old(signalMatches)
        && trace.events == old(trace.events) + [CloseChannel(old(textChan).value)]
      ensures old(textChan).None? || closeFails ==>
        textChan.None? && signalMatches == []
        && trace.events == old(trace.events) + ClosingEffects(old(signalMatches), activityCloseCb)
    {
      if textChan.None? || closeFails {
        ClosedCb();
      } else {
        trace.events := trace.events + [CloseChannel(textChan.value)];
      }
    }

    /** `_closed_cb`: remove every subscription, forget the channel, run the close callback. */
    method ClosedCb()
      modifies this`signalMatches, this`textChan, trace
      ensures textChan.None? && signalMatches == []
      ensures trace.events == old(trace.events) + ClosingEffects(old(signalMatches), activityCloseCb)
    {
      var i := 0;
      while i < |signalMatches|
        invariant 0 <= i <= |signalMatches| && signalMatches == old(signalMatches)
        invariant trace.events == old(trace.events) + Disconnects(signalMatches[..i])
      {
        assert signalMatches[..i + 1][..i] == signalMatches[..i];
        trace.events := trace.events + [Disconnect(signalMatches[i])];
        i := i + 1;
      }
      assert signalMatches[..i] == signalMatches;
      signalMatches := [];
      textChan := None;
      if activityCloseCb.Some? {
        trace.events := trace.events + [RunCloseCallback(activityCloseCb.value)];
      }
    }

    /** `set_received_callback(cb.__received_cb)`: on an open channel, store it and subscribe to Received. */
    method SetReceivedCallback(cb: CollabWrapper)
      requires Valid() && cb.trace == trace
      modifies this`activityCb, this`signalMatches, trace
      ensures Valid()
      ensures textChan.None? ==>
        activityCb == old(activityCb) && signalMatches == old(signalMatches) && trace.events == old(trace.events)
      ensures textChan.Some? ==>
        activityCb == cb && signalMatches == old(signalMatches) + [SignalMatch(textChan.value, Received)]
        && trace.events == old(trace.events) + [Connect(SignalMatch(textChan.value, Received))]
    {
      if textChan.None? {
        return;
      }
      activityCb := cb;
      var m := SignalMatch(textChan.value, Received);
      trace.events := trace.events + [Connect(m)];
      signalMatches := signalMatches + [m];
    }

    /** `set_closed_callback(cb)`. */
    method SetClosedCallback(cb: CloseCallback)
      modifies this`activityCloseCb
      ensures activityCloseCb == Some(cb)
    {
      activityCloseCb := Some(cb);
    }

    /** Only the init flag of the received callback's wrapper is ever changed by a delivery. */
    twostate predicate Unmoved(cw: CollabWrapper)
      reads cw
    {
      cw.leader == old(cw.leader) && cw.textChannel == old(cw.textChannel)
      && cw.sharedActivity == old(cw.sharedActivity)
    }

    /** `_received_cb` for one delivered message; `w` answers the foreign queries it makes. */
    method ReceivedCb(m: PendingMessage, w: World) returns (outcome: Outcome)
      requires Valid() && (activityCb != null ==> activityCb.Valid())
      modifies trace, activityCb
      ensures activityCb != null ==> activityCb.Valid() && Unmoved(activityCb)
      ensures var d := Deliver(textChan, old(ReceiverOf(activityCb)), m, w);
        trace.events == old(trace.events) + d.effects && outcome == d.outcome && ReceiverOf(activityCb) == d.receiver
    {
      if m.messageType != CHANNEL_TEXT_MESSAGE_TYPE_NORMAL {
        return Returned;
      }
      var decoded := Decode(m.text);
      if decoded.None? {
        return Raised(MalformedPayload);
      }
      var msg := decoded.value;
      if activityCb != null {
        var buddy := ResolveSender(GroupOf(textChan, w), w, m.sender);
        if buddy.Err? {
          return Raised(buddy.error);
        }
        outcome := activityCb.ReceivedCb(buddy.value, msg, w.activityData);
        if outcome.Raised? {
          return;
        }
        if textChan.None? {
          return Raised(ChannelGone);
        }
        trace.events := trace.events + [Acknowledge(textChan.value, [m.identity])];
      } else {
        outcome := Returned;
      }
    }

    /** `handle_pending_messages`: replay what `ListPendingMessages` returned (`pending`), in order. */
    method HandlePendingMessages(pending: seq<PendingMessage>, w: World) returns (outcome: Outcome)
      requires Valid() && (activityCb != null ==> activityCb.Valid())
      modifies trace, activityCb
      ensures activityCb != null ==> activityCb.Valid() && Unmoved(activityCb)
      ensures textChan.None? ==>
        outcome == Raised(ChannelGone) && trace.events == old(trace.events) && ReceiverOf(activityCb) == old(ReceiverOf(activityCb))
      ensures textChan.Some? ==>
        var d := Replay(textChan, old(ReceiverOf(activityCb)), pending, w);
        trace.events == old(trace.events) + d.effects && outcome == d.outcome && ReceiverOf(activityCb) == d.receiver
    {
      if textChan.None? {
        return Raised(ChannelGone);
      }
      ghost var start := ReceiverOf(activityCb);
      ghost var done: seq<Effect> := [];
      var i := 0;
      while i < |pending|
        invariant 0 <= i <= |pending|
        invariant activityCb != null ==> activityCb.Valid() && Unmoved(activityCb)
        invariant trace.events == old(trace.events) + done
        invariant Replay(textChan, start, pending, w) == Then(done, Replay(textChan, ReceiverOf(activityCb), pending[i..], w))
      {
        ghost var before := ReceiverOf(activityCb);
        ghost var d := Deliver(textChan, before, pending[i], w);
        ghost var logged := trace.events;
        ReplayAdvance(textChan, start, pending, i, done, before, w);
        outcome := ReceivedCb(pending[i], w);
        assert trace.events == logged + d.effects;
        assert old(trace.events) + done + d.effects == old(trace.events) + (done + d.effects);
        done := done + d.effects;
        if outcome.Raised? {
          return;
        }
        i := i + 1;
      }
      assert pending[i..] == [];
      outcome := Returned;
    }
  }
}
