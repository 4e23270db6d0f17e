/**
 * What the text channel wrapper does with one delivered message, with the buffered messages it
 * replays, with an outgoing message and when the channel closes, stated as the effects it causes.
 */
module Delivery {
  import opened Outcomes
  import opened Wire
  import opened Telepathy
  import opened Sender
  import opened Handshake

  /** One entry of `ListPendingMessages`, or the arguments of one `Received` signal. */
  datatype PendingMessage = PendingMessage(
    identity: nat, timestamp: int, sender: Handle, messageType: nat, flags: nat, text: Payload)

  /** The received callback's wrapper as the channel sees it: its flags and the channel it posts to. */
  datatype Receiver = Receiver(peer: Peer, postChan: Option<ChanId>)

  /** The effects of handling messages, the receiver afterwards, and whether an exception escaped. */
  datatype Delivered = Delivered(effects: seq<Effect>, receiver: Option<Receiver>, outcome: Outcome)

  /** `TextChannelWrapper.post(msg)` on a wrapper whose channel is `chan`; Python's `None` is `JNull`. */
  function PostEffects(chan: Option<ChanId>, msg: Json): (r: seq<Effect>)
    // a send happens exactly when the message is not None and the channel is open, and it is one send
    ensures r != [] <==> chan.Some? && msg != JNull
    ensures |r| <= 1
    // of a normal-type text that reads back as the message
    ensures forall e <- r :: e.Send? && e.chan == chan.value && e.messageType == CHANNEL_TEXT_MESSAGE_TYPE_NORMAL
                             && Decode(e.text) == Some(msg)
  {
    if msg != JNull && chan.Some? then [Send(chan.value, CHANNEL_TEXT_MESSAGE_TYPE_NORMAL, Encode(msg))]
    else []
  }

  /** The effects of one reaction of the collaboration wrapper, which posts to `postChan`. */
  function ReactionEffects(reaction: Reaction, postChan: Option<ChanId>): (r: seq<Effect>)
  {
    match reaction
    case Answer(response) => PostEffects(postChan, response)
    case Import(data) => [ReadData(data)]
    case PassOn(buddy, msg) => [EmitMessage(buddy, msg)]
    case Fail(_) => []
  }

  /** The ids acknowledged by a series of effects, in order. */
  function AckedIds(effects: seq<Effect>): (r: seq<nat>)
  {
    if effects == [] then []
    else (if effects[0].Acknowledge? then effects[0].ids else []) + AckedIds(effects[1..])
  }

  /** What the Group interface lookup gives: a closed channel (None) raises and is taken as one-to-one. */
  function GroupOf(chan: Option<ChanId>, w: World): (r: Option<GroupView>)
  {
    if chan.None? then None else w.group
  }

  /** The callback is reached: the message is normal, decodes, and its sender resolves. */
  predicate CallbackRuns(chan: Option<ChanId>, cb: Option<Receiver>, m: PendingMessage, w: World)
  {
    m.messageType == CHANNEL_TEXT_MESSAGE_TYPE_NORMAL && Decode(m.text).Some? && cb.Some?
    && ResolveSender(GroupOf(chan, w), w, m.sender).Ok?
  }

  /** `TextChannelWrapper._received_cb` on channel `chan` with received callback `cb`. */
  function Deliver(chan: Option<ChanId>, cb: Option<Receiver>, m: PendingMessage, w: World): (r: Delivered)
  {
    if m.messageType != CHANNEL_TEXT_MESSAGE_TYPE_NORMAL then Delivered([], cb, Returned)
    else
      match Decode(m.text)
      case None => Delivered([], cb, Raised(MalformedPayload))
      case Some(msg) =>
        match cb
        case None => Delivered([], None, Returned)
        case Some(rcv) =>
          match ResolveSender(GroupOf(chan, w), w, m.sender)
          case Err(e) => Delivered([], cb, Raised(e))
          case Ok(buddy) =>
            var s := Step(rcv.peer, buddy, msg, w.activityData);
            var effects := ReactionEffects(s.reaction, rcv.postChan);
            var after := Some(Receiver(s.peer, rcv.postChan));
            if s.reaction.Fail? then Delivered(effects, after, Raised(s.reaction.error))
            else if chan.None? then Delivered(effects, after, Raised(ChannelGone))
            else Delivered(effects + [Acknowledge(chan.value, [m.identity])], after, Returned)
  }

  /**
   * Filtering: a message of any type but normal is neither decoded, nor passed on, nor
   * acknowledged; a normal one that does not decode raises before anything happens; and without a
   * callback the message is dropped unacknowledged.
   */
  lemma DeliverFilters(chan: Option<ChanId>, cb: Option<Receiver>, m: PendingMessage, w: World)
    ensures m.messageType != CHANNEL_TEXT_MESSAGE_TYPE_NORMAL ==> Deliver(chan, cb, m, w) == Delivered([], cb, Returned)
    ensures m.messageType == CHANNEL_TEXT_MESSAGE_TYPE_NORMAL && Decode(m.text).None? ==>
      Deliver(chan, cb, m, w) == Delivered([], cb, Raised(MalformedPayload))
    ensures cb.None? ==> Deliver(chan, cb, m, w).effects == [] && Deliver(chan, cb, m, w).receiver.None?
  {
  }

  /**
   * The callback runs once, with the resolved buddy and the decoded message; everything it does
   * comes first, and the acknowledgement of this message follows only if it returned.
   */
  lemma CallbackBeforeAcknowledge(chan: Option<ChanId>, cb: Option<Receiver>, m: PendingMessage, w: World)
    requires CallbackRuns(chan, cb, m, w)
    ensures var s := Step(cb.value.peer, ResolveSender(GroupOf(chan, w), w, m.sender).value, Decode(m.text).value, w.activityData);
      var r := Deliver(chan, cb, m, w);
      r.receiver == Some(Receiver(s.peer, cb.value.postChan)) &&
      r.outcome == (if s.reaction.Fail? then Raised(s.reaction.error) else if chan.None? then Raised(ChannelGone) else Returned) &&
      r.effects == ReactionEffects(s.reaction, cb.value.postChan) +
                   (if r.outcome.Returned? then [Acknowledge(chan.value, [m.identity])] else [])
  {
  }

  /** Exactly a message whose callback ran and returned is acknowledged, and no other id is. */
  lemma {:induction false} AcknowledgedIffCallbackReturned(chan: Option<ChanId>, cb: Option<Receiver>, m: PendingMessage, w: World)
    ensures var r := Deliver(chan, cb, m, w);
      AckedIds(r.effects) == if CallbackRuns(chan, cb, m, w) && r.outcome.Returned? then [m.identity] else []
  {
    var r := Deliver(chan, cb, m, w);
    if CallbackRuns(chan, cb, m, w) {
      var s := Step(cb.value.peer, ResolveSender(GroupOf(chan, w), w, m.sender).value, Decode(m.text).value, w.activityData);
      var effects := ReactionEffects(s.reaction, cb.value.postChan);
      NoAcks(effects);
      if r.outcome.Returned? {
        AckedIdsAppend(effects, [Acknowledge(chan.value, [m.identity])]);
        assert AckedIds([Acknowledge(chan.value, [m.identity])]) == [m.identity] + AckedIds([]);
      }
    } else {
      assert r.effects == [];
    }
  }

  /** The wrapper stays the callback, keeps its channel and role; only the init flag can change. */
  lemma DeliverKeepsReceiver(chan: Option<ChanId>, cb: Option<Receiver>, m: PendingMessage, w: World)
    ensures var r := Deliver(chan, cb, m, w);
      (r.receiver.Some? <==> cb.Some?) &&
      (r.receiver.Some? ==> r.receiver.value.postChan == cb.value.postChan && r.receiver.value.peer.leader == cb.value.peer.leader)
  {
  }

  lemma NoAcks(effects: seq<Effect>)
    requires forall e <- effects :: !e.Acknowledge?
    ensures AckedIds(effects) == []
    decreases effects
  {
    if effects != [] {
      NoAcks(effects[1..]);
    }
  }

  lemma {:induction false} AckedIdsAppend(a: seq<Effect>, b: seq<Effect>)
    ensures AckedIds(a + b) == AckedIds(a) + AckedIds(b)
    decreases a
  {
    if a != [] {
      assert (a + b)[0] == a[0] && (a + b)[1..] == a[1..] + b;
      AckedIdsAppend(a[1..], b);
    } else {
      assert a + b == b;
    }
  }

  /** Effects `done` followed by delivery `d`. */
  function Then(done: seq<Effect>, d: Delivered): (r: Delivered)
  {
    Delivered(done + d.effects, d.receiver, d.outcome)
  }

  /**
   * `handle_pending_messages`: the pending messages pass through `_received_cb` in the order the
   * channel lists them; an exception out of one of them ends the replay.
   */
  function Replay(chan: Option<ChanId>, cb: Option<Receiver>, ms: seq<PendingMessage>, w: World): (r: Delivered)
    decreases ms
  {
    if ms == [] then Delivered([], cb, Returned)
    else
      var d := Deliver(chan, cb, ms[0], w);
      if d.outcome.Raised? then d else Then(d.effects, Replay(chan, d.receiver, ms[1..], w))
  }

  /** One step of a replay from position `i`. */
  lemma ReplayFrom(chan: Option<ChanId>, cb: Option<Receiver>, ms: seq<PendingMessage>, i: nat, w: World)
    requires i < |ms|
    ensures var d := Deliver(chan, cb, ms[i], w);
      Replay(chan, cb, ms[i..], w) == if d.outcome.Raised? then d else Then(d.effects, Replay(chan, d.receiver, ms[i + 1..], w))
  {
    assert ms[i..][0] == ms[i] && ms[i..][1..] == ms[i + 1..];
  }

  /** Replaying the message at `i` after the effects `done` of those before it. */
  lemma ReplayAdvance(chan: Option<ChanId>, start: Option<Receiver>, ms: seq<PendingMessage>, i: nat,
                      done: seq<Effect>, before: Option<Receiver>, w: World)
    requires i < |ms|
    requires Replay(chan, start, ms, w) == Then(done, Replay(chan, before, ms[i..], w))
    ensures var d := Deliver(chan, before, ms[i], w);
      if d.outcome.Raised? then Replay(chan, start, ms, w) == Then(done, d)
      else Replay(chan, start, ms, w) == Then(done + d.effects, Replay(chan, d.receiver, ms[i + 1..], w))
  {
    ReplayFrom(chan, before, ms, i, w);
    var d := Deliver(chan, before, ms[i], w);
    if !d.outcome.Raised? {
      var rest := Replay(chan, d.receiver, ms[i + 1..], w);
      assert done + (d.effects + rest.effects) == (done + d.effects) + rest.effects;
    }
  }

  /** The ids of the normal messages among `ms`, in order. */
  function NormalIds(ms: seq<PendingMessage>): (r: seq<nat>)
  {
    if ms == [] then []
    else (if ms[0].messageType == CHANNEL_TEXT_MESSAGE_TYPE_NORMAL then [ms[0].identity] else []) + NormalIds(ms[1..])
  }

  /** `a` is `b` with some elements left out. */
  predicate IsSubsequence(a: seq<nat>, b: seq<nat>)
    decreases |b|
  {
    a == [] || (b != [] && if a[0] == b[0] then IsSubsequence(a[1..], b[1..]) else IsSubsequence(a, b[1..]))
  }

  lemma {:induction false} SubsequenceSkip(x: nat, a: seq<nat>, b: seq<nat>)
    requires IsSubsequence(a, b)
    ensures IsSubsequence(a, [x] + b)
    decreases |b|, 1
  {
    if a != [] && a[0] == x {
      SubsequenceTail(a, b);
    }
    assert ([x] + b)[1..] == b;
  }

  lemma {:induction false} SubsequenceTail(a: seq<nat>, b: seq<nat>)
    requires a != [] && IsSubsequence(a, b)
    ensures IsSubsequence(a[1..], b)
    decreases |b|, 0
  {
    assert [b[0]] + b[1..] == b;
    if a[0] != b[0] {
      SubsequenceTail(a, b[1..]);
      SubsequenceSkip(b[0], a[1..], b[1..]);
    } else {
      SubsequenceSkip(b[0], a[1..], b[1..]);
    }
  }

  /**
   * Replaying acknowledges messages in the order the channel listed them, each at most once per
   * listing, and never a message of another type than normal.
   */
  lemma {:induction false} ReplayAcknowledgesInOrder(chan: Option<ChanId>, cb: Option<Receiver>, ms: seq<PendingMessage>, w: World)
    ensures IsSubsequence(AckedIds(Replay(chan, cb, ms, w).effects), NormalIds(ms))
    decreases ms
  {
    if ms != [] {
      var d := Deliver(chan, cb, ms[0], w);
      AcknowledgedIffCallbackReturned(chan, cb, ms[0], w);
      var tail := NormalIds(ms[1..]);
      if d.outcome.Raised? {
        assert AckedIds(d.effects) == [];
      } else {
        var rest := Replay(chan, d.receiver, ms[1..], w);
        ReplayAcknowledgesInOrder(chan, d.receiver, ms[1..], w);
        assert Replay(chan, cb, ms, w).effects == d.effects + rest.effects;
        AckedIdsAppend(d.effects, rest.effects);
        if CallbackRuns(chan, cb, ms[0], w) {
          assert AckedIds(d.effects) == [ms[0].identity];
          assert NormalIds(ms) == [ms[0].identity] + tail;
          assert ([ms[0].identity] + AckedIds(rest.effects))[1..] == AckedIds(rest.effects);
        } else {
          assert AckedIds(d.effects) == [];
          assert AckedIds(d.effects) + AckedIds(rest.effects) == AckedIds(rest.effects);
          if ms[0].messageType == CHANNEL_TEXT_MESSAGE_TYPE_NORMAL {
            SubsequenceSkip(ms[0].identity, AckedIds(rest.effects), tail);
            assert NormalIds(ms) == [ms[0].identity] + tail;
          } else {
            assert NormalIds(ms) == [] + tail == tail;
            assert AckedIds(Replay(chan, cb, ms, w).effects) == AckedIds(rest.effects);
          }
        }
      }
    }
  }

  /**
   * Replaying `ms1 + ms2` is replaying `ms1` and then, if that did not raise, `ms2`: what the
   * earlier messages cause always comes before anything the later ones cause.
   */
  lemma {:induction false} ReplayInListOrder(chan: Option<ChanId>, cb: Option<Receiver>, ms1: seq<PendingMessage>,
                                             ms2: seq<PendingMessage>, w: World)
    ensures var d1 := Replay(chan, cb, ms1, w);
      Replay(chan, cb, ms1 + ms2, w) == if d1.outcome.Raised? then d1 else Then(d1.effects, Replay(chan, d1.receiver, ms2, w))
    decreases ms1
  {
    if ms1 != [] {
      assert (ms1 + ms2)[0] == ms1[0] && (ms1 + ms2)[1..] == ms1[1..] + ms2;
      var d := Deliver(chan, cb, ms1[0], w);
      if !d.outcome.Raised? {
        ReplayInListOrder(chan, d.receiver, ms1[1..], ms2, w);
      }
    } else {
      assert ms1 + ms2 == ms2;
    }
  }

  /** Without a received callback, replaying causes nothing at all. */
  lemma {:induction false} ReplayWithoutCallbackIsSilent(chan: Option<ChanId>, ms: seq<PendingMessage>, w: World)
    ensures Replay(chan, None, ms, w).effects == []
    decreases ms
  {
    if ms != [] {
      ReplayWithoutCallbackIsSilent(chan, ms[1..], w);
    }
  }

  /** One `match.remove()` per subscription, in list order. */
  function Disconnects(matches: seq<SignalMatch>): (r: seq<Effect>)
    ensures |r| == |matches|
    ensures forall i :: 0 <= i < |matches| ==> r[i] == Disconnect(matches[i])
  {
    if matches == [] then [] else Disconnects(matches[..|matches| - 1]) + [Disconnect(matches[|matches| - 1])]
  }

  /** `_closed_cb`: every subscription is removed, then the close callback runs if one is set. */
  function ClosingEffects(matches: seq<SignalMatch>, closeCb: Option<CloseCallback>): (r: seq<Effect>)
    ensures |r| == |matches| + (if closeCb.Some? then 1 else 0)
    ensures forall i :: 0 <= i < |matches| ==> r[i] == Disconnect(matches[i])
    ensures closeCb.Some? ==> r[|matches|] == RunCloseCallback(closeCb.value)
  {
    Disconnects(matches) + (if closeCb.Some? then [RunCloseCallback(closeCb.value)] else [])
  }
}
