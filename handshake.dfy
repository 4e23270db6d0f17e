/**
 * The bootstrap protocol of `CollabWrapper.__received_cb`: a leader answers init requests with its
 * data, a participant waiting for init imports the first response, and everything else is passed
 * on to the activity as a `message`.
 */
module Handshake {
  import opened Outcomes
  import opened Wire
  import opened Telepathy

  /** The two flags of a CollabWrapper that decide how an envelope is handled. */
  datatype Peer = Peer(leader: bool, initWaiting: bool)

  /** What handling one envelope does. */
  datatype Reaction =
    | Answer(response: Json)                    // post an init response
    | Import(data: Json)                        // activity.read_data(data)
    | PassOn(buddy: Option<Buddy>, msg: Json)   // emit 'message'
    | Fail(error: Failure)                      // an exception escapes

  datatype Stepped = Stepped(peer: Peer, reaction: Reaction)

  /** An envelope delivered to the wrapper, with the buddy it came from. */
  datatype Incoming = Incoming(buddy: Option<Buddy>, msg: Json)

  /** A well-formed init response: an object with the response action and a `data` key. */
  predicate IsResponse(msg: Json)
  {
    HasAction(msg, ACTION_INIT_RESPONSE) && "data" in msg.fields
  }

  /** `__received_cb(buddy, msg)` for a wrapper with flags `p` whose activity's `get_data()` is `appData`. */
  function Step(p: Peer, buddy: Option<Buddy>, msg: Json, appData: Json): (r: Stepped)
    // a request is answered exactly when this participant is the leader, with the activity's data
    ensures r.reaction.Answer? <==> p.leader && HasAction(msg, ACTION_INIT_REQUEST)
    ensures r.reaction.Answer? ==> r.reaction.response == ResponseEnvelope(appData)
    // a response is imported exactly when init is awaited, and that ends the wait
    ensures r.reaction.Import? <==> p.initWaiting && IsResponse(msg)
    ensures r.reaction.Import? ==> r.reaction.data == msg.fields["data"] && r.peer == Peer(p.leader, false)
    // every other object is passed on unchanged, with the buddy as supplied
    ensures r.reaction.PassOn? <==>
      msg.JObject? && !(p.leader && HasAction(msg, ACTION_INIT_REQUEST))
      && !(p.initWaiting && HasAction(msg, ACTION_INIT_RESPONSE))
    ensures r.reaction.PassOn? ==> r.reaction.buddy == buddy && r.reaction.msg == msg
    // only a non-object or an awaited response without data raises
    ensures r.reaction.Fail? <==>
      !msg.JObject? || (p.initWaiting && HasAction(msg, ACTION_INIT_RESPONSE) && "data" !in msg.fields)
    // nothing but an import changes the flags
    ensures !r.reaction.Import? ==> r.peer == p
  {
    if !msg.JObject? then Stepped(p, Fail(NotAnEnvelope))
    else if p.leader && HasAction(msg, ACTION_INIT_REQUEST) then
      Stepped(p, Answer(ResponseEnvelope(appData)))
    else if p.initWaiting && HasAction(msg, ACTION_INIT_RESPONSE) then
      if "data" in msg.fields then Stepped(Peer(p.leader, false), Import(msg.fields["data"]))
      else Stepped(p, Fail(MissingData))
    else Stepped(p, PassOn(buddy, msg))
  }

  /** The flags after the 'joined' event with a shared activity: init is awaited. */
  function Joined(p: Peer): (r: Peer)
  {
    Peer(p.leader, true)
  }

  datatype Ran = Ran(peer: Peer, reactions: seq<Reaction>)

  /** Handling a series of envelopes one after the other (an exception ends only its own delivery). */
  function Run(p: Peer, ins: seq<Incoming>, appData: Json): (r: Ran)
    decreases ins
  {
    if ins == [] then Ran(p, [])
    else
      var s := Step(p, ins[0].buddy, ins[0].msg, appData);
      var rest := Run(s.peer, ins[1..], appData);
      Ran(rest.peer, [s.reaction] + rest.reactions)
  }

  /** The data handed to `read_data`, in order. */
  function Imported(rs: seq<Reaction>): (r: seq<Json>)
  {
    if rs == [] then []
    else (if rs[0].Import? then [rs[0].data] else []) + Imported(rs[1..])
  }

  /** The data of every well-formed init response among the envelopes, in order. */
  function ResponseData(ins: seq<Incoming>): (r: seq<Json>)
  {
    if ins == [] then []
    else (if IsResponse(ins[0].msg) then [ins[0].msg.fields["data"]] else []) + ResponseData(ins[1..])
  }

  /**
   * The leader answers every request: n requests produce n identical responses carrying the
   * activity's data, nothing is passed on, and the flags are left alone.
   */
  lemma {:induction false} LeaderAnswersEveryRequest(p: Peer, ins: seq<Incoming>, appData: Json)
    requires p.leader
    requires forall i :: 0 <= i < |ins| ==> HasAction(ins[i].msg, ACTION_INIT_REQUEST)
    ensures Run(p, ins, appData).peer == p
    ensures |Run(p, ins, appData).reactions| == |ins|
    ensures forall i :: 0 <= i < |ins| ==> Run(p, ins, appData).reactions[i] == Answer(ResponseEnvelope(appData))
  {
    if ins != [] {
      LeaderAnswersEveryRequest(p, ins[1..], appData);
    }
  }

  /**
   * A waiting participant imports the data of the first well-formed response and no other; one
   * that is not waiting imports nothing. The wait ends exactly when a response was imported.
   */
  lemma {:induction false} OnlyFirstResponseImported(p: Peer, ins: seq<Incoming>, appData: Json)
    ensures Imported(Run(p, ins, appData).reactions) ==
      if p.initWaiting && ResponseData(ins) != [] then [ResponseData(ins)[0]] else []
    ensures Run(p, ins, appData).peer.initWaiting == (p.initWaiting && ResponseData(ins) == [])
    ensures Run(p, ins, appData).peer.leader == p.leader
    decreases ins
  {
    if ins != [] {
      var s := Step(p, ins[0].buddy, ins[0].msg, appData);
      OnlyFirstResponseImported(s.peer, ins[1..], appData);
      var rs := Run(p, ins, appData).reactions;
      assert rs[0] == s.reaction && rs[1..] == Run(s.peer, ins[1..], appData).reactions;
    }
  }

  /** Hence `read_data` runs at most once, and never for a participant that is not waiting. */
  lemma ResponseImportedAtMostOnce(p: Peer, ins: seq<Incoming>, appData: Json)
    ensures |Imported(Run(p, ins, appData).reactions)| <= if p.initWaiting then 1 else 0
  {
    OnlyFirstResponseImported(p, ins, appData);
  }

  /**
   * The bootstrap exchange: the request a joining participant posts reaches the leader, which
   * answers with its data; the answer, delivered back, is imported and ends the wait; and an
   * application message the follower posts afterwards reaches the leader as a `message`.
   */
  lemma HandshakeTransfersLeaderData(leader: Peer, follower: Peer, fromFollower: Option<Buddy>,
                                     fromLeader: Option<Buddy>, leaderData: Json, followerData: Json,
                                     chat: Json)
    requires leader.leader && !follower.leader
    requires chat.JObject? && !HasAction(chat, ACTION_INIT_REQUEST) && !HasAction(chat, ACTION_INIT_RESPONSE)
    ensures var request := Decode(Encode(RequestEnvelope()));
      request.Some? &&
      var answered := Step(leader, fromFollower, request.value, leaderData);
      answered.reaction == Answer(ResponseEnvelope(leaderData)) && answered.peer == leader &&
      var response := Decode(Encode(answered.reaction.response));
      response.Some? &&
      var imported := Step(Joined(follower), fromLeader, response.value, followerData);
      imported.reaction == Import(leaderData) && !imported.peer.initWaiting &&
      Step(leader, fromFollower, Decode(Encode(chat)).value, leaderData).reaction == PassOn(fromFollower, chat)
  {
  }
}
