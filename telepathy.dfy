/**
 * The Telepathy, presence-service and activity collaborators, seen from the wrappers: the answers
 * their queries give (a World) and the calls and emissions the wrappers make (an Effect log).
 */
module Telepathy {
  import opened Outcomes
  import opened Wire

  /** A Telepathy contact handle (an unsigned integer; 0 is the invalid handle). */
  type Handle = nat
  /** Identity of a Telepathy text channel proxy. */
  type ChanId = nat
  /** Identity of a Telepathy connection proxy. */
  type ConnId = nat

  /** Telepathy Channel_Text_Message_Type_Normal. */
  const CHANNEL_TEXT_MESSAGE_TYPE_NORMAL: nat := 0
  /** Telepathy Channel_Group_Flag_Channel_Specific_Handles. */
  const CHANNEL_GROUP_FLAG_CHANNEL_SPECIFIC_HANDLES: bv32 := 256
  /** The colour pair given to a buddy synthesised on a one-to-one channel. */
  const ONE_TO_ONE_COLOR: string := "#000000,#808080"

  /** The shared activity: its text channel and its connection. */
  datatype SharedActivity = SharedActivity(textChan: ChanId, conn: ConnId)

  /** What the channel's Group interface answers: GetSelfHandle, GetGroupFlags, GetHandleOwners. */
  datatype GroupView = GroupView(selfHandle: Handle, flags: bv32, ownerOf: Handle -> Handle)

  /** A participant: a dictionary synthesised from an alias, or the presence service's Buddy for a handle. */
  datatype Buddy = NickBuddy(nick: string, color: string) | PresenceBuddy(handle: Handle)

  /**
   * The answers of the foreign queries made while handling deliveries: the channel's Group interface
   * (None when it has none), RequestAliases, the preferred connection's GetSelfHandle, the handles the
   * presence service knows a Buddy for, and the activity's `get_data()`.
   */
  datatype World = World(
    group: Option<GroupView>,
    aliasOf: Handle -> string,
    connSelfHandle: Handle,
    directory: set<Handle>,
    activityData: Json)

  /** The channel signals the text channel wrapper subscribes to. */
  datatype ChannelSignal = Closed | Received

  /** The match object `connect_to_signal` returns. */
  datatype SignalMatch = SignalMatch(chan: ChanId, signal: ChannelSignal)

  /** The shared activity's signals the collaboration wrapper subscribes to. */
  datatype ActivitySignal = BuddyJoined | BuddyLeft

  /** A close callback handed to `set_closed_callback`. */
  datatype CloseCallback = CloseCallback(id: nat)

  /** One call into a collaborator, or one signal emission, in the order it happens. */
  datatype Effect =
    | Connect(signalMatch: SignalMatch)               // connect_to_signal on the channel
    | Disconnect(signalMatch: SignalMatch)            // match.remove()
    | Send(chan: ChanId, messageType: nat, text: Payload)
    | CloseChannel(chan: ChanId)                      // Channel.Close() that returned
    | Acknowledge(chan: ChanId, ids: seq<nat>)        // AcknowledgePendingMessages
    | RunCloseCallback(callback: CloseCallback)
    | ConnectActivity(activitySignal: ActivitySignal) // shared_activity.connect
    | ReadData(data: Json)                            // activity.read_data
    | EmitMessage(buddy: Option<Buddy>, msg: Json)    // the 'message' signal
    | EmitJoined                                      // the 'joined' signal

  /** The log of effects, shared by every wrapper of one activity. */
  class Trace {
    var events: seq<Effect>

    constructor ()
      ensures events == []
    {
      events := [];
    }
  }
}
