/** Turning the sender handle of a delivered message into a buddy (`TextChannelWrapper._get_buddy`). */
module Sender {
  import opened Outcomes
  import opened Telepathy

  /** The group flags say that handles on this channel are channel-specific. */
  predicate ChannelSpecific(g: GroupView)
  {
    g.flags & CHANNEL_GROUP_FLAG_CHANNEL_SPECIFIC_HANDLES != 0
  }

  /**
   * The handle `_get_buddy` looks up for channel handle `cs`; None when the assertion that the
   * handle is non-zero fails.
   */
  function SelectHandle(g: GroupView, connSelfHandle: Handle, cs: Handle): (r: Option<Handle>)
    // our own channel handle maps to the connection's own handle, whatever the flags say
    ensures cs == g.selfHandle ==> r == Some(connSelfHandle)
    // any other member of a channel with channel-specific handles is translated to its owner,
    // and a zero owner is not rejected
    ensures cs != g.selfHandle && ChannelSpecific(g) ==> r == Some(g.ownerOf(cs))
    // the lookup fails exactly when neither rule applies and the handle is 0
    ensures r.None? <==> cs != g.selfHandle && !ChannelSpecific(g) && cs == 0
    // otherwise the handle is used as it is
    ensures cs != g.selfHandle && !ChannelSpecific(g) && r.Some? ==> r.value == cs != 0
  {
    if g.selfHandle == cs then Some(connSelfHandle)
    else if ChannelSpecific(g) then Some(g.ownerOf(cs))
    else if cs != 0 then Some(cs)
    else None
  }

  /**
   * The buddy `_received_cb` hands to its callback for `sender`: on a channel without a Group
   * interface a dictionary built from the sender's alias; otherwise the presence service's Buddy for
   * the selected handle, or None when the presence service knows none. `groupIface` is what the
   * lookup of the channel's Group interface gives (None when that lookup raises); `w` answers the
   * remaining queries.
   */
  function ResolveSender(groupIface: Option<GroupView>, w: World, sender: Handle): (r: Result<Option<Buddy>, Failure>)
    ensures groupIface.None? ==> r == Ok(Some(NickBuddy(w.aliasOf(sender), ONE_TO_ONE_COLOR)))
    ensures r.Err? <==> groupIface.Some? && SelectHandle(groupIface.value, w.connSelfHandle, sender).None?
    ensures r.Err? ==> r.error == ZeroHandle
    ensures groupIface.Some? && r.Ok? ==>
      var h := SelectHandle(groupIface.value, w.connSelfHandle, sender).value;
      r.value == (if h in w.directory then Some(PresenceBuddy(h)) else None)
  {
    match groupIface
    case None => Ok(Some(NickBuddy(w.aliasOf(sender), ONE_TO_ONE_COLOR)))
    case Some(g) =>
      match SelectHandle(g, w.connSelfHandle, sender)
      case None => Err(ZeroHandle)
      case Some(h) => Ok(if h in w.directory then Some(PresenceBuddy(h)) else None)
  }

  /** On a one-to-one channel only the alias service is consulted: group answers and the directory are irrelevant. */
  lemma OneToOneIgnoresGroupLookups(w1: World, w2: World, sender: Handle)
    requires w1.aliasOf(sender) == w2.aliasOf(sender)
    ensures ResolveSender(None, w1, sender) == ResolveSender(None, w2, sender)
    ensures ResolveSender(None, w1, sender).Ok?
  {
  }
}
