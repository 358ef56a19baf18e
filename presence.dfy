/** POST /api/pusher/presence: relays one heartbeat to the conversation's channel. */
module PresenceRoute {
  import opened Common
  import opened Channels

  /** `{success: true}` with status 200, or the 500 the framework answers with when
      the handler throws: it has no try/catch. */
  datatype Reply = Success | InternalError

  function Status(r: Reply): int {
    match r
    case Success => 200
    case InternalError => 500
  }

  /** Body `{conversationId, userId}`; both are taken over unchanged. `parsed` is false
      when `req.json()` throws, and `rejected` says whether `pusher.trigger` rejects,
      in which case nothing is published. */
  method Post(pusher: Pusher, conversationId: Option<nat>, userId: Option<string>, parsed: bool, rejected: bool)
    returns (reply: Reply)
    modifies pusher
    ensures reply == Success <==> parsed && !rejected
    ensures reply == Success ==>
              && pusher.log == old(pusher.log) + [Event(ChannelName(conversationId), OnlinePresence(userId))]
              && EventName(pusher.log[|pusher.log| - 1].payload) == "online-presence"
    ensures reply == InternalError ==> pusher.log == old(pusher.log)
  {
    if !parsed || rejected {
      return InternalError;
    }
    pusher.Trigger(ChannelName(conversationId), OnlinePresence(userId));
    reply := Success;
  }

  /** A heartbeat reaches the subscribers of its own conversation and no one else. */
  lemma HeartbeatReachesOnlyItsChannel(log: seq<Event>, conversationId: Option<nat>,
                                       userId: Option<string>, other: Option<nat>)
    ensures var e := Event(ChannelName(conversationId), OnlinePresence(userId));
            && EventsOn(log + [e], ChannelName(conversationId)) == EventsOn(log, ChannelName(conversationId)) + [e]
            && (other != conversationId ==> EventsOn(log + [e], ChannelName(other)) == EventsOn(log, ChannelName(other)))
  {
    var e := Event(ChannelName(conversationId), OnlinePresence(userId));
    EventsOnAppend(log, e, ChannelName(conversationId));
    EventsOnAppend(log, e, ChannelName(other));
    ChannelNameInjective(conversationId, other);
  }
}
