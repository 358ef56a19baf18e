/** The publish/subscribe transport, kept abstract: every `trigger` appends one
    event to a log, and a subscriber sees the events of its channel in log order. */
module Channels {
  import opened Common

  /** A stored chat message, as the `new-message` event carries it. */
  datatype Message = Message(
    id: nat, content: string, status: string, conversationId: nat, createdAt: int, senderId: string)

  datatype Payload =
    | NewMessage(message: Message)
    /** `{ id: userId }`; the id is undefined when the sender had no session. */
    | OnlinePresence(id: Option<string>)

  datatype Event = Event(channel: string, payload: Payload)

  function EventName(p: Payload): string {
    match p
    case NewMessage(_) => "new-message"
    case OnlinePresence(_) => "online-presence"
  }

  const ChannelPrefix := "conversation-"

  /** How a template literal renders the id: decimal digits, or "undefined". */
  function IdText(conversationId: Option<nat>): string {
    match conversationId
    case Some(n) => Decimal(n)
    case None => "undefined"
  }

  /** `conversation-${conversationId}`. */
  function ChannelName(conversationId: Option<nat>): (name: string)
    ensures StartsWith(name, ChannelPrefix)
  {
    ChannelPrefix + IdText(conversationId)
  }

  lemma DecimalIsNotUndefined(n: nat)
    ensures Decimal(n) != "undefined"
  {
    assert IsDigit(Decimal(n)[0]);
  }

  /** Distinct conversations get distinct channels, so no subscriber of one
      conversation is handed the events of another. */
  lemma ChannelNameInjective(a: Option<nat>, b: Option<nat>)
    ensures ChannelName(a) == ChannelName(b) ==> a == b
  {
    var n := |ChannelPrefix|;
    assert ChannelName(a)[n..] == IdText(a);
    assert ChannelName(b)[n..] == IdText(b);
    if a.Some? {
      DecimalIsNotUndefined(a.value);
    }
    if b.Some? {
      DecimalIsNotUndefined(b.value);
    }
    if a.Some? && b.Some? {
      DecimalInjective(a.value, b.value);
    }
  }

  /** What one event contributes to the stream of `channel`. */
  function OnChannel(e: Event, channel: string): (r: seq<Event>)
    ensures |r| <= 1
  {
    if e.channel == channel then [e] else []
  }

  /** The events a subscriber of `channel` receives, in publish order. */
  function EventsOn(log: seq<Event>, channel: string): (r: seq<Event>)
    ensures |r| <= |log|
  {
    if log == [] then [] else OnChannel(log[0], channel) + EventsOn(log[1..], channel)
  }

  /** A subscriber receives exactly the events published on its channel. */
  lemma {:induction false} EventsOnMembers(log: seq<Event>, channel: string)
    ensures forall e :: e in EventsOn(log, channel) <==> e in log && e.channel == channel
  {
    if log != [] {
      EventsOnMembers(log[1..], channel);
      assert forall e :: e in log <==> e == log[0] || e in log[1..];
    }
  }

  /** Publishing extends exactly the publishing channel's stream, at its end. */
  lemma {:induction false} EventsOnAppend(log: seq<Event>, e: Event, channel: string)
    ensures EventsOn(log + [e], channel) == EventsOn(log, channel) + OnChannel(e, channel)
  {
    if log == [] {
      assert log + [e] == [e];
      assert EventsOn([e], channel) == OnChannel(e, channel) + EventsOn([], channel);
    } else {
      assert (log + [e])[0] == log[0];
      assert (log + [e])[1..] == log[1..] + [e];
      EventsOnAppend(log[1..], e, channel);
    }
  }

  /** The broker: the log of everything triggered so far. */
  class Pusher {
    var log: seq<Event>

    constructor ()
      ensures log == []
    {
      log := [];
    }

    /** `pusher.trigger(channel, eventName, payload)`. */
    method Trigger(channel: string, payload: Payload)
      modifies this
      ensures log == old(log) + [Event(channel, payload)]
    {
      log := log + [Event(channel, payload)];
    }
  }
}
