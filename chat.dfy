/** The live chat view: which conversation is open, its local message list, the
    counterpart's presence and the message input. Every React effect, Pusher
    callback and interval tick is one method call; time is the argument `now`. */
module ChatSession {
  import opened Common
  import opened Channels
  import PresenceRoute

  /** Milliseconds of silence after which the counterpart is shown offline. */
  const LivenessTimeout := 5000

  datatype Profile = Profile(id: string, name: string, image: Option<string>)

  /** A conversation as the client holds it. `messages` is absent when the listing
      did not include them. */
  datatype ChatConversation = ChatConversation(
    id: nat, productId: string, senderId: string, receiverId: string, productName: string,
    sender: Profile, receiver: Profile, messages: Option<seq<Message>>)

  datatype SendOutcome =
    | Answered(success: bool)   // the POST resolved; `res.data.success`
    | Rejected                  // the POST rejected (non-2xx status or network error)

  /** POST /api/conversation/message/<id> with body `{content}`. */
  datatype SendRequest = SendRequest(conversationId: Option<nat>, content: string)

  /** `if (selectedChat)`: an id is selected and it is not 0. */
  predicate Selected(s: Option<nat>) {
    s.Some? && s.value != 0
  }

  /** The liveness test of the interval callback. */
  predicate Silent(lastSeen: int, now: int) {
    now - lastSeen > LivenessTimeout
  }

  /** `conversations.find(chat => chat.id == selectedChat)`. */
  function FindChat(chats: seq<ChatConversation>, selected: Option<nat>): (r: Option<ChatConversation>)
    ensures r.None? <==> selected.None? || forall c :: c in chats ==> c.id != selected.value
    ensures r.Some? ==> selected == Some(r.value.id) && r.value in chats
  {
    if chats == [] || selected.None? then None
    else if chats[0].id == selected.value then Some(chats[0])
    else FindChat(chats[1..], selected)
  }

  // ---------------------------------------------------------------------
  // Who is on the other side

  /** `chat.senderId == userId`: the own user opened this conversation. */
  predicate IsInitiator(chat: ChatConversation, userId: Option<string>) {
    userId == Some(chat.senderId)
  }

  /** The profile shown for a conversation: the receiver when the own user is the
      sender, otherwise the sender. */
  function Counterpart(chat: ChatConversation, userId: Option<string>): (p: Profile)
    ensures IsInitiator(chat, userId) ==> p == chat.receiver
    ensures !IsInitiator(chat, userId) ==> p == chat.sender
  {
    if IsInitiator(chat, userId) then chat.receiver else chat.sender
  }

  /** `image ?? '/default-avatar.png'`. */
  function Avatar(p: Profile): (url: string)
    ensures p.image.Some? ==> url == p.image.value
    ensures p.image.None? ==> url == "/default-avatar.png"
  {
    match p.image
    case Some(u) => u
    case None => "/default-avatar.png"
  }

  /** The profiles joined to a conversation are those of its two participants. */
  predicate ProfilesMatch(chat: ChatConversation) {
    chat.sender.id == chat.senderId && chat.receiver.id == chat.receiverId
  }

  /** For a participant of a conversation between two different users, the
      counterpart shown is the other participant, never the user themself. */
  lemma CounterpartIsTheOtherParticipant(chat: ChatConversation, me: string)
    requires ProfilesMatch(chat) && chat.senderId != chat.receiverId
    requires me == chat.senderId || me == chat.receiverId
    ensures Counterpart(chat, Some(me)).id != me
    ensures Counterpart(chat, Some(me)).id == chat.senderId || Counterpart(chat, Some(me)).id == chat.receiverId
    ensures me == chat.senderId ==> Avatar(Counterpart(chat, Some(me))) == Avatar(chat.receiver)
    ensures me == chat.receiverId ==> Avatar(Counterpart(chat, Some(me))) == Avatar(chat.sender)
  {
  }

  // ---------------------------------------------------------------------
  // The last-message preview of a row in the conversation list

  datatype Cell = Shown(message: Message) | Blank | RenderError

  /** The preview exactly as the list renders it: the open chat's local list when it
      is non-empty, else `chat.messages[0]`, which fails when `messages` is absent. */
  function RowPreviewAsWritten(local: seq<Message>, chat: ChatConversation): Cell {
    if |local| > 0 then Shown(local[|local| - 1])
    else match chat.messages
      case None => RenderError
      case Some(stored) => if stored == [] then Blank else Shown(stored[0])
  }

  /** As written, every row shows the open chat's last message, including rows of
      other conversations. */
  lemma PreviewLeaksOpenChat()
    ensures var m := Message(1, "Is this available?", "sent", 1, 0, "u2");
            var other := ChatConversation(2, "p2", "u2", "u3", "Lamp",
                                          Profile("u2", "B", None), Profile("u3", "C", None), Some([]));
            RowPreviewAsWritten([m], other) == Shown(m) && m.conversationId != other.id
  {
  }

  /** A conversation listed by GET /api/conversation carries no messages. */
  function Listed(id: nat, productId: string, senderId: string, receiverId: string, productName: string,
                  sender: Profile, receiver: Profile): (chat: ChatConversation)
    ensures chat.messages.None? && chat.id == id
  {
    ChatConversation(id, productId, senderId, receiverId, productName, sender, receiver, None)
  }

  /** As written, a listed conversation cannot be previewed while the local list is empty. */
  lemma PreviewOfListedChatFails(id: nat, productId: string, senderId: string, receiverId: string,
                                 productName: string, sender: Profile, receiver: Profile)
    ensures RowPreviewAsWritten([], Listed(id, productId, senderId, receiverId, productName, sender, receiver))
            == RenderError
  {
  }

  /** The preview as intended: the open conversation shows its own local list's last
      message; every other row shows its own stored message, if it has one. */
  function RowPreview(local: seq<Message>, selected: Option<nat>, chat: ChatConversation): (p: Option<Message>)
    ensures p.None? ==> (selected != Some(chat.id) || local == [])
  {
    if selected == Some(chat.id) && |local| > 0 then Some(local[|local| - 1])
    else match chat.messages
      case Some(stored) => if stored == [] then None else Some(stored[0])
      case None => None
  }

  predicate AllOf(ms: seq<Message>, conversationId: nat) {
    forall m :: m in ms ==> m.conversationId == conversationId
  }

  /** With the corrected preview a row only ever shows a message of its own conversation. */
  lemma RowPreviewBelongsToChat(local: seq<Message>, selected: Option<nat>, chat: ChatConversation)
    requires selected.Some? ==> AllOf(local, selected.value)
    requires chat.messages.Some? ==> AllOf(chat.messages.value, chat.id)
    ensures RowPreview(local, selected, chat).Some? ==> RowPreview(local, selected, chat).value.conversationId == chat.id
  {
    if selected == Some(chat.id) && |local| > 0 {
      assert local[|local| - 1] in local;
    } else if chat.messages.Some? && chat.messages.value != [] {
      assert chat.messages.value[0] in chat.messages.value;
    }
  }

  /** A listed conversation's row is blank, not an error, until messages exist. */
  lemma RowPreviewOfListedChat(local: seq<Message>, selected: Option<nat>, id: nat, productId: string,
                               senderId: string, receiverId: string, productName: string,
                               sender: Profile, receiver: Profile)
    ensures var chat := Listed(id, productId, senderId, receiverId, productName, sender, receiver);
            RowPreview(local, selected, chat) == if selected == Some(id) && |local| > 0 then Some(local[|local| - 1]) else None
  {
  }

  // ---------------------------------------------------------------------
  // The view

  class ChatView {
    var userId: Option<string>
    var conversations: seq<ChatConversation>
    var selectedChat: Option<nat>
    var messages: seq<Message>
    var isOnline: bool
    /** `lastSeenRef.current`. */
    var lastSeen: int
    var messageInput: string
    /** The channel the selection effect has bound, with both intervals running. */
    var subscription: Option<string>
    var mounted: bool

    /** The selection effect is active exactly while a conversation is selected. */
    ghost predicate Valid()
      reads this
    {
      subscription == if mounted && Selected(selectedChat) then Some(ChannelName(selectedChat)) else None
    }

    function CurrentChat(): Option<ChatConversation>
      reads this
    {
      FindChat(conversations, selectedChat)
    }

    /** Mounting at time `now`: nothing selected, offline, `lastSeenRef` set to `now`. */
    constructor (userId: Option<string>, now: int)
      ensures Valid() && mounted
      ensures this.userId == userId && conversations == [] && selectedChat == None
      ensures messages == [] && !isOnline && lastSeen == now && messageInput == ""
    {
      this.userId := userId;
      conversations := [];
      selectedChat := None;
      messages := [];
      isOnline := false;
      lastSeen := now;
      messageInput := "";
      subscription := None;
      mounted := true;
    }

    /** `updateChatConversations` resolved with the GET listing. */
    method ConversationsLoaded(list: seq<ChatConversation>)
      requires Valid()
      modifies this`conversations
      ensures Valid()
      ensures conversations == (if mounted then list else old(conversations))
    {
      if mounted {
        conversations := list;
      }
    }

    /** The selection effect's cleanup: intervals cleared, handlers unbound, channel left. */
    method Teardown()
      modifies this`subscription
      ensures subscription == None
    {
      subscription := None;
    }

    /** `setSelectedChat(id)` and the effect it triggers. Re-selecting the same id does
        not re-run the effect. Selecting a conversation tears down the previous one,
        empties the local list and subscribes to the new channel; deselecting only
        tears down, keeping the list. */
    method SelectChat(id: Option<nat>)
      requires Valid() && mounted
      modifies this`selectedChat, this`messages, this`subscription
      ensures Valid() && selectedChat == id
      ensures id == old(selectedChat) ==> messages == old(messages) && subscription == old(subscription)
      ensures id != old(selectedChat) && Selected(id) ==> messages == [] && subscription == Some(ChannelName(id))
      ensures !Selected(id) ==> messages == old(messages) && subscription == None
    {
      if id == selectedChat {
        return;
      }
      if subscription.Some? {
        Teardown();
      }
      selectedChat := id;
      if Selected(id) {
        messages := [];
        subscription := Some(ChannelName(id));
      }
    }

    /** The session resolves or changes. The selection effect depends on `userId` as
        well, so an open chat is torn down and set up again: the local list is emptied
        and the same channel bound anew, ready for a fresh history fetch. */
    method SessionChanged(id: Option<string>)
      requires Valid() && mounted
      modifies this`userId, this`messages, this`subscription
      ensures Valid() && userId == id
      ensures id == old(userId) || !Selected(selectedChat) ==>
                messages == old(messages) && subscription == old(subscription)
      ensures id != old(userId) && Selected(selectedChat) ==>
                messages == [] && subscription == Some(ChannelName(selectedChat))
    {
      if id == userId {
        return;
      }
      if subscription.Some? {
        Teardown();
      }
      userId := id;
      if Selected(selectedChat) {
        messages := [];
        subscription := Some(ChannelName(selectedChat));
      }
    }

    /** The history GET resolved: on success the local list becomes the history. */
    method HistoryLoaded(success: bool, history: seq<Message>)
      requires Valid()
      modifies this`messages
      ensures Valid()
      ensures messages == if mounted && success then history else old(messages)
    {
      if mounted && success {
        messages := history;
      }
    }

    /** The broker hands an event to this client; only the bound channel's handlers run. */
    method Deliver(e: Event, now: int)
      requires Valid()
      modifies this`messages, this`isOnline, this`lastSeen
      ensures Valid()
      ensures subscription != Some(e.channel) ==>
                messages == old(messages) && isOnline == old(isOnline) && lastSeen == old(lastSeen)
      ensures subscription == Some(e.channel) && e.payload.NewMessage? ==>
                messages == old(messages) + [e.payload.message]
                && isOnline == old(isOnline) && lastSeen == old(lastSeen)
      ensures subscription == Some(e.channel) && e.payload.OnlinePresence? && e.payload.id == userId ==>
                messages == old(messages) && isOnline == old(isOnline) && lastSeen == old(lastSeen)
      ensures subscription == Some(e.channel) && e.payload.OnlinePresence? && e.payload.id != userId ==>
                messages == old(messages) && isOnline && lastSeen == now
    {
      if subscription != Some(e.channel) {
        return;
      }
      match e.payload {
        case NewMessage(m) =>
          messages := messages + [m];
        case OnlinePresence(id) =>
          if id != userId {
            lastSeen := now;
            isOnline := true;
          }
      }
    }

    /** The 2-second liveness interval: offline after more than 5000 ms of silence. */
    method OnlineCheck(now: int)
      requires Valid()
      modifies this`isOnline
      ensures Valid()
      ensures isOnline == (old(isOnline) && !(subscription.Some? && Silent(lastSeen, now)))
    {
      if subscription.Some? && Silent(lastSeen, now) {
        isOnline := false;
      }
    }

    /** The 5-second heartbeat interval: POST /api/pusher/presence for the open chat.
        The body is always valid JSON; `rejected` says whether the route's trigger
        rejects. The view ignores the response. */
    method Heartbeat(pusher: Pusher, rejected: bool)
      requires Valid()
      modifies pusher
      ensures subscription.Some? && !rejected ==>
                pusher.log == old(pusher.log) + [Event(ChannelName(selectedChat), OnlinePresence(userId))]
      ensures subscription.None? || rejected ==> pusher.log == old(pusher.log)
    {
      if subscription.Some? {
        var _ := PresenceRoute.Post(pusher, selectedChat, userId, true, rejected);
      }
    }

    /** The component unmounts: the effect's cleanup runs and later updates are dropped. */
    method Unmount()
      requires Valid()
      modifies this`subscription, this`mounted
      ensures Valid() && !mounted && subscription == None
    {
      Teardown();
      mounted := false;
    }

    /** The textarea's onChange. */
    method InputChanged(text: string)
      requires Valid()
      modifies this`messageInput
      ensures Valid()
      ensures messageInput == if mounted then text else old(messageInput)
    {
      if mounted {
        messageInput := text;
      }
    }

    /** `handleSendMessage`. Nothing happens unless the trimmed input is non-empty and
        the selected conversation is in the list. The input is cleared once the POST
        resolves; a rejected POST throws past the clearing, so the input stays. */
    method SendMessage(outcome: SendOutcome) returns (request: Option<SendRequest>, toast: Option<Toast>)
      requires Valid() && mounted
      modifies this`messageInput
      ensures Valid()
      ensures (Trim(old(messageInput)) == "" || CurrentChat().None?) ==>
                request == None && toast == None && messageInput == old(messageInput)
      ensures Trim(old(messageInput)) != "" && CurrentChat().Some? ==>
                && request == Some(SendRequest(selectedChat, old(messageInput)))
                && messageInput == (if outcome.Rejected? then old(messageInput) else "")
                && toast == match outcome
                            case Answered(true) => Some(ToastSuccess("Message Sent"))
                            case Answered(false) => Some(ToastError("Some error occurred"))
                            case Rejected => None
    {
      request, toast := None, None;
      if Trim(messageInput) != "" && CurrentChat().Some? {
        request := Some(SendRequest(selectedChat, messageInput));
        match outcome {
          case Rejected =>
            return;
          case Answered(success) =>
            toast := if success then Some(ToastSuccess("Message Sent")) else Some(ToastError("Some error occurred"));
        }
        messageInput := "";
      }
    }
  }

  /** The guard of `handleSendMessage` in plain terms: the input holds a character
      that is not white space, and the selected conversation is in the list. */
  lemma SendGuard(input: string, chats: seq<ChatConversation>, selected: Option<nat>)
    ensures (Trim(input) != "" && FindChat(chats, selected).Some?) <==>
            (HasVisible(input) && selected.Some? && exists c :: c in chats && c.id == selected.value)
  {
    TrimTruthy(input);
  }
}
