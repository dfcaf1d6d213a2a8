/** The messenger page: its records (users, messages, chats), the list
    updaters behind its handlers, and the page state those handlers write. */
module IndexPage {
  import opened Wrappers
  import opened Lists
  import opened Text

  datatype User = User(
    id: string,
    username: string,
    displayName: string,
    avatar: string,
    banner: Option<string>,
    bio: Option<string>,
    isPremium: bool,
    isOnline: bool,
    lastSeen: Option<int>)   // milliseconds since the epoch

  datatype Message = Message(
    id: string,
    chatId: string,
    senderId: string,
    text: string,
    timestamp: int,           // milliseconds since the epoch
    isRead: bool)

  datatype ChatKind = Direct | Group

  datatype Chat = Chat(
    id: string,
    kind: ChatKind,
    name: string,
    avatar: string,
    participants: seq<string>,
    lastMessage: Option<Message>,
    unreadCount: int,
    isPinned: bool,
    isOnline: Option<bool>)

  /** A pending call shown by the incoming or outgoing call dialog. */
  datatype CallIntent = CallIntent(userId: string, isVideo: bool)

  /** JavaScript truthiness of a `string | null`: null and "" are false. */
  predicate Truthy(s: Option<string>)
  {
    s.Some? && s.value != ""
  }

  /** `prev.map(chat => chat.id === id ? f(chat) : chat)`. */
  function UpdateWhere(chats: seq<Chat>, id: string, f: Chat -> Chat): (r: seq<Chat>)
    ensures |r| == |chats|
    ensures forall i :: 0 <= i < |chats| ==>
              r[i] == if chats[i].id == id then f(chats[i]) else chats[i]
  {
    if chats == [] then []
    else [if chats[0].id == id then f(chats[0]) else chats[0]] + UpdateWhere(chats[1..], id, f)
  }

  /** The chat list after a send: the matching chat shows `m` as its last message. */
  function SetLastMessage(chats: seq<Chat>, id: string, m: Message): (r: seq<Chat>)
  {
    UpdateWhere(chats, id, (c: Chat) => c.(lastMessage := Some(m)))
  }

  /** Sending changes the last message of the selected chat only: same
      length, same ids in the same order, every other chat untouched. */
  lemma SetLastMessageSpec(chats: seq<Chat>, id: string, m: Message)
    ensures var r := SetLastMessage(chats, id, m);
            |r| == |chats| &&
            (forall i :: 0 <= i < |r| ==> r[i].id == chats[i].id) &&
            (forall i :: 0 <= i < |r| && chats[i].id != id ==> r[i] == chats[i]) &&
            (forall i :: 0 <= i < |r| && chats[i].id == id ==>
               r[i] == chats[i].(lastMessage := Some(m)))
  {
  }

  /** `handlePinChat`'s updater: flips `isPinned` of the matching chat. */
  function TogglePin(chats: seq<Chat>, id: string): (r: seq<Chat>)
  {
    UpdateWhere(chats, id, (c: Chat) => c.(isPinned := !c.isPinned))
  }

  /** Pinning flips the pin flag of the matching chats and nothing else. */
  lemma TogglePinSpec(chats: seq<Chat>, id: string)
    ensures var r := TogglePin(chats, id);
            |r| == |chats| &&
            (forall i :: 0 <= i < |r| && chats[i].id != id ==> r[i] == chats[i]) &&
            (forall i :: 0 <= i < |r| && chats[i].id == id ==>
               r[i] == chats[i].(isPinned := !chats[i].isPinned))
  {
  }

  /** Pinning twice is the identity. */
  lemma TogglePinTwice(chats: seq<Chat>, id: string)
    ensures TogglePin(TogglePin(chats, id), id) == chats
  {
    var r := TogglePin(TogglePin(chats, id), id);
    assert |r| == |chats|;
    forall i | 0 <= i < |r| ensures r[i] == chats[i] {
      assert TogglePin(chats, id)[i].id == chats[i].id;
    }
  }

  /** `handleDeleteChat`'s updater. */
  function RemoveChat(chats: seq<Chat>, id: string): (r: seq<Chat>)
  {
    Filter(chats, (c: Chat) => c.id != id)
  }

  /** Deleting removes exactly the chats with that id and keeps every copy
      of the others in their order. */
  lemma RemoveChatSpec(chats: seq<Chat>, id: string)
    ensures var r := RemoveChat(chats, id);
            (forall c :: c in r <==> c in chats && c.id != id) &&
            (forall c :: multiset(r)[c] == if c.id != id then multiset(chats)[c] else 0) &&
            Subsequence(r, chats) && |r| <= |chats|
  {
    FilterIsSubsequence(chats, (c: Chat) => c.id != id);
    FilterCount(chats, (c: Chat) => c.id != id);
  }

  /** `handleClearChat`'s message updater. */
  function RemoveMessagesOf(messages: seq<Message>, chatId: string): (r: seq<Message>)
  {
    Filter(messages, (m: Message) => m.chatId != chatId)
  }

  /** `handleClearChat`'s chat updater. */
  function ClearChatMeta(chats: seq<Chat>, id: string): (r: seq<Chat>)
  {
    UpdateWhere(chats, id, (c: Chat) => c.(lastMessage := None, unreadCount := 0))
  }

  /** Clearing drops exactly that chat's messages, keeping the rest in order,
      and resets exactly that chat's summary. */
  lemma ClearChatSpec(messages: seq<Message>, chats: seq<Chat>, id: string)
    ensures var ms := RemoveMessagesOf(messages, id);
            (forall m :: m in ms <==> m in messages && m.chatId != id) &&
            (forall m :: multiset(ms)[m] == if m.chatId != id then multiset(messages)[m] else 0) &&
            Subsequence(ms, messages)
    ensures var cs := ClearChatMeta(chats, id);
            |cs| == |chats| &&
            (forall i :: 0 <= i < |cs| && chats[i].id != id ==> cs[i] == chats[i]) &&
            (forall i :: 0 <= i < |cs| && chats[i].id == id ==>
               cs[i].lastMessage.None? && cs[i].unreadCount == 0 &&
               cs[i] == chats[i].(lastMessage := None, unreadCount := 0))
  {
    FilterIsSubsequence(messages, (m: Message) => m.chatId != id);
    FilterCount(messages, (m: Message) => m.chatId != id);
  }

  /** `currentChatMessages`: the messages of the selected chat, in order. */
  function MessagesOf(messages: seq<Message>, selected: Option<string>): (r: seq<Message>)
  {
    Filter(messages, (m: Message) => Some(m.chatId) == selected)
  }

  /** With nothing selected no message is shown; otherwise exactly the
      selected chat's messages, in their order. */
  lemma MessagesOfSpec(messages: seq<Message>, selected: Option<string>)
    ensures selected.None? ==> MessagesOf(messages, selected) == []
    ensures selected.Some? ==>
              (forall m :: m in MessagesOf(messages, selected) <==>
                             m in messages && m.chatId == selected.value) &&
              (forall m :: multiset(MessagesOf(messages, selected))[m] ==
                             if m.chatId == selected.value then multiset(messages)[m] else 0)
    ensures Subsequence(MessagesOf(messages, selected), messages)
  {
    FilterIsSubsequence(messages, (m: Message) => Some(m.chatId) == selected);
    FilterCount(messages, (m: Message) => Some(m.chatId) == selected);
  }

  /** The test `handleStartDirectChat` uses to look for an existing chat. */
  predicate IsDirectWith(c: Chat, userId: string, me: string)
  {
    c.kind == Direct && userId in c.participants && me in c.participants
  }

  /** `chats.find(...)`: the first direct chat with both users. */
  function FindDirectChat(chats: seq<Chat>, userId: string, me: string): (r: Option<Chat>)
  {
    Find(chats, c => IsDirectWith(c, userId, me))
  }

  /** `users.find(u => u.id === userId)`. */
  function FindUser(users: seq<User>, userId: string): (r: Option<User>)
    ensures r.None? <==> forall u :: u in users ==> u.id != userId
    ensures r.Some? ==> r.value in users && r.value.id == userId
    ensures r.Some? ==> exists i :: 0 <= i < |users| && users[i] == r.value &&
                                    forall j :: 0 <= j < i ==> users[j].id != userId
  {
    Find(users, (u: User) => u.id == userId)
  }

  /** The lookups return the first match, or nothing only when nothing matches. */
  lemma FindDirectChatSpec(chats: seq<Chat>, userId: string, me: string)
    ensures var r := FindDirectChat(chats, userId, me);
            (r.None? <==> forall c :: c in chats ==> !IsDirectWith(c, userId, me)) &&
            (r.Some? ==> exists i :: 0 <= i < |chats| && chats[i] == r.value &&
                                     IsDirectWith(chats[i], userId, me) &&
                                     forall j :: 0 <= j < i ==> !IsDirectWith(chats[j], userId, me))
  {
  }

  /** The chat `handleCreateGroup` prepends. */
  function NewGroupChat(id: string, name: string, me: string, participantIds: seq<string>): Chat
  {
    Chat(id, Group, name, "👥", [me] + participantIds, None, 0, false, None)
  }

  /** The chat `handleStartDirectChat` prepends for `user`. */
  function NewDirectChat(id: string, me: string, user: User): Chat
  {
    Chat(id, Direct, user.displayName, user.avatar, [me, user.id], None, 0, false, Some(user.isOnline))
  }

  /** The message `handleSendMessage` appends. */
  function NewMessage(id: string, chatId: string, senderId: string, text: string, now: int): Message
  {
    Message(id, chatId, senderId, Trim(text), now, false)
  }

  /** `msg-${Date.now()}` and `chat-${Date.now()}`. */
  function StampedId(prefix: string, now: nat): string
  {
    prefix + NatToDecimal(now)
  }

  /** The state of the messenger page. Clock readings come in as `now`
      (milliseconds since the epoch); the mock seed data comes in through
      the constructor. */
  class Messenger {
    const currentUser: User
    const users: seq<User>
    var chats: seq<Chat>
    var messages: seq<Message>
    var selectedChat: Option<string>
    var showSearch: bool
    var incomingCall: Option<CallIntent>
    var outgoingCall: Option<CallIntent>
    var callDuration: nat

    constructor (currentUser: User, users: seq<User>, chats: seq<Chat>, messages: seq<Message>)
      ensures this.currentUser == currentUser && this.users == users
      ensures this.chats == chats && this.messages == messages
      ensures selectedChat == Some("chat1") && !showSearch
      ensures incomingCall.None? && outgoingCall.None? && callDuration == 0
    {
      this.currentUser := currentUser;
      this.users := users;
      this.chats := chats;
      this.messages := messages;
      selectedChat := Some("chat1");
      showSearch := false;
      incomingCall := None;
      outgoingCall := None;
      callDuration := 0;
    }

    /** `currentChatMessages`. */
    function CurrentChatMessages(): (r: seq<Message>)
      reads this
    {
      MessagesOf(messages, selectedChat)
    }

    /** `handleSendMessage(text)`. */
    method SendMessage(text: string, now: nat)
      modifies this
      ensures !Truthy(old(selectedChat)) || Trim(text) == "" ==>
                chats == old(chats) && messages == old(messages)
      ensures Truthy(old(selectedChat)) && Trim(text) != "" ==>
                var m := NewMessage(StampedId("msg-", now), old(selectedChat).value,
                                    currentUser.id, text, now);
                messages == old(messages) + [m] &&
                chats == SetLastMessage(old(chats), old(selectedChat).value, m)
      ensures Truthy(old(selectedChat)) && Trim(text) != "" ==>
                var m := messages[|messages| - 1];
                |messages| == |old(messages)| + 1 &&
                m.chatId == old(selectedChat).value && m.senderId == currentUser.id &&
                m.text == Trim(text) && m.timestamp == now && !m.isRead
      ensures selectedChat == old(selectedChat) && showSearch == old(showSearch)
      ensures incomingCall == old(incomingCall) && outgoingCall == old(outgoingCall)
      ensures callDuration == old(callDuration)
    {
      if !Truthy(selectedChat) || Trim(text) == "" {
        return;
      }
      var m := NewMessage(StampedId("msg-", now), selectedChat.value, currentUser.id, text, now);
      messages := messages + [m];
      chats := SetLastMessage(chats, selectedChat.value, m);
    }

    /** `handlePinChat(chatId)`. */
    method PinChat(chatId: string)
      modifies this`chats
      ensures chats == TogglePin(old(chats), chatId)
    {
      chats := TogglePin(chats, chatId);
    }

    /** `handleDeleteChat(chatId)`. */
    method DeleteChat(chatId: string)
      modifies this`chats, this`selectedChat
      ensures chats == RemoveChat(old(chats), chatId)
      ensures selectedChat == if old(selectedChat) == Some(chatId) then None else old(selectedChat)
    {
      chats := RemoveChat(chats, chatId);
      if selectedChat == Some(chatId) {
        selectedChat := None;
      }
    }

    /** `handleClearChat(chatId)`. */
    method ClearChat(chatId: string)
      modifies this`chats, this`messages
      ensures messages == RemoveMessagesOf(old(messages), chatId)
      ensures chats == ClearChatMeta(old(chats), chatId)
    {
      messages := RemoveMessagesOf(messages, chatId);
      chats := ClearChatMeta(chats, chatId);
    }

    /** `handleCreateGroup(name, participantIds)`. */
    method CreateGroup(name: string, participantIds: seq<string>, now: nat)
      modifies this`chats
      ensures chats == [NewGroupChat(StampedId("chat-", now), name, currentUser.id, participantIds)] + old(chats)
      ensures chats[1..] == old(chats) && chats[0].kind == Group && chats[0].name == name
      ensures chats[0].participants == [currentUser.id] + participantIds
      ensures chats[0].lastMessage.None? && chats[0].unreadCount == 0 && !chats[0].isPinned
    {
      var c := NewGroupChat(StampedId("chat-", now), name, currentUser.id, participantIds);
      chats := [c] + chats;
    }

    /** `handleStartDirectChat(userId)`. */
    method StartDirectChat(userId: string, now: nat)
      modifies this`chats, this`selectedChat, this`showSearch
      ensures var existing := FindDirectChat(old(chats), userId, currentUser.id);
              var user := FindUser(users, userId);
              if existing.Some? then
                chats == old(chats) && selectedChat == Some(existing.value.id) && !showSearch
              else if user.None? then
                chats == old(chats) && selectedChat == old(selectedChat) && showSearch == old(showSearch)
              else
                var c := NewDirectChat(StampedId("chat-", now), currentUser.id, user.value);
                chats == [c] + old(chats) && selectedChat == Some(c.id) && !showSearch
      ensures FindDirectChat(old(chats), userId, currentUser.id).None? &&
              FindUser(users, userId).Some? ==>
                chats[1..] == old(chats) && IsDirectWith(chats[0], userId, currentUser.id) &&
                chats[0].participants == [currentUser.id, userId] &&
                chats[0].lastMessage.None? && chats[0].unreadCount == 0 && !chats[0].isPinned
    {
      var existing := FindDirectChat(chats, userId, currentUser.id);
      if existing.Some? {
        selectedChat := Some(existing.value.id);
        showSearch := false;
        return;
      }
      var user := FindUser(users, userId);
      if user.None? {
        return;
      }
      var c := NewDirectChat(StampedId("chat-", now), currentUser.id, user.value);
      chats := [c] + chats;
      selectedChat := Some(c.id);
      showSearch := false;
    }

    /** The search dialog's `onClose`. */
    method CloseSearch()
      modifies this`showSearch
      ensures !showSearch
    {
      showSearch := false;
    }

    /** One firing of the one-second interval, which runs only while a call is active. */
    method Tick(isCallActive: bool)
      modifies this`callDuration
      ensures callDuration == if isCallActive then old(callDuration) + 1 else old(callDuration)
    {
      if isCallActive {
        callDuration := callDuration + 1;
      }
    }

    /** The `onCallEnded` callback handed to the call session. */
    method OnCallEnded()
      modifies this`incomingCall, this`outgoingCall, this`callDuration
      ensures incomingCall.None? && outgoingCall.None? && callDuration == 0
    {
      incomingCall := None;
      outgoingCall := None;
      callDuration := 0;
    }
  }

  /** After a reset, `n` ticks of an active call read `n` seconds. */
  method CallTimer(m: Messenger, n: nat)
    modifies m`incomingCall, m`outgoingCall, m`callDuration
    ensures m.callDuration == n
  {
    m.OnCallEnded();
    for k := 0 to n
      invariant m.callDuration == k
    {
      m.Tick(true);
    }
  }
}
