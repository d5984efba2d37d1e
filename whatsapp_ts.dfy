/** The chat registry and auto-reply state machine of the desktop
    application: a map of chats (kept in the insertion order of a JavaScript
    `Map`), the set of chat ids with auto-reply on, the single global
    feedback-loop guard (`isAutoReplying`, `autoReplyingChatId`), the
    conversation store, and the events sent to the user interface. Every
    handler is one sequential step; the LLM reply and the transport's answers
    are inputs. */
module WhatsApp {
  import opened Common
  import Llm

  /** How many of a chat's newest messages the conversation store keeps. */
  const StoreRetention: int := 100

  datatype Chat = Chat(
    id: string,
    name: string,
    isGroup: bool,
    unreadCount: int,
    timestamp: int,
    autoReplyEnabled: bool,
    messages: seq<ChatMessage>,
    lastMessage: Option<ChatMessage>)

  /** What the transport reports about a chat seen for the first time: its
      resolved display name, whether it is a group, its unread count. */
  datatype ChatInfo = ChatInfo(name: string, isGroup: bool, unreadCount: int)

  /** One chat of the transport's chat listing, with its name resolved. */
  datatype ChatListing = ChatListing(
    id: string,
    name: string,
    isGroup: bool,
    unreadCount: int,
    timestamp: int,
    lastMessage: Option<WaMessage>)

  /** What is sent to the user interface. */
  datatype UiEvent = ChatListUpdate(chats: seq<Chat>) | MessageEvent(chatId: string, message: ChatMessage)

  /** A message handed to the transport for sending. */
  datatype Outgoing = Outgoing(chatId: string, text: string)

  /** The application's record of a transport message: never tagged as an
      LLM response, an empty author dropped. */
  function ConvertMessage(m: WaMessage): (c: ChatMessage)
    ensures !c.isLLMResponse
    ensures c.id == m.id && c.body == m.body && c.fromMe == m.fromMe && c.timestamp == m.timestamp
    ensures c.author.Some? <==> Truthy(m.author)
    ensures Truthy(m.author) ==> c.author == m.author
    ensures c.hasMedia == m.hasMedia && c.isForwarded == m.isForwarded && c.isStarred == m.isStarred
  {
    ChatMessage(m.id, m.body, m.fromMe, m.timestamp,
      if Truthy(m.author) then m.author else None,
      m.hasMedia, m.isForwarded, m.isStarred, false)
  }

  /** The chat a message belongs to: the recipient for our own messages,
      the sender otherwise. */
  function ChatKey(m: WaMessage): string
  {
    if m.fromMe then m.to else m.from
  }

  /** The key of a chat's log in the conversation store. */
  function StoreKey(chatId: string): string
  {
    "chat:" + chatId
  }

  /** What the store keeps of a log: its newest `StoreRetention` messages. */
  function SaveWindow(messages: seq<ChatMessage>): seq<ChatMessage>
  {
    if |messages| <= StoreRetention then messages else messages[|messages| - StoreRetention..]
  }

  /** The window is `messages.slice(-100)`: the newest messages, at most
      `StoreRetention` of them, in order. */
  lemma SaveWindowIsSlice(messages: seq<ChatMessage>)
    ensures SaveWindow(messages) == SliceFrom(messages, -StoreRetention)
    ensures |SaveWindow(messages)| == Min(|messages|, StoreRetention)
    ensures SaveWindow(messages) == messages[|messages| - |SaveWindow(messages)|..]
  {
    SliceFromIsSuffix(messages, -StoreRetention);
  }

  /** A chat as `updateChatWithMessage` creates it for an unknown id. */
  function NewChat(chatId: string, info: ChatInfo, m: WaMessage, autoReply: bool): Chat
  {
    Chat(chatId, info.name, info.isGroup, info.unreadCount, m.timestamp, autoReply, [], None)
  }

  /** The registered chat for `m`, or the one created for it. */
  function ChatOrNew(chats: map<string, Chat>, autoReplyChatIds: set<string>, m: WaMessage, info: ChatInfo): Chat
  {
    var chatId := ChatKey(m);
    if chatId in chats then chats[chatId] else NewChat(chatId, info, m, chatId in autoReplyChatIds)
  }

  /** A chat after one more message. */
  function WithMessage(chat: Chat, m: WaMessage): Chat
  {
    var message := ConvertMessage(m);
    chat.(timestamp := m.timestamp,
          unreadCount := if m.fromMe then chat.unreadCount else chat.unreadCount + 1,
          messages := chat.messages + [message],
          lastMessage := Some(message))
  }

  /** The message is appended at the end of the log and becomes the last
      message, the timestamp moves to the message's, the unread count rises
      for others' messages only, and the chat's identity is unchanged. */
  lemma WithMessageAppends(chat: Chat, m: WaMessage)
    ensures var c := WithMessage(chat, m);
      |c.messages| == |chat.messages| + 1 && c.messages[..|chat.messages|] == chat.messages &&
      c.messages[|chat.messages|] == ConvertMessage(m) &&
      c.lastMessage == Some(c.messages[|chat.messages|]) &&
      c.unreadCount == (if m.fromMe then chat.unreadCount else chat.unreadCount + 1) &&
      c.timestamp == m.timestamp &&
      c.id == chat.id && c.name == chat.name && c.isGroup == chat.isGroup && c.autoReplyEnabled == chat.autoReplyEnabled
  {
    assert (chat.messages + [ConvertMessage(m)])[..|chat.messages|] == chat.messages;
  }

  /** A chat whose last message is tagged as an LLM response; the chat's
      `lastMessage` is the same object in the source, so it is tagged too. */
  function TagLast(chat: Chat): Chat
    requires |chat.messages| > 0
  {
    var n := |chat.messages| - 1;
    var tagged := chat.messages[n].(isLLMResponse := true);
    chat.(messages := chat.messages[..n] + [tagged], lastMessage := Some(tagged))
  }

  /** Tagging changes the newest message's tag and nothing else, and leaves
      the chat's `lastMessage` pointing at the tagged message. */
  lemma TagLastOnlyTags(chat: Chat)
    requires |chat.messages| > 0
    ensures var c := TagLast(chat);
      |c.messages| == |chat.messages| &&
      c.messages[..|c.messages| - 1] == chat.messages[..|chat.messages| - 1] &&
      c.messages[|c.messages| - 1] == chat.messages[|chat.messages| - 1].(isLLMResponse := true) &&
      c.lastMessage == Some(c.messages[|c.messages| - 1]) &&
      c.(messages := chat.messages, lastMessage := chat.lastMessage) == chat
  {
    var n := |chat.messages| - 1;
    assert (chat.messages[..n] + [chat.messages[n].(isLLMResponse := true)])[..n] == chat.messages[..n];
  }

  /** Whether an inbound message is answered automatically. */
  predicate ShouldAutoReply(autoReplyChatIds: set<string>, autoReplyToAll: bool, m: WaMessage)
  {
    !m.isStatus && (m.from in autoReplyChatIds || autoReplyToAll) && !m.fromMe
  }

  /** The registry and the auto-reply set agree: every chat is stored under
      its own id and is marked auto-reply exactly when its id is in the set. */
  ghost predicate InStep(chats: map<string, Chat>, autoReplyChatIds: set<string>)
  {
    forall id {:trigger chats[id]} :: id in chats ==> chats[id].id == id && (chats[id].autoReplyEnabled <==> id in autoReplyChatIds)
  }

  /** `chatOrder` is the insertion order of the registry's keys. */
  ghost predicate OrderMatches(chats: map<string, Chat>, chatOrder: seq<string>)
  {
    (forall i, j :: 0 <= i < j < |chatOrder| ==> chatOrder[i] != chatOrder[j]) &&
    (forall id :: id in chats ==> id in chatOrder) &&
    (forall i :: 0 <= i < |chatOrder| ==> chatOrder[i] in chats)
  }

  /** Only messages we sent ourselves carry the LLM-response tag. */
  ghost predicate OwnTagsOnly(messages: seq<ChatMessage>)
  {
    forall i :: 0 <= i < |messages| ==> messages[i].isLLMResponse ==> messages[i].fromMe
  }

  ghost predicate ChatTagsOk(chat: Chat)
  {
    OwnTagsOnly(chat.messages) &&
    (chat.lastMessage.Some? && chat.lastMessage.value.isLLMResponse ==> chat.lastMessage.value.fromMe)
  }

  ghost predicate StoreTagsOk(store: map<string, seq<ChatMessage>>)
  {
    forall k {:trigger store[k]} :: k in store ==> OwnTagsOnly(store[k])
  }

  /** Saving a log whose tags are on our own messages keeps the store's
      tags on our own messages. */
  lemma SaveKeepsTags(store: map<string, seq<ChatMessage>>, chatId: string, messages: seq<ChatMessage>)
    requires StoreTagsOk(store) && OwnTagsOnly(messages)
    ensures StoreTagsOk(store[StoreKey(chatId) := SaveWindow(messages)])
  {
    var w := SaveWindow(messages);
    var k := |messages| - |w|;
    forall i | 0 <= i < |w|
      ensures w[i].isLLMResponse ==> w[i].fromMe
    {
      assert w[i] == messages[k + i];
    }
  }

  ghost predicate AllTagsOk(chats: map<string, Chat>)
  {
    forall id {:trigger chats[id]} :: id in chats ==> ChatTagsOk(chats[id])
  }

  /** The registry invariant: chats in step with the auto-reply set, the
      exact key order, tags on our own messages only. */
  ghost predicate Registry(chats: map<string, Chat>, chatOrder: seq<string>, autoReplyChatIds: set<string>)
  {
    InStep(chats, autoReplyChatIds) && OrderMatches(chats, chatOrder) && AllTagsOk(chats)
  }

  /** The registry after `m` is recorded. */
  function Recorded(chats: map<string, Chat>, autoReplyChatIds: set<string>, m: WaMessage, info: ChatInfo): map<string, Chat>
  {
    chats[ChatKey(m) := WithMessage(ChatOrNew(chats, autoReplyChatIds, m, info), m)]
  }

  /** The key order after `m` is recorded: a new chat goes last. */
  function RecordedOrder(chats: map<string, Chat>, chatOrder: seq<string>, m: WaMessage): seq<string>
  {
    if ChatKey(m) in chats then chatOrder else chatOrder + [ChatKey(m)]
  }

  /** Recording a message keeps the registry in step with the auto-reply
      set, the key order exact and the tags on our own messages only. */
  lemma RecordedKeepsInvariant(chats: map<string, Chat>, chatOrder: seq<string>, autoReplyChatIds: set<string>,
                               m: WaMessage, info: ChatInfo)
    requires Registry(chats, chatOrder, autoReplyChatIds)
    ensures Registry(Recorded(chats, autoReplyChatIds, m, info), RecordedOrder(chats, chatOrder, m), autoReplyChatIds)
    ensures ChatTagsOk(Recorded(chats, autoReplyChatIds, m, info)[ChatKey(m)])
  {
    var key := ChatKey(m);
    var before := ChatOrNew(chats, autoReplyChatIds, m, info);
    var after := WithMessage(before, m);
    WithMessageAppends(before, m);
    assert ChatTagsOk(before);
    forall i | 0 <= i < |after.messages| && after.messages[i].isLLMResponse
      ensures after.messages[i].fromMe
    {
      if i < |before.messages| {
        assert after.messages[i] == after.messages[..|before.messages|][i];
      }
    }
    var order := RecordedOrder(chats, chatOrder, m);
    if key !in chats {
      forall i, j | 0 <= i < j < |order|
        ensures order[i] != order[j]
      {
        if j == |chatOrder| {
          assert order[i] == chatOrder[i];
        }
      }
    }
  }

  /** After recording, the message's chat exists and its log ends with the
      message; every other chat is as it was, and no other chat appears. */
  lemma RecordedEndsWith(chats: map<string, Chat>, autoReplyChatIds: set<string>, m: WaMessage, info: ChatInfo)
    ensures ChatKey(m) in Recorded(chats, autoReplyChatIds, m, info)
    ensures var log := Recorded(chats, autoReplyChatIds, m, info)[ChatKey(m)].messages;
      |log| > 0 && log[|log| - 1] == ConvertMessage(m)
    ensures Recorded(chats, autoReplyChatIds, m, info).Keys == chats.Keys + {ChatKey(m)}
    ensures forall id :: id in chats && id != ChatKey(m) ==> Recorded(chats, autoReplyChatIds, m, info)[id] == chats[id]
  {
  }

  /** Tagging the newest message of a chat keeps the tags on our own
      messages when that message is ours. */
  lemma TagLastKeepsTags(chat: Chat)
    requires |chat.messages| > 0 && ChatTagsOk(chat) && chat.messages[|chat.messages| - 1].fromMe
    ensures ChatTagsOk(TagLast(chat))
  {
    var c := TagLast(chat);
    var n := |chat.messages| - 1;
    TagLastOnlyTags(chat);
    forall i | 0 <= i < |c.messages| && c.messages[i].isLLMResponse
      ensures c.messages[i].fromMe
    {
      if i < n {
        assert c.messages[i] == c.messages[..n][i] && chat.messages[i] == chat.messages[..n][i];
      }
    }
  }

  /** A second store under one key replaces the first. */
  lemma OverwriteTwice<K, V>(m: map<K, V>, k: K, a: V, b: V)
    ensures m[k := a][k := b] == m[k := b]
  {
  }

  /** Changing one chat's fields other than its id and auto-reply flag
      keeps the registry invariant. */
  lemma ReplaceKeepsInvariant(chats: map<string, Chat>, chatOrder: seq<string>, autoReplyChatIds: set<string>, chat: Chat)
    requires Registry(chats, chatOrder, autoReplyChatIds)
    requires chat.id in chats && chats[chat.id].autoReplyEnabled == chat.autoReplyEnabled && ChatTagsOk(chat)
    ensures Registry(chats[chat.id := chat], chatOrder, autoReplyChatIds)
  {
  }

  /** The registry's chats in `Map` insertion order. */
  function MapValues(chats: map<string, Chat>, chatOrder: seq<string>): (r: seq<Chat>)
    ensures |r| <= |chatOrder|
  {
    if |chatOrder| == 0 then []
    else (if chatOrder[0] in chats then [chats[chatOrder[0]]] else []) + MapValues(chats, chatOrder[1..])
  }

  lemma {:induction false} MapValuesComplete(chats: map<string, Chat>, chatOrder: seq<string>)
    requires forall i :: 0 <= i < |chatOrder| ==> chatOrder[i] in chats
    ensures |MapValues(chats, chatOrder)| == |chatOrder|
    ensures forall i :: 0 <= i < |chatOrder| ==> chats[chatOrder[i]] in MapValues(chats, chatOrder)
    // position by position, in key order
    ensures forall i :: 0 <= i < |chatOrder| ==> MapValues(chats, chatOrder)[i] == chats[chatOrder[i]]
  {
    if |chatOrder| > 0 {
      MapValuesComplete(chats, chatOrder[1..]);
      var r := MapValues(chats, chatOrder);
      assert r == [chats[chatOrder[0]]] + MapValues(chats, chatOrder[1..]);
      forall i | 0 < i < |chatOrder|
        ensures r[i] == chats[chatOrder[i]]
      {
        assert chatOrder[i] == chatOrder[1..][i - 1];
        assert r[i] == MapValues(chats, chatOrder[1..])[i - 1];
      }
    }
  }

  /** Newest first: timestamps never increase along the list. */
  ghost predicate NewestFirst(chats: seq<Chat>)
  {
    forall i, j :: 0 <= i < j < |chats| ==> chats[i].timestamp >= chats[j].timestamp
  }

  /** Puts `c` in front of the first chat that is not newer, so that of two
      chats with one timestamp the earlier one stays first. */
  function Insert(c: Chat, sorted: seq<Chat>): seq<Chat>
  {
    if |sorted| == 0 || c.timestamp >= sorted[0].timestamp then [c] + sorted
    else [sorted[0]] + Insert(c, sorted[1..])
  }

  lemma {:induction false} InsertPermutes(c: Chat, sorted: seq<Chat>)
    ensures |Insert(c, sorted)| == |sorted| + 1
    ensures multiset(Insert(c, sorted)) == multiset(sorted) + multiset{c}
  {
    if |sorted| > 0 && c.timestamp < sorted[0].timestamp {
      InsertPermutes(c, sorted[1..]);
      assert sorted == [sorted[0]] + sorted[1..];
    }
  }

  lemma {:induction false} InsertNewestFirst(c: Chat, sorted: seq<Chat>)
    requires NewestFirst(sorted)
    ensures NewestFirst(Insert(c, sorted))
    ensures Insert(c, sorted)[0] == c || Insert(c, sorted)[0] == sorted[0]
  {
    if |sorted| == 0 || c.timestamp >= sorted[0].timestamp {
    } else {
      var rest := Insert(c, sorted[1..]);
      InsertNewestFirst(c, sorted[1..]);
      InsertPermutes(c, sorted[1..]);
      assert rest[0].timestamp <= sorted[0].timestamp;
      var r := [sorted[0]] + rest;
      forall i, j | 0 <= i < j < |r|
        ensures r[i].timestamp >= r[j].timestamp
      {
        if i > 0 {
          assert r[i] == rest[i - 1] && r[j] == rest[j - 1];
        } else if j > 1 {
          assert rest[0].timestamp >= rest[j - 1].timestamp;
        }
      }
    }
  }

  /** The stable sort by `(b.timestamp || 0) - (a.timestamp || 0)`. */
  function SortNewestFirst(chats: seq<Chat>): seq<Chat>
  {
    if |chats| == 0 then [] else Insert(chats[0], SortNewestFirst(chats[1..]))
  }

  lemma {:induction false} SortNewestFirstSorts(chats: seq<Chat>)
    ensures NewestFirst(SortNewestFirst(chats))
    ensures multiset(SortNewestFirst(chats)) == multiset(chats)
    ensures |SortNewestFirst(chats)| == |chats|
  {
    if |chats| > 0 {
      assert chats == [chats[0]] + chats[1..];
      var rest := SortNewestFirst(chats[1..]);
      SortNewestFirstSorts(chats[1..]);
      InsertNewestFirst(chats[0], rest);
      InsertPermutes(chats[0], rest);
    }
  }

  /** The list `sendChatListUpdate` emits. */
  function ChatList(chats: map<string, Chat>, chatOrder: seq<string>): seq<Chat>
  {
    SortNewestFirst(MapValues(chats, chatOrder))
  }

  /** The emitted list is sorted newest first and holds every registered
      chat, each once. */
  lemma ChatListComplete(chats: map<string, Chat>, chatOrder: seq<string>)
    requires OrderMatches(chats, chatOrder)
    ensures NewestFirst(ChatList(chats, chatOrder))
    ensures |ChatList(chats, chatOrder)| == |chatOrder|
    ensures forall id :: id in chats ==> chats[id] in ChatList(chats, chatOrder)
  {
    MapValuesComplete(chats, chatOrder);
    var values := MapValues(chats, chatOrder);
    SortNewestFirstSorts(values);
    forall id | id in chats
      ensures chats[id] in ChatList(chats, chatOrder)
    {
      var i :| 0 <= i < |chatOrder| && chatOrder[i] == id;
      assert chats[chatOrder[i]] in values;
      assert chats[id] in multiset(values);
    }
  }

  /** With the registry in step, the auto-reply decision of a known chat can
      be read off the chat itself. */
  lemma DecisionFromChat(chats: map<string, Chat>, autoReplyChatIds: set<string>, autoReplyToAll: bool, m: WaMessage)
    requires InStep(chats, autoReplyChatIds) && m.from in chats
    ensures ShouldAutoReply(autoReplyChatIds, autoReplyToAll, m) <==>
      !m.isStatus && (chats[m.from].autoReplyEnabled || autoReplyToAll) && !m.fromMe
  {
  }


  /** A chat as `loadChats` builds it from the listing and the store. */
  function FromListing(listed: ChatListing, autoReply: bool, store: map<string, seq<ChatMessage>>): Chat
  {
    Chat(listed.id, listed.name, listed.isGroup, listed.unreadCount, listed.timestamp, autoReply,
      if StoreKey(listed.id) in store then store[StoreKey(listed.id)] else [],
      if listed.lastMessage.Some? then Some(ConvertMessage(listed.lastMessage.value)) else None)
  }

  /** The registry after `loadChats` has set every listed chat in turn: a
      chat listed twice ends up as its last listing, a new id goes last in
      the key order. */
  function LoadAll(chats: map<string, Chat>, chatOrder: seq<string>, autoReplyChatIds: set<string>,
                   store: map<string, seq<ChatMessage>>, listing: seq<ChatListing>): (map<string, Chat>, seq<string>)
  {
    if |listing| == 0 then (chats, chatOrder)
    else
      var before := LoadAll(chats, chatOrder, autoReplyChatIds, store, listing[..|listing| - 1]);
      var listed := listing[|listing| - 1];
      (before.0[listed.id := FromListing(listed, listed.id in autoReplyChatIds, store)],
       if listed.id in before.0 then before.1 else before.1 + [listed.id])
  }

  /** Loading keeps the registry invariant when the store's tags are on our
      own messages. */
  lemma {:induction false} LoadAllKeepsRegistry(chats: map<string, Chat>, chatOrder: seq<string>, autoReplyChatIds: set<string>,
                                                store: map<string, seq<ChatMessage>>, listing: seq<ChatListing>)
    requires Registry(chats, chatOrder, autoReplyChatIds) && StoreTagsOk(store)
    ensures var r := LoadAll(chats, chatOrder, autoReplyChatIds, store, listing); Registry(r.0, r.1, autoReplyChatIds)
  {
    if |listing| > 0 {
      var before := LoadAll(chats, chatOrder, autoReplyChatIds, store, listing[..|listing| - 1]);
      LoadAllKeepsRegistry(chats, chatOrder, autoReplyChatIds, store, listing[..|listing| - 1]);
      var listed := listing[|listing| - 1];
      var order := if listed.id in before.0 then before.1 else before.1 + [listed.id];
      if listed.id !in before.0 {
        forall i, j | 0 <= i < j < |order|
          ensures order[i] != order[j]
        {
          if j == |before.1| {
            assert order[i] == before.1[i];
          }
        }
      }
    }
  }

  /** The last listing of an id decides its chat. */
  lemma {:induction false} LoadAllLastListingWins(chats: map<string, Chat>, chatOrder: seq<string>, autoReplyChatIds: set<string>,
                                                  store: map<string, seq<ChatMessage>>, listing: seq<ChatListing>)
    ensures var r := LoadAll(chats, chatOrder, autoReplyChatIds, store, listing);
      forall i :: 0 <= i < |listing| && (forall j :: i < j < |listing| ==> listing[j].id != listing[i].id) ==>
        listing[i].id in r.0 && r.0[listing[i].id] == FromListing(listing[i], listing[i].id in autoReplyChatIds, store)
  {
    if |listing| > 0 {
      var prefix := listing[..|listing| - 1];
      var before := LoadAll(chats, chatOrder, autoReplyChatIds, store, prefix);
      var last := listing[|listing| - 1];
      var after := before.0[last.id := FromListing(last, last.id in autoReplyChatIds, store)];
      assert LoadAll(chats, chatOrder, autoReplyChatIds, store, listing).0 == after;
      LoadAllLastListingWins(chats, chatOrder, autoReplyChatIds, store, prefix);
      forall i | 0 <= i < |listing| && (forall j :: i < j < |listing| ==> listing[j].id != listing[i].id)
        ensures listing[i].id in after && after[listing[i].id] == FromListing(listing[i], listing[i].id in autoReplyChatIds, store)
      {
        if i < |prefix| {
          assert listing[i] == prefix[i];
          assert forall j :: i < j < |prefix| ==> prefix[j].id != prefix[i].id by {
            forall j | i < j < |prefix|
              ensures prefix[j].id != prefix[i].id
            {
              assert prefix[j] == listing[j];
            }
          }
          assert before.0[prefix[i].id] == FromListing(prefix[i], prefix[i].id in autoReplyChatIds, store);
          // the last entry is a later one, so it names another chat
          assert listing[i].id != last.id;
        }
      }
    }
  }

  /** After loading, every listed chat is registered, the last listing of
      an id decides its chat, and a chat not listed is left as it was. */
  lemma {:induction false} LoadAllContents(chats: map<string, Chat>, chatOrder: seq<string>, autoReplyChatIds: set<string>,
                                           store: map<string, seq<ChatMessage>>, listing: seq<ChatListing>)
    ensures var r := LoadAll(chats, chatOrder, autoReplyChatIds, store, listing);
      (forall i :: 0 <= i < |listing| ==> listing[i].id in r.0) &&
      (forall i :: 0 <= i < |listing| && (forall j :: i < j < |listing| ==> listing[j].id != listing[i].id) ==>
        r.0[listing[i].id] == FromListing(listing[i], listing[i].id in autoReplyChatIds, store)) &&
      (forall id :: id in chats && (forall i :: 0 <= i < |listing| ==> listing[i].id != id) ==> id in r.0 && r.0[id] == chats[id]) &&
      (forall id :: id in r.0 ==> id in chats || exists i :: 0 <= i < |listing| && listing[i].id == id)
  {
    if |listing| > 0 {
      var prefix := listing[..|listing| - 1];
      LoadAllContents(chats, chatOrder, autoReplyChatIds, store, prefix);
      forall id | id in chats && (forall i :: 0 <= i < |listing| ==> listing[i].id != id)
        ensures forall i :: 0 <= i < |prefix| ==> prefix[i].id != id
      {
        forall i | 0 <= i < |prefix|
          ensures prefix[i].id != id
        {
          assert prefix[i] == listing[i];
        }
      }
      forall id | id in LoadAll(chats, chatOrder, autoReplyChatIds, store, prefix).0 && id !in chats
        ensures exists i :: 0 <= i < |listing| && listing[i].id == id
      {
        var i :| 0 <= i < |prefix| && prefix[i].id == id;
        assert listing[i] == prefix[i];
      }
      forall i | 0 <= i < |prefix|
        ensures listing[i].id in LoadAll(chats, chatOrder, autoReplyChatIds, store, prefix).0
      {
        assert listing[i] == prefix[i];
      }
    }
    LoadAllLastListingWins(chats, chatOrder, autoReplyChatIds, store, listing);
  }

  /** With a non-negative history length, the prompt of a chat whose newest
      message is an incoming one ends with that message as a user turn. */
  lemma PromptEndsWithIncoming(s: Llm.LLMSettings, messages: seq<ChatMessage>, m: WaMessage)
    requires s.maxHistoryLength >= 0
    requires |messages| > 0 && messages[|messages| - 1] == ConvertMessage(m) && !m.fromMe
    ensures var p := Llm.PrepareMessagesForLLM(s, messages); p[|p| - 1] == LLMMessage(User, m.body)
  {
    var p := Llm.PrepareMessagesForLLM(s, messages);
    var k := |p| - 1;
    var tail := messages[|messages| - k..];
    assert 1 <= k <= |messages| && p[1..] == Llm.ToTurns(tail) by {
      Llm.PromptIsNewestTurns(s, messages);
      Llm.PromptLength(s, messages);
    }
    var turns := Llm.ToTurns(tail);
    assert turns[k - 1] == LLMMessage(User, m.body) by {
      assert tail[k - 1] == ConvertMessage(m);
    }
    assert p[|p| - 1] == p[1..][k - 1];
  }

  /** The prompt built for a chat right after an incoming message was
      recorded in it ends with that message as a user turn. */
  lemma IncomingPromptEnds(s: Llm.LLMSettings, chats: map<string, Chat>, autoReplyChatIds: set<string>,
                           m: WaMessage, info: ChatInfo)
    requires s.maxHistoryLength >= 0 && !m.fromMe
    ensures m.from in Recorded(chats, autoReplyChatIds, m, info)
    ensures var p := Llm.PrepareMessagesForLLM(s, Recorded(chats, autoReplyChatIds, m, info)[m.from].messages);
      p[|p| - 1] == LLMMessage(User, m.body)
  {
    var chat := Recorded(chats, autoReplyChatIds, m, info)[m.from];
    PromptEndsWithIncoming(s, chat.messages, m);
  }

  /** Turning auto-reply on or off for an id keeps the registry in step with
      the set. */
  lemma ToggleKeepsRegistry(chats: map<string, Chat>, chatOrder: seq<string>, autoReplyChatIds: set<string>,
                            chatId: string, enabled: bool)
    requires Registry(chats, chatOrder, autoReplyChatIds)
    ensures var ids := if enabled then autoReplyChatIds + {chatId} else autoReplyChatIds - {chatId};
      var updated := if chatId in chats then chats[chatId := chats[chatId].(autoReplyEnabled := enabled)] else chats;
      Registry(updated, chatOrder, ids)
  {
  }

  /** The main process's WhatsApp state. `clientReady` says whether the
      transport client exists. */
  class WhatsAppService {
    var clientReady: bool
    var chats: map<string, Chat>
    var chatOrder: seq<string>
    var autoReplyChatIds: set<string>
    var isAutoReplying: bool
    var autoReplyingChatId: Option<string>
    var conversationStore: map<string, seq<ChatMessage>>
    var uiEvents: seq<UiEvent>
    var outbound: seq<Outgoing>

    ghost predicate Valid()
      reads this
    {
      Registry(chats, chatOrder, autoReplyChatIds) &&
      (isAutoReplying <==> autoReplyingChatId.Some?) &&
      StoreTagsOk(conversationStore)
    }

    /** The state after `initWhatsApp`, over the conversations saved earlier. */
    constructor(saved: map<string, seq<ChatMessage>>)
      requires StoreTagsOk(saved)
      ensures Valid()
      ensures clientReady && chats == map[] && chatOrder == [] && autoReplyChatIds == {}
      ensures !isAutoReplying && autoReplyingChatId == None
      ensures conversationStore == saved && uiEvents == [] && outbound == []
    {
      clientReady := true;
      chats := map[];
      chatOrder := [];
      autoReplyChatIds := {};
      isAutoReplying := false;
      autoReplyingChatId := None;
      conversationStore := saved;
      uiEvents := [];
      outbound := [];
    }

    /** `sendMessage(chatId, text)`: without a client nothing is sent;
        otherwise the transport's answer decides the result. */
    method SendMessage(chatId: string, text: string, transportOk: bool) returns (ok: bool)
      modifies this`outbound
      ensures ok == (clientReady && transportOk)
      ensures outbound == old(outbound) + (if clientReady then [Outgoing(chatId, text)] else [])
    {
      if !clientReady {
        return false;
      }
      outbound := outbound + [Outgoing(chatId, text)];
      ok := transportOk;
    }

    /** `loadChats`: registers every listed chat with its saved messages,
        then emits the chat list; nothing happens without a client. */
    method LoadChats(listing: seq<ChatListing>)
      requires Valid()
      modifies this
      ensures Valid()
      ensures !old(clientReady) ==> chats == old(chats) && chatOrder == old(chatOrder) && uiEvents == old(uiEvents)
      ensures old(clientReady) ==>
        (chats, chatOrder) == LoadAll(old(chats), old(chatOrder), autoReplyChatIds, conversationStore, listing) &&
        uiEvents == old(uiEvents) + [ChatListUpdate(ChatList(chats, chatOrder))]
      ensures autoReplyChatIds == old(autoReplyChatIds) && conversationStore == old(conversationStore)
      ensures isAutoReplying == old(isAutoReplying) && autoReplyingChatId == old(autoReplyingChatId)
      ensures outbound == old(outbound) && clientReady == old(clientReady)
    {
      if !clientReady {
        return;
      }
      LoadAllKeepsRegistry(chats, chatOrder, autoReplyChatIds, conversationStore, listing);
      for k := 0 to |listing|
        invariant (chats, chatOrder) == LoadAll(old(chats), old(chatOrder), autoReplyChatIds, conversationStore, listing[..k])
        invariant autoReplyChatIds == old(autoReplyChatIds) && conversationStore == old(conversationStore)
        invariant isAutoReplying == old(isAutoReplying) && autoReplyingChatId == old(autoReplyingChatId)
        invariant outbound == old(outbound) && uiEvents == old(uiEvents) && clientReady == old(clientReady)
      {
        var listed := listing[k];
        assert listing[..k + 1][..k] == listing[..k];
        if listed.id !in chats {
          chatOrder := chatOrder + [listed.id];
        }
        chats := chats[listed.id := FromListing(listed, listed.id in autoReplyChatIds, conversationStore)];
      }
      assert listing[..|listing|] == listing;
      uiEvents := uiEvents + [ChatListUpdate(ChatList(chats, chatOrder))];
    }

    /** `updateChatWithMessage`: get or create the chat, append the message,
        save the log, emit the chat list. */
    method UpdateChatWithMessage(m: WaMessage, info: ChatInfo)
      requires Valid()
      modifies this
      ensures Valid()
      ensures chats == Recorded(old(chats), old(autoReplyChatIds), m, info)
      ensures chatOrder == RecordedOrder(old(chats), old(chatOrder), m)
      ensures conversationStore == old(conversationStore)[StoreKey(ChatKey(m)) := SaveWindow(chats[ChatKey(m)].messages)]
      ensures uiEvents == old(uiEvents) + [ChatListUpdate(ChatList(chats, chatOrder))]
      ensures autoReplyChatIds == old(autoReplyChatIds)
      ensures isAutoReplying == old(isAutoReplying) && autoReplyingChatId == old(autoReplyingChatId)
      ensures outbound == old(outbound) && clientReady == old(clientReady)
    {
      var chatId := ChatKey(m);
      RecordedKeepsInvariant(chats, chatOrder, autoReplyChatIds, m, info);
      chatOrder := RecordedOrder(chats, chatOrder, m);
      chats := Recorded(chats, autoReplyChatIds, m, info);
      SaveKeepsTags(conversationStore, chatId, chats[chatId].messages);
      conversationStore := conversationStore[StoreKey(chatId) := SaveWindow(chats[chatId].messages)];
      uiEvents := uiEvents + [ChatListUpdate(ChatList(chats, chatOrder))];
    }

    /** `generateAndSendAutoReply`: raise the guard for the sender's chat,
        generate, then clear the guard on a null reply or send the reply.
        Returns whether a generation ran, the request made and the reply. */
    method GenerateAndSendAutoReply(m: WaMessage, llm: Llm.LlmModule, reply: RawReply, transportOk: bool)
      returns (generated: bool, request: Option<Llm.Request>, replyText: Option<string>)
      requires Valid()
      modifies this
      ensures Valid()
      // an unknown chat: nothing happens, the guard included
      ensures m.from !in chats ==>
        !generated && request == None && replyText == None &&
        isAutoReplying == old(isAutoReplying) && autoReplyingChatId == old(autoReplyingChatId) &&
        outbound == old(outbound)
      ensures m.from in chats ==> generated
      ensures request.Some? ==>
        llm.llmSettings.Some? &&
        request.value.messages == Llm.PrepareMessagesForLLM(llm.llmSettings.value, chats[m.from].messages)
      // a configuration error still yields a reply: the fixed fallback
      ensures generated && request.None? ==> replyText == Some(Llm.FallbackReply)
      // the reply is the model's answer to the backend's reply
      ensures generated ==> replyText == Llm.ResponseFor(llm.llmSettings, llm.openaiClient, reply)
      // the prompt goes to the backend exactly when the module is configured to reach one
      ensures generated ==>
        (request.Some? <==> llm.llmSettings.Some? && Llm.SendsRequest(llm.llmSettings.value, llm.openaiClient))
      // a null reply clears the guard and sends nothing
      ensures generated && replyText.None? ==>
        !isAutoReplying && autoReplyingChatId == None && outbound == old(outbound)
      // a reply is sent and the guard stays raised for the chat, whether or not the send succeeded
      ensures replyText.Some? ==>
        isAutoReplying && autoReplyingChatId == Some(m.from) &&
        outbound == old(outbound) + (if clientReady then [Outgoing(m.from, replyText.value)] else [])
      ensures chats == old(chats) && chatOrder == old(chatOrder) && autoReplyChatIds == old(autoReplyChatIds)
      ensures conversationStore == old(conversationStore) && uiEvents == old(uiEvents) && clientReady == old(clientReady)
    {
      var chatId := m.from;
      if chatId !in chats {
        return false, None, None;
      }
      var chatMessages := chats[chatId].messages;
      isAutoReplying := true;
      autoReplyingChatId := Some(chatId);
      var response;
      response, request := llm.GenerateLLMResponse(chatMessages, reply);
      if response.None? {
        isAutoReplying := false;
        autoReplyingChatId := None;
        return true, request, None;
      }
      var _ := SendMessage(chatId, response.value, transportOk);
      return true, request, response;
    }

    /** The `message` handler (`handleIncomingMessage`). */
    method HandleIncomingMessage(m: WaMessage, info: ChatInfo, autoReplyToAll: bool,
                                 llm: Llm.LlmModule, reply: RawReply, transportOk: bool)
      returns (generated: bool, request: Option<Llm.Request>, replyText: Option<string>)
      requires Valid()
      modifies this
      ensures Valid()
      // status messages are ignored entirely
      ensures m.isStatus ==>
        !generated && chats == old(chats) && chatOrder == old(chatOrder) &&
        conversationStore == old(conversationStore) && uiEvents == old(uiEvents) && outbound == old(outbound) &&
        isAutoReplying == old(isAutoReplying) && autoReplyingChatId == old(autoReplyingChatId)
      ensures !m.isStatus ==>
        chats == Recorded(old(chats), old(autoReplyChatIds), m, info) &&
        chatOrder == RecordedOrder(old(chats), old(chatOrder), m) &&
        conversationStore == old(conversationStore)[StoreKey(ChatKey(m)) := SaveWindow(chats[ChatKey(m)].messages)] &&
        uiEvents == old(uiEvents) + [ChatListUpdate(ChatList(chats, chatOrder)), MessageEvent(m.from, ConvertMessage(m))]
      // a generation runs exactly when the chat or the global switch asks for it
      ensures generated <==> ShouldAutoReply(old(autoReplyChatIds), autoReplyToAll, m)
      ensures !generated ==>
        isAutoReplying == old(isAutoReplying) && autoReplyingChatId == old(autoReplyingChatId) &&
        request == None && replyText == None && outbound == old(outbound)
      ensures generated ==> (isAutoReplying <==> replyText.Some?)
      // the reply sent is the model's answer to the backend's reply
      ensures generated ==> replyText == Llm.ResponseFor(llm.llmSettings, llm.openaiClient, reply)
      // the prompt goes to the backend exactly when the module is configured to reach one
      ensures generated ==>
        (request.Some? <==> llm.llmSettings.Some? && Llm.SendsRequest(llm.llmSettings.value, llm.openaiClient))
      ensures generated && replyText.Some? ==>
        autoReplyingChatId == Some(m.from) &&
        outbound == old(outbound) + (if clientReady then [Outgoing(m.from, replyText.value)] else [])
      ensures generated && replyText.None? ==> autoReplyingChatId == None && outbound == old(outbound)
      // the prompt is built from the chat's log, which now ends with the message
      ensures generated && request.Some? ==>
        llm.llmSettings.Some? && m.from in chats &&
        request.value.messages == Llm.PrepareMessagesForLLM(llm.llmSettings.value, chats[m.from].messages)
      ensures autoReplyChatIds == old(autoReplyChatIds) && clientReady == old(clientReady)
    {
      if m.isStatus {
        return false, None, None;
      }
      var chatMessage := ConvertMessage(m);
      UpdateChatWithMessage(m, info);
      uiEvents := uiEvents + [MessageEvent(m.from, chatMessage)];
      var shouldAutoReply := (m.from in autoReplyChatIds || autoReplyToAll) && !m.fromMe;
      if shouldAutoReply {
        generated, request, replyText := GenerateAndSendAutoReply(m, llm, reply, transportOk);
      } else {
        generated, request, replyText := false, None, None;
      }
    }

    /** Tags the newest message of `chatId` as the LLM response, saves the
        log and lowers the guard. */
    method TagEcho(chatId: string)
      requires Valid() && chatId in chats && |chats[chatId].messages| > 0
      requires chats[chatId].messages[|chats[chatId].messages| - 1].fromMe
      modifies this
      ensures Valid()
      ensures chats == old(chats)[chatId := TagLast(old(chats)[chatId])]
      ensures conversationStore == old(conversationStore)[StoreKey(chatId) := SaveWindow(chats[chatId].messages)]
      ensures !isAutoReplying && autoReplyingChatId == None
      ensures chatOrder == old(chatOrder) && autoReplyChatIds == old(autoReplyChatIds)
      ensures uiEvents == old(uiEvents) && outbound == old(outbound) && clientReady == old(clientReady)
    {
      var chat := chats[chatId];
      TagLastKeepsTags(chat);
      TagLastOnlyTags(chat);
      chat := TagLast(chat);
      ReplaceKeepsInvariant(chats, chatOrder, autoReplyChatIds, chat);
      chats := chats[chatId := chat];
      SaveKeepsTags(conversationStore, chatId, chat.messages);
      conversationStore := conversationStore[StoreKey(chatId) := SaveWindow(chat.messages)];
      isAutoReplying := false;
      autoReplyingChatId := None;
    }

    /** The `message_create` handler: our own messages are recorded and, when
        the guard is raised for this chat, the newest one is tagged as the
        LLM response and the guard is lowered. */
    method OnMessageCreate(m: WaMessage, info: ChatInfo) returns (tagged: bool)
      requires Valid()
      modifies this
      ensures Valid()
      ensures !m.fromMe ==>
        !tagged && chats == old(chats) && chatOrder == old(chatOrder) && conversationStore == old(conversationStore) &&
        uiEvents == old(uiEvents) && isAutoReplying == old(isAutoReplying) && autoReplyingChatId == old(autoReplyingChatId)
      // only the chat the guard names gets its echo tagged
      ensures tagged <==> m.fromMe && old(isAutoReplying) && old(autoReplyingChatId) == Some(m.to)
      ensures m.fromMe ==> m.to in chats && |chats[m.to].messages| > 0
      ensures m.fromMe && !tagged ==> chats == Recorded(old(chats), old(autoReplyChatIds), m, info)
      ensures tagged ==>
        var updated := Recorded(old(chats), old(autoReplyChatIds), m, info);
        chats == updated[m.to := TagLast(updated[m.to])]
      ensures m.fromMe ==>
        chatOrder == RecordedOrder(old(chats), old(chatOrder), m) &&
        conversationStore == old(conversationStore)[StoreKey(m.to) := SaveWindow(chats[m.to].messages)] &&
        uiEvents == old(uiEvents) + [ChatListUpdate(ChatList(Recorded(old(chats), old(autoReplyChatIds), m, info), chatOrder)),
                                     MessageEvent(m.to, chats[m.to].messages[|chats[m.to].messages| - 1])]
      // tagging happens once: the guard is lowered with it
      ensures tagged ==> !isAutoReplying && autoReplyingChatId == None
      ensures !tagged ==> isAutoReplying == old(isAutoReplying) && autoReplyingChatId == old(autoReplyingChatId)
      ensures autoReplyChatIds == old(autoReplyChatIds) && outbound == old(outbound) && clientReady == old(clientReady)
    {
      if !m.fromMe {
        return false;
      }
      var chatId := m.to;
      RecordedEndsWith(chats, autoReplyChatIds, m, info);
      ghost var store0 := conversationStore;
      ghost var events0 := uiEvents;
      UpdateChatWithMessage(m, info);
      ghost var store1 := conversationStore;
      tagged := isAutoReplying && autoReplyingChatId == Some(chatId);
      if tagged {
        TagEcho(chatId);
        OverwriteTwice(store0, StoreKey(chatId), store1[StoreKey(chatId)], SaveWindow(chats[chatId].messages));
      }
      var log := chats[chatId].messages;
      ghost var listUpdate := uiEvents[|uiEvents| - 1];
      uiEvents := uiEvents + [MessageEvent(chatId, log[|log| - 1])];
      assert uiEvents == events0 + [listUpdate, MessageEvent(chatId, log[|log| - 1])];
    }

    /** The `refresh-chats` request: the chat list is emitted again. */
    method RefreshChats()
      modifies this`uiEvents
      ensures uiEvents == old(uiEvents) + [ChatListUpdate(ChatList(chats, chatOrder))]
    {
      uiEvents := uiEvents + [ChatListUpdate(ChatList(chats, chatOrder))];
    }

    /** The toggle-auto-reply handler. */
    method ToggleAutoReply(chatId: string, enabled: bool)
      requires Valid()
      modifies this
      ensures Valid()
      ensures autoReplyChatIds == if enabled then old(autoReplyChatIds) + {chatId} else old(autoReplyChatIds) - {chatId}
      ensures chats == if chatId in old(chats) then old(chats)[chatId := old(chats)[chatId].(autoReplyEnabled := enabled)] else old(chats)
      ensures uiEvents == old(uiEvents) + (if chatId in old(chats) then [ChatListUpdate(ChatList(chats, chatOrder))] else [])
      ensures chatOrder == old(chatOrder) && conversationStore == old(conversationStore) && outbound == old(outbound)
      ensures isAutoReplying == old(isAutoReplying) && autoReplyingChatId == old(autoReplyingChatId) && clientReady == old(clientReady)
    {
      ToggleKeepsRegistry(chats, chatOrder, autoReplyChatIds, chatId, enabled);
      if enabled {
        autoReplyChatIds := autoReplyChatIds + {chatId};
      } else {
        autoReplyChatIds := autoReplyChatIds - {chatId};
      }
      if chatId in chats {
        chats := chats[chatId := chats[chatId].(autoReplyEnabled := enabled)];
        uiEvents := uiEvents + [ChatListUpdate(ChatList(chats, chatOrder))];
      }
    }

    /** The chat-history handler: marks the chat read and returns it, its
        messages included; the chat list is emitted either way. */
    method GetChatHistory(chatId: string) returns (r: Option<Chat>)
      requires Valid()
      modifies this
      ensures Valid()
      ensures chatId !in old(chats) ==> r == None && chats == old(chats)
      ensures chatId in old(chats) ==>
        r == Some(old(chats)[chatId].(unreadCount := 0)) && chats == old(chats)[chatId := r.value]
      ensures uiEvents == old(uiEvents) + [ChatListUpdate(ChatList(chats, chatOrder))]
      ensures chatOrder == old(chatOrder) && autoReplyChatIds == old(autoReplyChatIds)
      ensures conversationStore == old(conversationStore) && outbound == old(outbound)
      ensures isAutoReplying == old(isAutoReplying) && autoReplyingChatId == old(autoReplyingChatId) && clientReady == old(clientReady)
    {
      if chatId in chats {
        var chat := chats[chatId].(unreadCount := 0);
        ReplaceKeepsInvariant(chats, chatOrder, autoReplyChatIds, chat);
        chats := chats[chatId := chat];
        r := Some(chat);
      } else {
        r := None;
      }
      uiEvents := uiEvents + [ChatListUpdate(ChatList(chats, chatOrder))];
    }

    /** `logoutWhatsApp`: forgets every chat, the auto-reply set and the
        guard before destroying the client; `destroyError` is the error the
        client's destruction raised, if any. */
    method Logout(destroyError: Option<string>) returns (success: bool, message: string)
      requires Valid()
      modifies this
      ensures Valid()
      ensures !old(clientReady) ==>
        !success && message == "WhatsApp client not initialized" &&
        chats == old(chats) && chatOrder == old(chatOrder) && autoReplyChatIds == old(autoReplyChatIds) &&
        isAutoReplying == old(isAutoReplying) && autoReplyingChatId == old(autoReplyingChatId) && !clientReady
      ensures old(clientReady) ==>
        chats == map[] && chatOrder == [] && autoReplyChatIds == {} &&
        !isAutoReplying && autoReplyingChatId == None
      ensures old(clientReady) && destroyError.None? ==> success && message == "Logged out successfully" && !clientReady
      ensures old(clientReady) && destroyError.Some? ==>
        !success && clientReady &&
        message == "Logout failed: " + (if destroyError.value == "" then "Unknown error" else destroyError.value)
      ensures conversationStore == old(conversationStore) && uiEvents == old(uiEvents) && outbound == old(outbound)
    {
      if !clientReady {
        return false, "WhatsApp client not initialized";
      }
      chats := map[];
      chatOrder := [];
      autoReplyChatIds := {};
      isAutoReplying := false;
      autoReplyingChatId := None;
      if destroyError.Some? {
        var reason := if destroyError.value == "" then "Unknown error" else destroyError.value;
        return false, "Logout failed: " + reason;
      }
      clientReady := false;
      return true, "Logged out successfully";
    }
  }
}
