/** The message-count context trimmer, the prompt formatter and the
    provider-selecting reply function of the original (JavaScript) engine. */
module OpenAiJs {
  import opened Common

  /** The fixed replies used whenever no model reply can be obtained. */
  const StallMessages: seq<string> := [
    "I'm not quite sure I follow. Could you elaborate on that?",
    "Can you please explain that in a bit more detail?",
    "I'm sorry, I'm still a bit confused. Can we go over that again?",
    "That's interesting. Can you tell me more about it?",
    "How exactly does that work?",
    "I'm curious to understand more about this. Can you elaborate?",
    "Could you clarify what you mean by that?",
    "I want to make sure I'm understanding you correctly. Can you rephrase that?",
    "Hmm, that's a bit unclear to me. Can you break it down a bit more?",
    "That sounds important. Could you expand on that point?",
    "I see, but I'm still a little unclear about one thing. Can you explain further?",
    "Can you give me an example to illustrate that?",
    "I'm trying to wrap my head around this. Can you help me out?",
    "That's a new concept to me. How does it work exactly?",
    "I'd like to delve deeper into this topic. Can you provide more information?",
    "Could you walk me through that step by step?",
    "I'm eager to understand this better. Can you simplify it for me?",
    "That raises an interesting point. Can you go into more detail?",
    "I'm still piecing this together. Can you help clarify a few things?",
    "This seems important. Can you explain it in layman's terms?"
  ]

  /** A uniformly random pick from StallMessages; the random index is an
      arbitrary choice here. */
  method GetRandomStallMessage() returns (m: string)
    ensures m in StallMessages
  {
    var i :| 0 <= i < |StallMessages|;
    m := StallMessages[i];
  }

  /** Bounds a role-tagged list to `maxLength` entries, evicting the oldest
      entries first and keeping a leading system entry. */
  function TrimMessages(messages: seq<LLMMessage>, maxLength: int): (r: seq<LLMMessage>)
    ensures |messages| == 0 || maxLength <= 0 ==> r == []
    ensures |messages| <= maxLength ==> r == messages
    ensures maxLength >= 1 ==> |r| == Min(|messages|, maxLength)
    // a leading system entry stays first, once; the rest are the newest entries after it
    ensures |r| > 0 && messages[0].role == System ==>
      r[0] == messages[0] && r[1..] == messages[1..][|messages| - |r|..]
    // without a leading system entry the result is the newest |r| entries
    ensures |messages| > 0 && messages[0].role != System ==> r == messages[|messages| - |r|..]
  {
    if |messages| == 0 then []
    else if maxLength <= 0 then []
    else if |messages| <= maxLength then messages
    else if messages[0].role == System then
      if maxLength == 1 then [messages[0]]
      else SliceFromIsSuffix(messages, -(maxLength - 1)); [messages[0]] + SliceFrom(messages, -(maxLength - 1))
    else SliceFromIsSuffix(messages, -maxLength); SliceFrom(messages, -maxLength)
  }

  /** Trimming an already trimmed list changes nothing. */
  lemma TrimIdempotent(messages: seq<LLMMessage>, maxLength: int)
    ensures TrimMessages(TrimMessages(messages, maxLength), maxLength) == TrimMessages(messages, maxLength)
  {
  }

  /** The unit test's seven-entry history trimmed to five entries. */
  lemma TrimSevenToFive()
    ensures var h := [LLMMessage(System, "You are a helpful assistant."),
                      LLMMessage(User, "Hello"),
                      LLMMessage(Assistant, "Hi there!"),
                      LLMMessage(User, "How are you?"),
                      LLMMessage(Assistant, "I am good, thank you!"),
                      LLMMessage(User, "What is the weather like?"),
                      LLMMessage(Assistant, "I cannot check the weather.")];
            TrimMessages(h, 5) == [h[0], h[3], h[4], h[5], h[6]]
  {
  }

  /** With a bound of one, a leading system entry is all that is left. */
  lemma TrimToSystemOnly(messages: seq<LLMMessage>)
    requires |messages| > 0 && messages[0].role == System
    ensures TrimMessages(messages, 1) == [messages[0]]
  {
  }

  function Turn(m: WaMessage): LLMMessage
  {
    if m.fromMe then LLMMessage(Assistant, m.body) else LLMMessage(User, m.body)
  }

  /** `[system] + one user/assistant turn per chat message`, built by pushing
      the turns in order behind the system entry. */
  function FormatMessagesForLLM(whatsappMessages: seq<WaMessage>, systemPrompt: string): (r: seq<LLMMessage>)
    ensures |r| == |whatsappMessages| + 1
    ensures r[0] == LLMMessage(System, systemPrompt)
    ensures forall i :: 0 <= i < |whatsappMessages| ==>
      r[i + 1].content == whatsappMessages[i].body &&
      r[i + 1].role != System &&
      (r[i + 1].role == Assistant <==> whatsappMessages[i].fromMe)
  {
    if |whatsappMessages| == 0 then [LLMMessage(System, systemPrompt)]
    else
      var n := |whatsappMessages| - 1;
      FormatMessagesForLLM(whatsappMessages[..n], systemPrompt) + [Turn(whatsappMessages[n])]
  }

  /** The settings file as read: the keys the reply function consults. */
  datatype Settings = Settings(
    openaiKey: Option<string>,
    openaiModel: Option<string>,
    openaiApiEndpoint: Option<string>,
    systemPrompt: string)

  /** The cached SDK client: a hosted one built from the key, or one pointed
      at a custom base URL with a dummy key. */
  datatype Client = Client(apiKey: string, baseURL: Option<string>)

  /** One chat-completion request: the client it went through, the model
      (absent for the custom endpoint) and the messages. */
  datatype ChatRequest = ChatRequest(client: Client, model: Option<string>, messages: seq<LLMMessage>)

  /** Reading `response.choices[0].message.content`: throws on a missing
      `choices`, an empty `choices` or a missing `message`. */
  datatype ContentRead = Threw | Got(content: Option<string>)

  function ReadContent(reply: RawReply): (r: ContentRead)
    // the read succeeds exactly when the call did and a first choice has a message
    ensures r.Got? <==>
      reply.Responded? && reply.choices.Some? && |reply.choices.value| > 0 && reply.choices.value[0].message.Some?
    // and then yields that message's content as it is, "" included
    ensures r.Got? ==> r.content == reply.choices.value[0].message.value.content
  {
    match reply
    case CallFailed(_) => Threw
    case Responded(None) => Threw
    case Responded(Some(choices)) =>
      if |choices| == 0 then Threw
      else match choices[0].message
        case None => Threw
        case Some(m) => Got(m.content)
  }

  /** The provider the settings select: key and model first, then a custom
      endpoint, otherwise none. */
  datatype Selection = Hosted(apiKey: string, model: string) | CustomEndpoint(url: string) | NoProvider

  function SelectProvider(s: Settings): (p: Selection)
    ensures p.Hosted? <==> Truthy(s.openaiKey) && Truthy(s.openaiModel)
    ensures p.CustomEndpoint? <==> !(Truthy(s.openaiKey) && Truthy(s.openaiModel)) && Truthy(s.openaiApiEndpoint)
    ensures p.Hosted? ==> p.apiKey == s.openaiKey.value && p.model == s.openaiModel.value
    ensures p.CustomEndpoint? ==> p.url == s.openaiApiEndpoint.value
  {
    if Truthy(s.openaiKey) && Truthy(s.openaiModel) then Hosted(s.openaiKey.value, s.openaiModel.value)
    else if Truthy(s.openaiApiEndpoint) then CustomEndpoint(s.openaiApiEndpoint.value)
    else NoProvider
  }

  /** Only a key and a custom endpoint, no model: the custom endpoint is used. */
  lemma EndpointWithoutModelIsCustom(key: string, url: string, prompt: string)
    requires url != ""
    ensures SelectProvider(Settings(Some(key), None, Some(url), prompt)) == CustomEndpoint(url)
  {
  }

  /** The messages with a system entry put in front unless one leads already. */
  function WithSystem(messages: seq<LLMMessage>, systemPrompt: string): (r: seq<LLMMessage>)
    ensures |r| > 0 && r[0].role == System && |r| >= |messages|
    ensures r[|r| - |messages|..] == messages
    ensures |r| == |messages| <==> |messages| > 0 && messages[0].role == System
    // without a leading system entry, the prompt goes in front of the whole list
    ensures |messages| == 0 || messages[0].role != System ==> r == [LLMMessage(System, systemPrompt)] + messages
  {
    if |messages| == 0 || messages[0].role != System then [LLMMessage(System, systemPrompt)] + messages
    else messages
  }

  /** The module-level state of the original engine: the lazily created,
      never replaced SDK client. */
  class OpenAiModule {
    var openAIInstance: Option<Client>

    constructor()
      ensures openAIInstance == None
    {
      openAIInstance := None;
    }

    /** Produces a reply for `messages`. `settingsRead` is the settings file
        (None when reading it failed) and `reply` what the selected backend
        answers. Returns the reply (None for a null content), the caller's
        list after the call (it gains a leading system entry in place) and
        the request sent, if any. */
    method GetLLMMessage(messages: seq<LLMMessage>, settingsRead: Option<Settings>, reply: RawReply)
      returns (r: Option<string>, after: seq<LLMMessage>, request: Option<ChatRequest>)
      modifies this
      ensures settingsRead.None? ==>
        r.Some? && r.value in StallMessages && after == messages && request == None &&
        openAIInstance == old(openAIInstance)
      ensures settingsRead.Some? ==> after == WithSystem(messages, settingsRead.value.systemPrompt)
      ensures settingsRead.Some? && SelectProvider(settingsRead.value).Hosted? ==>
        var p := SelectProvider(settingsRead.value);
        openAIInstance == (if old(openAIInstance).Some? then old(openAIInstance) else Some(Client(p.apiKey, None))) &&
        request == Some(ChatRequest(openAIInstance.value, Some(p.model), after))
      ensures settingsRead.Some? && SelectProvider(settingsRead.value).CustomEndpoint? ==>
        var p := SelectProvider(settingsRead.value);
        openAIInstance == (if old(openAIInstance).Some? then old(openAIInstance) else Some(Client("dummy", Some(p.url)))) &&
        request == Some(ChatRequest(openAIInstance.value, None, after))
      ensures settingsRead.Some? && SelectProvider(settingsRead.value).NoProvider? ==>
        r.Some? && r.value in StallMessages && request == None && openAIInstance == old(openAIInstance)
      ensures request.Some? && ReadContent(reply).Threw? ==> r.Some? && r.value in StallMessages
      ensures request.Some? && ReadContent(reply).Got? ==> r == ReadContent(reply).content
    {
      if settingsRead.None? {
        var stall := GetRandomStallMessage();
        return Some(stall), messages, None;
      }
      var settings := settingsRead.value;
      after := WithSystem(messages, settings.systemPrompt);
      match SelectProvider(settings) {
        case Hosted(key, model) =>
          if openAIInstance.None? {
            openAIInstance := Some(Client(key, None));
          }
          request := Some(ChatRequest(openAIInstance.value, Some(model), after));
        case CustomEndpoint(url) =>
          if openAIInstance.None? {
            openAIInstance := Some(Client("dummy", Some(url)));
          }
          request := Some(ChatRequest(openAIInstance.value, None, after));
        case NoProvider =>
          var stall := GetRandomStallMessage();
          return Some(stall), after, None;
      }
      match ReadContent(reply) {
        case Threw =>
          var stall := GetRandomStallMessage();
          r := Some(stall);
        case Got(content) =>
          r := content;
      }
    }
  }
}
