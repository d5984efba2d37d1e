/** The provider adapter of the desktop application: module state holding
    the current LLM settings and the hosted-API client, prompt building from a
    chat's history, provider dispatch with one fixed fallback reply, and the
    configuration test that swaps the settings and restores them. */
module Llm {
  import opened Common

  /** The configured backend; any other configured string is kept as is. */
  datatype Provider = OpenAI | Local | Custom | Unsupported(name: string)

  /** `temperature` is a JavaScript number that is only passed through. */
  datatype LLMSettings = LLMSettings(
    provider: Provider,
    model: string,
    temperature: real,
    systemPrompt: string,
    maxHistoryLength: int,
    apiKey: Option<string>,
    apiEndpoint: Option<string>)

  /** The hosted-API SDK client, built from an API key. */
  datatype OpenAIClient = OpenAIClient(apiKey: string)

  /** Where a completion request goes: through the SDK client, or as a POST
      to a custom endpoint. */
  datatype Target = ViaClient(apiKey: string) | PostTo(url: string)

  /** The completion request: `{model, messages, temperature, max_tokens}`. */
  datatype Request = Request(target: Target, model: string, messages: seq<LLMMessage>, temperature: real, maxTokens: int)

  const MaxTokens: int := 500

  const FallbackReply: string := "I'm having trouble connecting to my AI service right now. Please try again later."

  const TestGreeting: string := "Hello, this is a test message. Please respond with a short greeting."

  /** The errors the adapter raises; `UndefinedRead(p)` is the TypeError of
      reading property `p` of `undefined`. */
  datatype LlmError =
    | ClientNotInitialized
    | EndpointNotConfigured
    | UnsupportedProvider(name: string)
    | EmptyResponse
    | RequestFailed(message: string)
    | UndefinedRead(property: string)

  function ErrorMessage(e: LlmError): string
  {
    match e
    case ClientNotInitialized => "OpenAI client not initialized"
    case EndpointNotConfigured => "API endpoint not configured"
    case UnsupportedProvider(name) => "Unsupported LLM provider: " + name
    case EmptyResponse => "LLM returned empty response"
    case RequestFailed(message) => message
    case UndefinedRead(property) => "Cannot read properties of undefined (reading '" + property + "')"
  }

  /** A provider call either raises or returns content, null included. */
  datatype CallResult = Raised(error: LlmError) | Returned(content: Option<string>)

  /** `content || null`: an empty string becomes null. */
  function OrNull(content: Option<string>): (r: Option<string>)
    ensures r.Some? <==> Truthy(content)
    ensures r.Some? ==> r == content
  {
    if content == Some("") then None else content
  }

  /** The client `configureLLM` builds for a settings value. */
  function ClientFor(s: LLMSettings): (c: Option<OpenAIClient>)
    ensures c.Some? <==> s.provider == OpenAI && Truthy(s.apiKey)
    ensures c.Some? ==> c.value.apiKey == s.apiKey.value
  {
    if s.provider == OpenAI && Truthy(s.apiKey) then Some(OpenAIClient(s.apiKey.value)) else None
  }

  function ToTurn(m: ChatMessage): LLMMessage
  {
    LLMMessage(if m.fromMe then Assistant else User, m.body)
  }

  /** One prompt turn per chat message, pushed in order. */
  function ToTurns(chatMessages: seq<ChatMessage>): (r: seq<LLMMessage>)
    ensures |r| == |chatMessages|
    ensures forall i :: 0 <= i < |chatMessages| ==>
      r[i].content == chatMessages[i].body &&
      (r[i].role == Assistant <==> chatMessages[i].fromMe) &&
      (r[i].role == User <==> !chatMessages[i].fromMe)
  {
    if |chatMessages| == 0 then []
    else
      var n := |chatMessages| - 1;
      ToTurns(chatMessages[..n]) + [ToTurn(chatMessages[n])]
  }

  /** The prompt for a chat: one system entry, then the turns of the last
      `2 * maxHistoryLength` messages (`slice(-maxHistoryLength * 2)`). */
  function PrepareMessagesForLLM(s: LLMSettings, chatMessages: seq<ChatMessage>): seq<LLMMessage>
  {
    [LLMMessage(System, s.systemPrompt)] + ToTurns(SliceFrom(chatMessages, (-s.maxHistoryLength) * 2))
  }

  /** The prompt opens with the one system entry; no other entry is a
      system entry. */
  lemma PromptHasOneSystemEntry(s: LLMSettings, chatMessages: seq<ChatMessage>)
    ensures var r := PrepareMessagesForLLM(s, chatMessages);
      |r| >= 1 && r[0] == LLMMessage(System, s.systemPrompt) &&
      forall i :: 1 <= i < |r| ==> r[i].role != System
  {
    var turns := ToTurns(SliceFrom(chatMessages, (-s.maxHistoryLength) * 2));
    var r := PrepareMessagesForLLM(s, chatMessages);
    forall i | 1 <= i < |r|
      ensures r[i].role != System
    {
      assert r[i] == turns[i - 1];
    }
  }

  /** After the system entry come the turns of the newest |r| - 1 messages,
      in order. */
  lemma PromptIsNewestTurns(s: LLMSettings, chatMessages: seq<ChatMessage>)
    ensures var r := PrepareMessagesForLLM(s, chatMessages);
      |r| - 1 <= |chatMessages| && r[1..] == ToTurns(chatMessages[|chatMessages| - (|r| - 1)..])
  {
    var window := SliceFrom(chatMessages, (-s.maxHistoryLength) * 2);
    SliceFromIsSuffix(chatMessages, (-s.maxHistoryLength) * 2);
    var r := PrepareMessagesForLLM(s, chatMessages);
    assert r[1..] == ToTurns(window);
  }

  /** How many turns the prompt keeps: the newest `2 * maxHistoryLength`; all
      of them for a zero length (`slice(-0)` is `slice(0)`); for a negative
      length the oldest `-2 * maxHistoryLength` are dropped instead. */
  lemma PromptLength(s: LLMSettings, chatMessages: seq<ChatMessage>)
    ensures var r := PrepareMessagesForLLM(s, chatMessages);
      (s.maxHistoryLength > 0 ==> |r| - 1 == Min(|chatMessages|, 2 * s.maxHistoryLength)) &&
      (s.maxHistoryLength == 0 ==> |r| - 1 == |chatMessages|) &&
      (s.maxHistoryLength < 0 ==> |r| - 1 == |chatMessages| - Min(|chatMessages|, -2 * s.maxHistoryLength))
  {
    var window := SliceFrom(chatMessages, (-s.maxHistoryLength) * 2);
    SliceFromIsSuffix(chatMessages, (-s.maxHistoryLength) * 2);
    assert |PrepareMessagesForLLM(s, chatMessages)| - 1 == |window|;
  }

  /** `choices?.[0]?.message?.content || null`: the first choice's text, or
      null when a link of the chain is missing or the text is empty. */
  function FirstContent(choices: Option<seq<RawChoice>>): (r: Option<string>)
    ensures r != Some("")
    ensures r.Some? ==>
      choices.Some? && |choices.value| > 0 && choices.value[0].message == Some(RawMessage(r))
    // a first message with non-empty text is read
    ensures (choices.Some? && |choices.value| > 0 && choices.value[0].message.Some? &&
             Truthy(choices.value[0].message.value.content)) ==>
      r.Some?
  {
    if choices.Some? && |choices.value| > 0 && choices.value[0].message.Some?
    then OrNull(choices.value[0].message.value.content)
    else None
  }

  /** `generateOpenAIResponse` once a reply is in: no client raises;
      `choices[0]?.message.content || null` reads the body. */
  function GenerateOpenAIResponse(client: Option<OpenAIClient>, reply: RawReply): (r: CallResult)
    ensures client.None? ==> r == Raised(ClientNotInitialized)
    ensures client.Some? && reply.CallFailed? ==> r == Raised(RequestFailed(reply.error))
    // an empty content is reported as null, never as ""
    ensures r.Returned? ==> r.content != Some("")
    // a body with choices but no first choice gives null, not an error
    ensures client.Some? && reply == Responded(Some([])) ==> r == Returned(None)
    // a first choice with a message gives its content, "" read as null
    ensures (client.Some? && reply.Responded? && reply.choices.Some? && |reply.choices.value| > 0 &&
             reply.choices.value[0].message.Some?) ==>
      r == Returned(FirstContent(reply.choices))
    // a body without choices, or a first choice without a message, raises
    ensures client.Some? && reply == Responded(None) ==> r == Raised(UndefinedRead("0"))
    ensures (client.Some? && reply.Responded? && reply.choices.Some? && |reply.choices.value| > 0 &&
             reply.choices.value[0].message.None?) ==>
      r == Raised(UndefinedRead("content"))
  {
    if client.None? then Raised(ClientNotInitialized)
    else match reply
      case CallFailed(e) => Raised(RequestFailed(e))
      case Responded(None) => Raised(UndefinedRead("0"))
      case Responded(Some(choices)) =>
        if |choices| == 0 then Returned(None)
        else match choices[0].message
          case None => Raised(UndefinedRead("content"))
          case Some(m) => Returned(OrNull(m.content))
  }

  /** `generateCustomEndpointResponse` once a reply is in: no endpoint
      raises; `choices?.[0]?.message?.content || null` reads the body. */
  function GenerateCustomEndpointResponse(s: LLMSettings, reply: RawReply): (r: CallResult)
    ensures !Truthy(s.apiEndpoint) ==> r == Raised(EndpointNotConfigured)
    // with an endpoint, only a failed call raises: a malformed body is null
    ensures Truthy(s.apiEndpoint) ==> (r.Raised? <==> reply.CallFailed?)
    ensures r.Raised? && Truthy(s.apiEndpoint) ==> r.error == RequestFailed(reply.error)
    ensures r.Returned? ==> r.content != Some("")
    // any answer is read through the optional chain, missing links giving null
    ensures Truthy(s.apiEndpoint) && reply.Responded? ==> r == Returned(FirstContent(reply.choices))
  {
    if !Truthy(s.apiEndpoint) then Raised(EndpointNotConfigured)
    else match reply
      case CallFailed(e) => Raised(RequestFailed(e))
      case Responded(None) => Returned(None)
      case Responded(Some(choices)) =>
        if |choices| == 0 then Returned(None)
        else match choices[0].message
          case None => Returned(None)
          case Some(m) => Returned(OrNull(m.content))
  }

  /** The text quoted by a successful test: at most 50 characters, with
      "..." only when the response is longer. */
  function Quote(response: string): (q: string)
    ensures |response| <= 50 ==> q == response
    ensures |response| > 50 ==> |q| == 53 && q[..50] == response[..50] && q[50..] == "..."
  {
    response[..Min(|response|, 50)] + (if |response| > 50 then "..." else "")
  }

  function TestMessages(systemPrompt: string): seq<LLMMessage>
  {
    [LLMMessage(System, systemPrompt), LLMMessage(User, TestGreeting)]
  }

  /** The report of `testLLMConfiguration`'s try block, given the test
      settings and the backend's reply. */
  datatype TestReport = TestReport(success: bool, message: string)

  /** Whether the provider switch reaches the backend under `s`: an
      `openai` client exists, or a local or custom provider has an endpoint. */
  predicate SendsRequest(s: LLMSettings, client: Option<OpenAIClient>)
  {
    (s.provider == OpenAI && client.Some?) ||
    ((s.provider == Local || s.provider == Custom) && Truthy(s.apiEndpoint))
  }

  /** The provider switch shared by `generateLLMResponse` and
      `testLLMConfiguration`: the call made under `s` with `client`. */
  function ProviderCall(s: LLMSettings, client: Option<OpenAIClient>, reply: RawReply): (r: CallResult)
    ensures s.provider.Unsupported? ==> r == Raised(UnsupportedProvider(s.provider.name))
    ensures s.provider == OpenAI ==> r == GenerateOpenAIResponse(client, reply)
    ensures s.provider == Local || s.provider == Custom ==> r == GenerateCustomEndpointResponse(s, reply)
  {
    match s.provider
    case OpenAI => GenerateOpenAIResponse(client, reply)
    case Local => GenerateCustomEndpointResponse(s, reply)
    case Custom => GenerateCustomEndpointResponse(s, reply)
    case Unsupported(name) => Raised(UnsupportedProvider(name))
  }

  /** The test runs the switch with the client built from the test settings. */
  function TestCall(settings: LLMSettings, reply: RawReply): CallResult
  {
    ProviderCall(settings, ClientFor(settings), reply)
  }

  function TestReportFor(settings: LLMSettings, reply: RawReply): (r: TestReport)
    // a null or empty response is a failure
    ensures r.success <==> TestCall(settings, reply).Returned? && TestCall(settings, reply).content.Some?
    ensures r.success ==>
      var text := TestCall(settings, reply).content.value;
      text != "" && r.message == "Test successful! Response: \"" + Quote(text) + "\""
    ensures TestCall(settings, reply) == Returned(None) ==>
      r.message == "Error testing LLM configuration: " + ErrorMessage(EmptyResponse)
    ensures settings.provider.Unsupported? ==>
      r == TestReport(false, "Error testing LLM configuration: " + ErrorMessage(UnsupportedProvider(settings.provider.name)))
    // any raised error is reported with its own message
    ensures TestCall(settings, reply).Raised? ==>
      r == TestReport(false, "Error testing LLM configuration: " + ErrorMessage(TestCall(settings, reply).error))
  {
    match TestCall(settings, reply)
    case Raised(e) => TestReport(false, "Error testing LLM configuration: " + ErrorMessage(e))
    case Returned(None) => TestReport(false, "Error testing LLM configuration: " + ErrorMessage(EmptyResponse))
    case Returned(Some(text)) => TestReport(true, "Test successful! Response: \"" + Quote(text) + "\"")
  }

  /** What `testLLMConfiguration` settles to: a report, or a rejection when
      restoring the settings itself throws. */
  datatype TestOutcome = Reported(report: TestReport) | Rejected(error: LlmError)

  /** The module's state: the current settings (undefined until the first
      `configureLLM`) and the hosted-API client. */
  class LlmModule {
    var llmSettings: Option<LLMSettings>
    var openaiClient: Option<OpenAIClient>

    /** The client always matches the current settings. */
    ghost predicate Valid()
      reads this
    {
      llmSettings.Some? ==> openaiClient == ClientFor(llmSettings.value)
    }

    constructor()
      ensures llmSettings == None && openaiClient == None && Valid()
    {
      llmSettings := None;
      openaiClient := None;
    }

    method ConfigureLLM(s: LLMSettings)
      modifies this
      ensures llmSettings == Some(s) && openaiClient == ClientFor(s)
      ensures Valid()
    {
      llmSettings := Some(s);
      if s.provider == OpenAI && Truthy(s.apiKey) {
        openaiClient := Some(OpenAIClient(s.apiKey.value));
      } else {
        openaiClient := None;
      }
    }

    /** Generates a reply for a chat's messages; `reply` is what the backend
        answers. Returns the reply (None for null) and the request sent, if
        one was. Never raises: every error becomes FallbackReply. */
    method GenerateLLMResponse(chatMessages: seq<ChatMessage>, reply: RawReply)
      returns (response: Option<string>, request: Option<Request>)
      // every configuration error yields the fallback, without a request
      ensures request.None? ==> response == Some(FallbackReply)
      ensures request.Some? <==> llmSettings.Some? && SendsRequest(llmSettings.value, openaiClient)
      // the request carries the model, the prompt, the temperature and max_tokens = 500
      ensures request.Some? ==>
        var s := llmSettings.value;
        request.value.model == s.model &&
        request.value.messages == PrepareMessagesForLLM(s, chatMessages) &&
        request.value.temperature == s.temperature &&
        request.value.maxTokens == 500
      ensures request.Some? && llmSettings.value.provider == OpenAI ==>
        request.value.target == ViaClient(openaiClient.value.apiKey) &&
        response == Resolve(GenerateOpenAIResponse(openaiClient, reply))
      ensures request.Some? && llmSettings.value.provider != OpenAI ==>
        request.value.target == PostTo(llmSettings.value.apiEndpoint.value) &&
        response == Resolve(GenerateCustomEndpointResponse(llmSettings.value, reply))
      // null only comes back from a call that returned no content
      ensures response.None? ==> request.Some? && !reply.CallFailed?
      ensures response != Some("")
      ensures response == ResponseFor(llmSettings, openaiClient, reply)
    {
      if llmSettings.None? {
        return Some(FallbackReply), None;
      }
      var s := llmSettings.value;
      var messages := PrepareMessagesForLLM(s, chatMessages);
      match s.provider {
        case OpenAI =>
          if openaiClient.None? {
            return Some(FallbackReply), None;
          }
          request := Some(Request(ViaClient(openaiClient.value.apiKey), s.model, messages, s.temperature, MaxTokens));
          response := Resolve(GenerateOpenAIResponse(openaiClient, reply));
        case Local =>
          if !Truthy(s.apiEndpoint) {
            return Some(FallbackReply), None;
          }
          request := Some(Request(PostTo(s.apiEndpoint.value), s.model, messages, s.temperature, MaxTokens));
          response := Resolve(GenerateCustomEndpointResponse(s, reply));
        case Custom =>
          if !Truthy(s.apiEndpoint) {
            return Some(FallbackReply), None;
          }
          request := Some(Request(PostTo(s.apiEndpoint.value), s.model, messages, s.temperature, MaxTokens));
          response := Resolve(GenerateCustomEndpointResponse(s, reply));
        case Unsupported(_) =>
          return Some(FallbackReply), None;
      }
    }

    /** Runs the fixed test prompt against `settings` and restores the
        settings in force before the call, whatever the outcome. */
    method TestLLMConfiguration(settings: LLMSettings, reply: RawReply)
      returns (outcome: TestOutcome, request: Option<Request>)
      requires Valid()
      modifies this
      ensures llmSettings == old(llmSettings)
      ensures old(llmSettings).Some? ==> openaiClient == old(openaiClient) && Valid()
      ensures old(llmSettings).Some? ==> outcome == Reported(TestReportFor(settings, reply))
      // restoring `undefined` throws inside `finally`; the test client stays
      ensures old(llmSettings).None? ==>
        outcome == Rejected(UndefinedRead("provider")) && openaiClient == ClientFor(settings)
      // the test request goes out exactly when the test settings reach a backend
      ensures request.Some? <==> SendsRequest(settings, ClientFor(settings))
      ensures request.Some? ==>
        request.value.messages == TestMessages(settings.systemPrompt) && request.value.maxTokens == 500 &&
        request.value.model == settings.model && request.value.temperature == settings.temperature
      ensures request.Some? && settings.provider == OpenAI ==>
        request.value.target == ViaClient(settings.apiKey.value)
      ensures request.Some? && settings.provider != OpenAI ==>
        request.value.target == PostTo(settings.apiEndpoint.value)
    {
      var originalSettings := llmSettings;
      ConfigureLLM(settings);
      var testMessages := TestMessages(settings.systemPrompt);
      match settings.provider {
        case OpenAI =>
          if openaiClient.Some? {
            request := Some(Request(ViaClient(openaiClient.value.apiKey), settings.model, testMessages, settings.temperature, MaxTokens));
          } else {
            request := None;
          }
        case Local =>
          request := if Truthy(settings.apiEndpoint) then Some(Request(PostTo(settings.apiEndpoint.value), settings.model, testMessages, settings.temperature, MaxTokens)) else None;
        case Custom =>
          request := if Truthy(settings.apiEndpoint) then Some(Request(PostTo(settings.apiEndpoint.value), settings.model, testMessages, settings.temperature, MaxTokens)) else None;
        case Unsupported(_) =>
          request := None;
      }
      var report := TestReportFor(settings, reply);
      // finally: configureLLM(originalSettings)
      if originalSettings.Some? {
        ConfigureLLM(originalSettings.value);
        outcome := Reported(report);
      } else {
        llmSettings := None;
        outcome := Rejected(UndefinedRead("provider"));
      }
    }
  }

  /** What `generateLLMResponse` answers under `settings` and `client` when
      the backend replies `reply`: the provider call's content, or the
      fallback for every error, a missing configuration included. */
  function ResponseFor(settings: Option<LLMSettings>, client: Option<OpenAIClient>, reply: RawReply): (r: Option<string>)
    ensures settings.None? ==> r == Some(FallbackReply)
    ensures settings.Some? && settings.value.provider.Unsupported? ==> r == Some(FallbackReply)
    ensures reply.CallFailed? ==> r == Some(FallbackReply)
    ensures r != Some("")
    // no client for `openai`, no endpoint for local or custom: the fallback
    ensures settings.Some? && !SendsRequest(settings.value, client) ==> r == Some(FallbackReply)
    // with a client or an endpoint and a first message in the answer, the reply is its content
    ensures (settings.Some? && SendsRequest(settings.value, client) && reply.Responded? &&
             reply.choices.Some? && |reply.choices.value| > 0 && reply.choices.value[0].message.Some?) ==>
      r == FirstContent(reply.choices)
    // the hosted API: no `choices`, or a first choice without a message, throws and falls back;
    // an empty `choices` gives null
    ensures (settings.Some? && settings.value.provider == OpenAI && client.Some? && reply.Responded? &&
             (reply.choices.None? || (|reply.choices.value| > 0 && reply.choices.value[0].message.None?))) ==>
      r == Some(FallbackReply)
    ensures settings.Some? && settings.value.provider == OpenAI && client.Some? && reply == Responded(Some([])) ==>
      r == None
    // an endpoint: any answer is read through the optional chain, a malformed one giving null
    ensures (settings.Some? && SendsRequest(settings.value, client) && settings.value.provider != OpenAI &&
             reply.Responded?) ==>
      r == FirstContent(reply.choices)
  {
    if settings.None? then Some(FallbackReply)
    else Resolve(ProviderCall(settings.value, client, reply))
  }

  /** What `generateLLMResponse` returns for a provider call's result. */
  function Resolve(call: CallResult): (r: Option<string>)
    ensures call.Raised? ==> r == Some(FallbackReply)
    ensures call.Returned? ==> r == call.content
  {
    match call
    case Raised(_) => Some(FallbackReply)
    case Returned(content) => content
  }
}
