/** Values shared by the conversation-context and auto-reply core: the
    role-tagged prompt unit, the chat message, the transport's message, the
    shape of a chat-completion reply body, and JavaScript's
    `Array.prototype.slice(start)`. */
module Common {

  datatype Option<+T> = None | Some(value: T)

  /** The role of one prompt entry. */
  datatype Role = System | User | Assistant

  /** `{role, content}`, the unit sent to a chat-completion API. */
  datatype LLMMessage = LLMMessage(role: Role, content: string)

  /** A message as the transport (whatsapp-web.js) delivers it. `timestamp`
      is in seconds as delivered; `author` is absent or a string. */
  datatype WaMessage = WaMessage(
    id: string,
    body: string,
    fromMe: bool,
    from: string,
    to: string,
    timestamp: int,
    author: Option<string>,
    hasMedia: bool,
    isForwarded: bool,
    isStarred: bool,
    isStatus: bool)

  /** The application's own record of one chat message. */
  datatype ChatMessage = ChatMessage(
    id: string,
    body: string,
    fromMe: bool,
    timestamp: int,
    author: Option<string>,
    hasMedia: bool,
    isForwarded: bool,
    isStarred: bool,
    isLLMResponse: bool)

  /** `choices[i].message` of a chat-completion body; `content` may be null. */
  datatype RawMessage = RawMessage(content: Option<string>)

  /** `choices[i]` of a chat-completion body; `message` may be missing. */
  datatype RawChoice = RawChoice(message: Option<RawMessage>)

  /** What a chat-completion call produced: the call threw (network error,
      non-2xx status, SDK error) with a message, or it returned a body whose
      `choices` array may be missing. */
  datatype RawReply = CallFailed(error: string) | Responded(choices: Option<seq<RawChoice>>)

  /** JavaScript truthiness of an optional string: present and non-empty. */
  predicate Truthy(s: Option<string>)
  {
    s.Some? && s.value != ""
  }

  function Min(a: int, b: int): int
  {
    if a <= b then a else b
  }

  /** `xs.slice(start)`: a negative start counts from the end and is clamped
      at the front; a non-negative start is clamped at the end. */
  function SliceFrom<T>(xs: seq<T>, start: int): seq<T>
  {
    if start < 0 then
      (if |xs| + start < 0 then xs else xs[|xs| + start..])
    else
      (if start > |xs| then xs[|xs|..] else xs[start..])
  }

  /** The slice is a suffix: the newest `-start` elements for a negative
      start, everything after the first `start` otherwise. */
  lemma SliceFromIsSuffix<T>(xs: seq<T>, start: int)
    ensures start < 0 ==> |SliceFrom(xs, start)| == Min(|xs|, -start)
    ensures start >= 0 ==> |SliceFrom(xs, start)| == |xs| - Min(|xs|, start)
    ensures SliceFrom(xs, start) == xs[|xs| - |SliceFrom(xs, start)|..]
  {
  }
}
