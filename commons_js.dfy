/** The character-budget context trimmer of the original (JavaScript)
    engine: each contact's log of `{role, content}` entries is cut, in place,
    until its total length fits 4000 characters, and the first system entry
    is then moved to the front with every other system entry dropped. */
module CommonsJs {
  import opened Common

  /** The character budget of one contact's log. */
  const CharBudget: nat := 4000

  /** `messages.reduce((sum, msg) => sum + msg.content.length, 0)`. */
  function TotalChars(messages: seq<LLMMessage>): nat
  {
    if |messages| == 0 then 0 else |messages[0].content| + TotalChars(messages[1..])
  }

  /** `messages.find(m => m.role === 'system')`. */
  function FirstSystem(messages: seq<LLMMessage>): (r: Option<LLMMessage>)
    ensures r.None? <==> forall i :: 0 <= i < |messages| ==> messages[i].role != System
    ensures r.Some? ==> r.value in messages && r.value.role == System
    // it is the first system entry: none comes before it
    ensures r.Some? ==>
      exists i :: 0 <= i < |messages| && messages[i] == r.value && forall j :: 0 <= j < i ==> messages[j].role != System
  {
    if |messages| == 0 then None
    else if messages[0].role == System then Some(messages[0])
    else FirstSystem(messages[1..])
  }

  /** `messages.filter(m => m.role !== 'system')`. */
  function NonSystem(messages: seq<LLMMessage>): (r: seq<LLMMessage>)
    ensures |r| <= |messages|
    ensures forall i :: 0 <= i < |r| ==> r[i].role != System
    ensures forall x :: x in r ==> x in messages
    // every non-system entry is kept
    ensures forall x :: x in messages && x.role != System ==> x in r
  {
    if |messages| == 0 then []
    else if messages[0].role == System then NonSystem(messages[1..])
    else [messages[0]] + NonSystem(messages[1..])
  }

  /** One step of the eviction loop: drop the entry after a leading system
      entry (`splice(1, 1)`), otherwise the first entry (`shift()`). */
  function EvictOne(messages: seq<LLMMessage>): (r: seq<LLMMessage>)
    requires |messages| > 1
    ensures |r| == |messages| - 1
  {
    if messages[0].role == System then messages[..1] + messages[2..] else messages[1..]
  }

  /** The log when the eviction loop stops: over budget and longer than one
      entry, evict one more. */
  function EvictLoop(messages: seq<LLMMessage>): (r: seq<LLMMessage>)
    ensures |r| <= |messages|
    decreases |messages|
  {
    if TotalChars(messages) > CharBudget && |messages| > 1 then EvictLoop(EvictOne(messages)) else messages
  }

  /** The log after `trimMessages(contact)`. */
  function TrimmedLog(messages: seq<LLMMessage>): seq<LLMMessage>
  {
    var after := EvictLoop(messages);
    match FirstSystem(messages)
    case None => after
    case Some(s) => [s] + NonSystem(after)
  }

  predicate IsSuffix<T(==)>(a: seq<T>, b: seq<T>)
  {
    |a| <= |b| && a == b[|b| - |a|..]
  }

  lemma {:induction false} SuffixTransitive<T>(a: seq<T>, b: seq<T>, c: seq<T>)
    requires IsSuffix(a, b) && IsSuffix(b, c)
    ensures IsSuffix(a, c)
  {
    assert c[|c| - |b|..][|b| - |a|..] == c[|c| - |a|..];
  }

  lemma {:induction false} TotalCharsAppend(a: seq<LLMMessage>, b: seq<LLMMessage>)
    ensures TotalChars(a + b) == TotalChars(a) + TotalChars(b)
  {
    if |a| > 0 {
      assert (a + b)[1..] == a[1..] + b;
      TotalCharsAppend(a[1..], b);
    } else {
      assert a + b == b;
    }
  }

  lemma {:induction false} NonSystemAppend(a: seq<LLMMessage>, b: seq<LLMMessage>)
    ensures NonSystem(a + b) == NonSystem(a) + NonSystem(b)
  {
    if |a| > 0 {
      assert (a + b)[1..] == a[1..] + b;
      NonSystemAppend(a[1..], b);
    } else {
      assert a + b == b;
    }
  }

  /** The filter on one entry keeps it exactly when it is not a system entry. */
  lemma NonSystemSingleton(x: LLMMessage)
    ensures NonSystem([x]) == if x.role == System then [] else [x]
  {
  }

  lemma {:induction false} NonSystemIdempotent(messages: seq<LLMMessage>)
    ensures NonSystem(NonSystem(messages)) == NonSystem(messages)
  {
    if |messages| > 0 {
      NonSystemIdempotent(messages[1..]);
    }
  }

  lemma {:induction false} NonSystemChars(messages: seq<LLMMessage>)
    ensures TotalChars(NonSystem(messages)) <= TotalChars(messages)
  {
    if |messages| > 0 {
      NonSystemChars(messages[1..]);
    }
  }

  /** Dropping the system entries and putting one of them back in front
      never adds characters. */
  lemma {:induction false} OneSystemChars(s: LLMMessage, messages: seq<LLMMessage>)
    requires s in messages && s.role == System
    ensures |s.content| + TotalChars(NonSystem(messages)) <= TotalChars(messages)
  {
    if messages[0] == s {
      NonSystemChars(messages[1..]);
    } else {
      OneSystemChars(s, messages[1..]);
    }
  }

  /** An eviction step keeps the first system entry and drops the oldest
      non-system entry, if it drops one at all. */
  lemma {:induction false} EvictOneFacts(messages: seq<LLMMessage>)
    requires |messages| > 1
    ensures FirstSystem(EvictOne(messages)) == FirstSystem(messages)
    ensures IsSuffix(NonSystem(EvictOne(messages)), NonSystem(messages))
    ensures messages[0].role == System ==> EvictOne(messages)[0] == messages[0]
    ensures FirstSystem(messages).None? ==> EvictOne(messages) == messages[1..]
  {
    var r := EvictOne(messages);
    if messages[0].role == System {
      assert messages == messages[..1] + messages[1..];
      assert messages[1..] == [messages[1]] + messages[2..];
      NonSystemAppend(messages[..1], messages[2..]);
      NonSystemAppend([messages[1]], messages[2..]);
      assert NonSystem(messages) == NonSystem(messages[1..]);
    } else {
      assert NonSystem(messages) == [messages[0]] + NonSystem(messages[1..]);
    }
  }

  /** The facts of EvictOne, carried through the whole loop. */
  lemma {:induction false} EvictLoopFacts(messages: seq<LLMMessage>)
    ensures TotalChars(EvictLoop(messages)) <= CharBudget || |EvictLoop(messages)| <= 1
    ensures FirstSystem(EvictLoop(messages)) == FirstSystem(messages)
    ensures IsSuffix(NonSystem(EvictLoop(messages)), NonSystem(messages))
    ensures |messages| > 0 && messages[0].role == System ==> |EvictLoop(messages)| > 0 && EvictLoop(messages)[0] == messages[0]
    ensures FirstSystem(messages).None? ==> IsSuffix(EvictLoop(messages), messages)
    ensures TotalChars(messages) <= CharBudget ==> EvictLoop(messages) == messages
    decreases |messages|
  {
    if TotalChars(messages) > CharBudget && |messages| > 1 {
      var next := EvictOne(messages);
      EvictOneFacts(messages);
      EvictLoopFacts(next);
      SuffixTransitive(NonSystem(EvictLoop(next)), NonSystem(next), NonSystem(messages));
      if FirstSystem(messages).None? {
        SuffixTransitive(EvictLoop(next), next, messages);
      }
    }
  }

  /** After trimming, the log fits the budget or is at most one entry long. */
  lemma TrimmedLogFits(messages: seq<LLMMessage>)
    ensures TotalChars(TrimmedLog(messages)) <= CharBudget || |TrimmedLog(messages)| <= 1
  {
    EvictLoopFacts(messages);
    var after := EvictLoop(messages);
    match FirstSystem(messages)
    case None =>
    case Some(s) =>
      assert FirstSystem(after) == Some(s);
      if |after| <= 1 {
        assert after == [s];
        assert NonSystem(after) == [];
      } else {
        OneSystemChars(s, after);
        TotalCharsAppend([s], NonSystem(after));
      }
  }

  /** If the log holds a system entry, the trimmed log starts with the first
      one of the input and holds no other. */
  lemma TrimmedLogSystemFirst(messages: seq<LLMMessage>)
    requires FirstSystem(messages).Some?
    ensures |TrimmedLog(messages)| > 0 && TrimmedLog(messages)[0] == FirstSystem(messages).value
    ensures forall i :: 1 <= i < |TrimmedLog(messages)| ==> TrimmedLog(messages)[i].role != System
  {
  }

  /** Without any system entry, trimming evicts the oldest entries only. */
  lemma TrimmedLogNoSystem(messages: seq<LLMMessage>)
    requires FirstSystem(messages).None?
    ensures IsSuffix(TrimmedLog(messages), messages)
  {
    EvictLoopFacts(messages);
  }

  /** The non-system entries kept are the newest ones, in their order. */
  lemma TrimmedLogKeepsNewest(messages: seq<LLMMessage>)
    ensures IsSuffix(NonSystem(TrimmedLog(messages)), NonSystem(messages))
  {
    EvictLoopFacts(messages);
    var after := EvictLoop(messages);
    match FirstSystem(messages)
    case None =>
    case Some(s) =>
      NonSystemAppend([s], NonSystem(after));
      NonSystemIdempotent(after);
      assert NonSystem(TrimmedLog(messages)) == NonSystem(after);
  }

  /** Within budget, no entry is evicted: only system entries other than
      the first are dropped. */
  lemma TrimmedLogWithinBudget(messages: seq<LLMMessage>)
    requires TotalChars(messages) <= CharBudget
    ensures NonSystem(TrimmedLog(messages)) == NonSystem(messages)
    ensures FirstSystem(messages).None? ==> TrimmedLog(messages) == messages
  {
    EvictLoopFacts(messages);
    match FirstSystem(messages)
    case None =>
    case Some(s) =>
      NonSystemAppend([s], NonSystem(messages));
      NonSystemIdempotent(messages);
  }

  /** A leading system entry is never evicted: the log ends up within budget
      or as that entry alone. */
  lemma TrimmedLogLeadingSystem(messages: seq<LLMMessage>)
    requires |messages| > 0 && messages[0].role == System
    ensures |TrimmedLog(messages)| > 0 && TrimmedLog(messages)[0] == messages[0]
    ensures TotalChars(TrimmedLog(messages)) <= CharBudget || TrimmedLog(messages) == [messages[0]]
  {
    TrimmedLogFits(messages);
  }

  /** A contact of the contact list; its log is replaced and trimmed in place. */
  class Contact {
    const id: string
    var messages: seq<LLMMessage>

    constructor(id: string, messages: seq<LLMMessage>)
      ensures this.id == id && this.messages == messages
    {
      this.id := id;
      this.messages := messages;
    }

    /** `trimMessages(contact)`. */
    method TrimMessages()
      modifies this
      ensures messages == TrimmedLog(old(messages))
    {
      var totalChars := TotalChars(messages);
      // the first system entry, looked up before any eviction
      var systemMessage := FirstSystem(messages);
      while totalChars > CharBudget && |messages| > 1
        invariant totalChars == TotalChars(messages)
        invariant EvictLoop(messages) == EvictLoop(old(messages))
        decreases |messages|
      {
        if messages[0].role == System {
          messages := messages[..1] + messages[2..];
        } else {
          messages := messages[1..];
        }
        totalChars := TotalChars(messages);
      }
      if systemMessage.Some? {
        messages := [systemMessage.value] + NonSystem(messages);
      }
    }
  }

  /** `global.fullContacts.find(c => c.id === contactId)`, as an index. */
  function FindContact(contacts: seq<Contact>, contactId: string): (r: Option<nat>)
    ensures r.None? <==> forall j :: 0 <= j < |contacts| ==> contacts[j].id != contactId
    ensures r.Some? ==>
      r.value < |contacts| && contacts[r.value].id == contactId &&
      forall j :: 0 <= j < r.value ==> contacts[j].id != contactId
  {
    if |contacts| == 0 then None
    else if contacts[0].id == contactId then Some(0)
    else match FindContact(contacts[1..], contactId)
      case None => None
      case Some(k) => Some(k + 1)
  }

  /** Appends `{role, content}` to the first contact with a matching id and
      trims that contact's log; no contact matches, nothing changes. */
  method AddMessageToContact(contacts: seq<Contact>, contactId: string, role: Role, content: string)
    modifies contacts
    ensures FindContact(contacts, contactId).None? ==>
      forall c :: c in contacts ==> c.messages == old(c.messages)
    ensures FindContact(contacts, contactId).Some? ==>
      var target := contacts[FindContact(contacts, contactId).value];
      target.messages == TrimmedLog(old(target.messages) + [LLMMessage(role, content)]) &&
      forall c :: c in contacts && c != target ==> c.messages == old(c.messages)
  {
    var found := FindContact(contacts, contactId);
    if found.Some? {
      var contact := contacts[found.value];
      contact.messages := contact.messages + [LLMMessage(role, content)];
      contact.TrimMessages();
    }
  }

  /** Replaces the matching contact's log with the one system entry; the
      prompt is absent when the settings file is missing, and then nothing
      changes. */
  method AddSystemMessageToContact(contacts: seq<Contact>, contactId: string, systemPrompt: Option<string>)
    modifies contacts
    ensures systemPrompt.None? || FindContact(contacts, contactId).None? ==>
      forall c :: c in contacts ==> c.messages == old(c.messages)
    ensures systemPrompt.Some? && FindContact(contacts, contactId).Some? ==>
      var target := contacts[FindContact(contacts, contactId).value];
      target.messages == [LLMMessage(System, systemPrompt.value)] &&
      forall c :: c in contacts && c != target ==> c.messages == old(c.messages)
  {
    if systemPrompt.None? {
      return;
    }
    var found := FindContact(contacts, contactId);
    if found.Some? {
      var contact := contacts[found.value];
      contact.messages := [LLMMessage(System, systemPrompt.value)];
      contact.TrimMessages();
      assert NonSystem([LLMMessage(System, systemPrompt.value)]) == [];
    }
  }

  /** Records an outgoing reply as an assistant entry of the contact's log. */
  method SendMessage(contacts: seq<Contact>, contactId: string, messageContent: string)
    modifies contacts
    ensures FindContact(contacts, contactId).None? ==>
      forall c :: c in contacts ==> c.messages == old(c.messages)
    ensures FindContact(contacts, contactId).Some? ==>
      var target := contacts[FindContact(contacts, contactId).value];
      target.messages == TrimmedLog(old(target.messages) + [LLMMessage(Assistant, messageContent)]) &&
      forall c :: c in contacts && c != target ==> c.messages == old(c.messages)
  {
    AddMessageToContact(contacts, contactId, Assistant, messageContent);
  }
}
