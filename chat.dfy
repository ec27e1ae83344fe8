/** The chatbot's in-memory conversation context: an ordered list of turns that
    starts with the developer (system role) entry, followed by the turns
    restored for today; user turns and replies are appended, the newest turn is
    dropped when a request would exceed the token budget, and the oldest tenth
    after the first entry is dropped when a reply reports more tokens than the
    budget. */
module Chat {
  import opened Conversation
  import opened Persistence

  /** The token budget, 16 * 1024. */
  const MaxTokenSize: int := 16 * 1024

  /** What the memory lookup yields when it looked and found nothing. */
  const NoMemoryFound: string := "[NO_MEMORY_FOUND]"

  /** The reply given instead of a request that is over the token budget. */
  const ShortenReply: string := "메시지를 조금 짧게 보내줄래?"

  /** The reply given when a request fails. */
  const ApologyReply: string := "[내 챗봇에 문제가 발생했습니다. 잠시 뒤 이용해주세요]"

  // The two memory guidance texts, shortened to their headings.
  const NoMemoryGuidance: string := "\n\n[기억 관련 지시]\n"
  const MemoryGuidanceHead: string := "\n\n[대화 기억]\n--- 과거 대화 요약 ---\n"
  const MemoryGuidanceTail: string := "\n--------------------\n"

  /** The collaborators the chatbot calls but that are not modelled: the token
      estimator and the model call (None when they raise), the memory
      classifier and retriever, and the warning agent. */
  datatype Oracles = Oracles(
    countTokens: seq<Message> -> Option<int>,
    complete: (string, seq<Message>) -> Option<Response>,
    needsMemory: string -> bool,
    retrieveMemory: string -> Option<string>,
    monitorUser: seq<Message> -> bool,
    warning: string)

  /** The developer entry the context starts with; it has no `saved` key. */
  function SystemEntry(systemRole: string): Entry
  {
    Entry("developer", systemRole, None)
  }

  /** `to_openai_context`: the same turns in the same order, as role/content
      pairs without the `saved` key. */
  function ToOpenAIContext(ctx: seq<Entry>): (msgs: seq<Message>)
    ensures |msgs| == |ctx|
    ensures forall i :: 0 <= i < |ctx| ==> msgs[i] == Message(ctx[i].role, ctx[i].content)
  {
    if ctx == [] then []
    else [Message(ctx[0].role, ctx[0].content)] + ToOpenAIContext(ctx[1..])
  }

  /** What the token estimate is taken over: the context plus the instruction
      counted as one more developer message. */
  function TokenCheckTarget(ctx: seq<Entry>, instruction: string): seq<Message>
  {
    ToOpenAIContext(ctx) + [Message("developer", instruction)]
  }

  /** `_is_over_token_limit`: the estimate covers every turn plus the
      instruction as one more developer message; a failing estimate counts as
      within budget. */
  function OverTokenLimit(ctx: seq<Entry>, instruction: string,
                          countTokens: seq<Message> -> Option<int>): (over: bool)
    ensures var n := countTokens(TokenCheckTarget(ctx, instruction));
      && (n.None? ==> !over)
      && (n.Some? ==> (over <==> n.value > MaxTokenSize))
  {
    match countTokens(TokenCheckTarget(ctx, instruction))
    case None => false
    case Some(n) => n > MaxTokenSize
  }

  /** The budget check is a strict comparison, and a raising estimator never
      reports the request as over budget. */
  lemma OverLimitIsStrict(ctx: seq<Entry>, instruction: string,
                          countTokens: seq<Message> -> Option<int>)
    ensures countTokens(TokenCheckTarget(ctx, instruction)) == None
            ==> !OverTokenLimit(ctx, instruction, countTokens)
    ensures countTokens(TokenCheckTarget(ctx, instruction)) == Some(MaxTokenSize)
            ==> !OverTokenLimit(ctx, instruction, countTokens)
    ensures countTokens(TokenCheckTarget(ctx, instruction)) == Some(MaxTokenSize + 1)
            ==> OverTokenLimit(ctx, instruction, countTokens)
  {
  }

  /** The context after `pop()` when it is non-empty. */
  function DropNewest(ctx: seq<Entry>): (r: seq<Entry>)
    ensures ctx == [] ==> r == []
    ensures ctx != [] ==> ctx == r + [ctx[|ctx| - 1]]
  {
    if ctx == [] then [] else ctx[..|ctx| - 1]
  }

  /** The reply of the model call, or the apology when the call raises; the
      apology reports no token usage. */
  function Complete(o: Oracles, instructions: string, msgs: seq<Message>): (r: Response)
    ensures o.complete(instructions, msgs).Some? ==> r == o.complete(instructions, msgs).value
    ensures o.complete(instructions, msgs).None? ==>
      r.text == ApologyReply && r.role == "assistant" && r.totalTokens == None
  {
    match o.complete(instructions, msgs)
    case None => MakeupResponse(ApologyReply)
    case Some(resp) => resp
  }

  /** `retrieve_memory` over the newest turn's content: None when no memory is
      needed, the not-found sentinel when the lookup finds nothing, otherwise
      the text found. */
  function RetrieveMemory(ctx: seq<Entry>, o: Oracles): (mem: Option<string>)
    requires ctx != []
    ensures mem == None <==> !o.needsMemory(ctx[|ctx| - 1].content)
    ensures mem == Some(NoMemoryFound) <==>
      o.needsMemory(ctx[|ctx| - 1].content) &&
      o.retrieveMemory(ctx[|ctx| - 1].content) in {None, Some(NoMemoryFound)}
    ensures mem.Some? && mem != Some(NoMemoryFound) ==>
      mem == o.retrieveMemory(ctx[|ctx| - 1].content)
  {
    var message := ctx[|ctx| - 1].content;
    if !o.needsMemory(message) then None
    else match o.retrieveMemory(message)
      case Some(text) => Some(text)
      case None => Some(NoMemoryFound)
  }

  /** When no memory is needed the retriever is not consulted: its answers do
      not matter. */
  lemma NotNeededSkipsRetrieval(ctx: seq<Entry>, o: Oracles, o': Oracles)
    requires ctx != []
    requires o'.needsMemory == o.needsMemory
    requires !o.needsMemory(ctx[|ctx| - 1].content)
    ensures RetrieveMemory(ctx, o) == RetrieveMemory(ctx, o') == None
  {
  }

  /** The extra instruction `send_request` builds from the memory lookup:
      nothing is added exactly when no memory is needed. */
  function ExtraInstruction(mem: Option<string>): (extra: string)
    ensures extra == "" <==> mem.None?
    ensures mem == Some(NoMemoryFound) ==> extra == NoMemoryGuidance
    ensures mem.Some? && mem.value != NoMemoryFound ==>
      extra == MemoryGuidanceHead + mem.value + MemoryGuidanceTail
  {
    match mem
    case None => ""
    case Some(m) =>
      if m == NoMemoryFound then NoMemoryGuidance
      else MemoryGuidanceHead + m + MemoryGuidanceTail
  }

  /** Reads the memory lookup back from an extra instruction. */
  function RecoverMemory(extra: string): Option<string>
  {
    if extra == "" then None
    else if extra == NoMemoryGuidance then Some(NoMemoryFound)
    else if |extra| >= |MemoryGuidanceHead| + |MemoryGuidanceTail|
         && extra[..|MemoryGuidanceHead|] == MemoryGuidanceHead
    then Some(extra[|MemoryGuidanceHead|..|extra| - |MemoryGuidanceTail|])
    else None
  }

  /** The three outcomes of the lookup give three distinguishable instructions:
      the lookup can be read back from the instruction it produced. */
  lemma ExtraInstructionRoundTrip(mem: Option<string>)
    ensures RecoverMemory(ExtraInstruction(mem)) == mem
  {
    match mem
    case None =>
    case Some(m) =>
      if m != NoMemoryFound {
        var extra := MemoryGuidanceHead + m + MemoryGuidanceTail;
        assert extra[3] == MemoryGuidanceHead[3] != NoMemoryGuidance[3];
        assert extra[..|MemoryGuidanceHead|] == MemoryGuidanceHead;
        assert extra[|MemoryGuidanceHead|..|extra| - |MemoryGuidanceTail|] == m;
      }
  }

  /** A memory that was found reaches the model: the request instructions are
      the base instruction followed by guidance that holds the memory text. */
  lemma FoundMemoryReachesInstructions(instruction: string, m: string)
    requires m != NoMemoryFound
    ensures var instructions := instruction + ExtraInstruction(Some(m));
      && instructions[..|instruction|] == instruction
      && instructions[|instruction| + |MemoryGuidanceHead|..
                      |instruction| + |MemoryGuidanceHead| + |m|] == m
  {
    var instructions := instruction + ExtraInstruction(Some(m));
    assert instructions == instruction + MemoryGuidanceHead + m + MemoryGuidanceTail;
  }

  /** `math.ceil(n / 10)`. */
  function CeilTenth(n: nat): (r: nat)
    ensures 10 * r >= n && 10 * r < n + 10
  {
    (n + 9) / 10
  }

  /** Python's `s[k:]`: empty once `k` passes the end. */
  function SliceFrom(s: seq<Entry>, k: nat): seq<Entry>
  {
    if k <= |s| then s[k..] else []
  }

  function Max(a: int, b: int): int
  {
    if a < b then b else a
  }

  /** `handle_token_limit`: when the reported total is over budget, the first
      entry is kept and the ceil(n/10) entries after it are dropped. A missing
      total, a total within budget or an empty context leave it unchanged. */
  function TrimForUsage(ctx: seq<Entry>, totalTokens: Option<int>): (r: seq<Entry>)
    ensures totalTokens == None || totalTokens.value <= MaxTokenSize || ctx == [] ==> r == ctx
    ensures totalTokens.Some? && totalTokens.value > MaxTokenSize && ctx != [] ==>
      && |r| == Max(1, |ctx| - CeilTenth(|ctx|))
      && r[0] == ctx[0]
      && (|ctx| > 1 ==> ctx == [ctx[0]] + ctx[1..CeilTenth(|ctx|) + 1] + r[1..])
  {
    if totalTokens.Some? && totalTokens.value > MaxTokenSize && ctx != [] then
      [ctx[0]] + SliceFrom(ctx, CeilTenth(|ctx|) + 1)
    else ctx
  }

  /** Every entry after the first has a `saved` key, and the unsaved ones form
      a suffix: a save always writes the newest turns. */
  ghost predicate FlagsOrdered(ctx: seq<Entry>)
  {
    && (forall i :: 1 <= i < |ctx| ==> ctx[i].saved.Some?)
    && (forall i, j :: 1 <= i < j < |ctx| && IsUnsaved(ctx[i]) ==> IsUnsaved(ctx[j]))
  }

  /** A sequence whose turns are all unsaved is stored in full. */
  lemma {:induction false} AllUnsavedKept(s: seq<Entry>)
    requires forall i :: 0 <= i < |s| ==> IsUnsaved(s[i])
    ensures Unsaved(s) == s
  {
    if s != [] {
      AllUnsavedKept(s[1..]);
    }
  }

  /** When the unsaved turns of `s` are closed upwards, they are a suffix of
      `s`. */
  lemma {:induction false} UnsavedIsSuffix(s: seq<Entry>)
    requires forall i, j :: 0 <= i < j < |s| && IsUnsaved(s[i]) ==> IsUnsaved(s[j])
    ensures exists k :: 0 <= k <= |s| && Unsaved(s) == s[k..]
  {
    if s == [] {
      assert Unsaved(s) == s[0..];
    } else if IsUnsaved(s[0]) {
      AllUnsavedKept(s);
      assert Unsaved(s) == s[0..];
    } else {
      UnsavedIsSuffix(s[1..]);
      var k :| 0 <= k <= |s[1..]| && Unsaved(s[1..]) == s[1..][k..];
      assert Unsaved(s) == s[k + 1..];
    }
  }

  /** Under the chatbot's invariant a save writes, besides the developer
      entry, exactly the newest turns of the context: those from some index
      `k` on. */
  lemma SaveWritesNewestTurns(ctx: seq<Entry>)
    requires FlagsOrdered(ctx) && ctx != []
    ensures exists k :: 1 <= k <= |ctx| && Unsaved(ctx[1..]) == ctx[k..]
  {
    var s := ctx[1..];
    forall i, j | 0 <= i < j < |s| && IsUnsaved(s[i]) ensures IsUnsaved(s[j]) {
      assert s[i] == ctx[i + 1] && s[j] == ctx[j + 1];
    }
    UnsavedIsSuffix(s);
    var k :| 0 <= k <= |s| && Unsaved(s) == s[k..];
    assert Unsaved(ctx[1..]) == ctx[k + 1..];
  }

  lemma TrimKeepsFlagsOrdered(ctx: seq<Entry>, totalTokens: Option<int>)
    requires FlagsOrdered(ctx)
    ensures FlagsOrdered(TrimForUsage(ctx, totalTokens))
  {
    var r := TrimForUsage(ctx, totalTokens);
    if r != ctx && |ctx| > 1 {
      var k := CeilTenth(|ctx|);
      forall i | 1 <= i < |r| ensures r[i] == ctx[i + k] {
        assert r[1..] == ctx[k + 1..];
        assert r[i] == r[1..][i - 1];
      }
    }
  }

  /** A context built from the developer entry and restored turns leaves only
      the developer entry to store: the first save persists it. */
  lemma FirstSaveStoresSystemEntry(systemRole: string, restored: seq<Doc>)
    ensures Unsaved([SystemEntry(systemRole)] + AsSavedEntries(restored))
         == [SystemEntry(systemRole)]
  {
    var saved := AsSavedEntries(restored);
    UnsavedAppend([SystemEntry(systemRole)], saved);
    NoneUnsavedLeavesNothing(saved);
    assert Unsaved([SystemEntry(systemRole)]) == [SystemEntry(systemRole)] by {
      assert [SystemEntry(systemRole)][1..] == [];
    }
  }

  class Chatbot {
    var context: seq<Entry>
    const instruction: string
    const memoryManager: MemoryManager

    ghost predicate Valid()
      reads this
    {
      FlagsOrdered(context)
    }

    /** The context starts with the developer entry followed by today's stored
        turns. */
    constructor (systemRole: string, instruction: string, memoryManager: MemoryManager, today: Date)
      ensures Valid()
      ensures this.instruction == instruction && this.memoryManager == memoryManager
      ensures context == [SystemEntry(systemRole)] + memoryManager.RestoreChat(None, today)
    {
      this.instruction := instruction;
      this.memoryManager := memoryManager;
      context := [SystemEntry(systemRole)] + memoryManager.RestoreChat(None, today);
    }

    method AddUserMessage(message: string)
      requires Valid()
      modifies this
      ensures Valid()
      ensures context == old(context) + [Entry("user", message, Some(false))]
    {
      context := context + [Entry("user", message, Some(false))];
    }

    /** `_send_request`: over budget, the newest turn is dropped and the shorten
        reply is returned without calling the model; otherwise the model gets
        the instruction followed by `extra` and the whole context. */
    method SendOnce(extra: string, o: Oracles) returns (r: Response)
      requires Valid()
      modifies this
      ensures Valid()
      ensures OverTokenLimit(old(context), instruction, o.countTokens) ==>
        r == MakeupResponse(ShortenReply) && context == DropNewest(old(context))
      ensures !OverTokenLimit(old(context), instruction, o.countTokens) ==>
        r == Complete(o, instruction + extra, ToOpenAIContext(old(context)))
        && context == old(context)
    {
      if OverTokenLimit(context, instruction, o.countTokens) {
        if context != [] {
          context := context[..|context| - 1];
        }
        return MakeupResponse(ShortenReply);
      }
      var instructions := instruction + extra;
      r := Complete(o, instructions, ToOpenAIContext(context));
    }

    /** `send_request`: builds the extra instruction from the memory lookup on
        the newest turn; a flagged context gets the warning reply and is left
        as it is; otherwise the request is sent and the context trimmed by the
        reply's reported usage. An empty context makes the lookup raise, which
        ends in the apology reply. */
    method SendRequest(o: Oracles) returns (r: Response)
      requires Valid()
      modifies this
      ensures Valid()
      ensures old(context) == [] ==>
        r == MakeupResponse(ApologyReply) && context == old(context)
      ensures old(context) != [] && o.monitorUser(ToOpenAIContext(old(context))) ==>
        r == MakeupResponse(o.warning) && context == old(context)
      ensures old(context) != [] && !o.monitorUser(ToOpenAIContext(old(context))) ==>
        if OverTokenLimit(old(context), instruction, o.countTokens) then
          r == MakeupResponse(ShortenReply) && context == DropNewest(old(context))
        else
          && r == Complete(o, instruction + ExtraInstruction(RetrieveMemory(old(context), o)),
                           ToOpenAIContext(old(context)))
          && context == TrimForUsage(old(context), r.totalTokens)
    {
      if context == [] {
        return MakeupResponse(ApologyReply);
      }
      var mem := RetrieveMemory(context, o);
      var extra := ExtraInstruction(mem);
      if o.monitorUser(ToOpenAIContext(context)) {
        return MakeupResponse(o.warning);
      }
      r := SendOnce(extra, o);
      HandleTokenLimit(r);
    }

    method AddResponse(response: Response)
      requires Valid()
      modifies this
      ensures Valid()
      ensures context == old(context) + [Entry(response.role, response.text, Some(false))]
      ensures GetLastResponse() == Some(response.text)
    {
      context := context + [Entry(response.role, response.text, Some(false))];
    }

    /** The content of the newest turn, as sent to the model; None when the
        context is empty, where the lookup raises. */
    function GetLastResponse(): (last: Option<string>)
      reads this
      ensures last.Some? <==> context != []
      ensures last.Some? ==> last.value == ToOpenAIContext(context)[|context| - 1].content
    {
      if context == [] then None else Some(context[|context| - 1].content)
    }

    /** `save_chat` for today: on success every turn is flagged and the store
        holds the batch of turns that were unsaved; a failed write changes
        neither. */
    method SaveChat(today: Date, accepted: bool) returns (ok: bool)
      requires Valid()
      modifies this, memoryManager.chats
      ensures Valid()
      ensures ok == (Unsaved(old(context)) == [] || accepted)
      ensures ok ==> context == MarkAllSaved(old(context))
      ensures ok ==> memoryManager.chats.docs == old(memoryManager.chats.docs) + Batch(old(context), today)
      ensures !ok ==> context == old(context)
      ensures !ok ==> memoryManager.chats.docs == old(memoryManager.chats.docs)
    {
      context, ok := memoryManager.SaveChat(context, None, today, accepted);
    }

    method HandleTokenLimit(response: Response)
      requires Valid()
      modifies this
      ensures Valid()
      ensures context == TrimForUsage(old(context), response.totalTokens)
    {
      if response.totalTokens.Some? && response.totalTokens.value > MaxTokenSize && context != [] {
        var removeSize := CeilTenth(|context|);
        TrimKeepsFlagsOrdered(context, response.totalTokens);
        context := [context[0]] + SliceFrom(context, removeSize + 1);
      }
    }
  }
}
