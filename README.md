# Chatbot context, chat persistence and tool dispatch — a Dafny model

This project models the core of a Korean-language economics chatbot:

- **The conversation context** (`Chat.Chatbot`, chatbot.py). The context is an ordered list of
  `{role, content, saved?}` turns. It starts with the `developer` (system role) entry, followed
  by today's stored turns. User turns and model replies are appended unsaved. Before a request,
  a token estimate over 16 * 1024 drops the newest turn and gives a fixed "please shorten"
  reply instead of calling the model. After a reply whose reported total is over budget, the
  ceil(n/10) turns after the first are dropped. A memory lookup on the newest turn gives
  "not needed", "looked and found nothing" (the `[NO_MEMORY_FOUND]` sentinel) or the memory
  text. That result becomes extra guidance appended to the request instruction.
- **Chat persistence** (`Persistence`, memory_manager.py). The chats collection is a sequence
  of `{date, role, content}` documents in insertion order. `SaveChat` writes the turns whose
  `saved` key is missing or false as one dated batch, then flags every turn. `RestoreChat`
  reads one date back as saved turns.
- **Tool dispatch** (`Tools`, function_calling.py). This covers the place and currency tables,
  the currency-name and ticker normalisation, and `Run`. `Run` answers every function call of a
  model response with one output carrying the call's id, or reports an unknown name. It then
  builds the follow-up input: the sanitised context followed by the outputs.

The language model, the token estimator, the memory classifier and retriever, the warning
agent, JSON decoding and the tools' network lookups are parameters (`Chat.Oracles`,
`Tools.Externals`). For the token estimator, the model call, JSON decoding and the tools'
lookups, a result of `None` stands for "it raised". For the memory retriever it is the `None`
the retriever returns when it finds nothing, which `Chat.RetrieveMemory` turns into the
`[NO_MEMORY_FOUND]` sentinel. JSON decoding
that succeeds gives either an object (`Tools.Json.Object`) or any other value
(`Tools.Json.NonObject`): an unknown name is reported whatever the arguments decoded to, and
only a known tool fails on a non-object, where `**` needs a mapping.

Behaviours of the code worth knowing, which the model keeps:

- The developer entry has no `saved` key and is therefore persisted by the first save of a
  session (`Chat.FirstSaveStoresSystemEntry`). A later restart on the same day restores it as
  one more turn.
- Under the chatbot's invariant, a save writes the developer entry (while it is unsaved) and
  then exactly the newest turns, from some index on (`Chat.SaveWritesNewestTurns`).
- The over-budget `pop()` removes whatever entry is newest. When the context holds only the
  developer entry, that entry is the one removed (`Chat.DropNewest`).
- The reactive trim drops ceil(n/10) entries counted over the whole context, including the
  kept first entry. It is not 10% of the turns after it.
- The memory result is a plain string, not a tagged union. A memory whose text equals the
  sentinel is treated as "not found" (`Chat.RetrieveMemory`).

## Model

| member | source | states |
|---|---|---|
| `Chat.ToOpenAIContext` | chatbot.py:133-134 | same length; entry i becomes the role/content pair of turn i; `saved` is dropped |
| `Chat.OverTokenLimit` | chatbot.py:35-43 | the estimate is taken over every turn plus the instruction as one more developer message; over budget exactly when it exceeds 16384; never when the estimator raises |
| `Chat.OverLimitIsStrict` | chatbot.py:35-43 | an estimate of exactly 16384 is within budget and 16385 is over; an estimator that raises never reports over budget |
| `Chat.DropNewest` | chatbot.py:48-49 | the context is the result followed by the removed newest turn; an empty context stays empty |
| `Chat.Complete` | chatbot.py:53-65 | the model's reply when the call succeeds; otherwise the apology, as an assistant reply with no usage total |
| `Chat.RetrieveMemory` | chatbot.py:67-76 | None exactly when no memory is needed; the sentinel exactly when the lookup finds nothing (or finds the sentinel text); otherwise the text found, unchanged |
| `Chat.NotNeededSkipsRetrieval` | chatbot.py:69-70 | when no memory is needed the result is None whatever the retriever would answer |
| `Chat.ExtraInstruction` | chatbot.py:82-108 | empty exactly when no memory is needed; the no-memory guidance for the sentinel; otherwise the memory guidance with the text between its heading and its closing line |
| `Chat.ExtraInstructionRoundTrip` | chatbot.py:82-108 | the extra instruction is "" for no lookup, the no-memory guidance for the sentinel, and guidance holding the text otherwise; the lookup can be read back from it |
| `Chat.FoundMemoryReachesInstructions` | chatbot.py:53 | the request instructions start with the base instruction and hold the found memory text right after the guidance heading |
| `Chat.CeilTenth` | chatbot.py:142 | the result r satisfies 10r >= n > 10r - 10, i.e. it is ceil(n/10) |
| `Chat.TrimForUsage` | chatbot.py:139-145 | over budget on a non-empty context: the first entry is kept, the ceil(n/10) entries after it are dropped, and the length is max(1, n - ceil(n/10)); a missing or in-budget total or an empty context leaves it unchanged |
| `Chat.TrimKeepsFlagsOrdered` | chatbot.py:139-143 | trimming keeps the invariant that the unsaved turns after the first entry form a suffix |
| `Chat.SaveWritesNewestTurns` | chatbot.py:123-137 | when the flag invariant holds, the unsaved turns after the developer entry are exactly the context from some index on |
| `Chat.FirstSaveStoresSystemEntry` | chatbot.py:14-22 | in a context made of the developer entry and restored turns, the developer entry is the only unsaved turn |
| `Chat.Chatbot.constructor` | chatbot.py:13-22 | the context is the developer entry followed by today's restored turns |
| `Chat.Chatbot.AddUserMessage` | chatbot.py:32-33 | exactly one unsaved user turn is appended; the rest is unchanged |
| `Chat.Chatbot.SendOnce` | chatbot.py:45-65 | over budget: the newest turn is dropped and the shorten reply is returned without the model's answer; otherwise the context is unchanged and the model gets instruction + extra and the whole context (a failing call gives the apology) |
| `Chat.Chatbot.SendRequest` | chatbot.py:77-121 | a flagged context gets the warning reply and stays as it is; otherwise the request carries the extra instruction from the memory lookup and the context is then trimmed by the reply's usage; an empty context gives the apology |
| `Chat.Chatbot.AddResponse` | chatbot.py:123-131 | exactly one unsaved turn with the reply's role and text is appended, and it is what `get_last_response` returns |
| `Chat.Chatbot.GetLastResponse` | chatbot.py:130-131 | the content of the newest turn, as sent to the model; None (the lookup raises) exactly when the context is empty |
| `Chat.Chatbot.SaveChat` | chatbot.py:136-137 | the store gains today's batch and every turn is flagged, or, when the write fails, neither changes |
| `Chat.Chatbot.HandleTokenLimit` | chatbot.py:139-145 | the new context is the trim of the old one by the reply's reported total |
| `Persistence.Unsaved` | memory_manager.py:21-25 | a turn is selected exactly when its `saved` key is missing or false |
| `Persistence.UnsavedAppend` | memory_manager.py:21-25 | the selection of a concatenation is the concatenation of the selections, so context order is kept |
| `Persistence.ToDocs` | memory_manager.py:31-38 | one document per selected turn, in order, with its role and content and the save date |
| `Persistence.MarkAllSaved` | memory_manager.py:43-46 | same length, role and content in the same order, every flag true |
| `Persistence.MarkSaved` | memory_manager.py:44-46 | the flag loop gives exactly the context with every flag set |
| `Persistence.MarkedHasNoUnsaved` | memory_manager.py:44-46 | after the flag loop no turn is left to store |
| `Persistence.NothingUnsavedIsMarked` | memory_manager.py:27-28 | when nothing is unsaved every flag is already set, so the early return leaves the same state as a save |
| `Persistence.SaveTwiceWritesOnce` | memory_manager.py:13-28 | a second save with no new turns writes an empty batch |
| `Persistence.SaveAfterAppendWritesOnlyNew` | memory_manager.py:22-46 | after a save, the next save writes only the turns appended since |
| `Persistence.Find` | memory_manager.py:54 | the documents of the date, and only those, in store order |
| `Persistence.FindAppend` | memory_manager.py:41-54 | a date query over the store after an insert is the old result followed by the batch's matches |
| `Persistence.AsSavedEntries` | memory_manager.py:56-63 | one turn per document, with its role and content and `saved` true |
| `Persistence.Restore` | memory_manager.py:53-64 | every restored turn is flagged as saved |
| `Persistence.SaveThenRestoreAppends` | memory_manager.py:31-63 | restoring a date after a save gives the old turns of that date followed by the saved batch as saved turns |
| `Persistence.SaveThenRestoreRoundTrip` | memory_manager.py:31-63 | on a date with nothing stored, restore after save gives back exactly the unsaved turns, in order, flagged as saved |
| `Persistence.ChatCollection.InsertMany` | memory_manager.py:41 | the batch is appended after the existing documents, or nothing changes when the write fails |
| `Persistence.MemoryManager.SaveChat` | memory_manager.py:12-46 | nothing unsaved: nothing written; otherwise the batch is written and then every flag is set; a failed write leaves store and flags as they were |
| `Persistence.MemoryManager.RestoreChat` | memory_manager.py:48-64 | as many turns as stored documents for the date (today's by default), all flagged as saved |
| `Tools.Coordinates` | function_calling.py:26-29 | coordinates exactly for the places in the table, from the table; None for any other |
| `Tools.UnknownLocationMakesNoCall` | function_calling.py:25-29 | an unknown place yields None whatever the weather lookup would answer |
| `Tools.RemoveAll` | function_calling.py:49 | the result is never longer than the name |
| `Tools.RemoveAllNoMatch` | function_calling.py:49 | a name without the marker is unchanged |
| `Tools.RemoveAllTrailing` | function_calling.py:49 | a name followed by the marker loses exactly that marker |
| `Tools.RemovalCanLeaveMarker` | function_calling.py:49-50 | one removal pass can leave a marker behind ("환환율율" becomes "환율", which maps to USD) |
| `Tools.CurrencyCode` | function_calling.py:47-53 | every name gets a code from the table (the default USD is one of them), so the None branch cannot be taken |
| `Tools.CurrencyNamesResolve` | function_calling.py:22 | every known name, with or without the marker after it, maps to its code |
| `Tools.Upper` | function_calling.py:64 | same length, each character upper-cased, no lower-case letter left |
| `Tools.StripStart` | function_calling.py:64 | a suffix of the input; only whitespace was removed; it starts with a non-space |
| `Tools.StripEnd` | function_calling.py:64 | a prefix of the input; only whitespace was removed; it ends with a non-space |
| `Tools.NormalizeTicker` | function_calling.py:64 | the ticker has no lower-case letter and no leading or trailing whitespace |
| `Tools.NormalizeTickerIdempotent` | function_calling.py:64 | normalising a normalised ticker changes nothing |
| `Tools.StockPriceText` | function_calling.py:82-85 | a price line starting with "> " or an error line starting with the error prefix, told apart by the first character, each naming the ticker right after its prefix |
| `Tools.Invoke` | function_calling.py:25-89 | a missing argument raises; the stock tool never raises once it has its ticker; an unknown place gives None without a lookup; otherwise each tool's lookup on its normalised argument |
| `Tools.DispatchTableMatchesSchemas` | function_calling.py:93-163 | the dispatch table binds exactly the four names declared in the tool schemas, each to its own function |
| `Tools.ToolCalls` | function_calling.py:182-185 | exactly the items of type function_call |
| `Tools.ToolCallsAppend` | function_calling.py:182-185 | the filter of a concatenation is the concatenation of the filters, so calls keep their order and multiplicity |
| `Tools.FunctionName` | function_calling.py:194 | the item's own name when it is non-empty, else the name of its `function` attribute |
| `Tools.ArgumentsJson` | function_calling.py:196 | missing or empty arguments become "{}"; others are kept |
| `Tools.CallOutput` | function_calling.py:194-207 | decoding that raises fails the call; an unknown name is reported for any decoded value; a known tool fails on a non-object and otherwise gives the text of its result, failing when it raises |
| `Tools.UnknownNameMakesNoCall` | function_calling.py:194-202 | a name missing from the table yields "[알 수 없는 함수 호출: name]" for any arguments that decode, whatever the tools would answer |
| `Tools.CallOutputs` | function_calling.py:193-208 | one output per call, in call order, with the call's id and the text of its result |
| `Tools.CollectOutputs` | function_calling.py:191-208 | the loop yields the outputs exactly when no call raises, and then they are one per call in order |
| `Tools.Sanitize` | function_calling.py:210-214 | no longer than the context; every record with a role and a content appears, reduced to those two |
| `Tools.SanitizeOne` | function_calling.py:210-214 | one record is kept, reduced to role and content, exactly when it has both keys, and dropped otherwise |
| `Tools.SanitizeAppend` | function_calling.py:210-214 | sanitising a concatenation concatenates the results, so order is kept |
| `Tools.SanitizeChatContext` | function_calling.py:210-214 | on the chatbot's context the sanitised list equals what the chat path sends |
| `Tools.AsInput` | function_calling.py:216 | the sanitised messages come first in the follow-up input, one item each, in order |
| `Tools.Run` | function_calling.py:180-228 | no function call: the fixed reply; a call that raises: the error reply; otherwise the follow-up gets the sanitised context then one output per call |

## Left out

- The hourly background thread (chatbot.py:25-31) is concurrency and is not modelled. That
  includes its race with the foreground save on the `saved` flags and its call to `build_memory`.
- `needs_memory`, `retrieve_memory` and `build_memory` are not defined in memory_manager.py.
  The first two are oracles in `Chat.Oracles`; consolidation is not modelled.
- An exception raised by the memory oracles or the warning agent would end `send_request` in
  the apology reply. The model treats those oracles as total.
- `makeup_response` and `gpt_num_tokens` live in a module that is not part of this model.
  A made-up reply is modelled as role `assistant`, the given text and no usage total.
  Whether its usage lookup raises or reads a small total, the context stays unchanged.
- `add_response` on a reply whose last output item has no role would raise; not modelled.
- Re-creating a missing warning agent (chatbot.py:79-80) and the `print` calls are left out.
- `Persistence.MemoryManager.SaveChat`: the source sets `saved` in place on the caller's dicts;
  the model returns the flagged context as `updated` and `Chat.Chatbot.SaveChat` stores it back.
  Only the chatbot's context holds those records, so no other holder sees the change either way.
- `insert_many` is modelled as all-or-nothing. A partial ordered insert is not modelled.
- The collection's natural order is taken to be insertion order.
- `Tools.RemoveAll`: its own contract only bounds the length. What it removes is stated by
  `RemoveAllNoMatch`, `RemoveAllTrailing` and `RemovalCanLeaveMarker`.
- `Tools.Sanitize`: its own contract states membership and a length bound. That a record
  missing either key is dropped is stated by `SanitizeOne`, and order by `SanitizeAppend`;
  together they fix the result on every input.
- `Tools.Upper`: upper-cases ASCII letters only. Python's full Unicode case mapping is not modelled.
- `Tools.StripStart`: removes the six characters of Python's `string.whitespace` and the
  separators U+001C to U+001F. The other Unicode whitespace Python strips (U+0085, U+00A0,
  U+2000 to U+200A and so on) is not modelled.
- `Tools.StripEnd`: removes the same ten ASCII characters as `Tools.StripStart`; the other
  Unicode whitespace is not modelled.
- JSON decoding is a parameter. Argument values are modelled as strings, so a non-string
  argument is not modelled.
- `Tools.FunctionName`: an item whose own name is missing or empty and that has no `function`
  attribute raises in the source; the model reads that fallback as a missing name (None).
- The model name, `previous_response_id` and the instructions of the follow-up request are
  not modelled. The follow-up call is the `finish` parameter.
- The tools' network results (temperatures, exchange rates, prices, search answers) are opaque
  values given by their `str()` text. Floating point is not modelled.
- `analyze` (function_calling.py:166-177) is a plain model call and is not modelled. Of the
  tool schemas only the names and the required argument of each tool are modelled.
- The two memory guidance texts are shortened to their headings; the prompt wording is not modelled.
- application.py (the Streamlit page), make_conversations.py and mongodb_delete.py are not
  part of this model.
