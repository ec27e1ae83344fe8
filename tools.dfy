/** The tool dispatcher: the lookup tables and argument normalisation of the
    four tools, and `Run`, which answers every function call a model response
    asks for and assembles the input of the follow-up request. The tools'
    network calls are parameters. */
module Tools {
  import opened Conversation
  import Chat

  datatype Coord = Coord(lat: real, lon: real)

  /** Latitude and longitude of the places the weather tool knows. */
  const LatLon: map<string, Coord> := map[
    "서울" := Coord(37.57, 126.98), "강원도" := Coord(37.86, 128.31),
    "경기도" := Coord(37.44, 127.55), "경상남도" := Coord(35.44, 128.24),
    "경상북도" := Coord(36.63, 128.96), "광주" := Coord(35.16, 126.85),
    "대구" := Coord(35.87, 128.60), "대전" := Coord(36.35, 127.38),
    "부산" := Coord(35.18, 129.08), "세종시" := Coord(36.48, 127.29),
    "울산" := Coord(35.54, 129.31), "전라남도" := Coord(34.90, 126.96),
    "전라북도" := Coord(35.69, 127.24), "제주도" := Coord(33.43, 126.58),
    "충청남도" := Coord(36.62, 126.85), "충청북도" := Coord(36.79, 127.66),
    "인천" := Coord(37.46, 126.71),
    "Boston" := Coord(42.36, -71.05), "도쿄" := Coord(35.68, 139.69)]

  /** Currency names and their codes. */
  const CurrencyCodes: map<string, string> := map[
    "달러" := "USD", "엔화" := "JPY", "유로화" := "EUR", "위안화" := "CNY", "파운드" := "GBP"]

  /** The word for "exchange rate" that is removed from currency names. */
  const RateMarker: string := "환율"

  const NoToolCallsReply: string := "도구 호출이 없었습니다."
  const RunErrorReply: string := "[run 오류입니다]"

  /** A tool's result as the Python value it returns: None, or a value whose
      `str()` is `text`. */
  datatype ToolValue = PyNone | Shown(text: string)

  /** `str()` of a tool's result. */
  function Str(v: ToolValue): string
  {
    match v
    case PyNone => "None"
    case Shown(text) => text
  }

  /** A stock lookup: a price and its currency, or the exception's type name
      and message. */
  datatype Quote = Quote(price: string, currency: string) | QuoteFailed(errorType: string, message: string)

  /** A decoded JSON document: an object with its members, or any other value
      (array, string, number, literal). */
  datatype Json = Object(members: map<string, string>) | NonObject

  /** What the tools reach outside the model: JSON decoding of the arguments
      (None when it raises) and the four lookups (None when they raise). */
  datatype Externals = Externals(
    parseJson: string -> Option<Json>,
    weather: Coord -> Option<ToolValue>,
    krwRate: string -> Option<ToolValue>,
    stockQuote: string -> Quote,
    search: string -> Option<ToolValue>)

  // ---------------------------------------------------------------- weather

  /** The coordinates of a known place, None for any other. */
  function Coordinates(location: string): (c: Option<Coord>)
    ensures c.Some? <==> location in LatLon
    ensures c.Some? ==> c.value == LatLon[location]
  {
    if location in LatLon then Some(LatLon[location]) else None
  }

  // --------------------------------------------------------------- currency

  /** `pat` occurs in `s` starting at position `i`. */
  predicate MatchAt(s: string, pat: string, i: nat)
  {
    i + |pat| <= |s| && s[i..i + |pat|] == pat
  }

  /** Python's `s.replace(pat, '')`: scanning left to right, every
      non-overlapping occurrence of `pat` is removed. */
  function RemoveAll(s: string, pat: string): (r: string)
    requires pat != []
    ensures |r| <= |s|
    decreases |s|
  {
    if |s| < |pat| then s
    else if MatchAt(s, pat, 0) then RemoveAll(s[|pat|..], pat)
    else [s[0]] + RemoveAll(s[1..], pat)
  }

  /** `pat` starts at none of the positions of `s` below `n`. */
  predicate NoMatchBefore(s: string, pat: string, n: nat)
  {
    forall i: nat :: i < n ==> !MatchAt(s, pat, i)
  }

  /** Dropping the first character shifts every match one place left. */
  lemma MatchAtTail(s: string, pat: string, i: nat)
    requires s != []
    ensures MatchAt(s[1..], pat, i) <==> MatchAt(s, pat, i + 1)
  {
    if i + 1 + |pat| <= |s| {
      assert s[1..][i..i + |pat|] == s[i + 1..i + 1 + |pat|];
    }
  }

  /** A string without the pattern is left as it is. */
  lemma {:induction false} RemoveAllNoMatch(s: string, pat: string)
    requires pat != []
    requires NoMatchBefore(s, pat, |s|)
    ensures RemoveAll(s, pat) == s
  {
    if |s| >= |pat| {
      assert !MatchAt(s, pat, 0);
      forall i: nat | i < |s[1..]| ensures !MatchAt(s[1..], pat, i) {
        MatchAtTail(s, pat, i);
      }
      RemoveAllNoMatch(s[1..], pat);
    }
  }

  /** A name followed by the pattern, where the pattern starts nowhere inside
      the name, loses exactly the trailing pattern. */
  lemma {:induction false} RemoveAllTrailing(s: string, pat: string)
    requires pat != []
    requires NoMatchBefore(s + pat, pat, |s|)
    ensures RemoveAll(s + pat, pat) == s
  {
    var t := s + pat;
    if s == [] {
      assert t == pat;
      assert MatchAt(t, pat, 0);
      assert t[|pat|..] == [];
    } else {
      assert !MatchAt(t, pat, 0);
      assert t[1..] == s[1..] + pat;
      forall i: nat | i < |s[1..]| ensures !MatchAt(s[1..] + pat, pat, i) {
        MatchAtTail(t, pat, i);
      }
      RemoveAllTrailing(s[1..], pat);
    }
  }

  /** Removal is not a fixed point: a marker split by another marker survives
      it, so such a name falls back to the default code. */
  lemma RemovalCanLeaveMarker()
    ensures RemoveAll("환환율율", RateMarker) == RateMarker
    ensures CurrencyCode("환환율율") == "USD"
  {
    var s := "환환율율";
    assert s[0..2][1] != RateMarker[1];
    assert !MatchAt(s, RateMarker, 0);
    assert s[1..][0..2] == RateMarker;
    assert MatchAt(s[1..], RateMarker, 0);
    assert s[1..][2..] == "율";
    assert RemoveAll("율", RateMarker) == "율";
    assert RemoveAll(s, RateMarker) == [s[0]] + RemoveAll(s[1..], RateMarker);
  }

  /** `get_currency`'s code lookup: the marker is removed, then the name is
      looked up with "USD" (itself a table code) as the default, so every
      name gets a code from the table. */
  function CurrencyCode(name: string): (code: string)
    ensures code in CurrencyCodes.Values
  {
    var key := RemoveAll(name, RateMarker);
    if key in CurrencyCodes then CurrencyCodes[key]
    else assert CurrencyCodes["달러"] == "USD"; "USD"
  }

  /** The pattern cannot start where its first character is absent. */
  lemma NoMatchWithoutFirstChar(s: string, pat: string, n: nat)
    requires pat != [] && n <= |s|
    requires forall i :: 0 <= i < n ==> s[i] != pat[0]
    ensures NoMatchBefore(s, pat, n)
  {
    forall i: nat | i < n ensures !MatchAt(s, pat, i) {
      if i + |pat| <= |s| {
        assert s[i..i + |pat|][0] == s[i];
      }
    }
  }

  /** Every known name maps to its code, with or without the marker after it. */
  lemma CurrencyNamesResolve(name: string)
    requires name in CurrencyCodes
    ensures CurrencyCode(name) == CurrencyCodes[name]
    ensures CurrencyCode(name + RateMarker) == CurrencyCodes[name]
  {
    assert RateMarker[0] !in name;
    NoMatchWithoutFirstChar(name, RateMarker, |name|);
    NoMatchWithoutFirstChar(name + RateMarker, RateMarker, |name|);
    RemoveAllNoMatch(name, RateMarker);
    RemoveAllTrailing(name, RateMarker);
  }

  // ------------------------------------------------------------------ stock

  predicate IsLower(c: char)
  {
    'a' <= c <= 'z'
  }

  function UpperChar(c: char): (u: char)
    ensures !IsLower(u)
    ensures !IsLower(c) ==> u == c
  {
    if IsLower(c) then (c as int - 32) as char else c
  }

  /** No ASCII lower-case letter in `s`. */
  predicate NoLower(s: string)
  {
    forall i :: 0 <= i < |s| ==> !IsLower(s[i])
  }

  /** `str.upper()` on ASCII letters. */
  function Upper(s: string): (r: string)
    ensures |r| == |s| && NoLower(r)
    ensures forall i :: 0 <= i < |s| ==> r[i] == UpperChar(s[i])
  {
    if s == [] then [] else [UpperChar(s[0])] + Upper(s[1..])
  }

  /** The ASCII characters `str.strip()` removes: the six of
      `string.whitespace` and the four separators U+001C to U+001F. */
  predicate IsSpace(c: char)
  {
    c == ' ' || c == '\t' || c == '\n' || c == '\r' || c == '\U{000B}' || c == '\U{000C}'
    || '\U{001C}' <= c <= '\U{001F}'
  }

  function StripStart(s: string): (r: string)
    ensures |r| <= |s| && r == s[|s| - |r|..]
    ensures forall i :: 0 <= i < |s| - |r| ==> IsSpace(s[i])
    ensures r != [] ==> !IsSpace(r[0])
    ensures NoLower(s) ==> NoLower(r)
  {
    if s != [] && IsSpace(s[0]) then
      var r := StripStart(s[1..]);
      assert s[1..][|s[1..]| - |r|..] == s[|s| - |r|..];
      r
    else s
  }

  function StripEnd(s: string): (r: string)
    ensures |r| <= |s| && r == s[..|r|]
    ensures forall i :: |r| <= i < |s| ==> IsSpace(s[i])
    ensures r != [] ==> !IsSpace(r[|r| - 1])
    ensures NoLower(s) ==> NoLower(r)
  {
    if s != [] && IsSpace(s[|s| - 1]) then StripEnd(s[..|s| - 1]) else s
  }

  /** `str.strip()`. */
  function Strip(s: string): string
  {
    StripEnd(StripStart(s))
  }

  /** `get_stock_price`'s ticker: upper-cased, then stripped. */
  function NormalizeTicker(ticker: string): (t: string)
    ensures NoLower(t)
    ensures t != [] ==> !IsSpace(t[0]) && !IsSpace(t[|t| - 1])
  {
    Strip(Upper(ticker))
  }

  lemma {:induction false} StripStartOfStripped(s: string)
    requires s == [] || !IsSpace(s[0])
    ensures StripStart(s) == s
  {
  }

  lemma {:induction false} StripEndOfStripped(s: string)
    requires s == [] || !IsSpace(s[|s| - 1])
    ensures StripEnd(s) == s
  {
  }

  /** Normalising a normalised ticker changes nothing. */
  lemma NormalizeTickerIdempotent(ticker: string)
    ensures NormalizeTicker(NormalizeTicker(ticker)) == NormalizeTicker(ticker)
  {
    var t := NormalizeTicker(ticker);
    assert Upper(t) == t;
    StripStartOfStripped(t);
    StripEndOfStripped(t);
  }

  const StockErrorPrefix: string := "[ERROR:get_stock_price] "

  /** The text `get_stock_price` returns for a normalised ticker: a price
      line starting with '>' or an error line starting with '[', either one
      naming the ticker right after its prefix. */
  function StockPriceText(ticker: string, q: Quote): (text: string)
    ensures |text| > 2 + |ticker|
    ensures text[0] == '[' <==> q.QuoteFailed?
    ensures q.Quote? ==> text[..2] == "> " && text[2..2 + |ticker|] == ticker
    ensures q.QuoteFailed? ==>
      && |text| > |StockErrorPrefix| + |ticker|
      && text[..|StockErrorPrefix|] == StockErrorPrefix
      && text[|StockErrorPrefix|..|StockErrorPrefix| + |ticker|] == ticker
  {
    match q
    case Quote(price, currency) => "> " + ticker + " 현재가:" + price + " " + currency
    case QuoteFailed(errorType, message) =>
      StockErrorPrefix + ticker + " 조회 실패 - " + errorType + ": " + message
  }

  // --------------------------------------------------------------- dispatch

  datatype Tool = GetCurrency | GetCelsiusTemperature | GetStockPrice | SearchInternet

  /** The dispatch table `available_functions`. */
  const AvailableFunctions: map<string, Tool> := map[
    "get_currency" := GetCurrency,
    "get_celsius_temperature" := GetCelsiusTemperature,
    "get_stock_price" := GetStockPrice,
    "search_internet" := SearchInternet]

  /** The one keyword argument each tool reads. */
  function RequiredArgument(tool: Tool): string
  {
    match tool
    case GetCelsiusTemperature => "location"
    case GetCurrency => "currency_name"
    case GetStockPrice => "ticker"
    case SearchInternet => "search_query"
  }

  /** Calls one tool with decoded keyword arguments; None when it raises (a
      missing argument is a KeyError). */
  function Invoke(tool: Tool, args: map<string, string>, ext: Externals): (r: Option<ToolValue>)
    ensures RequiredArgument(tool) !in args ==> r == None
    ensures tool == GetStockPrice ==> (r.Some? <==> "ticker" in args)
    ensures tool == GetStockPrice && "ticker" in args ==>
      var t := NormalizeTicker(args["ticker"]);
      r == Some(Shown(StockPriceText(t, ext.stockQuote(t))))
    ensures tool == GetCelsiusTemperature && "location" in args ==>
      r == if args["location"] in LatLon then ext.weather(LatLon[args["location"]]) else Some(PyNone)
    ensures tool == GetCurrency && "currency_name" in args ==>
      r == ext.krwRate(CurrencyCode(args["currency_name"]))
    ensures tool == SearchInternet && "search_query" in args ==>
      r == ext.search(args["search_query"])
  {
    match tool
    case GetCelsiusTemperature =>
      if "location" !in args then None
      else (match Coordinates(args["location"])
            case None => Some(PyNone)
            case Some(c) => ext.weather(c))
    case GetCurrency =>
      if "currency_name" !in args then None
      else ext.krwRate(CurrencyCode(args["currency_name"]))
    case GetStockPrice =>
      if "ticker" !in args then None
      else
        var ticker := NormalizeTicker(args["ticker"]);
        Some(Shown(StockPriceText(ticker, ext.stockQuote(ticker))))
    case SearchInternet =>
      if "search_query" !in args then None
      else ext.search(args["search_query"])
  }

  /** An unknown place gives None before any network call: the weather lookup
      is not consulted. */
  lemma UnknownLocationMakesNoCall(args: map<string, string>, ext: Externals, ext': Externals)
    requires "location" in args && args["location"] !in LatLon
    ensures Invoke(GetCelsiusTemperature, args, ext) == Invoke(GetCelsiusTemperature, args, ext') == Some(PyNone)
  {
  }

  /** One item of a model response's output. `name` is the item's own name
      attribute and `fallbackName` the name of its `function` attribute;
      `arguments` is None when the item has none. */
  datatype OutputItem = OutputItem(
    kind: string, name: Option<string>, fallbackName: Option<string>,
    arguments: Option<string>, callId: string)

  /** An item of the follow-up request's input. */
  datatype InputItem = ChatMessage(message: Message) | FunctionCallOutput(callId: string, output: string)

  /** A context record: role and content may each be missing. */
  datatype Record = Record(role: Option<string>, content: Option<string>)

  /** The function-call items of a response, in order. */
  function ToolCalls(items: seq<OutputItem>): (calls: seq<OutputItem>)
    ensures |calls| <= |items|
    ensures forall it :: it in calls <==> it in items && it.kind == "function_call"
  {
    if items == [] then []
    else (if items[0].kind == "function_call" then [items[0]] else []) + ToolCalls(items[1..])
  }

  /** The filter distributes over concatenation: calls keep their order and
      their multiplicity. */
  lemma {:induction false} ToolCallsAppend(a: seq<OutputItem>, b: seq<OutputItem>)
    ensures ToolCalls(a + b) == ToolCalls(a) + ToolCalls(b)
  {
    if a == [] {
      assert a + b == b;
    } else {
      assert (a + b)[1..] == a[1..] + b;
      ToolCallsAppend(a[1..], b);
    }
  }

  /** The called name: the item's own when it is non-empty, else the fallback. */
  function FunctionName(call: OutputItem): (name: Option<string>)
    ensures call.name.Some? && call.name.value != "" ==> name == call.name
    ensures call.name == None || call.name == Some("") ==> name == call.fallbackName
  {
    if call.name.Some? && call.name.value != "" then call.name else call.fallbackName
  }

  /** Missing or empty arguments count as an empty JSON object. */
  function ArgumentsJson(call: OutputItem): (json: string)
    ensures call.arguments == None || call.arguments == Some("") ==> json == "{}"
    ensures call.arguments.Some? && call.arguments.value != "" ==> json == call.arguments.value
  {
    if call.arguments.None? || call.arguments.value == "" then "{}" else call.arguments.value
  }

  /** The text reported for a name that is not in the table. */
  function UnknownFunctionReply(name: Option<string>): string
  {
    "[알 수 없는 함수 호출: " + (if name.Some? then name.value else "None") + "]"
  }

  /** The called name is one of the four tools. */
  predicate IsKnown(name: Option<string>)
  {
    name.Some? && name.value in AvailableFunctions
  }

  /** The output of one call: the arguments are decoded first, then the named
      tool is called with them as keyword arguments and its result turned into
      text, or an unknown name is reported whatever the arguments decoded to.
      None when decoding raises, when a known tool gets arguments that are not
      an object (`**` needs a mapping), or when the tool raises. */
  function CallOutput(call: OutputItem, ext: Externals): (out: Option<string>)
    ensures ext.parseJson(ArgumentsJson(call)).None? ==> out.None?
    ensures ext.parseJson(ArgumentsJson(call)).Some? && !IsKnown(FunctionName(call)) ==>
      out == Some(UnknownFunctionReply(FunctionName(call)))
    ensures ext.parseJson(ArgumentsJson(call)) == Some(NonObject) && IsKnown(FunctionName(call)) ==>
      out.None?
    ensures ext.parseJson(ArgumentsJson(call)).Some? && ext.parseJson(ArgumentsJson(call)).value.Object?
            && IsKnown(FunctionName(call)) ==>
      var v := Invoke(AvailableFunctions[FunctionName(call).value],
                      ext.parseJson(ArgumentsJson(call)).value.members, ext);
      && (out.Some? <==> v.Some?)
      && (out.Some? ==> out.value == Str(v.value))
  {
    match ext.parseJson(ArgumentsJson(call))
    case None => None
    case Some(json) =>
      var name := FunctionName(call);
      if IsKnown(name) then
        match json
        case NonObject => None
        case Object(args) =>
          match Invoke(AvailableFunctions[name.value], args, ext)
          case None => None
          case Some(v) => Some(Str(v))
      else Some(UnknownFunctionReply(name))
  }

  /** The name a tool is declared under in the tool schemas. */
  function ToolName(tool: Tool): string
  {
    match tool
    case GetCurrency => "get_currency"
    case GetCelsiusTemperature => "get_celsius_temperature"
    case GetStockPrice => "get_stock_price"
    case SearchInternet => "search_internet"
  }

  /** The dispatch table binds exactly the four declared names, each to its
      own tool. */
  lemma DispatchTableMatchesSchemas()
    ensures |AvailableFunctions| == 4
    ensures forall tool :: ToolName(tool) in AvailableFunctions && AvailableFunctions[ToolName(tool)] == tool
    ensures forall name :: name in AvailableFunctions ==> ToolName(AvailableFunctions[name]) == name
  {
    assert AvailableFunctions.Keys == {"get_currency", "get_celsius_temperature", "get_stock_price", "search_internet"};
  }

  /** An unknown name is reported without calling any tool: whatever the tools
      would return, the output is the same. */
  lemma UnknownNameMakesNoCall(call: OutputItem, ext: Externals, ext': Externals)
    requires ext'.parseJson == ext.parseJson
    requires ext.parseJson(ArgumentsJson(call)).Some?
    requires !IsKnown(FunctionName(call))
    ensures CallOutput(call, ext) == CallOutput(call, ext') == Some(UnknownFunctionReply(FunctionName(call)))
  {
  }

  predicate AllCallsSucceed(calls: seq<OutputItem>, ext: Externals)
  {
    forall i :: 0 <= i < |calls| ==> CallOutput(calls[i], ext).Some?
  }

  /** One `function_call_output` per call, in call order, carrying the call's
      id and its output text. */
  function CallOutputs(calls: seq<OutputItem>, ext: Externals): (outs: seq<InputItem>)
    requires AllCallsSucceed(calls, ext)
    ensures |outs| == |calls|
    ensures forall i :: 0 <= i < |calls| ==>
      outs[i] == FunctionCallOutput(calls[i].callId, CallOutput(calls[i], ext).value)
  {
    if calls == [] then []
    else
      assert CallOutput(calls[0], ext).Some?;
      [FunctionCallOutput(calls[0].callId, CallOutput(calls[0], ext).value)]
        + CallOutputs(calls[1..], ext)
  }

  predicate HasRoleAndContent(rec: Record)
  {
    rec.role.Some? && rec.content.Some?
  }

  /** The records holding both a role and a content, reduced to those two, in
      order. */
  function Sanitize(ctx: seq<Record>): (msgs: seq<Message>)
    ensures |msgs| <= |ctx|
    ensures forall rec :: rec in ctx && HasRoleAndContent(rec) ==>
      Message(rec.role.value, rec.content.value) in msgs
  {
    if ctx == [] then []
    else
      (if HasRoleAndContent(ctx[0]) then [Message(ctx[0].role.value, ctx[0].content.value)] else [])
        + Sanitize(ctx[1..])
  }

  /** A single record is kept, reduced to role and content, exactly when it
      has both; otherwise it is dropped. */
  lemma SanitizeOne(rec: Record)
    ensures Sanitize([rec]) ==
      if HasRoleAndContent(rec) then [Message(rec.role.value, rec.content.value)] else []
  {
    assert [rec][1..] == [];
  }

  lemma {:induction false} SanitizeAppend(a: seq<Record>, b: seq<Record>)
    ensures Sanitize(a + b) == Sanitize(a) + Sanitize(b)
  {
    if a == [] {
      assert a + b == b;
    } else {
      var head := if HasRoleAndContent(a[0]) then [Message(a[0].role.value, a[0].content.value)] else [];
      assert (a + b)[0] == a[0];
      assert (a + b)[1..] == a[1..] + b;
      assert Sanitize(a + b) == head + Sanitize(a[1..] + b);
      SanitizeAppend(a[1..], b);
    }
  }

  /** The chatbot's context as the records the tool dispatcher receives. */
  function AsRecords(ctx: seq<Entry>): (recs: seq<Record>)
    ensures |recs| == |ctx|
    ensures forall i :: 0 <= i < |ctx| ==> recs[i] == Record(Some(ctx[i].role), Some(ctx[i].content))
  {
    if ctx == [] then [] else [Record(Some(ctx[0].role), Some(ctx[0].content))] + AsRecords(ctx[1..])
  }

  /** Sanitising the chatbot's context gives what the chat path sends: the
      tool path and the chat path show the model the same conversation. */
  lemma {:induction false} SanitizeChatContext(ctx: seq<Entry>)
    ensures Sanitize(AsRecords(ctx)) == Chat.ToOpenAIContext(ctx)
  {
    if ctx != [] {
      assert AsRecords(ctx)[1..] == AsRecords(ctx[1..]);
      SanitizeChatContext(ctx[1..]);
    }
  }

  /** The model's answer to the follow-up request, or the error reply when the
      call raises. */
  function Finish(finish: seq<InputItem> -> Option<Response>, input: seq<InputItem>): Response
  {
    match finish(input)
    case None => MakeupResponse(RunErrorReply)
    case Some(resp) => resp
  }

  function AsInput(msgs: seq<Message>): (input: seq<InputItem>)
    ensures |input| == |msgs|
    ensures forall i :: 0 <= i < |msgs| ==> input[i] == ChatMessage(msgs[i])
  {
    if msgs == [] then [] else [ChatMessage(msgs[0])] + AsInput(msgs[1..])
  }

  /** The loop of `FunctionCalling.run`: one output per call, in order; the
      first call that raises ends it with None. */
  method CollectOutputs(calls: seq<OutputItem>, ext: Externals) returns (outputs: Option<seq<InputItem>>)
    ensures outputs.Some? <==> AllCallsSucceed(calls, ext)
    ensures outputs.Some? ==> outputs.value == CallOutputs(calls, ext)
  {
    var collected: seq<InputItem> := [];
    var i := 0;
    while i < |calls|
      invariant 0 <= i <= |calls|
      invariant |collected| == i
      invariant AllCallsSucceed(calls[..i], ext)
      invariant forall j :: 0 <= j < i ==>
        collected[j] == FunctionCallOutput(calls[j].callId, CallOutput(calls[j], ext).value)
    {
      var out := CallOutput(calls[i], ext);
      if out.None? {
        return None;
      }
      collected := collected + [FunctionCallOutput(calls[i].callId, out.value)];
      i := i + 1;
      assert calls[..i] == calls[..i - 1] + [calls[i - 1]];
    }
    assert calls[..i] == calls;
    return Some(collected);
  }

  /** `FunctionCalling.run`: no function call gives the fixed reply; a call
      that raises gives the error reply; otherwise the follow-up request gets
      the sanitised context followed by one output per call. */
  method Run(items: seq<OutputItem>, context: seq<Record>, ext: Externals,
             finish: seq<InputItem> -> Option<Response>) returns (r: Response)
    ensures ToolCalls(items) == [] ==> r == MakeupResponse(NoToolCallsReply)
    ensures ToolCalls(items) != [] && !AllCallsSucceed(ToolCalls(items), ext) ==>
      r == MakeupResponse(RunErrorReply)
    ensures ToolCalls(items) != [] && AllCallsSucceed(ToolCalls(items), ext) ==>
      r == Finish(finish, AsInput(Sanitize(context)) + CallOutputs(ToolCalls(items), ext))
  {
    var calls := ToolCalls(items);
    if calls == [] {
      return MakeupResponse(NoToolCallsReply);
    }
    var outputs := CollectOutputs(calls, ext);
    if outputs.None? {
      return MakeupResponse(RunErrorReply);
    }
    var fullInput := AsInput(Sanitize(context)) + outputs.value;
    r := Finish(finish, fullInput);
  }
}
