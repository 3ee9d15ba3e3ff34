/** Turn requests: which conversations the runtime accepts. */
module Requests {
  import opened Protocol

  ghost predicate Distinct(s: seq<CallId>) {
    forall i, j :: 0 <= i < j < |s| ==> s[i] != s[j]
  }

  function ItemCalls(item: ConversationItem): seq<ToolCall> {
    if item.ToolCalls? then item.calls else []
  }

  function ItemResults(item: ConversationItem): seq<ToolResult> {
    if item.ToolOutput? then [item.result] else []
  }

  /** Every call of the conversation, in order. */
  function CallsOf(items: seq<ConversationItem>): seq<ToolCall> {
    if items == [] then [] else CallsOf(items[..|items| - 1]) + ItemCalls(items[|items| - 1])
  }

  /** Every tool result of the conversation, in order. */
  function ResultsOf(items: seq<ConversationItem>): seq<ToolResult> {
    if items == [] then [] else ResultsOf(items[..|items| - 1]) + ItemResults(items[|items| - 1])
  }

  function CallIds(calls: seq<ToolCall>): (ids: seq<CallId>)
    ensures |ids| == |calls| && forall i :: 0 <= i < |ids| ==> ids[i] == calls[i].callId
  {
    seq(|calls|, i requires 0 <= i < |calls| => calls[i].callId)
  }

  function ResultIds(results: seq<ToolResult>): (ids: seq<CallId>)
    ensures |ids| == |results| && forall i :: 0 <= i < |ids| ==> ids[i] == results[i].callId
  {
    seq(|results|, i requires 0 <= i < |results| => results[i].callId)
  }

  ghost predicate Defined(tools: seq<ToolDefinition>, call: ToolCall) {
    exists d :: d in tools && d.Accepts(call)
  }

  /** `result` answers a call made earlier, under the same id and tool name. */
  ghost predicate Answers(calls: seq<ToolCall>, result: ToolResult) {
    exists c :: c in calls && c.callId == result.callId && c.name == result.toolName
  }

  ghost predicate ToolsWellDefined(tools: seq<ToolDefinition>) {
    && (forall d :: d in tools ==> d.Valid())
    && (forall i, j :: 0 <= i < j < |tools| ==> tools[i].name != tools[j].name)
  }

  ghost predicate ItemFits(item: ConversationItem, tools: seq<ToolDefinition>, before: seq<ToolCall>) {
    && (item.ToolCalls? ==>
          item.calls != [] && forall c :: c in item.calls ==> c.Valid() && Defined(tools, c))
    && (item.ToolOutput? ==> item.result.Valid() && Answers(before, item.result))
  }

  /** Every item fits what comes before it. */
  ghost predicate AllFit(items: seq<ConversationItem>, tools: seq<ToolDefinition>) {
    items == [] ||
    var init := items[..|items| - 1];
    AllFit(init, tools) && ItemFits(items[|items| - 1], tools, CallsOf(init))
  }

  /** No call id repeats, no call is answered twice, and every answer follows its call. */
  ghost predicate Paired(items: seq<ConversationItem>, tools: seq<ToolDefinition>) {
    && Distinct(CallIds(CallsOf(items)))
    && Distinct(ResultIds(ResultsOf(items)))
    && AllFit(items, tools)
  }

  ghost predicate SizesFit(items: seq<ConversationItem>) {
    && 1 <= |items| <= MAX_MESSAGES
    && forall m :: m in items ==> m.ByteLen() <= MAX_MESSAGE_BYTES
  }

  ghost predicate SettingsFit(req: TurnRequest) {
    && (req.tools != [] || CallsOf(req.messages) != [] ==> req.agentLimits.Some?)
    && (req.agentLimits.Some? ==> req.agentLimits.value.Valid())
    && 1 <= req.maxOutputTokens <= MAX_OUTPUT_TOKENS
  }

  ghost predicate ValidRequest(req: TurnRequest) {
    && SizesFit(req.messages)
    && ToolsWellDefined(req.tools)
    && Paired(req.messages, req.tools)
    && SettingsFit(req)
  }

  // ---------------------------------------------------------------- validation by scanning

  ghost predicate IndexesCalls(names: map<CallId, string>, calls: seq<ToolCall>) {
    && (forall c :: c in calls ==> c.callId in names && names[c.callId] == c.name)
    && (forall id :: id in names ==> exists c :: c in calls && c.callId == id && c.name == names[id])
  }

  ghost predicate IndexesTools(definitions: map<string, ToolDefinition>, tools: seq<ToolDefinition>) {
    && (forall d :: d in tools ==> d.name in definitions && definitions[d.name] == d)
    && (forall n :: n in definitions ==> definitions[n].name == n && definitions[n] in tools)
  }

  lemma DistinctConcat(a: seq<CallId>, b: seq<CallId>)
    ensures Distinct(a + b) <==>
            Distinct(a) && Distinct(b) && forall i, j :: 0 <= i < |a| && 0 <= j < |b| ==> a[i] != b[j]
  {
    var c := a + b;
    if Distinct(c) {
      forall i, j | 0 <= i < |a| && 0 <= j < |b| ensures a[i] != b[j] {
        assert c[i] == a[i] && c[|a| + j] == b[j];
      }
      assert forall i, j :: 0 <= i < j < |b| ==> b[i] == c[|a| + i] && b[j] == c[|a| + j];
      assert forall i, j :: 0 <= i < j < |a| ==> a[i] == c[i] && a[j] == c[j];
    }
  }

  lemma CallIdsConcat(a: seq<ToolCall>, b: seq<ToolCall>)
    ensures CallIds(a + b) == CallIds(a) + CallIds(b)
  {
  }

  lemma ResultIdsConcat(a: seq<ToolResult>, b: seq<ToolResult>)
    ensures ResultIds(a + b) == ResultIds(a) + ResultIds(b)
  {
  }

  /** One more item keeps a conversation paired exactly when the item fits and its ids are new. */
  lemma PairedStep(items: seq<ConversationItem>, tools: seq<ToolDefinition>, item: ConversationItem)
    ensures Paired(items + [item], tools) <==>
            && Paired(items, tools)
            && ItemFits(item, tools, CallsOf(items))
            && Distinct(CallIds(CallsOf(items) + ItemCalls(item)))
            && Distinct(ResultIds(ResultsOf(items) + ItemResults(item)))
  {
    var longer := items + [item];
    assert longer[..|longer| - 1] == items;
    CallIdsConcat(CallsOf(items), ItemCalls(item));
    ResultIdsConcat(ResultsOf(items), ItemResults(item));
    DistinctConcat(CallIds(CallsOf(items)), CallIds(ItemCalls(item)));
    DistinctConcat(ResultIds(ResultsOf(items)), ResultIds(ItemResults(item)));
  }

  lemma {:induction false} PairedPrefix(items: seq<ConversationItem>, tools: seq<ToolDefinition>, n: nat)
    requires n <= |items| && Paired(items, tools)
    ensures Paired(items[..n], tools)
  {
    if n < |items| {
      var init := items[..|items| - 1];
      assert items == init + [items[|items| - 1]];
      PairedStep(init, tools, items[|items| - 1]);
      PairedPrefix(init, tools, n);
      assert init[..n] == items[..n];
    } else {
      assert items[..n] == items;
    }
  }

  method IndexTools(tools: seq<ToolDefinition>) returns (r: Option<map<string, ToolDefinition>>)
    ensures r.Some? <==> ToolsWellDefined(tools)
    ensures r.Some? ==> IndexesTools(r.value, tools)
  {
    var definitions: map<string, ToolDefinition> := map[];
    for i := 0 to |tools|
      invariant ToolsWellDefined(tools[..i])
      invariant IndexesTools(definitions, tools[..i])
    {
      assert tools[..i + 1] == tools[..i] + [tools[i]];
      if !tools[i].Valid() {
        return None;
      }
      if tools[i].name in definitions {
        ghost var k :| 0 <= k < i && tools[k] == definitions[tools[i].name];
        return None;
      }
      definitions := definitions[tools[i].name := tools[i]];
    }
    assert tools[..|tools|] == tools;
    return Some(definitions);
  }

  lemma IndexesOneMore(names: map<CallId, string>, calls: seq<ToolCall>, call: ToolCall)
    requires IndexesCalls(names, calls) && Distinct(CallIds(calls))
    ensures Distinct(CallIds(calls + [call])) <==> call.callId !in names
    ensures call.callId !in names ==> IndexesCalls(names[call.callId := call.name], calls + [call])
  {
    CallIdsConcat(calls, [call]);
    DistinctConcat(CallIds(calls), CallIds([call]));
    if call.callId in names {
      var c :| c in calls && c.callId == call.callId;
      var k :| 0 <= k < |calls| && calls[k] == c;
      assert CallIds(calls)[k] == CallIds([call])[0];
    } else {
      assert forall i :: 0 <= i < |calls| ==> calls[i] in calls;
      var longer := calls + [call];
      assert forall c :: c in calls ==> c in longer;
      assert longer[|calls|] == call;
    }
  }

  /** Adds one batch of calls to the index of call names. */
  method IndexCalls(definitions: map<string, ToolDefinition>, ghost tools: seq<ToolDefinition>,
                    calls: seq<ToolCall>, names0: map<CallId, string>, ghost before: seq<ToolCall>)
    returns (r: Option<map<CallId, string>>)
    requires IndexesTools(definitions, tools) && ToolsWellDefined(tools)
    requires IndexesCalls(names0, before) && Distinct(CallIds(before))
    ensures r.Some? <==>
            && (forall c :: c in calls ==> c.Valid() && Defined(tools, c))
            && Distinct(CallIds(before + calls))
    ensures r.Some? ==> IndexesCalls(r.value, before + calls)
  {
    var names := names0;
    ghost var seen := before;
    for i := 0 to |calls|
      invariant seen + calls[i..] == before + calls
      invariant forall k :: 0 <= k < i ==> calls[k].Valid() && Defined(tools, calls[k])
      invariant IndexesCalls(names, seen) && Distinct(CallIds(seen))
    {
      var call := calls[i];
      IndexesOneMore(names, seen, call);
      if !call.Valid() || call.name !in definitions || !definitions[call.name].Accepts(call) {
        assert !call.Valid() || !Defined(tools, call);
        return None;
      }
      assert before + calls == (seen + [call]) + calls[i + 1..];
      if call.callId in names {
        CallIdsConcat(seen + [call], calls[i + 1..]);
        DistinctConcat(CallIds(seen + [call]), CallIds(calls[i + 1..]));
        return None;
      }
      names := names[call.callId := call.name];
      seen := seen + [call];
    }
    return Some(names);
  }

  /** Checks one item against the index of earlier calls and the set of answered ids. */
  method CheckItem(item: ConversationItem, ghost tools: seq<ToolDefinition>,
                   definitions: map<string, ToolDefinition>,
                   names: map<CallId, string>, ghost calls: seq<ToolCall>,
                   answered: set<CallId>, ghost results: seq<ToolResult>)
    returns (r: Option<(map<CallId, string>, set<CallId>)>)
    requires ToolsWellDefined(tools) && IndexesTools(definitions, tools)
    requires IndexesCalls(names, calls) && Distinct(CallIds(calls))
    requires Distinct(ResultIds(results))
    requires forall id :: id in answered <==> id in ResultIds(results)
    ensures r.Some? <==>
            && ItemFits(item, tools, calls)
            && Distinct(CallIds(calls + ItemCalls(item)))
            && Distinct(ResultIds(results + ItemResults(item)))
    ensures r.Some? ==>
              && IndexesCalls(r.value.0, calls + ItemCalls(item))
              && forall id :: id in r.value.1 <==> id in ResultIds(results + ItemResults(item))
  {
    assert calls + [] == calls && results + [] == results;
    match item {
      case Message(_, _) =>
        return Some((names, answered));
      case ToolCalls(batch) =>
        if batch == [] {
          return None;
        }
        var next := IndexCalls(definitions, tools, batch, names, calls);
        return if next.None? then None else Some((next.value, answered));
      case ToolOutput(result) =>
        if !result.Valid() || result.callId !in names || names[result.callId] != result.toolName {
          if Answers(calls, result) {
            ghost var c :| c in calls && c.callId == result.callId && c.name == result.toolName;
          }
          return None;
        }
        ghost var ids := ResultIds(results);
        ghost var longer := ResultIds(results + [result]);
        assert longer == ids + [result.callId];
        if result.callId in answered {
          ghost var k :| 0 <= k < |ids| && ids[k] == result.callId;
          assert longer[k] == longer[|ids|];
          return None;
        }
        return Some((names, answered + {result.callId}));
    }
  }

  lemma IndexIsEmpty(names: map<CallId, string>, calls: seq<ToolCall>)
    requires IndexesCalls(names, calls)
    ensures names == map[] <==> calls == []
  {
    if calls != [] {
      assert calls[0] in calls;
    } else {
      assert forall id :: id !in names;
      assert names == map[];
    }
  }

  ghost predicate Scanned(names: map<CallId, string>, answered: set<CallId>, items: seq<ConversationItem>) {
    && IndexesCalls(names, CallsOf(items))
    && forall id :: id in answered <==> id in ResultIds(ResultsOf(items))
  }

  lemma ScanStep(items: seq<ConversationItem>, tools: seq<ToolDefinition>, i: nat)
    requires i < |items|
    ensures var calls, results := CallsOf(items[..i]), ResultsOf(items[..i]);
            && CallsOf(items[..i + 1]) == calls + ItemCalls(items[i])
            && ResultsOf(items[..i + 1]) == results + ItemResults(items[i])
            && (Paired(items[..i + 1], tools) <==>
                && Paired(items[..i], tools)
                && ItemFits(items[i], tools, calls)
                && Distinct(CallIds(calls + ItemCalls(items[i])))
                && Distinct(ResultIds(results + ItemResults(items[i]))))
    ensures Paired(items, tools) ==> Paired(items[..i + 1], tools)
  {
    assert items[..i + 1] == items[..i] + [items[i]];
    assert items[..i + 1][..i] == items[..i];
    PairedStep(items[..i], tools, items[i]);
    if Paired(items, tools) {
      PairedPrefix(items, tools, i + 1);
    }
  }

  /** Scans the conversation once and accepts exactly the paired ones. */
  method CheckPairing(items: seq<ConversationItem>, tools: seq<ToolDefinition>,
                      definitions: map<string, ToolDefinition>)
    returns (ok: bool, hasCalls: bool)
    requires ToolsWellDefined(tools) && IndexesTools(definitions, tools)
    ensures ok <==> Paired(items, tools)
    ensures ok ==> (hasCalls <==> CallsOf(items) != [])
  {
    var names: map<CallId, string> := map[];
    var answered: set<CallId> := {};
    for i := 0 to |items|
      invariant Paired(items[..i], tools)
      invariant Scanned(names, answered, items[..i])
    {
      ghost var before := items[..i];
      ScanStep(items, tools, i);
      var next := CheckItem(items[i], tools, definitions, names, CallsOf(before), answered, ResultsOf(before));
      if next.None? {
        return false, false;
      }
      names, answered := next.value.0, next.value.1;
    }
    assert items[..|items|] == items;
    ok, hasCalls := true, names != map[];
    IndexIsEmpty(names, CallsOf(items));
  }

  method ValidateRequest(req: TurnRequest) returns (ok: bool)
    ensures ok <==> ValidRequest(req)
  {
    if req.messages == [] || |req.messages| > MAX_MESSAGES
       || exists i :: 0 <= i < |req.messages| && req.messages[i].ByteLen() > MAX_MESSAGE_BYTES
    {
      return false;
    }
    var definitions := IndexTools(req.tools);
    if definitions.None? {
      return false;
    }
    var paired, hasCalls := CheckPairing(req.messages, req.tools, definitions.value);
    if !paired || ((req.tools != [] || hasCalls) && req.agentLimits.None?) {
      return false;
    }
    if req.agentLimits.Some? && !req.agentLimits.value.Valid() {
      return false;
    }
    return 1 <= req.maxOutputTokens <= MAX_OUTPUT_TOKENS;
  }
}
