/**
 * The multi-agent rebuild: each trace's own input and output become session
 * items (user message, assistant envelope tagged with the agent's name, or a
 * handoff record); handoff records are dropped before the items reach the
 * session. Also the per-trace agent-flow summary.
 */
module AdvancedSessionBuilder {
  import opened Wrappers
  import opened JsonValues
  import opened Strings
  import opened TraceRecords
  import opened ConversationHistory
  import opened SessionItems

  /** Keys probed, in order, for a dict input and for a dict output. */
  const INPUT_KEYS: seq<string> := ["content", "message", "query"]
  const OUTPUT_KEYS: seq<string> := ["content", "message", "response"]
  /** The summaries of the agent flow keep this many characters. */
  const SUMMARY_LENGTH: nat := 50

  /** `d.get(k1) or d.get(k2) or ...`: the first truthy value among `keys`, if any. */
  function Probe(fields: map<string, Json>, keys: seq<string>): (r: Option<Json>)
    ensures r.None? <==> forall i :: 0 <= i < |keys| ==> !TruthyField(Get(fields, keys[i]))
    ensures r.Some? ==> exists i :: 0 <= i < |keys| && Get(fields, keys[i]) == r && Truthy(r.value)
                                    && forall k :: 0 <= k < i ==> !TruthyField(Get(fields, keys[k]))
  {
    if keys == [] then None
    else if TruthyField(Get(fields, keys[0])) then Get(fields, keys[0])
    else
      var r := Probe(fields, keys[1..]);
      assert forall i :: 0 < i < |keys| ==> keys[1..][i - 1] == keys[i];
      if r.Some? then
        ghost var i :| 0 <= i < |keys[1..]| && Get(fields, keys[1..][i]) == r && Truthy(r.value)
                       && forall k :: 0 <= k < i ==> !TruthyField(Get(fields, keys[1..][k]));
        assert Get(fields, keys[i + 1]) == r;
        r
      else r
  }

  /** The probe with its last fallback, `str(d)`. */
  function ProbeOr(fields: map<string, Json>, keys: seq<string>, render: Json -> string): (c: Json)
    ensures Truthy(c) || c == JString(render(JObject(fields)))
    ensures Probe(fields, keys).Some? ==> c == Probe(fields, keys).value
    ensures Probe(fields, keys).None? ==> c == JString(render(JObject(fields)))
  {
    Probe(fields, keys).GetOr(JString(render(JObject(fields))))
  }

  function AgentName(t: Trace): string {
    t.name.GetOr("")
  }

  /** The item a trace's `input` yields: a string as is, a dict through the probe, nothing otherwise. */
  function InputItems(t: Trace, render: Json -> string): (r: seq<Item>)
    ensures |r| <= 1 && forall it :: it in r ==> it.UserMessage?
    ensures r != [] <==> t.input.Some? && (t.input.value.JString? || t.input.value.JObject?)
    ensures t.input.Some? && t.input.value.JString? ==> r == [UserMessage(t.input.value)]
    ensures t.input.Some? && t.input.value.JObject? ==>
              r == [UserMessage(ProbeOr(t.input.value.fields, INPUT_KEYS, render))]
  {
    if t.input.Some? then
      match t.input.value
      case JString(s) => [UserMessage(JString(s))]
      case JObject(f) => [UserMessage(ProbeOr(f, INPUT_KEYS, render))]
      case _ => []
    else []
  }

  /** A dict output naming a `handoff` or a `transfer` is a handoff, not a message. */
  predicate IsHandoffOutput(f: map<string, Json>) {
    "handoff" in f || "transfer" in f
  }

  /**
   * The item a trace's `output` yields; an assistant envelope's id is `position`,
   * the number of items gathered before it.
   */
  function OutputItems(t: Trace, position: nat, render: Json -> string): (r: seq<Item>)
    ensures |r| <= 1 && forall it :: it in r ==> it.AssistantMessage? || it.Handoff?
    ensures r != [] <==> t.output.Some? && (t.output.value.JString? || t.output.value.JObject?)
    ensures t.output.Some? && t.output.value.JString? ==>
              r == [AssistantEnvelope(t.output.value, position, Some(t.name.GetOr("")))]
    ensures t.output.Some? && t.output.value.JObject? && IsHandoffOutput(t.output.value.fields) ==>
              r == [Handoff(t.name.GetOr(""), Get(t.output.value.fields, "handoff_to").GetOr(JString("unknown")),
                            Get(t.output.value.fields, "reason").GetOr(JString("")), t.timestamp)]
    ensures t.output.Some? && t.output.value.JObject? && !IsHandoffOutput(t.output.value.fields) ==>
              r == [AssistantEnvelope(ProbeOr(t.output.value.fields, OUTPUT_KEYS, render), position, Some(t.name.GetOr("")))]
  {
    if t.output.Some? then
      match t.output.value
      case JString(s) => [AssistantEnvelope(JString(s), position, Some(AgentName(t)))]
      case JObject(f) =>
        if IsHandoffOutput(f) then
          [Handoff(AgentName(t), Get(f, "handoff_to").GetOr(JString("unknown")), Get(f, "reason").GetOr(JString("")), t.timestamp)]
        else [AssistantEnvelope(ProbeOr(f, OUTPUT_KEYS, render), position, Some(AgentName(t)))]
      case _ => []
    else []
  }

  /** One trace's items appended to those gathered so far. */
  function WithTrace(before: seq<Item>, t: Trace, render: Json -> string): seq<Item> {
    var afterInput := before + InputItems(t, render);
    afterInput + OutputItems(t, |afterInput|, render)
  }

  /** `items_to_add` after the loop over all traces. */
  function AllItems(traces: seq<Trace>, render: Json -> string): seq<Item> {
    if traces == [] then [] else WithTrace(AllItems(traces[..|traces| - 1], render), traces[|traces| - 1], render)
  }

  /** The list comprehension that removes handoff records. */
  function WithoutHandoffs(items: seq<Item>): seq<Item> {
    if items == [] then []
    else (if items[0].Handoff? then [] else [items[0]]) + WithoutHandoffs(items[1..])
  }

  /** The input half of one iteration of the gathering loop. */
  method AddInput(items: seq<Item>, trace: Trace, render: Json -> string) returns (items': seq<Item>)
    ensures items' == items + InputItems(trace, render)
  {
    items' := items;
    if trace.input.Some? {
      match trace.input.value {
        case JString(s) =>
          items' := items' + [UserMessage(JString(s))];
        case JObject(f) =>
          var content := Probe(f, INPUT_KEYS).GetOr(JString(render(JObject(f))));
          items' := items' + [UserMessage(content)];
        case _ =>
      }
    }
  }

  /** The output half of one iteration of the gathering loop. */
  method AddOutput(items: seq<Item>, trace: Trace, render: Json -> string) returns (items': seq<Item>)
    ensures items' == items + OutputItems(trace, |items|, render)
  {
    items' := items;
    var traceName := AgentName(trace);
    if trace.output.Some? {
      match trace.output.value {
        case JString(s) =>
          items' := items' + [AssistantMessage([OutputText(JString(s), [], [])], "message", "complete", MsgId(|items|), Some(traceName))];
        case JObject(f) =>
          if "handoff" in f || "transfer" in f {
            var toAgent := if "handoff_to" in f then f["handoff_to"] else JString("unknown");
            var reason := if "reason" in f then f["reason"] else JString("");
            items' := items' + [Handoff(traceName, toAgent, reason, trace.timestamp)];
          } else {
            var content := Probe(f, OUTPUT_KEYS).GetOr(JString(render(JObject(f))));
            items' := items' + [AssistantMessage([OutputText(content, [], [])], "message", "complete", MsgId(|items|), Some(traceName))];
          }
        case _ =>
      }
    }
  }

  /** The loop of `rebuild_from_langfuse_advanced` that gathers `items_to_add`. */
  method GatherItems(traces: seq<Trace>, render: Json -> string) returns (items: seq<Item>)
    ensures items == AllItems(traces, render)
  {
    items := [];
    for i := 0 to |traces|
      invariant items == AllItems(traces[..i], render)
    {
      assert traces[..i + 1][..i] == traces[..i];
      items := AddInput(items, traces[i], render);
      items := AddOutput(items, traces[i], render);
    }
    assert traces[..|traces|] == traces;
  }

  /**
   * `AdvancedSessionBuilder.rebuild_from_langfuse_advanced`: a fresh session holding
   * every gathered item except the handoff records.
   */
  method RebuildFromLangfuseAdvanced(sessionId: string, tracesResp: ListResponse<Trace>, render: Json -> string)
    returns (session: AgentSession)
    ensures fresh(session) && session.sessionId == sessionId
    ensures session.items == WithoutHandoffs(AllItems(ListFrom(tracesResp), render))
  {
    session := new AgentSession(sessionId);
    var traces := ListFrom(tracesResp);
    if traces == [] {
      return;
    }
    var itemsToAdd := GatherItems(traces, render);
    var filteredItems := WithoutHandoffs(itemsToAdd);
    if filteredItems != [] {
      session.AddItems(filteredItems);
    }
  }

  /** Every gathered assistant envelope's id is its position among all gathered items. */
  lemma {:induction false} AllItemsIdsArePositions(traces: seq<Trace>, render: Json -> string)
    ensures IdsArePositions(AllItems(traces, render))
  {
    if traces != [] {
      AllItemsIdsArePositions(traces[..|traces| - 1], render);
    }
  }

  /** Filtering keeps exactly the non-handoff items and removes every handoff. */
  lemma {:induction false} WithoutHandoffsContents(items: seq<Item>)
    ensures var r := WithoutHandoffs(items);
            (forall it :: it in r ==> !it.Handoff?)
            && (forall it :: it in r <==> it in items && !it.Handoff?)
            && |r| <= |items|
  {
    if items != [] {
      WithoutHandoffsContents(items[1..]);
      assert items == [items[0]] + items[1..];
    }
  }

  /** Each kept item occurs as often as in the input; handoffs occur not at all. */
  lemma {:induction false} WithoutHandoffsCounts(items: seq<Item>)
    ensures forall it :: multiset(WithoutHandoffs(items))[it] == if it.Handoff? then 0 else multiset(items)[it]
  {
    if items != [] {
      WithoutHandoffsCounts(items[1..]);
      assert items == [items[0]] + items[1..];
    }
  }

  /** `r[i]` is `s[f[i]]` for strictly increasing positions `f`: `r` is taken from `s` in order. */
  ghost predicate TakenInOrder<T>(r: seq<T>, s: seq<T>, f: seq<int>) {
    |f| == |r|
    && (forall i :: 0 <= i < |f| ==> 0 <= f[i] < |s| && r[i] == s[f[i]])
    && (forall i, j :: 0 <= i < j < |f| ==> f[i] < f[j])
  }

  /** The positions `f`, one further along. */
  function Shift(f: seq<int>): (g: seq<int>)
    ensures |g| == |f| && forall i :: 0 <= i < |f| ==> g[i] == f[i] + 1
  {
    seq(|f|, i requires 0 <= i < |f| => f[i] + 1)
  }

  /** An item put in front of `s` and skipped leaves the rest taken in order. */
  lemma SkipHead<T>(r: seq<T>, s: seq<T>, x: T, f: seq<int>)
    requires TakenInOrder(r, s, f)
    ensures TakenInOrder(r, [x] + s, Shift(f))
  {
    var g := Shift(f);
    forall i | 0 <= i < |g| ensures 0 <= g[i] < |[x] + s| && r[i] == ([x] + s)[g[i]] {
      assert ([x] + s)[g[i]] == s[f[i]];
    }
  }

  /** An item put in front of `s` and kept is taken first. */
  lemma KeepHead<T>(r: seq<T>, s: seq<T>, x: T, f: seq<int>)
    requires TakenInOrder(r, s, f)
    ensures TakenInOrder([x] + r, [x] + s, [0] + Shift(f))
  {
    SkipHead(r, s, x, f);
    var g := [0] + Shift(f);
    var r' := [x] + r;
    assert forall i :: 0 < i < |g| ==> g[i] == Shift(f)[i - 1] && r'[i] == r[i - 1];
  }

  /** Filtering keeps the order of the items it keeps. */
  lemma {:induction false} WithoutHandoffsInOrder(items: seq<Item>)
    ensures exists f :: TakenInOrder(WithoutHandoffs(items), items, f)
  {
    if items == [] {
      assert WithoutHandoffs(items) == [];
      assert TakenInOrder([], items, []);
    } else {
      var rest := WithoutHandoffs(items[1..]);
      WithoutHandoffsInOrder(items[1..]);
      var f :| TakenInOrder(rest, items[1..], f);
      assert items == [items[0]] + items[1..];
      if items[0].Handoff? {
        SkipHead(rest, items[1..], items[0], f);
        assert WithoutHandoffs(items) == rest;
        assert TakenInOrder(WithoutHandoffs(items), items, Shift(f));
      } else {
        KeepHead(rest, items[1..], items[0], f);
        assert WithoutHandoffs(items) == [items[0]] + rest;
        assert TakenInOrder(WithoutHandoffs(items), items, [0] + Shift(f));
      }
    }
  }

  /**
   * Filtering keeps ascending ids: the envelopes that reach the session have
   * distinct, increasing ids, with gaps where handoffs stood.
   */
  lemma {:induction false} WithoutHandoffsAscending(items: seq<Item>)
    requires AscendingIds(items)
    ensures AscendingIds(WithoutHandoffs(items))
  {
    if items != [] {
      assert AscendingIds(items[1..]) by {
        forall i, j | 0 <= i < j < |items[1..]| && items[1..][i].AssistantMessage? && items[1..][j].AssistantMessage?
          ensures items[1..][i].id.n < items[1..][j].id.n
        {
          assert items[1..][i] == items[i + 1] && items[1..][j] == items[j + 1];
        }
      }
      WithoutHandoffsAscending(items[1..]);
      WithoutHandoffsContents(items[1..]);
      var rest := WithoutHandoffs(items[1..]);
      if !items[0].Handoff? {
        var r := [items[0]] + rest;
        forall i, j | 0 <= i < j < |r| && r[i].AssistantMessage? && r[j].AssistantMessage?
          ensures r[i].id.n < r[j].id.n
        {
          if i == 0 {
            assert r[j] in items[1..];
            var k :| 0 <= k < |items[1..]| && items[1..][k] == r[j];
            assert items[k + 1] == r[j];
          } else {
            assert r[i] == rest[i - 1] && r[j] == rest[j - 1];
          }
        }
      }
    }
  }

  /** The items that reach the session carry distinct, increasing assistant ids and no handoff. */
  lemma SessionItemsWellFormed(traces: seq<Trace>, render: Json -> string)
    ensures AscendingIds(WithoutHandoffs(AllItems(traces, render)))
    ensures forall it :: it in WithoutHandoffs(AllItems(traces, render)) ==> !it.Handoff?
  {
    AllItemsIdsArePositions(traces, render);
    WithoutHandoffsAscending(AllItems(traces, render));
    WithoutHandoffsContents(AllItems(traces, render));
  }

  /** One entry of the agent flow. */
  datatype FlowEntry = FlowEntry(agent: string, timestamp: Option<string>, inputSummary: string, outputSummary: string)

  /** The flow entry of one trace: a missing name reads `Unknown`, summaries are cut to 50 characters. */
  function FlowOf(t: Trace, render: Json -> string): (e: FlowEntry)
    ensures e.agent == (if t.name.Some? then t.name.value else "Unknown")
    ensures e.timestamp == t.timestamp
    ensures var input, output := Show(t.input.GetOr(JString("")), render), Show(t.output.GetOr(JString("")), render);
            && |e.inputSummary| == (if |input| < SUMMARY_LENGTH then |input| else SUMMARY_LENGTH)
            && |e.outputSummary| == (if |output| < SUMMARY_LENGTH then |output| else SUMMARY_LENGTH)
    ensures e.inputSummary <= Show(t.input.GetOr(JString("")), render)
    ensures e.outputSummary <= Show(t.output.GetOr(JString("")), render)
    ensures t.input.None? ==> e.inputSummary == ""
    ensures t.output.None? ==> e.outputSummary == ""
  {
    FlowEntry(t.name.GetOr("Unknown"), t.timestamp,
              Truncate(Show(t.input.GetOr(JString("")), render), SUMMARY_LENGTH),
              Truncate(Show(t.output.GetOr(JString("")), render), SUMMARY_LENGTH))
  }

  /** `extract_agent_flow`: exactly one entry per trace, in trace order. */
  method ExtractAgentFlow(traces: seq<Trace>, render: Json -> string) returns (flow: seq<FlowEntry>)
    ensures |flow| == |traces|
    ensures forall i :: 0 <= i < |traces| ==> flow[i] == FlowOf(traces[i], render)
  {
    flow := [];
    for i := 0 to |traces|
      invariant |flow| == i
      invariant forall k :: 0 <= k < i ==> flow[k] == FlowOf(traces[k], render)
    {
      var trace := traces[i];
      var agentName := trace.name.GetOr("Unknown");
      var inputText := Show(trace.input.GetOr(JString("")), render);
      var outputText := Show(trace.output.GetOr(JString("")), render);
      flow := flow + [FlowEntry(agentName, trace.timestamp, Truncate(inputText, SUMMARY_LENGTH), Truncate(outputText, SUMMARY_LENGTH))];
    }
  }
}
