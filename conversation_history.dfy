/**
 * The per-trace history loader: the fetchers' handling of the HTTP status, the
 * extraction of one user/assistant pair per trace from that trace's observations,
 * and the plain-text rendering of a conversation for an agent prompt.
 */
module ConversationHistory {
  import opened Wrappers
  import opened JsonValues
  import opened TraceRecords
  import opened Sorting

  const HISTORY_HEADER: string := "過去の会話履歴:\n\n"
  const USER_LABEL: string := "ユーザー"
  const ASSISTANT_LABEL: string := "アシスタント"

  /** A status other than 200 yields no records; a 200 reply without `data` yields none either. */
  function ListFrom<T>(r: ListResponse<T>): (items: seq<T>)
    ensures r.status != 200 ==> items == []
    ensures r.status == 200 && r.data.Some? ==> items == r.data.value
    ensures r.status == 200 && r.data.None? ==> items == []
  {
    if r.status == 200 then r.data.GetOr([]) else []
  }

  /** `get_trace_details`: the decoded body on 200, an empty object otherwise. */
  function TraceDetailsFrom(r: ObjectResponse): (details: Json)
    ensures r.status != 200 ==> details == JObject(map[])
    ensures r.status == 200 ==> details == r.body
  {
    if r.status == 200 then r.body else JObject(map[])
  }

  /** The input of the first observation that has a truthy input. */
  function FirstInput(obs: seq<Observation>): (r: Option<Json>)
    ensures r.Some? <==> exists i :: 0 <= i < |obs| && HasInput(obs[i])
    ensures r.Some? ==> exists i :: 0 <= i < |obs| && HasInput(obs[i]) && obs[i].input.value == r.value
                                    && forall k :: 0 <= k < i ==> !HasInput(obs[k])
  {
    if obs == [] then None
    else
      var earlier := FirstInput(obs[..|obs| - 1]);
      if earlier.Some? then
        assert forall k :: 0 <= k < |obs| - 1 ==> obs[..|obs| - 1][k] == obs[k];
        earlier
      else if HasInput(obs[|obs| - 1]) then Some(obs[|obs| - 1].input.value)
      else None
  }

  /** The output of the last GENERATION observation that has a truthy output. */
  function LastGenerationOutput(obs: seq<Observation>): (r: Option<Json>)
    ensures r.Some? <==> exists i :: 0 <= i < |obs| && IsAnsweringGeneration(obs[i])
    ensures r.Some? ==> exists i :: 0 <= i < |obs| && IsAnsweringGeneration(obs[i]) && obs[i].output.value == r.value
                                    && forall k :: i < k < |obs| ==> !IsAnsweringGeneration(obs[k])
  {
    if obs == [] then None
    else if IsAnsweringGeneration(obs[|obs| - 1]) then Some(obs[|obs| - 1].output.value)
    else
      assert forall k :: 0 <= k < |obs| - 1 ==> obs[..|obs| - 1][k] == obs[k];
      LastGenerationOutput(obs[..|obs| - 1])
  }

  /** The messages one trace contributes, given its observations in chronological order. */
  function TurnOf(sorted: seq<Observation>, render: Json -> string): seq<Message> {
    var user := FirstInput(sorted);
    var assistant := LastGenerationOutput(sorted);
    (if user.Some? then [Message("user", Show(user.value, render))] else [])
    + (if assistant.Some? then [Message("assistant", Show(assistant.value, render))] else [])
  }

  /** A trace whose `id` is missing or empty is skipped. */
  predicate HasTraceId(t: Trace) {
    t.id.Some? && t.id.value != ""
  }

  /** Observations sorted stably by `startTime`, a missing one counting as "". */
  function Chronological(obs: seq<Observation>): seq<Observation> {
    SortByKey(obs, StartKey, false)
  }

  function TraceMessages(t: Trace, fetch: string -> ListResponse<Observation>, render: Json -> string): seq<Message> {
    if HasTraceId(t) then TurnOf(Chronological(ListFrom(fetch(t.id.value))), render) else []
  }

  /** The conversation of a list of traces: each trace's messages, in trace order. */
  function History(traces: seq<Trace>, fetch: string -> ListResponse<Observation>, render: Json -> string): seq<Message> {
    if traces == [] then [] else TraceMessages(traces[0], fetch, render) + History(traces[1..], fetch, render)
  }

  /** One pass over a trace's sorted observations, keeping the first input and the last generation output. */
  method ScanTurn(sorted: seq<Observation>) returns (userInput: Option<Json>, assistantOutput: Option<Json>)
    ensures userInput == FirstInput(sorted)
    ensures assistantOutput == LastGenerationOutput(sorted)
  {
    userInput, assistantOutput := None, None;
    for i := 0 to |sorted|
      invariant userInput == FirstInput(sorted[..i])
      invariant assistantOutput == LastGenerationOutput(sorted[..i])
    {
      var obs := sorted[i];
      assert sorted[..i + 1][..i] == sorted[..i];
      if HasInput(obs) && userInput.None? {
        userInput := Some(obs.input.value);
      }
      if IsAnsweringGeneration(obs) {
        assistantOutput := Some(obs.output.value);
      }
    }
    assert sorted[..|sorted|] == sorted;
  }

  /** The messages one trace contributes: its first input and its last answering generation output. */
  method TraceTurn(trace: Trace, fetch: string -> ListResponse<Observation>, render: Json -> string)
    returns (messages: seq<Message>)
    ensures messages == TraceMessages(trace, fetch, render)
  {
    messages := [];
    if !HasTraceId(trace) {
      return;
    }
    var observations := ListFrom(fetch(trace.id.value));
    var sorted := Chronological(observations);
    var userInput, assistantOutput := ScanTurn(sorted);
    if userInput.Some? {
      messages := messages + [Message("user", Show(userInput.value, render))];
    }
    if assistantOutput.Some? {
      messages := messages + [Message("assistant", Show(assistantOutput.value, render))];
    }
  }

  /** `extract_conversation_history`, with the per-trace observation fetch passed in as `fetch`. */
  method ExtractConversationHistory(traces: seq<Trace>, fetch: string -> ListResponse<Observation>, render: Json -> string)
    returns (conversation: seq<Message>)
    ensures conversation == History(traces, fetch, render)
  {
    conversation := [];
    for i := 0 to |traces|
      invariant conversation == History(traces[..i], fetch, render)
    {
      var messages := TraceTurn(traces[i], fetch, render);
      assert traces[..i + 1] == traces[..i] + [traces[i]];
      HistorySnoc(traces[..i], traces[i], fetch, render);
      conversation := conversation + messages;
    }
    assert traces[..|traces|] == traces;
  }

  /** Each trace contributes at most a user message followed by an assistant message. */
  lemma TraceMessagesShape(t: Trace, fetch: string -> ListResponse<Observation>, render: Json -> string)
    ensures var m := TraceMessages(t, fetch, render);
            && |m| <= 2
            && (!HasTraceId(t) ==> m == [])
            && (forall i :: 0 <= i < |m| ==> m[i].role == "user" || m[i].role == "assistant")
            && (|m| == 2 ==> m[0].role == "user" && m[1].role == "assistant")
  {
  }

  /** The user message of a trace is the first observation, in stable `startTime` order, with any truthy input. */
  lemma {:induction false} UserMessageIsFirstInput(t: Trace, fetch: string -> ListResponse<Observation>, render: Json -> string)
    requires HasTraceId(t)
    ensures var sorted := Chronological(ListFrom(fetch(t.id.value)));
            var m := TraceMessages(t, fetch, render);
            && (m != [] && m[0].role == "user" <==> exists i :: 0 <= i < |sorted| && HasInput(sorted[i]))
            && (m != [] && m[0].role == "user" ==>
                  exists i :: 0 <= i < |sorted| && HasInput(sorted[i]) && m[0].content == Show(sorted[i].input.value, render)
                              && forall k :: 0 <= k < i ==> !HasInput(sorted[k]))
            && (m != [] && m[|m| - 1].role == "assistant" <==> exists i :: 0 <= i < |sorted| && IsAnsweringGeneration(sorted[i]))
  {
  }

  /** Appending one trace appends its messages. */
  lemma {:induction false} HistorySnoc(traces: seq<Trace>, t: Trace, fetch: string -> ListResponse<Observation>, render: Json -> string)
    ensures History(traces + [t], fetch, render) == History(traces, fetch, render) + TraceMessages(t, fetch, render)
  {
    if traces != [] {
      assert (traces + [t])[1..] == traces[1..] + [t];
      HistorySnoc(traces[1..], t, fetch, render);
    }
  }

  /** The conversation of concatenated trace lists is the concatenation of their conversations. */
  lemma {:induction false} HistoryAppend(a: seq<Trace>, b: seq<Trace>, fetch: string -> ListResponse<Observation>, render: Json -> string)
    ensures History(a + b, fetch, render) == History(a, fetch, render) + History(b, fetch, render)
  {
    if a == [] {
      assert a + b == b;
    } else {
      assert (a + b)[1..] == a[1..] + b;
      HistoryAppend(a[1..], b, fetch, render);
    }
  }

  /** At most two messages per trace, and at most one user message per trace. */
  lemma {:induction false} HistoryBounded(traces: seq<Trace>, fetch: string -> ListResponse<Observation>, render: Json -> string)
    ensures |History(traces, fetch, render)| <= 2 * |traces|
    ensures CountRole(History(traces, fetch, render), "user") <= |traces|
  {
    if traces != [] {
      HistoryBounded(traces[1..], fetch, render);
      var m := TraceMessages(traces[0], fetch, render);
      TraceMessagesShape(traces[0], fetch, render);
      CountRoleAppend(m, History(traces[1..], fetch, render), "user");
      assert CountRole(m, "user") <= 1 by {
        if |m| == 2 { assert m[1..][1..] == []; }
      }
    }
  }

  /** The label a message gets: `ユーザー` for the user role, `アシスタント` for every other role. */
  function RoleLabel(role: string): (tag: string)
    ensures role == "user" ==> tag == USER_LABEL
    ensures role != "user" ==> tag == ASSISTANT_LABEL
  {
    if role == "user" then USER_LABEL else ASSISTANT_LABEL
  }

  function Block(m: Message): string {
    RoleLabel(m.role) + ": " + m.content + "\n\n"
  }

  /** The message blocks of a conversation, in order. */
  function Blocks(conv: seq<Message>): string {
    if conv == [] then [] else Block(conv[0]) + Blocks(conv[1..])
  }

  /** One line of `format_for_agent`: the role label, the content and a blank line. */
  method FormatMessage(msg: Message) returns (block: string)
    ensures block == Block(msg)
  {
    var role := if msg.role == "user" then USER_LABEL else ASSISTANT_LABEL;
    block := role + ": " + msg.content + "\n\n";
  }

  /** `format_for_agent`: the header, then one `label: content` block per message. */
  method FormatForAgent(conversation: seq<Message>) returns (formatted: string)
    ensures formatted == HISTORY_HEADER + Blocks(conversation)
  {
    formatted := HISTORY_HEADER;
    assert conversation[0..] == conversation;
    for i := 0 to |conversation|
      invariant formatted + Blocks(conversation[i..]) == HISTORY_HEADER + Blocks(conversation)
    {
      var block := FormatMessage(conversation[i]);
      assert conversation[i..][1..] == conversation[i + 1..];
      formatted := formatted + block;
    }
    assert formatted + [] == formatted;
  }

  /** The text of a longer conversation extends the text of its prefix by the new blocks alone. */
  lemma {:induction false} BlocksAppend(a: seq<Message>, b: seq<Message>)
    ensures Blocks(a + b) == Blocks(a) + Blocks(b)
  {
    if a == [] {
      assert a + b == b;
    } else {
      assert (a + b)[1..] == a[1..] + b;
      BlocksAppend(a[1..], b);
    }
  }
}
