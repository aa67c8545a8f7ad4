/**
 * History from cumulative generation inputs: every GENERATION with an input
 * re-sends the conversation so far as a list of role/content messages. The
 * messages are flattened in trace and observation order and then deduplicated
 * by their `role:content` signature, keeping the last occurrence of each.
 */
module GenerationDedup {
  import opened Wrappers
  import opened JsonValues
  import opened TraceRecords
  import opened ConversationHistory

  /** A flattened message; `content` is whatever JSON the generation input held. */
  datatype FlatMessage = FlatMessage(role: string, content: Json)

  /** `obs.get("type") == "GENERATION" and obs.get("input")`. */
  predicate IsCollected(o: Observation) {
    IsGeneration(o) && HasInput(o)
  }

  /** The GENERATION observations with an input among `obs`, in order. */
  function Generations(obs: seq<Observation>): seq<Observation> {
    if obs == [] then []
    else Generations(obs[..|obs| - 1]) + (if IsCollected(obs[|obs| - 1]) then [obs[|obs| - 1]] else [])
  }

  /** The collected observations of every trace, fetched trace by trace, in trace order. */
  function CollectedGenerations(traces: seq<Trace>, fetch: string -> ListResponse<Observation>): seq<Observation>
    requires forall t :: t in traces ==> t.id.Some?
  {
    if traces == [] then []
    else CollectedGenerations(traces[..|traces| - 1], fetch)
         + Generations(ListFrom(fetch(traces[|traces| - 1].id.value)))
  }

  /**
   * One entry of a generation's input list: a JSON object with both `role` and
   * `content` and a role other than `system` becomes a message; role `user` stays
   * `user`, every other role becomes `assistant`.
   */
  function FlatOf(entry: Json): (r: seq<FlatMessage>)
    ensures |r| <= 1
    ensures r != [] ==> r[0].role == "user" || r[0].role == "assistant"
    ensures r != [] <==> entry.JObject? && "content" in entry.fields && "role" in entry.fields
                         && entry.fields["role"] != JString("system")
    ensures r != [] ==>
              r[0] == FlatMessage(if entry.fields["role"] == JString("user") then "user" else "assistant",
                                  entry.fields["content"])
  {
    if entry.JObject? && "content" in entry.fields && "role" in entry.fields then
      var role := entry.fields["role"];
      if role != JString("system") then
        [FlatMessage(if role == JString("user") then "user" else "assistant", entry.fields["content"])]
      else []
    else []
  }

  function FlatEntries(entries: seq<Json>): seq<FlatMessage> {
    if entries == [] then [] else FlatEntries(entries[..|entries| - 1]) + FlatOf(entries[|entries| - 1])
  }

  /** `obs.get("input", [])`: only a list input contributes messages. */
  function InputEntries(o: Observation): seq<Json> {
    var input := o.input.GetOr(JArray([]));
    if input.JArray? then input.elems else []
  }

  function FlattenAll(obs: seq<Observation>): seq<FlatMessage> {
    if obs == [] then [] else FlattenAll(obs[..|obs| - 1]) + FlatEntries(InputEntries(obs[|obs| - 1]))
  }

  /** The dedup key `f"{role}:{content}"`. */
  function Signature(m: FlatMessage, render: Json -> string): string {
    m.role + ":" + Show(m.content, render)
  }

  function Signatures(s: seq<FlatMessage>, render: Json -> string): set<string> {
    if s == [] then {} else {Signature(s[0], render)} + Signatures(s[1..], render)
  }

  lemma {:induction false} SignaturesMember(s: seq<FlatMessage>, render: Json -> string, sig: string)
    ensures sig in Signatures(s, render) <==> exists i :: 0 <= i < |s| && Signature(s[i], render) == sig
  {
    if s != [] {
      SignaturesMember(s[1..], render, sig);
      if sig in Signatures(s[1..], render) {
        var i :| 0 <= i < |s[1..]| && Signature(s[1..][i], render) == sig;
        assert Signature(s[i + 1], render) == sig;
      }
      forall i | 0 < i < |s| && Signature(s[i], render) == sig ensures sig in Signatures(s[1..], render) {
        assert s[1..][i - 1] == s[i];
      }
    }
  }

  /** The reference definition: an item survives exactly when no later item has its signature. */
  function KeepLast(s: seq<FlatMessage>, render: Json -> string): seq<FlatMessage> {
    if s == [] then []
    else (if Signature(s[0], render) in Signatures(s[1..], render) then [] else [s[0]]) + KeepLast(s[1..], render)
  }

  /** The scan from the newest message back, inserting unseen signatures at the front. */
  method DedupKeepLast(conversation: seq<FlatMessage>, render: Json -> string) returns (unique: seq<FlatMessage>)
    ensures unique == KeepLast(conversation, render)
  {
    unique := [];
    var seen: set<string> := {};
    var i := |conversation|;
    while i > 0
      invariant 0 <= i <= |conversation|
      invariant unique == KeepLast(conversation[i..], render)
      invariant seen == Signatures(conversation[i..], render)
    {
      i := i - 1;
      var msg := conversation[i];
      assert conversation[i..][1..] == conversation[i + 1..];
      var key := msg.role + ":" + Show(msg.content, render);
      if key !in seen {
        seen := seen + {key};
        unique := [msg] + unique;
      }
    }
  }

  /** Phase one: every trace's GENERATION observations that carry an input. */
  method CollectGenerations(traces: seq<Trace>, fetch: string -> ListResponse<Observation>)
    returns (allObservations: seq<Observation>)
    requires forall t :: t in traces ==> t.id.Some?
    ensures allObservations == CollectedGenerations(traces, fetch)
  {
    allObservations := [];
    for i := 0 to |traces|
      invariant allObservations == CollectedGenerations(traces[..i], fetch)
    {
      assert traces[..i + 1][..i] == traces[..i];
      var observations := ListFrom(fetch(traces[i].id.value));
      ghost var before := allObservations;
      for j := 0 to |observations|
        invariant allObservations == before + Generations(observations[..j])
      {
        assert observations[..j + 1][..j] == observations[..j];
        var obs := observations[j];
        if obs.kind == Some("GENERATION") && TruthyField(obs.input) {
          allObservations := allObservations + [obs];
        }
      }
      assert observations[..|observations|] == observations;
    }
    assert traces[..|traces|] == traces;
  }

  /** The inner loop of phase two: one input's non-system role/content entries appended in order. */
  method AppendEntries(conversation: seq<FlatMessage>, entries: seq<Json>) returns (extended: seq<FlatMessage>)
    ensures extended == conversation + FlatEntries(entries)
  {
    extended := conversation;
    for j := 0 to |entries|
      invariant extended == conversation + FlatEntries(entries[..j])
    {
      assert entries[..j + 1][..j] == entries[..j];
      var msg := entries[j];
      if msg.JObject? && "content" in msg.fields && "role" in msg.fields {
        var role := msg.fields["role"];
        if role != JString("system") {
          extended := extended + [FlatMessage(if role == JString("user") then "user" else "assistant", msg.fields["content"])];
        }
      }
    }
    assert entries[..|entries|] == entries;
  }

  /** Phase two: the non-system role/content entries of every collected input, in order. */
  method FlattenInputs(allObservations: seq<Observation>) returns (conversation: seq<FlatMessage>)
    ensures conversation == FlattenAll(allObservations)
  {
    conversation := [];
    for i := 0 to |allObservations|
      invariant conversation == FlattenAll(allObservations[..i])
    {
      assert allObservations[..i + 1][..i] == allObservations[..i];
      conversation := AppendEntries(conversation, InputEntries(allObservations[i]));
    }
    assert allObservations[..|allObservations|] == allObservations;
  }

  /** `get_observations_by_traces`: collect, flatten, deduplicate keeping the last occurrence. */
  method ObservationsByTraces(traces: seq<Trace>, fetch: string -> ListResponse<Observation>, render: Json -> string)
    returns (unique: seq<FlatMessage>)
    requires forall t :: t in traces ==> t.id.Some?
    ensures unique == KeepLast(FlattenAll(CollectedGenerations(traces, fetch)), render)
  {
    var allObservations := CollectGenerations(traces, fetch);
    var conversation := FlattenInputs(allObservations);
    unique := DedupKeepLast(conversation, render);
  }

  /** No two surviving messages share a signature. */
  lemma {:induction false} KeepLastDistinct(s: seq<FlatMessage>, render: Json -> string)
    ensures var r := KeepLast(s, render);
            forall i, j :: 0 <= i < j < |r| ==> Signature(r[i], render) != Signature(r[j], render)
  {
    if s != [] {
      KeepLastDistinct(s[1..], render);
      KeepLastSignatures(s[1..], render);
      var rest := KeepLast(s[1..], render);
      if Signature(s[0], render) !in Signatures(s[1..], render) {
        forall j | 0 <= j < |rest| ensures Signature(s[0], render) != Signature(rest[j], render) {
          SignaturesMember(rest, render, Signature(rest[j], render));
        }
      }
    }
  }

  /** Every signature of the input survives: no message is lost, only repeats. */
  lemma {:induction false} KeepLastSignatures(s: seq<FlatMessage>, render: Json -> string)
    ensures Signatures(KeepLast(s, render), render) == Signatures(s, render)
  {
    if s != [] {
      KeepLastSignatures(s[1..], render);
      var rest := KeepLast(s[1..], render);
      if Signature(s[0], render) !in Signatures(s[1..], render) {
        assert KeepLast(s, render) == [s[0]] + rest;
        assert ([s[0]] + rest)[1..] == rest;
      } else {
        assert KeepLast(s, render) == rest;
      }
    }
  }

  /** `a` is obtained from `b` by deleting items. */
  predicate IsSubsequence<T(==)>(a: seq<T>, b: seq<T>) {
    a == [] || (b != [] && ((a[0] == b[0] && IsSubsequence(a[1..], b[1..])) || IsSubsequence(a, b[1..])))
  }

  /** The output keeps the input's order. */
  lemma {:induction false} KeepLastSubsequence(s: seq<FlatMessage>, render: Json -> string)
    ensures IsSubsequence(KeepLast(s, render), s)
  {
    if s != [] {
      KeepLastSubsequence(s[1..], render);
      var rest := KeepLast(s[1..], render);
      if Signature(s[0], render) !in Signatures(s[1..], render) {
        assert KeepLast(s, render) == [s[0]] + rest;
        assert ([s[0]] + rest)[1..] == rest;
      } else {
        assert KeepLast(s, render) == rest;
      }
    }
  }

  /** Each surviving message is the last of its signature in the input. */
  lemma {:induction false} KeepLastIsLastOccurrence(s: seq<FlatMessage>, render: Json -> string)
    ensures var r := KeepLast(s, render);
            forall m :: m in r ==> exists i :: 0 <= i < |s| && s[i] == m
                                              && forall j :: i < j < |s| ==> Signature(s[j], render) != Signature(m, render)
  {
    if s != [] {
      KeepLastIsLastOccurrence(s[1..], render);
      var r := KeepLast(s, render);
      var rest := KeepLast(s[1..], render);
      forall m | m in r
        ensures exists i :: 0 <= i < |s| && s[i] == m && forall j :: i < j < |s| ==> Signature(s[j], render) != Signature(m, render)
      {
        if m in rest {
          var i :| 0 <= i < |s[1..]| && s[1..][i] == m
                   && forall j :: i < j < |s[1..]| ==> Signature(s[1..][j], render) != Signature(m, render);
          assert s[i + 1] == m;
          forall j | i + 1 < j < |s| ensures Signature(s[j], render) != Signature(m, render) {
            assert s[1..][j - 1] == s[j];
          }
        } else {
          assert m == s[0] && Signature(s[0], render) !in Signatures(s[1..], render);
          forall j | 0 < j < |s| ensures Signature(s[j], render) != Signature(m, render) {
            SignaturesMember(s[1..], render, Signature(m, render));
            assert s[1..][j - 1] == s[j];
          }
        }
      }
    }
  }

  /**
   * For text contents the signature is faithful: two user/assistant messages
   * with string contents share a signature exactly when they are equal.
   */
  lemma SignatureFaithfulForText(a: FlatMessage, b: FlatMessage, render: Json -> string)
    requires a.role in {"user", "assistant"} && b.role in {"user", "assistant"}
    requires a.content.JString? && b.content.JString?
    ensures Signature(a, render) == Signature(b, render) <==> a == b
  {
    if Signature(a, render) == Signature(b, render) {
      var sa, sb := Signature(a, render), Signature(b, render);
      assert sa[0] == a.role[0] && sb[0] == b.role[0];
      assert a.role == b.role;
      assert a.content.s == sa[|a.role| + 1..] == sb[|b.role| + 1..] == b.content.s;
    }
  }
}
