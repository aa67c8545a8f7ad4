/**
 * The records read from the trace/observation API and the reconstructed
 * conversation message. A `None` string field stands for a key that is absent
 * (or null); a `None` JSON field for an absent key, `Some(JNull)` for an explicit null.
 */
module TraceRecords {
  import opened Wrappers
  import opened JsonValues

  /** One conversational round recorded by the tracing backend. */
  datatype Trace = Trace(
    id: Option<string>,
    sessionId: Option<string>,
    name: Option<string>,
    timestamp: Option<string>,
    input: Option<Json>,
    output: Option<Json>)

  /** A sub-event of a trace; `kind` is the record's `type` (`SPAN`, `GENERATION`, ...). */
  datatype Observation = Observation(
    traceId: Option<string>,
    kind: Option<string>,
    name: Option<string>,
    startTime: Option<string>,
    input: Option<Json>,
    output: Option<Json>)

  /** A list endpoint's reply: the HTTP status, the body's `data` list and its `meta.totalPages`. */
  datatype ListResponse<T> = ListResponse(status: int, data: Option<seq<T>>, totalPages: Option<int>)

  /** A single-object endpoint's reply: the HTTP status and the decoded body. */
  datatype ObjectResponse = ObjectResponse(status: int, body: Json)

  /** A reconstructed conversation message. */
  datatype Message = Message(role: string, content: string)

  /** The sort key `x.get("startTime", "")` used to order observations chronologically. */
  function StartKey(o: Observation): string {
    o.startTime.GetOr("")
  }

  predicate IsGeneration(o: Observation) {
    o.kind == Some("GENERATION")
  }

  /** `obs.get("input")` is truthy. */
  predicate HasInput(o: Observation) {
    TruthyField(o.input)
  }

  /** `obs.get("type") == "GENERATION" and obs.get("output")`. */
  predicate IsAnsweringGeneration(o: Observation) {
    IsGeneration(o) && TruthyField(o.output)
  }

  /** The number of messages with role `role`. */
  function CountRole(conv: seq<Message>, role: string): (n: nat)
    ensures n <= |conv|
  {
    if conv == [] then 0 else (if conv[0].role == role then 1 else 0) + CountRole(conv[1..], role)
  }

  lemma {:induction false} CountRoleAppend(a: seq<Message>, b: seq<Message>, role: string)
    ensures CountRole(a + b, role) == CountRole(a, role) + CountRole(b, role)
  {
    if a != [] {
      assert (a + b)[1..] == a[1..] + b;
      CountRoleAppend(a[1..], b, role);
    } else {
      assert a + b == b;
    }
  }
}
