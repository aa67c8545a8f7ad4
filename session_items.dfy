/**
 * The items an agent session stores, and the agent SDK's in-memory session
 * (its `add_items` appends to an ordered sequence).
 */
module SessionItems {
  import opened Wrappers
  import opened JsonValues
  import opened Strings

  /** A provisional message id; its wire form is `msg_<n>`. */
  datatype MsgId = MsgId(n: nat) {
    function Text(): string {
      "msg_" + Decimal(n)
    }
  }

  /** Distinct ids have distinct wire forms. */
  lemma MsgIdTextInjective(a: MsgId, b: MsgId)
    requires a.Text() == b.Text()
    ensures a == b
  {
    assert Decimal(a.n) == a.Text()[4..] == b.Text()[4..] == Decimal(b.n);
    DecimalInjective(a.n, b.n);
  }

  /** A content block `{"text": ..., "type": "output_text", "annotations": [...], "logprobs": [...]}`. */
  datatype OutputText = OutputText(text: Json, annotations: seq<Json>, logprobs: seq<Json>)

  /**
   * A session item. `AssistantMessage` is the envelope
   * `{"role": "assistant", "content": blocks, "type": kind, "status": status, "id": id.Text()}`,
   * with `"agent_name"` when `agentName` is present; `Handoff` is the record
   * `{"type": "handoff", "from_agent": ..., "to_agent": ..., "reason": ..., "timestamp": ...}`.
   */
  datatype Item =
    | UserMessage(content: Json)
    | AssistantMessage(blocks: seq<OutputText>, kind: string, status: string, id: MsgId, agentName: Option<string>)
    | Handoff(fromAgent: string, toAgent: Json, reason: Json, timestamp: Option<string>)

  /** The envelope every rebuilt assistant turn gets: one `output_text` block, no annotations. */
  function AssistantEnvelope(text: Json, position: nat, agentName: Option<string>): (it: Item)
    ensures it.AssistantMessage? && it.kind == "message" && it.status == "complete"
    ensures it.blocks == [OutputText(text, [], [])] && it.id == MsgId(position)
    ensures it.agentName == agentName
  {
    AssistantMessage([OutputText(text, [], [])], "message", "complete", MsgId(position), agentName)
  }

  /** The assistant items' ids strictly increase along the sequence (so they are distinct). */
  predicate AscendingIds(items: seq<Item>) {
    forall i, j :: 0 <= i < j < |items| && items[i].AssistantMessage? && items[j].AssistantMessage?
      ==> items[i].id.n < items[j].id.n
  }

  /** Every assistant item's id is its own position in the sequence. */
  predicate IdsArePositions(items: seq<Item>) {
    forall i :: 0 <= i < |items| && items[i].AssistantMessage? ==> items[i].id == MsgId(i)
  }

  /** The agent SDK's session as the rebuilders use it: an ordered sequence of items. */
  class AgentSession {
    const sessionId: string
    var items: seq<Item>

    /** A fresh in-memory session holds nothing. */
    constructor (sessionId: string)
      ensures this.sessionId == sessionId && items == []
    {
      this.sessionId := sessionId;
      items := [];
    }

    method AddItems(newItems: seq<Item>)
      modifies this
      ensures items == old(items) + newItems
    {
      items := items + newItems;
    }
  }
}
