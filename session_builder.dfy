/**
 * Rebuilding an in-memory agent session from the per-trace history: each user
 * message becomes a plain user item and each assistant message an assistant
 * envelope whose provisional id is the item's own position.
 */
module SessionBuilder {
  import opened Wrappers
  import opened JsonValues
  import opened TraceRecords
  import opened ConversationHistory
  import opened SessionItems

  /** The messages that yield an item: roles other than user and assistant are skipped. */
  predicate Converted(m: Message) {
    m.role == "user" || m.role == "assistant"
  }

  /** The items for a conversation; an assistant item's id is the number of items before it. */
  function ToItems(conv: seq<Message>): seq<Item> {
    if conv == [] then []
    else
      var before := ToItems(conv[..|conv| - 1]);
      var m := conv[|conv| - 1];
      before + (if m.role == "user" then [UserMessage(JString(m.content))]
                else if m.role == "assistant" then [AssistantEnvelope(JString(m.content), |before|, None)]
                else [])
  }

  /** The converted messages of `conv`, in order. */
  function Converting(conv: seq<Message>): seq<Message> {
    if conv == [] then [] else Converting(conv[..|conv| - 1]) + (if Converted(conv[|conv| - 1]) then [conv[|conv| - 1]] else [])
  }

  /** `item` is what message `m` becomes, up to the assistant id. */
  predicate Renders(item: Item, m: Message) {
    (m.role == "user" ==> item == UserMessage(JString(m.content)))
    && (m.role == "assistant" ==> item.AssistantMessage? && item.kind == "message" && item.status == "complete"
                                  && item.blocks == [OutputText(JString(m.content), [], [])] && item.agentName.None?)
  }

  /** The loop of `rebuild_from_langfuse` that builds `items_to_add`. */
  method BuildItems(conversation: seq<Message>) returns (items: seq<Item>)
    ensures items == ToItems(conversation)
  {
    items := [];
    for i := 0 to |conversation|
      invariant items == ToItems(conversation[..i])
    {
      assert conversation[..i + 1][..i] == conversation[..i];
      var msg := conversation[i];
      if msg.role == "user" {
        items := items + [UserMessage(JString(msg.content))];
      } else if msg.role == "assistant" {
        items := items + [AssistantMessage([OutputText(JString(msg.content), [], [])], "message", "complete", MsgId(|items|), None)];
      }
    }
    assert conversation[..|conversation|] == conversation;
  }

  /**
   * The items are the converted messages, one for one and in order, and each
   * assistant id is the item's own position.
   */
  lemma {:induction false} ToItemsFaithful(conv: seq<Message>)
    ensures var items := ToItems(conv);
            |items| == |Converting(conv)|
            && (forall i :: 0 <= i < |items| ==> Renders(items[i], Converting(conv)[i]))
            && IdsArePositions(items)
  {
    if conv != [] {
      ToItemsFaithful(conv[..|conv| - 1]);
    }
  }

  /** Hence the assistant ids are distinct and increasing. */
  lemma ToItemsAscending(conv: seq<Message>)
    ensures AscendingIds(ToItems(conv))
  {
    ToItemsFaithful(conv);
  }

  /** The number of items is the number of user messages plus the number of assistant messages. */
  lemma {:induction false} ToItemsCount(conv: seq<Message>)
    ensures |ToItems(conv)| == CountRole(conv, "user") + CountRole(conv, "assistant")
  {
    if conv != [] {
      var last := conv[|conv| - 1];
      ToItemsCount(conv[..|conv| - 1]);
      assert conv == conv[..|conv| - 1] + [last];
      CountRoleAppend(conv[..|conv| - 1], [last], "user");
      CountRoleAppend(conv[..|conv| - 1], [last], "assistant");
    }
  }

  /**
   * `SessionBuilder.rebuild_from_langfuse`: a fresh session for `sessionId`,
   * filled from the history of the traces the trace listing returned.
   */
  method RebuildFromLangfuse(sessionId: string, tracesResp: ListResponse<Trace>,
                             fetch: string -> ListResponse<Observation>, render: Json -> string)
    returns (session: AgentSession)
    ensures fresh(session) && session.sessionId == sessionId
    ensures ListFrom(tracesResp) == [] ==> session.items == []
    ensures session.items == ToItems(History(ListFrom(tracesResp), fetch, render))
  {
    session := new AgentSession(sessionId);
    var traces := ListFrom(tracesResp);
    if traces == [] {
      return;
    }
    var conversation := ExtractConversationHistory(traces, fetch, render);
    var itemsToAdd := BuildItems(conversation);
    if itemsToAdd != [] {
      session.AddItems(itemsToAdd);
    }
  }
}
