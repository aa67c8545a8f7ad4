/**
 * The paginated loader: a page loop over the session-scoped observation
 * endpoint, then a walk over the chronologically sorted observations that
 * emits one user message per `user-interaction` span and one assistant message
 * per run of generations of the same trace (a later generation replaces the
 * text of an assistant message from the same trace that is still the last message).
 */
module PaginatedHistory {
  import opened Wrappers
  import opened JsonValues
  import opened TraceRecords
  import opened Sorting

  const DEFAULT_MAX_PAGES: int := 10

  /** The result of requesting pages `page`, `page + 1`, ... up to `maxPages`: the observations and the pages asked for. */
  datatype Fetched = Fetched(observations: seq<Observation>, requested: seq<int>)

  /** After a reply to page `page`, the loop requests the next page: success, data, and more pages reported. */
  predicate Continues(r: ListResponse<Observation>, page: int) {
    r.status == 200 && r.data.GetOr([]) != [] && page < r.totalPages.GetOr(1)
  }

  /** Pages are requested from `page` on until an error, an empty page, the last reported page, or `maxPages`. */
  function PagesFrom(fetch: int -> ListResponse<Observation>, page: int, maxPages: int): (f: Fetched)
    decreases maxPages - page
  {
    if page > maxPages then Fetched([], [])
    else
      var r := fetch(page);
      if !Continues(r, page) then
        Fetched(if r.status == 200 then r.data.GetOr([]) else [], [page])
      else
        var rest := PagesFrom(fetch, page + 1, maxPages);
        Fetched(r.data.GetOr([]) + rest.observations, [page] + rest.requested)
  }

  /** The pages that were requested are `page, page + 1, ...`, never past `maxPages`; every page but the last was a full success. */
  lemma {:induction false} PagesFromRequests(fetch: int -> ListResponse<Observation>, page: int, maxPages: int)
    ensures var f := PagesFrom(fetch, page, maxPages);
            && |f.requested| <= (if maxPages - page + 1 < 0 then 0 else maxPages - page + 1)
            && (forall i :: 0 <= i < |f.requested| ==> f.requested[i] == page + i)
            && (forall i :: 0 <= i < |f.requested| - 1 ==> Continues(fetch(f.requested[i]), f.requested[i]))
            && (page <= maxPages <==> f.requested != [])
            && (f.requested != [] ==>
                  var last := f.requested[|f.requested| - 1];
                  !Continues(fetch(last), last) || last == maxPages)
    decreases maxPages - page
  {
    if page <= maxPages && Continues(fetch(page), page) {
      PagesFromRequests(fetch, page + 1, maxPages);
    }
  }

  /** The accumulated observations are exactly the concatenation of the successful, non-empty pages that were requested. */
  lemma {:induction false} PagesFromContents(fetch: int -> ListResponse<Observation>, page: int, maxPages: int)
    ensures var f := PagesFrom(fetch, page, maxPages);
            f.observations == SuccessfulPages(fetch, f.requested)
    decreases maxPages - page
  {
    if page <= maxPages {
      var r := fetch(page);
      if Continues(r, page) {
        PagesFromContents(fetch, page + 1, maxPages);
        var rest := PagesFrom(fetch, page + 1, maxPages);
        assert ([page] + rest.requested)[1..] == rest.requested;
      } else {
        assert [page][1..] == [];
      }
    }
  }

  /** The data of each listed page that answered 200, concatenated in order. */
  function SuccessfulPages(fetch: int -> ListResponse<Observation>, pages: seq<int>): seq<Observation> {
    if pages == [] then []
    else
      var r := fetch(pages[0]);
      (if r.status == 200 then r.data.GetOr([]) else []) + SuccessfulPages(fetch, pages[1..])
  }

  /**
   * One turn of the page loop keeps its invariant: what has been gathered, followed by
   * what the remaining pages give, is what all the pages give.
   */
  lemma PageStep(fetch: int -> ListResponse<Observation>, page: int, maxPages: int, whole: Fetched,
                 gathered: seq<Observation>, requested: seq<int>, observations: seq<Observation>, more: bool)
    requires page <= maxPages
    requires whole.observations == gathered + PagesFrom(fetch, page, maxPages).observations
    requires whole.requested == requested + PagesFrom(fetch, page, maxPages).requested
    requires observations == if fetch(page).status == 200 then fetch(page).data.GetOr([]) else []
    requires more == Continues(fetch(page), page)
    ensures !more ==> whole == Fetched(gathered + observations, requested + [page])
    ensures more ==> whole.observations == (gathered + observations) + PagesFrom(fetch, page + 1, maxPages).observations
    ensures more ==> whole.requested == (requested + [page]) + PagesFrom(fetch, page + 1, maxPages).requested
  {
    var rest := PagesFrom(fetch, page + 1, maxPages);
    if more {
      assert PagesFrom(fetch, page, maxPages) == Fetched(observations + rest.observations, [page] + rest.requested);
    } else {
      assert PagesFrom(fetch, page, maxPages) == Fetched(observations, [page]);
    }
  }

  /** Past `maxPages` nothing more is requested. */
  lemma PagesBeyond(fetch: int -> ListResponse<Observation>, page: int, maxPages: int)
    requires page > maxPages
    ensures PagesFrom(fetch, page, maxPages) == Fetched([], [])
  {
  }

  /** The pages requested from page 1 on are at most `maxPages`, and the data gathered is that of the successful ones. */
  lemma PagesFromFirst(fetch: int -> ListResponse<Observation>, maxPages: int, observations: seq<Observation>, requested: seq<int>)
    requires Fetched(observations, requested) == PagesFrom(fetch, 1, maxPages)
    ensures |requested| <= if maxPages < 0 then 0 else maxPages
    ensures observations == SuccessfulPages(fetch, requested)
  {
    PagesFromRequests(fetch, 1, maxPages);
    PagesFromContents(fetch, 1, maxPages);
  }

  /**
   * The body of the page loop for one reply: the observations it adds and whether the
   * loop goes on (a 200 reply with data below the reported page count).
   */
  method ReadPage(response: ListResponse<Observation>, page: int) returns (observations: seq<Observation>, more: bool)
    ensures observations == if response.status == 200 then response.data.GetOr([]) else []
    ensures more == Continues(response, page)
  {
    observations, more := [], false;
    if response.status == 200 {
      observations := response.data.GetOr([]);
      if observations == [] {
        return;
      }
      if page >= response.totalPages.GetOr(1) {
        return;
      }
      more := true;
    }
  }

  /** `get_all_session_observations`, with the HTTP request for page `p` passed in as `fetch(p)`. */
  method GetAllSessionObservations(fetch: int -> ListResponse<Observation>, maxPages: int)
    returns (allObservations: seq<Observation>, requested: seq<int>)
    ensures Fetched(allObservations, requested) == PagesFrom(fetch, 1, maxPages)
    ensures |requested| <= if maxPages < 0 then 0 else maxPages
    ensures allObservations == SuccessfulPages(fetch, requested)
  {
    ghost var whole := PagesFrom(fetch, 1, maxPages);
    allObservations, requested := [], [];
    var page := 1;
    while page <= maxPages
      invariant 1 <= page
      invariant whole.observations == allObservations + PagesFrom(fetch, page, maxPages).observations
      invariant whole.requested == requested + PagesFrom(fetch, page, maxPages).requested
      decreases maxPages - page
    {
      var observations, more := ReadPage(fetch(page), page);
      PageStep(fetch, page, maxPages, whole, allObservations, requested, observations, more);
      requested := requested + [page];
      allObservations := allObservations + observations;
      if !more {
        break;
      }
      page := page + 1;
    }
    if page > maxPages {
      PagesBeyond(fetch, page, maxPages);
      assert allObservations + [] == allObservations && requested + [] == requested;
    }
    PagesFromFirst(fetch, maxPages, allObservations, requested);
  }

  /** A message under construction; assistant messages remember their trace (`trace_id`, dropped at the end). */
  datatype Tagged = Tagged(role: string, content: string, traceId: Option<string>)

  /** A `SPAN` named `user-interaction` with a truthy input. */
  predicate IsUserInteraction(o: Observation) {
    o.kind == Some("SPAN") && o.name == Some("user-interaction") && HasInput(o)
  }

  /** The last message is an assistant message of trace `traceId`. */
  predicate EndsWithAssistantOf(conv: seq<Tagged>, traceId: Option<string>) {
    conv != [] && conv[|conv| - 1].role == "assistant" && conv[|conv| - 1].traceId == traceId
  }

  /** What one observation does to the conversation built so far. */
  function Step(conv: seq<Tagged>, o: Observation, render: Json -> string): seq<Tagged> {
    if IsUserInteraction(o) then conv + [Tagged("user", Show(o.input.value, render), None)]
    else if IsAnsweringGeneration(o) then
      if EndsWithAssistantOf(conv, o.traceId) then
        conv[..|conv| - 1] + [conv[|conv| - 1].(content := Show(o.output.value, render))]
      else conv + [Tagged("assistant", Show(o.output.value, render), o.traceId)]
    else conv
  }

  /** The conversation after walking `obs` in order. */
  function Walk(obs: seq<Observation>, render: Json -> string): seq<Tagged> {
    if obs == [] then [] else Step(Walk(obs[..|obs| - 1], render), obs[|obs| - 1], render)
  }

  function Untag(conv: seq<Tagged>): (r: seq<Message>)
    ensures |r| == |conv|
    ensures forall i :: 0 <= i < |conv| ==> r[i] == Message(conv[i].role, conv[i].content)
  {
    if conv == [] then [] else [Message(conv[0].role, conv[0].content)] + Untag(conv[1..])
  }

  /** The conversation a session's observations give: sorted stably by `startTime`, walked, untagged. */
  function Reconstruct(obs: seq<Observation>, render: Json -> string): seq<Message> {
    if obs == [] then [] else Untag(Walk(SortByKey(obs, StartKey, false), render))
  }

  /** One observation of the walk: a user span appends, a generation appends or replaces the last assistant text. */
  method ApplyObservation(tagged: seq<Tagged>, obs: Observation, render: Json -> string) returns (next: seq<Tagged>)
    ensures next == Step(tagged, obs, render)
  {
    next := tagged;
    if obs.kind == Some("SPAN") && obs.name == Some("user-interaction") && TruthyField(obs.input) {
      next := next + [Tagged("user", Show(obs.input.value, render), None)];
    } else if obs.kind == Some("GENERATION") && TruthyField(obs.output) {
      var output := obs.output.value;
      if next != [] && next[|next| - 1].role == "assistant" && next[|next| - 1].traceId == obs.traceId {
        next := next[|next| - 1 := next[|next| - 1].(content := Show(output, render))];
      } else {
        next := next + [Tagged("assistant", Show(output, render), obs.traceId)];
      }
    }
  }

  /** The walk over the sorted observations, then the removal of the `trace_id` tags. */
  method WalkObservations(sorted: seq<Observation>, render: Json -> string) returns (conversation: seq<Message>)
    ensures conversation == Untag(Walk(sorted, render))
  {
    var tagged: seq<Tagged> := [];
    for i := 0 to |sorted|
      invariant tagged == Walk(sorted[..i], render)
    {
      assert sorted[..i + 1][..i] == sorted[..i];
      tagged := ApplyObservation(tagged, sorted[i], render);
    }
    assert sorted[..|sorted|] == sorted;
    conversation := [];
    for i := 0 to |tagged|
      invariant |conversation| == i
      invariant forall k :: 0 <= k < i ==> conversation[k] == Message(tagged[k].role, tagged[k].content)
    {
      conversation := conversation + [Message(tagged[i].role, tagged[i].content)];
    }
  }

  /** `extract_conversation_history_paginated`: fetch up to ten pages, then sort and walk. */
  method ExtractConversationHistoryPaginated(fetch: int -> ListResponse<Observation>, render: Json -> string)
    returns (conversation: seq<Message>)
    ensures conversation == Reconstruct(PagesFrom(fetch, 1, DEFAULT_MAX_PAGES).observations, render)
  {
    var observations, _ := GetAllSessionObservations(fetch, DEFAULT_MAX_PAGES);
    if observations == [] {
      return [];
    }
    var sorted := SortByKey(observations, StartKey, false);
    conversation := WalkObservations(sorted, render);
  }

  /** The texts of the user messages, in order. */
  function UserTexts(conv: seq<Tagged>): seq<string> {
    if conv == [] then [] else UserTexts(conv[..|conv| - 1]) + (if conv[|conv| - 1].role == "user" then [conv[|conv| - 1].content] else [])
  }

  /** The inputs of the `user-interaction` spans, as text, in order. */
  function SpanTexts(obs: seq<Observation>, render: Json -> string): seq<string> {
    if obs == [] then []
    else SpanTexts(obs[..|obs| - 1], render)
         + (if IsUserInteraction(obs[|obs| - 1]) then [Show(obs[|obs| - 1].input.value, render)] else [])
  }

  lemma UserTextsSnoc(conv: seq<Tagged>, m: Tagged)
    ensures UserTexts(conv + [m]) == UserTexts(conv) + (if m.role == "user" then [m.content] else [])
  {
    assert (conv + [m])[..|conv|] == conv;
  }

  /** Every `user-interaction` span with an input yields exactly one user message, in order; nothing else does. */
  lemma {:induction false} WalkUserMessages(obs: seq<Observation>, render: Json -> string)
    ensures UserTexts(Walk(obs, render)) == SpanTexts(obs, render)
  {
    if obs != [] {
      var init, o := obs[..|obs| - 1], obs[|obs| - 1];
      WalkUserMessages(init, render);
      var conv := Walk(init, render);
      if IsUserInteraction(o) {
        UserTextsSnoc(conv, Tagged("user", Show(o.input.value, render), None));
      } else if IsAnsweringGeneration(o) {
        if EndsWithAssistantOf(conv, o.traceId) {
          var prefix := conv[..|conv| - 1];
          assert conv == prefix + [conv[|conv| - 1]];
          UserTextsSnoc(prefix, conv[|conv| - 1]);
          UserTextsSnoc(prefix, conv[|conv| - 1].(content := Show(o.output.value, render)));
        } else {
          UserTextsSnoc(conv, Tagged("assistant", Show(o.output.value, render), o.traceId));
        }
      }
    }
  }

  /** No two adjacent assistant messages come from the same trace. */
  predicate NoRepeatedTurn(conv: seq<Tagged>) {
    forall i :: 0 < i < |conv| && conv[i - 1].role == "assistant" && conv[i].role == "assistant"
      ==> conv[i - 1].traceId != conv[i].traceId
  }

  /** Every message is a user or an assistant message. */
  predicate WellFormedRoles(conv: seq<Tagged>) {
    forall i :: 0 <= i < |conv| ==> conv[i].role == "user" || conv[i].role == "assistant"
  }

  /** A later generation of the same turn replaces the earlier one instead of adding a second assistant message. */
  lemma {:induction false} WalkNoRepeatedTurn(obs: seq<Observation>, render: Json -> string)
    ensures NoRepeatedTurn(Walk(obs, render))
    ensures WellFormedRoles(Walk(obs, render))
    ensures |Walk(obs, render)| <= |obs|
  {
    if obs != [] {
      WalkNoRepeatedTurn(obs[..|obs| - 1], render);
      StepKeepsTurns(Walk(obs[..|obs| - 1], render), obs[|obs| - 1], render);
    }
  }

  /** One step keeps the roles well formed and adds no repeated turn, and adds at most one message. */
  lemma StepKeepsTurns(conv: seq<Tagged>, o: Observation, render: Json -> string)
    requires NoRepeatedTurn(conv) && WellFormedRoles(conv)
    ensures NoRepeatedTurn(Step(conv, o, render)) && WellFormedRoles(Step(conv, o, render))
    ensures |Step(conv, o, render)| <= |conv| + 1
  {
    if !IsUserInteraction(o) && IsAnsweringGeneration(o) && EndsWithAssistantOf(conv, o.traceId) {
      var r := Step(conv, o, render);
      assert |r| == |conv|;
      assert forall i :: 0 <= i < |conv| ==> r[i].role == conv[i].role && r[i].traceId == conv[i].traceId;
    }
  }

  /** No observations, no conversation; observations that are neither spans nor answering generations add nothing. */
  lemma {:induction false} WalkIgnoresOtherObservations(obs: seq<Observation>, render: Json -> string)
    requires forall i :: 0 <= i < |obs| ==> !IsUserInteraction(obs[i]) && !IsAnsweringGeneration(obs[i])
    ensures Walk(obs, render) == []
  {
    if obs != [] {
      WalkIgnoresOtherObservations(obs[..|obs| - 1], render);
    }
  }

  /**
   * Two generations of the same trace in a row leave a single assistant message
   * carrying the later output: the later generation is authoritative.
   */
  lemma LaterGenerationReplaces(obs: seq<Observation>, render: Json -> string)
    requires |obs| >= 2
    requires IsAnsweringGeneration(obs[|obs| - 2]) && IsAnsweringGeneration(obs[|obs| - 1])
    requires obs[|obs| - 2].traceId == obs[|obs| - 1].traceId
    ensures var once := Walk(obs[..|obs| - 1], render);
            var twice := Walk(obs, render);
            && |twice| == |once|
            && twice[..|twice| - 1] == once[..|once| - 1]
            && twice[|twice| - 1] == Tagged("assistant", Show(obs[|obs| - 1].output.value, render), obs[|obs| - 1].traceId)
  {
    var prefix := obs[..|obs| - 1];
    assert prefix[..|prefix| - 1] == obs[..|obs| - 2];
    GenerationEndsTurn(Walk(obs[..|obs| - 2], render), obs[|obs| - 2], render);
    GenerationReplacesLast(Walk(prefix, render), obs[|obs| - 1], render);
  }

  /** After an answering generation, the last message is an assistant message of its trace. */
  lemma GenerationEndsTurn(conv: seq<Tagged>, o: Observation, render: Json -> string)
    requires IsAnsweringGeneration(o)
    ensures EndsWithAssistantOf(Step(conv, o, render), o.traceId)
  {
  }

  /** A generation of the trace of the last assistant message replaces its text and keeps everything else. */
  lemma GenerationReplacesLast(conv: seq<Tagged>, o: Observation, render: Json -> string)
    requires IsAnsweringGeneration(o) && EndsWithAssistantOf(conv, o.traceId)
    ensures var r := Step(conv, o, render);
            && |r| == |conv|
            && r[..|r| - 1] == conv[..|conv| - 1]
            && r[|r| - 1] == Tagged("assistant", Show(o.output.value, render), o.traceId)
  {
    var r := Step(conv, o, render);
    assert r == conv[..|conv| - 1] + [conv[|conv| - 1].(content := Show(o.output.value, render))];
    assert r[..|r| - 1] == conv[..|conv| - 1];
  }

  /** Walking one more observation applies one more step. */
  lemma WalkSnoc(obs: seq<Observation>, o: Observation, render: Json -> string)
    ensures Walk(obs + [o], render) == Step(Walk(obs, render), o, render)
  {
    assert (obs + [o])[..|obs|] == obs;
  }

  const SPAN_A := Observation(Some("A"), Some("SPAN"), Some("user-interaction"), Some("1"), Some(JString("hello")), None)
  const GEN_A := Observation(Some("A"), Some("GENERATION"), None, Some("2"), None, Some(JString("hi there")))
  const SPAN_B := Observation(Some("B"), Some("SPAN"), Some("user-interaction"), Some("3"), Some(JString("bye")), None)
  const GEN_B := Observation(Some("B"), Some("GENERATION"), None, Some("4"), None, Some(JString("goodbye")))

  /** A `user-interaction` span with a string input appends that string as a user message. */
  lemma UserSpanStep(conv: seq<Tagged>, o: Observation, text: string, render: Json -> string)
    requires o.kind == Some("SPAN") && o.name == Some("user-interaction") && o.input == Some(JString(text)) && text != ""
    ensures Step(conv, o, render) == conv + [Tagged("user", text, None)]
  {
  }

  /** A generation with a string output, after a user message, appends an assistant message of its trace. */
  lemma GenerationAfterUserStep(conv: seq<Tagged>, o: Observation, text: string, render: Json -> string)
    requires o.kind == Some("GENERATION") && o.output == Some(JString(text)) && text != ""
    requires conv != [] && conv[|conv| - 1].role == "user"
    ensures Step(conv, o, render) == conv + [Tagged("assistant", text, o.traceId)]
  {
  }

  /** A `user-interaction` span of trace `id` with string input `text`. */
  predicate UserSpan(o: Observation, id: string, text: string) {
    o.traceId == Some(id) && o.kind == Some("SPAN") && o.name == Some("user-interaction") && o.input == Some(JString(text)) && text != ""
  }

  /** A generation of trace `id` with string output `text`. */
  predicate TextGeneration(o: Observation, id: string, text: string) {
    o.traceId == Some(id) && o.kind == Some("GENERATION") && o.output == Some(JString(text)) && text != ""
  }

  /** Two turns, each a user span followed by a generation, walk to user, assistant, user, assistant. */
  lemma TwoTurnWalk(spanA: Observation, genA: Observation, spanB: Observation, genB: Observation,
                    idA: string, idB: string, q1: string, a1: string, q2: string, a2: string, render: Json -> string)
    requires UserSpan(spanA, idA, q1) && TextGeneration(genA, idA, a1)
    requires UserSpan(spanB, idB, q2) && TextGeneration(genB, idB, a2)
    ensures Walk([spanA, genA, spanB, genB], render)
            == [Tagged("user", q1, None), Tagged("assistant", a1, Some(idA)),
                Tagged("user", q2, None), Tagged("assistant", a2, Some(idB))]
  {
    var o0: seq<Observation> := [];
    var o1 := o0 + [spanA];
    var o2 := o1 + [genA];
    var o3 := o2 + [spanB];
    var o4 := o3 + [genB];
    var w1 := [Tagged("user", q1, None)];
    var w2 := w1 + [Tagged("assistant", a1, Some(idA))];
    var w3 := w2 + [Tagged("user", q2, None)];
    var w4 := w3 + [Tagged("assistant", a2, Some(idB))];
    WalkSnoc(o0, spanA, render);
    UserSpanStep([], spanA, q1, render);
    WalkSnoc(o1, genA, render);
    GenerationAfterUserStep(w1, genA, a1, render);
    WalkSnoc(o2, spanB, render);
    UserSpanStep(w2, spanB, q2, render);
    WalkSnoc(o3, genB, render);
    GenerationAfterUserStep(w3, genB, a2, render);
    assert o4 == [spanA, genA, spanB, genB];
  }

  /**
   * Two traces, each a `user-interaction` span followed by a generation, give
   * user, assistant, user, assistant in time order.
   */
  lemma TwoTurnScenario(render: Json -> string)
    ensures Reconstruct([SPAN_A, GEN_A, SPAN_B, GEN_B], render)
            == [Message("user", "hello"), Message("assistant", "hi there"), Message("user", "bye"), Message("assistant", "goodbye")]
  {
    var obs := [SPAN_A, GEN_A, SPAN_B, GEN_B];
    assert SortedBy(obs, StartKey, false);
    SortedUnchanged(obs, StartKey, false);
    TwoTurnWalk(SPAN_A, GEN_A, SPAN_B, GEN_B, "A", "B", "hello", "hi there", "bye", "goodbye", render);
  }
}
