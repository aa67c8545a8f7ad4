/**
 * The facilitator's expert nomination: after the marker 【専門家指名】 its reply
 * carries a JSON object naming the expert and the request. The parser looks at
 * the text between the first and the second marker, takes the span from the
 * first `{` to the last `}` and decodes it; every failure yields no nomination.
 */
module ExpertNomination {
  import opened Wrappers
  import opened JsonValues
  import opened Strings

  const MARKER: string := "【専門家指名】"

  /** `response.split(MARKER)[1]`, when the split has a second part. */
  function Segment(response: string): (r: Option<string>)
    ensures r.None? <==> !Contains(response, MARKER)
  {
    var i := IndexOf(response, MARKER);
    if i == -1 then None
    else
      var rest := response[i + |MARKER|..];
      var j := IndexOf(rest, MARKER);
      Some(if j == -1 then rest else rest[..j])
  }

  /**
   * The text of a segment handed to the JSON decoder: the stripped segment from
   * its first `{` through its last `}` (empty when the last `}` comes before the
   * first `{`); `None` when either brace is missing.
   */
  function JsonSpan(segment: string): (c: Option<string>) {
    BraceSpan(Strip(segment))
  }

  /** The slice of `s` from its first `{` through its last `}`. */
  function BraceSpan(s: string): (c: Option<string>) {
    var start := FindChar(s, '{');
    var end := RFindChar(s, '}') + 1;
    if start == -1 || end == 0 then None
    else Some(Slice(s, start, end))
  }

  /** `c` is the span of `s` at `start` that opens at the first `{` and closes at the last `}`. */
  predicate BraceSpanAt(s: string, c: string, start: int) {
    0 <= start && start + |c| <= |s| && c == s[start..start + |c|]
    && c != [] && c[0] == '{' && c[|c| - 1] == '}'
    && '{' !in s[..start] && '}' !in s[start + |c|..]
  }

  /**
   * A span exists exactly when the stripped segment has both braces; a non-empty
   * span runs from the first `{` to the last `}`.
   */
  lemma BraceSpanBraces(s: string)
    ensures BraceSpan(s).Some? <==> '{' in s && '}' in s
    ensures BraceSpan(s).Some? && BraceSpan(s).value != [] ==> exists start :: BraceSpanAt(s, BraceSpan(s).value, start)
  {
    var start := FindChar(s, '{');
    var end := RFindChar(s, '}') + 1;
    if start != -1 && end != 0 && start < end {
      assert BraceSpanAt(s, s[start..end], start);
    }
  }

  /**
   * `FacilitatorAgent.parse_expert_request`. `decode` is `json.loads`, `None` when it
   * raises; no other step of the parser can fail.
   */
  function ParseExpertRequest(response: string, decode: string -> Option<Json>): (r: Option<Json>)
    ensures !Contains(response, MARKER) ==> r.None?
    ensures r.Some? ==> Segment(response).Some? && JsonSpan(Segment(response).value).Some?
                        && r == decode(JsonSpan(Segment(response).value).value)
    ensures Segment(response).Some? && JsonSpan(Segment(response).value).Some? ==>
              r == decode(JsonSpan(Segment(response).value).value)
    ensures Segment(response).Some? && JsonSpan(Segment(response).value).None? ==> r.None?
  {
    match Segment(response)
    case None => None
    case Some(segment) =>
      match JsonSpan(segment)
      case None => None
      case Some(text) => decode(text)
  }

  /** Without a `{` or without a `}` after the marker there is no nomination. */
  lemma NoBraceNoNomination(response: string, decode: string -> Option<Json>)
    requires Segment(response).Some?
    requires '{' !in Strip(Segment(response).value) || '}' !in Strip(Segment(response).value)
    ensures ParseExpertRequest(response, decode).None?
  {
    BraceSpanBraces(Strip(Segment(response).value));
  }

  /** The marker's opening bracket occurs nowhere else in the marker. */
  lemma MarkerOpensOnce()
    ensures forall j :: 0 < j < |MARKER| ==> MARKER[j] != MARKER[0]
  {
  }

  /**
   * When `x` does not contain the marker, no occurrence of the marker in
   * `x + MARKER + y` starts inside `x`, so the first occurrence is the one after `x`.
   */
  lemma {:induction false} FirstMarkerAfter(x: string, y: string)
    requires !Contains(x, MARKER)
    ensures IndexOf(x + MARKER + y, MARKER) == |x|
  {
    var s := x + MARKER + y;
    MarkerOpensOnce();
    forall k | 0 <= k < |x| ensures !OccursAt(s, MARKER, k) {
      if k + |MARKER| <= |x| {
        assert s[k..k + |MARKER|] == x[k..k + |MARKER|];
        assert !OccursAt(x, MARKER, k);
      } else if k + |MARKER| <= |s| {
        var j := |x| - k;
        assert s[k..k + |MARKER|][j] == s[|x|] == MARKER[0] != MARKER[j];
      }
    }
    assert s[|x|..|x| + |MARKER|] == MARKER;
    assert OccursAt(s, MARKER, |x|);
  }

  /** The parser reads only the text between the first and the second marker. */
  lemma SegmentBetweenMarkers(before: string, segment: string, after: string)
    requires !Contains(before, MARKER) && !Contains(segment, MARKER)
    ensures Segment(before + MARKER + segment + MARKER + after) == Some(segment)
  {
    var response := before + MARKER + segment + MARKER + after;
    FirstMarkerAfter(before, segment + MARKER + after);
    assert response == before + MARKER + (segment + MARKER + after);
    assert response[|before| + |MARKER|..] == segment + MARKER + after;
    FirstMarkerAfter(segment, after);
    assert (segment + MARKER + after)[..|segment|] == segment;
  }

  /** With a single marker, the segment is everything after it. */
  lemma SegmentAfterOnlyMarker(before: string, segment: string)
    requires !Contains(before, MARKER) && !Contains(segment, MARKER)
    ensures Segment(before + MARKER + segment) == Some(segment)
  {
    FirstMarkerAfter(before, segment);
    assert (before + MARKER + segment)[|before| + |MARKER|..] == segment;
  }

  /** So whatever follows a second marker cannot change the nomination. */
  lemma LaterTextIgnored(before: string, segment: string, after: string, decode: string -> Option<Json>)
    requires !Contains(before, MARKER) && !Contains(segment, MARKER)
    ensures ParseExpertRequest(before + MARKER + segment + MARKER + after, decode)
            == ParseExpertRequest(MARKER + segment, decode)
  {
    var response := before + MARKER + segment + MARKER + after;
    SegmentBetweenMarkers(before, segment, after);
    assert !Contains([], MARKER);
    SegmentAfterOnlyMarker([], segment);
    assert [] + MARKER + segment == MARKER + segment;
  }
}
