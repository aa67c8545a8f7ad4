/**
 * The consistency check run over a reconstructed conversation: adjacent
 * messages with the same role are reported, the user and assistant messages
 * are counted, and a count difference above one raises a warning.
 */
module DuplicateCheck {
  import opened TraceRecords

  /** A repeated role at `position`: message `position` has the role of message `position - 1`. */
  datatype Issue = Issue(position: nat, role: string)

  datatype DuplicateReport = DuplicateReport(issues: seq<Issue>, userCount: nat, assistantCount: nat, imbalanced: bool)

  /** Roles strictly alternate: no two neighbours share a role. */
  predicate Alternates(conv: seq<Message>) {
    forall i :: 1 <= i < |conv| ==> conv[i].role != conv[i - 1].role
  }

  /** The issues of `conv`, one per repeated neighbour, in position order. */
  function Issues(conv: seq<Message>): seq<Issue> {
    if |conv| <= 1 then []
    else
      var n := |conv|;
      Issues(conv[..n - 1]) + (if conv[n - 1].role == conv[n - 2].role then [Issue(n - 1, conv[n - 1].role)] else [])
  }

  /** Every recorded issue is a position whose role repeats the previous one, with that role. */
  lemma {:induction false} IssuesSound(conv: seq<Message>)
    ensures forall k :: 0 <= k < |Issues(conv)| ==>
              var p := Issues(conv)[k].position;
              1 <= p < |conv| && conv[p].role == conv[p - 1].role && Issues(conv)[k].role == conv[p].role
  {
    if |conv| > 1 {
      var n := |conv|;
      var prefix := conv[..n - 1];
      IssuesSound(prefix);
      var r0 := Issues(prefix);
      var r := Issues(conv);
      forall k | 0 <= k < |r|
        ensures 1 <= r[k].position < n && conv[r[k].position].role == conv[r[k].position - 1].role
                && r[k].role == conv[r[k].position].role
      {
        if k < |r0| {
          assert r[k] == r0[k];
          var p := r0[k].position;
          assert prefix[p] == conv[p] && prefix[p - 1] == conv[p - 1];
        }
      }
    }
  }

  /** Every position whose role repeats the previous one is recorded. */
  lemma {:induction false} IssuesComplete(conv: seq<Message>)
    ensures forall i :: 1 <= i < |conv| && conv[i].role == conv[i - 1].role ==> Issue(i, conv[i].role) in Issues(conv)
  {
    if |conv| > 1 {
      var n := |conv|;
      var prefix := conv[..n - 1];
      IssuesComplete(prefix);
      forall i | 1 <= i < n - 1 && conv[i].role == conv[i - 1].role
        ensures Issue(i, conv[i].role) in Issues(conv)
      {
        assert prefix[i] == conv[i] && prefix[i - 1] == conv[i - 1];
      }
    }
  }

  /** The issues come in increasing position order. */
  lemma {:induction false} IssuesIncreasing(conv: seq<Message>)
    ensures forall k, l :: 0 <= k < l < |Issues(conv)| ==> Issues(conv)[k].position < Issues(conv)[l].position
  {
    if |conv| > 1 {
      var n := |conv|;
      var prefix := conv[..n - 1];
      IssuesIncreasing(prefix);
      IssuesSound(prefix);
      var r0 := Issues(prefix);
      var r := Issues(conv);
      forall k, l | 0 <= k < l < |r| ensures r[k].position < r[l].position {
        assert r[k] == r0[k];
        if l < |r0| { assert r[l] == r0[l]; }
      }
    }
  }

  /** No issue is reported exactly when the roles alternate. */
  lemma IssuesEmptyIffAlternates(conv: seq<Message>)
    ensures Issues(conv) == [] <==> Alternates(conv)
  {
    IssuesSound(conv);
    IssuesComplete(conv);
    if Issues(conv) != [] {
      var p := Issues(conv)[0].position;
      assert conv[p].role == conv[p - 1].role;
    }
  }

  /** `check_conversation_duplicates` on an already reconstructed conversation. */
  method CheckConversationDuplicates(conversation: seq<Message>) returns (report: DuplicateReport)
    ensures report.issues == Issues(conversation)
    ensures report.userCount == CountRole(conversation, "user")
    ensures report.assistantCount == CountRole(conversation, "assistant")
    ensures report.imbalanced <==> report.userCount - report.assistantCount > 1 || report.assistantCount - report.userCount > 1
  {
    var issues: seq<Issue> := [];
    if |conversation| > 1 {
      for i := 1 to |conversation|
        invariant issues == Issues(conversation[..i])
      {
        assert conversation[..i + 1][..i] == conversation[..i];
        if conversation[i].role == conversation[i - 1].role {
          issues := issues + [Issue(i, conversation[i].role)];
        }
      }
      assert conversation[..|conversation|] == conversation;
    }
    var userCount := CountRole(conversation, "user");
    var assistantCount := CountRole(conversation, "assistant");
    var difference := userCount as int - assistantCount as int;
    report := DuplicateReport(issues, userCount, assistantCount, (if difference < 0 then -difference else difference) > 1);
  }

  /** Every message is a user or an assistant message. */
  predicate TwoRoles(conv: seq<Message>) {
    forall i :: 0 <= i < |conv| ==> conv[i].role == "user" || conv[i].role == "assistant"
  }

  /**
   * An alternating user/assistant conversation is balanced: the counts are equal
   * for an even length, and otherwise the first speaker has one message more.
   */
  lemma {:induction false} AlternatingBalance(conv: seq<Message>)
    requires Alternates(conv) && TwoRoles(conv)
    ensures CountRole(conv, "user") - CountRole(conv, "assistant")
            == if |conv| % 2 == 0 then 0 else if conv[0].role == "user" then 1 else -1
  {
    if conv != [] {
      var rest := conv[1..];
      assert forall i :: 0 <= i < |rest| ==> rest[i] == conv[i + 1];
      AlternatingBalance(rest);
      if rest != [] {
        assert rest[0].role != conv[0].role;
      }
    }
  }

  /** So an alternating conversation never raises the imbalance warning. */
  lemma AlternatingNeverImbalanced(conv: seq<Message>)
    requires Alternates(conv) && TwoRoles(conv)
    ensures var d := CountRole(conv, "user") - CountRole(conv, "assistant");
            -1 <= d <= 1
  {
    AlternatingBalance(conv);
  }
}
