/** Every assistant message that requests tools is followed at once by one
    result per call, in call order; tool results stand nowhere else. */
module Pairing {
  import opened Transcript

  function CallCount(m: Message): nat {
    if m.role.Assistant? then |m.toolCalls| else 0
  }

  ghost predicate Answers(m: Message, call: ToolCall) {
    m.role.Tool? && m.toolCallID == call.id && m.name == call.name
  }

  /** The calls of the message at `i` are answered, in order, by the messages
      right after it. */
  ghost predicate Answered(s: seq<Message>, i: nat)
    requires i < |s|
  {
    && i + CallCount(s[i]) < |s|
    && forall k :: i < k <= i + CallCount(s[i]) ==> Answers(s[k], s[i].toolCalls[k - i - 1])
  }

  /** The message at `i` is among the results that follow the message at `p`. */
  ghost predicate Owns(s: seq<Message>, p: nat, i: nat) {
    p < i < |s| && i <= p + CallCount(s[p])
  }

  ghost predicate Paired(s: seq<Message>) {
    && (forall i :: 0 <= i < |s| ==> Answered(s, i))
    && (forall i :: 0 <= i < |s| && s[i].role.Tool? ==> exists p: nat :: Owns(s, p, i))
  }

  lemma PairedConcat(a: seq<Message>, b: seq<Message>)
    requires Paired(a) && Paired(b)
    ensures Paired(a + b)
  {
    var s := a + b;
    forall i | 0 <= i < |s| ensures Answered(s, i) {
      if i < |a| {
        assert Answered(a, i);
      } else {
        assert Answered(b, i - |a|);
      }
    }
    forall i | 0 <= i < |s| && s[i].role.Tool? ensures exists p: nat :: Owns(s, p, i) {
      if i < |a| {
        var p: nat :| Owns(a, p, i);
        assert Owns(s, p, i);
      } else {
        var p: nat :| Owns(b, p, i - |a|);
        assert Owns(s, p + |a|, i);
      }
    }
  }

  /** Cutting a paired list anywhere but in front of a tool result leaves two
      paired lists. */
  lemma PairedCut(s: seq<Message>, k: nat)
    requires Paired(s) && k <= |s|
    requires k < |s| ==> !s[k].role.Tool?
    ensures Paired(s[..k]) && Paired(s[k..])
  {
    forall p: nat | p < k ensures p + CallCount(s[p]) < k {
      assert Answered(s, p);
    }
    forall i | 0 <= i < k ensures Answered(s[..k], i) {
      assert Answered(s, i);
    }
    forall i | 0 <= i < k && s[..k][i].role.Tool? ensures exists p: nat :: Owns(s[..k], p, i) {
      assert s[i].role.Tool?;
      var p: nat :| Owns(s, p, i);
      assert Owns(s[..k], p, i);
    }
    forall i | 0 <= i < |s| - k ensures Answered(s[k..], i) {
      assert Answered(s, i + k);
    }
    forall i | 0 <= i < |s| - k && s[k..][i].role.Tool? ensures exists p: nat :: Owns(s[k..], p, i) {
      assert s[i + k].role.Tool?;
      var p: nat :| Owns(s, p, i + k);
      assert p >= k;
      assert Owns(s[k..], p - k, i);
    }
  }

  ghost predicate PairsAlike(m: Message, n: Message) {
    m.role == n.role && m.toolCallID == n.toolCallID && m.name == n.name && SameCalls(m.toolCalls, n.toolCalls)
  }

  /** Pairing depends on roles, identities and requested calls only. */
  lemma PairedByShape(a: seq<Message>, b: seq<Message>)
    requires |a| == |b| && forall i :: 0 <= i < |a| ==> PairsAlike(a[i], b[i])
    requires Paired(a)
    ensures Paired(b)
  {
    forall i | 0 <= i < |b| ensures Answered(b, i) {
      assert Answered(a, i) && PairsAlike(a[i], b[i]);
      forall k | i < k <= i + CallCount(b[i]) ensures Answers(b[k], b[i].toolCalls[k - i - 1]) {
        assert PairsAlike(a[k], b[k]) && Answers(a[k], a[i].toolCalls[k - i - 1]);
      }
    }
    forall i | 0 <= i < |b| && b[i].role.Tool? ensures exists p: nat :: Owns(b, p, i) {
      assert PairsAlike(a[i], b[i]);
      var p: nat :| Owns(a, p, i);
      assert PairsAlike(a[p], b[p]);
      assert Owns(b, p, i);
    }
  }

  /** A message that is not a tool result, followed by the results of exactly
      its calls. */
  lemma PairedBlock(m: Message, results: seq<Message>)
    requires !m.role.Tool? && |results| == CallCount(m)
    requires forall i :: 0 <= i < |results| ==> Answers(results[i], m.toolCalls[i])
    ensures Paired([m] + results)
  {
    var s := [m] + results;
    forall i | 0 <= i < |s| ensures Answered(s, i) {
      if i > 0 { assert Answers(results[i - 1], m.toolCalls[i - 1]); }
    }
    forall i | 0 <= i < |s| && s[i].role.Tool? ensures exists p: nat :: Owns(s, p, i) {
      assert Owns(s, 0, i);
    }
  }

  /** A list in which nothing is a tool result and nothing requests a tool. */
  lemma PairedFlat(s: seq<Message>)
    requires forall i :: 0 <= i < |s| ==> !s[i].role.Tool? && CallCount(s[i]) == 0
    ensures Paired(s)
  {
    forall i | 0 <= i < |s| ensures Answered(s, i) { }
  }

  /** A paired list stays paired behind a message without calls, and only then:
      a last message that requests tools leaves them unanswered. */
  lemma PairedLast(s: seq<Message>, m: Message)
    requires Paired(s) && !m.role.Tool?
    ensures Paired(s + [m]) <==> CallCount(m) == 0
  {
    if CallCount(m) == 0 {
      PairedFlat([m]);
      PairedConcat(s, [m]);
    } else {
      assert !Answered(s + [m], |s|);
    }
  }
}
