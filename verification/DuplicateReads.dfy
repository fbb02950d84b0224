/** A duplicate read is replaced by a notice that points at the first read above
    it with the same content. When that copy is still there to be read. */
module DuplicateReads {
  import opened Transcript
  import opened Decay
  import opened DecayLaws

  /** The read that a chain of repeated reads starts from. */
  function FirstCopy(host: Host, msgs: seq<Message>, b: nat, i: nat): (r: nat)
    requires i < |msgs|
    ensures r <= i
  {
    if Duplicate(host, msgs, b, i) then FirstCopy(host, msgs, b, LastRead(host, msgs, KeyOf(host, msgs, i), i).value) else i
  }

  /** One step down the chain: the nearest earlier read of the region has the same bytes. */
  lemma PreviousCopy(host: Host, msgs: seq<Message>, b: nat, i: nat) returns (j: nat)
    requires i < |msgs| && Duplicate(host, msgs, b, i)
    ensures j < i < b && LiveRead(host, msgs, j) && KeyOf(host, msgs, j) == KeyOf(host, msgs, i) && msgs[j].content == msgs[i].content
    ensures forall k :: j < k < i && LiveRead(host, msgs, k) ==> KeyOf(host, msgs, k) != KeyOf(host, msgs, i)
    ensures FirstCopy(host, msgs, b, i) == FirstCopy(host, msgs, b, j)
  {
    hide LiveRead, KeyOf;
    j := LastRead(host, msgs, KeyOf(host, msgs, i), i).value;
  }

  lemma ChainEnds(host: Host, msgs: seq<Message>, b: nat, i: nat)
    requires i < |msgs| && !Duplicate(host, msgs, b, i)
    ensures FirstCopy(host, msgs, b, i) == i
  {
    hide Duplicate;
  }

  /** The chain starts from a read of the same region with the same bytes, which is
      no duplicate itself; every read of the region in between is one. */
  lemma {:induction false} ChainOfCopies(host: Host, msgs: seq<Message>, b: nat, i: nat)
    requires i < b && i < |msgs| && LiveRead(host, msgs, i)
    ensures var f := FirstCopy(host, msgs, b, i);
            && LiveRead(host, msgs, f) && !Duplicate(host, msgs, b, f)
            && KeyOf(host, msgs, f) == KeyOf(host, msgs, i) && msgs[f].content == msgs[i].content
            && (Duplicate(host, msgs, b, i) ==> f < i)
            && forall k :: f < k <= i && LiveRead(host, msgs, k) && KeyOf(host, msgs, k) == KeyOf(host, msgs, i) ==> Duplicate(host, msgs, b, k)
    decreases i
  {
    hide *;
    if Duplicate(host, msgs, b, i) {
      var j := PreviousCopy(host, msgs, b, i);
      ChainOfCopies(host, msgs, b, j);
    } else {
      ChainEnds(host, msgs, b, i);
    }
  }

  /** A copy of the read at `i`, further up and still inline after decay. */
  ghost predicate InlineCopy(host: Host, msgs: seq<Message>, after: seq<Message>, i: nat, k: nat)
    requires i < |msgs| && |after| == |msgs|
  {
    k < i && LiveRead(host, after, k) && KeyOf(host, after, k) == KeyOf(host, msgs, i) && after[k].content == msgs[i].content
  }

  /** Nothing but duplicates shows the file after the first copy was read. */
  ghost predicate OnlyRepeatedSince(host: Host, msgs: seq<Message>, b: nat, i: nat)
    requires i < |msgs|
  {
    forall j :: FirstCopy(host, msgs, b, i) < j < |msgs| && Sights(host, msgs, j, PathOf(host, msgs, i)) ==> Duplicate(host, msgs, b, j)
  }

  lemma OriginalsStay(host: Host, msgs: seq<Message>, b: nat, j: nat)
    requires j < |msgs| && !Duplicate(host, msgs, b, j)
    ensures AfterDuplicates(host, msgs, b)[j] == msgs[j]
  {
    hide Duplicate;
    assert AfterDuplicates(host, msgs, b)[j] == DuplicateOne(host, msgs, b, j);
  }

  lemma DuplicatesAreGone(host: Host, msgs: seq<Message>, b: nat, j: nat)
    requires j < |msgs| && Duplicate(host, msgs, b, j)
    ensures AfterDuplicates(host, msgs, b)[j] == msgs[j].(content := DuplicateNotice(PathOf(host, msgs, j)))
    ensures IsDecayed(AfterDuplicates(host, msgs, b)[j].content)
  {
    hide Duplicate, DuplicateNotice, IsDecayed;
    assert AfterDuplicates(host, msgs, b)[j] == DuplicateOne(host, msgs, b, j);
  }

  /** After the first pass the file is shown by the same messages as before, but for
      the duplicates. */
  lemma SightsAfterDuplicates(host: Host, msgs: seq<Message>, b: nat, j: nat, path: string)
    requires ToolsArePlain(msgs) && j < |msgs|
    ensures var m1 := AfterDuplicates(host, msgs, b);
            Sights(host, m1, j, path) <==> Sights(host, msgs, j, path) && !Duplicate(host, msgs, b, j)
  {
    hide Duplicate, AfterDuplicates, PathOf, CallArgs, IsDecayed, DuplicateNotice;
    var m1 := AfterDuplicates(host, msgs, b);
    EachPassSparesInline(host, msgs, b);
    SameLookups(host, host, msgs, m1, j);
    if Duplicate(host, msgs, b, j) {
      DuplicatesAreGone(host, msgs, b, j);
      DuplicatesAreReads(host, msgs, b, j);
    } else {
      OriginalsStay(host, msgs, b, j);
    }
  }

  lemma DuplicatesAreReads(host: Host, msgs: seq<Message>, b: nat, j: nat)
    requires j < |msgs| && Duplicate(host, msgs, b, j)
    ensures IsTool(msgs[j], "read") && LiveRead(host, msgs, j) && j < b
  {
  }

  /** An inline copy can only be the first one, it is small, and nothing but
      duplicates came after it. */
  lemma InlineCopyIsFirst(host: Host, msgs: seq<Message>, i: nat, k: nat)
    requires ToolsArePlain(msgs) && i < |msgs|
    requires Duplicate(host, msgs, HotBoundary(msgs), i) && InlineCopy(host, msgs, Decayed(host, msgs), i, k)
    ensures k == FirstCopy(host, msgs, HotBoundary(msgs), i)
    ensures |msgs[i].content| <= DECAY_MIN_BYTES && OnlyRepeatedSince(host, msgs, HotBoundary(msgs), i)
  {
    hide Duplicate, Decayed, AfterDuplicates, HotBoundary, PathOf, CallArgs, IsDecayed, FirstCopy, NewestSighting, ToolsArePlain;
    var b := HotBoundary(msgs);
    var m1, after := AfterDuplicates(host, msgs, b), Decayed(host, msgs);
    var f, path := FirstCopy(host, msgs, b, i), PathOf(host, msgs, i);
    DuplicatesAreReads(host, msgs, b, i);
    SurvivorsAreSmall(host, msgs, k);
    PassesInOrder(host, msgs);
    InlineWasNotSuperseded(host, m1, after, b, k);
    SameLookups(host, host, msgs, after, k);
    SameLookups(host, host, m1, after, k);
    assert m1[k] == after[k] && msgs[k] == after[k];
    NewestInline(host, m1, b, k);
    assert NewestSighting(host, m1, path, |msgs|) == k;
    forall j | k < j < |msgs| && Sights(host, msgs, j, path) ensures Duplicate(host, msgs, b, j) {
      SightsAfterDuplicates(host, msgs, b, j, path);
    }
    ChainOfCopies(host, msgs, b, i);
    assert !Duplicate(host, msgs, b, k) by {
      SightsAfterDuplicates(host, msgs, b, k, path);
    }
    assert Sights(host, msgs, f, path);
  }

  /** A live read below the boundary that is not superseded is the newest evidence
      of its file. */
  lemma NewestInline(host: Host, msgs: seq<Message>, b: nat, k: nat)
    requires k < b && k < |msgs| && LiveRead(host, msgs, k) && !Superseded(host, msgs, b, k)
    ensures NewestSighting(host, msgs, PathOf(host, msgs, k), |msgs|) == k && k > 0
  {
    NoPathAtZero(host, msgs);
  }

  /** A small first copy with nothing but duplicates after it stays inline. */
  lemma FirstCopyStays(host: Host, msgs: seq<Message>, i: nat)
    requires ToolsArePlain(msgs) && i < |msgs|
    requires Duplicate(host, msgs, HotBoundary(msgs), i)
    requires |msgs[i].content| <= DECAY_MIN_BYTES && OnlyRepeatedSince(host, msgs, HotBoundary(msgs), i)
    ensures InlineCopy(host, msgs, Decayed(host, msgs), i, FirstCopy(host, msgs, HotBoundary(msgs), i))
  {
    hide Duplicate, Decayed, AfterDuplicates, AfterSuperseded, AfterAge, HotBoundary, PathOf, CallArgs, IsDecayed, FirstCopy, NewestSighting;
    var b := HotBoundary(msgs);
    var m1, after := AfterDuplicates(host, msgs, b), Decayed(host, msgs);
    var f, path := FirstCopy(host, msgs, b, i), PathOf(host, msgs, i);
    DuplicatesAreReads(host, msgs, b, i);
    ChainOfCopies(host, msgs, b, i);
    NoPathAtZero(host, msgs);
    OriginalsStay(host, msgs, b, f);
    PassesInOrder(host, msgs);
    SameLookups(host, host, msgs, m1, f);
    SameLookups(host, host, msgs, after, f);
    forall j | f < j < |msgs| ensures !Sights(host, m1, j, path) {
      SightsAfterDuplicates(host, msgs, b, j, path);
    }
    NewestIs(host, m1, path, |msgs|, f);
    SparedByRest(host, msgs, f);
  }

  /** The later passes leave alone a small result that is not superseded. */
  lemma SparedByRest(host: Host, msgs: seq<Message>, f: nat)
    requires ToolsArePlain(msgs) && f < |msgs| && msgs[f].role.Tool? && |msgs[f].content| <= DECAY_MIN_BYTES
    requires AfterDuplicates(host, msgs, HotBoundary(msgs))[f] == msgs[f]
    requires !Superseded(host, AfterDuplicates(host, msgs, HotBoundary(msgs)), HotBoundary(msgs), f)
    ensures Decayed(host, msgs)[f] == msgs[f]
  {
    hide AfterDuplicates, Superseded, HotBoundary, IsDecayed;
    var b := HotBoundary(msgs);
    var m1 := AfterDuplicates(host, msgs, b);
    var m2 := AfterSuperseded(host, m1, b);
    PassesInOrder(host, msgs);
    assert m2[f] == SupersededOne(host, m1, b, f);
    assert AfterAge(host, m2, b)[f] == AgedOne(host, m2, b, f);
  }

  /** The copy a duplicate notice points at is still inline if and only if the result
      is small enough not to decay by age and everything that showed the file since
      that copy was itself a duplicate: no write or edit, and no read that differs. */
  lemma FirstCopyIsInlineExactly(host: Host, msgs: seq<Message>, i: nat)
    requires ToolsArePlain(msgs) && i < |msgs| && Duplicate(host, msgs, HotBoundary(msgs), i)
    ensures (exists k: nat :: InlineCopy(host, msgs, Decayed(host, msgs), i, k))
            <==> |msgs[i].content| <= DECAY_MIN_BYTES && OnlyRepeatedSince(host, msgs, HotBoundary(msgs), i)
  {
    hide Duplicate, Decayed, HotBoundary, InlineCopy, OnlyRepeatedSince, FirstCopy;
    if k: nat :| InlineCopy(host, msgs, Decayed(host, msgs), i, k) {
      InlineCopyIsFirst(host, msgs, i, k);
    }
    if |msgs[i].content| <= DECAY_MIN_BYTES && OnlyRepeatedSince(host, msgs, HotBoundary(msgs), i) {
      FirstCopyStays(host, msgs, i);
    }
  }

  /** The notice itself stays: later passes do not touch a placeholder. */
  lemma NoticeStays(host: Host, msgs: seq<Message>, i: nat)
    requires ToolsArePlain(msgs) && i < |msgs| && Duplicate(host, msgs, HotBoundary(msgs), i)
    ensures Decayed(host, msgs)[i].content == DuplicateNotice(PathOf(host, msgs, i))
  {
    hide Duplicate, AfterDuplicates, HotBoundary, PathOf, IsDecayed, DuplicateNotice;
    var b := HotBoundary(msgs);
    var m1 := AfterDuplicates(host, msgs, b);
    var m2 := AfterSuperseded(host, m1, b);
    DuplicatesAreReads(host, msgs, b, i);
    DuplicatesAreGone(host, msgs, b, i);
    PassesInOrder(host, msgs);
    assert m2[i] == SupersededOne(host, m1, b, i);
    assert AfterAge(host, m2, b)[i] == AgedOne(host, m2, b, i);
  }
}
