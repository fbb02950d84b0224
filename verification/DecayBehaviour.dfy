/** What decay does to each message, said about the history it is given: which call
    a result answers, which results go, and what stands in their place. */
module DecayBehaviour {
  import opened Transcript
  import opened Numerals
  import opened Pairing
  import opened Decay
  import opened DecayLaws
  import opened DuplicateReads

  // ----- The call a result answers

  /** The call `k` of message `j` is the one the result at `i` answers: `j` is the
      nearest assistant message above, `k` its first call with the ID. */
  ghost predicate AnswersCall(msgs: seq<Message>, i: nat, j: nat, k: nat)
    requires i < |msgs|
  {
    && msgs[i].toolCallID != ""
    && j < i && msgs[j].role.Assistant? && (forall l :: j < l < i ==> !msgs[l].role.Assistant?)
    && k < |msgs[j].toolCalls| && msgs[j].toolCalls[k].id == msgs[i].toolCallID
    && forall l :: 0 <= l < k ==> msgs[j].toolCalls[l].id != msgs[i].toolCallID
  }

  lemma {:induction false} OwnerIsNearest(msgs: seq<Message>, i: nat, j: nat)
    requires i <= |msgs|
    ensures j < i && msgs[j].role.Assistant? && (forall l :: j < l < i ==> !msgs[l].role.Assistant?) ==> OwnerBefore(msgs, i) == Some(j)
    ensures OwnerBefore(msgs, i) == Some(j) ==> j < i && msgs[j].role.Assistant? && forall l :: j < l < i ==> !msgs[l].role.Assistant?
    decreases i
  {
    if i > 0 {
      OwnerIsNearest(msgs, i - 1, j);
    }
  }

  lemma {:induction false} FoundIsFirst(calls: seq<ToolCall>, id: string, k: nat)
    requires k < |calls| && calls[k].id == id && forall l :: 0 <= l < k ==> calls[l].id != id
    ensures FindCall(calls, id) == Some(calls[k])
    decreases k
  {
    if k > 0 {
      assert calls[0].id != id;
      forall l | 0 <= l < k - 1 ensures calls[1..][l].id != id {
        assert calls[1..][l] == calls[l + 1];
      }
      FoundIsFirst(calls[1..], id, k - 1);
    }
  }

  lemma {:induction false} FoundIsThere(calls: seq<ToolCall>, id: string) returns (k: nat)
    requires FindCall(calls, id).Some?
    ensures k < |calls| && calls[k].id == id && FindCall(calls, id) == Some(calls[k])
    ensures forall l :: 0 <= l < k ==> calls[l].id != id
  {
    k := 0;
    if calls[0].id != id {
      k := FoundIsThere(calls[1..], id);
      forall l | 0 <= l < k + 1 ensures calls[l].id != id {
        assert l > 0 ==> calls[l] == calls[1..][l - 1];
      }
      k := k + 1;
    }
  }

  lemma CallIsAnswered(msgs: seq<Message>, i: nat, j: nat, k: nat)
    requires i < |msgs| && AnswersCall(msgs, i, j, k)
    ensures CallOf(msgs, i) == Some(msgs[j].toolCalls[k])
    ensures CallArgs(msgs, i) == msgs[j].toolCalls[k].arguments
    ensures forall host: Host :: PathOf(host, msgs, i) == host.pathArgument(msgs[j].toolCalls[k].arguments)
  {
    OwnerIsNearest(msgs, i, j);
    FoundIsFirst(msgs[j].toolCalls, msgs[i].toolCallID, k);
  }

  /** A result's path and arguments are those of the call it answers; a result that
      answers none has neither. */
  lemma LookupsFollowTheCall(host: Host, msgs: seq<Message>, i: nat)
    requires i < |msgs|
    ensures forall j: nat, k: nat :: AnswersCall(msgs, i, j, k) ==>
              && CallArgs(msgs, i) == msgs[j].toolCalls[k].arguments
              && PathOf(host, msgs, i) == host.pathArgument(msgs[j].toolCalls[k].arguments)
    ensures (forall j: nat, k: nat :: !AnswersCall(msgs, i, j, k)) ==> CallArgs(msgs, i) == "" && PathOf(host, msgs, i) == ""
  {
    forall j: nat, k: nat | AnswersCall(msgs, i, j, k)
      ensures CallArgs(msgs, i) == msgs[j].toolCalls[k].arguments
      ensures PathOf(host, msgs, i) == host.pathArgument(msgs[j].toolCalls[k].arguments)
    {
      CallIsAnswered(msgs, i, j, k);
    }
    if CallOf(msgs, i).Some? {
      var j := OwnerBefore(msgs, i).value;
      OwnerIsNearest(msgs, i, j);
      var k := FoundIsThere(msgs[j].toolCalls, msgs[i].toolCallID);
      assert AnswersCall(msgs, i, j, k);
    }
  }

  /** In a paired history with distinct call IDs decay finds the right call: the one
      the result is paired with. */
  lemma PairedCallIsFound(msgs: seq<Message>, p: nat, i: nat)
    requires Paired(msgs) && Owns(msgs, p, i) && msgs[i].toolCallID != ""
    requires forall k, l :: 0 <= k < l < |msgs[p].toolCalls| ==> msgs[p].toolCalls[k].id != msgs[p].toolCalls[l].id
    ensures CallOf(msgs, i) == Some(msgs[p].toolCalls[i - p - 1])
  {
    assert Answered(msgs, p);
    var k := i - p - 1;
    forall l | p < l <= i ensures msgs[l].role.Tool? {
      assert Answers(msgs[l], msgs[p].toolCalls[l - p - 1]);
    }
    assert Answers(msgs[i], msgs[p].toolCalls[k]);
    CallIsAnswered(msgs, i, p, k);
  }

  // ----- Which results go

  predicate Inline(m: Message) {
    m.content == "" || m.content[0] != '\U{27E8}'
  }

  /** A read result that still has its text and whose file is known. */
  predicate IsRead(host: Host, msgs: seq<Message>, i: nat)
    requires i < |msgs|
  {
    msgs[i].role.Tool? && msgs[i].name == "read" && Inline(msgs[i]) && PathOf(host, msgs, i) != ""
  }

  predicate SameRegion(host: Host, msgs: seq<Message>, i: nat, k: nat)
    requires i < |msgs| && k < |msgs|
  {
    PathOf(host, msgs, i) == PathOf(host, msgs, k) && CallArgs(msgs, i) == CallArgs(msgs, k)
  }

  /** The last read of the same region above it returned the same bytes. */
  ghost predicate RepeatsAbove(host: Host, msgs: seq<Message>, i: nat)
    requires i < |msgs|
  {
    IsRead(host, msgs, i) &&
    exists k: nat :: RepeatOf(host, msgs, i, k)
  }

  ghost predicate RepeatOf(host: Host, msgs: seq<Message>, i: nat, k: nat)
    requires i < |msgs|
  {
    && k < i && IsRead(host, msgs, k) && SameRegion(host, msgs, i, k) && msgs[k].content == msgs[i].content
    && forall l :: k < l < i && IsRead(host, msgs, l) ==> !SameRegion(host, msgs, i, l)
  }

  /** A read with its text, a write or an edit of the file. */
  predicate ShowsFile(host: Host, msgs: seq<Message>, j: nat, path: string)
    requires j < |msgs|
  {
    && msgs[j].role.Tool? && path != "" && PathOf(host, msgs, j) == path
    && ((msgs[j].name == "read" && Inline(msgs[j])) || msgs[j].name == "write" || msgs[j].name == "edit")
  }

  /** A read that repeats the one above, or whose file is shown again further down by
      anything but such a repeat. */
  ghost predicate Stale(host: Host, msgs: seq<Message>, boundary: nat, i: nat)
    requires i < |msgs|
  {
    IsRead(host, msgs, i) &&
    (RepeatsAbove(host, msgs, i) ||
     exists j :: i < j < |msgs| && ShowsFile(host, msgs, j, PathOf(host, msgs, i)) && !(j < boundary && RepeatsAbove(host, msgs, j)))
  }

  lemma InlineIsUnmarked(m: Message)
    ensures Inline(m) <==> !IsDecayed(m.content)
  {
  }

  lemma ReadsAreLive(host: Host, msgs: seq<Message>, i: nat)
    requires i < |msgs|
    ensures IsRead(host, msgs, i) <==> LiveRead(host, msgs, i)
    ensures forall path :: ShowsFile(host, msgs, i, path) <==> Sights(host, msgs, i, path)
  {
    hide PathOf, IsDecayed, Inline;
    InlineIsUnmarked(msgs[i]);
  }

  lemma RepeatsAreDuplicates(host: Host, msgs: seq<Message>, boundary: nat, i: nat)
    requires i < |msgs|
    ensures Duplicate(host, msgs, boundary, i) <==> i < boundary && RepeatsAbove(host, msgs, i)
  {
    hide PathOf, CallArgs, LiveRead, IsRead;
    forall k: nat | k < |msgs| ensures IsRead(host, msgs, k) <==> LiveRead(host, msgs, k) {
      ReadsAreLive(host, msgs, k);
    }
    var last := LastRead(host, msgs, KeyOf(host, msgs, i), i);
    if Duplicate(host, msgs, boundary, i) {
      assert RepeatOf(host, msgs, i, last.value);
    }
    if RepeatsAbove(host, msgs, i) {
      var k: nat :| RepeatOf(host, msgs, i, k);
      assert last == Some(k);
    }
  }

  lemma {:induction false} NewestSightingIs(host: Host, msgs: seq<Message>, path: string, i: nat)
    requires 0 < i < |msgs| && Sights(host, msgs, i, path)
    ensures NewestSighting(host, msgs, path, |msgs|) == i <==> forall j :: i < j < |msgs| ==> !Sights(host, msgs, j, path)
  {
    hide PathOf, IsDecayed;
  }

  /** After the first pass a read is superseded exactly if something other than a
      removed repeat shows its file further down. */
  lemma SupersededMeans(host: Host, msgs: seq<Message>, b: nat, i: nat)
    requires ToolsArePlain(msgs) && i < |msgs| && i < b && !Duplicate(host, msgs, b, i)
    ensures var m1 := AfterDuplicates(host, msgs, b);
            Superseded(host, m1, b, i) <==>
            && IsRead(host, msgs, i)
            && exists j :: i < j < |msgs| && ShowsFile(host, msgs, j, PathOf(host, msgs, i)) && !Duplicate(host, msgs, b, j)
  {
    hide Duplicate, AfterDuplicates, PathOf, CallArgs, IsDecayed, NewestSighting, Inline, ShowsFile, IsRead;
    var m1, path := AfterDuplicates(host, msgs, b), PathOf(host, msgs, i);
    OriginalsStay(host, msgs, b, i);
    EachPassSparesInline(host, msgs, b);
    SameLookups(host, host, msgs, m1, i);
    ReadsAreLive(host, msgs, i);
    NoPathAtZero(host, msgs);
    forall j: nat | j < |msgs|
      ensures Sights(host, m1, j, path) <==> ShowsFile(host, msgs, j, path) && !Duplicate(host, msgs, b, j)
    {
      SightsAfterDuplicates(host, msgs, b, j, path);
      ReadsAreLive(host, msgs, j);
    }
    if LiveRead(host, msgs, i) {
      assert Sights(host, m1, i, path);
      NewestSightingIs(host, m1, path, i);
    }
  }

  /** What happens to a tool result. It goes exactly if it stands below the boundary
      with its text and is stale or longer than 8000 bytes; otherwise it is the same. */
  lemma ResultGoesExactly(host: Host, msgs: seq<Message>, i: nat)
    requires ToolsArePlain(msgs) && i < |msgs| && msgs[i].role.Tool?
    ensures var b := HotBoundary(msgs);
            var goes := i < b && Inline(msgs[i]) && (Stale(host, msgs, b, i) || |msgs[i].content| > 8_000);
            && (goes ==> !Inline(Decayed(host, msgs)[i]))
            && (!goes ==> Decayed(host, msgs)[i] == msgs[i])
  {
    hide Duplicate, Superseded, Decayed, HotBoundary, PathOf, CallArgs, IsDecayed, Inline, RepeatsAbove, ShowsFile, IsRead;
    var b := HotBoundary(msgs);
    InlineIsUnmarked(msgs[i]);
    InlineIsUnmarked(Decayed(host, msgs)[i]);
    if i < b {
      StaleMeans(host, msgs, b, i);
    }
    PassByPass(host, msgs, i);
  }

  lemma StaleMeans(host: Host, msgs: seq<Message>, b: nat, i: nat)
    requires ToolsArePlain(msgs) && i < |msgs| && i < b
    ensures Stale(host, msgs, b, i) <==> Duplicate(host, msgs, b, i) || Superseded(host, AfterDuplicates(host, msgs, b), b, i)
  {
    hide Duplicate, Superseded, AfterDuplicates, PathOf, CallArgs, IsDecayed, Inline, RepeatsAbove, ShowsFile, IsRead;
    forall j: nat | j < |msgs| ensures Duplicate(host, msgs, b, j) <==> j < b && RepeatsAbove(host, msgs, j) {
      RepeatsAreDuplicates(host, msgs, b, j);
    }
    if Duplicate(host, msgs, b, i) {
      DuplicatesAreReads(host, msgs, b, i);
      ReadsAreLive(host, msgs, i);
    } else {
      SupersededMeans(host, msgs, b, i);
    }
  }

  /** The passes one after the other, for a result below the boundary or above it. */
  lemma PassByPass(host: Host, msgs: seq<Message>, i: nat)
    requires ToolsArePlain(msgs) && i < |msgs| && msgs[i].role.Tool?
    ensures var b := HotBoundary(msgs);
            var picked := Duplicate(host, msgs, b, i) || Superseded(host, AfterDuplicates(host, msgs, b), b, i);
            var now := Decayed(host, msgs)[i];
            && (i < b && !IsDecayed(msgs[i].content) && (picked || |msgs[i].content| > DECAY_MIN_BYTES) ==> IsDecayed(now.content))
            && (!(i < b && !IsDecayed(msgs[i].content) && (picked || |msgs[i].content| > DECAY_MIN_BYTES)) ==> now == msgs[i])
  {
    hide Duplicate, Superseded, AfterDuplicates, AfterSuperseded, HotBoundary, IsDecayed;
    var b := HotBoundary(msgs);
    var m1 := AfterDuplicates(host, msgs, b);
    var m2 := AfterSuperseded(host, m1, b);
    PassesInOrder(host, msgs);
    assert AfterAge(host, m2, b)[i] == AgedOne(host, m2, b, i);
    DuplicateAt(host, msgs, b, i);
    SupersededAt(host, m1, b, i);
  }

  lemma DuplicateAt(host: Host, msgs: seq<Message>, b: nat, i: nat)
    requires i < |msgs|
    ensures AfterDuplicates(host, msgs, b)[i] == DuplicateOne(host, msgs, b, i)
    ensures Duplicate(host, msgs, b, i) ==> i < b && !IsDecayed(msgs[i].content) && msgs[i].role.Tool?
  {
  }

  lemma SupersededAt(host: Host, msgs: seq<Message>, b: nat, i: nat)
    requires i < |msgs|
    ensures AfterSuperseded(host, msgs, b)[i] == SupersededOne(host, msgs, b, i)
    ensures Superseded(host, msgs, b, i) ==> i < b && !IsDecayed(msgs[i].content)
  {
    hide NewestSighting;
  }

  // ----- What stands in its place

  ghost function AuthoredSince(msgs: seq<Message>, i: nat): set<nat> {
    set j: nat | i <= j < |msgs| && msgs[j].role.User? && msgs[j].authored
  }

  lemma {:induction false} AuthoredAreCounted(msgs: seq<Message>, i: nat)
    requires i <= |msgs|
    ensures AuthoredFrom(msgs, i) == |AuthoredSince(msgs, i)|
    decreases |msgs| - i
  {
    if i == |msgs| {
      assert AuthoredSince(msgs, i) == {};
    } else {
      AuthoredAreCounted(msgs, i + 1);
      assert AuthoredSince(msgs, i) == AuthoredSince(msgs, i + 1) + if msgs[i].role.User? && msgs[i].authored then {i} else {};
    }
  }

  /** A result that goes for its size alone says how many messages a human has typed
      since; one that repeats a read says so. */
  lemma NoticesSayWhy(host: Host, msgs: seq<Message>, i: nat)
    requires ToolsArePlain(msgs) && i < |msgs| && msgs[i].role.Tool? && i < HotBoundary(msgs) && Inline(msgs[i])
    ensures RepeatsAbove(host, msgs, i) ==> Decayed(host, msgs)[i].content == DuplicateNotice(PathOf(host, msgs, i))
    ensures !Stale(host, msgs, HotBoundary(msgs), i) && |msgs[i].content| > 8_000 ==>
              Decayed(host, msgs)[i].content == Placeholder(host.aged(i, |AuthoredSince(msgs, i)|))
  {
    hide Duplicate, Superseded, AfterDuplicates, AfterSuperseded, HotBoundary, PathOf, CallArgs, IsDecayed, Inline, RepeatsAbove, ShowsFile,
         IsRead, DuplicateNotice, Placeholder;
    var b := HotBoundary(msgs);
    var m1 := AfterDuplicates(host, msgs, b);
    var m2 := AfterSuperseded(host, m1, b);
    InlineIsUnmarked(msgs[i]);
    RepeatsAreDuplicates(host, msgs, b, i);
    if Duplicate(host, msgs, b, i) {
      NoticeStays(host, msgs, i);
    }
    StaleMeans(host, msgs, b, i);
    PassesInOrder(host, msgs);
    DuplicateAt(host, msgs, b, i);
    SupersededAt(host, m1, b, i);
    assert AfterAge(host, m2, b)[i] == AgedOne(host, m2, b, i);
    AuthoredAreCounted(m2, i);
    SameAuthors(msgs, m2, i);
  }

  /** The message at `j` is the last to show the file, repeats that go apart. */
  ghost predicate ShowsLast(host: Host, msgs: seq<Message>, boundary: nat, path: string, j: nat)
    requires j < |msgs|
  {
    && ShowsFile(host, msgs, j, path) && !(j < boundary && RepeatsAbove(host, msgs, j))
    && forall l :: j < l < |msgs| && ShowsFile(host, msgs, l, path) ==> l < boundary && RepeatsAbove(host, msgs, l)
  }

  /** A read that is superseded says by what: a write or edit, or a newer read and
      how many lines that has. */
  lemma SupersededSaysWhy(host: Host, msgs: seq<Message>, i: nat, j: nat)
    requires ToolsArePlain(msgs) && i < j < |msgs| && i < HotBoundary(msgs)
    requires IsRead(host, msgs, i) && !RepeatsAbove(host, msgs, i)
    requires ShowsLast(host, msgs, HotBoundary(msgs), PathOf(host, msgs, i), j)
    ensures var name := Base(PathOf(host, msgs, i));
            Decayed(host, msgs)[i].content ==
            if msgs[j].name == "read" then
              "\U{27E8}read of " + name + " superseded by newer read (" + Decimal(LineCount(msgs[j].content)) + " lines)\U{27E9}"
            else "\U{27E8}read of " + name + " superseded \U{2014} file changed by a later write/edit\U{27E9}"
  {
    hide Duplicate, AfterDuplicates, AfterSuperseded, HotBoundary, PathOf, CallArgs, IsDecayed, Inline, RepeatsAbove, ShowsFile, IsRead,
         NewestSighting, Base, LineCount, Decimal, SupersededNotice;
    var b, path := HotBoundary(msgs), PathOf(host, msgs, i);
    var m1 := AfterDuplicates(host, msgs, b);
    var m2 := AfterSuperseded(host, m1, b);
    forall l: nat | l < |msgs| ensures Duplicate(host, msgs, b, l) <==> l < b && RepeatsAbove(host, msgs, l) {
      RepeatsAreDuplicates(host, msgs, b, l);
    }
    forall l: nat | l < |msgs| ensures Sights(host, m1, l, path) <==> ShowsFile(host, msgs, l, path) && !Duplicate(host, msgs, b, l) {
      SightsAfterDuplicates(host, msgs, b, l, path);
      ReadsAreLive(host, msgs, l);
    }
    SupersededMeans(host, msgs, b, i);
    NewestSightingIs(host, m1, path, j);
    OriginalsStay(host, msgs, b, i);
    OriginalsStay(host, msgs, b, j);
    EachPassSparesInline(host, msgs, b);
    SameLookups(host, host, msgs, m1, i);
    SupersededAt(host, m1, b, i);
    PassesInOrder(host, msgs);
    assert AfterAge(host, m2, b)[i] == AgedOne(host, m2, b, i);
    NoticeReads(path, SightingAt(msgs, j));
  }

  lemma NoticeReads(path: string, s: Sighting)
    ensures SupersededNotice(path, s) ==
            if s.write then "\U{27E8}read of " + Base(path) + " superseded \U{2014} file changed by a later write/edit\U{27E9}"
            else "\U{27E8}read of " + Base(path) + " superseded by newer read (" + Decimal(s.lines) + " lines)\U{27E9}"
  {
    hide Base, Decimal;
    assert DECAYED_MARKER + "read of " == "\U{27E8}read of ";
    if s.write {
      Marked("read of ", Base(path), " superseded \U{2014} file changed by a later write/edit\U{27E9}", "", "");
    } else {
      Marked("read of ", Base(path), " superseded by newer read (", Decimal(s.lines), " lines)\U{27E9}");
    }
  }

  lemma Marked(a: string, b: string, c: string, d: string, e: string)
    ensures DECAYED_MARKER + (a + b + c + d + e) == DECAYED_MARKER + a + b + c + d + e
    ensures DECAYED_MARKER + (a + b + c) == DECAYED_MARKER + a + b + c
  {
  }

  lemma SameAuthors(a: seq<Message>, b: seq<Message>, i: nat)
    requires SameFrame(a, b)
    ensures AuthoredSince(a, i) == AuthoredSince(b, i)
  {
    assert forall j :: 0 <= j < |a| ==> b[j].role == a[j].role && b[j].authored == a[j].authored;
  }

  // ----- What counts

  /** The images of a message, one by one. */
  lemma {:induction false} ImagesAreCounted(parts: seq<ContentPart>)
    ensures ImageCount(parts) == |set i: nat | i < |parts| && parts[i].ImagePart?|
  {
    if parts != [] {
      var front, n := parts[..|parts| - 1], |parts| - 1;
      ImagesAreCounted(front);
      assert (set i: nat | i < |parts| && parts[i].ImagePart?)
          == (set i: nat | i < |front| && front[i].ImagePart?) + (if parts[n].ImagePart? then {n} else {});
    }
  }

  /** The hot window counts every text four characters to a token and every part at
      its own price. */
  lemma WindowCountsPartsAndText(m: Message, p: ContentPart)
    ensures MsgTokens(m.(parts := m.parts + [p])) == MsgTokens(m) + PartTokens(p)
    ensures m.parts == [] && m.toolCalls == [] ==> MsgTokens(m) == (|m.content| + |m.toolCallID| + |m.name|) / 4
    ensures m.parts == [] && |m.toolCalls| == 1 ==>
              MsgTokens(m) == (|m.content| + |m.toolCallID| + |m.name| + |m.toolCalls[0].name| + |m.toolCalls[0].arguments|) / 4
  {
    PartsAddUp(m.parts, p);
    if |m.toolCalls| == 1 {
      assert CallsLength(m.toolCalls[1..]) == 0;
    }
  }
}
