/** What decay leaves behind: the frame, the survivors, the count, and that a
    second pass finds nothing to do. */
module DecayLaws {
  import opened Transcript
  import opened Decay

  /** Tool results carry no content parts. */
  ghost predicate ToolsArePlain(msgs: seq<Message>) {
    forall i :: 0 <= i < |msgs| && msgs[i].role.Tool? ==> msgs[i].parts == []
  }

  /** The lists differ in texts and parts only. */
  ghost predicate SameFrame(a: seq<Message>, b: seq<Message>) {
    && |a| == |b|
    && forall i :: 0 <= i < |a| ==> b[i] == a[i].(content := b[i].content, parts := b[i].parts)
  }

  lemma {:induction false} SameOwner(a: seq<Message>, b: seq<Message>, i: nat)
    requires SameFrame(a, b) && i <= |a|
    ensures OwnerBefore(a, i) == OwnerBefore(b, i)
  {
    if i > 0 {
      assert b[i - 1].role == a[i - 1].role;
      SameOwner(a, b, i - 1);
    }
  }

  lemma SameLookups(host: Host, other: Host, a: seq<Message>, b: seq<Message>, i: nat)
    requires SameFrame(a, b) && i < |a| && host.pathArgument == other.pathArgument
    ensures CallOf(a, i) == CallOf(b, i)
    ensures PathOf(host, a, i) == PathOf(other, b, i)
    ensures CallArgs(a, i) == CallArgs(b, i)
  {
    SameOwner(a, b, i);
    assert b[i].toolCallID == a[i].toolCallID;
    match OwnerBefore(a, i)
    case None =>
    case Some(j) => assert b[j].toolCalls == a[j].toolCalls;
  }

  // ----- The frame

  /** One message's fate: outside the cold part nothing changes; a tool result
      keeps its text or becomes a placeholder; any other message is the same, but
      for its images, which are stripped. */
  ghost predicate DecayedOne(host: Host, boundary: nat, i: nat, was: Message, now: Message) {
    && now == was.(content := now.content, parts := now.parts)
    && (i >= boundary ==> now == was)
    && (was.role.Tool? ==> now.parts == was.parts && (now.content == was.content || IsDecayed(now.content)))
    && (!was.role.Tool? ==> now == if 0 < i < boundary then Stripped(host, i, was) else was)
  }

  lemma DecayFrame(host: Host, msgs: seq<Message>)
    requires ToolsArePlain(msgs)
    ensures var after := Decayed(host, msgs);
            && SameFrame(msgs, after)
            && forall i :: 0 <= i < |msgs| ==> DecayedOne(host, HotBoundary(msgs), i, msgs[i], after[i])
  {
    hide LastRead, NewestSighting, PathOf, IsDecayed, HotBoundary;
    var b := HotBoundary(msgs);
    var m1 := AfterDuplicates(host, msgs, b);
    var m2 := AfterSuperseded(host, m1, b);
    var m3 := AfterAge(host, m2, b);
    forall i | 0 <= i < |msgs| ensures DecayedOne(host, b, i, msgs[i], AfterImages(host, m3, b)[i]) {
      assert m1[i] == DuplicateOne(host, msgs, b, i) && m2[i] == SupersededOne(host, m1, b, i) && m3[i] == AgedOne(host, m2, b, i);
    }
  }

  /** Rewriting stays strictly below the boundary, so the boundary stays where it is. */
  lemma BoundarySurvives(host: Host, msgs: seq<Message>)
    requires ToolsArePlain(msgs)
    ensures HotBoundary(Decayed(host, msgs)) == HotBoundary(msgs)
  {
    hide Decayed, BoundaryFrom, MsgTokens, ToolsArePlain, IsDecayed;
    DecayFrame(host, msgs);
    var after := Decayed(host, msgs);
    if msgs != [] {
      forall j | HotBoundary(msgs) <= j < |msgs| ensures msgs[j] == after[j] {
        assert DecayedOne(host, HotBoundary(msgs), j, msgs[j], after[j]);
      }
      BoundaryIsStable(msgs, after, |msgs| - 1, DECAY_HOT_WINDOW);
    }
  }

  // ----- The four passes, one after the other

  /** `later` keeps the frame of `earlier`, and every tool result that is inline
      in it is the same message. */
  ghost predicate InlineIsUntouched(earlier: seq<Message>, later: seq<Message>) {
    && SameFrame(earlier, later)
    && forall i :: 0 <= i < |later| && later[i].role.Tool? && !IsDecayed(later[i].content) ==> later[i] == earlier[i]
  }

  /** Every message is the same as before or became a placeholder. */
  ghost predicate OnlyPlaceholders(was: seq<Message>, now: seq<Message>) {
    |was| == |now| && forall i :: 0 <= i < |was| ==> now[i] == was[i] || Replaced(was[i], now[i])
  }

  lemma PassesWritePlaceholders(host: Host, msgs: seq<Message>, b: nat)
    ensures OnlyPlaceholders(msgs, AfterDuplicates(host, msgs, b))
    ensures OnlyPlaceholders(msgs, AfterSuperseded(host, msgs, b))
    ensures OnlyPlaceholders(msgs, AfterAge(host, msgs, b))
  {
    hide Duplicate, Superseded, Aged, Replaced;
    var m1, m2, m3 := AfterDuplicates(host, msgs, b), AfterSuperseded(host, msgs, b), AfterAge(host, msgs, b);
    forall i | 0 <= i < |msgs|
      ensures m1[i] == msgs[i] || Replaced(msgs[i], m1[i])
      ensures m2[i] == msgs[i] || Replaced(msgs[i], m2[i])
      ensures m3[i] == msgs[i] || Replaced(msgs[i], m3[i])
    {
      assert m1[i] == DuplicateOne(host, msgs, b, i) && m2[i] == SupersededOne(host, msgs, b, i) && m3[i] == AgedOne(host, msgs, b, i);
    }
  }

  lemma PlaceholdersSpareInline(was: seq<Message>, now: seq<Message>)
    requires OnlyPlaceholders(was, now)
    ensures InlineIsUntouched(was, now)
    ensures ToolsArePlain(was) ==> ToolsArePlain(now)
  {
    hide IsDecayed;
  }

  lemma ImagesSpareResults(host: Host, msgs: seq<Message>, b: nat)
    requires ToolsArePlain(msgs)
    ensures var after := AfterImages(host, msgs, b);
            InlineIsUntouched(msgs, after) && forall i :: 0 <= i < |msgs| && msgs[i].role.Tool? ==> after[i] == msgs[i]
  {
    hide IsDecayed;
  }

  lemma EachPassSparesInline(host: Host, msgs: seq<Message>, b: nat)
    requires ToolsArePlain(msgs)
    ensures InlineIsUntouched(msgs, AfterDuplicates(host, msgs, b)) && ToolsArePlain(AfterDuplicates(host, msgs, b))
    ensures InlineIsUntouched(msgs, AfterSuperseded(host, msgs, b)) && ToolsArePlain(AfterSuperseded(host, msgs, b))
    ensures InlineIsUntouched(msgs, AfterAge(host, msgs, b)) && ToolsArePlain(AfterAge(host, msgs, b))
  {
    hide OnlyPlaceholders, InlineIsUntouched, ToolsArePlain;
    PassesWritePlaceholders(host, msgs, b);
    PlaceholdersSpareInline(msgs, AfterDuplicates(host, msgs, b));
    PlaceholdersSpareInline(msgs, AfterSuperseded(host, msgs, b));
    PlaceholdersSpareInline(msgs, AfterAge(host, msgs, b));
  }

  lemma InlineTwice(a: seq<Message>, b: seq<Message>, c: seq<Message>)
    requires InlineIsUntouched(a, b) && InlineIsUntouched(b, c)
    ensures InlineIsUntouched(a, c)
  {
    hide IsDecayed;
  }

  lemma PassesInOrder(host: Host, msgs: seq<Message>)
    requires ToolsArePlain(msgs)
    ensures var b := HotBoundary(msgs);
            var m1 := AfterDuplicates(host, msgs, b);
            var m2 := AfterSuperseded(host, m1, b);
            var m3 := AfterAge(host, m2, b);
            var after := Decayed(host, msgs);
            && InlineIsUntouched(msgs, m1) && InlineIsUntouched(m1, m2) && InlineIsUntouched(m2, m3)
            && InlineIsUntouched(msgs, m2) && InlineIsUntouched(m1, after) && InlineIsUntouched(m2, after) && InlineIsUntouched(msgs, after)
            && (forall i :: 0 <= i < |msgs| && msgs[i].role.Tool? ==> after[i] == m3[i])
  {
    hide AfterDuplicates, AfterSuperseded, AfterAge, AfterImages, HotBoundary, IsDecayed;
    var b := HotBoundary(msgs);
    var m1 := AfterDuplicates(host, msgs, b);
    var m2 := AfterSuperseded(host, m1, b);
    var m3 := AfterAge(host, m2, b);
    var after := Decayed(host, msgs);
    EachPassSparesInline(host, msgs, b);
    EachPassSparesInline(host, m1, b);
    EachPassSparesInline(host, m2, b);
    ImagesSpareResults(host, m3, b);
    InlineTwice(m2, m3, after);
    InlineTwice(m1, m2, after);
    InlineTwice(msgs, m1, m2);
    InlineTwice(msgs, m1, after);
  }

  lemma NoPathAtZero(host: Host, msgs: seq<Message>)
    requires |msgs| > 0
    ensures PathOf(host, msgs, 0) == ""
  {
  }

  lemma NewestIs(host: Host, msgs: seq<Message>, path: string, n: nat, i: nat)
    requires 0 < i < n <= |msgs|
    requires Sights(host, msgs, i, path) && forall j :: i < j < n ==> !Sights(host, msgs, j, path)
    ensures NewestSighting(host, msgs, path, n) == i
  {
    assert NewestSighting(host, msgs, path, n) <= i;
    assert NewestSighting(host, msgs, path, n) >= i;
  }

  lemma InlineWasNotSuperseded(host: Host, msgs: seq<Message>, after: seq<Message>, b: nat, i: nat)
    requires i < |msgs|
    requires InlineIsUntouched(AfterSuperseded(host, msgs, b), after)
    requires after[i].role.Tool? && !IsDecayed(after[i].content)
    ensures !Superseded(host, msgs, b, i)
  {
    hide Superseded, IsDecayed;
    assert AfterSuperseded(host, msgs, b)[i] == SupersededOne(host, msgs, b, i);
    assert AfterSuperseded(host, msgs, b)[i] == after[i];
  }

  /** Below the boundary every read that is still inline is the newest evidence of
      its file: no later write, edit or inline read of the path remains. */
  lemma SurvivingReadIsNewest(host: Host, other: Host, msgs: seq<Message>, i: nat)
    requires ToolsArePlain(msgs) && host.pathArgument == other.pathArgument
    requires i < HotBoundary(msgs) && i < |msgs|
    requires LiveRead(other, Decayed(host, msgs), i)
    ensures 0 < i
    ensures var after := Decayed(host, msgs);
            var path := PathOf(other, after, i);
            && (forall j :: i < j < |msgs| ==> !Sights(other, after, j, path))
            && NewestSighting(other, after, path, |msgs|) == i
  {
    hide Decayed, AfterDuplicates, HotBoundary, NewestSighting, IsDecayed, PathOf, CallArgs, ToolsArePlain;
    var b := HotBoundary(msgs);
    var m1 := AfterDuplicates(host, msgs, b);
    var after := Decayed(host, msgs);
    PassesInOrder(host, msgs);
    NoPathAtZero(other, after);
    SameLookups(host, other, m1, after, i);
    var path := PathOf(other, after, i);
    InlineWasNotSuperseded(host, m1, after, b, i);
    assert NewestSighting(host, m1, path, |msgs|) == i;
    forall j | i < j < |msgs| ensures !Sights(other, after, j, path) {
      SameLookups(host, other, m1, after, j);
      assert !Sights(host, m1, j, path);
    }
    NewestIs(other, after, path, |msgs|, i);
  }

  /** Below the boundary no inline tool result is over the size limit. */
  lemma SurvivorsAreSmall(host: Host, msgs: seq<Message>, i: nat)
    requires ToolsArePlain(msgs)
    requires i < HotBoundary(msgs) && i < |msgs|
    requires Decayed(host, msgs)[i].role.Tool? && !IsDecayed(Decayed(host, msgs)[i].content)
    ensures |Decayed(host, msgs)[i].content| <= 8_000
  {
    PassesInOrder(host, msgs);
  }

  // ----- A second pass

  lemma OneReadPerPath(host: Host, other: Host, msgs: seq<Message>, i: nat)
    requires ToolsArePlain(msgs) && host.pathArgument == other.pathArgument
    requires i < HotBoundary(msgs) && i < |msgs|
    requires LiveRead(other, Decayed(host, msgs), i)
    ensures var after := Decayed(host, msgs);
            forall j :: 0 <= j < i && LiveRead(other, after, j) ==> PathOf(other, after, j) != PathOf(other, after, i)
  {
    var after := Decayed(host, msgs);
    forall j | 0 <= j < i && LiveRead(other, after, j) ensures PathOf(other, after, j) != PathOf(other, after, i) {
      SurvivingReadIsNewest(host, other, msgs, j);
      assert !Sights(other, after, i, PathOf(other, after, j));
    }
  }

  lemma NothingLeftToRewrite(host: Host, other: Host, msgs: seq<Message>)
    requires ToolsArePlain(msgs) && host.pathArgument == other.pathArgument
    ensures var after := Decayed(host, msgs);
            var b := HotBoundary(msgs);
            forall i :: 0 <= i < |msgs| ==>
              && !Duplicate(other, after, b, i)
              && !Superseded(other, after, b, i)
              && !Aged(after, b, i)
              && (0 < i < b ==> ImageCount(after[i].parts) == 0)
  {
    var after := Decayed(host, msgs);
    var b := HotBoundary(msgs);
    DecayFrame(host, msgs);
    forall i | 0 <= i < |msgs|
      ensures !Duplicate(other, after, b, i) && !Superseded(other, after, b, i)
      ensures !Aged(after, b, i) && (0 < i < b ==> ImageCount(after[i].parts) == 0)
    {
      assert DecayedOne(host, b, i, msgs[i], after[i]);
      if i < b && LiveRead(other, after, i) {
        SurvivingReadIsNewest(host, other, msgs, i);
        OneReadPerPath(host, other, msgs, i);
      }
      if i < b && after[i].role.Tool? && !IsDecayed(after[i].content) {
        SurvivorsAreSmall(host, msgs, i);
      }
    }
  }

  /** Decay is idempotent, whatever names the second run would give its spill
      files: same boundary, same messages, nothing rewritten. */
  lemma DecayIsIdempotent(host: Host, other: Host, msgs: seq<Message>)
    requires ToolsArePlain(msgs) && host.pathArgument == other.pathArgument
    ensures var after := Decayed(host, msgs);
            && HotBoundary(after) == HotBoundary(msgs)
            && Decayed(other, after) == after
            && RewriteCount(other, after) == 0
  {
    var after := Decayed(host, msgs);
    var b := HotBoundary(msgs);
    BoundarySurvives(host, msgs);
    NothingLeftToRewrite(host, other, msgs);
    assert AfterDuplicates(other, after, b) == after;
    assert AfterSuperseded(other, after, b) == after;
    assert AfterAge(other, after, b) == after;
    assert AfterImages(other, after, b) == after;
    assert Duplicates(other, after, b) == {} && SupersededReads(other, after, b) == {} && AgedResults(after, b) == {};
    if b <= |msgs| {
      NoImages(after, b);
    }
  }

  lemma {:induction false} NoImages(msgs: seq<Message>, n: nat)
    requires n <= |msgs| && forall i :: 0 < i < n ==> ImageCount(msgs[i].parts) == 0
    ensures ImagesBelow(msgs, n) == 0
  {
    if n > 1 {
      NoImages(msgs, n - 1);
    }
  }

  // ----- The count

  ghost function ChangedResults(was: seq<Message>, now: seq<Message>): set<nat>
    requires |was| == |now|
  {
    set i: nat | i < |was| && was[i].role.Tool? && was[i] != now[i]
  }

  ghost predicate BecomePlaceholders(was: seq<Message>, now: seq<Message>)
    requires |was| == |now|
  {
    forall i :: i in ChangedResults(was, now) ==> !IsDecayed(was[i].content) && IsDecayed(now[i].content)
  }

  /** Each pass changes exactly the results it picks, and turns them from inline
      into placeholders. */
  lemma EachPassChangesItsPick(host: Host, msgs: seq<Message>, b: nat)
    ensures ChangedResults(msgs, AfterDuplicates(host, msgs, b)) == Duplicates(host, msgs, b)
    ensures ChangedResults(msgs, AfterSuperseded(host, msgs, b)) == SupersededReads(host, msgs, b)
    ensures ChangedResults(msgs, AfterAge(host, msgs, b)) == AgedResults(msgs, b)
    ensures BecomePlaceholders(msgs, AfterDuplicates(host, msgs, b))
    ensures BecomePlaceholders(msgs, AfterSuperseded(host, msgs, b))
    ensures BecomePlaceholders(msgs, AfterAge(host, msgs, b))
  {
    var m1, m2, m3 := AfterDuplicates(host, msgs, b), AfterSuperseded(host, msgs, b), AfterAge(host, msgs, b);
    forall i: nat | i < |msgs|
      ensures Duplicate(host, msgs, b, i) <==> msgs[i].role.Tool? && msgs[i] != m1[i]
      ensures Superseded(host, msgs, b, i) <==> msgs[i].role.Tool? && msgs[i] != m2[i]
      ensures Aged(msgs, b, i) <==> msgs[i].role.Tool? && msgs[i] != m3[i]
    {
    }
  }

  /** A result changes at most once on the way through the passes. */
  lemma ChangesAddUp(a: seq<Message>, b: seq<Message>, c: seq<Message>)
    requires InlineIsUntouched(a, b) && InlineIsUntouched(b, c)
    requires BecomePlaceholders(a, b) && BecomePlaceholders(b, c)
    ensures ChangedResults(a, c) == ChangedResults(a, b) + ChangedResults(b, c)
    ensures |ChangedResults(a, c)| == |ChangedResults(a, b)| + |ChangedResults(b, c)|
  {
    forall i: nat | i < |a| && a[i].role.Tool?
      ensures a[i] != c[i] <==> a[i] != b[i] || b[i] != c[i]
      ensures !(a[i] != b[i] && b[i] != c[i])
    {
      assert b[i].role == a[i].role && c[i].role == b[i].role;
    }
    assert ChangedResults(a, b) !! ChangedResults(b, c);
    assert ChangedResults(a, c) == ChangedResults(a, b) + ChangedResults(b, c);
  }

  /** The first three passes together change as many results as they pick. */
  lemma ResultPassesAddUp(host: Host, msgs: seq<Message>, b: nat)
    requires ToolsArePlain(msgs) && b == HotBoundary(msgs)
    ensures var m1 := AfterDuplicates(host, msgs, b);
            var m2 := AfterSuperseded(host, m1, b);
            |ChangedResults(msgs, AfterAge(host, m2, b))|
            == |Duplicates(host, msgs, b)| + |SupersededReads(host, m1, b)| + |AgedResults(m2, b)|
  {
    var m1 := AfterDuplicates(host, msgs, b);
    var m2 := AfterSuperseded(host, m1, b);
    PassesInOrder(host, msgs);
    EachPassChangesItsPick(host, msgs, b);
    EachPassChangesItsPick(host, m1, b);
    EachPassChangesItsPick(host, m2, b);
    ChangesAddUp(msgs, m1, m2);
    ChangesAddUp(msgs, m2, AfterAge(host, m2, b));
  }

  /** The last pass touches no result, and the first three no parts. */
  lemma PassesAreSeparate(host: Host, msgs: seq<Message>, b: nat)
    requires ToolsArePlain(msgs) && b == HotBoundary(msgs)
    ensures var m3 := AfterAge(host, AfterSuperseded(host, AfterDuplicates(host, msgs, b), b), b);
            && ChangedResults(msgs, Decayed(host, msgs)) == ChangedResults(msgs, m3)
            && forall i :: 0 <= i < |msgs| ==> msgs[i].parts == m3[i].parts
  {
    PassesInOrder(host, msgs);
    var m1 := AfterDuplicates(host, msgs, b);
    var m2 := AfterSuperseded(host, m1, b);
    var m3 := AfterAge(host, m2, b);
    forall i | 0 <= i < |msgs| ensures msgs[i].parts == m3[i].parts {
      assert m1[i] == DuplicateOne(host, msgs, b, i) && m2[i] == SupersededOne(host, m1, b, i) && m3[i] == AgedOne(host, m2, b, i);
    }
  }

  /** No result is rewritten twice: the count is the number of tool results that
      changed plus the number of images removed. */
  lemma CountIsExact(host: Host, msgs: seq<Message>)
    requires ToolsArePlain(msgs) && msgs != []
    ensures HotBoundary(msgs) <= |msgs|
    ensures RewriteCount(host, msgs) ==
            |ChangedResults(msgs, Decayed(host, msgs))| + ImagesBelow(msgs, HotBoundary(msgs))
  {
    var b := HotBoundary(msgs);
    BoundaryInRange(msgs, |msgs| - 1, DECAY_HOT_WINDOW);
    var m3 := AfterAge(host, AfterSuperseded(host, AfterDuplicates(host, msgs, b), b), b);
    PassesAreSeparate(host, msgs, b);
    SameImages(msgs, m3, b);
    ResultPassesAddUp(host, msgs, b);
  }

  lemma {:induction false} SameImages(a: seq<Message>, b: seq<Message>, n: nat)
    requires |a| == |b| && n <= |a|
    requires forall i :: 0 <= i < |a| ==> a[i].parts == b[i].parts
    ensures ImagesBelow(a, n) == ImagesBelow(b, n)
  {
    if n > 1 {
      SameImages(a, b, n - 1);
    }
  }

  // ----- What stays of a message whose images are stripped

  predicate StandsAt(text: string, piece: string, k: nat) {
    k <= |text| && piece <= text[k..]
  }

  ghost predicate Contains(text: string, piece: string) {
    exists k: nat :: StandsAt(text, piece, k)
  }

  lemma {:induction false} JoinedLinesContain(texts: seq<string>, piece: string)
    requires piece in texts
    ensures Contains(JoinLines(texts), piece)
    ensures piece == texts[0] ==> StandsAt(JoinLines(texts), piece, 0)
  {
    if piece == texts[0] {
      assert StandsAt(JoinLines(texts), piece, 0);
    } else {
      JoinedLinesContain(texts[1..], piece);
      var k: nat :| StandsAt(JoinLines(texts[1..]), piece, k);
      var front := texts[0] + "\n";
      assert JoinLines(texts) == front + JoinLines(texts[1..]);
      assert (front + JoinLines(texts[1..]))[|front| + k..] == JoinLines(texts[1..])[k..];
      assert StandsAt(JoinLines(texts), piece, |front| + k);
    }
  }

  lemma {:induction false} TextsAreKept(parts: seq<ContentPart>, content: string, i: nat)
    requires i < |parts| && parts[i].TextPart? && parts[i].text != "" && parts[i].text != content
    ensures parts[i].text in KeptTexts(parts, content)
  {
    if i < |parts| - 1 {
      TextsAreKept(parts[..|parts| - 1], content, i);
    }
  }

  lemma {:induction false} NotePerImage(host: Host, i: nat, count: nat)
    ensures |ImageNotes(host, i, count)| == count
    ensures forall n :: n in ImageNotes(host, i, count) ==> IsDecayed(n)
  {
    if count > 0 {
      NotePerImage(host, i, count - 1);
    }
  }

  /** Notes in place of images lose no text: the content still comes first, and
      every text part and every note is there. */
  lemma NotesKeepTexts(content: string, parts: seq<ContentPart>, notes: seq<string>)
    ensures var shown := WithNotes(content, parts, notes);
            && content <= shown
            && (forall j :: 0 <= j < |parts| && parts[j].TextPart? ==> Contains(shown, parts[j].text))
            && (forall n :: 0 <= n < |notes| ==> Contains(shown, notes[n]))
  {
    hide KeptTexts, JoinLines;
    var texts := (if content != "" then [content] else []) + KeptTexts(parts, content) + notes;
    if content != "" {
      JoinedLinesContain(texts, content);
    }
    assert StandsAt(JoinLines(texts), "", 0);
    forall j | 0 <= j < |parts| && parts[j].TextPart? ensures Contains(JoinLines(texts), parts[j].text) {
      if parts[j].text != "" {
        if parts[j].text != content {
          TextsAreKept(parts, content, j);
        }
        JoinedLinesContain(texts, parts[j].text);
      }
    }
    forall n | 0 <= n < |notes| ensures Contains(JoinLines(texts), notes[n]) {
      JoinedLinesContain(texts, notes[n]);
    }
  }

  /** Decay loses no text of a message that is no tool result: it is the same
      message, or it had images below the boundary and still reads its content
      first, every text part, and one placeholder per image. */
  lemma DecayKeepsTexts(host: Host, msgs: seq<Message>, i: nat)
    requires ToolsArePlain(msgs) && i < |msgs| && !msgs[i].role.Tool?
    ensures var was, now := msgs[i], Decayed(host, msgs)[i];
            var stripped := 0 < i < HotBoundary(msgs) && ImageCount(was.parts) > 0;
            && (!stripped ==> now == was)
            && (stripped ==>
                  var notes := ImageNotes(host, i, ImageCount(was.parts));
                  && now.parts == []
                  && was.content <= now.content
                  && (forall j :: 0 <= j < |was.parts| && was.parts[j].TextPart? ==> Contains(now.content, was.parts[j].text))
                  && |notes| == ImageCount(was.parts)
                  && (forall n :: 0 <= n < |notes| ==> IsDecayed(notes[n]) && Contains(now.content, notes[n])))
  {
    hide Decayed, HotBoundary, ImageCount, ImageNotes, WithNotes, Contains, IsDecayed;
    DecayFrame(host, msgs);
    assert DecayedOne(host, HotBoundary(msgs), i, msgs[i], Decayed(host, msgs)[i]);
    var notes := ImageNotes(host, i, ImageCount(msgs[i].parts));
    NotePerImage(host, i, ImageCount(msgs[i].parts));
    NotesKeepTexts(msgs[i].content, msgs[i].parts, notes);
  }
}
