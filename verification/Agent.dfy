/** The agent object: the same behaviour as the step functions, carried out by
    methods that update its fields. */
module Agent {
  import opened Transcript
  import opened Numerals
  import opened TailBoundary
  import opened Folding
  import opened Decay
  import opened DecayLaws
  import opened Turn
  import TurnBehaviour
  import TurnBounds

  // ----- Searches over a message list

  method HotBoundaryOf(msgs: seq<Message>) returns (boundary: nat)
    ensures boundary == HotBoundary(msgs)
    ensures msgs != [] ==> 1 <= boundary <= |msgs|
  {
    if msgs != [] {
      BoundaryInRange(msgs, |msgs| - 1, DECAY_HOT_WINDOW);
    }
    var budget := DECAY_HOT_WINDOW;
    var i := |msgs| - 1;
    while i > 0
      invariant msgs != [] ==> 0 <= i < |msgs| && HotBoundary(msgs) == BoundaryFrom(msgs, i, budget)
    {
      var t := MsgTokens(msgs[i]);
      if t > budget {
        return i;
      }
      budget := budget - t;
      i := i - 1;
    }
    return 1;
  }

  /** The call that the tool result at `i` answers: it is among the calls of the
      nearest assistant message before it, or nowhere. */
  method FindCallOf(msgs: seq<Message>, i: nat) returns (call: Option<ToolCall>)
    requires i < |msgs|
    ensures call == CallOf(msgs, i)
  {
    var id := msgs[i].toolCallID;
    if id == "" {
      return None;
    }
    var j := i - 1;
    while j >= 0
      invariant -1 <= j < i
      invariant OwnerBefore(msgs, i) == OwnerBefore(msgs, j + 1)
    {
      if msgs[j].role.Assistant? {
        var calls := msgs[j].toolCalls;
        var k := 0;
        while k < |calls|
          invariant 0 <= k <= |calls|
          invariant FindCall(calls, id) == FindCall(calls[k..], id)
        {
          if calls[k].id == id {
            return Some(calls[k]);
          }
          k := k + 1;
        }
        return None;
      }
      j := j - 1;
    }
    return None;
  }

  method ReadPathFromCall(host: Host, msgs: seq<Message>, i: nat) returns (path: string)
    requires i < |msgs|
    ensures path == PathOf(host, msgs, i)
  {
    var call := FindCallOf(msgs, i);
    path := if call.Some? then host.pathArgument(call.value.arguments) else "";
  }

  method CallArguments(msgs: seq<Message>, i: nat) returns (args: string)
    requires i < |msgs|
    ensures args == CallArgs(msgs, i)
  {
    var call := FindCallOf(msgs, i);
    args := if call.Some? then call.value.arguments else "";
  }

  method RawCompactionCutoff(before: seq<Message>, cutoff: int) returns (sequence: int)
    ensures sequence == RawCutoff(before, Min(Max(cutoff, 0), |before|))
  {
    sequence := 0;
    var n := Min(Max(cutoff, 0), |before|);
    for i := 0 to n
      invariant sequence == RawCutoff(before, i)
    {
      sequence := Max(sequence, before[i].rawSequence);
    }
  }

  method StripImageParts(host: Host, i: nat, m: Message) returns (r: Message, stripped: nat)
    ensures r == Stripped(host, i, m)
    ensures stripped == ImageCount(m.parts)
  {
    stripped := 0;
    var texts, notes: seq<string> := [], [];
    for k := 0 to |m.parts|
      invariant stripped == ImageCount(m.parts[..k])
      invariant notes == ImageNotes(host, i, stripped)
      invariant texts == KeptTexts(m.parts[..k], m.content)
    {
      assert m.parts[..k + 1][..k] == m.parts[..k];
      var p := m.parts[k];
      match p {
        case ImagePart(_, _) =>
          notes := notes + [Placeholder(host.image(i, stripped))];
          stripped := stripped + 1;
        case TextPart(text) =>
          if text != "" && text != m.content {
            texts := texts + [text];
          }
        case OtherPart(_) =>
      }
    }
    assert m.parts[..|m.parts|] == m.parts;
    if stripped == 0 {
      return m, 0;
    }
    r := m.(content := JoinLines((if m.content != "" then [m.content] else []) + texts + notes), parts := []);
  }

  /** `seen` names, for every region read before `i`, a copy with the bytes of the
      latest read of that region. */
  ghost predicate SeenAgrees(host: Host, was: seq<Message>, now: seq<Message>, seen: map<ReadKey, nat>, i: nat)
    requires |was| == |now| && i <= |was|
  {
    && (forall key :: key in seen <==> LastRead(host, was, key, i).Some?)
    && (forall key :: key in seen ==> seen[key] < i && now[seen[key]].content == was[LastRead(host, was, key, i).value].content)
  }

  /** Below `i` the duplicates have been replaced and counted. */
  ghost predicate CollapsedUpTo(host: Host, was: seq<Message>, now: seq<Message>, boundary: nat, i: nat, count: nat) {
    && |now| == |was| && i <= |was|
    && (forall j :: 0 <= j < i ==> now[j] == DuplicateOne(host, was, boundary, j))
    && (forall j :: i <= j < |was| ==> now[j] == was[j])
    && count == |DuplicatesBelow(host, was, boundary, i)|
  }

  ghost function DuplicatesBelow(host: Host, was: seq<Message>, boundary: nat, i: nat): set<nat> {
    set j: nat | j < i && j < |was| && Duplicate(host, was, boundary, j)
  }

  lemma NothingSeen(host: Host, was: seq<Message>, boundary: nat)
    ensures SeenAgrees(host, was, was, map[], 0)
    ensures CollapsedUpTo(host, was, was, boundary, 0, 0)
  {
    assert DuplicatesBelow(host, was, boundary, 0) == {};
  }

  lemma AllCollapsed(host: Host, was: seq<Message>, now: seq<Message>, boundary: nat, count: nat)
    requires CollapsedUpTo(host, was, now, boundary, boundary, count)
    ensures now == AfterDuplicates(host, was, boundary)
    ensures count == |Duplicates(host, was, boundary)|
  {
    hide LiveRead, LastRead;
    assert Duplicates(host, was, boundary) == DuplicatesBelow(host, was, boundary, boundary);
    forall j | boundary <= j < |was| ensures DuplicateOne(host, was, boundary, j) == was[j] { }
    assert now == AfterDuplicates(host, was, boundary);
  }

  lemma CountNext(host: Host, was: seq<Message>, boundary: nat, i: nat)
    requires i < |was|
    ensures |DuplicatesBelow(host, was, boundary, i + 1)|
            == |DuplicatesBelow(host, was, boundary, i)| + if Duplicate(host, was, boundary, i) then 1 else 0
  {
    hide Duplicate;
    assert DuplicatesBelow(host, was, boundary, i + 1)
        == DuplicatesBelow(host, was, boundary, i) + (if Duplicate(host, was, boundary, i) then {i} else {});
  }

  lemma CollapseNext(host: Host, was: seq<Message>, now: seq<Message>, boundary: nat, i: nat, count: nat)
    requires i < |was| && CollapsedUpTo(host, was, now, boundary, i, count)
    ensures if Duplicate(host, was, boundary, i)
            then CollapsedUpTo(host, was, now[i := DuplicateOne(host, was, boundary, i)], boundary, i + 1, count + 1)
            else CollapsedUpTo(host, was, now, boundary, i + 1, count)
  {
    hide Duplicate, DuplicatesBelow;
    CountNext(host, was, boundary, i);
  }

  /** What the loop does next is what the pass asks for, and keeps the books. */
  lemma ReadAt(host: Host, was: seq<Message>, now: seq<Message>, boundary: nat, i: nat, count: nat, seen: map<ReadKey, nat>, key: ReadKey)
    requires i < boundary && i < |was| && CollapsedUpTo(host, was, now, boundary, i, count)
    requires SeenAgrees(host, was, now, seen, i)
    requires key == (PathOf(host, now, i), CallArgs(now, i))
    ensures |now| == |was|
    ensures key in seen ==> seen[key] < |now|
    ensures if !IsTool(now[i], "read") || IsDecayed(now[i].content) || key.0 == "" then
              SeenAgrees(host, was, now, seen, i + 1) && CollapsedUpTo(host, was, now, boundary, i + 1, count)
            else if key in seen && now[seen[key]].content == now[i].content then
              var next := now[i := now[i].(content := DuplicateNotice(key.0))];
              SeenAgrees(host, was, next, seen, i + 1) && CollapsedUpTo(host, was, next, boundary, i + 1, count + 1)
            else
              SeenAgrees(host, was, now, seen[key := i], i + 1) && CollapsedUpTo(host, was, now, boundary, i + 1, count)
  {
    hide SeenAgrees, PathOf, CallArgs, IsDecayed, LastRead, SameFrame, DuplicateNotice, DuplicatesBelow;
    SameFrameSoFar(host, was, now, boundary, i);
    SameLookups(host, host, was, now, i);
    CollapseNext(host, was, now, boundary, i, count);
    SeenInRange(host, was, now, seen, i);
    if LiveRead(host, was, i) {
      SeenMeaning(host, was, now, seen, i);
      if key in seen && now[seen[key]].content == now[i].content {
        DuplicateSeen(host, was, now, seen, i, now[i].(content := DuplicateNotice(key.0)));
      } else {
        NewReadSeen(host, was, now, seen, i);
      }
    } else {
      NothingNewSeen(host, was, now, seen, i);
    }
  }

  lemma SeenInRange(host: Host, was: seq<Message>, now: seq<Message>, seen: map<ReadKey, nat>, i: nat)
    requires |was| == |now| && i <= |was| && SeenAgrees(host, was, now, seen, i)
    ensures forall key :: key in seen ==> seen[key] < |now|
  {
    hide LastRead;
  }

  lemma LastReadStep(host: Host, msgs: seq<Message>, key: ReadKey, i: nat)
    requires i < |msgs|
    ensures LastRead(host, msgs, key, i + 1)
            == if LiveRead(host, msgs, i) && KeyOf(host, msgs, i) == key then Some(i) else LastRead(host, msgs, key, i)
  {
  }

  lemma NothingNewSeen(host: Host, was: seq<Message>, now: seq<Message>, seen: map<ReadKey, nat>, i: nat)
    requires |was| == |now| && i < |was| && SeenAgrees(host, was, now, seen, i)
    requires !LiveRead(host, was, i)
    ensures SeenAgrees(host, was, now, seen, i + 1)
  {
    hide LastRead, LiveRead, KeyOf;
    forall key ensures LastRead(host, was, key, i + 1) == LastRead(host, was, key, i) {
      LastReadStep(host, was, key, i);
    }
  }

  lemma NewReadSeen(host: Host, was: seq<Message>, now: seq<Message>, seen: map<ReadKey, nat>, i: nat)
    requires |was| == |now| && i < |was| && SeenAgrees(host, was, now, seen, i)
    requires LiveRead(host, was, i) && now[i].content == was[i].content
    ensures SeenAgrees(host, was, now, seen[KeyOf(host, was, i) := i], i + 1)
  {
    hide LastRead, LiveRead, KeyOf;
    forall key ensures LastRead(host, was, key, i + 1) == if key == KeyOf(host, was, i) then Some(i) else LastRead(host, was, key, i) {
      LastReadStep(host, was, key, i);
    }
  }

  lemma DuplicateSeen(host: Host, was: seq<Message>, now: seq<Message>, seen: map<ReadKey, nat>, i: nat, m: Message)
    requires |was| == |now| && i < |was| && SeenAgrees(host, was, now, seen, i)
    requires LiveRead(host, was, i) && KeyOf(host, was, i) in seen
    requires now[seen[KeyOf(host, was, i)]].content == was[i].content
    ensures SeenAgrees(host, was, now[i := m], seen, i + 1)
  {
    hide LastRead, LiveRead, KeyOf;
    forall key ensures LastRead(host, was, key, i + 1) == if key == KeyOf(host, was, i) then Some(i) else LastRead(host, was, key, i) {
      LastReadStep(host, was, key, i);
    }
  }

  /** A live read is a duplicate exactly when the copy seen has its bytes. */
  lemma SeenMeaning(host: Host, was: seq<Message>, now: seq<Message>, seen: map<ReadKey, nat>, i: nat)
    requires |was| == |now| && i < |was| && SeenAgrees(host, was, now, seen, i)
    requires LiveRead(host, was, i)
    ensures var key := KeyOf(host, was, i);
            && (key in seen ==> seen[key] < |now|)
            && forall boundary :: i < boundary ==>
                 (Duplicate(host, was, boundary, i) <==> key in seen && now[seen[key]].content == was[i].content)
  {
    hide LastRead, LiveRead, KeyOf;
  }

  // ----- The backward walk over the evidence

  /** `latest` holds, for every path, its newest evidence if that stands above `i`. */
  ghost predicate LatestAgrees(host: Host, msgs: seq<Message>, latest: map<string, Sighting>, i: nat) {
    && (forall path :: path in latest <==> NewestSighting(host, msgs, path, |msgs|) > i)
    && (forall path :: path in latest ==> latest[path] == SightingAt(msgs, NewestSighting(host, msgs, path, |msgs|)))
  }

  /** `inline` lists every live read above `i` with its path, newest first. */
  ghost predicate InlineListed(host: Host, msgs: seq<Message>, inline: seq<(nat, string)>, i: nat) {
    && (forall k :: 0 <= k < |inline| ==>
          i < inline[k].0 < |msgs| && LiveRead(host, msgs, inline[k].0) && inline[k].1 == PathOf(host, msgs, inline[k].0))
    && (forall k, l :: 0 <= k < l < |inline| ==> inline[k].0 > inline[l].0)
    && (forall j :: i < j < |msgs| && LiveRead(host, msgs, j) ==> exists k :: 0 <= k < |inline| && inline[k].0 == j)
  }

  lemma NothingCollected(host: Host, msgs: seq<Message>)
    ensures LatestAgrees(host, msgs, map[], Max(|msgs| - 1, 0))
    ensures InlineListed(host, msgs, [], Max(|msgs| - 1, 0))
  {
    hide LiveRead;
  }

  lemma NoteSighting(host: Host, msgs: seq<Message>, latest: map<string, Sighting>, i: nat, path: string)
    requires 0 < i < |msgs| && LatestAgrees(host, msgs, latest, i)
    requires path !in latest && Sights(host, msgs, i, path)
    ensures LatestAgrees(host, msgs, latest[path := SightingAt(msgs, i)], i - 1)
  {
    hide NewestSighting, IsDecayed, PathOf;
  }

  lemma SkipSighting(host: Host, msgs: seq<Message>, latest: map<string, Sighting>, i: nat)
    requires 0 < i < |msgs| && LatestAgrees(host, msgs, latest, i)
    requires forall path :: Sights(host, msgs, i, path) ==> path in latest
    ensures LatestAgrees(host, msgs, latest, i - 1)
  {
    hide NewestSighting, Sights, SightingAt;
  }

  lemma ListRead(host: Host, msgs: seq<Message>, inline: seq<(nat, string)>, i: nat)
    requires 0 < i < |msgs| && InlineListed(host, msgs, inline, i) && LiveRead(host, msgs, i)
    ensures InlineListed(host, msgs, inline + [(i, PathOf(host, msgs, i))], i - 1)
  {
    hide LiveRead, PathOf;
    var more := inline + [(i, PathOf(host, msgs, i))];
    forall j | i - 1 < j < |msgs| && LiveRead(host, msgs, j) ensures exists k :: 0 <= k < |more| && more[k].0 == j {
      if j == i {
        assert more[|inline|].0 == i;
      } else {
        var k :| 0 <= k < |inline| && inline[k].0 == j;
        assert more[k].0 == j;
      }
    }
  }

  lemma SkipRead(host: Host, msgs: seq<Message>, inline: seq<(nat, string)>, i: nat)
    requires 0 < i < |msgs| && InlineListed(host, msgs, inline, i) && !LiveRead(host, msgs, i)
    ensures InlineListed(host, msgs, inline, i - 1)
  {
    hide LiveRead, PathOf;
  }

  /** The lowest index the first `k` entries of the list have reached. */
  ghost function Reached(msgs: seq<Message>, inline: seq<(nat, string)>, k: nat): nat
    requires k <= |inline|
  {
    if k == 0 then |msgs| else inline[k - 1].0
  }

  /** Between two entries there is no live read, and each entry has its sighting. */
  lemma NextInline(host: Host, msgs: seq<Message>, latest: map<string, Sighting>, inline: seq<(nat, string)>, k: nat)
    requires LatestAgrees(host, msgs, latest, 0) && InlineListed(host, msgs, inline, 0) && k < |inline|
    ensures 0 < inline[k].0 < Reached(msgs, inline, k) && Reached(msgs, inline, k) <= |msgs|
    ensures LiveRead(host, msgs, inline[k].0) && inline[k].1 == PathOf(host, msgs, inline[k].0)
    ensures forall j :: inline[k].0 < j < Reached(msgs, inline, k) ==> !LiveRead(host, msgs, j)
    ensures inline[k].1 in latest
    ensures var newest := NewestSighting(host, msgs, inline[k].1, |msgs|);
            0 < newest < |msgs| && latest[inline[k].1] == SightingAt(msgs, newest)
  {
    hide NewestSighting, PathOf, IsDecayed, SightingAt;
    assert Sights(host, msgs, inline[k].0, inline[k].1);
  }

  lemma NoMoreInline(host: Host, msgs: seq<Message>, inline: seq<(nat, string)>)
    requires InlineListed(host, msgs, inline, 0)
    ensures forall j :: 0 < j < Reached(msgs, inline, |inline|) && j < |msgs| ==> !LiveRead(host, msgs, j)
  {
    hide LiveRead;
  }

  /** From `low` on the superseded reads have been replaced and counted. */
  ghost predicate SupersededFrom(host: Host, was: seq<Message>, now: seq<Message>, boundary: nat, low: nat, count: nat) {
    && |now| == |was| && low <= |was|
    && (forall j :: 0 <= j < |was| ==> now[j] == if j >= low then SupersededOne(host, was, boundary, j) else was[j])
    && count == |SupersededAbove(host, was, boundary, low)|
  }

  ghost function SupersededAbove(host: Host, was: seq<Message>, boundary: nat, low: nat): set<nat> {
    set j: nat | low <= j < |was| && Superseded(host, was, boundary, j)
  }

  lemma StartSuperseding(host: Host, was: seq<Message>, boundary: nat, inline: seq<(nat, string)>)
    ensures SupersededFrom(host, was, was, boundary, Reached(was, inline, 0), 0)
  {
    hide Superseded;
    assert SupersededAbove(host, was, boundary, |was|) == {};
  }

  lemma ReachedNext(was: seq<Message>, inline: seq<(nat, string)>, k: nat)
    requires k < |inline|
    ensures Reached(was, inline, k + 1) == inline[k].0
  {
  }

  /** The next live read down is superseded exactly when it is not its own newest
      evidence; nothing in between is. */
  lemma SupersedeNext(host: Host, was: seq<Message>, now: seq<Message>, boundary: nat, low: nat, count: nat, i: nat, s: Sighting)
    requires SupersededFrom(host, was, now, boundary, low, count)
    requires 0 < i < low && LiveRead(host, was, i)
    requires forall j :: i < j < low ==> !LiveRead(host, was, j)
    requires var newest := NewestSighting(host, was, PathOf(host, was, i), |was|);
             0 < newest < |was| && s == SightingAt(was, newest)
    ensures |now| == |was| && i < |now|
    ensures if s.idx != i && i < boundary then
              SupersededFrom(host, was, now[i := now[i].(content := SupersededNotice(PathOf(host, was, i), s))], boundary, i, count + 1)
            else SupersededFrom(host, was, now, boundary, i, count)
  {
    hide LiveRead, NewestSighting, PathOf, SupersededNotice, LineCount, SupersededAbove;
    forall j | i < j < low ensures !Superseded(host, was, boundary, j) && SupersededOne(host, was, boundary, j) == was[j] {
    }
    assert now[i] == was[i];
    assert Superseded(host, was, boundary, i) <==> s.idx != i && i < boundary;
    CountSuperseded(host, was, boundary, low, i);
  }

  lemma CountSuperseded(host: Host, was: seq<Message>, boundary: nat, low: nat, i: nat)
    requires i < low <= |was| && forall j :: i < j < low ==> !Superseded(host, was, boundary, j)
    ensures |SupersededAbove(host, was, boundary, i)|
            == |SupersededAbove(host, was, boundary, low)| + if Superseded(host, was, boundary, i) then 1 else 0
  {
    hide Superseded;
    assert SupersededAbove(host, was, boundary, i)
        == SupersededAbove(host, was, boundary, low) + (if Superseded(host, was, boundary, i) then {i} else {});
  }

  lemma AllSuperseded(host: Host, was: seq<Message>, now: seq<Message>, boundary: nat, low: nat, count: nat)
    requires SupersededFrom(host, was, now, boundary, low, count)
    requires forall j :: 0 < j < low && j < |was| ==> !LiveRead(host, was, j)
    ensures now == AfterSuperseded(host, was, boundary)
    ensures count == |SupersededReads(host, was, boundary)|
  {
    hide LiveRead, NewestSighting, PathOf, SupersededNotice;
    forall j | 0 <= j < low ensures !Superseded(host, was, boundary, j) && SupersededOne(host, was, boundary, j) == was[j] {
    }
    assert SupersededReads(host, was, boundary) == SupersededAbove(host, was, boundary, low);
    assert now == AfterSuperseded(host, was, boundary);
  }

  // ----- The backward walk of age decay

  ghost function AgedAbove(was: seq<Message>, boundary: nat, low: nat): set<nat> {
    set j: nat | low <= j < |was| && Aged(was, boundary, j)
  }

  /** From `low` on the big old results have been replaced and counted, and `turns`
      authored messages have been passed. */
  ghost predicate AgedFrom(host: Host, was: seq<Message>, now: seq<Message>, boundary: nat, low: nat, turns: nat, count: nat) {
    && |now| == |was| && low <= |was|
    && turns == AuthoredFrom(was, low)
    && (forall j :: 0 <= j < |was| ==> now[j] == if j >= low then AgedOne(host, was, boundary, j) else was[j])
    && count == |AgedAbove(was, boundary, low)|
  }

  lemma StartAging(host: Host, was: seq<Message>, boundary: nat)
    ensures AgedFrom(host, was, was, boundary, |was|, 0, 0)
  {
    assert AgedAbove(was, boundary, |was|) == {};
  }

  lemma AgeNext(host: Host, was: seq<Message>, now: seq<Message>, boundary: nat, i: nat, turns: nat, count: nat)
    requires AgedFrom(host, was, now, boundary, i + 1, turns, count)
    ensures i < |now| == |was|
    ensures var m := now[i];
            var passed := if m.role.User? && m.authored then turns + 1 else turns;
            if i < boundary && m.role.Tool? && |m.content| > DECAY_MIN_BYTES && !IsDecayed(m.content) then
              AgedFrom(host, was, now[i := m.(content := Placeholder(host.aged(i, passed)))], boundary, i, passed, count + 1)
            else AgedFrom(host, was, now, boundary, i, passed, count)
  {
    hide IsDecayed, AgedAbove;
    assert now[i] == was[i];
    CountAged(was, boundary, i);
  }

  lemma CountAged(was: seq<Message>, boundary: nat, i: nat)
    requires i < |was|
    ensures |AgedAbove(was, boundary, i)| == |AgedAbove(was, boundary, i + 1)| + if Aged(was, boundary, i) then 1 else 0
  {
    hide Aged;
    assert AgedAbove(was, boundary, i) == AgedAbove(was, boundary, i + 1) + if Aged(was, boundary, i) then {i} else {};
  }

  lemma AllAged(host: Host, was: seq<Message>, now: seq<Message>, boundary: nat, turns: nat, count: nat)
    requires AgedFrom(host, was, now, boundary, 0, turns, count)
    ensures now == AfterAge(host, was, boundary)
    ensures count == |AgedResults(was, boundary)|
  {
    hide Aged;
    assert AgedAbove(was, boundary, 0) == AgedResults(was, boundary);
    assert now == AfterAge(host, was, boundary);
  }

  lemma SameFrameSoFar(host: Host, was: seq<Message>, now: seq<Message>, boundary: nat, i: nat)
    requires |was| == |now| && i <= |was|
    requires forall j :: 0 <= j < i ==> now[j] == DuplicateOne(host, was, boundary, j)
    requires forall j :: i <= j < |was| ==> now[j] == was[j]
    ensures SameFrame(was, now)
  {
    hide Duplicate;
  }

  // ----- Tools

  /** Lay the reports of the workers out in call order, in whatever order they
      come in. */
  method RunTools(calls: seq<ToolCall>, finished: seq<Completion>) returns (results: array<string>, measured: array<ToolCall>)
    requires forall c :: c in finished ==> c.index < |calls|
    ensures fresh(results) && fresh(measured) && results.Length == measured.Length == |calls|
    ensures forall i :: 0 <= i < |calls| ==> results[i] == OutputOf(finished, i)
    ensures measured[..] == MeasuredCalls(calls, finished)
    ensures forall i: nat, k: nat :: i < |calls| && TurnBehaviour.LastReport(finished, k, i) ==> results[i] == finished[k].output
    ensures forall i: nat :: i < |calls| && !TurnBehaviour.Reported(finished, i) ==> results[i] == ""
  {
    results := new string[|calls|](i => "");
    measured := new ToolCall[|calls|](i requires 0 <= i < |calls| => calls[i]);
    for k := 0 to |finished|
      invariant forall i :: 0 <= i < |calls| ==> results[i] == OutputOf(finished[..k], i)
      invariant forall i :: 0 <= i < |calls| ==> measured[i] == Measured(calls[i], finished[..k], i)
    {
      assert finished[..k + 1][..k] == finished[..k];
      var oc := finished[k];
      assert oc in finished;
      results[oc.index] := oc.output;
      measured[oc.index] := measured[oc.index].(durationMs := oc.ms, exitCode := ToolExitCode(oc.output));
    }
    assert finished[..|finished|] == finished;
    forall i: nat { TurnBehaviour.ReportOfIsLast(finished, i); }
  }

  lemma TailStartInRange(msgs: seq<Message>, budget: int)
    requires msgs != []
    ensures 1 <= TailStart(msgs, budget).0 <= |msgs|
  {
    TailStartIsBoundary(msgs, budget);
  }

  // ----- The object

  class Agent {
    const cfg: Config
    var messages: seq<Message>
    var pending: seq<Steer>
    var lastPrompt: int
    var compacted: bool
    var compactStalled: bool
    var retriedOverflow: bool
    var running: bool
    var log: seq<Message> // what the message recorder keeps
    ghost var trace: seq<Event>

    ghost function Snapshot(): State
      reads this
    {
      State(messages, pending, lastPrompt, compacted, compactStalled, retriedOverflow, running, log, trace)
    }

    constructor (cfg: Config, systemPrompt: string)
      ensures this.cfg == cfg && Snapshot() == Fresh(systemPrompt)
      ensures messages == [Message(System, systemPrompt, [], [], "", "", false, 0, 0)] && log == [] && trace == [] && pending == []
      ensures lastPrompt == 0 && !compacted && !compactStalled && !retriedOverflow && !running
    {
      this.cfg := cfg;
      messages, pending, lastPrompt := [Plain(System, systemPrompt)], [], 0;
      compacted, compactStalled, retriedOverflow, running := false, false, false, false;
      log, trace := [], [];
    }

    // ----- Recording

    /** The recorder: keeps the row and returns its sequence number. */
    method OnMessage(row: Message) returns (sequence: int)
      modifies this`log
      ensures sequence == cfg.number(|old(log)|)
      ensures log == old(log) + [row.(rawSequence := sequence)]
    {
      sequence := cfg.number(|log|);
      log := log + [row.(rawSequence := sequence)];
    }

    method AppendTurnMessages(msgs: seq<Message>)
      modifies this`messages, this`log
      ensures Snapshot() == AppendAll(cfg, old(Snapshot()), msgs)
    {
      for k := 0 to |msgs|
        invariant messages == old(messages) + Numbered(cfg, |old(log)|, msgs)[..k]
        invariant log == old(log) + Numbered(cfg, |old(log)|, msgs)[..k]
      {
        var sequence := OnMessage(msgs[k]);
        messages := messages + [msgs[k].(rawSequence := sequence)];
      }
    }

    // ----- Decay

    method CollapseDuplicates(host: Host, boundary: nat) returns (rewritten: nat)
      requires boundary <= |messages|
      modifies this`messages
      ensures messages == AfterDuplicates(host, old(messages), boundary)
      ensures rewritten == |Duplicates(host, old(messages), boundary)|
    {
      hide *;
      ghost var was := messages;
      rewritten := 0;
      var seen: map<ReadKey, nat> := map[];
      NothingSeen(host, was, boundary);
      for i := 0 to boundary
        invariant |messages| == |was|
        invariant CollapsedUpTo(host, was, messages, boundary, i, rewritten)
        invariant SeenAgrees(host, was, messages, seen, i)
      {
        var path := ReadPathFromCall(host, messages, i);
        var args := CallArguments(messages, i);
        var key := (path, args);
        ReadAt(host, was, messages, boundary, i, rewritten, seen, key);
        if !IsTool(messages[i], "read") || IsDecayed(messages[i].content) || path == "" {
          continue;
        }
        if key in seen && messages[seen[key]].content == messages[i].content {
          messages := messages[i := messages[i].(content := DuplicateNotice(path))];
          rewritten := rewritten + 1;
        } else {
          seen := seen[key := i];
        }
      }
      AllCollapsed(host, was, messages, boundary, rewritten);
    }

    /** Walk newest to oldest: per path the newest evidence, and every inline read. */
    method CollectSightings(host: Host) returns (latest: map<string, Sighting>, inline: seq<(nat, string)>)
      ensures LatestAgrees(host, messages, latest, 0)
      ensures InlineListed(host, messages, inline, 0)
    {
      hide NewestSighting, PathOf, IsDecayed, LineCount, LatestAgrees, InlineListed;
      latest, inline := map[], [];
      NothingCollected(host, messages);
      var i := |messages| - 1;
      while i > 0
        invariant messages != [] ==> 0 <= i < |messages|
        invariant LatestAgrees(host, messages, latest, Max(i, 0))
        invariant InlineListed(host, messages, inline, Max(i, 0))
      {
        var m := messages[i];
        var p := ReadPathFromCall(host, messages, i);
        if IsTool(m, "read") && p != "" && !IsDecayed(m.content) {
          ListRead(host, messages, inline, i);
          inline := inline + [(i, p)];
        } else {
          SkipRead(host, messages, inline, i);
        }
        if m.role.Tool? && p != "" && ((m.name == "read" && !IsDecayed(m.content)) || m.name == "write" || m.name == "edit") && p !in latest {
          NoteSighting(host, messages, latest, i, p);
          latest := latest[p := if m.name == "read" then Sighting(i, false, LineCount(m.content)) else Sighting(i, true, 0)];
        } else {
          SkipSighting(host, messages, latest, i);
        }
        i := i - 1;
      }
    }

    method CollapseSuperseded(host: Host, boundary: nat) returns (rewritten: nat)
      requires boundary <= |messages|
      modifies this`messages
      ensures messages == AfterSuperseded(host, old(messages), boundary)
      ensures rewritten == |SupersededReads(host, old(messages), boundary)|
    {
      hide *;
      ghost var was := messages;
      rewritten := 0;
      var latest, inline := CollectSightings(host);
      StartSuperseding(host, was, boundary, inline);
      for k := 0 to |inline|
        invariant SupersededFrom(host, was, messages, boundary, Reached(was, inline, k), rewritten)
      {
        NextInline(host, was, latest, inline, k);
        var r := inline[k];
        var s := latest[r.1];
        SupersedeNext(host, was, messages, boundary, Reached(was, inline, k), rewritten, r.0, s);
        ReachedNext(was, inline, k);
        if s.idx != r.0 && r.0 < boundary {
          messages := messages[r.0 := messages[r.0].(content := SupersededNotice(r.1, s))];
          rewritten := rewritten + 1;
        }
      }
      NoMoreInline(host, was, inline);
      AllSuperseded(host, was, messages, boundary, Reached(was, inline, |inline|), rewritten);
    }

    method DecayByAge(host: Host, boundary: nat) returns (rewritten: nat)
      requires boundary <= |messages|
      modifies this`messages
      ensures messages == AfterAge(host, old(messages), boundary)
      ensures rewritten == |AgedResults(old(messages), boundary)|
    {
      hide *;
      ghost var was := messages;
      rewritten := 0;
      var turns: nat := 0;
      var i := |messages| - 1;
      StartAging(host, was, boundary);
      while i >= 0
        invariant -1 <= i < |was| == |messages|
        invariant AgedFrom(host, was, messages, boundary, i + 1, turns, rewritten)
      {
        AgeNext(host, was, messages, boundary, i, turns, rewritten);
        var m := messages[i];
        if m.role.User? && m.authored {
          turns := turns + 1;
        }
        if i < boundary && m.role.Tool? && |m.content| > DECAY_MIN_BYTES && !IsDecayed(m.content) {
          messages := messages[i := m.(content := Placeholder(host.aged(i, turns)))];
          rewritten := rewritten + 1;
        }
        i := i - 1;
      }
      AllAged(host, was, messages, boundary, turns, rewritten);
    }

    method StripImages(host: Host, boundary: nat) returns (stripped: nat)
      requires boundary <= |messages|
      modifies this`messages
      ensures messages == AfterImages(host, old(messages), boundary)
      ensures stripped == ImagesBelow(old(messages), boundary)
    {
      ghost var was := messages;
      stripped := 0;
      var i := boundary - 1;
      while i > 0
        invariant |messages| == |was|
        invariant boundary == 0 ==> stripped == 0
        invariant boundary > 0 ==> 0 <= i < boundary && stripped + ImagesBelow(was, i + 1) == ImagesBelow(was, boundary)
        invariant forall j :: 0 <= j < |was| ==> messages[j] == if i < j < boundary && 0 < j then Stripped(host, j, was[j]) else was[j]
      {
        var m, n := StripImageParts(host, i, messages[i]);
        messages := messages[i := m];
        stripped := stripped + n;
        i := i - 1;
      }
      if boundary > 0 {
        assert ImagesBelow(was, 1) == 0;
      }
      assert messages == AfterImages(host, was, boundary);
    }

    method Decay(host: Host) returns (rewritten: nat)
      requires messages != []
      modifies this`messages
      ensures messages == Decayed(host, old(messages))
      ensures rewritten == RewriteCount(host, old(messages))
    {
      var boundary := HotBoundaryOf(messages);
      var duplicates := CollapseDuplicates(host, boundary);
      var superseded := CollapseSuperseded(host, boundary);
      var aged := DecayByAge(host, boundary);
      var images := StripImages(host, boundary);
      rewritten := duplicates + superseded + aged + images;
    }

    // ----- Folding

    /** Where the fold would cut, and what it would hand to the summarizer. */
    method PlanCompaction() returns (plan: Option<FoldPlan>)
      ensures plan == PlanFold(messages, Budget(cfg))
    {
      hide TailStart, IsTailBoundary, Budget;
      if |messages| <= 3 {
        return None;
      }
      TailStartInRange(messages, Budget(cfg));
      var tailStart, split := CompactTailStart(messages, Budget(cfg));
      if tailStart <= 1 {
        tailStart := 2;
      }
      ghost var clamped := tailStart;
      while tailStart > 1 && |messages| - tailStart > 4 && messages[tailStart].role.Tool?
        invariant 1 <= tailStart <= |messages|
        invariant WalkBack(messages, clamped) == WalkBack(messages, tailStart)
      {
        tailStart := tailStart - 1;
      }
      var history := messages[1..tailStart];
      var prior := "";
      if |history| > 0 && IsSummary(history[0]) {
        prior := history[0].content[|SUMMARY_PREFIX|..];
        history := history[1..];
      }
      var pinned: seq<Message> := [];
      if split {
        var i := tailStart - 1;
        while i > 0 && !messages[i].role.User?
          invariant 0 <= i < tailStart
          invariant UserBefore(messages, tailStart) == UserBefore(messages, i + 1)
        {
          i := i - 1;
        }
        if i > 0 {
          pinned := [messages[i]];
        }
      }
      if |history| - |pinned| <= 0 {
        return None;
      }
      return Some(FoldPlan(tailStart, split, prior, history, pinned));
    }

    method CompactWithStart(kind: FoldKind, outcome: SummaryOutcome) returns (status: FoldStatus)
      modifies this`messages, this`lastPrompt, this`trace
      ensures (Snapshot(), status) == Compact(cfg, old(Snapshot()), kind, outcome)
    {
      hide PlanFold, Budget, RawCutoff, TrimSpace;
      var planned := PlanCompaction();
      if planned.None? {
        return NoHistory;
      }
      var plan := planned.value;
      match outcome {
        case SummaryFailed =>
          return FoldFailed;
        case SummaryText(text, unsettled) =>
          var summary := TrimSpace(text);
          var cutoff := RawCompactionCutoff(messages, plan.tailStart);
          messages := [messages[0], SummaryMessage(summary, cutoff)] + plan.pinned + messages[plan.tailStart..];
          lastPrompt := 0;
          trace := trace + [Summarized(kind, plan.prior, summary)];
          return if unsettled then FoldUnsettled else FoldDone;
      }
    }

    method MaybeCompact(kind: FoldKind, outcome: SummaryOutcome) returns (error: Option<Reason>)
      modifies this`messages, this`lastPrompt, this`trace, this`compacted, this`compactStalled
      ensures (Snapshot(), error) == Turn.MaybeCompact(cfg, old(Snapshot()), kind, outcome)
    {
      hide PlanFold, EstimateTokens, FoldLimit, TrimSpace, Budget;
      if cfg.contextLimit == 0 || compactStalled {
        return None;
      }
      var limit := FoldLimit(cfg);
      if lastPrompt > 0 {
        if lastPrompt < limit {
          return None;
        }
      } else if EstimateTokens(messages) < limit {
        return None;
      }
      var status := CompactWithStart(kind, outcome);
      if status.NoHistory? {
        return None;
      }
      if status.FoldFailed? {
        return Some(SummaryError);
      }
      compacted := true;
      if EstimateTokens(messages) >= limit {
        compactStalled := true;
        trace := trace + [Stalled];
      }
      return if status.FoldUnsettled? then Some(SummaryUnsettled) else None;
    }

    /** An explicit compaction between turns. */
    method CompactNow(outcome: SummaryOutcome) returns (status: FoldStatus)
      modifies this`messages, this`lastPrompt, this`trace
      ensures Snapshot() == Act(cfg, old(Snapshot()), Turn.CompactNow(outcome))
    {
      status := CompactWithStart(Manual, outcome);
    }

    // ----- A turn

    method PreserveModelResponse(partial: Reply, failure: Failure)
      modifies this`messages, this`log
      ensures Snapshot() == AppendAll(cfg, old(Snapshot()), PreservedRows(partial, failure))
    {
      hide AppendAll;
      if partial.content == "" && |partial.calls| == 0 {
        AppendTurnMessages([]);
        return;
      }
      var msg := ReplyMessage(partial);
      if !failure.AccountingComplete? {
        msg := msg.(content := msg.content + INTERRUPTED);
      }
      var rows: seq<Message> := [];
      for i := 0 to |partial.calls|
        invariant rows == NotExecuted(partial.calls)[..i]
      {
        rows := rows + [ToolResult(partial.calls[i], NOT_EXECUTED)];
      }
      assert rows == NotExecuted(partial.calls);
      AppendTurnMessages([msg] + rows);
    }

    method NoteRequest(final: bool, promptTokens: int)
      modifies this`lastPrompt, this`trace
      ensures Snapshot() == Request(old(Snapshot()), final, promptTokens)
    {
      trace := trace + [Streamed(final)];
      if promptTokens > 0 {
        lastPrompt := promptTokens;
      }
    }

    /** None: the round goes on to the next one. */
    method HandleBreak(r: Round, partial: Reply, failure: Failure) returns (end: Option<Outcome>)
      modifies this
      ensures Went(AfterBreak(cfg, old(Snapshot()), r, partial, failure), end)
      ensures end.None? ==> failure == ContextLimit && !old(retriedOverflow) && !r.cancelledAfterStream
      ensures !(failure == ContextLimit && !old(retriedOverflow) && !r.cancelledAfterStream)
              ==> end == Some(Failed(partial.content, StreamError(failure))) && trace == old(trace)
    {
      PreserveModelResponse(partial, failure);
      if failure.ContextLimit? && !retriedOverflow && !r.cancelledAfterStream {
        retriedOverflow, compacted := true, true;
        var status := CompactWithStart(Overflow, r.retryFold);
        match status {
          case NoHistory => return Some(Failed("", CompactionExhausted));
          case FoldFailed => return Some(Failed("", SummaryError));
          case FoldUnsettled => return Some(Failed("", SummaryUnsettled));
          case FoldDone => return None; // ask again in the next round
        }
      }
      return Some(Failed(partial.content, StreamError(failure)));
    }

    /** The object is where the step says, and goes on or ends as it says. */
    ghost predicate Went(step: Step, end: Option<Outcome>)
      reads this
    {
      match end
      case None => step == Continue(Snapshot())
      case Some(outcome) => step == Exit(Snapshot(), outcome)
    }

    method ExecuteTools(reply: Reply, finished: seq<Completion>)
      requires messages != []
      requires forall c :: c in finished ==> c.index < |reply.calls|
      modifies this`messages, this`log
      ensures Snapshot() == AfterTools(cfg, old(Snapshot()), reply.calls, finished)
      ensures |log| == |old(log)| + |reply.calls| && |messages| == |old(messages)| + |reply.calls|
      ensures forall i :: 0 <= i < |reply.calls| ==>
                && TurnBehaviour.Carries(log[|old(log)| + i], reply.calls[i], finished, i)
                && messages[|old(messages)| + i] == log[|old(log)| + i]
    {
      hide ResultRows, MeasuredCalls, Numbered, OutputOf, TurnBehaviour.Carries, TurnBehaviour.MeasuredBy;
      TurnBehaviour.ToolsAnswerTheirCalls(cfg, Snapshot(), reply.calls, finished);
      var results, measured := RunTools(reply.calls, finished);
      var last := |messages| - 1;
      messages := messages[last := messages[last].(toolCalls := measured[..])];
      var rows := ResultMessages(reply.calls, results, finished);
      AppendTurnMessages(rows);
    }

    static method ResultMessages(calls: seq<ToolCall>, results: array<string>, ghost finished: seq<Completion>) returns (rows: seq<Message>)
      requires results.Length == |calls| && forall i :: 0 <= i < |calls| ==> results[i] == OutputOf(finished, i)
      ensures rows == ResultRows(calls, finished)
    {
      rows := [];
      for i := 0 to |calls|
        invariant rows == ResultRows(calls, finished)[..i]
      {
        rows := rows + [ToolResult(calls[i], results[i])];
      }
    }

    method LoopBoundary(r: Round, reply: Reply) returns (end: Option<Outcome>)
      modifies this
      ensures Went(AtBoundary(cfg, old(Snapshot()), r, reply), end)
    {
      var drained := pending;
      pending := [];
      var injected: seq<Message> := [];
      for i := 0 to |drained|
        invariant injected == SteerMessages(drained)[..i]
      {
        injected := injected + [UserText(drained[i].text, drained[i].parts, false)];
      }
      assert injected == SteerMessages(drained);
      match r.boundary {
        case BoundaryFailed => return Some(Failed("", BoundaryError));
        case Inject(msgs) => injected := injected + msgs;
      }
      AppendTurnMessages(injected);
      if |reply.calls| > 0 || |injected| > 0 {
        return None;
      }
      match r.check {
        case Reject => return Some(Failed("", FinalRejected));
        case Retry => return None;
        case Accept =>
          if !compacted {
            var error := MaybeCompact(Closing, r.closing);
            if error.Some? {
              return Some(Failed("", error.value));
            }
          }
          return Some(Answered(reply.content));
      }
    }

    method OneRound(r: Round) returns (end: Option<Outcome>)
      requires r.stream.Replied? ==> forall c :: c in r.finished ==> c.index < |r.stream.reply.calls|
      modifies this
      ensures Went(RoundStep(cfg, old(Snapshot()), r), end)
    {
      var error := MaybeCompact(Proactive, r.fold);
      if error.Some? {
        return Some(Failed("", error.value));
      }
      NoteRequest(false, r.promptTokens);
      pending := pending + r.steers; // may arrive at any time before the boundary
      match r.stream {
        case Broke(partial, failure) =>
          end := HandleBreak(r, partial, failure);
        case Replied(reply) =>
          AppendTurnMessages([ReplyMessage(reply)]);
          if |reply.calls| > 0 {
            ExecuteTools(reply, r.finished);
            if r.cancelledAfterTools {
              return Some(Failed("", Cancelled));
            }
          }
          end := LoopBoundary(r, reply);
      }
    }

    method FinalAnswer(stream: StreamOutcome, promptTokens: int) returns (outcome: Outcome)
      modifies this
      ensures (Snapshot(), outcome) == Turn.FinalAnswer(cfg, old(Snapshot()), stream, promptTokens)
    {
      NoteRequest(true, promptTokens);
      match stream {
        case Broke(partial, failure) =>
          PreserveModelResponse(partial, failure);
          return Failed(partial.content, StreamError(failure));
        case Replied(reply) =>
          AppendTurnMessages([ReplyMessage(reply)]);
          return Answered(reply.content);
      }
    }

    method FinishTurn()
      modifies this
      ensures Snapshot() == Finish(old(Snapshot()))
    {
      compacted, compactStalled, retriedOverflow := false, false, false;
      running := false;
      pending := [];
    }

    method BeginTurn(t: TurnInput, shown: string)
      requires messages != []
      modifies this
      ensures Snapshot() == Begin(cfg, old(Snapshot()), t, shown)
    {
      var rewritten := Decay(t.host);
      running := true;
      AppendTurnMessages(t.prefix);
      var msg := UserText(shown, t.parts, t.authored);
      var sequence := OnMessage(msg.(content := t.input));
      messages := messages + [msg.(rawSequence := sequence)];
    }

    method TakeTurn(t: TurnInput) returns (outcome: Outcome)
      requires messages != []
      requires forall i :: 0 <= i < |t.rounds| && t.rounds[i].stream.Replied? ==>
                 forall c :: c in t.rounds[i].finished ==> c.index < |t.rounds[i].stream.reply.calls|
      modifies this
      ensures (Snapshot(), outcome) == RunTurn(cfg, old(Snapshot()), t)
    {
      hide RoundStep, Turn.FinalAnswer, Begin;
      var shown := cfg.transform(t.input);
      if shown.None? {
        return Failed("", InputRejected);
      }
      BeginTurn(t, shown.value);
      ghost var begun := Snapshot();
      var rounds := 0;
      while true
        invariant 0 <= rounds <= |t.rounds|
        invariant Rounds(cfg, begun, t, 0, t.rounds) == Rounds(cfg, Snapshot(), t, rounds, t.rounds[rounds..])
        decreases |t.rounds| - rounds
      {
        if cfg.maxTurns > 0 && rounds >= cfg.maxTurns {
          TurnBounds.FinalAnswerEnds(cfg, Snapshot(), t.finalStream, t.finalPromptTokens);
          // Cap reached: one final request without tools instead of a failure.
          outcome := FinalAnswer(t.finalStream, t.finalPromptTokens);
          FinishTurn();
          return;
        }
        if rounds == |t.rounds| {
          return Running;
        }
        TurnBounds.RoundEnds(cfg, Snapshot(), t.rounds[rounds]);
        var end := OneRound(t.rounds[rounds]);
        assert t.rounds[rounds..][0] == t.rounds[rounds] && t.rounds[rounds..][1..] == t.rounds[rounds + 1..];
        rounds := rounds + 1;
        if end.Some? {
          FinishTurn();
          return end.value;
        }
      }
    }
  }
}
