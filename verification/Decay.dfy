/** Context decay: old tool output and old images become one-line placeholders,
    while the newest part of the conversation stays byte for byte the same.

    Four passes run in this order: duplicate reads, superseded reads, age decay
    and image strip. Each is stated here message by message. */
module Decay {
  import opened Transcript
  import opened Numerals

  const DECAY_HOT_WINDOW := 24_000
  const DECAY_MIN_BYTES := 8_000

  /** What decay asks of its surroundings: the path argument of a call ("" when
      the arguments do not decode to one), the text of an age placeholder for the
      message at an index, and the text of the placeholders for its images. The
      last two name files written on the way and may differ from run to run. */
  datatype Host = Host(pathArgument: string -> string, aged: (nat, nat) -> string, image: (nat, nat) -> string)

  // ----- The hot window

  function MsgTokens(m: Message): nat {
    (|m.content| + |m.toolCallID| + |m.name| + CallsLength(m.toolCalls)) / 4 + PartsTokens(m.parts)
  }

  function CallsLength(calls: seq<ToolCall>): nat {
    if calls == [] then 0 else |calls[0].name| + |calls[0].arguments| + CallsLength(calls[1..])
  }

  /** Going down from message `i` with this much budget left: the first message
      that costs more than is left is the boundary. */
  function BoundaryFrom(msgs: seq<Message>, i: nat, budget: int): nat
    requires i < |msgs| || i == 0
  {
    if i == 0 then 1
    else if MsgTokens(msgs[i]) > budget then i
    else BoundaryFrom(msgs, i - 1, budget - MsgTokens(msgs[i]))
  }

  function HotBoundary(msgs: seq<Message>): nat {
    if msgs == [] then 1 else BoundaryFrom(msgs, |msgs| - 1, DECAY_HOT_WINDOW)
  }

  lemma {:induction false} BoundaryInRange(msgs: seq<Message>, i: nat, budget: int)
    requires i < |msgs| || i == 0
    ensures 1 <= BoundaryFrom(msgs, i, budget) <= Max(i, 1)
    decreases i
  {
    if i > 0 && MsgTokens(msgs[i]) <= budget {
      BoundaryInRange(msgs, i - 1, budget - MsgTokens(msgs[i]));
    }
  }

  ghost function WindowTokens(msgs: seq<Message>, i: nat): nat
    requires i <= |msgs|
    decreases |msgs| - i
  {
    if i == |msgs| then 0 else MsgTokens(msgs[i]) + WindowTokens(msgs, i + 1)
  }

  lemma {:induction false} BoundaryIsMaximal(msgs: seq<Message>, i: nat, budget: int)
    requires i < |msgs| && 0 <= budget == DECAY_HOT_WINDOW - WindowTokens(msgs, i + 1)
    ensures var b := BoundaryFrom(msgs, i, budget);
            && (b < |msgs| ==> WindowTokens(msgs, b + 1) <= DECAY_HOT_WINDOW)
            && (1 < b < |msgs| ==> WindowTokens(msgs, b) > DECAY_HOT_WINDOW)
    decreases i
  {
    hide MsgTokens;
    if i > 0 && MsgTokens(msgs[i]) <= budget {
      BoundaryIsMaximal(msgs, i - 1, budget - MsgTokens(msgs[i]));
    } else if i == 0 && |msgs| > 1 {
      assert WindowTokens(msgs, 1) == MsgTokens(msgs[1]) + WindowTokens(msgs, 2);
    }
  }

  /** What is above the boundary fits the window, and the boundary is as low as it
      can be: with the message at the boundary the window would overflow, unless the
      boundary is 1 already. */
  lemma HotWindowFits(msgs: seq<Message>)
    requires msgs != []
    ensures var b := HotBoundary(msgs);
            && 1 <= b <= |msgs|
            && (b < |msgs| ==> WindowTokens(msgs, b + 1) <= 24_000)
            && (1 < b ==> WindowTokens(msgs, b) > 24_000)
  {
    hide MsgTokens;
    assert WindowTokens(msgs, |msgs|) == 0;
    BoundaryInRange(msgs, |msgs| - 1, DECAY_HOT_WINDOW);
    BoundaryIsMaximal(msgs, |msgs| - 1, DECAY_HOT_WINDOW);
  }

  /** The boundary is decided by the messages at and above it alone. */
  lemma {:induction false} BoundaryIsStable(a: seq<Message>, b: seq<Message>, i: nat, budget: int)
    requires |a| == |b| && (i < |a| || i == 0)
    requires forall j :: BoundaryFrom(a, i, budget) <= j < |a| ==> a[j] == b[j]
    ensures BoundaryFrom(b, i, budget) == BoundaryFrom(a, i, budget)
    decreases i
  {
    BoundaryInRange(a, i, budget);
    if i > 0 && MsgTokens(a[i]) <= budget {
      BoundaryInRange(a, i - 1, budget - MsgTokens(a[i]));
      BoundaryIsStable(a, b, i - 1, budget - MsgTokens(a[i]));
    }
  }

  // ----- Which call a tool result answers

  /** The nearest assistant message before `i`, or None. */
  function OwnerBefore(msgs: seq<Message>, i: nat): (r: Option<nat>)
    requires i <= |msgs|
    ensures r.Some? ==> r.value < i
  {
    if i == 0 then None
    else if msgs[i - 1].role.Assistant? then Some(i - 1)
    else OwnerBefore(msgs, i - 1)
  }

  function FindCall(calls: seq<ToolCall>, id: string): Option<ToolCall> {
    if calls == [] then None
    else if calls[0].id == id then Some(calls[0])
    else FindCall(calls[1..], id)
  }

  function CallOf(msgs: seq<Message>, i: nat): Option<ToolCall>
    requires i < |msgs|
  {
    if msgs[i].toolCallID == "" then None
    else match OwnerBefore(msgs, i)
      case None => None
      case Some(j) => FindCall(msgs[j].toolCalls, msgs[i].toolCallID)
  }

  function CallArgs(msgs: seq<Message>, i: nat): string
    requires i < |msgs|
  {
    match CallOf(msgs, i) case None => "" case Some(call) => call.arguments
  }

  function PathOf(host: Host, msgs: seq<Message>, i: nat): string
    requires i < |msgs|
  {
    match CallOf(msgs, i) case None => "" case Some(call) => host.pathArgument(call.arguments)
  }

  // ----- Pass 1b: duplicate reads

  type ReadKey = (string, string)

  function KeyOf(host: Host, msgs: seq<Message>, i: nat): ReadKey
    requires i < |msgs|
  {
    (PathOf(host, msgs, i), CallArgs(msgs, i))
  }

  predicate IsTool(m: Message, name: string) {
    m.role.Tool? && m.name == name
  }

  /** A read result that is still inline and whose path is known. */
  predicate LiveRead(host: Host, msgs: seq<Message>, i: nat)
    requires i < |msgs|
  {
    IsTool(msgs[i], "read") && !IsDecayed(msgs[i].content) && PathOf(host, msgs, i) != ""
  }

  /** The nearest live read of the same region before `n`, or None. */
  function LastRead(host: Host, msgs: seq<Message>, key: ReadKey, n: nat): (r: Option<nat>)
    requires n <= |msgs|
    ensures r.Some? ==> r.value < n && LiveRead(host, msgs, r.value) && KeyOf(host, msgs, r.value) == key
    ensures forall j :: (if r.Some? then r.value + 1 else 0) <= j < n && LiveRead(host, msgs, j) ==> KeyOf(host, msgs, j) != key
  {
    if n == 0 then None
    else if LiveRead(host, msgs, n - 1) && KeyOf(host, msgs, n - 1) == key then Some(n - 1)
    else LastRead(host, msgs, key, n - 1)
  }

  /** A live read whose predecessor with the same arguments returned the same bytes. */
  predicate Duplicate(host: Host, msgs: seq<Message>, boundary: nat, i: nat)
    requires i < |msgs|
  {
    i < boundary && LiveRead(host, msgs, i) &&
    match LastRead(host, msgs, KeyOf(host, msgs, i), i)
    case None => false
    case Some(j) => msgs[j].content == msgs[i].content
  }

  /** Every placeholder begins with the marker. */
  function Placeholder(text: string): (r: string)
    ensures IsDecayed(r)
  {
    DECAYED_MARKER + text
  }

  function DuplicateNotice(path: string): (r: string)
    ensures IsDecayed(r)
  {
    Placeholder("duplicate read of " + Base(path) + " \U{2014} same content as the first read above\U{27E9}")
  }

  /** `m` with its text replaced by a placeholder. */
  ghost predicate Replaced(m: Message, r: Message) {
    r == m.(content := r.content) && IsDecayed(r.content)
  }

  function DuplicateOne(host: Host, msgs: seq<Message>, boundary: nat, i: nat): (r: Message)
    requires i < |msgs|
    ensures if Duplicate(host, msgs, boundary, i) then Replaced(msgs[i], r) else r == msgs[i]
  {
    if Duplicate(host, msgs, boundary, i) then msgs[i].(content := DuplicateNotice(PathOf(host, msgs, i))) else msgs[i]
  }

  function AfterDuplicates(host: Host, msgs: seq<Message>, boundary: nat): (r: seq<Message>)
    ensures |r| == |msgs|
  {
    seq(|msgs|, i requires 0 <= i < |msgs| => DuplicateOne(host, msgs, boundary, i))
  }

  // ----- Pass 1: superseded reads

  /** The message at `i` is evidence of the file at `path`: an inline read, or a
      write or edit. */
  predicate Sights(host: Host, msgs: seq<Message>, i: nat, path: string)
    requires i < |msgs|
  {
    && path != ""
    && PathOf(host, msgs, i) == path
    && ((IsTool(msgs[i], "read") && !IsDecayed(msgs[i].content)) || IsTool(msgs[i], "write") || IsTool(msgs[i], "edit"))
  }

  /** The newest evidence of `path` before `n`, not counting message 0; 0 if none. */
  function NewestSighting(host: Host, msgs: seq<Message>, path: string, n: nat): (r: nat)
    requires n <= |msgs|
    ensures r > 0 ==> r < n && Sights(host, msgs, r, path)
    ensures forall j :: r < j < n ==> !Sights(host, msgs, j, path)
  {
    if n <= 1 then 0
    else if Sights(host, msgs, n - 1, path) then n - 1
    else NewestSighting(host, msgs, path, n - 1)
  }

  predicate Superseded(host: Host, msgs: seq<Message>, boundary: nat, i: nat)
    requires i < |msgs|
  {
    0 < i < boundary && LiveRead(host, msgs, i) && NewestSighting(host, msgs, PathOf(host, msgs, i), |msgs|) != i
  }

  datatype Sighting = Sighting(idx: nat, write: bool, lines: nat)

  /** The sighting recorded for the evidence at `i`. */
  function SightingAt(msgs: seq<Message>, i: nat): Sighting
    requires i < |msgs|
  {
    if msgs[i].name == "read" then Sighting(i, false, LineCount(msgs[i].content)) else Sighting(i, true, 0)
  }

  function SupersededNotice(path: string, s: Sighting): (r: string)
    ensures IsDecayed(r)
  {
    if s.write then
      Placeholder("read of " + Base(path) + " superseded \U{2014} file changed by a later write/edit\U{27E9}")
    else
      Placeholder("read of " + Base(path) + " superseded by newer read (" + Decimal(s.lines) + " lines)\U{27E9}")
  }

  function SupersededOne(host: Host, msgs: seq<Message>, boundary: nat, i: nat): (r: Message)
    requires i < |msgs|
    ensures if Superseded(host, msgs, boundary, i) then Replaced(msgs[i], r) else r == msgs[i]
  {
    if Superseded(host, msgs, boundary, i) then
      var path := PathOf(host, msgs, i);
      msgs[i].(content := SupersededNotice(path, SightingAt(msgs, NewestSighting(host, msgs, path, |msgs|))))
    else msgs[i]
  }

  function AfterSuperseded(host: Host, msgs: seq<Message>, boundary: nat): (r: seq<Message>)
    ensures |r| == |msgs|
  {
    seq(|msgs|, i requires 0 <= i < |msgs| => SupersededOne(host, msgs, boundary, i))
  }

  // ----- Pass 2: age decay

  predicate Aged(msgs: seq<Message>, boundary: nat, i: nat)
    requires i < |msgs|
  {
    i < boundary && msgs[i].role.Tool? && |msgs[i].content| > DECAY_MIN_BYTES && !IsDecayed(msgs[i].content)
  }

  /** User messages a human typed, from `i` to the end. */
  function AuthoredFrom(msgs: seq<Message>, i: nat): nat
    requires i <= |msgs|
    decreases |msgs| - i
  {
    if i == |msgs| then 0
    else (if msgs[i].role.User? && msgs[i].authored then 1 else 0) + AuthoredFrom(msgs, i + 1)
  }

  function AgedOne(host: Host, msgs: seq<Message>, boundary: nat, i: nat): (r: Message)
    requires i < |msgs|
    ensures if Aged(msgs, boundary, i) then Replaced(msgs[i], r) else r == msgs[i]
  {
    if Aged(msgs, boundary, i) then
      var text: string := host.aged(i, AuthoredFrom(msgs, i));
      msgs[i].(content := Placeholder(text))
    else msgs[i]
  }

  function AfterAge(host: Host, msgs: seq<Message>, boundary: nat): (r: seq<Message>)
    ensures |r| == |msgs|
  {
    seq(|msgs|, i requires 0 <= i < |msgs| => AgedOne(host, msgs, boundary, i))
  }

  // ----- Pass 3: image strip

  function ImageCount(parts: seq<ContentPart>): nat {
    if parts == [] then 0 else ImageCount(parts[..|parts| - 1]) + (if parts[|parts| - 1].ImagePart? then 1 else 0)
  }

  /** One placeholder per image, in order. */
  function ImageNotes(host: Host, i: nat, count: nat): seq<string> {
    if count == 0 then [] else ImageNotes(host, i, count - 1) + [Placeholder(host.image(i, count - 1))]
  }

  /** The texts kept beside the content, which usually mirrors one of them. */
  function KeptTexts(parts: seq<ContentPart>, content: string): seq<string> {
    if parts == [] then []
    else
      var earlier, p := KeptTexts(parts[..|parts| - 1], content), parts[|parts| - 1];
      if p.TextPart? && p.text != "" && p.text != content then earlier + [p.text] else earlier
  }

  function JoinLines(texts: seq<string>): string {
    if texts == [] then "" else if |texts| == 1 then texts[0] else texts[0] + "\n" + JoinLines(texts[1..])
  }

  /** What a message with this content and these parts reads once its images have
      given way to notes. */
  function WithNotes(content: string, parts: seq<ContentPart>, notes: seq<string>): string {
    JoinLines((if content != "" then [content] else []) + KeptTexts(parts, content) + notes)
  }

  function Stripped(host: Host, i: nat, m: Message): Message {
    if ImageCount(m.parts) == 0 then m
    else m.(content := WithNotes(m.content, m.parts, ImageNotes(host, i, ImageCount(m.parts))), parts := [])
  }

  function AfterImages(host: Host, msgs: seq<Message>, boundary: nat): (r: seq<Message>)
    ensures |r| == |msgs|
  {
    seq(|msgs|, i requires 0 <= i < |msgs| => if 0 < i < boundary then Stripped(host, i, msgs[i]) else msgs[i])
  }

  // ----- The whole pass

  function Decayed(host: Host, msgs: seq<Message>): (r: seq<Message>)
    ensures |r| == |msgs|
  {
    var b := HotBoundary(msgs);
    AfterImages(host, AfterAge(host, AfterSuperseded(host, AfterDuplicates(host, msgs, b), b), b), b)
  }

  function ImagesBelow(msgs: seq<Message>, n: nat): nat
    requires n <= |msgs|
  {
    if n <= 1 then 0 else ImagesBelow(msgs, n - 1) + ImageCount(msgs[n - 1].parts)
  }

  ghost function Duplicates(host: Host, msgs: seq<Message>, b: nat): set<nat> {
    set i: nat | i < |msgs| && Duplicate(host, msgs, b, i)
  }

  ghost function SupersededReads(host: Host, msgs: seq<Message>, b: nat): set<nat> {
    set i: nat | i < |msgs| && Superseded(host, msgs, b, i)
  }

  ghost function AgedResults(msgs: seq<Message>, b: nat): set<nat> {
    set i: nat | i < |msgs| && Aged(msgs, b, i)
  }

  /** How many rewrites the four passes make. */
  ghost function RewriteCount(host: Host, msgs: seq<Message>): nat {
    var b := HotBoundary(msgs);
    var m1 := AfterDuplicates(host, msgs, b);
    var m2 := AfterSuperseded(host, m1, b);
    var m3 := AfterAge(host, m2, b);
    |Duplicates(host, msgs, b)| + |SupersededReads(host, m1, b)| + |AgedResults(m2, b)|
    + (if b <= |msgs| then ImagesBelow(m3, b) else 0)
  }

  // ----- Small text helpers

  /** Lines of a text, counting an unterminated last one. */
  function LineCount(text: string): nat {
    if text == "" then 0 else Newlines(text) + (if text[|text| - 1] == '\n' then 0 else 1)
  }

  function Newlines(text: string): nat {
    if text == "" then 0 else (if text[0] == '\n' then 1 else 0) + Newlines(text[1..])
  }

  /** The last element of a slash-separated path. */
  function Base(path: string): string {
    if path == "" then "."
    else if WithoutTrailingSlashes(path) == "" then "/"
    else AfterLastSlash(WithoutTrailingSlashes(path))
  }

  function WithoutTrailingSlashes(path: string): string {
    if path != "" && path[|path| - 1] == '/' then WithoutTrailingSlashes(path[..|path| - 1]) else path
  }

  function AfterLastSlash(path: string): string {
    if path == "" || path[|path| - 1] == '/' then "" else AfterLastSlash(path[..|path| - 1]) + [path[|path| - 1]]
  }
}
