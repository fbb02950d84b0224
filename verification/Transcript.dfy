/** The conversation message and the two size estimates made of it.

    Text is measured in characters: one character stands for one byte of the
    original. The opaque continuation state of a reply is kept as its length. */
module Transcript {

  datatype Option<+T> = None | Some(value: T)

  datatype Role = System | User | Assistant | Tool

  /** A requested tool call. The last two fields are filled in after it ran. */
  datatype ToolCall = ToolCall(id: string, name: string, arguments: string, durationMs: nat, exitCode: int)

  /** A piece of content beside the text. `tokens` is the vision price of an
      image, which depends on its pixels only. */
  datatype ContentPart =
    | TextPart(text: string)
    | ImagePart(url: string, tokens: nat)
    | OtherPart(tokens: nat)

  datatype Message = Message(
    role: Role,
    content: string,
    parts: seq<ContentPart>,
    toolCalls: seq<ToolCall>,
    toolCallID: string,
    name: string,
    authored: bool,
    rawSequence: int,
    continuation: nat)

  function Plain(role: Role, content: string): Message {
    Message(role, content, [], [], "", "", false, 0, 0)
  }

  function UserText(content: string, parts: seq<ContentPart>, authored: bool): Message {
    Plain(User, content).(parts := parts, authored := authored)
  }

  function ToolResult(call: ToolCall, content: string): Message {
    Plain(Tool, content).(toolCallID := call.id, name := call.name)
  }

  /** The message that carries a folded summary, and the marker it starts with. */
  const SUMMARY_PREFIX := "Summary of the conversation so far:\n\n"

  function SummaryMessage(summary: string, sequence: int): Message {
    Plain(System, SUMMARY_PREFIX + summary).(rawSequence := sequence)
  }

  predicate IsSummary(m: Message) {
    m.role.System? && SUMMARY_PREFIX <= m.content
  }

  /** The first character of every placeholder that stands for removed output. */
  const DECAYED_MARKER := "\U{27E8}"

  predicate IsDecayed(content: string) {
    DECAYED_MARKER <= content
  }

  /** The two messages differ at most in their text, their parts and the
      measurements on their calls: roles, identities, requested calls and
      sequence numbers agree. */
  ghost predicate SameShape(m: Message, n: Message) {
    && m.role == n.role
    && m.toolCallID == n.toolCallID
    && m.name == n.name
    && m.authored == n.authored
    && m.rawSequence == n.rawSequence
    && m.continuation == n.continuation
    && SameCalls(m.toolCalls, n.toolCalls)
  }

  ghost predicate SameCalls(a: seq<ToolCall>, b: seq<ToolCall>) {
    && |a| == |b|
    && forall i :: 0 <= i < |a| ==> a[i].id == b[i].id && a[i].name == b[i].name && a[i].arguments == b[i].arguments
  }

  // ----- Estimated size in tokens, used by folding

  function PartTokens(p: ContentPart): nat {
    match p
    case TextPart(text) => (|text| + 3) / 4
    case ImagePart(_, tokens) => tokens
    case OtherPart(tokens) => tokens
  }

  function PartsTokens(parts: seq<ContentPart>): nat {
    if parts == [] then 0 else PartTokens(parts[0]) + PartsTokens(parts[1..])
  }

  function CallsTokens(calls: seq<ToolCall>): nat {
    if calls == [] then 0
    else 8 + (|calls[0].name| + |calls[0].arguments| + 3) / 4 + CallsTokens(calls[1..])
  }

  function MessageTokens(m: Message): nat {
    4 + (|m.content| + 3) / 4 + (m.continuation + 3) / 4 + PartsTokens(m.parts) + CallsTokens(m.toolCalls)
  }

  function EstimateTokens(msgs: seq<Message>): nat {
    if msgs == [] then 0 else MessageTokens(msgs[0]) + EstimateTokens(msgs[1..])
  }

  // ----- What the estimate counts

  lemma {:induction false} PartsAddUp(parts: seq<ContentPart>, p: ContentPart)
    ensures PartsTokens(parts + [p]) == PartsTokens(parts) + PartTokens(p)
  {
    if parts == [] {
      assert [p][1..] == [];
    } else {
      assert (parts + [p])[1..] == parts[1..] + [p];
      PartsAddUp(parts[1..], p);
    }
  }

  lemma {:induction false} CallsAddUp(calls: seq<ToolCall>, c: ToolCall)
    ensures CallsTokens(calls + [c]) == CallsTokens(calls) + 8 + (|c.name| + |c.arguments| + 3) / 4
  {
    if calls == [] {
      assert [c][1..] == [];
    } else {
      assert (calls + [c])[1..] == calls[1..] + [c];
      CallsAddUp(calls[1..], c);
    }
  }

  lemma {:induction false} EstimateAddsUp(a: seq<Message>, b: seq<Message>)
    ensures EstimateTokens(a + b) == EstimateTokens(a) + EstimateTokens(b)
  {
    if a == [] {
      assert a + b == b;
    } else {
      assert (a + b)[1..] == a[1..] + b;
      EstimateAddsUp(a[1..], b);
    }
  }

  /** The estimate of a history is built up message by message: four tokens of framing
      and a quarter, rounded up, of the text and of the continuation state; eight and a
      quarter of name and arguments for every call; an image at the price of its
      pixels, any other text at a quarter. */
  lemma EstimateCounts(msgs: seq<Message>, m: Message, p: ContentPart, c: ToolCall)
    ensures EstimateTokens([]) == 0 && EstimateTokens(msgs + [m]) == EstimateTokens(msgs) + EstimateTokens([m])
    ensures m.parts == [] && m.toolCalls == [] ==> EstimateTokens([m]) == 4 + (|m.content| + 3) / 4 + (m.continuation + 3) / 4
    ensures EstimateTokens([m.(toolCalls := m.toolCalls + [c])]) == EstimateTokens([m]) + 8 + (|c.name| + |c.arguments| + 3) / 4
    ensures EstimateTokens([m.(parts := m.parts + [p])])
            == EstimateTokens([m]) + match p case TextPart(text) => (|text| + 3) / 4 case ImagePart(_, price) => price case OtherPart(price) => price
  {
    EstimateAddsUp(msgs, [m]);
    CallsAddUp(m.toolCalls, c);
    PartsAddUp(m.parts, p);
    EstimateOfOne(m);
    EstimateOfOne(m.(toolCalls := m.toolCalls + [c]));
    EstimateOfOne(m.(parts := m.parts + [p]));
  }

  lemma EstimateOfOne(m: Message)
    ensures EstimateTokens([m]) == MessageTokens(m)
  {
    assert EstimateTokens([m][1..]) == 0;
  }
}
