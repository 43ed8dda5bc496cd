/**
  The bounded conversation with a model provider: rounds, transport retries,
  tool calls, nudges and guest checks. The provider, the tools and the checker
  may do anything; what each does on its n-th call is a function of n.
*/
module ConversationModel {
  import opened Base

  datatype ToolCall = ToolCall(name: string, args: string, id: string)

  datatype Message =
    | System(text: string)
    | User(text: string)
    | Assistant(text: string)
    | Calls(calls: seq<ToolCall>)
    | Response(id: string, text: string)

  datatype Turn = Turn(tool: string, args: string, result: string)

  datatype Budgets = Budgets(maxRounds: nat, maxCandidates: nat, maxRepeats: nat)

  const REPEAT_NOTE_FROM := 3
  const TRANSPORT_RETRIES := 3
  const MAX_RESULT_BYTES := 65536

  // ------------------------------------------------------------- the environment

  /** The parts of a provider's reply that the loop looks at. */
  datatype Reply = Reply(text: Option<string>, calls: seq<ToolCall>, stoppedAtMax: bool, spent: Option<int>)

  datatype ProviderOutcome = Replied(reply: Reply) | TransportFailure | ProviderFailure

  datatype ToolOutcome = Output(text: string) | Reason(text: string) | ToolAbort

  datatype CheckOutcome = Accept | Correct(text: string) | CheckAbort

  /**
    The outside: the n-th provider request, tool call and check, the shape test
    and candidate extraction of the asked format, and the hash of a call.
  */
  datatype World = World(
    provider: nat -> ProviderOutcome,
    tool: nat -> ToolOutcome,
    verdict: nat -> CheckOutcome,
    candidate: string -> string,
    offShape: string -> Option<string>,
    identity: (string, string) -> nat
  )

  /** What is fixed for one completion. */
  datatype Setup = Setup(world: World, budgets: Budgets, checking: bool, maxTokens: Option<nat>)

  // -------------------------------------------------------------- the chat's shape

  /** Every message of n tool calls is followed by exactly its n responses, in order, and no response stands alone. */
  predicate Paired(chat: seq<Message>) {
    if chat == [] then true
    else match chat[0]
      case Calls(calls) =>
        && 1 + |calls| <= |chat|
        && Answers(calls, chat[1..1 + |calls|])
        && Paired(chat[1 + |calls|..])
      case Response(_, _) => false
      case _ => Paired(chat[1..])
  }

  predicate Answers(calls: seq<ToolCall>, responses: seq<Message>) {
    |calls| == |responses| && forall k | 0 <= k < |calls| :: responses[k].Response? && responses[k].id == calls[k].id
  }

  /** The calls and results a paired chat lists, in order. */
  function TurnsIn(chat: seq<Message>): seq<Turn>
    requires Paired(chat)
  {
    if chat == [] then []
    else match chat[0]
      case Calls(calls) => PairUp(calls, chat[1..1 + |calls|]) + TurnsIn(chat[1 + |calls|..])
      case _ => TurnsIn(chat[1..])
  }

  function PairUp(calls: seq<ToolCall>, responses: seq<Message>): seq<Turn>
    requires Answers(calls, responses)
  {
    seq(|calls|, k requires 0 <= k < |calls| => Turn(calls[k].name, calls[k].args, responses[k].text))
  }

  /** The messages that go with the first one. */
  function FrontLength(chat: seq<Message>): (n: nat)
    requires chat != [] && Paired(chat)
    ensures 1 <= n <= |chat|
  {
    if chat[0].Calls? then 1 + |chat[0].calls| else 1
  }

  lemma FrontJoins(a: seq<Message>, b: seq<Message>)
    requires a != [] && Paired(a)
    ensures
      var n := FrontLength(a);
      && Paired(a[n..])
      && (Paired(a[n..] + b) ==>
            && Paired(a + b) && FrontLength(a + b) == n
            && (a + b)[..n] == a[..n] && (a + b)[n..] == a[n..] + b)
  {
    var n := FrontLength(a);
    var whole := a + b;
    assert whole[0] == a[0] && whole[..n] == a[..n] && whole[n..] == a[n..] + b;
    assert whole[1..n] == a[1..n];
  }

  lemma TurnsStep(chat: seq<Message>)
    requires chat != [] && Paired(chat)
    ensures
      var n := FrontLength(chat);
      && Paired(chat[n..])
      && (chat[0].Calls? ==> Answers(chat[0].calls, chat[..n][1..]))
      && TurnsIn(chat) == (if chat[0].Calls? then PairUp(chat[0].calls, chat[..n][1..]) else []) + TurnsIn(chat[n..])
  {
  }

  lemma {:induction false} PairedJoins(a: seq<Message>, b: seq<Message>)
    requires Paired(a) && Paired(b)
    ensures Paired(a + b) && TurnsIn(a + b) == TurnsIn(a) + TurnsIn(b)
    decreases |a|
  {
    if a == [] {
      assert a + b == b;
    } else {
      hide Paired, TurnsIn, FrontLength, PairUp, Answers;
      var n := FrontLength(a);
      FrontJoins(a, b);
      PairedJoins(a[n..], b);
      TurnsStep(a);
      TurnsStep(a + b);
      assert (a + b)[0] == a[0] && (a + b)[..n][1..] == a[..n][1..];
      SeqJoin(if a[0].Calls? then PairUp(a[0].calls, a[..n][1..]) else [], TurnsIn(a[n..]), TurnsIn(b));
    }
  }

  lemma NextIsPastTheFront(chat: seq<Message>, k: nat)
    requires Paired(chat) && 0 < k < |chat| && chat[k].Calls?
    ensures FrontLength(chat) <= k && Paired(chat[FrontLength(chat)..])
  {
    hide Paired, TurnsIn;
    TurnsStep(chat);
    var n := FrontLength(chat);
    assert forall j | 1 <= j < n :: chat[j] == chat[..n][1..][j - 1];
  }

  lemma SliceOfRest<T>(s: seq<T>, n: nat, i: nat, m: nat)
    requires n + i + m <= |s|
    ensures s[n..][i..i + m] == s[n + i..n + i + m]
  {
    var a, b := s[n..][i..i + m], s[n + i..n + i + m];
    forall k | 0 <= k < m ensures a[k] == b[k] {
      assert a[k] == s[n..][i + k] == s[n + i + k] == b[k];
    }
  }

  /** Wherever a message of calls stands, its answers stand right behind it. */
  lemma {:induction false} CallsAreAnswered(chat: seq<Message>, k: nat)
    requires Paired(chat) && k < |chat| && chat[k].Calls?
    ensures k + |chat[k].calls| < |chat| && Answers(chat[k].calls, chat[k + 1..k + 1 + |chat[k].calls|])
    decreases |chat|
  {
    if k > 0 {
      hide Paired, FrontLength, Answers;
      var n, m := FrontLength(chat), |chat[k].calls|;
      NextIsPastTheFront(chat, k);
      var rest := chat[n..];
      assert rest[k - n] == chat[k];
      CallsAreAnswered(rest, k - n);
      assert k - n + m < |rest|;
      SliceOfRest(chat, n, k - n + 1, m);
      assert n + (k - n + 1) == k + 1;
    }
  }

  lemma SeqJoin<T>(x: seq<T>, y: seq<T>, z: seq<T>)
    ensures x + (y + z) == x + y + z
  {
  }

  lemma OneExchange(calls: seq<ToolCall>, responses: seq<Message>)
    requires Answers(calls, responses)
    ensures Paired([Calls(calls)] + responses) && TurnsIn([Calls(calls)] + responses) == PairUp(calls, responses)
  {
    var chat := [Calls(calls)] + responses;
    assert chat[1..1 + |calls|] == responses && chat[1 + |calls|..] == [];
  }

  lemma TalkIsPaired(candidate: string, prompt: string)
    ensures Paired([Assistant(candidate), User(prompt)]) && TurnsIn([Assistant(candidate), User(prompt)]) == []
    ensures Talk([Assistant(candidate), User(prompt)]) == [Assistant(candidate), User(prompt)]
  {
    var talk := [Assistant(candidate), User(prompt)];
    assert talk[1..] == [User(prompt)] && [User(prompt)][1..] == [];
    assert TurnsIn([User(prompt)]) == TurnsIn([]) == [];
    assert Talk([User(prompt)]) == [User(prompt)] + Talk([]);
  }

  /** What is said in a chat besides calls and their responses. */
  function Talk(chat: seq<Message>): seq<Message> {
    if chat == [] then []
    else (if chat[0].Calls? || chat[0].Response? then [] else [chat[0]]) + Talk(chat[1..])
  }

  lemma {:induction false} TalkJoins(a: seq<Message>, b: seq<Message>)
    ensures Talk(a + b) == Talk(a) + Talk(b)
    decreases |a|
  {
    if a == [] {
      assert a + b == b;
    } else {
      var first := if a[0].Calls? || a[0].Response? then [] else [a[0]];
      assert (a + b)[0] == a[0] && (a + b)[1..] == a[1..] + b;
      assert Talk(a + b) == first + Talk(a[1..] + b) && Talk(a) == first + Talk(a[1..]);
      hide Talk;
      TalkJoins(a[1..], b);
      SeqJoin(first, Talk(a[1..]), Talk(b));
    }
  }

  lemma {:induction false} ResponsesAreSilent(responses: seq<Message>)
    requires forall r | r in responses :: r.Response?
    ensures Talk(responses) == []
  {
    if responses != [] {
      assert responses[0] in responses;
      ResponsesAreSilent(responses[1..]);
    }
  }

  lemma ExchangeIsSilent(calls: seq<ToolCall>, responses: seq<Message>)
    requires Answers(calls, responses)
    ensures Talk([Calls(calls)] + responses) == []
  {
    ResponsesAreSilent(responses);
    assert ([Calls(calls)] + responses)[1..] == responses;
  }

  lemma PairUpSnoc(calls: seq<ToolCall>, responses: seq<Message>, call: ToolCall, text: string)
    requires Answers(calls, responses)
    ensures Answers(calls + [call], responses + [Response(call.id, text)])
    ensures PairUp(calls + [call], responses + [Response(call.id, text)])
            == PairUp(calls, responses) + [Turn(call.name, call.args, text)]
  {
  }

  // ------------------------------------------------------------ capping a tool's text

  function Width(c: char): (w: nat)
    ensures 1 <= w <= 4
  {
    var n := c as int;
    if n < 0x80 then 1 else if n < 0x800 then 2 else if n < 0x1_0000 then 3 else 4
  }

  function ByteLength(text: string): nat {
    if text == [] then 0 else Width(text[0]) + ByteLength(text[1..])
  }

  lemma {:induction false} ByteLengthJoins(a: string, b: string)
    ensures ByteLength(a + b) == ByteLength(a) + ByteLength(b)
    decreases |a|
  {
    if a == [] {
      assert a + b == b;
    } else {
      assert (a + b)[1..] == a[1..] + b;
      ByteLengthJoins(a[1..], b);
    }
  }

  /** The last character boundary at or below byte n, as a count of characters. */
  function FloorBoundary(text: string, n: nat): (k: nat)
    ensures k <= |text|
  {
    if text == [] || n < Width(text[0]) then 0 else 1 + FloorBoundary(text[1..], n - Width(text[0]))
  }

  /** The first character boundary at or above byte n. */
  function CeilBoundary(text: string, n: int): (k: nat)
    ensures k <= |text|
  {
    if text == [] || n <= 0 then 0 else 1 + CeilBoundary(text[1..], n - Width(text[0]))
  }

  lemma {:induction false} FloorIsBelow(text: string, n: nat)
    requires n <= ByteLength(text)
    ensures n - 3 <= ByteLength(text[..FloorBoundary(text, n)]) <= n
  {
    if text != [] && Width(text[0]) <= n {
      FloorIsBelow(text[1..], n - Width(text[0]));
      var k := FloorBoundary(text[1..], n - Width(text[0]));
      assert text[..1 + k][1..] == text[1..][..k];
    }
  }

  lemma {:induction false} CeilIsAbove(text: string, n: int)
    requires 0 <= n <= ByteLength(text)
    ensures n <= ByteLength(text[..CeilBoundary(text, n)]) <= n + 3
  {
    if text != [] && 0 < n {
      var k := CeilBoundary(text[1..], n - Width(text[0]));
      assert text[..1 + k][1..] == text[1..][..k];
      if Width(text[0]) <= n {
        CeilIsAbove(text[1..], n - Width(text[0]));
      }
    }
  }

  lemma {:induction false} LongerPrefixIsWider(text: string, i: nat, j: nat)
    requires i <= j <= |text|
    ensures ByteLength(text[..j]) == ByteLength(text[..i]) + ByteLength(text[i..j])
  {
    assert text[..j] == text[..i] + text[i..j];
    ByteLengthJoins(text[..i], text[i..j]);
  }

  function HeadEnd(text: string, cap: nat): nat {
    FloorBoundary(text, cap / 2)
  }

  function TailStart(text: string, cap: nat): nat {
    CeilBoundary(text, ByteLength(text) - (cap - ByteLength(text[..HeadEnd(text, cap)])))
  }

  function Omission(bytes: nat): string {
    "\n[\U{2026} " + NatText(bytes) + " bytes omitted \U{2026}]\n"
  }

  function Truncate(text: string, cap: nat): string {
    if ByteLength(text) <= cap then text
    else
      var (head, tail) := (HeadEnd(text, cap), TailStart(text, cap));
      var omitted: int := ByteLength(text[..tail]) - ByteLength(text[..head]);
      text[..head] + Omission(if omitted < 0 then 0 else omitted) + text[tail..]
  }

  lemma EndsMeet(text: string, cap: nat, head: nat, tail: nat)
    requires head <= |text| && tail <= |text| && cap < ByteLength(text)
    requires cap / 2 - 3 <= ByteLength(text[..head]) <= cap / 2
    requires 0 <= ByteLength(text[..tail]) - (ByteLength(text) - (cap - ByteLength(text[..head]))) <= 3
    ensures head <= tail && cap - 3 <= ByteLength(text[..head]) + ByteLength(text[tail..]) <= cap
  {
    hide ByteLength;
    assert text[..|text|] == text;
    LongerPrefixIsWider(text, tail, |text|);
    if tail < head {
      LongerPrefixIsWider(text, tail, head);
    }
  }

  lemma EndsDoNotOverlap(text: string, cap: nat)
    requires cap < ByteLength(text)
    ensures
      var (head, tail) := (HeadEnd(text, cap), TailStart(text, cap));
      && head <= tail <= |text|
      && cap / 2 - 3 <= ByteLength(text[..head]) <= cap / 2
      && cap - 3 <= ByteLength(text[..head]) + ByteLength(text[tail..]) <= cap
  {
    hide FloorBoundary, CeilBoundary, ByteLength;
    var (head, tail) := (HeadEnd(text, cap), TailStart(text, cap));
    FloorIsBelow(text, cap / 2);
    var kept := ByteLength(text[..head]);
    CeilIsAbove(text, ByteLength(text) - (cap - kept));
    EndsMeet(text, cap, head, tail);
  }

  lemma TruncateUnfolds(text: string, cap: nat, head: nat, tail: nat, omitted: nat)
    requires cap < ByteLength(text) && head == HeadEnd(text, cap) && tail == TailStart(text, cap)
    requires head <= tail <= |text| && omitted == ByteLength(text[..tail]) - ByteLength(text[..head])
    ensures Truncate(text, cap) == text[..head] + Omission(omitted) + text[tail..]
  {
    hide HeadEnd, TailStart, ByteLength, Omission;
  }

  lemma TruncatedForm(text: string, cap: nat)
    requires cap < ByteLength(text)
    ensures
      var (head, tail) := (HeadEnd(text, cap), TailStart(text, cap));
      && head <= tail <= |text|
      && Truncate(text, cap) == text[..head] + Omission(ByteLength(text[head..tail])) + text[tail..]
  {
    hide HeadEnd, TailStart, ByteLength, Omission, Truncate;
    EndsDoNotOverlap(text, cap);
    var head, tail := HeadEnd(text, cap), TailStart(text, cap);
    LongerPrefixIsWider(text, head, tail);
    TruncateUnfolds(text, cap, head, tail, ByteLength(text[head..tail]));
  }

  lemma OmissionNames(bytes: nat)
    ensures Omission(bytes) == "\n[\U{2026} " + NatText(bytes) + " bytes omitted \U{2026}]\n"
  {
    hide NatText;
  }

  /**
    A text over the cap keeps half the cap as a head, and a tail that does not
    overlap it, together at most the cap and short of it only where a character
    was cut, and names exactly the bytes left out between them.
  */
  lemma TruncateKeepsBothEnds(text: string, cap: nat)
    requires cap < ByteLength(text)
    ensures
      var (head, tail) := (HeadEnd(text, cap), TailStart(text, cap));
      && head <= tail <= |text|
      && cap / 2 - 3 <= ByteLength(text[..head]) <= cap / 2
      && cap - 3 <= ByteLength(text[..head]) + ByteLength(text[tail..]) <= cap
      && Truncate(text, cap)
         == text[..head]
            + ("\n[\U{2026} " + NatText(ByteLength(text[head..tail])) + " bytes omitted \U{2026}]\n")
            + text[tail..]
  {
    EndsDoNotOverlap(text, cap);
    TruncatedForm(text, cap);
    OmissionNames(ByteLength(text[HeadEnd(text, cap)..TailStart(text, cap)]));
    hide *;
  }

  /** A text within the cap is kept as it is. */
  lemma TruncateKeepsShort(text: string, cap: nat)
    requires ByteLength(text) <= cap
    ensures Truncate(text, cap) == text
  {
  }

  function Capped(text: string): string {
    Truncate(text, MAX_RESULT_BYTES)
  }

  /** `kept` is the text's own head of 32 KiB and a tail of as much, less cut characters, with something between. */
  predicate TwoEnds(text: string, kept: string, head: string, omitted: string, tail: string) {
    && kept == head + omitted + tail
    && head <= text && |tail| <= |text| && text[|text| - |tail|..] == tail
    && 32765 <= ByteLength(head) <= 32768 && 65533 <= ByteLength(head) + ByteLength(tail) <= 65536
  }

  lemma TwoEndsOf(text: string, kept: string, head: nat, omitted: string, tail: nat)
    requires head <= tail <= |text| && kept == text[..head] + omitted + text[tail..]
    requires 32765 <= ByteLength(text[..head]) <= 32768
    requires 65533 <= ByteLength(text[..head]) + ByteLength(text[tail..]) <= 65536
    ensures TwoEnds(text, kept, text[..head], omitted, text[tail..])
  {
    hide ByteLength;
    assert text[|text| - |text[tail..]|..] == text[tail..];
  }

  /** A text over 64 KiB is told by its two ends. */
  lemma CappedKeepsBothEnds(text: string)
    requires ByteLength(text) > 65536
    ensures exists head, omitted, tail :: TwoEnds(text, Capped(text), head, omitted, tail)
  {
    EndsDoNotOverlap(text, 65536);
    TruncatedForm(text, 65536);
    var head, tail := HeadEnd(text, 65536), TailStart(text, 65536);
    hide Omission, Truncate, HeadEnd, TailStart, ByteLength, TwoEnds;
    TwoEndsOf(text, Capped(text), head, Omission(ByteLength(text[head..tail])), tail);
  }

  /** A text within 64 KiB is told as it is. */
  lemma CappedKeepsShort(text: string)
    requires ByteLength(text) <= 65536
    ensures Capped(text) == text
  {
    TruncateKeepsShort(text, 65536);
  }

  /** A plain character is one byte, and every other more. */
  lemma {:induction false} BytesOfAscii(text: string)
    ensures ByteLength(text) >= |text|
    ensures ByteLength(text) == |text| <==> forall c | c in text :: c as int < 128
  {
    if text != [] {
      BytesOfAscii(text[1..]);
      assert forall c | c in text :: c == text[0] || c in text[1..];
      assert text[0] in text && forall c | c in text[1..] :: c in text;
    }
  }

  // ---------------------------------------------------- what a completion should log

  /** A round whose reply asked for tools: its number, whether a nudge was pending, and the request that brought it. */
  datatype Round = Round(number: nat, nudged: bool, request: nat, reply: Reply)

  /** Whether the reply ran into the token bound, by its stop reason or by its bill. */
  predicate IsCut(setup: Setup, reply: Reply) {
    || reply.stoppedAtMax
    || (setup.maxTokens.Some? && reply.spent.Some?
        && 0 <= reply.spent.value < 0x1_0000_0000 && setup.maxTokens.value <= reply.spent.value)
  }

  predicate IsClosing(setup: Setup, round: Round) {
    round.nudged || round.number == setup.budgets.maxRounds
  }

  predicate Runs(setup: Setup, round: Round) {
    !IsClosing(setup, round) && !IsCut(setup, round.reply)
  }

  /** The calls of the rounds that were neither closing nor cut at the token bound. */
  function OpenCalls(setup: Setup, rounds: seq<Round>): seq<ToolCall> {
    if rounds == [] then []
    else
      var last := rounds[|rounds| - 1];
      OpenCalls(setup, rounds[..|rounds| - 1]) + if Runs(setup, last) then last.reply.calls else []
  }

  function Identity(setup: Setup, call: ToolCall): nat {
    setup.world.identity(call.name, call.args)
  }

  /** How often the call's identity has failed, at the end of this run of calls, since it last succeeded. */
  function Streak(setup: Setup, ran: seq<ToolCall>, identity: nat): nat {
    if ran == [] then 0
    else
      var n := |ran| - 1;
      if Identity(setup, ran[n]) != identity then Streak(setup, ran[..n], identity)
      else if setup.world.tool(n).Output? then 0
      else 1 + Streak(setup, ran[..n], identity)
  }

  /** What the model is told of a call run after these others. */
  function Told(setup: Setup, ran: seq<ToolCall>, call: ToolCall): string {
    match setup.world.tool(|ran|)
    case Output(text) => Capped(text)
    case Reason(text) => FailureText(setup, call, Capped(text), 1 + Streak(setup, ran, Identity(setup, call)))
    case ToolAbort => []
  }

  function FailureText(setup: Setup, call: ToolCall, reason: string, count: nat): string {
    "tool `" + call.name + "` failed: " + reason
    + if count < REPEAT_NOTE_FROM then "" else Note(NatText(count), NatText(setup.budgets.maxRepeats))
  }

  function Note(count: string, budget: string): string {
    "\n\nThis exact call has now failed " + count
    + " times, and the same call will fail the same way. Change the arguments or the approach: after "
    + budget + " identical failures the task ends."
  }

  function Refusal(setup: Setup, closing: bool): string {
    if closing then
      "not run: your final answer is due now."
      + " Reply with only your final answer as a single JSON value in the shape the prompt asked for, and nothing else."
    else CutRefusal(NatText(if setup.maxTokens.Some? then setup.maxTokens.value else 0))
  }

  function CutRefusal(bound: string): string {
    "not run: your reply ran to the cap of " + bound
    + " tokens and was cut there, so the arguments of this call did not arrive as you wrote them. "
    + "Send smaller calls, fewer files or edits a call and each shorter, so one reply stays within the cap."
  }

  /** The text is the tool's name and its reason, and from the third failure on a note. */
  lemma FailureIsNamed(setup: Setup, call: ToolCall, reason: string, count: nat)
    ensures
      FailureText(setup, call, reason, count)
      == "tool `" + call.name + "` failed: " + reason
         + if count < 3 then "" else Note(NatText(count), NatText(setup.budgets.maxRepeats))
  {
    hide NatText, Note;
  }

  predicate Names(text: string, a: string, first: string, b: string, second: string, c: string) {
    text == a + first + b + second + c
  }

  lemma SomeNames(text: string, a: string, first: string, b: string, second: string, c: string)
    requires text == a + first + b + second + c
    ensures exists a, b, c :: Names(text, a, first, b, second, c)
  {
    assert Names(text, a, first, b, second, c);
  }

  /** The note names the count, and then the budget. */
  lemma NoteNames(count: string, budget: string)
    ensures exists a, b, c :: Names(Note(count, budget), a, count, b, budget, c)
  {
    hide Names;
    SomeNames(
      Note(count, budget), "\n\nThis exact call has now failed ", count,
      " times, and the same call will fail the same way. Change the arguments or the approach: after ", budget,
      " identical failures the task ends.");
  }

  /** A reply is cut exactly by its stop reason or a bill that reaches the bound; cut or closing rounds run nothing. */
  lemma CutExactly(setup: Setup, round: Round)
    ensures round.reply.stoppedAtMax ==> IsCut(setup, round.reply)
    ensures !round.reply.stoppedAtMax && (setup.maxTokens.None? || round.reply.spent.None?) ==>
              !IsCut(setup, round.reply)
    ensures !round.reply.stoppedAtMax && setup.maxTokens.Some? && round.reply.spent.Some? ==>
              (IsCut(setup, round.reply) <==>
               0 <= round.reply.spent.value <= 0xFFFF_FFFF && setup.maxTokens.value <= round.reply.spent.value)
    ensures Runs(setup, round) <==>
              !round.nudged && round.number != setup.budgets.maxRounds && !IsCut(setup, round.reply)
  {
  }

  /** Failures count by name and arguments: one more of the same, none after a success, and no other call's. */
  lemma StreakOfCall(setup: Setup, ran: seq<ToolCall>, call: ToolCall, name: string, args: string)
    ensures
      var (w, identity) := (setup.world, setup.world.identity(name, args));
      Streak(setup, ran + [call], identity)
      == if w.identity(call.name, call.args) != identity then Streak(setup, ran, identity)
         else if w.tool(|ran|).Output? then 0 else Streak(setup, ran, identity) + 1
  {
    StreakSnoc(setup, ran, call, setup.world.identity(name, args));
  }

  /** A refusal in a closing round says that the answer is due. */
  lemma ClosingSaysWhy(setup: Setup)
    ensures "not run: your final answer is due now." <= Refusal(setup, true)
  {
  }

  /** A refusal of a cut reply is worded for the cap it ran to. */
  lemma CutNamesItsCap(setup: Setup)
    requires setup.maxTokens.Some?
    ensures Refusal(setup, false) == CutRefusal(NatText(setup.maxTokens.value))
  {
    hide CutRefusal;
  }

  predicate Holds(text: string, a: string, named: string, c: string) {
    text == a + named + c
  }

  /** And that wording holds the cap's digits. */
  lemma CutNames(bound: string)
    ensures exists a, c :: Holds(CutRefusal(bound), a, bound, c)
  {
    hide Holds;
    SomeHolds(
      CutRefusal(bound), "not run: your reply ran to the cap of ", bound,
      " tokens and was cut there, so the arguments of this call did not arrive as you wrote them. "
      + "Send smaller calls, fewer files or edits a call and each shorter, so one reply stays within the cap.");
  }

  lemma SomeHolds(text: string, a: string, named: string, c: string)
    requires text == a + named + c
    ensures exists a, c :: Holds(text, a, named, c)
  {
    assert Holds(text, a, named, c);
  }

  function TurnsRun(setup: Setup, ran: seq<ToolCall>, calls: seq<ToolCall>): (turns: seq<Turn>)
    ensures |turns| == |calls|
  {
    if calls == [] then []
    else
      var n := |calls| - 1;
      TurnsRun(setup, ran, calls[..n]) + [Turn(calls[n].name, calls[n].args, Told(setup, ran + calls[..n], calls[n]))]
  }

  function TurnsRefused(calls: seq<ToolCall>, refusal: string): (turns: seq<Turn>)
    ensures |turns| == |calls|
  {
    seq(|calls|, k requires 0 <= k < |calls| => Turn(calls[k].name, calls[k].args, refusal))
  }

  /** The turns of one round after these calls have been run. */
  function RoundTurns(setup: Setup, ran: seq<ToolCall>, round: Round): seq<Turn> {
    if Runs(setup, round) then TurnsRun(setup, ran, round.reply.calls)
    else TurnsRefused(round.reply.calls, Refusal(setup, IsClosing(setup, round)))
  }

  /** The transcript that these rounds leave. */
  function TurnsOf(setup: Setup, rounds: seq<Round>): seq<Turn> {
    if rounds == [] then []
    else
      var (before, last) := (rounds[..|rounds| - 1], rounds[|rounds| - 1]);
      TurnsOf(setup, before) + RoundTurns(setup, OpenCalls(setup, before), last)
  }

  lemma RoundsSnoc(setup: Setup, rounds: seq<Round>, round: Round)
    ensures OpenCalls(setup, rounds + [round])
            == OpenCalls(setup, rounds) + if Runs(setup, round) then round.reply.calls else []
    ensures TurnsOf(setup, rounds + [round])
            == TurnsOf(setup, rounds) + RoundTurns(setup, OpenCalls(setup, rounds), round)
  {
    hide RoundTurns, Runs;
    assert (rounds + [round])[..|rounds|] == rounds;
  }

  lemma StreakSnoc(setup: Setup, ran: seq<ToolCall>, call: ToolCall, identity: nat)
    ensures Streak(setup, ran + [call], identity)
            == if Identity(setup, call) != identity then Streak(setup, ran, identity)
               else if setup.world.tool(|ran|).Output? then 0
               else 1 + Streak(setup, ran, identity)
  {
  }

  lemma TurnsRunSnoc(setup: Setup, ran: seq<ToolCall>, calls: seq<ToolCall>, call: ToolCall)
    ensures TurnsRun(setup, ran, calls + [call])
            == TurnsRun(setup, ran, calls) + [Turn(call.name, call.args, Told(setup, ran + calls, call))]
  {
  }

  lemma OneMoreSaid(chat: seq<Message>, calls: seq<Message>, responses: seq<Message>, r: Message)
    ensures chat + (calls + responses) + [r] == chat + (calls + (responses + [r]))
  {
  }

  // ------------------------------------------------------------------ the histories

  /** The nudges and checks of a completion, in order. */
  datatype Mark = Nudge(candidate: string) | Checked(candidate: string, verdict: CheckOutcome)

  /** What the model is told after a nudge or a rejected check. */
  function Said(w: World, mark: Mark): seq<Message> {
    match mark
    case Nudge(candidate) =>
      if w.offShape(candidate).Some? then [Assistant(candidate), User(w.offShape(candidate).value)] else []
    case Checked(candidate, verdict) =>
      if verdict.Correct? then [Assistant(candidate), User(verdict.text)] else []
  }

  function SaidAll(w: World, marks: seq<Mark>): seq<Message> {
    if marks == [] then [] else SaidAll(w, marks[..|marks| - 1]) + Said(w, marks[|marks| - 1])
  }

  lemma SaidSnoc(w: World, marks: seq<Mark>, mark: Mark)
    ensures SaidAll(w, marks + [mark]) == SaidAll(w, marks) + Said(w, mark)
  {
    assert (marks + [mark])[..|marks|] == marks;
  }

  /** What the provider is shown, and the histories as it is asked. */
  datatype Request = Request(
    chat: seq<Message>, transcript: seq<Turn>, ran: seq<ToolCall>, rounds: seq<Round>, marks: seq<Mark>
  )

  /** No call identity has used up the repeat budget. */
  ghost predicate WithinRepeats(setup: Setup, ran: seq<ToolCall>) {
    forall identity: nat :: Streak(setup, ran, identity) == 0 || Streak(setup, ran, identity) < setup.budgets.maxRepeats
  }

  ghost predicate RequestOk(setup: Setup, initial: seq<Message>, q: Request)
    requires Paired(initial)
  {
    && initial <= q.chat && Paired(q.chat)
    && TurnsIn(q.chat) == TurnsIn(initial) + q.transcript
    && Talk(q.chat) == Talk(initial) + SaidAll(setup.world, q.marks)
    && q.transcript == TurnsOf(setup, q.rounds)
    && q.ran == OpenCalls(setup, q.rounds)
    && WithinRepeats(setup, q.ran)
  }

  lemma ListsItsRounds(setup: Setup, initial: seq<Message>, q: Request)
    requires Paired(initial) && RequestOk(setup, initial, q)
    ensures q.transcript == TurnsOf(setup, q.rounds)
    ensures q.ran == OpenCalls(setup, q.rounds) && WithinRepeats(setup, q.ran)
  {
  }

  /** A round's calls and answers, appended to a chat that may be shown, leave one that may be shown. */
  lemma RoundJoins(setup: Setup, initial: seq<Message>, q: Request, round: Round, responses: seq<Message>)
    requires Paired(initial) && RequestOk(setup, initial, q)
    requires Answers(round.reply.calls, responses)
    requires PairUp(round.reply.calls, responses) == RoundTurns(setup, q.ran, round)
    requires Runs(setup, round) ==> WithinRepeats(setup, q.ran + round.reply.calls)
    ensures
      RequestOk(setup, initial, Request(
                  q.chat + ([Calls(round.reply.calls)] + responses),
                  q.transcript + RoundTurns(setup, q.ran, round),
                  q.ran + (if Runs(setup, round) then round.reply.calls else []),
                  q.rounds + [round],
                  q.marks))
  {
    hide Paired, TurnsIn, Talk, SaidAll, PairUp, Answers, RoundTurns, Runs, OpenCalls, TurnsOf, Streak;
    ExchangeIsSilent(round.reply.calls, responses);
    TalkJoins(q.chat, [Calls(round.reply.calls)] + responses);
    assert Talk(q.chat) + [] == Talk(q.chat);
    OneExchange(round.reply.calls, responses);
    PairedJoins(q.chat, [Calls(round.reply.calls)] + responses);
    RoundsSnoc(setup, q.rounds, round);
    SeqJoin(TurnsIn(initial), q.transcript, RoundTurns(setup, q.ran, round));
    assert q.ran + [] == q.ran;
  }

  /** What is said after a nudge or a rejected check, appended, changes neither the calls nor the transcript. */
  lemma SayingJoins(setup: Setup, initial: seq<Message>, q: Request, mark: Mark, candidate: string, prompt: string)
    requires Paired(initial) && RequestOk(setup, initial, q)
    requires Said(setup.world, mark) == [Assistant(candidate), User(prompt)]
    ensures
      RequestOk(setup, initial, q.(chat := q.chat + [Assistant(candidate), User(prompt)], marks := q.marks + [mark]))
  {
    hide Paired, TurnsIn, Talk, Said, SaidAll, OpenCalls, TurnsOf, Streak;
    TalkIsPaired(candidate, prompt);
    var said := [Assistant(candidate), User(prompt)];
    PairedJoins(q.chat, said);
    assert TurnsIn(q.chat) + [] == TurnsIn(q.chat);
    TalkJoins(q.chat, said);
    SaidSnoc(setup.world, q.marks, mark);
    SeqJoin(Talk(initial), SaidAll(setup.world, q.marks), said);
  }

  // --------------------------------------------- what the outside makes of a completion

  /** How many of the first n requests brought a reply, and so how many rounds there have been. */
  function Replies(w: World, n: nat): nat {
    if n == 0 then 0 else Replies(w, n - 1) + if w.provider(n - 1).Replied? then 1 else 0
  }

  /** The candidates that the first n requests brought, from replies without tool calls. */
  function Spoken(w: World, n: nat): seq<string> {
    if n == 0 then []
    else
      Spoken(w, n - 1) +
      match w.provider(n - 1)
      case Replied(reply) => if reply.calls == [] && reply.text.Some? then [w.candidate(reply.text.value)] else []
      case _ => []
  }

  /** Whether the last of these candidates was nudged: it was off the shape, and the one before had no nudge pending. */
  predicate PendingNudge(w: World, candidates: seq<string>) {
    candidates != []
    && !PendingNudge(w, candidates[..|candidates| - 1])
    && w.offShape(candidates[|candidates| - 1]).Some?
  }

  /** Whether a nudge is pending after the first n requests. */
  predicate NudgedAt(setup: Setup, n: nat) {
    setup.checking && PendingNudge(setup.world, Spoken(setup.world, n))
  }

  /** The rounds that the first n requests make: one for every reply that asks for tools. */
  function RoundsOf(setup: Setup, n: nat): seq<Round> {
    if n == 0 then []
    else
      RoundsOf(setup, n - 1) +
      match setup.world.provider(n - 1)
      case Replied(reply) =>
        if reply.calls == [] then []
        else [Round(Replies(setup.world, n), NudgedAt(setup, n - 1), n - 1, reply)]
      case _ => []
  }

  /** Requests that fail in transport change nothing. */
  lemma {:induction false} RetriesBringNothing(setup: Setup, from: nat, n: nat)
    requires from <= n && forall k | from <= k < n :: setup.world.provider(k) == TransportFailure
    ensures RoundsOf(setup, n) == RoundsOf(setup, from)
    ensures Spoken(setup.world, n) == Spoken(setup.world, from)
    ensures Replies(setup.world, n) == Replies(setup.world, from)
    decreases n
  {
    if from < n {
      RetriesBringNothing(setup, from, n - 1);
    }
  }

  /** What requests `from` up to n bring, only the last of which may have got through. */
  lemma LastBrings(setup: Setup, from: nat, n: nat)
    requires from < n && forall k | from <= k < n - 1 :: setup.world.provider(k) == TransportFailure
    ensures
      var w := setup.world;
      match w.provider(n - 1)
      case Replied(reply) =>
        && Replies(w, n) == Replies(w, from) + 1
        && Spoken(w, n)
           == Spoken(w, from)
              + (if reply.calls == [] && reply.text.Some? then [w.candidate(reply.text.value)] else [])
        && RoundsOf(setup, n)
           == RoundsOf(setup, from)
              + (if reply.calls == [] then [] else [Round(Replies(w, n), NudgedAt(setup, from), n - 1, reply)])
      case _ =>
        && Replies(w, n) == Replies(w, from) && Spoken(w, n) == Spoken(w, from)
        && RoundsOf(setup, n) == RoundsOf(setup, from)
  {
    RetriesBringNothing(setup, from, n - 1);
    hide PendingNudge;
  }

  /** Every candidate was nudged or checked, in the order they came. */
  ghost predicate Heard(w: World, marks: seq<Mark>, requests: nat) {
    seq(|marks|, k requires 0 <= k < |marks| => marks[k].candidate) == Spoken(w, requests)
  }

  lemma HeardStill(setup: Setup, marks: seq<Mark>, before: nat, requests: nat)
    requires if setup.checking then Heard(setup.world, marks, before) else marks == []
    requires Spoken(setup.world, requests) == Spoken(setup.world, before)
    ensures if setup.checking then Heard(setup.world, marks, requests) else marks == []
    ensures NudgedAt(setup, requests) == NudgedAt(setup, before)
  {
  }

  lemma HeardSnoc(w: World, marks: seq<Mark>, before: nat, requests: nat, mark: Mark)
    requires Heard(w, marks, before) && Spoken(w, requests) == Spoken(w, before) + [mark.candidate]
    ensures Heard(w, marks + [mark], requests)
  {
    var all := marks + [mark];
    var candidates := seq(|marks|, k requires 0 <= k < |marks| => marks[k].candidate);
    assert seq(|all|, k requires 0 <= k < |all| => all[k].candidate) == candidates + [mark.candidate];
  }

  /** Every nudge and check follows the ones before it. */
  ghost predicate MarksOk(w: World, marks: seq<Mark>) {
    forall k | 0 <= k < |marks| :: Follows(w, marks[..k], marks[k])
  }

  /**
    Nothing follows a check that did not ask for a correction; a nudge never
    follows a nudge and is for a candidate off the shape; a check is of a
    candidate in shape, or comes after a nudge, and its verdict is the outside's.
  */
  predicate Follows(w: World, before: seq<Mark>, mark: Mark) {
    && Open(before)
    && (mark.Nudge? ==> !Nudged(before) && w.offShape(mark.candidate).Some?)
    && (mark.Checked? ==>
          mark.verdict == w.verdict(ChecksIn(before)) && (Nudged(before) || w.offShape(mark.candidate).None?))
  }

  predicate Nudged(marks: seq<Mark>) {
    marks != [] && marks[|marks| - 1].Nudge?
  }

  /** A correction, or nothing yet, came last. */
  predicate Open(marks: seq<Mark>) {
    marks != [] && marks[|marks| - 1].Checked? ==> marks[|marks| - 1].verdict.Correct?
  }

  lemma MarkFollows(w: World, marks: seq<Mark>, mark: Mark)
    requires MarksOk(w, marks) && Follows(w, marks, mark)
    ensures MarksOk(w, marks + [mark])
  {
    hide Follows;
    var all := marks + [mark];
    forall k | 0 <= k < |all| ensures Follows(w, all[..k], all[k]) {
      assert all[..k] == if k == |marks| then marks else marks[..k];
    }
  }

  function ChecksIn(marks: seq<Mark>): nat {
    if marks == [] then 0 else ChecksIn(marks[..|marks| - 1]) + if marks[|marks| - 1].Checked? then 1 else 0
  }

  lemma ChecksSnoc(marks: seq<Mark>, mark: Mark)
    ensures ChecksIn(marks + [mark]) == ChecksIn(marks) + if mark.Checked? then 1 else 0
  {
  }

  lemma {:induction false} PendingByMarks(w: World, marks: seq<Mark>, candidates: seq<string>)
    requires MarksOk(w, marks) && |marks| == |candidates|
    requires forall k | 0 <= k < |marks| :: marks[k].candidate == candidates[k]
    ensures PendingNudge(w, candidates) == Nudged(marks)
  {
    if marks != [] {
      var n := |marks| - 1;
      assert Follows(w, marks[..n], marks[n]);
      forall k | 0 <= k < n ensures Follows(w, marks[..n][..k], marks[..n][k]) {
        assert marks[..n][..k] == marks[..k];
      }
      PendingByMarks(w, marks[..n], candidates[..n]);
    }
  }

  /** The marks agree with the candidates on whether a nudge is pending. */
  lemma NudgedNow(setup: Setup, marks: seq<Mark>, requests: nat)
    requires setup.checking && MarksOk(setup.world, marks) && Heard(setup.world, marks, requests)
    ensures NudgedAt(setup, requests) == Nudged(marks)
  {
    var candidates := seq(|marks|, k requires 0 <= k < |marks| => marks[k].candidate);
    assert |candidates| == |marks| && candidates == Spoken(setup.world, requests);
    PendingByMarks(setup.world, marks, candidates);
  }

  /** The n-th request is what the outside has made of the completion before it. */
  ghost predicate Fit(setup: Setup, initial: seq<Message>, q: Request, n: nat)
    requires Paired(initial)
  {
    && RequestOk(setup, initial, q)
    && q.rounds == RoundsOf(setup, n)
    && if setup.checking then Heard(setup.world, q.marks, n) else q.marks == []
  }

  /** The histories and the nudge flag are what the outside has made of them in this many requests. */
  ghost predicate InStep(setup: Setup, round: nat, requests: nat, rounds: seq<Round>, marks: seq<Mark>, nudged: bool) {
    && round == Replies(setup.world, requests)
    && rounds == RoundsOf(setup, requests)
    && (if setup.checking then Heard(setup.world, marks, requests) else marks == [])
    && nudged == NudgedAt(setup, requests)
  }

  lemma InStepMeans(setup: Setup, round: nat, requests: nat, rounds: seq<Round>, marks: seq<Mark>, nudged: bool)
    requires InStep(setup, round, requests, rounds, marks, nudged)
    ensures round == Replies(setup.world, requests) && rounds == RoundsOf(setup, requests)
    ensures if setup.checking then Heard(setup.world, marks, requests) else marks == []
  {
  }

  lemma MarkedNow(setup: Setup, round: nat, requests: nat, rounds: seq<Round>, marks: seq<Mark>, nudged: bool)
    requires round == Replies(setup.world, requests) && rounds == RoundsOf(setup, requests)
    requires setup.checking && MarksOk(setup.world, marks) && Heard(setup.world, marks, requests)
    requires nudged == Nudged(marks)
    ensures InStep(setup, round, requests, rounds, marks, nudged)
  {
    NudgedNow(setup, marks, requests);
  }

  lemma FitNow(setup: Setup, initial: seq<Message>, q: Request, round: nat, requests: nat, nudged: bool)
    requires Paired(initial) && RequestOk(setup, initial, q)
    requires InStep(setup, round, requests, q.rounds, q.marks, nudged)
    ensures Fit(setup, initial, q, requests)
  {
  }

  /** What one more round's requests have brought: a reply with tool calls, one without, or none. */
  ghost predicate Brought(setup: Setup, round: nat, from: nat, n: nat, rounds: seq<Round>, marks: seq<Mark>,
                          nudged: bool, answered: Result<Reply, Error>)
  {
    var w := setup.world;
    match answered
    case Ok(reply) =>
      && n > 0 && w.provider(n - 1) == Replied(reply)
      && if reply.calls != [] then
           && Spoken(w, n) == Spoken(w, from)
           && InStep(setup, round + 1, n, rounds + [Round(round + 1, nudged, n - 1, reply)], marks, nudged)
         else
           && Spoken(w, n)
              == Spoken(w, from) + (if reply.text.Some? then [w.candidate(reply.text.value)] else [])
           && round + 1 == Replies(w, n) && rounds == RoundsOf(setup, n)
    case Err(error) =>
      && error == ProviderFailed && n > 0 && !w.provider(n - 1).Replied?
      && Spoken(w, n) == Spoken(w, from) && round == Replies(w, n) && rounds == RoundsOf(setup, n)
  }

  lemma OneMoreRound(setup: Setup, round: nat, from: nat, n: nat, rounds: seq<Round>, marks: seq<Mark>, nudged: bool,
                     answered: Result<Reply, Error>)
    requires InStep(setup, round, from, rounds, marks, nudged)
    requires from < n && forall k | from <= k < n - 1 :: setup.world.provider(k) == TransportFailure
    requires if setup.world.provider(n - 1).Replied? then answered == Ok(setup.world.provider(n - 1).reply)
             else answered == Err(ProviderFailed)
    ensures Brought(setup, round, from, n, rounds, marks, nudged, answered)
  {
    LastBrings(setup, from, n);
    hide Spoken, Replies, RoundsOf, PendingNudge;
    if Spoken(setup.world, n) == Spoken(setup.world, from) {
      HeardStill(setup, marks, from, n);
    }
  }

  /** The same request put again, after a transport failure, is as fit as it was. */
  lemma FitAgain(setup: Setup, initial: seq<Message>, q: Request, n: nat)
    requires Paired(initial) && Fit(setup, initial, q, n) && setup.world.provider(n) == TransportFailure
    ensures Fit(setup, initial, q, n + 1)
  {
    hide RequestOk, Paired;
    RetriesBringNothing(setup, n, n + 1);
  }

  ghost predicate AllFit(setup: Setup, initial: seq<Message>, asked: seq<Request>)
    requires Paired(initial)
  {
    forall k | 0 <= k < |asked| :: Fit(setup, initial, asked[k], k)
  }

  lemma OneMoreFit(setup: Setup, initial: seq<Message>, asked: seq<Request>, q: Request)
    requires Paired(initial) && AllFit(setup, initial, asked) && Fit(setup, initial, q, |asked|)
    ensures AllFit(setup, initial, asked + [q])
  {
    hide Fit;
  }

  // ------------------------------------------------------------------- conversation

  /** There are never more nudges than checks, save one whose check is still to come. */
  lemma {:induction false} NudgesAreBounded(w: World, marks: seq<Mark>)
    requires MarksOk(w, marks)
    ensures |marks| - ChecksIn(marks) <= ChecksIn(marks) + if Nudged(marks) then 1 else 0
  {
    if marks != [] {
      var front := marks[..|marks| - 1];
      assert Follows(w, front, marks[|marks| - 1]);
      forall k | 0 <= k < |front| ensures Follows(w, front[..k], front[k]) {
        assert front[..k] == marks[..k];
      }
      NudgesAreBounded(w, front);
    }
  }

  /** The failure counts are the streaks of the calls run so far. */
  ghost predicate Tallied(setup: Setup, ran: seq<ToolCall>, repeats: map<nat, nat>) {
    forall identity: nat :: Streak(setup, ran, identity) == if identity in repeats then repeats[identity] else 0
  }

  /** Some call has used up the repeat budget. */
  ghost predicate OverRepeats(setup: Setup, ran: seq<ToolCall>) {
    exists identity: nat :: 0 < Streak(setup, ran, identity) && setup.budgets.maxRepeats <= Streak(setup, ran, identity)
  }

  /** The provider's latest reply is this text and no tool calls. */
  predicate Spoke(setup: Setup, requests: nat, text: string) {
    && 0 < requests
    && var outcome := setup.world.provider(requests - 1);
    outcome.Replied? && outcome.reply.text == Some(text) && outcome.reply.calls == []
  }

  /** What each error means has happened. */
  ghost predicate Caused(setup: Setup, error: Error, requests: nat, ran: seq<ToolCall>) {
    match error
    case ProviderFailed => requests > 0 && !setup.world.provider(requests - 1).Replied?
    case NoContent =>
      && requests > 0 && setup.world.provider(requests - 1).Replied?
      && var reply := setup.world.provider(requests - 1).reply;
      reply.text == None && reply.calls == []
    case ToolAborted => ran != [] && setup.world.tool(|ran| - 1).ToolAbort?
    case BudgetExhausted => OverRepeats(setup, ran)
    case CheckAborted => false
  }

  /** Rounds, requests and checks keep to their budgets, and every request was fit to be made. */
  ghost predicate InBudget(setup: Setup, initial: seq<Message>, round: nat, requests: nat, asked: seq<Request>,
                           candidates: nat, marks: seq<Mark>)
    requires Paired(initial)
  {
    && round <= setup.budgets.maxRounds
    && round <= |asked| == requests <= 4 * round
    && AllFit(setup, initial, asked)
    && ChecksIn(marks) == candidates && MarksOk(setup.world, marks)
  }

  /** How a call run after these others ends: with what the model is told, or ending the completion. */
  function Ending(setup: Setup, ran: seq<ToolCall>, call: ToolCall): Result<string, Error> {
    var outcome := setup.world.tool(|ran|);
    if outcome.ToolAbort? then Err(ToolAborted)
    else if outcome.Reason? && setup.budgets.maxRepeats <= 1 + Streak(setup, ran, Identity(setup, call)) then
      Err(BudgetExhausted)
    else Ok(Told(setup, ran, call))
  }

  /** A call whose output is at most 64 KiB ends with that output. */
  lemma ShortIsTold(setup: Setup, ran: seq<ToolCall>, call: ToolCall)
    ensures
      var outcome := setup.world.tool(|ran|);
      outcome.Output? && ByteLength(outcome.text) <= 65536 ==> Ending(setup, ran, call) == Ok(outcome.text)
  {
    hide Capped, ByteLength, Streak, FailureText;
    var outcome := setup.world.tool(|ran|);
    if outcome.Output? && ByteLength(outcome.text) <= 65536 {
      CappedKeepsShort(outcome.text);
    }
  }

  /** These calls have been run and answered since the request, in order. */
  ghost predicate RunSoFar(setup: Setup, before: Request, done: seq<ToolCall>, responses: seq<Message>,
                           ran: seq<ToolCall>, transcript: seq<Turn>)
  {
    && ran == before.ran + done
    && Answers(done, responses)
    && PairUp(done, responses) == TurnsRun(setup, before.ran, done)
    && transcript == before.transcript + TurnsRun(setup, before.ran, done)
  }

  lemma NoneRunYet(setup: Setup, before: Request, calls: seq<ToolCall>)
    ensures RunSoFar(setup, before, calls[..0], [], before.ran, before.transcript)
  {
  }

  lemma OneMoreRun(setup: Setup, before: Request, calls: seq<ToolCall>, i: nat, responses: seq<Message>,
                   ran: seq<ToolCall>, transcript: seq<Turn>)
    requires i < |calls| && RunSoFar(setup, before, calls[..i], responses, ran, transcript)
    ensures ran + [calls[i]] <= before.ran + calls
    ensures
      var (call, end) := (calls[i], Ending(setup, ran, calls[i]));
      end.Ok? ==>
        RunSoFar(setup, before, calls[..i + 1], responses + [Response(call.id, end.value)], ran + [call],
                 transcript + [Turn(call.name, call.args, end.value)])
  {
    hide Answers, PairUp, TurnsRun, Told;
    var call, text := calls[i], Told(setup, ran, calls[i]);
    assert calls[..i + 1] == calls[..i] + [call] && calls == calls[..i + 1] + calls[i + 1..];
    TurnsRunSnoc(setup, before.ran, calls[..i], call);
    PairUpSnoc(calls[..i], responses, call, text);
    SeqJoin(before.ran, calls[..i], [call]);
    SeqJoin(before.transcript, TurnsRun(setup, before.ran, calls[..i]), [Turn(call.name, call.args, text)]);
  }

  lemma AllRun(setup: Setup, initial: seq<Message>, before: Request, round: Round, responses: seq<Message>,
               ran: seq<ToolCall>, transcript: seq<Turn>)
    requires Paired(initial) && RequestOk(setup, initial, before) && Runs(setup, round)
    requires RunSoFar(setup, before, round.reply.calls, responses, ran, transcript) && WithinRepeats(setup, ran)
    ensures
      RequestOk(setup, initial, Request(
                  before.chat + ([Calls(round.reply.calls)] + responses),
                  transcript, ran, before.rounds + [round], before.marks))
    ensures ran == before.ran + round.reply.calls
  {
    hide RequestOk, Answers, PairUp, TurnsRun, WithinRepeats;
    RoundJoins(setup, initial, before, round, responses);
  }

  /** The candidate budget is used up by a check that asked for a correction. */
  predicate OutOfCandidates(setup: Setup, candidates: nat, marks: seq<Mark>) {
    && marks != [] && marks[|marks| - 1].Checked? && marks[|marks| - 1].verdict.Correct?
    && setup.budgets.maxCandidates <= candidates
  }

  /** A chat as it is given, before anything is asked, is fit to be shown. */
  lemma NothingAsked(setup: Setup, chat: seq<Message>)
    requires Paired(chat)
    ensures RequestOk(setup, chat, Request(chat, [], [], [], []))
    ensures InBudget(setup, chat, 0, 0, [], 0, [])
    ensures Tallied(setup, [], map[]) && RoundsOf(setup, 0) == [] && Heard(setup.world, [], 0)
    ensures Replies(setup.world, 0) == 0
  {
    hide Paired, TurnsIn, Talk;
    assert TurnsIn(chat) + [] == TurnsIn(chat) && Talk(chat) + [] == Talk(chat);
  }

  datatype Answer = Answer(text: string, transcript: seq<Turn>)

  datatype Error = ProviderFailed | ToolAborted | CheckAborted | NoContent | BudgetExhausted

  class Conversation {
    const setup: Setup

    var chat: seq<Message>
    var round: nat
    var candidates: nat
    // consecutive failures per call identity
    var repeats: map<nat, nat>
    var nudged: bool
    var transcript: seq<Turn>

    // how often the outside has been called
    var requests: nat
    var invocations: nat

    // histories
    ghost const initial: seq<Message>
    ghost var ran: seq<ToolCall>
    ghost var rounds: seq<Round>
    ghost var asked: seq<Request>
    ghost var marks: seq<Mark>

    constructor (setup: Setup, chat: seq<Message>)
      requires Paired(chat)
      ensures Valid()
      ensures this.setup == setup && initial == chat
      ensures round == 0 && requests == 0 && candidates == 0 && asked == [] && marks == [] && ran == []
    {
      hide Paired, RequestOk, InBudget, Tallied, RoundsOf, Replies, Heard;
      NothingAsked(setup, chat);
      this.setup := setup;
      this.chat, this.round, this.candidates, this.repeats, this.nudged := chat, 0, 0, map[], false;
      this.transcript, this.requests, this.invocations := [], 0, 0;
      this.initial, this.ran, this.rounds, this.asked, this.marks := chat, [], [], [], [];
    }

    /** What holds even after the conversation has failed. */
    ghost predicate Bounded()
      reads this
    {
      && Paired(initial)
      && InBudget(setup, initial, round, requests, asked, candidates, marks)
      && ran <= OpenCalls(setup, rounds) && |ran| == invocations
    }

    /** What must hold whenever the provider is asked. */
    ghost predicate Presentable()
      reads this
    {
      && Bounded() && Tallied(setup, ran, repeats)
      && RequestOk(setup, initial, Now())
    }

    /** The state between two turns of the main loop. */
    ghost predicate Valid()
      reads this
    {
      && Presentable() && UpToDate()
      && nudged == Nudged(marks) && Open(marks)
      && (candidates == 0 || candidates < setup.budgets.maxCandidates)
    }

    /** The histories and the nudge flag are what the outside has made of them so far. */
    ghost predicate UpToDate()
      reads this
    {
      InStep(setup, round, requests, rounds, marks, nudged)
    }

    ghost function Now(): Request
      reads this
    {
      Request(chat, transcript, ran, rounds, marks)
    }

    /** A provider request with its transport retries. */
    method ExecChat() returns (r: Result<Reply, Error>)
      requires Paired(initial) && |asked| == requests
      requires AllFit(setup, initial, asked) && Fit(setup, initial, Now(), requests)
      modifies this`requests, this`asked
      ensures |asked| == requests && AllFit(setup, initial, asked)
      ensures old(requests) < requests <= old(requests) + 4
      ensures old(asked) <= asked && forall k | |old(asked)| <= k < |asked| :: asked[k] == old(Now())
      ensures forall k | old(requests) <= k < requests - 1 :: setup.world.provider(k) == TransportFailure
      ensures match setup.world.provider(requests - 1)
              case Replied(reply) => r == Ok(reply)
              case ProviderFailure => r == Err(ProviderFailed)
              case TransportFailure => r == Err(ProviderFailed) && requests == old(requests) + 4
    {
      hide Paired, Fit, AllFit;
      var waits := 0;
      while true
        invariant waits <= TRANSPORT_RETRIES && requests == old(requests) + waits
        invariant |asked| == requests && AllFit(setup, initial, asked) && Fit(setup, initial, Now(), requests)
        invariant old(asked) <= asked && forall k | |old(asked)| <= k < |asked| :: asked[k] == old(Now())
        invariant forall k | old(requests) <= k < requests :: setup.world.provider(k) == TransportFailure
        decreases TRANSPORT_RETRIES - waits
      {
        OneMoreFit(setup, initial, asked, Now());
        asked := asked + [Now()];
        var outcome := setup.world.provider(requests);
        requests := requests + 1;
        if outcome.Replied? {
          return Ok(outcome.reply);
        }
        if outcome.ProviderFailure? || waits == TRANSPORT_RETRIES {
          return Err(ProviderFailed);
        }
        FitAgain(setup, initial, Now(), requests - 1);
        waits := waits + 1;
      }
    }

    function Closing(): (closing: bool)
      reads this
    {
      nudged || round == setup.budgets.maxRounds
    }

    /** Counts a failure; over the repeat budget it ends the completion. */
    method Failed(call: ToolCall, reason: string) returns (r: Result<string, Error>)
      modifies this`repeats
      ensures
        var identity := Identity(setup, call);
        var count := 1 + if identity in old(repeats) then old(repeats)[identity] else 0;
        && repeats == old(repeats)[identity := count]
        && r == if setup.budgets.maxRepeats <= count then Err(BudgetExhausted)
                else Ok(FailureText(setup, call, reason, count))
    {
      var identity := Identity(setup, call);
      var count := (if identity in repeats then repeats[identity] else 0) + 1;
      repeats := repeats[identity := count];
      if setup.budgets.maxRepeats <= count {
        return Err(BudgetExhausted);
      }
      return Ok(FailureText(setup, call, reason, count));
    }

    /** Runs one call and words its result. */
    method Invoke(call: ToolCall) returns (r: Result<string, Error>)
      requires Tallied(setup, ran, repeats) && |ran| == invocations
      modifies this`repeats, this`invocations, this`ran
      ensures ran == old(ran) + [call] && |ran| == invocations
      ensures r != Err(ToolAborted) ==> Tallied(setup, ran, repeats)
      ensures r == Ending(setup, old(ran), call)
      ensures var outcome := setup.world.tool(|old(ran)|);
              outcome.Output? && ByteLength(outcome.text) <= 65536 ==> r == Ok(outcome.text)
      ensures r.Ok? && WithinRepeats(setup, old(ran)) ==> WithinRepeats(setup, ran)
      ensures r.Err? ==> Caused(setup, r.error, requests, ran) && (r.error.ToolAborted? || r.error.BudgetExhausted?)
    {
      hide Capped, FailureText, ByteLength;
      ShortIsTold(setup, ran, call);
      var outcome := setup.world.tool(invocations);
      ghost var before := ran;
      var identity := Identity(setup, call);
      invocations, ran := invocations + 1, ran + [call];
      forall i: nat ensures Streak(setup, ran, i)
                            == if i != identity then Streak(setup, before, i)
                               else if outcome.Output? then 0 else 1 + Streak(setup, before, i)
      {
        StreakSnoc(setup, before, call, i);
      }
      hide Streak;
      match outcome
      case ToolAbort => r := Err(ToolAborted);
      case Output(text) =>
        repeats := repeats - {identity};
        r := Ok(Capped(text));
      case Reason(text) =>
        r := Failed(call, Capped(text));
        assert Streak(setup, ran, identity) == repeats[identity];
    }

    /** Runs a round's calls in order, answering each. */
    method ToolRound(ghost record: Round, calls: seq<ToolCall>) returns (r: Result<(), Error>)
      requires Presentable() && Runs(setup, record) && calls == record.reply.calls
      modifies this`chat, this`transcript, this`repeats, this`invocations, this`ran, this`rounds
      ensures Bounded() && rounds == old(rounds) + [record]
      ensures r.Ok? ==> Presentable() && ran == old(ran) + calls
      ensures r.Err? ==> Caused(setup, r.error, requests, ran) && (r.error.ToolAborted? || r.error.BudgetExhausted?)
    {
      hide Paired, RequestOk, OpenCalls, TurnsOf, Streak, Told, Runs, InBudget, Caused;
      hide WithinRepeats, Tallied, Ending;
      ghost var before := Now();
      ghost var responses: seq<Message> := [];
      ListsItsRounds(setup, initial, before);
      RoundsSnoc(setup, before.rounds, record);
      NoneRunYet(setup, before, calls);
      hide RunSoFar;
      var talk := chat + [Calls(calls)];
      chat := [];
      rounds := rounds + [record];
      var i := 0;
      while i < |calls|
        invariant i <= |calls| && rounds == before.rounds + [record]
        invariant Tallied(setup, ran, repeats) && |ran| == invocations && WithinRepeats(setup, ran)
        invariant talk == before.chat + ([Calls(calls)] + responses)
        invariant RunSoFar(setup, before, calls[..i], responses, ran, transcript)
      {
        var call := calls[i];
        OneMoreRun(setup, before, calls, i, responses, ran, transcript);
        var result := Invoke(call);
        if result.Err? {
          return Err(result.error);
        }
        transcript := transcript + [Turn(call.name, call.args, result.value)];
        OneMoreSaid(before.chat, [Calls(calls)], responses, Response(call.id, result.value));
        responses := responses + [Response(call.id, result.value)];
        talk := talk + [Response(call.id, result.value)];
        i := i + 1;
      }
      assert calls[..i] == calls;
      chat := talk;
      AllRun(setup, initial, before, record, responses, ran, transcript);
      return Ok(());
    }

    /** Answers a round's calls with a refusal; none is run. */
    method Refuse(ghost record: Round, calls: seq<ToolCall>, refusal: string)
      requires Presentable() && !Runs(setup, record) && calls == record.reply.calls
      requires refusal == Refusal(setup, IsClosing(setup, record))
      modifies this`chat, this`transcript, this`rounds
      ensures Bounded() && Presentable() && rounds == old(rounds) + [record]
    {
      hide Paired, TurnsIn, OpenCalls, TurnsOf, Streak, Runs, InBudget, TurnsRun, Refusal, IsClosing;
      ghost var before := Now();
      ghost var responses: seq<Message> := [];
      var talk := chat + [Calls(calls)];
      rounds := rounds + [record];
      RoundsSnoc(setup, before.rounds, record);
      var i := 0;
      while i < |calls|
        invariant i <= |calls| && rounds == before.rounds + [record]
        invariant Answers(calls[..i], responses)
        invariant talk == before.chat + ([Calls(calls)] + responses)
        invariant PairUp(calls[..i], responses) == TurnsRefused(calls, refusal)[..i]
        invariant transcript == before.transcript + TurnsRefused(calls, refusal)[..i]
      {
        var call := calls[i];
        transcript := transcript + [Turn(call.name, call.args, refusal)];
        responses := responses + [Response(call.id, refusal)];
        talk := talk + [Response(call.id, refusal)];
        i := i + 1;
      }
      assert calls[..i] == calls;
      chat := talk;
      RoundJoins(setup, initial, before, record, responses);
    }

    /** Runs a round's calls, or refuses them when an answer is due or the reply was cut. */
    method Dispatch(ghost record: Round, reply: Reply, closing: bool) returns (r: Result<(), Error>)
      requires Presentable() && record.reply == reply && closing == IsClosing(setup, record)
      modifies this`chat, this`transcript, this`repeats, this`invocations, this`ran, this`rounds
      ensures Bounded() && rounds == old(rounds) + [record]
      ensures r.Ok? ==> Presentable()
      ensures r.Err? ==> Caused(setup, r.error, requests, ran)
    {
      hide Presentable, Bounded, RequestOk, IsCut, Caused, Refusal;
      if closing {
        Refuse(record, reply.calls, Refusal(setup, true));
      } else if IsCut(setup, reply) {
        Refuse(record, reply.calls, Refusal(setup, false));
      } else {
        r := ToolRound(record, reply.calls);
        return;
      }
      return Ok(());
    }

    /** Puts the chat to the provider as one more round. */
    method Ask() returns (closing: bool, answered: Result<Reply, Error>)
      requires Presentable() && UpToDate() && round < setup.budgets.maxRounds
      modifies this`round, this`requests, this`asked
      ensures Presentable() && round == old(round) + 1 && old(asked) <= asked
      ensures closing == Closing()
      ensures Brought(setup, old(round), old(requests), requests, rounds, marks, nudged, answered)
    {
      hide Paired, OpenCalls, RequestOk, MarksOk, ChecksIn, InStep, Tallied, Fit, AllFit, Brought;
      FitNow(setup, initial, Now(), round, requests, nudged);
      ghost var spent := requests;
      round := round + 1;
      closing := Closing();
      answered := ExecChat();
      OneMoreRound(setup, round - 1, spent, requests, rounds, marks, nudged, answered);
    }

    /** The next reply without tool calls, or none once the rounds are used up. */
    method NextReply() returns (r: Result<Option<string>, Error>)
      requires Presentable() && UpToDate()
      modifies this`chat, this`transcript, this`repeats, this`invocations, this`ran, this`rounds
      modifies this`round, this`requests, this`asked
      ensures Bounded() && (r.Ok? ==> Presentable())
      ensures r.Ok? ==> transcript == TurnsOf(setup, rounds) && ran == OpenCalls(setup, rounds)
      ensures rounds == RoundsOf(setup, requests)
      ensures round == Replies(setup.world, requests) + if r == Err(ProviderFailed) then 1 else 0
      ensures Spoken(setup.world, requests)
              == Spoken(setup.world, old(requests))
                 + if r.Ok? && r.value.Some? then [setup.world.candidate(r.value.value)] else []
      ensures old(round) <= round <= setup.budgets.maxRounds && old(asked) <= asked
      ensures r == Ok(None) ==> round == setup.budgets.maxRounds
      ensures r.Ok? && r.value.Some? ==> old(round) < round && Spoke(setup, requests, r.value.value)
      ensures r.Err? ==> Caused(setup, r.error, requests, ran)
      decreases setup.budgets.maxRounds - round
    {
      hide Paired, OpenCalls, RequestOk, MarksOk, ChecksIn, InStep, Spoken, Replies, RoundsOf, Tallied;
      hide TurnsOf, IsCut, AllFit;
      while round < setup.budgets.maxRounds
        invariant Presentable() && UpToDate()
        invariant Spoken(setup.world, requests) == Spoken(setup.world, old(requests))
        invariant old(round) <= round && old(asked) <= asked
        decreases setup.budgets.maxRounds - round
      {
        var closing, answered := Ask();
        if answered.Err? {
          return Err(answered.error);
        }
        var reply := answered.value;
        if reply.calls != [] {
          var done := Dispatch(Round(round, nudged, requests - 1, reply), reply, closing);
          InStepMeans(setup, round, requests, rounds, marks, nudged);
          if done.Err? {
            return Err(done.error);
          }
        } else if reply.text.None? {
          return Err(NoContent);
        } else {
          ListsItsRounds(setup, initial, Now());
          return Ok(Some(reply.text.value));
        }
      }
      InStepMeans(setup, round, requests, rounds, marks, nudged);
      ListsItsRounds(setup, initial, Now());
      return Ok(None);
    }

    /**
      The whole completion. It ends, whatever the outside does; an answer is the
      candidate of the provider's latest reply, accepted by the latest check where
      one is asked for; and a budget error means that a budget is used up.
    */
    method Run() returns (r: Result<Answer, Error>)
      requires Valid()
      modifies this
      ensures Bounded()
      ensures candidates <= setup.budgets.maxCandidates || candidates <= 1
      ensures r.Ok? ==>
                && (exists text :: Spoke(setup, requests, text) && r.value.text == setup.world.candidate(text))
                && r.value.transcript == TurnsOf(setup, rounds) && ran == OpenCalls(setup, rounds)
                && (setup.checking ==> marks != [] && marks[|marks| - 1] == Checked(r.value.text, Accept))
      ensures if setup.checking then Heard(setup.world, marks, requests) else marks == []
      ensures rounds == RoundsOf(setup, requests)
      ensures round == Replies(setup.world, requests) + if r == Err(ProviderFailed) then 1 else 0
      ensures r.Err? ==>
                || Caused(setup, r.error, requests, ran)
                || (r.error.BudgetExhausted?
                    && (round == setup.budgets.maxRounds || OutOfCandidates(setup, candidates, marks)))
                || (r.error.CheckAborted? && marks != []
                    && marks[|marks| - 1].Checked? && marks[|marks| - 1].verdict.CheckAbort?)
    {
      hide Paired, TurnsIn, OpenCalls, TurnsOf, Streak, Runs, RequestOk, MarksOk, ChecksIn, Tallied;
      hide Caused, Spoke, Follows, Bounded, Presentable, RoundsOf, Replies, Heard, Spoken, InStep;
      while true
        invariant Valid()
        decreases setup.budgets.maxRounds - round
      {
        ghost var spent := requests;
        InStepMeans(setup, round, requests, rounds, marks, nudged);
        var reply := NextReply();
        if reply.Err? || reply.value.None? {
          HeardStill(setup, marks, spent, requests);
        }
        if reply.Err? {
          return Err(reply.error);
        }
        if reply.value.None? {
          return Err(BudgetExhausted);
        }
        var candidate := setup.world.candidate(reply.value.value);
        if !setup.checking {
          r := Finish(candidate);
          return;
        }
        var fault := setup.world.offShape(candidate);
        if !nudged && fault.Some? {
          HeardSnoc(setup.world, marks, spent, requests, Nudge(candidate));
          NudgeOnce(candidate, fault.value);
          MarkedNow(setup, round, requests, rounds, marks, nudged);
          continue;
        }
        HeardSnoc(setup.world, marks, spent, requests, Checked(candidate, setup.world.verdict(candidates)));
        ghost var before := Now();
        var verdict := Judge(candidate);
        match verdict {
          case Accept =>
            r := Finish(candidate);
            return;
          case CheckAbort => return Err(CheckAborted);
          case Correct(correction) =>
            if setup.budgets.maxCandidates <= candidates || round == setup.budgets.maxRounds {
              return Err(BudgetExhausted);
            }
            Retry(before, candidate, correction);
            MarkedNow(setup, round, requests, rounds, marks, nudged);
        }
      }
    }

    /** Hands the candidate to the check. */
    method Judge(candidate: string) returns (verdict: CheckOutcome)
      requires Presentable() && Open(marks) && (Nudged(marks) || setup.world.offShape(candidate).None?)
      modifies this`candidates, this`marks
      ensures Bounded() && RequestOk(setup, initial, old(Now())) && Tallied(setup, ran, repeats)
      ensures candidates == old(candidates) + 1
      ensures verdict == setup.world.verdict(old(candidates)) && marks == old(marks) + [Checked(candidate, verdict)]
    {
      hide Paired, RequestOk, MarksOk, ChecksIn, Tallied, OpenCalls;
      verdict := setup.world.verdict(candidates);
      MarkFollows(setup.world, marks, Checked(candidate, verdict));
      ChecksSnoc(marks, Checked(candidate, verdict));
      candidates, marks := candidates + 1, marks + [Checked(candidate, verdict)];
    }

    /** Tells the model what is wrong with the shape of its candidate. */
    method NudgeOnce(candidate: string, prompt: string)
      requires Presentable() && Open(marks) && !Nudged(marks) && setup.world.offShape(candidate) == Some(prompt)
      modifies this`nudged, this`marks, this`chat
      ensures Presentable() && MarksOk(setup.world, marks)
      ensures chat == old(chat) + [Assistant(candidate), User(prompt)]
      ensures nudged && marks == old(marks) + [Nudge(candidate)]
    {
      hide Paired, RequestOk, MarksOk, ChecksIn, Tallied, OpenCalls;
      ghost var before := Now();
      MarkFollows(setup.world, marks, Nudge(candidate));
      ChecksSnoc(marks, Nudge(candidate));
      nudged, marks := true, marks + [Nudge(candidate)];
      Append(before, Nudge(candidate), candidate, prompt);
    }

    /** Gives the model the check's correction. */
    method Retry(ghost before: Request, candidate: string, correction: string)
      requires Bounded() && Tallied(setup, ran, repeats) && RequestOk(setup, initial, before)
      requires Now() == before.(marks := before.marks + [Checked(candidate, Correct(correction))])
      modifies this`nudged, this`chat
      ensures Presentable() && MarksOk(setup.world, marks) && !nudged
      ensures chat == old(chat) + [Assistant(candidate), User(correction)]
    {
      hide Paired, RequestOk, MarksOk, ChecksIn, Tallied, OpenCalls;
      nudged := false;
      Append(before, Checked(candidate, Correct(correction)), candidate, correction);
    }

    /** Shows the model its own candidate and the user's prompt about it. */
    method Append(ghost before: Request, ghost mark: Mark, candidate: string, prompt: string)
      requires Paired(initial) && RequestOk(setup, initial, before) && Now() == before.(marks := before.marks + [mark])
      requires Said(setup.world, mark) == [Assistant(candidate), User(prompt)]
      modifies this`chat
      ensures chat == old(chat) + [Assistant(candidate), User(prompt)]
      ensures RequestOk(setup, initial, Now())
    {
      SayingJoins(setup, initial, before, mark, candidate, prompt);
      chat := chat + [Assistant(candidate), User(prompt)];
    }

    /** The answer, with the transcript taken from the conversation. */
    method Finish(text: string) returns (r: Result<Answer, Error>)
      requires Bounded()
      modifies this`transcript
      ensures Bounded() && r == Ok(Answer(text, old(transcript)))
    {
      r := Ok(Answer(text, transcript));
      transcript := [];
    }
  }

  // --------------------------------------------------------- the candidate budget

  /** The provider always gives a candidate in shape, the tools work, and the check always rejects. */
  ghost predicate AlwaysRejects(w: World) {
    && (forall n: nat ::
          w.provider(n).Replied? && w.provider(n).reply.text.Some? && w.provider(n).reply.calls == [])
    && (forall n: nat :: w.tool(n).Output?)
    && (forall n: nat :: w.verdict(n).Correct?)
    && (forall c: string :: w.offShape(c).None?)
  }

  lemma {:induction false} AlwaysSpeaks(w: World, n: nat)
    requires AlwaysRejects(w)
    ensures |Spoken(w, n)| == n
  {
    if n > 0 {
      AlwaysSpeaks(w, n - 1);
    }
  }

  lemma {:induction false} AllAreChecked(w: World, marks: seq<Mark>)
    requires AlwaysRejects(w) && MarksOk(w, marks)
    ensures ChecksIn(marks) == |marks|
    ensures forall k | 0 <= k < |marks| :: marks[k].Checked? && marks[k].verdict.Correct?
  {
    if marks != [] {
      var n := |marks| - 1;
      assert Follows(w, marks[..n], marks[n]);
      forall k | 0 <= k < n ensures Follows(w, marks[..n][..k], marks[..n][k]) {
        assert marks[..n][..k] == marks[..k];
      }
      AllAreChecked(w, marks[..n]);
    }
  }

  lemma {:induction false} NothingFails(setup: Setup, ran: seq<ToolCall>, identity: nat)
    requires AlwaysRejects(setup.world)
    ensures Streak(setup, ran, identity) == 0
  {
    if ran != [] {
      NothingFails(setup, ran[..|ran| - 1], identity);
    }
  }

  /** Whatever else happens to it, such a completion ends for want of rounds or candidates. */
  lemma RejectionsEnd(setup: Setup, requests: nat, ran: seq<ToolCall>, error: Error)
    requires AlwaysRejects(setup.world)
    ensures !Caused(setup, error, requests, ran)
  {
    forall identity: nat ensures Streak(setup, ran, identity) == 0 {
      NothingFails(setup, ran, identity);
    }
  }

  lemma ChecksAreRequests(setup: Setup, requests: nat, marks: seq<Mark>)
    requires AlwaysRejects(setup.world) && MarksOk(setup.world, marks) && Heard(setup.world, marks, requests)
    ensures ChecksIn(marks) == |marks| == requests
    ensures forall mark | mark in marks :: mark.Checked? && mark.verdict.Correct?
  {
    AlwaysSpeaks(setup.world, requests);
    AllAreChecked(setup.world, marks);
    assert |seq(|marks|, k requires 0 <= k < |marks| => marks[k].candidate)| == |marks|;
  }

  /**
    Rejected to the end, a completion with the rounds for it makes exactly its
    budget of checks, and one check where the budget is zero.
  */
  method RejectedToTheEnd(setup: Setup, chat: seq<Message>) returns (checks: nat, r: Result<Answer, Error>)
    requires Paired(chat) && setup.checking && AlwaysRejects(setup.world)
    requires 1 <= setup.budgets.maxRounds && setup.budgets.maxCandidates <= setup.budgets.maxRounds
    ensures r == Err(BudgetExhausted)
    ensures checks == if setup.budgets.maxCandidates == 0 then 1 else setup.budgets.maxCandidates
  {
    hide Paired, AlwaysRejects, Caused, MarksOk, Heard, RoundsOf, Replies, Spoken, Spoke, ChecksIn, OpenCalls;
    hide RequestOk, AllFit;
    var conversation := new Conversation(setup, chat);
    r := conversation.Run();
    checks := conversation.candidates;
    ChecksAreRequests(setup, conversation.requests, conversation.marks);
    if r.Err? {
      RejectionsEnd(setup, conversation.requests, conversation.ran, r.error);
    }
  }
}
