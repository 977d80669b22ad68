/** The tool-dispatch loops: call the model, execute the tools it asks for, repeat. */
module Agentic {
  import opened Options

  const MAX_ITERATIONS := 10

  datatype ToolCall = ToolCall(id: string, name: string, arguments: string)

  /** Why a call has no result. */
  datatype ToolError = UnknownTool(name: string) | Unavailable(reason: string) | InvalidArguments(reason: string)
    | CallFailed(reason: string)

  datatype Message = Message(role: string, content: string, toolCalls: seq<ToolCall>, toolCallId: string)

  /** A reply carries the messages of its choices; an error reply carries its text. */
  datatype Reply = Replied(choices: seq<Message>) | Failed(error: string)

  datatype Tool = Tool(id: int, name: string, server: int)

  /** One executed tool call: the parts of its result, or its error. */
  datatype Execution = Execution(toolCallId: string, name: string, server: string,
                                 result: Option<seq<string>>, error: Option<ToolError>, cost: real)

  /** What a tool answers; a client may answer without a result. */
  datatype Answer = Done(parts: Option<seq<string>>) | Refused(reason: string)

  /** Everything outside the loop. The number says how many chats, or how many tool calls, came before,
      so that the same question may be answered differently later. */
  datatype World = World(
    tools: Option<seq<Tool>>,
    chat: (nat, seq<Message>) -> Reply,
    serverName: (nat, int) -> Option<string>,
    connect: (nat, int) -> Option<string>,
    badArguments: string -> Option<string>,
    run: (nat, ToolCall) -> Answer,
    pricing: (nat, int) -> Option<real>)

  /** Tools by name; a later registration replaces an earlier one of the same name. */
  function ByName(tools: seq<Tool>, i: nat): map<string, Tool>
    requires i <= |tools|
  {
    if i == 0 then map[] else ByName(tools, i - 1)[tools[i - 1].name := tools[i - 1]]
  }

  /** So a tool is found under its name unless a later one has the same. */
  lemma {:induction false} LastNamed(tools: seq<Tool>, i: nat, j: nat)
    requires j < i <= |tools| && forall k :: j < k < i ==> tools[k].name != tools[j].name
    ensures tools[j].name in ByName(tools, i) && ByName(tools, i)[tools[j].name] == tools[j]
  {
    if j < i - 1 {
      LastNamed(tools, i - 1, j);
    }
  }

  function ServerName(w: World, at: nat, server: int): string {
    if server <= 0 || w.serverName(at, server).None? then "" else w.serverName(at, server).value
  }

  function PriceFor(w: World, at: nat, tool: int): real {
    if tool <= 0 || w.pricing(at, tool).None? then 0.0 else w.pricing(at, tool).value
  }

  /** One call, with every way it can fail; only a call that went through costs anything. */
  function DispatchOne(w: World, tools: map<string, Tool>, tc: ToolCall, at: nat): (r: Execution)
    ensures r.toolCallId == tc.id && r.name == tc.name
    ensures r.error.Some? ==> r.result.None? && r.cost == 0.0
    ensures r.error.None? <==>
      && tc.name in tools && w.connect(at, tools[tc.name].server).None? && w.badArguments(tc.arguments).None?
      && w.run(at, tc).Done?
    ensures r.error.None? ==>
      var price := w.pricing(at, tools[tc.name].id);
      w.run(at, tc) == Done(r.result) && r.cost == if tools[tc.name].id > 0 && price.Some? then price.value else 0.0
    ensures r.error.None? ==>
      var server := w.serverName(at, tools[tc.name].server);
      r.server == if tools[tc.name].server > 0 && server.Some? then server.value else ""
  {
    if tc.name !in tools then Execution(tc.id, tc.name, "", None, Some(UnknownTool(tc.name)), 0.0)
    else
      var tool := tools[tc.name];
      var server := ServerName(w, at, tool.server);
      var down := w.connect(at, tool.server);
      var bad := w.badArguments(tc.arguments);
      if down.Some? then Execution(tc.id, tc.name, server, None, Some(Unavailable(down.value)), 0.0)
      else if bad.Some? then Execution(tc.id, tc.name, "", None, Some(InvalidArguments(bad.value)), 0.0)
      else
        match w.run(at, tc)
        case Refused(e) => Execution(tc.id, tc.name, server, None, Some(CallFailed(e)), 0.0)
        case Done(parts) => Execution(tc.id, tc.name, server, parts, None, PriceFor(w, at, tool.id))
  }

  function Dispatch(w: World, tools: map<string, Tool>, calls: seq<ToolCall>, at: nat): (r: seq<Execution>)
    ensures |r| == |calls|
  {
    seq(|calls|, j requires 0 <= j < |calls| => DispatchOne(w, tools, calls[j], at + j))
  }

  lemma DispatchConcat(w: World, tools: map<string, Tool>, a: seq<ToolCall>, b: seq<ToolCall>, at: nat)
    ensures Dispatch(w, tools, a + b, at) == Dispatch(w, tools, a, at) + Dispatch(w, tools, b, at + |a|)
  {
  }

  function JoinLines(parts: seq<string>, i: nat): string
    requires i <= |parts|
  {
    if i == 0 then "" else if i == 1 then parts[0] else JoinLines(parts, i - 1) + "\n" + parts[i - 1]
  }

  function Reason(error: ToolError): string {
    match error
    case UnknownTool(name) => "unknown tool: " + name
    case Unavailable(reason) => "mcp client unavailable: " + reason
    case InvalidArguments(reason) => "invalid args: " + reason
    case CallFailed(reason) => reason
  }

  /** What the model is told about an execution. */
  function ToolText(e: Execution): (text: string)
    ensures e.result.None? && e.error.Some? ==> text == "error: " + Reason(e.error.value)
    ensures e.result.Some? && |e.result.value| == 1 ==> text == e.result.value[0]
  {
    match e.result
    case Some(parts) => JoinLines(parts, |parts|)
    case None => if e.error.Some? then "error: " + Reason(e.error.value) else ""
  }

  /** Several parts are joined by line breaks. */
  lemma PartsJoined(e: Execution, parts: seq<string>, part: string)
    requires parts != []
    ensures ToolText(e.(result := Some(parts + [part]))) == ToolText(e.(result := Some(parts))) + "\n" + part
  {
    JoinPrefix(parts, part, |parts|);
  }

  lemma {:induction false} JoinPrefix(parts: seq<string>, part: string, i: nat)
    requires i <= |parts|
    ensures JoinLines(parts + [part], i) == JoinLines(parts, i)
  {
    if i > 1 {
      JoinPrefix(parts, part, i - 1);
    }
  }

  function ToolMessage(e: Execution): Message {
    Message("tool", ToolText(e), [], e.toolCallId)
  }

  function ToolMessages(es: seq<Execution>): (r: seq<Message>)
    ensures |r| == |es|
  {
    seq(|es|, j requires 0 <= j < |es| => ToolMessage(es[j]))
  }

  // ---- The loops as functions: what a run leaves behind.

  datatype Ending = Final(choices: seq<Message>) | Resolved | ChatError(error: string) | Exceeded

  datatype Run = Run(messages: seq<Message>, calls: seq<Execution>, chats: nat, ending: Ending)

  function ExecuteFrom(w: World, tools: map<string, Tool>, ms: seq<Message>, calls: seq<Execution>, iter: nat): Run
    decreases MAX_ITERATIONS - iter, |ms|
  {
    if iter >= MAX_ITERATIONS then Run(ms, calls, iter, Exceeded)
    else
      match w.chat(iter, ms)
      case Failed(e) => Run(ms, calls, iter + 1, ChatError(e))
      case Replied(choices) =>
        if choices == [] || choices[0].toolCalls == [] then Run(ms, calls, iter + 1, Final(choices))
        else
          var d := Dispatch(w, tools, choices[0].toolCalls, |calls|);
          ExecuteFrom(w, tools, ms + [choices[0]] + ToolMessages(d), calls + d, iter + 1)
  }

  /** The last message is an assistant's and asks for tools. */
  predicate Pending(ms: seq<Message>) {
    ms != [] && AssistantAsks(ms[|ms| - 1])
  }

  predicate AssistantAsks(m: Message) {
    m.role == "assistant" && m.toolCalls != []
  }

  function ResolveFrom(w: World, tools: map<string, Tool>, ms: seq<Message>, calls: seq<Execution>, iter: nat): Run
    decreases MAX_ITERATIONS - iter, |ms|
  {
    if iter >= MAX_ITERATIONS then Run(ms, calls, iter, Exceeded)
    else if !Pending(ms) then Run(ms, calls, iter, Resolved)
    else
      var d := Dispatch(w, tools, ms[|ms| - 1].toolCalls, |calls|);
      var ms' := ms + ToolMessages(d);
      match w.chat(iter, ms')
      case Failed(e) => Run(ms', calls + d, iter + 1, ChatError(e))
      case Replied(choices) =>
        if choices == [] || choices[0].toolCalls == [] then Run(ms', calls + d, iter + 1, Resolved)
        else ResolveFrom(w, tools, ms' + [choices[0]], calls + d, iter + 1)
  }

  // ---- What a transcript must look like.

  predicate Asks(m: Message) {
    m.toolCalls != []
  }

  /** Message i asks for tools and is followed by one tool message per call, in order and with the ids
      of the calls, and by nothing else before the next message that has tool calls. */
  predicate AnsweredAt(ms: seq<Message>, i: nat)
    requires i < |ms|
  {
    var k := |ms[i].toolCalls|;
    && i + k < |ms|
    && (forall j :: 0 <= j < k ==> Answers(ms[i + 1 + j], ms[i].toolCalls[j]))
    && (i + 1 + k < |ms| ==> ms[i + 1 + k].toolCalls != [])
  }

  predicate Answers(m: Message, tc: ToolCall) {
    m.role == "tool" && m.toolCallId == tc.id && m.toolCalls == []
  }

  /** From this message on: whole rounds of an asking message and its answers; a last message that has
      tool calls but does not ask may remain. */
  predicate Rounds(asks: Message -> bool, ms: seq<Message>, from: nat)
    requires from <= |ms|
    decreases |ms| - from
  {
    from == |ms|
    || (from + 1 == |ms| && !asks(ms[from]) && ms[from].toolCalls != [])
    || (&& asks(ms[from]) && ms[from].toolCalls != [] && AnsweredAt(ms, from)
        && Rounds(asks, ms, from + 1 + |ms[from].toolCalls|))
  }

  /** The tool calls asked for, in order. */
  function Requested(asks: Message -> bool, ms: seq<Message>, from: nat): seq<ToolCall>
    requires from <= |ms|
    decreases |ms| - from
  {
    if from == |ms| then []
    else (if asks(ms[from]) then ms[from].toolCalls else []) + Requested(asks, ms, from + 1)
  }

  /** The messages without tool calls, in order. */
  function Responses(ms: seq<Message>, from: nat): seq<Message>
    requires from <= |ms|
    decreases |ms| - from
  {
    if from == |ms| then []
    else (if ms[from].toolCalls == [] then [ms[from]] else []) + Responses(ms, from + 1)
  }

  /** Rounds, read message by message: every asking message is answered. */
  lemma {:induction false} RoundsAnswer(asks: Message -> bool, ms: seq<Message>, from: nat, i: nat)
    requires from <= i < |ms| && Rounds(asks, ms, from)
    ensures asks(ms[i]) && ms[i].toolCalls != [] ==> AnsweredAt(ms, i)
    decreases |ms| - from
  {
    var k := |ms[from].toolCalls|;
    if i > from + k {
      RoundsAnswer(asks, ms, from + 1 + k, i);
    } else if i > from {
      assert Answers(ms[from + 1 + (i - from - 1)], ms[from].toolCalls[i - from - 1]);
    }
  }

  /** The tool messages of a round ask for nothing and are all responses. */
  lemma {:induction false} NothingAsked(asks: Message -> bool, ms: seq<Message>, from: nat, upto: nat)
    requires from <= upto <= |ms|
    requires forall i :: from <= i < upto ==> ms[i].toolCalls == []
    ensures Requested(asks, ms, from) == Requested(asks, ms, upto)
    decreases upto - from
  {
    if from < upto {
      NothingAsked(asks, ms, from + 1, upto);
      assert Requested(asks, ms, from) == [] + Requested(asks, ms, from + 1);
    }
  }

  lemma {:induction false} AllRespond(ms: seq<Message>, from: nat, upto: nat)
    requires from <= upto <= |ms|
    requires forall i :: from <= i < upto ==> ms[i].toolCalls == []
    ensures Responses(ms, from) == ms[from..upto] + Responses(ms, upto)
    decreases upto - from
  {
    if from < upto {
      AllRespond(ms, from + 1, upto);
      assert Responses(ms, from) == [ms[from]] + Responses(ms, from + 1);
      SliceCons(ms, from, upto, Responses(ms, upto));
    }
  }

  lemma SliceCons<T>(s: seq<T>, from: nat, upto: nat, rest: seq<T>)
    requires from < upto <= |s|
    ensures [s[from]] + (s[from + 1..upto] + rest) == s[from..upto] + rest
  {
  }

  /** What a run adds: whole rounds; one execution per requested call, in order; one tool message per
      execution, in order. */
  ghost predicate Accounted(w: World, tools: map<string, Tool>, asks: Message -> bool, r: Run, from: nat, done: nat)
    requires from <= |r.messages| && done <= |r.calls|
  {
    && Rounds(asks, r.messages, from)
    && r.calls[done..] == Dispatch(w, tools, Requested(asks, r.messages, from), done)
    && Responses(r.messages, from) == ToolMessages(r.calls[done..])
  }

  /** One round in front of a transcript that is already accounted for. */
  lemma RoundInFront(w: World, tools: map<string, Tool>, asks: Message -> bool, r: Run, from: nat, done: nat,
                     d: seq<Execution>)
    requires from < |r.messages| && asks(r.messages[from]) && r.messages[from].toolCalls != []
    requires d == Dispatch(w, tools, r.messages[from].toolCalls, done)
    requires from + 1 + |d| <= |r.messages| && done + |d| <= |r.calls|
    requires r.messages[from + 1..from + 1 + |d|] == ToolMessages(d) && r.calls[done..done + |d|] == d
    requires Accounted(w, tools, asks, r, from + 1 + |d|, done + |d|)
    ensures Accounted(w, tools, asks, r, from, done)
  {
    var ms := r.messages;
    SliceHolds(ms, from + 1, d);
    RoundRounds(w, tools, asks, ms, from, done, d);
    RoundCalls(w, tools, asks, ms, r.calls, from, done, d);
  }

  lemma RoundCalls(w: World, tools: map<string, Tool>, asks: Message -> bool, ms: seq<Message>, calls: seq<Execution>,
                   from: nat, done: nat, d: seq<Execution>)
    requires from + 1 + |d| <= |ms| && asks(ms[from]) && ms[from].toolCalls != []
    requires d == Dispatch(w, tools, ms[from].toolCalls, done)
    requires forall j :: 0 <= j < |d| ==> ms[from + 1 + j] == ToolMessage(d[j])
    requires done + |d| <= |calls| && calls[done..done + |d|] == d
    requires calls[done + |d|..] == Dispatch(w, tools, Requested(asks, ms, from + 1 + |d|), done + |d|)
    requires Responses(ms, from + 1 + |d|) == ToolMessages(calls[done + |d|..])
    ensures calls[done..] == Dispatch(w, tools, Requested(asks, ms, from), done)
    ensures Responses(ms, from) == ToolMessages(calls[done..])
  {
    QuietRound(asks, ms, from, d);
    CallsInFront(w, tools, calls, done, d, ms[from].toolCalls, Requested(asks, ms, from + 1 + |d|));
  }

  lemma SliceHolds(ms: seq<Message>, from: nat, d: seq<Execution>)
    requires from + |d| <= |ms| && ms[from..from + |d|] == ToolMessages(d)
    ensures forall j :: 0 <= j < |d| ==> ms[from + j] == ToolMessage(d[j])
  {
    forall j | 0 <= j < |d| ensures ms[from + j] == ToolMessage(d[j]) {
      assert ms[from + j] == ms[from..from + |d|][j];
    }
  }

  lemma CallsInFront(w: World, tools: map<string, Tool>, calls: seq<Execution>, done: nat, d: seq<Execution>,
                     asked: seq<ToolCall>, rest: seq<ToolCall>)
    requires d == Dispatch(w, tools, asked, done) && done + |d| <= |calls| && calls[done..done + |d|] == d
    requires calls[done + |d|..] == Dispatch(w, tools, rest, done + |d|)
    ensures calls[done..] == Dispatch(w, tools, asked + rest, done)
    ensures ToolMessages(calls[done..]) == ToolMessages(d) + ToolMessages(calls[done + |d|..])
  {
    DispatchConcat(w, tools, asked, rest, done);
    SplitAt(calls, done, d);
    MessagesConcat(d, calls[done + |d|..]);
  }

  lemma SplitAt<T>(s: seq<T>, i: nat, mid: seq<T>)
    requires i + |mid| <= |s| && s[i..i + |mid|] == mid
    ensures s[i..] == mid + s[i + |mid|..]
  {
  }

  lemma MessagesConcat(a: seq<Execution>, b: seq<Execution>)
    ensures ToolMessages(a + b) == ToolMessages(a) + ToolMessages(b)
  {
  }

  lemma RoundRounds(w: World, tools: map<string, Tool>, asks: Message -> bool, ms: seq<Message>, from: nat, done: nat,
                    d: seq<Execution>)
    requires from + 1 + |d| <= |ms| && asks(ms[from]) && ms[from].toolCalls != []
    requires d == Dispatch(w, tools, ms[from].toolCalls, done)
    requires forall j :: 0 <= j < |d| ==> ms[from + 1 + j] == ToolMessage(d[j])
    requires Rounds(asks, ms, from + 1 + |d|)
    ensures Rounds(asks, ms, from)
  {
    forall j | 0 <= j < |d|
      ensures Answers(ms[from + 1 + j], ms[from].toolCalls[j])
    {
      assert ms[from + 1 + j] == ToolMessage(d[j]);
    }
  }

  lemma QuietRound(asks: Message -> bool, ms: seq<Message>, from: nat, d: seq<Execution>)
    requires from + 1 + |d| <= |ms| && asks(ms[from]) && ms[from].toolCalls != []
    requires forall j :: 0 <= j < |d| ==> ms[from + 1 + j] == ToolMessage(d[j])
    ensures Requested(asks, ms, from) == ms[from].toolCalls + Requested(asks, ms, from + 1 + |d|)
    ensures Responses(ms, from) == ToolMessages(d) + Responses(ms, from + 1 + |d|)
  {
    var next := from + 1 + |d|;
    forall i | from + 1 <= i < next
      ensures ms[i].toolCalls == []
    {
      assert ms[from + 1 + (i - from - 1)] == ToolMessage(d[i - from - 1]);
    }
    NothingAsked(asks, ms, from + 1, next);
    AllRespond(ms, from + 1, next);
    assert ms[from + 1..next] == ToolMessages(d);
  }

  // ---- Theorems over every run.

  /** Nothing is taken back, and there are at most ten chats. */
  lemma {:induction false} ExecuteExtends(w: World, tools: map<string, Tool>, ms: seq<Message>, calls: seq<Execution>,
                                          iter: nat)
    requires iter <= MAX_ITERATIONS
    ensures var r := ExecuteFrom(w, tools, ms, calls, iter);
            ms <= r.messages && calls <= r.calls && r.chats <= MAX_ITERATIONS
    decreases MAX_ITERATIONS - iter
  {
    var r := ExecuteFrom(w, tools, ms, calls, iter);
    var more, m, d := ExecuteCases(w, tools, ms, calls, iter);
    if more {
      ExecuteExtends(w, tools, ms + [m] + ToolMessages(d), calls + d, iter + 1);
      Between(r.messages, ms, m, ToolMessages(d));
      Behind(r.calls, calls, d);
    }
  }

  /** After ms and calls, m asks for tools and d are the executions. */
  ghost predicate Follows(w: World, tools: map<string, Tool>, asks: Message -> bool, r: Run, ms: seq<Message>,
                          calls: seq<Execution>, m: Message, d: seq<Execution>) {
    && asks(m) && m.toolCalls != [] && d == Dispatch(w, tools, m.toolCalls, |calls|)
    && ms + [m] + ToolMessages(d) <= r.messages && calls + d <= r.calls
  }

  /** What holds at the end of a run and, if behind a round, also in front of it. */
  ghost predicate Composes(w: World, tools: map<string, Tool>, asks: Message -> bool, r: Run,
                           good: (nat, nat) -> bool) {
    && good(|r.messages|, |r.calls|)
    && (r.messages != [] && Unasked(asks, r.messages[|r.messages| - 1]) ==> good(|r.messages| - 1, |r.calls|))
    && forall ms, calls, m, d ::
         Follows(w, tools, asks, r, ms, calls, m, d) && good(|ms| + 1 + |d|, |calls| + |d|) ==> good(|ms|, |calls|)
  }

  predicate Unasked(asks: Message -> bool, m: Message) {
    !asks(m) && m.toolCalls != []
  }

  ghost function AccountedFrom(w: World, tools: map<string, Tool>, asks: Message -> bool, r: Run): (nat, nat) -> bool {
    (from: nat, done: nat) => from <= |r.messages| && done <= |r.calls| && Accounted(w, tools, asks, r, from, done)
  }

  lemma AccountedComposes(w: World, tools: map<string, Tool>, asks: Message -> bool, r: Run)
    ensures Composes(w, tools, asks, r, AccountedFrom(w, tools, asks, r))
  {
    var good := AccountedFrom(w, tools, asks, r);
    AllDone(w, tools, asks, r);
    if r.messages != [] && Unasked(asks, r.messages[|r.messages| - 1]) {
      Dangling(w, tools, asks, r, |r.messages| - 1);
    }
    forall ms, calls, m, d
      | Follows(w, tools, asks, r, ms, calls, m, d) && good(|ms| + 1 + |d|, |calls| + |d|)
      ensures good(|ms|, |calls|)
    {
      GoesOn(w, tools, asks, r, ms, calls, m, d);
    }
  }

  lemma {:induction false} ExecuteComposes(w: World, tools: map<string, Tool>, ms: seq<Message>, calls: seq<Execution>,
                                           iter: nat, r: Run, good: (nat, nat) -> bool)
    requires iter <= MAX_ITERATIONS && r == ExecuteFrom(w, tools, ms, calls, iter) && Composes(w, tools, Asks, r, good)
    ensures good(|ms|, |calls|)
    decreases MAX_ITERATIONS - iter
  {
    var more, m, d := ExecuteCases(w, tools, ms, calls, iter);
    if more {
      var ms', calls' := ms + [m] + ToolMessages(d), calls + d;
      ExecuteComposes(w, tools, ms', calls', iter + 1, r, good);
      ExecuteExtends(w, tools, ms', calls', iter + 1);
      InFront(w, tools, Asks, ms, m, d, ms', calls, calls', r, good);
    }
  }

  /** What holds behind a message and its answers holds in front of them. */
  lemma InFront(w: World, tools: map<string, Tool>, asks: Message -> bool, ms: seq<Message>, m: Message,
                d: seq<Execution>, ms': seq<Message>, calls: seq<Execution>, calls': seq<Execution>, r: Run,
                good: (nat, nat) -> bool)
    requires asks(m) && m.toolCalls != [] && d == Dispatch(w, tools, m.toolCalls, |calls|)
    requires ms' == ms + [m] + ToolMessages(d) && calls' == calls + d && ms' <= r.messages && calls' <= r.calls
    requires Composes(w, tools, asks, r, good) && good(|ms'|, |calls'|)
    ensures good(|ms|, |calls|)
  {
    assert Follows(w, tools, asks, r, ms, calls, m, d);
  }

  /** How the loop ends: with the reply to the final transcript, if that asks for nothing or is an error, and only
      after ten chats without such a reply. */
  lemma {:induction false} ExecuteEnds(w: World, tools: map<string, Tool>, ms: seq<Message>, calls: seq<Execution>,
                                       iter: nat)
    requires iter <= 10
    ensures var r := ExecuteFrom(w, tools, ms, calls, iter);
            match r.ending
            case Exceeded => r.chats == 10
            case ChatError(e) => iter < r.chats <= 10 && w.chat(r.chats - 1, r.messages) == Failed(e)
            case Final(choices) => iter < r.chats <= 10 && w.chat(r.chats - 1, r.messages) == Replied(choices)
              && (choices == [] || choices[0].toolCalls == [])
            case Resolved => false
    decreases 10 - iter
  {
    if iter < 10 && w.chat(iter, ms).Replied? {
      var choices := w.chat(iter, ms).choices;
      if choices != [] && choices[0].toolCalls != [] {
        var d := Dispatch(w, tools, choices[0].toolCalls, |calls|);
        ExecuteEnds(w, tools, ms + [choices[0]] + ToolMessages(d), calls + d, iter + 1);
      }
    }
  }

  /** However Execute ends, it has added whole rounds and accounted for every call, in at most ten chats. */
  lemma ExecuteTranscript(w: World, tools: map<string, Tool>, ms: seq<Message>, calls: seq<Execution>, iter: nat)
    requires iter <= MAX_ITERATIONS
    ensures var r := ExecuteFrom(w, tools, ms, calls, iter);
            ms <= r.messages && calls <= r.calls && r.chats <= MAX_ITERATIONS
            && Accounted(w, tools, Asks, r, |ms|, |calls|)
  {
    var r := ExecuteFrom(w, tools, ms, calls, iter);
    ExecuteExtends(w, tools, ms, calls, iter);
    AccountedComposes(w, tools, Asks, r);
    ExecuteComposes(w, tools, ms, calls, iter, r, AccountedFrom(w, tools, Asks, r));
  }

  /** The loop ends, or it goes on after another message and its answers. */
  lemma ExecuteCases(w: World, tools: map<string, Tool>, ms: seq<Message>, calls: seq<Execution>, iter: nat)
    returns (more: bool, m: Message, d: seq<Execution>)
    requires iter <= MAX_ITERATIONS
    ensures var r := ExecuteFrom(w, tools, ms, calls, iter);
      if more then
        && iter < MAX_ITERATIONS && m.toolCalls != [] && d == Dispatch(w, tools, m.toolCalls, |calls|)
        && r == ExecuteFrom(w, tools, ms + [m] + ToolMessages(d), calls + d, iter + 1)
      else r.messages == ms && r.calls == calls && r.chats <= MAX_ITERATIONS
  {
    more, m, d := false, Message("", "", [], ""), [];
    if iter < MAX_ITERATIONS && w.chat(iter, ms).Replied? {
      var choices := w.chat(iter, ms).choices;
      if choices != [] && choices[0].toolCalls != [] {
        more, m, d := true, choices[0], Dispatch(w, tools, choices[0].toolCalls, |calls|);
      }
    }
  }

  /** A run that goes on after a message and its answers. */
  lemma GoesOn(w: World, tools: map<string, Tool>, asks: Message -> bool, r: Run, ms: seq<Message>,
               calls: seq<Execution>, m: Message, d: seq<Execution>)
    requires asks(m) && m.toolCalls != [] && d == Dispatch(w, tools, m.toolCalls, |calls|)
    requires ms + [m] + ToolMessages(d) <= r.messages && calls + d <= r.calls
    requires Accounted(w, tools, asks, r, |ms| + 1 + |d|, |calls| + |d|)
    ensures ms <= r.messages && calls <= r.calls && Accounted(w, tools, asks, r, |ms|, |calls|)
  {
    Between(r.messages, ms, m, ToolMessages(d));
    Behind(r.calls, calls, d);
    RoundInFront(w, tools, asks, r, |ms|, |calls|, d);
  }

  lemma Between<T>(s: seq<T>, a: seq<T>, m: T, b: seq<T>)
    requires a + [m] + b <= s
    ensures a <= s && s[|a|] == m && s[|a| + 1..|a| + 1 + |b|] == b
  {
    Behind(s, a + [m], b);
    Behind(s, a, [m]);
    assert s[|a|] == s[|a|..|a| + 1][0];
  }

  lemma Behind<T>(s: seq<T>, a: seq<T>, b: seq<T>)
    requires a + b <= s
    ensures a <= s && s[|a|..|a| + |b|] == b
  {
    assert s[..|a|] == (a + b)[..|a|] == a;
    assert s[|a|..|a| + |b|] == (a + b)[|a|..] == b;
  }

  /** Message by message: whatever the model asked for during the run has been answered. */
  lemma EveryRequestAnswered(w: World, tools: map<string, Tool>, ms: seq<Message>, i: nat)
    ensures var r := ExecuteFrom(w, tools, ms, [], 0);
            |ms| <= i < |r.messages| && r.messages[i].toolCalls != [] ==> AnsweredAt(r.messages, i)
  {
    var r := ExecuteFrom(w, tools, ms, [], 0);
    ExecuteTranscript(w, tools, ms, [], 0);
    if |ms| <= i < |r.messages| {
      RoundsAnswer(Asks, r.messages, |ms|, i);
    }
  }

  lemma EveryAssistantAnswered(w: World, tools: map<string, Tool>, ms: seq<Message>, i: nat)
    ensures var r := ResolveFrom(w, tools, ms, [], 0);
            r.ending.Resolved? && |ms| - 1 <= i < |r.messages| && AssistantAsks(r.messages[i]) ==>
              AnsweredAt(r.messages, i)
  {
    var r := ResolveFrom(w, tools, ms, [], 0);
    ResolveTranscript(w, tools, ms, [], 0);
    if r.ending.Resolved? && Pending(ms) && |ms| - 1 <= i < |r.messages| {
      RoundsAnswer(AssistantAsks, r.messages, |ms| - 1, i);
    }
  }

  /** Nothing is taken back, there are at most ten chats, and without a pending message nothing is added. */
  lemma {:induction false} ResolveExtends(w: World, tools: map<string, Tool>, ms: seq<Message>, calls: seq<Execution>,
                                          iter: nat)
    requires iter <= MAX_ITERATIONS
    ensures var r := ResolveFrom(w, tools, ms, calls, iter);
            ms <= r.messages && calls <= r.calls && r.chats <= MAX_ITERATIONS
            && (!Pending(ms) ==> r.messages == ms && r.calls == calls)
    ensures var r := ResolveFrom(w, tools, ms, calls, iter);
            iter < MAX_ITERATIONS && Pending(ms) ==>
              var d := Dispatch(w, tools, ms[|ms| - 1].toolCalls, |calls|);
              ms + ToolMessages(d) <= r.messages && calls + d <= r.calls
    decreases MAX_ITERATIONS - iter
  {
    if iter < MAX_ITERATIONS && Pending(ms) {
      var r := ResolveFrom(w, tools, ms, calls, iter);
      var d := Dispatch(w, tools, ms[|ms| - 1].toolCalls, |calls|);
      var more, m := ResolveCases(w, tools, ms, calls, iter, d);
      if more {
        ResolveExtends(w, tools, ms + ToolMessages(d) + [m], calls + d, iter + 1);
        Behind(r.messages, ms + ToolMessages(d), [m]);
      }
      Behind(r.messages, ms, ToolMessages(d));
      Behind(r.calls, calls, d);
    }
  }

  /** After the answers the loop ends, or another message with tool calls follows. */
  lemma ResolveCases(w: World, tools: map<string, Tool>, ms: seq<Message>, calls: seq<Execution>, iter: nat,
                     d: seq<Execution>)
    returns (more: bool, m: Message)
    requires iter < MAX_ITERATIONS && Pending(ms) && d == Dispatch(w, tools, ms[|ms| - 1].toolCalls, |calls|)
    ensures var r := ResolveFrom(w, tools, ms, calls, iter);
      if more then
        m.toolCalls != [] && r == ResolveFrom(w, tools, ms + ToolMessages(d) + [m], calls + d, iter + 1)
      else r.messages == ms + ToolMessages(d) && r.calls == calls + d && r.chats <= MAX_ITERATIONS
  {
    more, m := false, ms[|ms| - 1];
    var reply := w.chat(iter, ms + ToolMessages(d));
    if reply.Replied? && reply.choices != [] && reply.choices[0].toolCalls != [] {
      more, m := true, reply.choices[0];
    }
  }

  /** A pending message is answered first. */
  lemma PendingCases(w: World, tools: map<string, Tool>, ms: seq<Message>, calls: seq<Execution>, iter: nat)
    returns (next: seq<Message>, d: seq<Execution>, ms': seq<Message>, calls': seq<Execution>)
    requires iter <= MAX_ITERATIONS && ResolveFrom(w, tools, ms, calls, iter).ending.Resolved? && Pending(ms)
    ensures iter < MAX_ITERATIONS && d == Dispatch(w, tools, ms[|ms| - 1].toolCalls, |calls|)
    ensures ms' == ms + ToolMessages(d) && calls' == calls + d
    ensures var r := ResolveFrom(w, tools, ms, calls, iter);
            && ms' <= r.messages && calls' <= r.calls
            && if next == [] then r.messages == ms' && r.calls == calls'
               else LongerBy(next, ms') && r == ResolveFrom(w, tools, next, calls', iter + 1)
  {
    d := Dispatch(w, tools, ms[|ms| - 1].toolCalls, |calls|);
    ms', calls' := ms + ToolMessages(d), calls + d;
    var more, m := ResolveCases(w, tools, ms, calls, iter, d);
    next := if more then ms' + [m] else [];
    ResolveExtends(w, tools, ms, calls, iter);
  }

  /** One more message, with tool calls. */
  ghost predicate LongerBy(next: seq<Message>, ms: seq<Message>) {
    |next| == |ms| + 1 && ms <= next && next[|ms|].toolCalls != []
  }

  lemma {:induction false} ResolveComposes(w: World, tools: map<string, Tool>, ms: seq<Message>, calls: seq<Execution>,
                                           iter: nat, r: Run, good: (nat, nat) -> bool)
    requires iter <= MAX_ITERATIONS && r == ResolveFrom(w, tools, ms, calls, iter)
    requires r.ending.Resolved? && Pending(ms) && Composes(w, tools, AssistantAsks, r, good)
    ensures good(|ms| - 1, |calls|)
    decreases MAX_ITERATIONS - iter
  {
    var next, d, ms', calls' := PendingCases(w, tools, ms, calls, iter);
    if next != [] && Pending(next) {
      ResolveComposes(w, tools, next, calls', iter + 1, r, good);
    } else if next != [] {
      LeftDangling(w, tools, ms', next, calls', iter + 1, r, good);
    }
    PendingInFront(w, tools, ms, d, ms', calls, calls', r, good);
  }

  lemma PendingInFront(w: World, tools: map<string, Tool>, ms: seq<Message>, d: seq<Execution>, ms': seq<Message>,
                       calls: seq<Execution>, calls': seq<Execution>, r: Run, good: (nat, nat) -> bool)
    requires Pending(ms) && d == Dispatch(w, tools, ms[|ms| - 1].toolCalls, |calls|)
    requires ms' == ms + ToolMessages(d) && calls' == calls + d && ms' <= r.messages && calls' <= r.calls
    requires Composes(w, tools, AssistantAsks, r, good) && good(|ms'|, |calls'|)
    ensures good(|ms| - 1, |calls|)
  {
    LastInFront(ms);
    InFront(w, tools, AssistantAsks, ms[..|ms| - 1], ms[|ms| - 1], d, ms', calls, calls', r, good);
  }

  /** A reply with tool calls that is not an assistant's is the last message. */
  lemma LeftDangling(w: World, tools: map<string, Tool>, ms: seq<Message>, next: seq<Message>, calls: seq<Execution>,
                     iter: nat, r: Run, good: (nat, nat) -> bool)
    requires iter <= MAX_ITERATIONS && r == ResolveFrom(w, tools, next, calls, iter)
    requires LongerBy(next, ms) && !Pending(next) && Composes(w, tools, AssistantAsks, r, good)
    ensures good(|ms|, |calls|)
  {
    ResolveExtends(w, tools, next, calls, iter);
    assert Unasked(AssistantAsks, r.messages[|r.messages| - 1]);
  }

  /** A transcript that does not end with an assistant's request is left alone. */
  lemma NothingPending(w: World, tools: map<string, Tool>, ms: seq<Message>, calls: seq<Execution>, iter: nat)
    requires iter < 10 && !AssistantLast(ms)
    ensures ResolveFrom(w, tools, ms, calls, iter) == Run(ms, calls, iter, Resolved)
  {
  }

  /** How ResolveTools ends: the reply to the final transcript asks for nothing or is an error, or the last message is
      no assistant's that asks, and only otherwise after ten chats. */
  lemma {:induction false} ResolveEnds(w: World, tools: map<string, Tool>, ms: seq<Message>, calls: seq<Execution>,
                                       iter: nat)
    requires iter <= 10
    ensures ResolvedRightly(w, ResolveFrom(w, tools, ms, calls, iter), iter)
    decreases 10 - iter
  {
    if iter < 10 && Pending(ms) {
      var d := Dispatch(w, tools, ms[|ms| - 1].toolCalls, |calls|);
      var reply := w.chat(iter, ms + ToolMessages(d));
      if reply.Replied? && !AsksNothing(reply) {
        ResolveEnds(w, tools, ms + ToolMessages(d) + [reply.choices[0]], calls + d, iter + 1);
      }
    }
  }

  ghost predicate ResolvedRightly(w: World, r: Run, iter: nat) {
    match r.ending
    case Exceeded => r.chats == 10
    case ChatError(e) => iter < r.chats <= 10 && w.chat(r.chats - 1, r.messages) == Failed(e)
    case Final(_) => false
    case Resolved =>
      !AssistantLast(r.messages) || (iter < r.chats <= 10 && AsksNothing(w.chat(r.chats - 1, r.messages)))
  }

  predicate AssistantLast(ms: seq<Message>) {
    ms != [] && ms[|ms| - 1].role == "assistant" && ms[|ms| - 1].toolCalls != []
  }

  predicate AsksNothing(reply: Reply) {
    reply.Replied? && (reply.choices == [] || reply.choices[0].toolCalls == [])
  }

  /** When ResolveTools succeeds, the pending message and every assistant message added since is
      answered, every call is accounted for, and there were at most ten chats. */
  lemma ResolveTranscript(w: World, tools: map<string, Tool>, ms: seq<Message>, calls: seq<Execution>, iter: nat)
    requires iter <= MAX_ITERATIONS
    ensures var r := ResolveFrom(w, tools, ms, calls, iter);
            ms <= r.messages && calls <= r.calls && r.chats <= MAX_ITERATIONS
            && (r.ending.Resolved? && !Pending(ms) ==> r.messages == ms && r.calls == calls)
            && (r.ending.Resolved? && Pending(ms) ==> Accounted(w, tools, AssistantAsks, r, |ms| - 1, |calls|))
  {
    var r := ResolveFrom(w, tools, ms, calls, iter);
    ResolveExtends(w, tools, ms, calls, iter);
    if r.ending.Resolved? && Pending(ms) {
      AccountedComposes(w, tools, AssistantAsks, r);
      ResolveComposes(w, tools, ms, calls, iter, r, AccountedFrom(w, tools, AssistantAsks, r));
    }
  }

  lemma LastInFront(ms: seq<Message>)
    requires ms != []
    ensures ms[..|ms| - 1] + [ms[|ms| - 1]] == ms
  {
  }

  lemma AllDone(w: World, tools: map<string, Tool>, asks: Message -> bool, r: Run)
    ensures Accounted(w, tools, asks, r, |r.messages|, |r.calls|)
  {
  }

  /** A reply with tool calls that is not an assistant's ends the loop unanswered. */
  lemma Dangling(w: World, tools: map<string, Tool>, asks: Message -> bool, r: Run, from: nat)
    requires from + 1 == |r.messages| && Unasked(asks, r.messages[from])
    ensures Accounted(w, tools, asks, r, from, |r.calls|)
  {
    assert Requested(asks, r.messages, from + 1) == [];
    assert Responses(r.messages, from + 1) == [];
  }

  // ---- Cost.

  function Cost(calls: seq<Execution>): real {
    if calls == [] then 0.0 else Cost(calls[..|calls| - 1]) + calls[|calls| - 1].cost
  }

  /** The total over a run is the sum over its dispatches. */
  lemma {:induction false} CostConcat(a: seq<Execution>, b: seq<Execution>)
    ensures Cost(a + b) == Cost(a) + Cost(b)
  {
    if b == [] {
      assert a + b == a;
    } else {
      assert (a + b)[..|a + b| - 1] == a + b[..|b| - 1];
      CostConcat(a, b[..|b| - 1]);
    }
  }

  lemma CostOne(e: Execution)
    ensures Cost([]) == 0.0 && Cost([e]) == e.cost
  {
    assert [e][..0] == [];
  }

  method TotalCost(calls: seq<Execution>) returns (total: real)
    ensures total == Cost(calls)
  {
    total := 0.0;
    for i := 0 to |calls|
      invariant total == Cost(calls[..i])
    {
      assert calls[..i + 1][..i] == calls[..i];
      total := total + calls[i].cost;
    }
    assert calls[..|calls|] == calls;
  }

  // ---- The program.

  class ChatRequest {
    var messages: seq<Message>

    constructor (messages: seq<Message>)
      ensures this.messages == messages
    {
      this.messages := messages;
    }
  }

  method IndexTools(tools: seq<Tool>) returns (byName: map<string, Tool>)
    ensures byName == ByName(tools, |tools|) && (byName == map[] <==> tools == [])
  {
    byName := map[];
    for i := 0 to |tools|
      invariant byName == ByName(tools, i) && (byName == map[] <==> i == 0)
    {
      byName := byName[tools[i].name := tools[i]];
      assert tools[i].name in byName;
    }
  }

  method DispatchToolCalls(w: World, tools: map<string, Tool>, calls: seq<ToolCall>, at: nat)
    returns (executions: seq<Execution>)
    ensures executions == Dispatch(w, tools, calls, at)
  {
    executions := [];
    for i := 0 to |calls|
      invariant |executions| == i
      invariant forall j :: 0 <= j < i ==> executions[j] == DispatchOne(w, tools, calls[j], at + j)
    {
      executions := executions + [DispatchOne(w, tools, calls[i], at + i)];
    }
  }

  method AnswerCalls(executions: seq<Execution>) returns (ms: seq<Message>)
    ensures ms == ToolMessages(executions)
  {
    ms := [];
    for i := 0 to |executions|
      invariant |ms| == i
      invariant forall j :: 0 <= j < i ==> ms[j] == ToolMessage(executions[j])
    {
      ms := ms + [ToolMessage(executions[i])];
    }
  }

  /** What Execute gives back besides the usage. */
  datatype Outcome = LoadFailed | Answered(choices: seq<Message>) | Stopped(error: string) | TooManyRounds

  function FromReply(reply: Reply): Outcome {
    if reply.Replied? then Answered(reply.choices) else Stopped(reply.error)
  }

  method Execute(w: World, req: ChatRequest) returns (outcome: Outcome, usage: seq<Execution>, chats: nat)
    modifies req
    ensures w.tools.None? ==> outcome == LoadFailed && req.messages == old(req.messages) && usage == [] && chats == 0
    ensures w.tools == Some([]) ==> outcome == FromReply(w.chat(0, old(req.messages)))
    ensures w.tools == Some([]) ==> req.messages == old(req.messages) && usage == [] && chats == 1
    ensures w.tools.Some? && w.tools.value != [] ==>
              var tools := ByName(w.tools.value, |w.tools.value|);
              var r := Run(req.messages, usage, chats, EndingOf(outcome));
              && r == ExecuteFrom(w, tools, old(req.messages), [], 0)
              && old(req.messages) <= req.messages && chats <= MAX_ITERATIONS
              && Accounted(w, tools, Asks, r, |old(req.messages)|, 0)
  {
    usage, chats := [], 0;
    if w.tools.None? {
      return LoadFailed, usage, chats;
    }
    var tools := IndexTools(w.tools.value);
    if tools == map[] {
      var reply := w.chat(0, req.messages);
      chats := 1;
      return FromReply(reply), usage, chats;
    }
    ExecuteTranscript(w, tools, req.messages, [], 0);
    outcome, usage, chats := ExecuteRounds(w, tools, req);
  }

  method ExecuteRounds(w: World, tools: map<string, Tool>, req: ChatRequest)
    returns (outcome: Outcome, usage: seq<Execution>, chats: nat)
    modifies req
    ensures Run(req.messages, usage, chats, EndingOf(outcome)) == ExecuteFrom(w, tools, old(req.messages), [], 0)
  {
    usage, chats := [], 0;
    ghost var spec := ExecuteFrom(w, tools, req.messages, [], 0);
    for iter := 0 to MAX_ITERATIONS
      invariant chats == iter
      invariant spec == ExecuteFrom(w, tools, req.messages, usage, iter)
    {
      var over;
      chats := chats + 1;
      over, outcome, usage := ExecuteRound(w, tools, req, usage, iter);
      if over {
        return;
      }
    }
    return TooManyRounds, usage, chats;
  }

  /** One pass: the loop is over, or goes on with the longer transcript. */
  method ExecuteRound(w: World, tools: map<string, Tool>, req: ChatRequest, usage0: seq<Execution>, iter: nat)
    returns (over: bool, outcome: Outcome, usage: seq<Execution>)
    requires iter < MAX_ITERATIONS
    modifies req
    ensures ExecuteFrom(w, tools, old(req.messages), usage0, iter) ==
            if over then Run(req.messages, usage, iter + 1, EndingOf(outcome))
              else ExecuteFrom(w, tools, req.messages, usage, iter + 1)
  {
    usage := usage0;
    var reply := w.chat(iter, req.messages);
    if reply.Failed? {
      return true, Stopped(reply.error), usage;
    }
    if |reply.choices| == 0 {
      return true, Answered(reply.choices), usage;
    }
    var msg := reply.choices[0];
    if |msg.toolCalls| == 0 {
      return true, Answered(reply.choices), usage;
    }
    var calls := DispatchToolCalls(w, tools, msg.toolCalls, |usage|);
    usage := usage + calls;
    var toolMessages := AnswerCalls(calls);
    req.messages := req.messages + [msg] + toolMessages;
    return false, TooManyRounds, usage;
  }

  function EndingOf(o: Outcome): Ending {
    match o
    case LoadFailed => Resolved
    case Answered(choices) => Final(choices)
    case Stopped(e) => ChatError(e)
    case TooManyRounds => Exceeded
  }

  ghost predicate Settles(w: World, tools: map<string, Tool>, r: Run, ms: seq<Message>) {
    ms <= r.messages && r.chats <= MAX_ITERATIONS
    && (r.ending.Resolved? && Pending(ms) ==> Accounted(w, tools, AssistantAsks, r, |ms| - 1, 0))
  }

  /** What ResolveTools gives back besides the usage. */
  datatype Resolution = Unloaded | Messages(messages: seq<Message>) | Broken(error: string) | TooLong

  method ResolveTools(w: World, req: ChatRequest) returns (outcome: Resolution, usage: seq<Execution>, chats: nat)
    modifies req
    ensures w.tools.None? ==> outcome == Unloaded && req.messages == old(req.messages) && usage == [] && chats == 0
    ensures w.tools == Some([]) ==>
              outcome == Messages(req.messages) && req.messages == old(req.messages) && usage == [] && chats == 0
    ensures w.tools.Some? && w.tools.value != [] ==>
              var tools := ByName(w.tools.value, |w.tools.value|);
              var r := ResolveFrom(w, tools, old(req.messages), [], 0);
              && r.messages == req.messages && r.calls == usage && r.chats == chats
              && outcome == ResolutionOf(r)
              && Settles(w, tools, r, old(req.messages))
  {
    usage, chats := [], 0;
    if w.tools.None? {
      return Unloaded, usage, chats;
    }
    var tools := IndexTools(w.tools.value);
    if tools == map[] {
      return Messages(req.messages), usage, chats;
    }
    ResolveTranscript(w, tools, req.messages, [], 0);
    assert Settles(w, tools, ResolveFrom(w, tools, req.messages, [], 0), req.messages);
    outcome, usage, chats := ResolveRounds(w, tools, req);
  }

  method ResolveRounds(w: World, tools: map<string, Tool>, req: ChatRequest)
    returns (outcome: Resolution, usage: seq<Execution>, chats: nat)
    modifies req
    ensures var r := ResolveFrom(w, tools, old(req.messages), [], 0);
            r.messages == req.messages && r.calls == usage && r.chats == chats && outcome == ResolutionOf(r)
  {
    usage, chats := [], 0;
    ghost var spec := ResolveFrom(w, tools, req.messages, [], 0);
    for iter := 0 to MAX_ITERATIONS
      invariant chats == iter
      invariant spec == ResolveFrom(w, tools, req.messages, usage, iter)
    {
      if !Pending(req.messages) {
        return Messages(req.messages), usage, chats;
      }
      var over;
      chats := chats + 1;
      over, outcome, usage := AnswerPending(w, tools, req, usage, iter);
      if over {
        return;
      }
    }
    return TooLong, usage, chats;
  }

  /** One pass over a pending message: the loop is over, or goes on with the longer transcript. */
  method AnswerPending(w: World, tools: map<string, Tool>, req: ChatRequest, usage0: seq<Execution>, iter: nat)
    returns (over: bool, outcome: Resolution, usage: seq<Execution>)
    requires iter < MAX_ITERATIONS && Pending(req.messages)
    modifies req
    ensures var r := ResolveFrom(w, tools, old(req.messages), usage0, iter);
            if over then r.messages == req.messages && r.calls == usage && r.chats == iter + 1
              && outcome == ResolutionOf(r)
            else r == ResolveFrom(w, tools, req.messages, usage, iter + 1)
  {
    var calls := DispatchToolCalls(w, tools, req.messages[|req.messages| - 1].toolCalls, |usage0|);
    usage := usage0 + calls;
    var toolMessages := AnswerCalls(calls);
    req.messages := req.messages + toolMessages;
    var reply := w.chat(iter, req.messages);
    if reply.Failed? {
      return true, Broken(reply.error), usage;
    }
    if |reply.choices| == 0 || |reply.choices[0].toolCalls| == 0 {
      return true, Messages(req.messages), usage;
    }
    req.messages := req.messages + [reply.choices[0]];
    return false, TooLong, usage;
  }

  function ResolutionOf(r: Run): Resolution {
    match r.ending
    case Final(choices) => Messages(choices)
    case Resolved => Messages(r.messages)
    case ChatError(e) => Broken(e)
    case Exceeded => TooLong
  }
}
