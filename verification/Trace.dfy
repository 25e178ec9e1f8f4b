/** The append-only message log of a run and the builder that fills it from
    streaming events (`traceBuilder`). Times are parameters. */
module Trace {
  import opened Common

  type Time = int

  datatype Role = User | Assistant | Tool

  datatype ToolCall = ToolCall(id: string, name: string, arguments: string, startedAt: Time)

  /** Where an output too large to inline was stored. */
  datatype OutputRef = OutputRef(outputId: string, sizeBytes: nat)

  datatype StoredMessage = StoredMessage(
    role: Role,
    messageId: string,
    content: string,
    reasoning: string,
    toolCalls: seq<ToolCall>,
    toolCallId: string,
    toolName: string,
    contentText: string,
    outputRef: Option<OutputRef>,
    isError: bool,
    ok: bool,
    startedAt: Option<Time>,
    endedAt: Option<Time>)

  /** A tool result: text, an error with or without a message, or another shape
      whose JSON rendering may fail. `json` is the rendering of the last two. */
  datatype ToolOutput =
    | TextOutput(text: string)
    | ErrorOutput(message: Option<string>, json: Option<string>)
    | OtherOutput(json: Option<string>)

  datatype Event =
    | UserMessage(text: string)
    | TextDelta(text: string)
    | ReasoningDelta(text: string)
    | CallTool(id: string, name: string, arguments: string)
    | ToolResult(id: string, name: string, output: ToolOutput, ref: Option<OutputRef>)
    | Flush

  datatype Builder = Builder(
    messages: seq<StoredMessage>,
    content: string,
    reasoning: string,
    toolCalls: seq<ToolCall>,
    startedAt: Option<Time>,
    callStarts: map<string, Time>)

  /** `%03d`. */
  function Padded(n: nat): string {
    var d := Decimal(n);
    if |d| == 1 then "00" + d else if |d| == 2 then "0" + d else d
  }

  function NextMessageId(index: nat): string {
    "msg_" + Padded(index + 1)
  }

  predicate HasPending(b: Builder) {
    b.content != "" || b.reasoning != "" || b.toolCalls != []
  }

  function PendingMessage(b: Builder, endedAt: Option<Time>): StoredMessage {
    StoredMessage(Assistant, NextMessageId(|b.messages|), b.content, b.reasoning, b.toolCalls,
                  "", "", "", None, false, false, b.startedAt, endedAt)
  }

  function Flushed(b: Builder, now: Time): Builder {
    if !HasPending(b) then b
    else Builder(b.messages + [PendingMessage(b, Some(now))], "", "", [], None, b.callStarts)
  }

  function Begun(b: Builder, now: Time): Option<Time> {
    if b.startedAt == None then Some(now) else b.startedAt
  }

  function OutputText(output: ToolOutput): string {
    match output
    case TextOutput(text) => text
    case ErrorOutput(message, json) => if message.Some? then message.value else if json.Some? then json.value else ""
    case OtherOutput(json) => if json.Some? then json.value else ""
  }

  function ResultMessage(b: Builder, id: string, name: string, output: ToolOutput, ref: Option<OutputRef>,
                         now: Time): StoredMessage {
    StoredMessage(Tool, NextMessageId(|b.messages|), "", "", [], id, name, OutputText(output), ref,
                  output.ErrorOutput?, !output.ErrorOutput?,
                  if id in b.callStarts then Some(b.callStarts[id]) else None, Some(now))
  }

  function Apply(b: Builder, e: Event, now: Time): Builder {
    match e
    case UserMessage(text) =>
      b.(messages := b.messages + [StoredMessage(User, NextMessageId(|b.messages|), text, "", [], "", "", "",
                                                 None, false, false, Some(now), None)])
    case TextDelta(text) => b.(content := b.content + text, startedAt := Begun(b, now))
    case ReasoningDelta(text) => b.(reasoning := b.reasoning + text, startedAt := Begun(b, now))
    case CallTool(id, name, arguments) =>
      b.(toolCalls := b.toolCalls + [ToolCall(id, name, arguments, now)],
         callStarts := b.callStarts[id := now],
         startedAt := Begun(b, now))
    case ToolResult(id, name, output, ref) =>
      var f := Flushed(b, now);
      f.(messages := f.messages + [ResultMessage(f, id, name, output, ref, now)],
         callStarts := f.callStarts - {id})
    case Flush => Flushed(b, now)
  }

  /** The messages a snapshot stores: the log, and what is pending as an
      assistant message without an end time. */
  function SnapshotMessages(b: Builder): seq<StoredMessage> {
    b.messages + (if HasPending(b) then [PendingMessage(b, None)] else [])
  }

  datatype Timed = Timed(event: Event, at: Time)

  function Replay(b: Builder, es: seq<Timed>): Builder
    decreases |es|
  {
    if es == [] then b else Replay(Apply(b, es[0].event, es[0].at), es[1..])
  }

  class TraceBuilder {
    var messages: seq<StoredMessage>
    var assistantContent: string
    var assistantReason: string
    var assistantToolCall: seq<ToolCall>
    var assistantStartAt: Option<Time>
    var toolCallStartAt: map<string, Time>

    ghost function State(): Builder
      reads this
    {
      Builder(messages, assistantContent, assistantReason, assistantToolCall, assistantStartAt, toolCallStartAt)
    }

    constructor (stored: seq<StoredMessage>)
      ensures State() == Builder(stored, "", "", [], None, map[])
    {
      messages := stored;
      assistantContent := "";
      assistantReason := "";
      assistantToolCall := [];
      assistantStartAt := None;
      toolCallStartAt := map[];
    }

    method AddUserMessage(text: string, now: Time)
      modifies this
      ensures State() == Apply(old(State()), UserMessage(text), now)
    {
      messages := messages + [StoredMessage(User, NextMessageId(|messages|), text, "", [], "", "", "",
                                            None, false, false, Some(now), None)];
    }

    method OnTextDelta(text: string, now: Time)
      modifies this
      ensures State() == Apply(old(State()), TextDelta(text), now)
    {
      if assistantStartAt == None {
        assistantStartAt := Some(now);
      }
      assistantContent := assistantContent + text;
    }

    method OnReasoningDelta(text: string, now: Time)
      modifies this
      ensures State() == Apply(old(State()), ReasoningDelta(text), now)
    {
      if assistantStartAt == None {
        assistantStartAt := Some(now);
      }
      assistantReason := assistantReason + text;
    }

    method OnToolCall(id: string, name: string, arguments: string, now: Time)
      modifies this
      ensures State() == Apply(old(State()), CallTool(id, name, arguments), now)
    {
      if assistantStartAt == None {
        assistantStartAt := Some(now);
      }
      toolCallStartAt := toolCallStartAt[id := now];
      assistantToolCall := assistantToolCall + [ToolCall(id, name, arguments, now)];
    }

    method OnToolResult(id: string, name: string, output: ToolOutput, ref: Option<OutputRef>, now: Time)
      modifies this
      ensures State() == Apply(old(State()), ToolResult(id, name, output, ref), now)
    {
      FlushAssistant(now);
      var startedAt: Option<Time> := None;
      if id in toolCallStartAt {
        startedAt := Some(toolCallStartAt[id]);
        toolCallStartAt := toolCallStartAt - {id};
      }
      var text := "";
      if output.TextOutput? {
        text := output.text;
      } else if output.json.Some? {
        text := output.json.value;
      }
      var isError := false;
      if output.ErrorOutput? {
        if output.message.Some? {
          text := output.message.value;
        }
        isError := true;
      }
      messages := messages + [StoredMessage(Tool, NextMessageId(|messages|), "", "", [], id, name, text, ref,
                                            isError, !isError, startedAt, Some(now))];
      assert toolCallStartAt == old(toolCallStartAt) - {id};
    }

    method FlushAssistant(now: Time)
      modifies this
      ensures State() == Flushed(old(State()), now)
    {
      if assistantContent == "" && assistantReason == "" && |assistantToolCall| == 0 {
        return;
      }
      messages := messages + [StoredMessage(Assistant, NextMessageId(|messages|), assistantContent, assistantReason,
                                            assistantToolCall, "", "", "", None, false, false,
                                            assistantStartAt, Some(now))];
      assistantContent := "";
      assistantReason := "";
      assistantToolCall := [];
      assistantStartAt := None;
    }

    method Snapshot() returns (stored: seq<StoredMessage>)
      ensures stored == SnapshotMessages(State())
    {
      stored := messages;
      if assistantContent != "" || assistantReason != "" || |assistantToolCall| > 0 {
        stored := stored + [StoredMessage(Assistant, NextMessageId(|stored|), assistantContent, assistantReason,
                                          assistantToolCall, "", "", "", None, false, false,
                                          assistantStartAt, None)];
      }
    }

    method Build(now: Time) returns (stored: seq<StoredMessage>)
      modifies this
      ensures stored == messages && State() == Flushed(old(State()), now)
    {
      FlushAssistant(now);
      stored := Snapshot();
      messages := stored;
    }
  }

  // ------------------------------------------------------------------ the log only grows

  lemma {:induction false} LogOnlyGrows(b: Builder, es: seq<Timed>)
    ensures b.messages <= Replay(b, es).messages
    decreases |es|
  {
    if es != [] {
      LogOnlyGrows(Apply(b, es[0].event, es[0].at), es[1..]);
    }
  }

  ghost predicate IdsInOrder(messages: seq<StoredMessage>) {
    forall i :: 0 <= i < |messages| ==> messages[i].messageId == NextMessageId(i)
  }

  lemma AppendKeepsIds(messages: seq<StoredMessage>, m: StoredMessage)
    requires IdsInOrder(messages) && m.messageId == NextMessageId(|messages|)
    ensures IdsInOrder(messages + [m])
  {
  }

  lemma FlushKeepsIds(b: Builder, now: Time)
    requires IdsInOrder(b.messages)
    ensures IdsInOrder(Flushed(b, now).messages)
  {
    if HasPending(b) {
      AppendKeepsIds(b.messages, PendingMessage(b, Some(now)));
    }
  }

  lemma ApplyKeepsIds(b: Builder, e: Event, now: Time)
    requires IdsInOrder(b.messages)
    ensures IdsInOrder(Apply(b, e, now).messages)
  {
    match e
    case UserMessage(_) => AppendKeepsIds(b.messages, Apply(b, e, now).messages[|b.messages|]);
    case ToolResult(id, name, output, ref) =>
      FlushKeepsIds(b, now);
      AppendKeepsIds(Flushed(b, now).messages, ResultMessage(Flushed(b, now), id, name, output, ref, now));
    case Flush => FlushKeepsIds(b, now);
    case _ =>
  }

  lemma {:induction false} IdsStayInOrder(b: Builder, es: seq<Timed>)
    requires IdsInOrder(b.messages)
    ensures IdsInOrder(Replay(b, es).messages)
    ensures IdsInOrder(SnapshotMessages(Replay(b, es)))
    decreases |es|
  {
    if es != [] {
      ApplyKeepsIds(b, es[0].event, es[0].at);
      IdsStayInOrder(Apply(b, es[0].event, es[0].at), es[1..]);
    }
  }

  /** An id is `msg_` and a numeral of at least three digits that counts from one. */
  lemma IdCounts(i: nat)
    ensures var id := NextMessageId(i);
            |id| >= 7 && id[..4] == "msg_" && DecimalValue(id[4..]) == i + 1
            && (forall c :: c in id[4..] ==> '0' <= c <= '9') && (|id| > 7 ==> id[4] != '0')
  {
    var d := Decimal(i + 1);
    DecimalRoundTrip(i + 1);
    DecimalIsPlain(i + 1);
    PaddedValue(d);
    assert NextMessageId(i)[4..] == Padded(i + 1) && NextMessageId(i)[..4] == "msg_";
  }

  lemma PaddedValue(d: string)
    ensures DecimalValue("0" + d) == DecimalValue(d) && DecimalValue("00" + d) == DecimalValue(d)
  {
    ZeroInFront(d);
    ZeroInFront("0" + d);
    assert "0" + ("0" + d) == "00" + d;
  }

  lemma {:induction false} ZeroInFront(d: string)
    ensures DecimalValue("0" + d) == DecimalValue(d)
  {
    if d == "" {
      assert ("0" + d)[..0] == "" && ("0" + d)[0] == '0';
    } else {
      ZeroInFront(d[..|d| - 1]);
      assert ("0" + d)[..|d|] == "0" + d[..|d| - 1];
    }
  }

  /** Different positions have different ids. */
  lemma IdsDiffer(i: nat, j: nat)
    requires i != j
    ensures NextMessageId(i) != NextMessageId(j)
  {
    IdCounts(i);
    IdCounts(j);
  }

  // ------------------------------------------------------------------ times and flags

  /** The time the pending message began: that of the first delta or call since
      the last flush. */
  lemma PendingStarts(b: Builder, e: Event, now: Time)
    requires e.TextDelta? || e.ReasoningDelta? || e.CallTool?
    ensures Apply(b, e, now).startedAt == if b.startedAt.Some? then b.startedAt else Some(now)
    ensures Apply(b, e, now).messages == b.messages
  {
  }

  /** A flush stamps the message it stores and starts afresh. */
  lemma FlushStamps(b: Builder, now: Time)
    requires b.content != "" || b.reasoning != "" || b.toolCalls != []
    ensures var t := Apply(b, Flush, now);
            && |t.messages| == |b.messages| + 1 && t.messages[..|b.messages|] == b.messages
            && t.content == "" && t.reasoning == "" && t.toolCalls == [] && t.startedAt == None && t.callStarts == b.callStarts
            && var m := t.messages[|b.messages|];
            && m.role == Assistant && m.content == b.content && m.reasoning == b.reasoning && m.toolCalls == b.toolCalls
            && m.startedAt == b.startedAt && m.endedAt == Some(now)
            && m.messageId == NextMessageId(|b.messages|)
  {
  }

  /** A result's message: the text of its output by kind, its flags, and the time
      from its call to now. */
  lemma ResultStamps(b: Builder, id: string, name: string, output: ToolOutput, ref: Option<OutputRef>, now: Time)
    ensures var t := Apply(b, ToolResult(id, name, output, ref), now);
            && t.messages != [] && var m := t.messages[|t.messages| - 1];
            && m.role == Tool && m.toolCallId == id && m.toolName == name && m.outputRef == ref
            && (output.TextOutput? ==> m.contentText == output.text)
            && (output.ErrorOutput? && output.message.Some? ==> m.contentText == output.message.value)
            && (output.ErrorOutput? && output.message.None? && output.json.Some? ==> m.contentText == output.json.value)
            && (output.ErrorOutput? && output.message.None? && output.json.None? ==> m.contentText == "")
            && (output.OtherOutput? ==> m.contentText == if output.json.Some? then output.json.value else "")
            && m.isError == output.ErrorOutput? && m.ok == !output.ErrorOutput?
            && m.startedAt == (if id in b.callStarts then Some(b.callStarts[id]) else None) && m.endedAt == Some(now)
            && id !in t.callStarts
  {
  }

  /** A user message is stored at once, with its time; what is pending stays pending. */
  lemma UserStamps(b: Builder, text: string, now: Time)
    ensures var t := Apply(b, UserMessage(text), now);
            && |t.messages| == |b.messages| + 1 && t.messages[..|b.messages|] == b.messages
            && t.content == b.content && t.reasoning == b.reasoning && t.toolCalls == b.toolCalls
            && t.startedAt == b.startedAt && t.callStarts == b.callStarts
            && var m := t.messages[|b.messages|];
            && m.role == User && m.content == text && m.messageId == NextMessageId(|b.messages|)
            && m.startedAt == Some(now) && m.endedAt == None && m.toolCalls == []
  {
  }

  /** A call is kept with the time it came, and so is its start. */
  lemma CallStamps(b: Builder, id: string, name: string, arguments: string, now: Time)
    ensures var t := Apply(b, CallTool(id, name, arguments), now);
            && |t.toolCalls| == |b.toolCalls| + 1 && t.toolCalls[..|b.toolCalls|] == b.toolCalls
            && t.toolCalls[|b.toolCalls|] == ToolCall(id, name, arguments, now)
            && id in t.callStarts && t.callStarts[id] == now
            && (forall other :: other != id ==> (other in t.callStarts <==> other in b.callStarts))
            && (forall other :: other != id && other in b.callStarts ==> t.callStarts[other] == b.callStarts[other])
  {
  }

  // ------------------------------------------------------------------ nothing is lost or invented

  /** Everything a log or an event sequence says, one stream per kind. */
  datatype Streams = Streams(
    text: string,
    reasoning: string,
    calls: seq<(string, string, string)>,
    results: seq<(string, string, string, bool, Option<OutputRef>)>,
    users: seq<string>)

  function Join(a: Streams, b: Streams): Streams {
    Streams(a.text + b.text, a.reasoning + b.reasoning, a.calls + b.calls, a.results + b.results, a.users + b.users)
  }

  function Silence(): Streams {
    Streams("", "", [], [], [])
  }

  function CallKeys(calls: seq<ToolCall>): seq<(string, string, string)> {
    seq(|calls|, i requires 0 <= i < |calls| => (calls[i].id, calls[i].name, calls[i].arguments))
  }

  function OfMessage(m: StoredMessage): Streams {
    match m.role
    case User => Silence().(users := [m.content])
    case Assistant => Streams(m.content, m.reasoning, CallKeys(m.toolCalls), [], [])
    case Tool => Silence().(results := [(m.toolCallId, m.toolName, m.contentText, m.isError, m.outputRef)])
  }

  function OfLog(messages: seq<StoredMessage>): Streams {
    if messages == [] then Silence()
    else Join(OfLog(messages[..|messages| - 1]), OfMessage(messages[|messages| - 1]))
  }

  function OfPending(b: Builder): Streams {
    Streams(b.content, b.reasoning, CallKeys(b.toolCalls), [], [])
  }

  function OfBuilder(b: Builder): Streams {
    Join(OfLog(b.messages), OfPending(b))
  }

  function OfEvent(e: Event): Streams {
    match e
    case UserMessage(text) => Silence().(users := [text])
    case TextDelta(text) => Silence().(text := text)
    case ReasoningDelta(text) => Silence().(reasoning := text)
    case CallTool(id, name, arguments) => Silence().(calls := [(id, name, arguments)])
    case ToolResult(id, name, output, ref) =>
      Silence().(results := [(id, name, OutputText(output), output.ErrorOutput?, ref)])
    case Flush => Silence()
  }

  function OfEvents(es: seq<Timed>): Streams {
    if es == [] then Silence() else Join(OfEvent(es[0].event), OfEvents(es[1..]))
  }

  lemma OfLogAppend(messages: seq<StoredMessage>, m: StoredMessage)
    ensures OfLog(messages + [m]) == Join(OfLog(messages), OfMessage(m))
  {
    assert (messages + [m])[..|messages|] == messages;
  }

  lemma JoinAssociates(a: Streams, b: Streams, c: Streams)
    ensures Join(Join(a, b), c) == Join(a, Join(b, c))
  {
  }

  lemma FlushConserves(b: Builder, now: Time)
    ensures OfBuilder(Flushed(b, now)) == OfBuilder(b)
  {
    if HasPending(b) {
      PendingIsSaid(b, now);
      OfLogAppend(b.messages, PendingMessage(b, Some(now)));
      SilenceAdds(OfLog(Flushed(b, now).messages));
    }
  }

  lemma PendingIsSaid(b: Builder, now: Time)
    ensures OfMessage(PendingMessage(b, Some(now))) == OfPending(b)
    ensures OfPending(Flushed(b, now)) == if HasPending(b) then Silence() else OfPending(b)
  {
  }

  lemma SilenceAdds(a: Streams)
    ensures Join(a, Silence()) == a
  {
  }

  lemma CallConserves(b: Builder, id: string, name: string, arguments: string, now: Time)
    ensures OfBuilder(Apply(b, CallTool(id, name, arguments), now))
            == Join(OfBuilder(b), OfEvent(CallTool(id, name, arguments)))
  {
    var calls := b.toolCalls + [ToolCall(id, name, arguments, now)];
    assert CallKeys(calls) == CallKeys(b.toolCalls) + [(id, name, arguments)];
  }

  lemma AppendedResult(f: Builder, next: Builder, id: string, name: string, output: ToolOutput, ref: Option<OutputRef>,
                       now: Time)
    requires f.content == "" && f.reasoning == "" && f.toolCalls == []
    requires next == f.(messages := f.messages + [ResultMessage(f, id, name, output, ref, now)],
                        callStarts := f.callStarts - {id})
    ensures OfBuilder(next) == Join(OfBuilder(f), OfEvent(ToolResult(id, name, output, ref)))
  {
    OfLogAppend(f.messages, ResultMessage(f, id, name, output, ref, now));
    assert OfPending(f) == Silence() == OfPending(next);
  }

  lemma ResultConserves(b: Builder, id: string, name: string, output: ToolOutput, ref: Option<OutputRef>, now: Time)
    ensures OfBuilder(Apply(b, ToolResult(id, name, output, ref), now))
            == Join(OfBuilder(b), OfEvent(ToolResult(id, name, output, ref)))
  {
    FlushConserves(b, now);
    AppendedResult(Flushed(b, now), Apply(b, ToolResult(id, name, output, ref), now), id, name, output, ref, now);
  }

  lemma UserConserves(b: Builder, text: string, now: Time)
    ensures OfBuilder(Apply(b, UserMessage(text), now)) == Join(OfBuilder(b), OfEvent(UserMessage(text)))
  {
    OfLogAppend(b.messages, Apply(b, UserMessage(text), now).messages[|b.messages|]);
  }

  lemma {:induction false} DeltaConserves(b: Builder, e: Event, now: Time)
    requires e.TextDelta? || e.ReasoningDelta?
    ensures OfBuilder(Apply(b, e, now)) == Join(OfBuilder(b), OfEvent(e))
  {
    assert OfPending(Apply(b, e, now)) == Join(OfPending(b), OfEvent(e));
    JoinAssociates(OfLog(b.messages), OfPending(b), OfEvent(e));
  }

  lemma ApplyConserves(b: Builder, e: Event, now: Time)
    ensures OfBuilder(Apply(b, e, now)) == Join(OfBuilder(b), OfEvent(e))
  {
    match e
    case UserMessage(text) => UserConserves(b, text, now);
    case CallTool(id, name, arguments) => CallConserves(b, id, name, arguments, now);
    case ToolResult(id, name, output, ref) => ResultConserves(b, id, name, output, ref, now);
    case Flush => FlushConserves(b, now);
    case _ => DeltaConserves(b, e, now);
  }

  /** The log and the pending buffers together say exactly what the events
      said: every delta, call, result and user message once and in order. */
  lemma {:induction false} EventsConserved(b: Builder, es: seq<Timed>)
    ensures OfBuilder(Replay(b, es)) == Join(OfBuilder(b), OfEvents(es))
    decreases |es|
  {
    if es != [] {
      var next := Apply(b, es[0].event, es[0].at);
      ApplyConserves(b, es[0].event, es[0].at);
      EventsConserved(next, es[1..]);
      JoinAssociates(OfBuilder(b), OfEvent(es[0].event), OfEvents(es[1..]));
    }
  }

  /** A snapshot holds what flushing first would have stored, up to the end
      time of the last message, and it says everything so far. */
  lemma SnapshotIsFlush(b: Builder, now: Time)
    ensures |SnapshotMessages(b)| == |Flushed(b, now).messages|
    ensures forall i :: 0 <= i < |SnapshotMessages(b)| ==>
              SnapshotMessages(b)[i] == Flushed(b, now).messages[i]
              || (i == |b.messages|
                  && SnapshotMessages(b)[i] == Flushed(b, now).messages[i].(endedAt := None))
    ensures OfLog(SnapshotMessages(b)) == OfBuilder(b)
  {
    if HasPending(b) {
      OfLogAppend(b.messages, PendingMessage(b, None));
    } else {
      assert SnapshotMessages(b) == b.messages;
      assert OfPending(b) == Silence();
    }
  }
}
