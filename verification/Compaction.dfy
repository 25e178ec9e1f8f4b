/** Compaction of old history into a checkpoint (`compactionManager`): where the
    log is cut, what the checkpoint carries forward, and what the next prompt
    is rebuilt from. */
module Compaction {
  import opened Common
  import opened Trace

  // ------------------------------------------------------------------ the split point

  predicate IsBoundary(m: StoredMessage) {
    m.role == User || m.role == Assistant
  }

  /** The largest boundary in [1, idx], or 0. */
  function Backward(messages: seq<StoredMessage>, idx: nat): (r: nat)
    requires idx < |messages|
    ensures r <= idx
  {
    if idx == 0 then 0 else if IsBoundary(messages[idx]) then idx else Backward(messages, idx - 1)
  }

  /** The smallest boundary in [idx, |messages|), or 0. */
  function Forward(messages: seq<StoredMessage>, idx: nat): (r: nat)
    ensures r < |messages| || r == 0
    decreases |messages| - idx
  {
    if idx >= |messages| then 0 else if IsBoundary(messages[idx]) then idx else Forward(messages, idx + 1)
  }

  function SplitPoint(messages: seq<StoredMessage>, keepRecent: nat): (r: nat)
    requires keepRecent >= 1
    ensures r < |messages| || r == 0
  {
    if |messages| <= keepRecent then 0
    else
      var target := |messages| - keepRecent;
      var back := Backward(messages, target);
      if back > 0 then back else Forward(messages, target + 1)
  }

  /** No user or assistant message in [lo, hi). */
  predicate NoBoundary(messages: seq<StoredMessage>, lo: int, hi: int) {
    forall i :: lo <= i < hi && 0 <= i < |messages| ==> !IsBoundary(messages[i])
  }

  lemma {:induction false} BackwardFinds(messages: seq<StoredMessage>, idx: nat)
    requires idx < |messages|
    ensures Backward(messages, idx) > 0 ==> IsBoundary(messages[Backward(messages, idx)])
    ensures NoBoundary(messages, Backward(messages, idx) + 1, idx + 1)
  {
    if idx > 0 && !IsBoundary(messages[idx]) {
      BackwardFinds(messages, idx - 1);
    }
  }

  lemma {:induction false} ForwardFinds(messages: seq<StoredMessage>, idx: nat)
    requires idx >= 1
    ensures var f := Forward(messages, idx);
            if f == 0 then NoBoundary(messages, idx, |messages|)
            else idx <= f < |messages| && IsBoundary(messages[f]) && NoBoundary(messages, idx, f)
    decreases |messages| - idx
  {
    if idx < |messages| && !IsBoundary(messages[idx]) {
      ForwardFinds(messages, idx + 1);
    }
  }

  /** The cut leaves at least keepRecent messages whenever a boundary allows it
      and is then as late as possible; failing that it is the earliest boundary
      after the target; 0 means there is none. */
  ghost predicate BestSplit(messages: seq<StoredMessage>, keepRecent: nat, split: nat) {
    var target := |messages| - keepRecent;
    if target <= 0 || NoBoundary(messages, 1, |messages|) then split == 0
    else
      && 1 <= split < |messages|
      && IsBoundary(messages[split])
      && (if NoBoundary(messages, 1, target + 1) then target < split && NoBoundary(messages, 1, split)
          else split <= target && NoBoundary(messages, split + 1, target + 1))
  }

  lemma SplitPointBest(messages: seq<StoredMessage>, keepRecent: nat)
    requires keepRecent >= 1
    ensures BestSplit(messages, keepRecent, SplitPoint(messages, keepRecent))
  {
    if |messages| > keepRecent {
      var target := |messages| - keepRecent;
      BackwardFinds(messages, target);
      ForwardFinds(messages, target + 1);
    }
  }

  lemma BestSplitUnique(messages: seq<StoredMessage>, keepRecent: nat, a: nat, b: nat)
    requires BestSplit(messages, keepRecent, a) && BestSplit(messages, keepRecent, b)
    ensures a == b
  {
  }

  method FindCompactionSplitPoint(messages: seq<StoredMessage>, keepRecent: nat) returns (split: nat)
    requires keepRecent >= 1
    ensures split == SplitPoint(messages, keepRecent)
    ensures BestSplit(messages, keepRecent, split)
  {
    SplitPointBest(messages, keepRecent);
    if |messages| <= keepRecent {
      return 0;
    }
    var target := |messages| - keepRecent;
    var idx := target;
    while idx > 0
      invariant 0 <= idx <= target
      invariant Backward(messages, target) == Backward(messages, idx)
    {
      if messages[idx].role == User {
        return idx;
      }
      if messages[idx].role == Assistant {
        return idx;
      }
      idx := idx - 1;
    }
    idx := target + 1;
    while idx < |messages|
      invariant target + 1 <= idx <= |messages|
      invariant Forward(messages, target + 1) == Forward(messages, idx)
    {
      if messages[idx].role == User || messages[idx].role == Assistant {
        return idx;
      }
      idx := idx + 1;
    }
    return 0;
  }

  /** On a growing log whose target does not move back, the split never does. */
  lemma SplitNeverMovesBack(messages: seq<StoredMessage>, more: seq<StoredMessage>, keepRecent: nat, keepLater: nat)
    requires keepRecent >= 1 && keepLater >= 1
    requires |messages| - keepRecent <= |messages + more| - keepLater
    ensures SplitPoint(messages, keepRecent) <= SplitPoint(messages + more, keepLater)
  {
    var s := SplitPoint(messages, keepRecent);
    SplitPointBest(messages, keepRecent);
    SplitPointBest(messages + more, keepLater);
    if s > 0 {
      assert (messages + more)[s] == messages[s];
      assert forall i :: 0 <= i < |messages| ==> (messages + more)[i] == messages[i];
    }
  }

  /** Covered count after one more compaction: it stays or grows exactly when
      the new target has reached the old cut or the old cut is the first
      boundary there is. */
  lemma CoveredShrinksExactly(messages: seq<StoredMessage>, keepRecent: nat, covered: nat)
    requires keepRecent >= 1 && |messages| > keepRecent
    requires 1 <= covered < |messages| && IsBoundary(messages[covered])
    ensures SplitPoint(messages, keepRecent) >= covered
            <==> |messages| - keepRecent >= covered || NoBoundary(messages, 1, covered)
  {
    SplitPointBest(messages, keepRecent);
  }

  // ------------------------------------------------------------------ orphaned tool results

  ghost predicate Calls(m: StoredMessage, id: string) {
    m.role == Assistant && exists k :: 0 <= k < |m.toolCalls| && m.toolCalls[k].id == id
  }

  /** Every tool message has, earlier in the same list, the assistant message
      that made its call. */
  ghost predicate NoOrphan(messages: seq<StoredMessage>) {
    forall j :: 0 <= j < |messages| && messages[j].role == Tool ==>
      exists i :: 0 <= i < j && Calls(messages[i], messages[j].toolCallId)
  }

  /** The last boundary before j, or -1. */
  function TurnStart(messages: seq<StoredMessage>, j: nat): (r: int)
    requires j <= |messages|
    ensures -1 <= r < j
  {
    if j == 0 then -1 else if IsBoundary(messages[j - 1]) then j - 1 else TurnStart(messages, j - 1)
  }

  lemma {:induction false} TurnStartFacts(messages: seq<StoredMessage>, j: nat)
    requires j <= |messages|
    ensures TurnStart(messages, j) >= 0 ==> IsBoundary(messages[TurnStart(messages, j)])
    ensures NoBoundary(messages, TurnStart(messages, j) + 1, j)
  {
    if j > 0 && !IsBoundary(messages[j - 1]) {
      TurnStartFacts(messages, j - 1);
    }
  }

  lemma {:induction false} TurnStartOfPrefix(messages: seq<StoredMessage>, more: seq<StoredMessage>, j: nat)
    requires j <= |messages|
    ensures TurnStart(messages + more, j) == TurnStart(messages, j)
  {
    if j > 0 {
      TurnStartOfPrefix(messages, more, j - 1);
    }
  }

  /** Each tool result answers the turn it stands in. Turns that start at index
      0 can never be in a kept tail, so they are exempt. */
  ghost predicate AnswersItsTurn(messages: seq<StoredMessage>) {
    forall j :: 0 <= j < |messages| && messages[j].role == Tool && TurnStart(messages, j) >= 1 ==>
      Calls(messages[TurnStart(messages, j)], messages[j].toolCallId)
  }

  lemma BoundaryTailKeepsCallers(messages: seq<StoredMessage>, cut: nat)
    requires AnswersItsTurn(messages) && 1 <= cut < |messages| && IsBoundary(messages[cut])
    ensures NoOrphan(messages[cut..])
  {
    var tail := messages[cut..];
    forall j | 0 <= j < |tail| && tail[j].role == Tool
      ensures exists i :: 0 <= i < j && Calls(tail[i], tail[j].toolCallId)
    {
      var start := TurnStart(messages, cut + j);
      TurnStartFacts(messages, cut + j);
      assert cut <= start;
      assert Calls(tail[start - cut], tail[j].toolCallId);
    }
  }

  /** Cutting at the split point never orphans a tool result, for any number of
      kept messages, exactly when every result answers its own turn. */
  lemma NoCutOrphansExactly(messages: seq<StoredMessage>)
    ensures AnswersItsTurn(messages)
            <==> forall k: nat :: k >= 1 && SplitPoint(messages, k) > 0 ==> NoOrphan(messages[SplitPoint(messages, k)..])
  {
    if AnswersItsTurn(messages) {
      forall k: nat | k >= 1 && SplitPoint(messages, k) > 0 ensures NoOrphan(messages[SplitPoint(messages, k)..]) {
        SplitPointBest(messages, k);
        BoundaryTailKeepsCallers(messages, SplitPoint(messages, k));
      }
    }
    if forall k: nat :: k >= 1 && SplitPoint(messages, k) > 0 ==> NoOrphan(messages[SplitPoint(messages, k)..]) {
      forall j | 0 <= j < |messages| && messages[j].role == Tool && TurnStart(messages, j) >= 1
        ensures Calls(messages[TurnStart(messages, j)], messages[j].toolCallId)
      {
        CutAtTurn(messages, j);
      }
    }
  }

  lemma CutAtTurn(messages: seq<StoredMessage>, j: nat)
    requires j < |messages| && messages[j].role == Tool && TurnStart(messages, j) >= 1
    requires forall k: nat :: k >= 1 && SplitPoint(messages, k) > 0 ==> NoOrphan(messages[SplitPoint(messages, k)..])
    ensures Calls(messages[TurnStart(messages, j)], messages[j].toolCallId)
  {
    var start := TurnStart(messages, j);
    TurnStartFacts(messages, j);
    var k := |messages| - start;
    assert SplitPoint(messages, k) == start;
    var tail := messages[start..];
    assert NoOrphan(tail);
    assert tail[j - start] == messages[j];
    var i :| 0 <= i < j - start && Calls(tail[i], messages[j].toolCallId);
    assert tail[i] == messages[start + i];
    assert i == 0;
  }

  // ------------------------------------------------------------------ the rebuilt prompt

  datatype PromptMessage =
    | SystemPrompt(text: string)
    | UserPrompt(text: string)
    | AssistantPrompt(content: Option<string>, calls: seq<(string, string, string)>)
    | ToolPrompt(callId: string, output: string)

  function PromptOf(m: StoredMessage): seq<PromptMessage> {
    match m.role
    case User => [UserPrompt(m.content)]
    case Assistant =>
      var text := if TrimSpace(m.content) != "" then Some(m.content) else None;
      if text == None && m.toolCalls == [] then [] else [AssistantPrompt(text, CallKeys(m.toolCalls))]
    case Tool => [ToolPrompt(m.toolCallId, m.contentText)]
  }

  function ToPrompt(messages: seq<StoredMessage>): seq<PromptMessage> {
    if messages == [] then [] else ToPrompt(messages[..|messages| - 1]) + PromptOf(messages[|messages| - 1])
  }

  method TraceToFantasyMessages(messages: seq<StoredMessage>) returns (prompt: seq<PromptMessage>)
    ensures prompt == ToPrompt(messages)
  {
    prompt := [];
    for i := 0 to |messages|
      invariant prompt == ToPrompt(messages[..i])
    {
      var m := messages[i];
      assert messages[..i + 1][..i] == messages[..i];
      match m.role {
        case User =>
          prompt := prompt + [UserPrompt(m.content)];
        case Assistant =>
          var text := if TrimSpace(m.content) != "" then Some(m.content) else None;
          if text.Some? || |m.toolCalls| > 0 {
            prompt := prompt + [AssistantPrompt(text, CallKeys(m.toolCalls))];
          }
        case Tool =>
          prompt := prompt + [ToolPrompt(m.toolCallId, m.contentText)];
      }
    }
    assert messages[..|messages|] == messages;
  }

  ghost predicate PromptCalls(p: PromptMessage, id: string) {
    p.AssistantPrompt? && exists k :: 0 <= k < |p.calls| && p.calls[k].0 == id
  }

  ghost predicate PromptNoOrphan(prompt: seq<PromptMessage>) {
    forall j :: 0 <= j < |prompt| && prompt[j].ToolPrompt? ==>
      exists i :: 0 <= i < j && PromptCalls(prompt[i], prompt[j].callId)
  }

  /** Assistant messages that make calls are never dropped from the prompt. */
  lemma {:induction false} CallerInPrompt(messages: seq<StoredMessage>, i: nat, id: string)
    requires i < |messages| && Calls(messages[i], id)
    ensures exists k :: 0 <= k < |ToPrompt(messages)| && PromptCalls(ToPrompt(messages)[k], id)
  {
    var n := |messages| - 1;
    var before := ToPrompt(messages[..n]);
    if i == n {
      var m := messages[i];
      var c :| 0 <= c < |m.toolCalls| && m.toolCalls[c].id == id;
      assert CallKeys(m.toolCalls)[c].0 == id;
      assert PromptCalls(ToPrompt(messages)[|before|], id);
    } else {
      CallerInPrompt(messages[..n], i, id);
      var k :| 0 <= k < |before| && PromptCalls(before[k], id);
      assert ToPrompt(messages)[k] == before[k];
    }
  }

  lemma NoOrphanOfPrefix(messages: seq<StoredMessage>, n: nat)
    requires n <= |messages| && NoOrphan(messages)
    ensures NoOrphan(messages[..n])
  {
    forall j | 0 <= j < n && messages[..n][j].role == Tool
      ensures exists i :: 0 <= i < j && Calls(messages[..n][i], messages[..n][j].toolCallId)
    {
      var i :| 0 <= i < j && Calls(messages[i], messages[j].toolCallId);
      assert messages[..n][i] == messages[i];
    }
  }

  lemma NoOrphanAppend(prompt: seq<PromptMessage>, p: PromptMessage)
    requires PromptNoOrphan(prompt)
    requires p.ToolPrompt? ==> exists i :: 0 <= i < |prompt| && PromptCalls(prompt[i], p.callId)
    ensures PromptNoOrphan(prompt + [p])
  {
    var longer := prompt + [p];
    forall j | 0 <= j < |longer| && longer[j].ToolPrompt?
      ensures exists i :: 0 <= i < j && PromptCalls(longer[i], longer[j].callId)
    {
      var i :| 0 <= i < |prompt| && i < j && PromptCalls(prompt[i], longer[j].callId);
      assert longer[i] == prompt[i];
    }
  }

  lemma {:induction false} PromptKeepsCallers(messages: seq<StoredMessage>)
    requires NoOrphan(messages)
    ensures PromptNoOrphan(ToPrompt(messages))
  {
    if messages != [] {
      var n := |messages| - 1;
      NoOrphanOfPrefix(messages, n);
      PromptKeepsCallers(messages[..n]);
      CallerBefore(messages);
      if PromptOf(messages[n]) == [] {
        assert ToPrompt(messages) == ToPrompt(messages[..n]);
      } else {
        NoOrphanAppend(ToPrompt(messages[..n]), PromptOf(messages[n])[0]);
      }
    }
  }

  /** The call of a result at the end is in the prompt of what precedes it. */
  lemma CallerBefore(messages: seq<StoredMessage>)
    requires messages != [] && NoOrphan(messages)
    ensures var n := |messages| - 1;
            messages[n].role == Tool ==>
              exists i :: 0 <= i < |ToPrompt(messages[..n])|
                          && PromptCalls(ToPrompt(messages[..n])[i], messages[n].toolCallId)
  {
    var n := |messages| - 1;
    if messages[n].role == Tool {
      var i :| 0 <= i < n && Calls(messages[i], messages[n].toolCallId);
      assert messages[..n][i] == messages[i];
      CallerInPrompt(messages[..n], i, messages[n].toolCallId);
    }
  }

  lemma NoOrphanBehind(front: seq<PromptMessage>, prompt: seq<PromptMessage>)
    requires PromptNoOrphan(prompt) && forall p :: p in front ==> !p.ToolPrompt?
    ensures PromptNoOrphan(front + prompt)
  {
    var longer := front + prompt;
    forall j | 0 <= j < |longer| && longer[j].ToolPrompt?
      ensures exists i :: 0 <= i < j && PromptCalls(longer[i], longer[j].callId)
    {
      var i :| 0 <= i < j - |front| && PromptCalls(prompt[i], longer[j].callId);
      assert longer[|front| + i] == prompt[i];
    }
  }

  /** What a log or a prompt says, one item after the other. */
  datatype Item =
    | UserSaid(text: string)
    | AssistantSaid(text: string)
    | Called(id: string, name: string, arguments: string)
    | Answered(id: string, text: string)

  function CallsSaid(calls: seq<ToolCall>): seq<Item> {
    seq(|calls|, i requires 0 <= i < |calls| => Called(calls[i].id, calls[i].name, calls[i].arguments))
  }

  function SaidBy(m: StoredMessage): seq<Item> {
    match m.role
    case User => [UserSaid(m.content)]
    case Assistant => (if TrimSpace(m.content) == "" then [] else [AssistantSaid(m.content)]) + CallsSaid(m.toolCalls)
    case Tool => [Answered(m.toolCallId, m.contentText)]
  }

  function ReadLog(messages: seq<StoredMessage>): seq<Item> {
    if messages == [] then [] else ReadLog(messages[..|messages| - 1]) + SaidBy(messages[|messages| - 1])
  }

  function SaidIn(p: PromptMessage): seq<Item> {
    match p
    case SystemPrompt(_) => []
    case UserPrompt(text) => [UserSaid(text)]
    case AssistantPrompt(content, calls) =>
      (if content.Some? then [AssistantSaid(content.value)] else [])
      + seq(|calls|, i requires 0 <= i < |calls| => Called(calls[i].0, calls[i].1, calls[i].2))
    case ToolPrompt(id, output) => [Answered(id, output)]
  }

  function ReadPrompt(prompt: seq<PromptMessage>): seq<Item> {
    if prompt == [] then [] else ReadPrompt(prompt[..|prompt| - 1]) + SaidIn(prompt[|prompt| - 1])
  }

  /** Messages that say anything. */
  function Speaking(messages: seq<StoredMessage>): nat {
    if messages == [] then 0
    else Speaking(messages[..|messages| - 1]) + (if SaidBy(messages[|messages| - 1]) == [] then 0 else 1)
  }

  lemma SaysTheSame(m: StoredMessage)
    ensures |PromptOf(m)| == if SaidBy(m) == [] then 0 else 1
    ensures PromptOf(m) != [] ==> SaidIn(PromptOf(m)[0]) == SaidBy(m)
  {
    if m.role == Assistant && PromptOf(m) != [] {
      assert SaidIn(PromptOf(m)[0]) == SaidBy(m);
    }
  }

  /** The prompt says what the log says, item by item and in order: user texts,
      assistant texts that are not blank, calls, and results with their text; one
      message for each message that says anything. */
  lemma {:induction false} PromptReadsAsLog(messages: seq<StoredMessage>)
    ensures ReadPrompt(ToPrompt(messages)) == ReadLog(messages)
    ensures |ToPrompt(messages)| == Speaking(messages)
  {
    if messages != [] {
      var m := messages[|messages| - 1];
      var before := ToPrompt(messages[..|messages| - 1]);
      PromptReadsAsLog(messages[..|messages| - 1]);
      SaysTheSame(m);
      if PromptOf(m) == [] {
        assert before + [] == before;
      } else {
        assert PromptOf(m) == [PromptOf(m)[0]];
        assert (before + PromptOf(m))[..|before|] == before;
      }
    }
  }

  // ------------------------------------------------------------------ references to spilled outputs

  datatype Ref = Ref(outputId: string, toolName: string, why: string)

  function RefIds(refs: seq<Ref>): seq<string> {
    seq(|refs|, i requires 0 <= i < |refs| => refs[i].outputId)
  }

  function IdSet(refs: seq<Ref>): set<string> {
    set r | r in refs :: r.outputId
  }

  ghost predicate NoDuplicates(refs: seq<Ref>) {
    forall i, j :: 0 <= i < j < |refs| ==> refs[i].outputId != refs[j].outputId
  }

  function RefOf(m: StoredMessage): Ref
    requires m.outputRef.Some?
  {
    Ref(m.outputRef.value.outputId, m.toolName, "Output from " + m.toolName + " (tool call " + m.toolCallId + ")")
  }

  /** The output ids a list of messages mentions. */
  function OutputIds(messages: seq<StoredMessage>): set<string> {
    set m | m in messages && m.outputRef.Some? :: m.outputRef.value.outputId
  }

  function CollectRefs(messages: seq<StoredMessage>): seq<Ref> {
    if messages == [] then []
    else
      var refs := CollectRefs(messages[..|messages| - 1]);
      var m := messages[|messages| - 1];
      if m.outputRef.None? || m.outputRef.value.outputId in IdSet(refs) then refs else refs + [RefOf(m)]
  }

  lemma {:induction false} CollectRefsExact(messages: seq<StoredMessage>)
    ensures IdSet(CollectRefs(messages)) == OutputIds(messages)
    ensures NoDuplicates(CollectRefs(messages))
  {
    if messages != [] {
      var n := |messages| - 1;
      var refs := CollectRefs(messages[..n]);
      var m := messages[n];
      CollectRefsExact(messages[..n]);
      assert messages == messages[..n] + [m];
      if m.outputRef.Some? {
        assert OutputIds(messages) == OutputIds(messages[..n]) + {m.outputRef.value.outputId};
        assert IdSet(refs + [RefOf(m)]) == IdSet(refs) + {m.outputRef.value.outputId};
        assert forall i :: 0 <= i < |refs| ==> refs[i].outputId in IdSet(refs);
      } else {
        assert OutputIds(messages) == OutputIds(messages[..n]);
      }
    }
  }

  /** Every reference describes the first message that mentions its output. */
  ghost predicate TellsFirstMention(messages: seq<StoredMessage>, ref: Ref, j: nat) {
    && j < |messages| && messages[j].outputRef.Some? && messages[j].outputRef.value.outputId == ref.outputId
    && ref.toolName == messages[j].toolName
    && ref.why == "Output from " + messages[j].toolName + " (tool call " + messages[j].toolCallId + ")"
    && (forall i :: 0 <= i < j && messages[i].outputRef.Some? ==> messages[i].outputRef.value.outputId != ref.outputId)
  }

  lemma {:induction false} RefsTellFirstMention(messages: seq<StoredMessage>)
    ensures forall ref :: ref in CollectRefs(messages) ==> exists j: nat :: TellsFirstMention(messages, ref, j)
  {
    if messages != [] {
      var n := |messages| - 1;
      var refs, m := CollectRefs(messages[..n]), messages[n];
      RefsTellFirstMention(messages[..n]);
      forall ref | ref in CollectRefs(messages) ensures exists j: nat :: TellsFirstMention(messages, ref, j) {
        if ref in refs {
          var j: nat :| TellsFirstMention(messages[..n], ref, j);
          assert TellsFirstMention(messages, ref, j);
        } else {
          NewRefIsFirst(messages, ref);
        }
      }
    }
  }

  lemma {:induction false} NewRefIsFirst(messages: seq<StoredMessage>, ref: Ref)
    requires messages != [] && ref in CollectRefs(messages) && ref !in CollectRefs(messages[..|messages| - 1])
    ensures TellsFirstMention(messages, ref, |messages| - 1)
  {
    var n := |messages| - 1;
    CollectRefsExact(messages[..n]);
    forall i | 0 <= i < n && messages[i].outputRef.Some?
      ensures messages[i].outputRef.value.outputId != ref.outputId
    {
      assert messages[..n][i] == messages[i];
      assert messages[i].outputRef.value.outputId in OutputIds(messages[..n]);
    }
  }

  /** The references come in the order of those messages. */
  lemma {:induction false} RefsInOrder(messages: seq<StoredMessage>) returns (firsts: seq<nat>)
    ensures |firsts| == |CollectRefs(messages)|
    ensures forall k :: 0 <= k < |firsts| ==> TellsFirstMention(messages, CollectRefs(messages)[k], firsts[k])
    ensures forall k, l :: 0 <= k < l < |firsts| ==> firsts[k] < firsts[l]
  {
    if messages == [] {
      firsts := [];
    } else {
      var n := |messages| - 1;
      var refs := CollectRefs(messages[..n]);
      var before := RefsInOrder(messages[..n]);
      forall k | 0 <= k < |before| ensures TellsFirstMention(messages, refs[k], before[k]) {
        assert TellsFirstMention(messages[..n], refs[k], before[k]);
      }
      firsts := before;
      if CollectRefs(messages) != refs {
        NewRefIsLast(messages);
        firsts := before + [n];
      }
    }
  }

  lemma {:induction false} NewRefIsLast(messages: seq<StoredMessage>)
    requires messages != [] && CollectRefs(messages) != CollectRefs(messages[..|messages| - 1])
    ensures var refs, all := CollectRefs(messages[..|messages| - 1]), CollectRefs(messages);
            |all| == |refs| + 1 && refs <= all && TellsFirstMention(messages, all[|refs|], |messages| - 1)
  {
    var n := |messages| - 1;
    var refs, ref := CollectRefs(messages[..n]), RefOf(messages[n]);
    CollectRefsExact(messages[..n]);
    assert ref.outputId !in IdSet(refs) && forall r :: r in refs ==> r.outputId in IdSet(refs);
    NewRefIsFirst(messages, ref);
  }

  method CollectToolOutputRefs(messages: seq<StoredMessage>) returns (refs: seq<Ref>)
    ensures refs == CollectRefs(messages)
    ensures IdSet(refs) == OutputIds(messages) && NoDuplicates(refs)
  {
    CollectRefsExact(messages);
    refs := [];
    var seen: set<string> := {};
    for i := 0 to |messages|
      invariant refs == CollectRefs(messages[..i])
      invariant seen == IdSet(refs)
    {
      assert messages[..i + 1][..i] == messages[..i];
      var m := messages[i];
      if m.outputRef.Some? && m.outputRef.value.outputId !in seen {
        seen := seen + {m.outputRef.value.outputId};
        assert IdSet(refs + [RefOf(m)]) == IdSet(refs) + {m.outputRef.value.outputId};
        refs := refs + [RefOf(m)];
      }
    }
    assert messages[..|messages|] == messages;
  }

  /** Earlier references that the new list lacks, in order. */
  function Missing(earlier: seq<Ref>, existing: set<string>): seq<Ref> {
    if earlier == [] then []
    else if earlier[|earlier| - 1].outputId in existing then Missing(earlier[..|earlier| - 1], existing)
    else Missing(earlier[..|earlier| - 1], existing) + [earlier[|earlier| - 1]]
  }

  function Merged(refs: seq<Ref>, earlier: seq<Ref>): seq<Ref> {
    refs + Missing(earlier, IdSet(refs))
  }

  lemma IdSetAppend(refs: seq<Ref>, more: seq<Ref>)
    ensures IdSet(refs + more) == IdSet(refs) + IdSet(more)
  {
  }

  lemma InIdSet(refs: seq<Ref>)
    ensures forall i :: 0 <= i < |refs| ==> refs[i].outputId in IdSet(refs)
  {
  }

  lemma {:induction false} MissingIds(earlier: seq<Ref>, existing: set<string>)
    ensures IdSet(Missing(earlier, existing)) == IdSet(earlier) - existing
  {
    if earlier != [] {
      var n := |earlier| - 1;
      var last := earlier[n];
      MissingIds(earlier[..n], existing);
      assert earlier == earlier[..n] + [last];
      IdSetAppend(earlier[..n], [last]);
      IdSetAppend(Missing(earlier[..n], existing), [last]);
      assert IdSet([last]) == {last.outputId};
    }
  }

  lemma {:induction false} MissingNoDuplicates(earlier: seq<Ref>, existing: set<string>)
    requires NoDuplicates(earlier)
    ensures NoDuplicates(Missing(earlier, existing))
  {
    if earlier != [] {
      var n := |earlier| - 1;
      MissingNoDuplicates(earlier[..n], existing);
      MissingIds(earlier[..n], existing);
      InIdSet(Missing(earlier[..n], existing));
    }
  }

  lemma {:induction false} MissingFromEarlier(earlier: seq<Ref>, existing: set<string>)
    ensures forall ref :: ref in Missing(earlier, existing) ==> ref in earlier
  {
    if earlier != [] {
      MissingFromEarlier(earlier[..|earlier| - 1], existing);
    }
  }

  /** The missing references keep their order. */
  lemma {:induction false} MissingInOrder(earlier: seq<Ref>, existing: set<string>) returns (positions: seq<nat>)
    ensures |positions| == |Missing(earlier, existing)|
    ensures forall k :: 0 <= k < |positions| ==>
              positions[k] < |earlier| && earlier[positions[k]] == Missing(earlier, existing)[k]
    ensures forall k, l :: 0 <= k < l < |positions| ==> positions[k] < positions[l]
  {
    if earlier == [] {
      positions := [];
    } else {
      var n := |earlier| - 1;
      var before := MissingInOrder(earlier[..n], existing);
      positions := if earlier[n].outputId in existing then before else before + [n];
    }
  }

  lemma MergedExact(refs: seq<Ref>, earlier: seq<Ref>)
    requires NoDuplicates(refs) && NoDuplicates(earlier)
    ensures IdSet(Merged(refs, earlier)) == IdSet(refs) + IdSet(earlier)
    ensures NoDuplicates(Merged(refs, earlier))
    ensures refs <= Merged(refs, earlier)
    ensures forall ref :: ref in Merged(refs, earlier) ==> ref in refs || ref in earlier
  {
    MissingFromEarlier(earlier, IdSet(refs));
    var rest := Missing(earlier, IdSet(refs));
    MissingIds(earlier, IdSet(refs));
    MissingNoDuplicates(earlier, IdSet(refs));
    IdSetAppend(refs, rest);
    InIdSet(refs);
    InIdSet(rest);
  }

  // ------------------------------------------------------------------ the manager

  datatype Summary = Summary(
    goal: string,
    constraints: seq<string>,
    decisions: seq<string>,
    completed: seq<string>,
    open: seq<string>,
    files: seq<string>,
    toolOutputs: seq<Ref>)

  datatype Checkpoint = Checkpoint(summary: Summary, covered: nat, summaryTokens: int, outputIds: seq<string>)

  datatype Trigger = Proactive | Reactive

  /** A `StoredCompaction`. */
  datatype Record = Record(trigger: Trigger, covered: nat, preTokens: int, postTokens: int, summary: Summary)

  /** Settings and the system prompt a manager is built with; then the rendering of
      checkpoints and the token estimates, of which nothing here depends on the values. */
  datatype Config = Config(
    enabled: bool,
    system: string,
    render: Summary -> string,
    keepRecent: nat,
    aggressiveKeepRecent: nat,
    maxCompactions: int,
    contextWindow: int,
    triggerPct: int,
    hasCounter: bool,
    countRendered: Summary -> int,
    countMessages: seq<StoredMessage> -> int,
    countPrompt: (string, Option<Checkpoint>, seq<StoredMessage>) -> int)

  /** What the configuration loader guarantees: counts of kept messages are positive. */
  predicate ValidConfig(cfg: Config) {
    cfg.keepRecent >= 1 && cfg.aggressiveKeepRecent >= 1
  }

  datatype Manager = Manager(checkpoint: Option<Checkpoint>, count: int, lastCompactedIdx: nat)

  datatype CompactError = Disabled | MaxReached | TooFewMessages | NoSplitPoint | SummaryFailed

  function Fresh(): Manager {
    Manager(None, 0, 0)
  }

  function CheckpointOf(cfg: Config, covered: nat, summary: Summary): Checkpoint {
    Checkpoint(summary, covered, cfg.countRendered(summary), RefIds(summary.toolOutputs))
  }

  function Restored(cfg: Config, m: Manager, records: seq<Record>): Manager {
    if records == [] then m
    else
      var last := records[|records| - 1];
      Manager(Some(CheckpointOf(cfg, last.covered, last.summary)), |records|, last.covered)
  }

  predicate NeedsCompacting(cfg: Config, m: Manager, messages: seq<StoredMessage>) {
    && cfg.enabled && cfg.contextWindow > 0 && cfg.hasCounter
    && m.count < cfg.maxCompactions
    && |messages| > cfg.keepRecent
    && cfg.countPrompt(AugmentedSystem(cfg, m), m.checkpoint, messages) > TowardZero(cfg.contextWindow * cfg.triggerPct, 100)
  }

  /** Go's integer division. */
  function TowardZero(a: int, b: nat): int
    requires b > 0
  {
    if a >= 0 then a / b else -((-a) / b)
  }

  function Kept(cfg: Config, aggressive: bool): nat {
    if aggressive then cfg.aggressiveKeepRecent else cfg.keepRecent
  }

  function Refusal(cfg: Config, m: Manager, messages: seq<StoredMessage>, aggressive: bool,
                   generated: Option<Summary>): Option<CompactError>
    requires ValidConfig(cfg)
  {
    if !cfg.enabled then Some(Disabled)
    else if m.count >= cfg.maxCompactions then Some(MaxReached)
    else if |messages| <= Kept(cfg, aggressive) then Some(TooFewMessages)
    else if SplitPoint(messages, Kept(cfg, aggressive)) == 0 then Some(NoSplitPoint)
    else if generated.None? then Some(SummaryFailed)
    else None
  }

  function CarriedRefs(m: Manager, compactable: seq<StoredMessage>): seq<Ref> {
    var refs := CollectRefs(compactable);
    if m.checkpoint.None? then refs else Merged(refs, m.checkpoint.value.summary.toolOutputs)
  }

  /** The record of a compaction that is not refused. */
  function RecordOf(cfg: Config, m: Manager, messages: seq<StoredMessage>, aggressive: bool, generated: Summary): Record
    requires ValidConfig(cfg)
  {
    var split := SplitPoint(messages, Kept(cfg, aggressive));
    var summary := generated.(toolOutputs := CarriedRefs(m, messages[..split]));
    Record(if aggressive then Reactive else Proactive, split, cfg.countMessages(messages[..split]),
           cfg.countRendered(summary), summary)
  }

  function Compacted(cfg: Config, m: Manager, record: Record): Manager {
    Manager(Some(CheckpointOf(cfg, record.covered, record.summary)), m.count + 1, record.covered)
  }

  /** The tail the next prompt is rebuilt from; None leaves the prompt as it is. */
  function Tail(m: Manager, messages: seq<StoredMessage>): Option<seq<StoredMessage>> {
    if m.checkpoint.None? || m.checkpoint.value.covered == 0 then None
    else if m.checkpoint.value.covered >= |messages| then Some([])
    else Some(messages[m.checkpoint.value.covered..])
  }

  const CONTINUATION := "Continue the task described in the conversation checkpoint above."

  function AugmentedSystem(cfg: Config, m: Manager): string {
    if m.checkpoint.None? then cfg.system
    else
      var block := cfg.render(m.checkpoint.value.summary);
      if cfg.system == "" then block else cfg.system + "\n\n" + block
  }

  /** The prompt rebuilt from the checkpoint: placeholders for the system prompt
      and a user message, then the tail. */
  function Rebuilt(cfg: Config, m: Manager, messages: seq<StoredMessage>): Option<seq<PromptMessage>> {
    var tail := Tail(m, messages);
    if tail.None? then None
    else Some([SystemPrompt(AugmentedSystem(cfg, m)), UserPrompt(CONTINUATION)] + ToPrompt(tail.value))
  }

  /** Apart from the references to outputs, the summary is the one generated. */
  predicate KeepsSummary(summary: Summary, generated: Summary) {
    && summary.goal == generated.goal && summary.constraints == generated.constraints
    && summary.decisions == generated.decisions && summary.completed == generated.completed
    && summary.open == generated.open && summary.files == generated.files
  }

  ghost predicate ListsIds(ids: seq<string>, refs: seq<Ref>) {
    |ids| == |refs| && forall i :: 0 <= i < |ids| ==> ids[i] == refs[i].outputId
  }

  /** A compaction goes through exactly when it is allowed, there is more than is to be
      kept, some message after the first begins a turn, and the model summarised. */
  lemma AcceptedExactly(cfg: Config, m: Manager, messages: seq<StoredMessage>, aggressive: bool, generated: Option<Summary>)
    requires ValidConfig(cfg)
    ensures var keep := if aggressive then cfg.aggressiveKeepRecent else cfg.keepRecent;
            var why := Refusal(cfg, m, messages, aggressive, generated);
            && (why.None?
                <==> (&& cfg.enabled && m.count < cfg.maxCompactions && |messages| > keep && generated.Some?
                      && exists i :: 1 <= i < |messages| && (messages[i].role == User || messages[i].role == Assistant)))
            && (why == Some(SummaryFailed) ==> generated.None?)
            && (why == Some(MaxReached) ==> m.count >= cfg.maxCompactions)
            && (why == Some(TooFewMessages) ==> |messages| <= keep)
            && (why == Some(Disabled) <==> !cfg.enabled)
            && (why.None? ==> BestSplit(messages, keep, RecordOf(cfg, m, messages, aggressive, generated.value).covered))
  {
    SplitPointBest(messages, Kept(cfg, aggressive));
    if !NoBoundary(messages, 1, |messages|) {
      var i :| 1 <= i < |messages| && IsBoundary(messages[i]);
      assert messages[i].role == User || messages[i].role == Assistant;
    }
  }

  /** The threshold in exact terms: more than the given percentage of the window. */
  lemma NeedsCompactingExactly(cfg: Config, m: Manager, messages: seq<StoredMessage>)
    requires cfg.triggerPct >= 0
    ensures NeedsCompacting(cfg, m, messages)
            <==> && cfg.enabled && cfg.contextWindow > 0 && cfg.hasCounter
                 && m.count < cfg.maxCompactions && |messages| > cfg.keepRecent
                 && 100 * cfg.countPrompt(AugmentedSystem(cfg, m), m.checkpoint, messages) > cfg.contextWindow * cfg.triggerPct
  {
    if cfg.contextWindow > 0 {
      assert cfg.contextWindow * cfg.triggerPct >= 0;
    }
  }

  /** The augmented system prompt: the run's own in front, the checkpoint at the end. */
  lemma AugmentedExactly(cfg: Config, m: Manager)
    ensures cfg.system <= AugmentedSystem(cfg, m)
    ensures m.checkpoint.None? ==> AugmentedSystem(cfg, m) == cfg.system
    ensures m.checkpoint.Some? ==>
              var block, all := cfg.render(m.checkpoint.value.summary), AugmentedSystem(cfg, m);
              && |block| <= |all| && all[|all| - |block|..] == block
              && |all| == |block| + (if cfg.system == "" then 0 else |cfg.system| + 2)
              && (cfg.system != "" ==> all[|cfg.system|..|cfg.system| + 2] == "\n\n")
  {
  }

  class CompactionManager {
    const cfg: Config
    var checkpoint: Option<Checkpoint>
    var compactionCount: int
    var lastCompactedIdx: nat

    ghost function State(): Manager
      reads this
    {
      Manager(checkpoint, compactionCount, lastCompactedIdx)
    }

    constructor (cfg: Config)
      ensures this.cfg == cfg && State() == Fresh()
    {
      this.cfg := cfg;
      checkpoint := None;
      compactionCount := 0;
      lastCompactedIdx := 0;
    }

    method RestoreCheckpoint(records: seq<Record>)
      modifies this
      ensures State() == Restored(cfg, old(State()), records)
      ensures records == [] ==> State() == old(State())
      ensures records != [] ==>
                var last := records[|records| - 1];
                && compactionCount == |records| && lastCompactedIdx == last.covered && checkpoint.Some?
                && checkpoint.value.covered == last.covered && checkpoint.value.summary == last.summary
                && checkpoint.value.summaryTokens == cfg.countRendered(last.summary)
                && ListsIds(checkpoint.value.outputIds, last.summary.toolOutputs)
    {
      if |records| == 0 {
        return;
      }
      var last := records[|records| - 1];
      var ids: seq<string> := [];
      for i := 0 to |last.summary.toolOutputs|
        invariant ids == RefIds(last.summary.toolOutputs[..i])
      {
        ids := ids + [last.summary.toolOutputs[i].outputId];
      }
      assert last.summary.toolOutputs[..|last.summary.toolOutputs|] == last.summary.toolOutputs;
      checkpoint := Some(Checkpoint(last.summary, last.covered, cfg.countRendered(last.summary), ids));
      lastCompactedIdx := last.covered;
      compactionCount := |records|;
    }

    method NeedsCompaction(messages: seq<StoredMessage>) returns (needs: bool)
      ensures needs == NeedsCompacting(cfg, State(), messages)
    {
      if !cfg.enabled || cfg.contextWindow <= 0 || !cfg.hasCounter {
        return false;
      }
      if compactionCount >= cfg.maxCompactions {
        return false;
      }
      if |messages| <= cfg.keepRecent {
        return false;
      }
      var system := AugmentedSystemPrompt();
      var estimated := cfg.countPrompt(system, checkpoint, messages);
      return estimated > TowardZero(cfg.contextWindow * cfg.triggerPct, 100);
    }

    /** Appends to `refs` every earlier reference that it lacked at the start. */
    method CarryForward(refs: seq<Ref>, earlier: seq<Ref>) returns (merged: seq<Ref>)
      ensures merged == Merged(refs, earlier)
    {
      var existing: set<string> := {};
      for i := 0 to |refs|
        invariant existing == IdSet(refs[..i])
      {
        existing := existing + {refs[i].outputId};
        IdSetAppend(refs[..i], [refs[i]]);
        assert refs[..i + 1] == refs[..i] + [refs[i]];
        assert IdSet([refs[i]]) == {refs[i].outputId};
      }
      assert refs[..|refs|] == refs;
      merged := refs;
      for i := 0 to |earlier|
        invariant merged == refs + Missing(earlier[..i], existing)
      {
        assert earlier[..i + 1][..i] == earlier[..i];
        if earlier[i].outputId !in existing {
          merged := merged + [earlier[i]];
        }
      }
      assert earlier[..|earlier|] == earlier;
    }

    /** `generated` is what the summary model call returned, None if it failed. */
    method Compact(messages: seq<StoredMessage>, aggressive: bool, generated: Option<Summary>)
      returns (result: Result<Record, CompactError>)
      requires ValidConfig(cfg)
      modifies this
      ensures result.Err? <==> Refusal(cfg, old(State()), messages, aggressive, generated).Some?
      ensures result.Err? ==> Refusal(cfg, old(State()), messages, aggressive, generated) == Some(result.error)
      ensures result.Err? ==> State() == old(State())
      ensures result.Ok? ==> result.value == RecordOf(cfg, old(State()), messages, aggressive, generated.value)
      ensures result.Ok? ==> State() == Compacted(cfg, old(State()), result.value)
      ensures result.Ok? ==> generated.Some? && KeepsSummary(result.value.summary, generated.value)
      ensures result.Ok? ==>
                && result.value.trigger == (if aggressive then Reactive else Proactive)
                && result.value.covered <= |messages|
                && result.value.preTokens == cfg.countMessages(messages[..result.value.covered])
                && result.value.postTokens == cfg.countRendered(result.value.summary)
      ensures result.Ok? ==>
                && checkpoint.Some? && checkpoint.value.summary == result.value.summary
                && checkpoint.value.covered == lastCompactedIdx == result.value.covered
                && checkpoint.value.summaryTokens == result.value.postTokens
                && compactionCount == old(compactionCount) + 1
                && ListsIds(checkpoint.value.outputIds, result.value.summary.toolOutputs)
    {
      if !cfg.enabled {
        return Err(Disabled);
      }
      if compactionCount >= cfg.maxCompactions {
        return Err(MaxReached);
      }
      var keepRecent := cfg.keepRecent;
      if aggressive {
        keepRecent := cfg.aggressiveKeepRecent;
      }
      if |messages| <= keepRecent {
        return Err(TooFewMessages);
      }
      var split := FindCompactionSplitPoint(messages, keepRecent);
      if split <= 0 {
        return Err(NoSplitPoint);
      }
      var compactable := messages[..split];
      if generated.None? {
        return Err(SummaryFailed);
      }
      var refs := CollectToolOutputRefs(compactable);
      if checkpoint.Some? {
        refs := CarryForward(refs, checkpoint.value.summary.toolOutputs);
      }
      var summary := generated.value.(toolOutputs := refs);
      var postTokens := cfg.countRendered(summary);
      checkpoint := Some(Checkpoint(summary, split, postTokens, RefIds(refs)));
      lastCompactedIdx := split;
      compactionCount := compactionCount + 1;
      return Ok(Record(if aggressive then Reactive else Proactive, split, cfg.countMessages(compactable), postTokens,
                       summary));
    }

    method AugmentedSystemPrompt() returns (system: string)
      ensures system == AugmentedSystem(cfg, State())
    {
      if checkpoint.None? {
        return cfg.system;
      }
      var block := cfg.render(checkpoint.value.summary);
      if cfg.system == "" {
        return block;
      }
      return cfg.system + "\n\n" + block;
    }

    /** The rebuilt messages and the system prompt that goes with them. */
    method ApplyToStep(messages: seq<StoredMessage>) returns (prompt: Option<seq<PromptMessage>>, system: Option<string>)
      ensures prompt == Rebuilt(cfg, State(), messages)
      ensures system == if prompt.Some? then Some(AugmentedSystem(cfg, State())) else None
      ensures prompt.Some? <==> checkpoint.Some? && checkpoint.value.covered > 0
      ensures prompt.Some? ==>
                var rest := messages[if checkpoint.value.covered < |messages| then checkpoint.value.covered else |messages|..];
                && |prompt.value| >= 2 && prompt.value[0] == SystemPrompt(system.value)
                && prompt.value[1] == UserPrompt(CONTINUATION)
                && ReadPrompt(prompt.value[2..]) == ReadLog(rest)
    {
      if checkpoint.None? || checkpoint.value.covered == 0 {
        return None, None;
      }
      var start := checkpoint.value.covered;
      if start >= |messages| {
        start := |messages|;
      }
      var tail := TraceToFantasyMessages(messages[start..]);
      PromptReadsAsLog(messages[start..]);
      var augmented := AugmentedSystemPrompt();
      prompt, system := Some([SystemPrompt(augmented), UserPrompt(CONTINUATION)] + tail), Some(augmented);
      assert prompt.value[2..] == tail;
    }
  }
}
