/** The parent's queue of sub-agent notifications (`runSessionState`), and what
    becomes of them when the next step's prompt is prepared. */
module Session {
  import opened Common
  import opened Trace
  import opened Compaction
  import AgentRun

  datatype Op = Enqueue(text: string) | Consume

  /** What a queue has handed out and still holds. */
  datatype Queue = Queue(consumed: seq<string>, pending: seq<string>)

  function Accept(text: string): seq<string> {
    if TrimSpace(text) == "" then [] else [TrimSpace(text)]
  }

  function Do(q: Queue, op: Op): Queue {
    match op
    case Enqueue(text) => q.(pending := q.pending + Accept(text))
    case Consume => Queue(q.consumed + q.pending, [])
  }

  function DoAll(q: Queue, ops: seq<Op>): Queue
    decreases |ops|
  {
    if ops == [] then q else DoAll(Do(q, ops[0]), ops[1..])
  }

  function Enqueued(ops: seq<Op>): seq<string> {
    if ops == [] then []
    else (if ops[0].Enqueue? then Accept(ops[0].text) else []) + Enqueued(ops[1..])
  }

  lemma StepConserves(q: Queue, op: Op)
    ensures Do(q, op).consumed + Do(q, op).pending
            == q.consumed + q.pending + (if op.Enqueue? then Accept(op.text) else [])
    ensures q.consumed <= Do(q, op).consumed
  {
  }

  /** Every notification that is not blank is handed out once and in order, or
      still waits: nothing is lost, repeated or reordered inside the queue. */
  lemma {:induction false} QueueConserves(q: Queue, ops: seq<Op>)
    ensures DoAll(q, ops).consumed + DoAll(q, ops).pending == q.consumed + q.pending + Enqueued(ops)
    ensures q.consumed <= DoAll(q, ops).consumed
    decreases |ops|
  {
    if ops != [] {
      var first := if ops[0].Enqueue? then Accept(ops[0].text) else [];
      StepConserves(q, ops[0]);
      QueueConserves(Do(q, ops[0]), ops[1..]);
      assert q.consumed + q.pending + (first + Enqueued(ops[1..])) == q.consumed + q.pending + first + Enqueued(ops[1..]);
    }
  }

  class RunSessionState {
    var pendingNotifications: seq<string>
    ghost var consumed: seq<string>

    ghost function State(): Queue
      reads this
    {
      Queue(consumed, pendingNotifications)
    }

    constructor ()
      ensures State() == Queue([], [])
    {
      pendingNotifications := [];
      consumed := [];
    }

    method EnqueueNotification(message: string)
      modifies this
      ensures State() == Do(old(State()), Enqueue(message))
      ensures TrimSpace(message) == "" ==> pendingNotifications == old(pendingNotifications)
      ensures TrimSpace(message) != "" ==> pendingNotifications == old(pendingNotifications) + [TrimSpace(message)]
    {
      var text := TrimSpace(message);
      if text == "" {
        assert pendingNotifications + Accept(message) == pendingNotifications;
        return;
      }
      pendingNotifications := pendingNotifications + [text];
    }

    method ConsumeNotifications() returns (out: seq<string>)
      modifies this
      ensures out == old(pendingNotifications)
      ensures State() == Do(old(State()), Consume)
      ensures pendingNotifications == [] && consumed == old(consumed) + out
    {
      out := [];
      if |pendingNotifications| == 0 {
        assert consumed + pendingNotifications == consumed;
        return;
      }
      out := pendingNotifications;
      consumed := consumed + pendingNotifications;
      pendingNotifications := [];
    }
  }

  // ------------------------------------------------------------------ the next prompt

  function Announced(notes: seq<string>): seq<PromptMessage> {
    seq(|notes|, i requires 0 <= i < |notes| => UserPrompt("Sub-agent notification: " + notes[i]))
  }

  /** The manager once the step has compacted, if it does. */
  function AfterStep(cfg: Config, m: Manager, messages: seq<StoredMessage>, generated: Option<Summary>): Manager
    requires ValidConfig(cfg)
  {
    if NeedsCompacting(cfg, m, messages) && Refusal(cfg, m, messages, false, generated).None?
    then Compacted(cfg, m, RecordOf(cfg, m, messages, false, generated.value))
    else m
  }

  /** The messages of the next prompt: the live ones and the notifications,
      unless the checkpoint has the prompt rebuilt from the log. */
  function StepPrompt(cfg: Config, m: Manager, messages: seq<StoredMessage>, generated: Option<Summary>,
                      live: seq<PromptMessage>, notes: seq<string>): seq<PromptMessage>
    requires ValidConfig(cfg)
  {
    var rebuilt := Rebuilt(cfg, AfterStep(cfg, m, messages, generated), messages);
    if rebuilt.None? then live + Announced(notes) else rebuilt.value
  }

  /** The message part of `prepareStep`. `generated` is what the summary model
      call would return; `record` is the compaction to store, if there was one. */
  method PrepareStep(session: RunSessionState, compaction: CompactionManager, messages: seq<StoredMessage>,
                     live: seq<PromptMessage>, generated: Option<Summary>)
    returns (prompt: seq<PromptMessage>, system: Option<string>, record: Option<Record>)
    requires ValidConfig(compaction.cfg)
    modifies session, compaction
    ensures session.State() == Do(old(session.State()), Consume)
    ensures compaction.State() == AfterStep(compaction.cfg, old(compaction.State()), messages, generated)
    ensures prompt == StepPrompt(compaction.cfg, old(compaction.State()), messages, generated, live,
                                 old(session.pendingNotifications))
    ensures system == if Rebuilt(compaction.cfg, compaction.State(), messages).None? then None
                      else Some(AugmentedSystem(compaction.cfg, compaction.State()))
    ensures system.Some? <==> compaction.checkpoint.Some? && compaction.checkpoint.value.covered > 0
    ensures system.Some? ==>
              var covered := compaction.checkpoint.value.covered;
              && |prompt| >= 2 && prompt[0] == SystemPrompt(system.value) && prompt[1] == UserPrompt(CONTINUATION)
              && ReadPrompt(prompt[2..]) == ReadLog(messages[if covered < |messages| then covered else |messages|..])
    ensures record.Some? <==> NeedsCompacting(compaction.cfg, old(compaction.State()), messages)
                              && Refusal(compaction.cfg, old(compaction.State()), messages, false, generated).None?
    ensures record.Some? ==> record.value == RecordOf(compaction.cfg, old(compaction.State()), messages, false, generated.value)
  {
    var notes := session.ConsumeNotifications();
    prompt := live;
    for i := 0 to |notes|
      invariant prompt == live + Announced(notes[..i])
      invariant session.State() == Do(old(session.State()), Consume)
      invariant compaction.State() == old(compaction.State())
    {
      assert notes[..i + 1] == notes[..i] + [notes[i]];
      prompt := prompt + [UserPrompt("Sub-agent notification: " + notes[i])];
    }
    assert notes[..|notes|] == notes;
    record := None;
    var needs := compaction.NeedsCompaction(messages);
    if needs {
      var result := compaction.Compact(messages, false, generated);
      if result.Ok? {
        record := Some(result.value);
      }
    }
    var rebuilt;
    rebuilt, system := compaction.ApplyToStep(messages);
    if system.Some? {
      prompt := rebuilt.value;
    }
  }

  // ------------------------------------------------------------------ which notifications reach the model

  /** Each notification becomes one user message that ends in its text. */
  lemma AnnouncedExactly(live: seq<PromptMessage>, notes: seq<string>, i: nat)
    requires i < |notes|
    ensures |live + Announced(notes)| == |live| + |notes|
    ensures var message := (live + Announced(notes))[|live| + i];
            && message.UserPrompt? && |notes[i]| < |message.text|
            && message.text[|message.text| - |notes[i]|..] == notes[i]
            && message.text[..|message.text| - |notes[i]|] == "Sub-agent notification: "
  {
    var prefix := "Sub-agent notification: ";
    assert (prefix + notes[i])[|prefix|..] == notes[i] && (prefix + notes[i])[..|prefix|] == prefix;
  }

  /** Whatever was consumed stands in the prompt, after the live messages. */
  ghost predicate Delivered(cfg: Config, m: Manager, messages: seq<StoredMessage>, generated: Option<Summary>,
                            live: seq<PromptMessage>)
    requires ValidConfig(cfg)
  {
    forall notes :: StepPrompt(cfg, m, messages, generated, live, notes) == live + Announced(notes)
  }

  /** The prompt is the same whatever was consumed. */
  ghost predicate Swallowed(cfg: Config, m: Manager, messages: seq<StoredMessage>, generated: Option<Summary>,
                            live: seq<PromptMessage>)
    requires ValidConfig(cfg)
  {
    forall a, b :: StepPrompt(cfg, m, messages, generated, live, a) == StepPrompt(cfg, m, messages, generated, live, b)
  }

  /** Before the step one can tell: the notifications it consumes reach the model
      exactly when there is no checkpoint and the step will not make one. */
  lemma NotificationsReachExactly(cfg: Config, m: Manager, messages: seq<StoredMessage>, generated: Option<Summary>,
                                  live: seq<PromptMessage>)
    requires ValidConfig(cfg) && (m.checkpoint.Some? ==> m.checkpoint.value.covered >= 1)
    ensures Delivered(cfg, m, messages, generated, live)
            <==> m.checkpoint.None?
                 && !(NeedsCompacting(cfg, m, messages) && Refusal(cfg, m, messages, false, generated).None?)
    ensures Delivered(cfg, m, messages, generated, live) <==> !Swallowed(cfg, m, messages, generated, live)
  {
    var one := StepPrompt(cfg, m, messages, generated, live, ["x"]);
    var none := StepPrompt(cfg, m, messages, generated, live, []);
    assert |live + Announced(["x"])| != |live + Announced([])|;
  }

  lemma {:induction false} RecordsOnlyGrow(cfg: Config, frame: AgentRun.Frame, r: AgentRun.Run, actions: seq<AgentRun.Action>)
    requires ValidConfig(cfg)
    ensures r.records <= AgentRun.Execute(cfg, frame, r, actions).records
    decreases |actions|
  {
    if actions != [] {
      RecordsOnlyGrow(cfg, frame, AgentRun.Next(cfg, frame, r, actions[0]), actions[1..]);
    }
  }

  /** Over whole runs: notifications reach the model up to the first compaction
      that is accepted, this step's included; from then on, through every
      continuation and resumption, every step consumes and drops them. */
  lemma NotificationsReachUpToFirstCompaction(cfg: Config, frame: AgentRun.Frame, r: AgentRun.Run, actions: seq<AgentRun.Action>,
                                              generated: Option<Summary>, live: seq<PromptMessage>)
    requires ValidConfig(cfg) && AgentRun.Reachable(cfg, frame, r)
    ensures var t := AgentRun.Execute(cfg, frame, r, actions);
            && (Delivered(AgentRun.ConfigOf(cfg, t), t.manager, t.builder.messages, generated, live)
                <==> AgentRun.Next(cfg, frame, t, AgentRun.PrepareStep(generated)).records == [])
            && (r.records != [] ==> Swallowed(AgentRun.ConfigOf(cfg, t), t.manager, t.builder.messages, generated, live))
  {
    var t := AgentRun.Execute(cfg, frame, r, actions);
    AgentRun.ReachableInv(cfg, frame, r);
    AgentRun.ExecuteKeepsInv(cfg, frame, r, actions);
    RecordsOnlyGrow(cfg, frame, r, actions);
    NotificationsReachExactly(AgentRun.ConfigOf(cfg, t), t.manager, t.builder.messages, generated, live);
  }
}
