/** Whole runs: the trace builder and the compaction manager driven together by
    streaming, by proactive compaction before a step, by reactive compaction
    after an overflow, and by stopping and resuming from the stored trace. */
module AgentRun {
  import opened Common
  import opened Trace
  import opened Compaction

  /** `supplied` is the user's system prompt as the trace stores it; `own` is the
      system prompt the agent of the running process was given, and `managed` the
      one its compaction manager was built with. */
  datatype Run = Run(
    builder: Builder,
    manager: Manager,
    records: seq<Record>,
    supplied: string,
    own: string,
    managed: string)

  /** What surrounds the user's part of a system prompt: the base prompt with the
      date, and the additions for skills and project instructions. */
  datatype Frame = Frame(base: Time -> string, additions: Time -> string)

  function Effective(frame: Frame, supplied: string, now: Time): string {
    frame.base(now) + (if TrimSpace(supplied) == "" then "" else "\n" + TrimSpace(supplied)) + frame.additions(now)
  }

  /** The user's part stands between base prompt and additions, on a line of its own
      and without white space around it; a blank one leaves nothing. */
  lemma EffectiveExactly(frame: Frame, supplied: string, now: Time)
    ensures var all, base, tail := Effective(frame, supplied, now), frame.base(now), frame.additions(now);
            && base <= all && |base| + |tail| <= |all| && all[|all| - |tail|..] == tail
            && var part := all[|base|..|all| - |tail|];
               if AllSpace(supplied) then part == [] else part == ['\n'] + TrimSpace(supplied)
  {
    TrimSpaceExactly(supplied);
  }

  lemma EffectiveShows(frame: Frame, some: string, none: string, now: Time)
    requires TrimSpace(some) != "" && TrimSpace(none) == ""
    ensures Effective(frame, some, now) != Effective(frame, none, now)
  {
    assert |Effective(frame, some, now)| > |Effective(frame, none, now)|;
  }

  /** The settings of the process a run is in. */
  function ConfigOf(cfg: Config, r: Run): Config {
    cfg.(system := r.managed)
  }

  /** `generated` is what the summary model call would return. */
  datatype Action =
    | Stream(event: Event, now: Time)
    | PrepareStep(generated: Option<Summary>)
    | Overflow(generated: Option<Summary>, now: Time)
    | Resume(message: string, system: string, now: Time)

  /** A run begins with the given history, without records. */
  function Begin(frame: Frame, history: seq<StoredMessage>, system: string, now: Time): Run {
    Run(Builder(history, "", "", [], None, map[]), Fresh(), [], TrimSpace(system),
        Effective(frame, TrimSpace(system), now), Effective(frame, system, now))
  }

  function TryCompact(cfg: Config, r: Run, aggressive: bool, generated: Option<Summary>): Run
    requires ValidConfig(cfg)
  {
    if Refusal(cfg, r.manager, r.builder.messages, aggressive, generated).Some? then r
    else
      var record := RecordOf(cfg, r.manager, r.builder.messages, aggressive, generated.value);
      r.(manager := Compacted(cfg, r.manager, record), records := r.records + [record])
  }

  function Next(cfg: Config, frame: Frame, r: Run, a: Action): Run
    requires ValidConfig(cfg)
  {
    match a
    case Stream(event, now) => r.(builder := Apply(r.builder, event, now))
    case PrepareStep(generated) =>
      if NeedsCompacting(ConfigOf(cfg, r), r.manager, r.builder.messages) then TryCompact(cfg, r, false, generated) else r
    case Overflow(generated, now) => TryCompact(cfg, r.(builder := Flushed(r.builder, now)), true, generated)
    case Resume(message, system, now) => Resumed(cfg, frame, r, message, system, now)
  }

  /** A new process reads the stored trace: the snapshot's messages and the
      records. It restores the checkpoint and adds the new user message. The agent
      keeps the stored system prompt unless the request has one; the manager is
      built from the request's. */
  function Resumed(cfg: Config, frame: Frame, r: Run, message: string, system: string, now: Time): Run {
    var stored := Builder(SnapshotMessages(r.builder), "", "", [], None, map[]);
    var supplied := if TrimSpace(system) != "" then TrimSpace(system) else r.supplied;
    Run(Apply(stored, UserMessage(message), now), Restored(cfg, Fresh(), r.records), r.records, supplied,
        Effective(frame, supplied, now), Effective(frame, system, now))
  }

  function Execute(cfg: Config, frame: Frame, r: Run, actions: seq<Action>): Run
    requires ValidConfig(cfg)
    decreases |actions|
  {
    if actions == [] then r else Execute(cfg, frame, Next(cfg, frame, r, actions[0]), actions[1..])
  }

  // ------------------------------------------------------------------ checkpoint and records

  /** The furthest any compaction has reached. */
  function MaxCovered(records: seq<Record>): nat {
    if records == [] then 0
    else
      var before := MaxCovered(records[..|records| - 1]);
      if records[|records| - 1].covered > before then records[|records| - 1].covered else before
  }

  function References(r: Run): seq<Ref> {
    if r.manager.checkpoint.None? then [] else r.manager.checkpoint.value.summary.toolOutputs
  }

  /** The manager is what restoring the records would give. */
  ghost predicate ManagerIsRestorable(cfg: Config, r: Run) {
    r.manager == Restored(cfg, Fresh(), r.records)
  }

  ghost predicate CutsAreBoundaries(r: Run) {
    && (forall k :: 0 <= k < |r.records| ==>
          && 1 <= r.records[k].covered < |r.builder.messages|
          && IsBoundary(r.builder.messages[r.records[k].covered]))
    && MaxCovered(r.records) <= |r.builder.messages|
  }

  /** The carried references are exactly the outputs mentioned up to the
      furthest cut, without duplicates. */
  ghost predicate ReferencesExact(r: Run) {
    && MaxCovered(r.records) <= |r.builder.messages|
    && IdSet(References(r)) == OutputIds(r.builder.messages[..MaxCovered(r.records)])
    && NoDuplicates(References(r))
  }

  ghost predicate Inv(cfg: Config, r: Run) {
    && ManagerIsRestorable(cfg, r)
    && CutsAreBoundaries(r)
    && ReferencesExact(r)
    && |r.records| <= (if cfg.maxCompactions > 0 then cfg.maxCompactions else 0)
  }

  lemma MoreMessagesKeepInv(cfg: Config, r: Run, b: Builder)
    requires Inv(cfg, r) && r.builder.messages <= b.messages
    ensures Inv(cfg, r.(builder := b))
  {
    assert b.messages[..MaxCovered(r.records)] == r.builder.messages[..MaxCovered(r.records)];
  }

  lemma PrefixIds(messages: seq<StoredMessage>, a: nat, b: nat)
    requires a <= b <= |messages|
    ensures OutputIds(messages[..a]) <= OutputIds(messages[..b])
  {
    assert forall m :: m in messages[..a] ==> m in messages[..b];
  }

  lemma UnionOfPrefixIds(messages: seq<StoredMessage>, a: nat, b: nat)
    requires a <= |messages| && b <= |messages|
    ensures OutputIds(messages[..a]) + OutputIds(messages[..b]) == OutputIds(messages[..if a > b then a else b])
  {
    if a > b {
      PrefixIds(messages, b, a);
    } else {
      PrefixIds(messages, a, b);
    }
  }

  lemma MaxCoveredAppend(records: seq<Record>, record: Record)
    ensures MaxCovered(records + [record])
            == if record.covered > MaxCovered(records) then record.covered else MaxCovered(records)
  {
    assert (records + [record])[..|records|] == records;
  }

  /** The references of a compaction are the outputs of its prefix and those carried. */
  lemma CarriedExact(r: Run, messages: seq<StoredMessage>)
    requires NoDuplicates(References(r))
    ensures IdSet(CarriedRefs(r.manager, messages)) == OutputIds(messages) + IdSet(References(r))
    ensures NoDuplicates(CarriedRefs(r.manager, messages))
  {
    CollectRefsExact(messages);
    if r.manager.checkpoint.Some? {
      MergedExact(CollectRefs(messages), References(r));
    } else {
      assert IdSet(References(r)) == {};
    }
  }

  lemma CompactionKeepsReferences(cfg: Config, r: Run, aggressive: bool, generated: Summary)
    requires ValidConfig(cfg) && Inv(cfg, r)
    requires Refusal(cfg, r.manager, r.builder.messages, aggressive, Some(generated)).None?
    ensures ReferencesExact(TryCompact(cfg, r, aggressive, Some(generated)))
    ensures IdSet(References(r)) <= IdSet(References(TryCompact(cfg, r, aggressive, Some(generated))))
  {
    var messages := r.builder.messages;
    var split := SplitPoint(messages, Kept(cfg, aggressive));
    var record := RecordOf(cfg, r.manager, messages, aggressive, generated);
    var t := TryCompact(cfg, r, aggressive, Some(generated));
    CarriedExact(r, messages[..split]);
    assert References(t) == CarriedRefs(r.manager, messages[..split]);
    MaxCoveredAppend(r.records, record);
    UnionOfPrefixIds(messages, split, MaxCovered(r.records));
  }

  lemma CompactionKeepsCuts(cfg: Config, r: Run, aggressive: bool, generated: Summary)
    requires ValidConfig(cfg) && CutsAreBoundaries(r)
    requires Refusal(cfg, r.manager, r.builder.messages, aggressive, Some(generated)).None?
    ensures CutsAreBoundaries(TryCompact(cfg, r, aggressive, Some(generated)))
  {
    SplitPointBest(r.builder.messages, Kept(cfg, aggressive));
    MaxCoveredAppend(r.records, RecordOf(cfg, r.manager, r.builder.messages, aggressive, generated));
  }

  lemma CompactionIsRestorable(cfg: Config, r: Run, aggressive: bool, generated: Summary)
    requires ValidConfig(cfg) && ManagerIsRestorable(cfg, r)
    requires Refusal(cfg, r.manager, r.builder.messages, aggressive, Some(generated)).None?
    ensures ManagerIsRestorable(cfg, TryCompact(cfg, r, aggressive, Some(generated)))
    ensures |r.records| == r.manager.count < cfg.maxCompactions
  {
  }

  lemma CompactionKeepsInv(cfg: Config, r: Run, aggressive: bool, generated: Option<Summary>)
    requires ValidConfig(cfg) && Inv(cfg, r)
    ensures Inv(cfg, TryCompact(cfg, r, aggressive, generated))
  {
    if Refusal(cfg, r.manager, r.builder.messages, aggressive, generated).None? {
      CompactionIsRestorable(cfg, r, aggressive, generated.value);
      CompactionKeepsCuts(cfg, r, aggressive, generated.value);
      CompactionKeepsReferences(cfg, r, aggressive, generated.value);
    }
  }

  lemma ApplyExtends(b: Builder, e: Event, now: Time)
    ensures b.messages <= Apply(b, e, now).messages
  {
  }

  lemma StepKeepsInv(cfg: Config, frame: Frame, r: Run, a: Action)
    requires ValidConfig(cfg) && Inv(cfg, r)
    ensures Inv(cfg, Next(cfg, frame, r, a))
  {
    match a
    case Stream(event, now) =>
      ApplyExtends(r.builder, event, now);
      MoreMessagesKeepInv(cfg, r, Apply(r.builder, event, now));
    case PrepareStep(generated) => CompactionKeepsInv(cfg, r, false, generated);
    case Overflow(generated, now) =>
      MoreMessagesKeepInv(cfg, r, Flushed(r.builder, now));
      CompactionKeepsInv(cfg, r.(builder := Flushed(r.builder, now)), true, generated);
    case Resume(message, system, now) =>
      MoreMessagesKeepInv(cfg, r, Resumed(cfg, frame, r, message, system, now).builder);
  }

  lemma {:induction false} ExecuteKeepsInv(cfg: Config, frame: Frame, r: Run, actions: seq<Action>)
    requires ValidConfig(cfg) && Inv(cfg, r)
    ensures Inv(cfg, Execute(cfg, frame, r, actions))
    decreases |actions|
  {
    if actions != [] {
      StepKeepsInv(cfg, frame, r, actions[0]);
      ExecuteKeepsInv(cfg, frame, Next(cfg, frame, r, actions[0]), actions[1..]);
    }
  }

  ghost predicate Reachable(cfg: Config, frame: Frame, r: Run)
    requires ValidConfig(cfg)
  {
    exists history: seq<StoredMessage>, system: string, now: Time, actions: seq<Action> ::
      Execute(cfg, frame, Begin(frame, history, system, now), actions) == r
  }

  lemma {:induction false} SuppliedStaysTrimmed(cfg: Config, frame: Frame, r: Run, actions: seq<Action>)
    requires ValidConfig(cfg) && TrimSpace(r.supplied) == r.supplied
    ensures TrimSpace(Execute(cfg, frame, r, actions).supplied) == Execute(cfg, frame, r, actions).supplied
    decreases |actions|
  {
    if actions != [] {
      if actions[0].Resume? {
        TrimSpaceTrims(actions[0].system);
      }
      SuppliedStaysTrimmed(cfg, frame, Next(cfg, frame, r, actions[0]), actions[1..]);
    }
  }

  lemma ReachableInv(cfg: Config, frame: Frame, r: Run)
    requires ValidConfig(cfg) && Reachable(cfg, frame, r)
    ensures Inv(cfg, r) && TrimSpace(r.supplied) == r.supplied
  {
    var history: seq<StoredMessage>, system: string, now: Time, actions: seq<Action> :|
      Execute(cfg, frame, Begin(frame, history, system, now), actions) == r;
    BeginFits(cfg, frame, history, system, now);
    ExecuteKeepsInv(cfg, frame, Begin(frame, history, system, now), actions);
    SuppliedStaysTrimmed(cfg, frame, Begin(frame, history, system, now), actions);
  }

  lemma BeginFits(cfg: Config, frame: Frame, history: seq<StoredMessage>, system: string, now: Time)
    ensures Inv(cfg, Begin(frame, history, system, now))
    ensures TrimSpace(Begin(frame, history, system, now).supplied) == Begin(frame, history, system, now).supplied
  {
    TrimSpaceTrims(system);
  }

  lemma {:induction false} SamePrompt(a: seq<StoredMessage>, b: seq<StoredMessage>)
    requires |a| == |b| && forall i :: 0 <= i < |a| ==> PromptOf(a[i]) == PromptOf(b[i])
    ensures ToPrompt(a) == ToPrompt(b)
  {
    if a != [] {
      SamePrompt(a[..|a| - 1], b[..|b| - 1]);
    }
  }

  /** The log a resumed run continues and the one the live run would have. */
  function ResumedLog(b: Builder, message: string, now: Time): seq<StoredMessage> {
    Apply(Builder(SnapshotMessages(b), "", "", [], None, map[]), UserMessage(message), now).messages
  }

  function LiveLog(b: Builder, message: string, now: Time): seq<StoredMessage> {
    Apply(Flushed(b, now), UserMessage(message), now).messages
  }

  lemma SameLogs(b: Builder, message: string, now: Time)
    ensures |ResumedLog(b, message, now)| == |LiveLog(b, message, now)|
    ensures forall i :: 0 <= i < |LiveLog(b, message, now)| ==>
              PromptOf(ResumedLog(b, message, now)[i]) == PromptOf(LiveLog(b, message, now)[i])
  {
    SnapshotIsFlush(b, now);
  }

  /** The messages of the rebuilt prompt after the system prompt. */
  function RebuiltTail(m: Manager, messages: seq<StoredMessage>): Option<seq<PromptMessage>> {
    var tail := Tail(m, messages);
    if tail.None? then None else Some([UserPrompt(CONTINUATION)] + ToPrompt(tail.value))
  }

  lemma SameTails(m: Manager, a: seq<StoredMessage>, b: seq<StoredMessage>)
    requires |a| == |b| && forall i :: 0 <= i < |a| ==> PromptOf(a[i]) == PromptOf(b[i])
    ensures RebuiltTail(m, a) == RebuiltTail(m, b)
  {
    if Tail(m, a).Some? {
      SamePrompt(Tail(m, a).value, Tail(m, b).value);
    }
  }

  lemma RebuiltIs(cfg: Config, m: Manager, messages: seq<StoredMessage>)
    ensures Rebuilt(cfg, m, messages).Some? <==> RebuiltTail(m, messages).Some?
    ensures Rebuilt(cfg, m, messages).Some? ==>
              Rebuilt(cfg, m, messages).value == [SystemPrompt(AugmentedSystem(cfg, m))] + RebuiltTail(m, messages).value
  {
    if Tail(m, messages).Some? {
      var system, go := SystemPrompt(AugmentedSystem(cfg, m)), UserPrompt(CONTINUATION);
      assert [system, go] == [system] + [go];
    }
  }

  /** Under a checkpoint two managers give the same system prompt exactly when they
      were built with the same one. */
  lemma SystemShows(cfg: Config, other: Config, m: Manager)
    requires m.checkpoint.Some? && other.render == cfg.render
    ensures AugmentedSystem(cfg, m) == AugmentedSystem(other, m) <==> cfg.system == other.system
  {
    var block := cfg.render(m.checkpoint.value.summary);
    SystemLength(cfg, m);
    SystemLength(other, m);
    if cfg.system != "" && other.system != "" {
      SuffixCancels(cfg.system, other.system, "\n\n" + block);
      assert cfg.system + "\n\n" + block == cfg.system + ("\n\n" + block);
      assert other.system + "\n\n" + block == other.system + ("\n\n" + block);
    }
  }

  lemma SystemLength(cfg: Config, m: Manager)
    requires m.checkpoint.Some?
    ensures |AugmentedSystem(cfg, m)|
            == |cfg.render(m.checkpoint.value.summary)| + (if cfg.system == "" then 0 else |cfg.system| + 2)
  {
  }

  lemma SuffixCancels(a: string, b: string, suffix: string)
    ensures a + suffix == b + suffix ==> a == b
  {
    if a + suffix == b + suffix {
      assert |a| == |b|;
      assert a == (a + suffix)[..|a|] == (b + suffix)[..|b|] == b;
    }
  }

  /** Restoring the stored records rebuilds the manager exactly, whenever the run
      stops, and the next prompt has the messages the live run would have sent
      after flushing and taking the same user message. The prompts are equal as a
      whole if and only if none is rebuilt or both managers were built with the
      same system prompt. */
  lemma ResumeIsNoInterruption(cfg: Config, frame: Frame, r: Run, message: string, system: string, now: Time)
    requires ValidConfig(cfg) && Reachable(cfg, frame, r)
    ensures var resumed := Resumed(cfg, frame, r, message, system, now);
            var live := LiveLog(r.builder, message, now);
            && resumed.manager == r.manager
            && r.manager.count == |r.records| <= (if cfg.maxCompactions > 0 then cfg.maxCompactions else 0)
            && RebuiltTail(resumed.manager, resumed.builder.messages) == RebuiltTail(r.manager, live)
            && (Rebuilt(ConfigOf(cfg, resumed), resumed.manager, resumed.builder.messages)
                == Rebuilt(ConfigOf(cfg, r), r.manager, live)
                <==> RebuiltTail(r.manager, live).None? || resumed.managed == r.managed)
  {
    var resumed := Resumed(cfg, frame, r, message, system, now);
    var live := LiveLog(r.builder, message, now);
    ReachableInv(cfg, frame, r);
    SameLogs(r.builder, message, now);
    SameTails(r.manager, ResumedLog(r.builder, message, now), live);
    RebuiltIs(ConfigOf(cfg, resumed), r.manager, resumed.builder.messages);
    RebuiltIs(ConfigOf(cfg, r), r.manager, live);
    if RebuiltTail(r.manager, live).Some? {
      SystemShows(ConfigOf(cfg, resumed), ConfigOf(cfg, r), r.manager);
      SameRebuilt(AugmentedSystem(ConfigOf(cfg, resumed), r.manager), AugmentedSystem(ConfigOf(cfg, r), r.manager),
                  RebuiltTail(r.manager, live).value);
    }
  }

  lemma SameRebuilt(a: string, b: string, tail: seq<PromptMessage>)
    ensures [SystemPrompt(a)] + tail == [SystemPrompt(b)] + tail <==> a == b
  {
    assert ([SystemPrompt(a)] + tail)[0] == SystemPrompt(a) && ([SystemPrompt(b)] + tail)[0] == SystemPrompt(b);
  }

  /** After a resumption the rebuilt prompts carry the agent's own system prompt if
      and only if the request supplies one or the trace has none to lose. */
  lemma ResumeKeepsSystemExactly(cfg: Config, frame: Frame, r: Run, message: string, system: string, now: Time)
    requires ValidConfig(cfg) && Reachable(cfg, frame, r)
    ensures var resumed := Resumed(cfg, frame, r, message, system, now);
            resumed.managed == resumed.own <==> TrimSpace(system) != "" || r.supplied == ""
  {
    var resumed := Resumed(cfg, frame, r, message, system, now);
    ReachableInv(cfg, frame, r);
    TrimSpaceTrims(system);
    if TrimSpace(system) == "" && r.supplied != "" {
      EffectiveShows(frame, r.supplied, system, now);
    }
  }

  /** No spilled output is lost: each one the log mentions is in the kept tail
      or among the checkpoint's references, which never repeat. */
  lemma SpilledOutputsSurvive(cfg: Config, frame: Frame, r: Run)
    requires ValidConfig(cfg) && Reachable(cfg, frame, r)
    ensures r.manager.checkpoint.Some? ==>
              var tail := Tail(r.manager, r.builder.messages);
              tail.Some? && OutputIds(r.builder.messages) == OutputIds(tail.value) + IdSet(References(r))
    ensures MaxCovered(r.records) <= |r.builder.messages|
    ensures IdSet(References(r)) == OutputIds(r.builder.messages[..MaxCovered(r.records)])
    ensures NoDuplicates(References(r))
  {
    ReachableInv(cfg, frame, r);
    if r.manager.checkpoint.Some? {
      SplitAt(r.builder.messages, r.manager.checkpoint.value.covered, MaxCovered(r.records));
    }
  }

  lemma SplitAt(messages: seq<StoredMessage>, covered: nat, furthest: nat)
    requires covered <= furthest <= |messages|
    ensures OutputIds(messages) == OutputIds(messages[covered..]) + OutputIds(messages[..furthest])
  {
    assert forall i :: 0 <= i < |messages| ==>
        (i < furthest && messages[..furthest][i] == messages[i])
        || (i >= covered && messages[covered..][i - covered] == messages[i]);
    assert forall m :: m in messages ==> m in messages[..furthest] || m in messages[covered..];
  }

  lemma {:induction false} ReferencesNeverShrink(cfg: Config, frame: Frame, r: Run, actions: seq<Action>)
    requires ValidConfig(cfg) && Inv(cfg, r)
    ensures IdSet(References(r)) <= IdSet(References(Execute(cfg, frame, r, actions)))
    decreases |actions|
  {
    if actions != [] {
      StepKeepsInv(cfg, frame, r, actions[0]);
      StepKeepsReferences(cfg, frame, r, actions[0]);
      ReferencesNeverShrink(cfg, frame, Next(cfg, frame, r, actions[0]), actions[1..]);
    }
  }

  lemma StepKeepsReferences(cfg: Config, frame: Frame, r: Run, a: Action)
    requires ValidConfig(cfg) && Inv(cfg, r)
    ensures IdSet(References(r)) <= IdSet(References(Next(cfg, frame, r, a)))
  {
    match a
    case PrepareStep(generated) =>
      if Refusal(cfg, r.manager, r.builder.messages, false, generated).None? {
        CompactionKeepsReferences(cfg, r, false, generated.value);
      }
    case Overflow(generated, now) =>
      var f := r.(builder := Flushed(r.builder, now));
      MoreMessagesKeepInv(cfg, r, f.builder);
      if Refusal(cfg, f.manager, f.builder.messages, true, generated).None? {
        CompactionKeepsReferences(cfg, f, true, generated.value);
      }
    case _ =>
  }

  // ------------------------------------------------------------------ summaries are kept

  /** What the model summarised for an action, and whether the action was an overflow. */
  datatype Said = Said(summary: Summary, overflow: bool)

  function SaidFor(a: Action): Option<Said> {
    match a
    case PrepareStep(Some(summary)) => Some(Said(summary, false))
    case Overflow(Some(summary), _) => Some(Said(summary, true))
    case _ => None
  }

  /** What the model summarised at an action if the action stored a record. */
  function SummarisedAt(cfg: Config, frame: Frame, r: Run, a: Action): seq<Said>
    requires ValidConfig(cfg)
  {
    if |Next(cfg, frame, r, a).records| > |r.records| && SaidFor(a).Some? then [SaidFor(a).value] else []
  }

  function Summarised(cfg: Config, frame: Frame, r: Run, actions: seq<Action>): seq<Said>
    requires ValidConfig(cfg)
    decreases |actions|
  {
    if actions == [] then []
    else SummarisedAt(cfg, frame, r, actions[0]) + Summarised(cfg, frame, Next(cfg, frame, r, actions[0]), actions[1..])
  }

  ghost predicate StoresWhatWasSaid(record: Record, said: Said) {
    KeepsSummary(record.summary, said.summary) && (record.trigger == Reactive <==> said.overflow)
  }

  /** From the given position on the records hold, one by one, what was said. */
  ghost predicate StoredFrom(records: seq<Record>, at: nat, said: seq<Said>) {
    |records| == at + |said| && forall k :: 0 <= k < |said| ==> StoresWhatWasSaid(records[at + k], said[k])
  }

  lemma StepStoresSummary(cfg: Config, frame: Frame, r: Run, a: Action)
    requires ValidConfig(cfg)
    ensures r.records <= Next(cfg, frame, r, a).records
    ensures StoredFrom(Next(cfg, frame, r, a).records, |r.records|, SummarisedAt(cfg, frame, r, a))
  {
  }

  lemma StoredInTurn(middle: seq<Record>, records: seq<Record>, at: nat, first: seq<Said>, later: seq<Said>)
    requires StoredFrom(middle, at, first) && middle <= records && StoredFrom(records, |middle|, later)
    ensures StoredFrom(records, at, first + later)
  {
    forall k | 0 <= k < |first + later| ensures StoresWhatWasSaid(records[at + k], (first + later)[k]) {
      if k < |first| {
        assert records[at + k] == middle[at + k];
      } else {
        assert StoresWhatWasSaid(records[|middle| + (k - |first|)], later[k - |first|]);
      }
    }
  }

  /** Record for record, a run stores what the model summarised at the action that
      made the record, reactive exactly for an overflow. */
  lemma {:induction false} RecordsStoreSummaries(cfg: Config, frame: Frame, r: Run, actions: seq<Action>)
    requires ValidConfig(cfg)
    ensures r.records <= Execute(cfg, frame, r, actions).records
    ensures StoredFrom(Execute(cfg, frame, r, actions).records, |r.records|, Summarised(cfg, frame, r, actions))
    decreases |actions|
  {
    if actions != [] {
      var next := Next(cfg, frame, r, actions[0]);
      StepStoresSummary(cfg, frame, r, actions[0]);
      RecordsStoreSummaries(cfg, frame, next, actions[1..]);
      StoredInTurn(next.records, Execute(cfg, frame, r, actions).records, |r.records|,
                   SummarisedAt(cfg, frame, r, actions[0]), Summarised(cfg, frame, next, actions[1..]));
    }
  }

  /** After any run, through overflows and resumptions, there is a checkpoint exactly
      when some action was summarised, and it holds the last summary. */
  lemma CheckpointHoldsLastSummary(cfg: Config, frame: Frame, history: seq<StoredMessage>, system: string, now: Time,
                                   actions: seq<Action>)
    requires ValidConfig(cfg)
    ensures var start := Begin(frame, history, system, now);
            var r, said := Execute(cfg, frame, start, actions), Summarised(cfg, frame, start, actions);
            && StoredFrom(r.records, 0, said) && |r.records| == |said| == r.manager.count
            && (r.manager.checkpoint.Some? <==> said != [])
            && (said != [] ==>
                  var checkpoint, last := r.manager.checkpoint.value, r.records[|said| - 1];
                  && checkpoint.summary == last.summary && checkpoint.covered == last.covered
                  && KeepsSummary(checkpoint.summary, said[|said| - 1].summary))
  {
    var start := Begin(frame, history, system, now);
    BeginFits(cfg, frame, history, system, now);
    ExecuteKeepsInv(cfg, frame, start, actions);
    RecordsStoreSummaries(cfg, frame, start, actions);
    var r, said := Execute(cfg, frame, start, actions), Summarised(cfg, frame, start, actions);
    if said != [] {
      var k := |said| - 1;
      assert StoresWhatWasSaid(r.records[|start.records| + k], said[k]);
    }
  }

  // ------------------------------------------------------------------ the covered count can shrink

  lemma {:induction false} ExecuteThenNext(cfg: Config, frame: Frame, r: Run, actions: seq<Action>, a: Action)
    requires ValidConfig(cfg)
    ensures Execute(cfg, frame, r, actions + [a]) == Next(cfg, frame, Execute(cfg, frame, r, actions), a)
    decreases |actions|
  {
    if actions == [] {
      assert [] + [a] == [a] && [a][1..] == [];
    } else {
      assert (actions + [a])[1..] == actions[1..] + [a];
      ExecuteThenNext(cfg, frame, Next(cfg, frame, r, actions[0]), actions[1..], a);
    }
  }

  /** Keep 2 messages, 1 when aggressive; the prompt always counts as too long. */
  function TightConfig(): Config {
    Config(true, "", s => "", 2, 1, 2, 100, 80, true, s => 0, messages => 0, (system, c, messages) => 100)
  }

  function BareFrame(): Frame {
    Frame(now => "", now => "")
  }

  /** A run with a user's system prompt that has overflowed: a message, its answer,
      a second message after a restart, and the compaction. */
  function Dialogue(first: string, reply: string, second: string, system: string, generated: Summary): seq<Action> {
    [Resume(first, system, 0), Stream(TextDelta(reply), 0)] + [Resume(second, system, 0)] + [Overflow(Some(generated), 0)]
  }

  function Start(): Run {
    Begin(BareFrame(), [], "", 0)
  }

  lemma ResumedAfterReply(r: Run, second: string, system: string)
    requires |r.builder.messages| == 1 && IsBoundary(r.builder.messages[0]) && r.builder.content != "" && r.records == []
    ensures var next := Resumed(TightConfig(), BareFrame(), r, second, system, 0);
            && |next.builder.messages| == 3 && (forall i :: 0 <= i < 3 ==> IsBoundary(next.builder.messages[i]))
            && !HasPending(next.builder) && next.manager == Fresh() && next.records == []
            && (TrimSpace(system) != "" ==> next.supplied == TrimSpace(system))
            && next.managed == Effective(BareFrame(), system, 0)
  {
  }

  lemma FirstReply(first: string, reply: string, system: string)
    requires reply != ""
    ensures var a1, a2 := Resume(first, system, 0), Stream(TextDelta(reply), 0);
            var r := Execute(TightConfig(), BareFrame(), Start(), [a1, a2]);
            && |r.builder.messages| == 1 && IsBoundary(r.builder.messages[0]) && r.builder.content == reply && r.records == []
  {
    var cfg, frame, r0 := TightConfig(), BareFrame(), Start();
    var a1, a2 := Resume(first, system, 0), Stream(TextDelta(reply), 0);
    assert Execute(cfg, frame, r0, []) == r0;
    ExecuteThenNext(cfg, frame, r0, [], a1);
    ExecuteThenNext(cfg, frame, r0, [] + [a1], a2);
    assert [] + [a1] + [a2] == [a1, a2];
  }

  lemma DialogueLog(first: string, reply: string, second: string, system: string)
    requires reply != ""
    ensures var r := Execute(TightConfig(), BareFrame(), Start(),
                             [Resume(first, system, 0), Stream(TextDelta(reply), 0)] + [Resume(second, system, 0)]);
            && |r.builder.messages| == 3 && (forall i :: 0 <= i < 3 ==> IsBoundary(r.builder.messages[i]))
            && !HasPending(r.builder) && r.manager == Fresh() && r.records == []
            && (TrimSpace(system) != "" ==> r.supplied == TrimSpace(system))
            && r.managed == Effective(BareFrame(), system, 0)
  {
    var talk := [Resume(first, system, 0), Stream(TextDelta(reply), 0)];
    FirstReply(first, reply, system);
    ExecuteThenNext(TightConfig(), BareFrame(), Start(), talk, Resume(second, system, 0));
    ResumedAfterReply(Execute(TightConfig(), BareFrame(), Start(), talk), second, system);
  }

  lemma DialogueOverflows(first: string, reply: string, second: string, system: string, generated: Summary)
    requires reply != ""
    ensures var r := Execute(TightConfig(), BareFrame(), Start(), Dialogue(first, reply, second, system, generated));
            && Reachable(TightConfig(), BareFrame(), r)
            && |r.builder.messages| == 3 && SplitPoint(r.builder.messages, 2) == 1
            && r.manager.checkpoint.Some? && r.manager.checkpoint.value.covered == 2 && r.manager.count == 1
            && (TrimSpace(system) != "" ==> r.supplied == TrimSpace(system))
            && r.managed == Effective(BareFrame(), system, 0)
  {
    var cfg, frame := TightConfig(), BareFrame();
    var talk := [Resume(first, system, 0), Stream(TextDelta(reply), 0)] + [Resume(second, system, 0)];
    var r := Execute(cfg, frame, Start(), talk);
    DialogueLog(first, reply, second, system);
    ExecuteThenNext(cfg, frame, Start(), talk, Overflow(Some(generated), 0));
    assert SplitPoint(r.builder.messages, 1) == 2 && SplitPoint(r.builder.messages, 2) == 1;
  }

  /** In a real run: an overflow compacts aggressively and covers two messages;
      the retried step finds the prompt still too long and its normal compaction
      covers only one. */
  lemma CoveredShrinksInARun(first: string, reply: string, second: string, generated: Summary)
    requires reply != ""
    ensures var cfg, frame := TightConfig(), BareFrame();
            var acts := Dialogue(first, reply, second, "", generated);
            var overflowed := Execute(cfg, frame, Start(), acts);
            var stepped := Execute(cfg, frame, Start(), acts + [PrepareStep(Some(generated))]);
            && NeedsCompacting(ConfigOf(cfg, overflowed), overflowed.manager, overflowed.builder.messages)
            && overflowed.manager.checkpoint.Some? && overflowed.manager.checkpoint.value.covered == 2
            && stepped.manager.checkpoint.Some? && stepped.manager.checkpoint.value.covered == 1
  {
    DialogueOverflows(first, reply, second, "", generated);
    ExecuteThenNext(TightConfig(), BareFrame(), Start(), Dialogue(first, reply, second, "", generated),
                    PrepareStep(Some(generated)));
  }

  /** In a real run: a compacted run is resumed without repeating the user's system
      prompt. The agent keeps it; the rebuilt prompts have lost it. */
  lemma ResumeLosesSystem(first: string, reply: string, second: string, system: string, generated: Summary, message: string)
    requires reply != "" && TrimSpace(system) != ""
    ensures var cfg, frame := TightConfig(), BareFrame();
            var r := Execute(cfg, frame, Start(), Dialogue(first, reply, second, system, generated));
            var resumed := Resumed(cfg, frame, r, message, "", 0);
            && Reachable(cfg, frame, r) && resumed.supplied == TrimSpace(system) && resumed.managed != resumed.own
            && Rebuilt(ConfigOf(cfg, resumed), resumed.manager, resumed.builder.messages).Some?
            && Rebuilt(ConfigOf(cfg, resumed), resumed.manager, resumed.builder.messages)
               != Rebuilt(ConfigOf(cfg, r), r.manager, LiveLog(r.builder, message, 0))
  {
    var cfg, frame := TightConfig(), BareFrame();
    var r := Execute(cfg, frame, Start(), Dialogue(first, reply, second, system, generated));
    DialogueOverflows(first, reply, second, system, generated);
    CheckpointLoses(cfg, frame, r, message, system);
  }

  lemma CheckpointLoses(cfg: Config, frame: Frame, r: Run, message: string, system: string)
    requires ValidConfig(cfg) && Reachable(cfg, frame, r)
    requires r.manager.checkpoint.Some? && r.manager.checkpoint.value.covered > 0
    requires TrimSpace(system) != "" && r.supplied == TrimSpace(system) && r.managed == Effective(frame, system, 0)
    ensures var resumed := Resumed(cfg, frame, r, message, "", 0);
            && resumed.supplied == r.supplied && resumed.managed != resumed.own
            && Rebuilt(ConfigOf(cfg, resumed), resumed.manager, resumed.builder.messages).Some?
            && Rebuilt(ConfigOf(cfg, resumed), resumed.manager, resumed.builder.messages)
               != Rebuilt(ConfigOf(cfg, r), r.manager, LiveLog(r.builder, message, 0))
  {
    var resumed := Resumed(cfg, frame, r, message, "", 0);
    assert TrimSpace("") == "";
    ResumeKeepsSystemExactly(cfg, frame, r, message, "", 0);
    EffectiveShows(frame, system, "", 0);
    ResumeIsNoInterruption(cfg, frame, r, message, "", 0);
    RebuiltIs(ConfigOf(cfg, resumed), resumed.manager, resumed.builder.messages);
  }

  // ------------------------------------------------------------------ no orphaned results

  /** What a run may still answer: the calls of the turn being streamed, or of
      the turn flushed last. */
  datatype Turn = Turn(open: set<string>, streaming: bool)

  function Advance(t: Turn, e: Event): Turn {
    match e
    case UserMessage(_) => if t.streaming then t else Turn({}, false)
    case TextDelta(text) => if text == "" || t.streaming then t else Turn({}, true)
    case ReasoningDelta(text) => if text == "" || t.streaming then t else Turn({}, true)
    case CallTool(id, _, _) => Turn((if t.streaming then t.open else {}) + {id}, true)
    case ToolResult(_, _, _, _) => Turn(t.open, false)
    case Flush => Turn(t.open, false)
  }

  function AdvanceBy(t: Turn, a: Action): Turn {
    match a
    case Stream(event, _) => Advance(t, event)
    case PrepareStep(_) => t
    case Overflow(_, _) => Turn(t.open, false)
    case Resume(_, _, _) => Turn({}, false)
  }

  /** Every result answers a call that is open when it arrives. */
  ghost predicate Orderly(t: Turn, actions: seq<Action>)
    decreases |actions|
  {
    actions == [] ||
    (&& (actions[0].Stream? && actions[0].event.ToolResult? ==> actions[0].event.id in t.open)
     && Orderly(AdvanceBy(t, actions[0]), actions[1..]))
  }

  function CallIds(calls: seq<ToolCall>): set<string> {
    set c | c in calls :: c.id
  }

  /** The calls of the last turn in the log. */
  function LastTurnCalls(messages: seq<StoredMessage>): set<string> {
    var start := TurnStart(messages, |messages|);
    if start >= 0 && messages[start].role == Assistant then CallIds(messages[start].toolCalls) else {}
  }

  ghost predicate Tracks(t: Turn, b: Builder) {
    && t.streaming == HasPending(b)
    && t.open <= (if HasPending(b) then CallIds(b.toolCalls) else LastTurnCalls(b.messages))
  }

  lemma CallIdsCall(m: StoredMessage, id: string)
    requires m.role == Assistant && id in CallIds(m.toolCalls)
    ensures Calls(m, id)
  {
    var c :| c in m.toolCalls && c.id == id;
    var k :| 0 <= k < |m.toolCalls| && m.toolCalls[k] == c;
  }

  /** A boundary message appended to the log leaves earlier turns alone. */
  lemma AppendBoundary(messages: seq<StoredMessage>, m: StoredMessage)
    requires AnswersItsTurn(messages) && IsBoundary(m)
    ensures AnswersItsTurn(messages + [m])
    ensures TurnStart(messages + [m], |messages| + 1) == |messages|
  {
    forall j | 0 <= j < |messages + [m]| && (messages + [m])[j].role == Tool
      ensures TurnStart(messages + [m], j) == TurnStart(messages, j)
    {
      TurnStartOfPrefix(messages, [m], j);
    }
  }

  lemma TurnsStay(messages: seq<StoredMessage>, m: StoredMessage)
    ensures forall j: nat :: j <= |messages| ==> TurnStart(messages + [m], j) == TurnStart(messages, j)
  {
    forall j: nat | j <= |messages| ensures TurnStart(messages + [m], j) == TurnStart(messages, j) {
      TurnStartOfPrefix(messages, [m], j);
    }
  }

  lemma ResultStaysInTurn(messages: seq<StoredMessage>, m: StoredMessage)
    requires m.role == Tool
    ensures TurnStart(messages + [m], |messages| + 1) == TurnStart(messages, |messages|)
    ensures LastTurnCalls(messages + [m]) == LastTurnCalls(messages)
  {
    TurnsStay(messages, m);
  }

  lemma AppendResult(messages: seq<StoredMessage>, m: StoredMessage)
    requires AnswersItsTurn(messages) && m.role == Tool && m.toolCallId in LastTurnCalls(messages)
    ensures AnswersItsTurn(messages + [m])
    ensures LastTurnCalls(messages + [m]) == LastTurnCalls(messages)
  {
    ResultStaysInTurn(messages, m);
    TurnsStay(messages, m);
    CallIdsCall(messages[TurnStart(messages, |messages|)], m.toolCallId);
  }

  lemma FlushTracks(t: Turn, b: Builder, now: Time)
    requires Tracks(t, b) && AnswersItsTurn(b.messages)
    ensures Tracks(Turn(t.open, false), Flushed(b, now)) && AnswersItsTurn(Flushed(b, now).messages)
  {
    if HasPending(b) {
      AppendBoundary(b.messages, PendingMessage(b, Some(now)));
    }
  }

  lemma CallTracks(t: Turn, b: Builder, id: string, name: string, arguments: string, now: Time)
    requires Tracks(t, b)
    ensures Tracks(Advance(t, CallTool(id, name, arguments)), Apply(b, CallTool(id, name, arguments), now))
  {
    var call := ToolCall(id, name, arguments, now);
    assert CallIds(b.toolCalls + [call]) == CallIds(b.toolCalls) + {id};
  }

  lemma EventTracks(t: Turn, b: Builder, e: Event, now: Time)
    requires Tracks(t, b) && AnswersItsTurn(b.messages) && (e.ToolResult? ==> e.id in t.open)
    ensures Tracks(Advance(t, e), Apply(b, e, now)) && AnswersItsTurn(Apply(b, e, now).messages)
  {
    match e
    case UserMessage(_) => AppendBoundary(b.messages, Apply(b, e, now).messages[|b.messages|]);
    case CallTool(id, name, arguments) => CallTracks(t, b, id, name, arguments, now);
    case ToolResult(id, name, output, ref) =>
      var f := Flushed(b, now);
      FlushTracks(t, b, now);
      AppendResult(f.messages, ResultMessage(f, id, name, output, ref, now));
    case Flush => FlushTracks(t, b, now);
    case _ =>
  }

  lemma ActionTracks(cfg: Config, frame: Frame, t: Turn, r: Run, a: Action)
    requires ValidConfig(cfg) && Tracks(t, r.builder) && AnswersItsTurn(r.builder.messages)
    requires a.Stream? && a.event.ToolResult? ==> a.event.id in t.open
    ensures Tracks(AdvanceBy(t, a), Next(cfg, frame, r, a).builder) && AnswersItsTurn(Next(cfg, frame, r, a).builder.messages)
  {
    match a
    case Stream(event, now) => EventTracks(t, r.builder, event, now);
    case PrepareStep(_) =>
    case Overflow(_, now) => FlushTracks(t, r.builder, now);
    case Resume(message, system, now) =>
      var stored := SnapshotMessages(r.builder);
      if HasPending(r.builder) {
        AppendBoundary(r.builder.messages, PendingMessage(r.builder, None));
      } else {
        assert stored == r.builder.messages;
      }
      AppendBoundary(stored, Resumed(cfg, frame, r, message, system, now).builder.messages[|stored|]);
  }

  lemma {:induction false} OrderlyRunAnswers(cfg: Config, frame: Frame, t: Turn, r: Run, actions: seq<Action>)
    requires ValidConfig(cfg) && Tracks(t, r.builder) && AnswersItsTurn(r.builder.messages) && Orderly(t, actions)
    ensures AnswersItsTurn(Execute(cfg, frame, r, actions).builder.messages)
    decreases |actions|
  {
    if actions != [] {
      ActionTracks(cfg, frame, t, r, actions[0]);
      OrderlyRunAnswers(cfg, frame, AdvanceBy(t, actions[0]), Next(cfg, frame, r, actions[0]), actions[1..]);
    }
  }

  /** After any orderly run, through any compactions and resumptions, the prompt
      rebuilt from the checkpoint has no tool result without its call. */
  lemma RebuiltPromptHasNoOrphan(cfg: Config, frame: Frame, history: seq<StoredMessage>, system: string, now: Time,
                                 actions: seq<Action>)
    requires ValidConfig(cfg) && AnswersItsTurn(history) && Orderly(Turn({}, false), actions)
    ensures var r := Execute(cfg, frame, Begin(frame, history, system, now), actions);
            Rebuilt(ConfigOf(cfg, r), r.manager, r.builder.messages).Some? ==>
              PromptNoOrphan(Rebuilt(ConfigOf(cfg, r), r.manager, r.builder.messages).value)
  {
    var start := Begin(frame, history, system, now);
    var r := Execute(cfg, frame, start, actions);
    ExecuteKeepsInv(cfg, frame, start, actions);
    OrderlyRunAnswers(cfg, frame, Turn({}, false), start, actions);
    if Tail(r.manager, r.builder.messages).Some? {
      var covered := r.manager.checkpoint.value.covered;
      BoundaryTailKeepsCallers(r.builder.messages, covered);
      PromptKeepsCallers(r.builder.messages[covered..]);
      NoOrphanBehind([SystemPrompt(AugmentedSystem(ConfigOf(cfg, r), r.manager)), UserPrompt(CONTINUATION)],
                     ToPrompt(r.builder.messages[covered..]));
    }
  }
}
