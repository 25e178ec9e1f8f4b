/** The protocol around one sub-agent: any number of senders and closers, the
    spawner, the worker loop, and the parent that drains notifications, as
    atomic steps with one step per critical section. The windows between
    critical sections are program points of their own: `Starting` lies between
    dequeue and setRunning, `Cancelling` and `Signalling` between the moment a
    closer sets `closed` and its wake-up signal, `Posting` between the end of a
    run and the parent's notification. */
module SubAgents {
  import opened Common
  import opened Mailbox

  datatype LoopPoint =
    | NotStarted
    | AtDequeue
    | AtWait
    | Starting
    | InRun
    | Posting(reported: Status)
    | Leaving
    | Exited

  datatype SpawnPoint = ToSignal | ToStart | ToNotify | SpawnDone

  datatype CloserPoint = Cancelling(cancel: Option<nat>) | Signalling

  datatype Notice = Spawned | RunEnded(status: Status)

  /** What has become of an accepted message. */
  datatype Fate = Waiting | Taken | Dropped

  /** `accepted`, `fates`, `taken` and `ended` are the history: every accepted
      message in order with its fate, the indices of those the loop dequeued in
      the order it did, and how each finished run ended. Runs are numbered by
      how many messages had been dequeued when they started. */
  datatype State = State(
    box: Box,
    loop: LoopPoint,
    spawn: SpawnPoint,
    closers: map<nat, CloserPoint>,
    cancelled: set<nat>,
    pending: seq<Notice>,
    delivered: seq<Notice>,
    accepted: seq<Message>,
    fates: seq<Fate>,
    taken: seq<nat>,
    ended: seq<Status>)

  datatype Event =
    | Send(msg: Message)
    | Close(thread: nat)
    | CloserStep(thread: nat)
    | SpawnStep
    | LoopStep(result: RunResult)
    | Drain

  function Initial(first: Message): State {
    State(Box([first], Queued, "", None, false, false), NotStarted, ToSignal, map[], {}, [], [],
          [first], [Waiting], [], [])
  }

  /** How many accepted messages have left the queue. */
  function Head(s: State): nat {
    if |s.box.queue| <= |s.accepted| then |s.accepted| - |s.box.queue| else 0
  }

  /** The fates once everything still waiting is thrown away. */
  function DropWaiting(fates: seq<Fate>): (r: seq<Fate>)
    ensures |r| == |fates|
  {
    seq(|fates|, i requires 0 <= i < |fates| => if fates[i] == Waiting then Dropped else fates[i])
  }

  function MarkTaken(fates: seq<Fate>, i: nat): seq<Fate> {
    if i < |fates| then fates[i := Taken] else fates
  }

  function WithCancel(cancelled: set<nat>, cancel: Option<nat>): set<nat> {
    if cancel.Some? then cancelled + {cancel.value} else cancelled
  }

  predicate Enabled(s: State, e: Event) {
    match e
    case Send(_) => true
    case Close(t) => t !in s.closers
    case CloserStep(t) => t in s.closers
    case SpawnStep => s.spawn != SpawnDone
    case LoopStep(_) => s.loop != NotStarted && s.loop != Exited && (s.loop == AtWait ==> s.box.wake)
    case Drain => s.pending != []
  }

  function Step(s: State, e: Event): State
    requires Enabled(s, e)
  {
    match e
    case Send(msg) => SendStep(s, msg)
    case Close(t) =>
      if s.box.closed then s
      else s.(box := ClosedBox(s.box),
              closers := s.closers[t := Cancelling(s.box.cancel)],
              fates := DropWaiting(s.fates))
    case CloserStep(t) =>
      if s.closers[t].Cancelling?
      then s.(cancelled := WithCancel(s.cancelled, s.closers[t].cancel),
              closers := s.closers[t := Signalling])
      else s.(box := Signalled(s.box), closers := s.closers - {t})
    case SpawnStep => SpawnerStep(s)
    case LoopStep(result) => WorkerStep(s, result)
    case Drain => s.(delivered := s.delivered + s.pending, pending := [])
  }

  function SendStep(s: State, msg: Message): State {
    if RefusalOf(s.box, msg).Some? then s
    else s.(box := Sent(s.box, msg),
            accepted := s.accepted + [Cleaned(msg)],
            cancelled := if msg.interrupt then WithCancel(s.cancelled, s.box.cancel) else s.cancelled,
            fates := (if msg.interrupt then DropWaiting(s.fates) else s.fates) + [Waiting])
  }

  function SpawnerStep(s: State): State
    requires s.spawn != SpawnDone
  {
    match s.spawn
    case ToSignal => s.(box := Signalled(s.box), spawn := ToStart)
    case ToStart => s.(loop := if s.loop == NotStarted then AtDequeue else s.loop, spawn := ToNotify)
    case ToNotify => s.(pending := s.pending + [Spawned], spawn := SpawnDone)
  }

  function WorkerStep(s: State, result: RunResult): State
    requires Enabled(s, LoopStep(result))
  {
    match s.loop
    case AtDequeue =>
      (match NextOf(s.box)
       case Take(_) => s.(box := Dequeued(s.box), loop := Starting,
                            fates := MarkTaken(s.fates, Head(s)),
                            taken := s.taken + [Head(s)])
       case Exit => s.(loop := Leaving)
       case Nothing => s.(loop := AtWait))
    case AtWait => s.(box := Woken(s.box), loop := AtDequeue)
    case Starting => s.(box := Started(s.box, |s.taken|), loop := InRun)
    case InRun =>
      s.(box := Finished(s.box, result),
         cancelled := WithCancel(s.cancelled, s.box.cancel),
         ended := s.ended + [EndStatus(s.box.closed, result)],
         loop := Posting(EndStatus(s.box.closed, result)))
    case Posting(reported) => s.(pending := s.pending + [RunEnded(reported)], loop := AtDequeue)
    case Leaving => s.(box := FinallyClosed(s.box), loop := Exited)
  }


  ghost predicate IsRun(s: State, es: seq<Event>)
    decreases |es|
  {
    es == [] || (Enabled(s, es[0]) && IsRun(Step(s, es[0]), es[1..]))
  }

  ghost function After(s: State, es: seq<Event>): State
    requires IsRun(s, es)
    decreases |es|
  {
    if es == [] then s else After(Step(s, es[0]), es[1..])
  }

  ghost predicate Reachable(s: State) {
    exists first: Message, es: seq<Event> :: IsRun(Initial(first), es) && After(Initial(first), es) == s
  }

  /** The run endings a list of notices reports, in order. */
  function EndingsIn(notices: seq<Notice>): seq<Status> {
    if notices == [] then []
    else EndingsIn(notices[..|notices| - 1]) +
         (if notices[|notices| - 1].RunEnded? then [notices[|notices| - 1].status] else [])
  }

  predicate MessageInHand(s: State) {
    s.loop.Starting? || s.loop.InRun?
  }

  // ------------------------------------------------------------------ invariant

  /** Queue, history and counters agree. */
  ghost predicate Accounted(s: State) {
    && |s.box.queue| <= |s.accepted| == |s.fates|
    && s.box.queue == s.accepted[Head(s)..]
    && (forall i :: 0 <= i < |s.fates| ==> (s.fates[i] == Waiting <==> Head(s) <= i))
    && (forall i, j :: 0 <= i < j < |s.taken| ==> s.taken[i] < s.taken[j])
    && (forall i :: 0 <= i < |s.taken| ==> s.taken[i] < |s.fates| && s.fates[s.taken[i]] == Taken)
    && (forall i: nat :: i < |s.fates| && s.fates[i] == Taken ==> i in s.taken)
    && |s.ended| == |s.taken| - (if MessageInHand(s) then 1 else 0)
  }

  /** Status, cancel function and loop position agree. */
  ghost predicate StatusAgrees(s: State) {
    && (s.box.status == Running <==> s.loop.InRun?)
    && s.box.cancel == (if s.loop.InRun? then Some(|s.taken|) else None)
    && (s.box.closed ==> s.box.queue == [])
    && (s.loop.Leaving? || s.loop.Exited? ==> s.box.closed)
    && (s.loop.Exited? ==> s.box.status == Closed)
    && (s.loop.NotStarted? <==> s.spawn.ToSignal? || s.spawn.ToStart?)
    && (s.loop.NotStarted? ==> s.box.status == Queued)
    && (s.loop.AtWait? && s.box.queue != [] ==> s.box.status == Queued)
  }

  ghost predicate ClosersAgree(s: State) {
    && (forall t :: t in s.closers ==> s.box.closed)
    && (forall t, u :: t in s.closers && u in s.closers ==> t == u)
  }

  /** Only runs that have started can have been cancelled. */
  ghost predicate CancelsAgree(s: State) {
    && (forall c :: c in s.cancelled ==> c <= |s.taken| && (s.loop.Starting? ==> c < |s.taken|))
    && (forall t :: t in s.closers && s.closers[t].Cancelling? && s.closers[t].cancel.Some? ==>
          s.closers[t].cancel.value <= |s.taken| && (s.loop.Starting? ==> s.closers[t].cancel.value < |s.taken|))
  }

  ghost predicate WakeUpPending(s: State) {
    s.loop.AtWait? && (s.box.queue != [] || s.box.closed) ==> s.box.wake || s.closers != map[]
  }

  ghost predicate NoticesAgree(s: State) {
    s.ended == EndingsIn(s.delivered + s.pending) + (if s.loop.Posting? then [s.loop.reported] else [])
  }

  ghost predicate Inv(s: State) {
    Accounted(s) && StatusAgrees(s) && ClosersAgree(s) && CancelsAgree(s) && WakeUpPending(s) && NoticesAgree(s)
  }

  lemma SendAccounted(s: State, msg: Message)
    requires Accounted(s)
    ensures Accounted(SendStep(s, msg))
  {
    var t := SendStep(s, msg);
    if RefusalOf(s.box, msg).None? {
      assert Head(t) == if msg.interrupt then |s.accepted| else Head(s);
      assert t.box.queue == t.accepted[Head(t)..];
    }
  }

  lemma CloseAccounted(s: State, thread: nat)
    requires Accounted(s) && thread !in s.closers
    ensures Accounted(Step(s, Close(thread)))
  {
  }

  lemma TakeAccounted(s: State, result: RunResult)
    requires Accounted(s) && s.loop.AtDequeue?
    ensures Accounted(WorkerStep(s, result))
  {
    var t := WorkerStep(s, result);
    if s.box.queue != [] {
      assert Head(t) == Head(s) + 1;
      assert t.taken[|s.taken|] == Head(s);
      forall i: nat | i < |t.fates| && t.fates[i] == Taken ensures i in t.taken {
        if i != Head(s) {
          assert i in s.taken;
        }
      }
      assert t.box.queue == t.accepted[Head(t)..];
    }
  }

  /** Steps that leave queue and history alone. */
  lemma QuietAccounted(s: State, t: State)
    requires Accounted(s) && t.box.queue == s.box.queue
    requires t.accepted == s.accepted && t.fates == s.fates && t.taken == s.taken
    requires |t.ended| == |t.taken| - (if MessageInHand(t) then 1 else 0)
    ensures Accounted(t)
  {
  }

  lemma StepAccounted(s: State, e: Event)
    requires Accounted(s) && Enabled(s, e)
    ensures Accounted(Step(s, e))
  {
    match e
    case Send(msg) => SendAccounted(s, msg);
    case Close(thread) => CloseAccounted(s, thread);
    case LoopStep(result) =>
      if s.loop.AtDequeue? {
        TakeAccounted(s, result);
      } else {
        QuietAccounted(s, Step(s, e));
      }
    case _ => QuietAccounted(s, Step(s, e));
  }

  lemma StepStatus(s: State, e: Event)
    requires Accounted(s) && StatusAgrees(s) && Enabled(s, e)
    ensures StatusAgrees(Step(s, e))
  {
  }

  lemma StepClosers(s: State, e: Event)
    requires StatusAgrees(s) && ClosersAgree(s) && WakeUpPending(s) && Enabled(s, e)
    ensures ClosersAgree(Step(s, e)) && WakeUpPending(Step(s, e))
  {
  }

  lemma StepCancels(s: State, e: Event)
    requires StatusAgrees(s) && CancelsAgree(s) && Enabled(s, e)
    ensures CancelsAgree(Step(s, e))
  {
  }

  lemma Posted(s: State, n: Notice)
    ensures EndingsIn(s.delivered + (s.pending + [n]))
            == EndingsIn(s.delivered + s.pending) + (if n.RunEnded? then [n.status] else [])
  {
    assert s.delivered + (s.pending + [n]) == (s.delivered + s.pending) + [n];
    assert ((s.delivered + s.pending) + [n])[..|s.delivered + s.pending|] == s.delivered + s.pending;
  }

  lemma WorkerNotices(s: State, result: RunResult)
    requires NoticesAgree(s) && Enabled(s, LoopStep(result))
    ensures NoticesAgree(WorkerStep(s, result))
  {
    if s.loop.Posting? {
      Posted(s, RunEnded(s.loop.reported));
    } else if !s.loop.InRun? {
      QuietNotices(s, WorkerStep(s, result));
    }
  }

  /** Steps that post nothing; a drain only moves notices over. */
  lemma QuietNotices(s: State, t: State)
    requires NoticesAgree(s) && t.delivered + t.pending == s.delivered + s.pending
    requires t.ended == s.ended && (t.loop == s.loop || (!t.loop.Posting? && !s.loop.Posting?))
    ensures NoticesAgree(t)
  {
  }

  lemma SpawnerNotices(s: State)
    requires NoticesAgree(s) && Enabled(s, SpawnStep)
    ensures NoticesAgree(SpawnerStep(s))
  {
    if s.spawn == ToNotify {
      Posted(s, Spawned);
    } else {
      QuietNotices(s, SpawnerStep(s));
    }
  }

  lemma OtherNotices(s: State, e: Event)
    requires NoticesAgree(s) && Enabled(s, e) && !e.SpawnStep? && !e.LoopStep?
    ensures NoticesAgree(Step(s, e))
  {
    var t := Step(s, e);
    assert t.delivered + t.pending == s.delivered + s.pending;
    QuietNotices(s, t);
  }

  lemma StepNotices(s: State, e: Event)
    requires NoticesAgree(s) && Enabled(s, e)
    ensures NoticesAgree(Step(s, e))
  {
    match e
    case SpawnStep => SpawnerNotices(s);
    case LoopStep(result) => WorkerNotices(s, result);
    case _ => OtherNotices(s, e);
  }

  lemma StepKeepsInv(s: State, e: Event)
    requires Inv(s) && Enabled(s, e)
    ensures Inv(Step(s, e))
  {
    StepAccounted(s, e);
    StepStatus(s, e);
    StepClosers(s, e);
    StepCancels(s, e);
    StepNotices(s, e);
  }

  lemma {:induction false} RunKeepsInv(s: State, es: seq<Event>)
    requires Inv(s) && IsRun(s, es)
    ensures Inv(After(s, es))
    decreases |es|
  {
    if es != [] {
      StepKeepsInv(s, es[0]);
      RunKeepsInv(Step(s, es[0]), es[1..]);
    }
  }

  lemma ReachableInv(s: State)
    requires Reachable(s)
    ensures Inv(s)
  {
    var first: Message, es: seq<Event> :| IsRun(Initial(first), es) && After(Initial(first), es) == s;
    assert Inv(Initial(first));
    RunKeepsInv(Initial(first), es);
  }

  // ------------------------------------------------------------------ safety over runs

  /** A loop that sleeps while there is work has a wake-up token waiting, or
      the one closer that set `closed` has not signalled yet. */
  lemma NoLostWakeUp(s: State)
    requires Reachable(s)
    requires s.loop.AtWait? && (s.box.queue != [] || s.box.closed)
    ensures s.box.wake || exists t :: t in s.closers && s.box.closed && forall u :: u in s.closers ==> u == t
  {
    ReachableInv(s);
    if !s.box.wake {
      var t :| t in s.closers;
    }
  }

  /** Every accepted message has exactly one fate, the queue is the unread end
      of the accepted messages, and the loop read the rest in order, each at
      most once. */
  lemma MessagesAccounted(s: State)
    requires Reachable(s)
    ensures Head(s) + |s.box.queue| == |s.accepted| == |s.fates|
    ensures s.box.queue == s.accepted[Head(s)..]
    ensures forall i :: 0 <= i < |s.fates| ==> (s.fates[i] == Waiting <==> Head(s) <= i)
    ensures forall i: nat :: i in s.taken <==> i < |s.fates| && s.fates[i] == Taken
    ensures forall i, j :: 0 <= i < j < |s.taken| ==> s.taken[i] < s.taken[j]
  {
    ReachableInv(s);
  }

  /** What the senders got accepted: the non-blank messages sent before the first
      close, each with its trimmed text, title and system prompt and its flag. */
  function AcceptedOf(es: seq<Event>, closed: bool): seq<Message> {
    if es == [] then []
    else match es[0]
      case Send(msg) =>
        (if closed || TrimSpace(msg.text) == "" then []
         else [Message(TrimSpace(msg.text), TrimSpace(msg.title), TrimSpace(msg.systemPrompt), msg.interrupt)])
        + AcceptedOf(es[1..], closed)
      case Close(_) => AcceptedOf(es[1..], true)
      case _ => AcceptedOf(es[1..], closed)
  }

  lemma StepAccepts(s: State, e: Event)
    requires Enabled(s, e)
    ensures Step(s, e).box.closed == (s.box.closed || e.Close?)
    ensures Step(s, e).accepted == s.accepted + AcceptedOf([e], s.box.closed)
  {
    assert [e][1..] == [];
  }

  lemma InTurn(a: seq<Message>, b: seq<Message>, c: seq<Message>)
    ensures a + (b + c) == (a + b) + c
  {
  }

  lemma AcceptedFirst(es: seq<Event>, closed: bool)
    requires es != []
    ensures AcceptedOf(es, closed) == AcceptedOf([es[0]], closed) + AcceptedOf(es[1..], closed || es[0].Close?)
  {
    assert [es[0]][1..] == [];
  }

  lemma {:induction false} RunAccepts(s: State, es: seq<Event>)
    requires IsRun(s, es)
    ensures After(s, es).accepted == s.accepted + AcceptedOf(es, s.box.closed)
    decreases |es|
  {
    if es != [] {
      StepAccepts(s, es[0]);
      RunAccepts(Step(s, es[0]), es[1..]);
      AcceptedFirst(es, s.box.closed);
      InTurn(s.accepted, AcceptedOf([es[0]], s.box.closed), AcceptedOf(es[1..], s.box.closed || es[0].Close?));
    } else {
      assert s.accepted + [] == s.accepted;
    }
  }

  /** In every run the accepted messages are the first one followed by exactly the
      non-blank ones sent before any close, in order, field by field. */
  lemma AcceptedExactly(first: Message, es: seq<Event>)
    requires IsRun(Initial(first), es)
    ensures After(Initial(first), es).accepted == [first] + AcceptedOf(es, false)
  {
    RunAccepts(Initial(first), es);
  }

  /** The loop takes the oldest accepted message that is still queued. */
  lemma TakesOldest(s: State)
    requires Reachable(s) && s.loop.AtDequeue? && s.box.queue != []
    ensures Head(s) < |s.accepted| && NextOf(s.box) == Take(s.accepted[Head(s)])
    ensures Step(s, LoopStep(Succeeded)).taken == s.taken + [Head(s)]
  {
    ReachableInv(s);
  }

  /** How a run that ends is recorded and reported. */
  lemma EndingExactly(s: State, result: RunResult)
    requires s.loop.InRun?
    ensures var t := Step(s, LoopStep(result));
            && |t.ended| == |s.ended| + 1 && t.ended[..|s.ended|] == s.ended && t.loop == Posting(t.box.status)
            && t.ended[|s.ended|] == t.box.status
            && (t.box.status == Failed <==> result.Errored?)
            && (t.box.status == Closed <==> s.box.closed && !result.Errored?)
            && (t.box.status == Completed <==> !s.box.closed && result.Succeeded?)
            && (t.box.status == Aborted <==> !s.box.closed && result.Canceled?)
            && t.box.lastError == if result.Errored? then result.text else ""
  {
  }

  /** A finished run posts one notice; notices are drained once and in order. */
  lemma NoticesReportEveryRun(s: State)
    requires Reachable(s)
    ensures |s.ended| == |s.taken| - (if MessageInHand(s) then 1 else 0)
    ensures EndingsIn(s.delivered + s.pending) + (if s.loop.Posting? then [s.loop.reported] else []) == s.ended
  {
    ReachableInv(s);
  }

  /** Notices posted beyond one for each run reported and one for the start. */
  function Surplus(s: State): int {
    |s.delivered| + |s.pending| + (if s.loop.Posting? then 1 else 0) - |s.ended| - (if s.spawn == SpawnDone then 1 else 0)
  }

  lemma StepKeepsSurplus(s: State, e: Event)
    requires Enabled(s, e)
    ensures Surplus(Step(s, e)) == Surplus(s)
  {
  }

  lemma {:induction false} RunKeepsSurplus(s: State, es: seq<Event>)
    requires IsRun(s, es)
    ensures Surplus(After(s, es)) == Surplus(s)
    decreases |es|
  {
    if es != [] {
      StepKeepsSurplus(s, es[0]);
      RunKeepsSurplus(Step(s, es[0]), es[1..]);
    }
  }

  /** Besides those there is the notice of the start: none before it is posted, one after. */
  lemma StartIsAnnouncedOnce(s: State)
    requires Reachable(s)
    ensures |s.delivered + s.pending| == |EndingsIn(s.delivered + s.pending)| + (if s.spawn == SpawnDone then 1 else 0)
  {
    var first: Message, es: seq<Event> :| IsRun(Initial(first), es) && After(Initial(first), es) == s;
    RunKeepsSurplus(Initial(first), es);
    NoticesReportEveryRun(s);
  }

  /** Running is reported exactly while a cancel function is stored; a handle
      that sleeps with messages queued reports Queued. */
  lemma StatusMeaning(s: State)
    requires Reachable(s)
    ensures s.box.status == Running <==> s.box.cancel.Some?
    ensures s.loop.AtWait? && s.box.queue != [] ==> s.box.status == Queued
  {
    ReachableInv(s);
  }

  /** History is only ever extended: fates once decided stay decided. */
  ghost predicate Extends(s: State, t: State) {
    && s.accepted <= t.accepted
    && s.taken <= t.taken
    && s.ended <= t.ended
    && |s.fates| <= |t.fates|
    && (forall i :: 0 <= i < |s.fates| && s.fates[i] != Waiting ==> t.fates[i] == s.fates[i])
  }

  lemma StepExtends(s: State, e: Event)
    requires Inv(s) && Enabled(s, e)
    ensures Extends(s, Step(s, e))
  {
    match e
    case LoopStep(result) => WorkerExtends(s, result);
    case Send(msg) => SendExtends(s, msg);
    case _ =>
  }

  lemma WorkerExtends(s: State, result: RunResult)
    requires Inv(s) && Enabled(s, LoopStep(result))
    ensures Extends(s, WorkerStep(s, result))
  {
  }

  lemma SendExtends(s: State, msg: Message)
    requires Inv(s)
    ensures Extends(s, SendStep(s, msg))
  {
  }

  lemma {:induction false} RunExtends(s: State, es: seq<Event>)
    requires Inv(s) && IsRun(s, es)
    ensures Extends(s, After(s, es))
    decreases |es|
  {
    if es != [] {
      StepExtends(s, es[0]);
      StepKeepsInv(s, es[0]);
      RunExtends(Step(s, es[0]), es[1..]);
    }
  }

  lemma HistoryOnlyGrows(s: State, es: seq<Event>)
    requires Reachable(s) && IsRun(s, es)
    ensures Extends(s, After(s, es))
  {
    ReachableInv(s);
    RunExtends(s, es);
  }

  ghost predicate TakesOnlyFrom(s: State, taken: nat, first: nat) {
    && taken <= |s.taken|
    && first <= |s.accepted|
    && Head(s) >= first
    && (forall k :: taken <= k < |s.taken| ==> s.taken[k] >= first)
  }

  lemma {:induction false} StepTakesOnlyFrom(s: State, e: Event, taken: nat, first: nat)
    requires Inv(s) && Enabled(s, e) && TakesOnlyFrom(s, taken, first)
    ensures TakesOnlyFrom(Step(s, e), taken, first)
  {
    if e.LoopStep? {
      WorkerTakesOnlyFrom(s, e.result, taken, first);
    }
  }

  lemma {:induction false} WorkerTakesOnlyFrom(s: State, result: RunResult, taken: nat, first: nat)
    requires Inv(s) && Enabled(s, LoopStep(result)) && TakesOnlyFrom(s, taken, first)
    ensures TakesOnlyFrom(WorkerStep(s, result), taken, first)
  {
    if s.loop.AtDequeue? && s.box.queue != [] {
      assert Head(WorkerStep(s, result)) == Head(s) + 1;
    }
  }

  lemma {:induction false} RunTakesOnlyFrom(s: State, es: seq<Event>, taken: nat, first: nat)
    requires Inv(s) && IsRun(s, es) && TakesOnlyFrom(s, taken, first)
    ensures TakesOnlyFrom(After(s, es), taken, first)
    decreases |es|
  {
    if es != [] {
      StepKeepsInv(s, es[0]);
      StepTakesOnlyFrom(s, es[0], taken, first);
      RunTakesOnlyFrom(Step(s, es[0]), es[1..], taken, first);
    }
  }

  /** After an accepted interrupt nothing older than the interrupting message is
      ever taken: every message taken later was accepted with it or after it. */
  lemma InterruptOvertakes(s: State, msg: Message, es: seq<Event>)
    requires Reachable(s) && msg.interrupt && RefusalOf(s.box, msg).None?
    requires IsRun(SendStep(s, msg), es)
    ensures |s.taken| <= |After(SendStep(s, msg), es).taken|
    ensures forall k :: |s.taken| <= k < |After(SendStep(s, msg), es).taken| ==>
              After(SendStep(s, msg), es).taken[k] >= |s.accepted|
  {
    ReachableInv(s);
    StepKeepsInv(s, Send(msg));
    RunTakesOnlyFrom(SendStep(s, msg), es, |s.taken|, |s.accepted|);
  }

  /** Once closed, nothing is accepted or taken any more; once exited, the
      status stays Closed. */
  lemma {:induction false} ClosedForGood(s: State, es: seq<Event>)
    requires Reachable(s) && s.box.closed && IsRun(s, es)
    ensures After(s, es).box.closed
    ensures After(s, es).accepted == s.accepted && After(s, es).taken == s.taken
    ensures s.loop.Exited? ==> After(s, es).loop.Exited? && After(s, es).box.status == Closed
  {
    ReachableInv(s);
    ClosedRun(s, es);
    if s.loop.Exited? {
      ExitedIsClosed(s);
    }
  }

  lemma ExitedIsClosed(s: State)
    requires Inv(s) && s.loop.Exited?
    ensures s.box.status == Closed
  {
  }

  /** The same for one step: closed stays closed. */
  ghost predicate StaysClosed(s: State, t: State) {
    && t.box.closed && t.accepted == s.accepted && t.taken == s.taken
    && (s.loop.Exited? ==> t.loop.Exited? && t.box.status == Closed)
  }

  lemma {:induction false} ClosedStep(s: State, e: Event)
    requires Inv(s) && s.box.closed && Enabled(s, e)
    ensures StaysClosed(s, Step(s, e))
  {
  }

  lemma {:induction false} ClosedRun(s: State, es: seq<Event>)
    requires Inv(s) && s.box.closed && IsRun(s, es)
    ensures es != [] ==> StaysClosed(s, After(s, es))
    decreases |es|
  {
    if es != [] {
      var next := Step(s, es[0]);
      StepKeepsInv(s, es[0]);
      ClosedStep(s, es[0]);
      ClosedRun(next, es[1..]);
      if es[1..] != [] {
        ClosedTwice(s, next, After(next, es[1..]));
      }
    }
  }

  lemma ClosedTwice(s: State, t: State, u: State)
    requires StaysClosed(s, t) && StaysClosed(t, u)
    ensures StaysClosed(s, u)
  {
  }

  // ------------------------------------------------------------------ what cancels reach

  /** An interrupt cancels the run of the message in hand if and only if the
      status is Running: between dequeue and setRunning there is nothing to call. */
  lemma InterruptReachesHand(s: State, msg: Message)
    requires Reachable(s) && MessageInHand(s) && |s.taken| !in s.cancelled
    requires msg.interrupt && RefusalOf(s.box, msg).None?
    ensures |s.taken| in SendStep(s, msg).cancelled <==> s.box.status == Running
  {
    ReachableInv(s);
  }

  /** The same for the closer's captured cancel function. */
  lemma CloseReachesHand(s: State, thread: nat)
    requires Reachable(s) && MessageInHand(s) && !s.box.closed && thread !in s.closers
    ensures Step(s, Close(thread)).closers[thread] == Cancelling(Some(|s.taken|)) <==> s.box.status == Running
  {
    ReachableInv(s);
  }

  /** No cancel can reach run `run`, which a close has overtaken. */
  ghost predicate Missed(s: State, run: nat) {
    && s.box.closed && |s.taken| == run && MessageInHand(s) && run !in s.cancelled
    && (forall t :: t in s.closers ==> s.closers[t] != Cancelling(Some(run)))
  }

  lemma {:induction false} MissedStays(s: State, es: seq<Event>, run: nat)
    requires Inv(s) && Missed(s, run) && IsRun(s, es) && |After(s, es).ended| == |s.ended|
    ensures Missed(After(s, es), run)
    decreases |es|
  {
    if es != [] {
      StepKeepsInv(s, es[0]);
      StepExtends(s, es[0]);
      RunExtends(Step(s, es[0]), es[1..]);
      MissedStays(Step(s, es[0]), es[1..], run);
    }
  }

  /** A close that falls between dequeue and setRunning never cancels that run,
      however the steps interleave until the run ends by itself. */
  lemma CloseMissesStartingRun(s: State, thread: nat, es: seq<Event>)
    requires Reachable(s) && s.loop.Starting? && !s.box.closed && thread !in s.closers
    requires IsRun(Step(s, Close(thread)), es)
    requires |After(Step(s, Close(thread)), es).ended| == |s.ended|
    ensures |s.taken| !in After(Step(s, Close(thread)), es).cancelled
  {
    ReachableInv(s);
    StepKeepsInv(s, Close(thread));
    MissedStays(Step(s, Close(thread)), es, |s.taken|);
  }

  lemma {:induction false} RunThenStep(s: State, es: seq<Event>, e: Event)
    requires IsRun(s, es) && Enabled(After(s, es), e)
    ensures IsRun(s, es + [e]) && After(s, es + [e]) == Step(After(s, es), e)
    decreases |es|
  {
    if es == [] {
      assert [] + [e] == [e] && [e][1..] == [];
    } else {
      RunThenStep(Step(s, es[0]), es[1..], e);
      assert (es + [e])[1..] == es[1..] + [e];
    }
  }

  lemma ReachableNext(s: State, e: Event)
    requires Reachable(s) && Enabled(s, e)
    ensures Reachable(Step(s, e))
  {
    var first: Message, es: seq<Event> :| IsRun(Initial(first), es) && After(Initial(first), es) == s;
    RunThenStep(Initial(first), es, e);
  }

  /** The loop has dequeued the first message and not yet set Running. */
  /** The child has been started and its loop is about to take the first message. */
  lemma ReadyForFirst(first: Message) returns (s: State)
    ensures Reachable(s) && Enabled(Initial(first), SpawnStep) && Enabled(Step(Initial(first), SpawnStep), SpawnStep)
    ensures s == Step(Step(Initial(first), SpawnStep), SpawnStep)
  {
    s := Initial(first);
    assert IsRun(s, []) && After(s, []) == s;
    ReachableNext(s, SpawnStep);
    s := Step(s, SpawnStep);
    ReachableNext(s, SpawnStep);
    s := Step(s, SpawnStep);
  }

  lemma FirstTaken(first: Message) returns (s: State)
    ensures Reachable(s) && s.loop.Starting? && s.taken == [0] && s.closers == map[] && s.cancelled == {}
    ensures s.box.queue == [] && s.box.cancel == None && !s.box.closed
  {
    s := ReadyForFirst(first);
    ReachableNext(s, LoopStep(Succeeded));
    s := Step(s, LoopStep(Succeeded));
  }

  /** A message sent during a run is still queued when the run reports
      Completed: a reachable state that contradicts "completed means drained". */
  lemma CompletedWithWorkQueued(first: Message, second: Message) returns (s: State)
    requires TrimSpace(second.text) != "" && !second.interrupt
    ensures Reachable(s) && s.box.status == Completed && s.box.queue == [Cleaned(second)]
  {
    s := FirstTaken(first);
    ReachableNext(s, LoopStep(Succeeded));
    s := Step(s, LoopStep(Succeeded));
    ReachableNext(s, Send(second));
    s := Step(s, Send(second));
    ReachableNext(s, LoopStep(Succeeded));
    s := Step(s, LoopStep(Succeeded));
  }

  /** Such a state is passing: the loop is on its way back to the queue, so a
      handle that reports Completed and sleeps has an empty one. */
  lemma CompletedWithWorkIsPassing(s: State)
    requires Reachable(s) && s.box.status == Completed && s.box.queue != []
    ensures s.loop.Posting? || s.loop.AtDequeue? || s.loop.Starting?
    ensures !s.box.closed
  {
    ReachableInv(s);
  }

  ghost predicate CompletedWithWork(s: State) {
    s.box.status == Completed && s.box.queue != []
  }

  /** Exactly one step brings such a state about: a run that ends well, on an
      open handle, while messages are queued. */
  lemma CompletedWithWorkArises(s: State, e: Event)
    requires Reachable(s) && Enabled(s, e) && !CompletedWithWork(s)
    ensures CompletedWithWork(Step(s, e)) <==> s.loop.InRun? && e == LoopStep(Succeeded) && s.box.queue != []
  {
    ReachableInv(s);
    if e.LoopStep? {
      WorkArisesInLoop(s, e.result);
    }
  }

  lemma WorkArisesInLoop(s: State, result: RunResult)
    requires Inv(s) && Enabled(s, LoopStep(result)) && !CompletedWithWork(s)
    ensures CompletedWithWork(Step(s, LoopStep(result))) <==> s.loop.InRun? && result == Succeeded && s.box.queue != []
  {
  }

  /** And exactly these steps end it: an accepted send, the first close, the
      start of the next run, and the dequeue of the last message. */
  lemma CompletedWithWorkEnds(s: State, e: Event)
    requires Reachable(s) && Enabled(s, e) && CompletedWithWork(s)
    ensures !CompletedWithWork(Step(s, e)) <==>
              || (e.Send? && RefusalOf(s.box, e.msg).None?)
              || e.Close?
              || (e.LoopStep? && s.loop.Starting?)
              || (e.LoopStep? && s.loop.AtDequeue? && |s.box.queue| == 1)
  {
    ReachableInv(s);
  }

  /** The window of a close, reached: the first message is dequeued, its run is
      about to start, and a close comes between. The run starts uncancelled. */
  lemma CloseInWindow(first: Message) returns (s: State)
    ensures Reachable(s) && s.loop.Starting? && !s.box.closed && s.closers == map[] && s.taken == [0]
    ensures var es := [CloserStep(0), CloserStep(0), LoopStep(Succeeded)];
            && IsRun(Step(s, Close(0)), es)
            && After(Step(s, Close(0)), es).loop.InRun?
            && After(Step(s, Close(0)), es).closers == map[]
            && |s.taken| !in After(Step(s, Close(0)), es).cancelled
  {
    s := FirstTaken(first);
    WindowRuns(s);
  }

  lemma WindowRuns(s: State)
    requires s.loop.Starting? && !s.box.closed && s.box.cancel == None && s.closers == map[] && s.cancelled == {}
    ensures var es := [CloserStep(0), CloserStep(0), LoopStep(Succeeded)];
            && IsRun(Step(s, Close(0)), es)
            && After(Step(s, Close(0)), es).loop.InRun?
            && After(Step(s, Close(0)), es).closers == map[]
            && After(Step(s, Close(0)), es).cancelled == {}
  {
    var es := [CloserStep(0), CloserStep(0), LoopStep(Succeeded)];
    var s1 := Step(s, Close(0));
    var s2 := Step(s1, CloserStep(0));
    var s3 := Step(s2, CloserStep(0));
    assert s3.closers == map[];
    var s4 := Step(s3, LoopStep(Succeeded));
    assert IsRun(s4, es[3..]) && After(s4, es[3..]) == s4;
    assert es[2..][1..] == es[3..] && es[1..][1..] == es[2..];
    assert IsRun(s3, es[2..]) && After(s3, es[2..]) == s4;
    assert IsRun(s2, es[1..]) && After(s2, es[1..]) == s4;
    assert IsRun(s1, es) && After(s1, es) == s4;
  }

  // ------------------------------------------------------------------ progress

  /** Steps the system takes by itself, without another send or close. */
  predicate Internal(e: Event) {
    e.CloserStep? || e.SpawnStep? || e.LoopStep?
  }

  function LoopWeight(p: LoopPoint): nat {
    match p
    case NotStarted => 0
    case AtDequeue => 2
    case AtWait => 0
    case Starting => 5
    case InRun => 4
    case Posting(_) => 3
    case Leaving => 1
    case Exited => 0
  }

  function SpawnWeight(p: SpawnPoint): nat {
    match p
    case ToSignal => 8
    case ToStart => 4
    case ToNotify => 1
    case SpawnDone => 0
  }

  ghost function CloserWeight(s: State): nat {
    if s.closers == map[] then 0
    else if exists t :: t in s.closers && s.closers[t].Cancelling? then 5
    else 4
  }

  ghost function Measure(s: State): nat {
    4 * |s.box.queue| + (if s.box.wake then 3 else 0) + LoopWeight(s.loop) + SpawnWeight(s.spawn) + CloserWeight(s)
  }

  lemma CloserStepDecreases(s: State, e: Event)
    requires Inv(s) && Enabled(s, e) && e.CloserStep?
    ensures Measure(Step(s, e)) < Measure(s)
  {
    var t := Step(s, e);
    if s.closers[e.thread].Cancelling? {
      assert e.thread in t.closers;
    } else {
      assert t.closers == map[];
    }
  }

  lemma WorkerStepDecreases(s: State, result: RunResult)
    requires Inv(s) && Enabled(s, LoopStep(result)) && Internal(LoopStep(result))
    ensures Measure(WorkerStep(s, result)) < Measure(s)
  {
    var t := WorkerStep(s, result);
    assert t.closers == s.closers && t.spawn == s.spawn;
    if s.loop.AtDequeue? && s.box.queue != [] {
      assert |t.box.queue| == |s.box.queue| - 1;
    } else {
      assert t.box.queue == s.box.queue;
    }
  }

  lemma InternalStepDecreases(s: State, e: Event)
    requires Inv(s) && Enabled(s, e) && Internal(e)
    ensures Measure(Step(s, e)) < Measure(s)
  {
    if e.CloserStep? {
      CloserStepDecreases(s, e);
    } else if e.LoopStep? {
      WorkerStepDecreases(s, e.result);
    } else {
      assert CloserWeight(Step(s, e)) == CloserWeight(s);
    }
  }

  ghost predicate AllInternal(es: seq<Event>) {
    forall i :: 0 <= i < |es| ==> Internal(es[i])
  }

  /** Nothing waits, every message is taken or dropped, every run is reported,
      and the loop sleeps with an empty mailbox or has exited. */
  ghost predicate Settled(s: State) {
    && s.box.queue == []
    && (forall i :: 0 <= i < |s.fates| ==> s.fates[i] != Waiting)
    && |s.ended| == |s.taken|
    && EndingsIn(s.delivered + s.pending) == s.ended
    && s.closers == map[]
    && (if s.box.closed then s.loop.Exited? && s.box.status == Closed else s.loop.AtWait? && !s.box.wake)
  }

  /** Whenever the system cannot move by itself there is nothing left to do:
      no accepted message and no close is slept through. */
  lemma StuckMeansSettled(s: State)
    requires Reachable(s)
    requires forall e :: Internal(e) ==> !Enabled(s, e)
    ensures Settled(s)
  {
    ReachableInv(s);
    StuckSettles(s);
  }

  lemma StuckSettles(s: State)
    requires Inv(s)
    requires forall e :: Internal(e) ==> !Enabled(s, e)
    ensures Settled(s)
  {
    assert !Enabled(s, SpawnStep);
    assert !Enabled(s, LoopStep(Succeeded));
    assert forall t :: t in s.closers ==> Enabled(s, CloserStep(t));
  }

  /** Every schedule without new sends and closes is finite, and each can be
      continued to a settled state: runs cannot go round in circles. */
  lemma {:induction false} EveryScheduleIsFinite(s: State, es: seq<Event>)
    requires Inv(s) && IsRun(s, es) && AllInternal(es)
    ensures |es| <= Measure(s)
    decreases |es|
  {
    if es != [] {
      InternalStepDecreases(s, es[0]);
      StepKeepsInv(s, es[0]);
      EveryScheduleIsFinite(Step(s, es[0]), es[1..]);
    }
  }

  lemma {:induction false} StepThenRun(s: State, e: Event, rest: seq<Event>)
    requires Enabled(s, e) && Internal(e) && IsRun(Step(s, e), rest) && AllInternal(rest)
    ensures IsRun(s, [e] + rest) && After(s, [e] + rest) == After(Step(s, e), rest) && AllInternal([e] + rest)
  {
    assert ([e] + rest)[1..] == rest;
  }

  lemma {:induction false} DrainSchedule(s: State) returns (es: seq<Event>)
    requires Inv(s)
    ensures IsRun(s, es) && AllInternal(es) && Settled(After(s, es))
    decreases Measure(s)
  {
    if e :| Internal(e) && Enabled(s, e) {
      InternalStepDecreases(s, e);
      StepKeepsInv(s, e);
      var rest := DrainSchedule(Step(s, e));
      StepThenRun(s, e, rest);
      es := [e] + rest;
    } else {
      es := [];
      StuckSettles(s);
    }
  }

  lemma EveryStateDrains(s: State)
    requires Reachable(s)
    ensures forall es :: IsRun(s, es) && AllInternal(es) ==> |es| <= Measure(s)
    ensures exists es :: IsRun(s, es) && AllInternal(es) && Settled(After(s, es))
  {
    ReachableInv(s);
    forall es | IsRun(s, es) && AllInternal(es) ensures |es| <= Measure(s) {
      EveryScheduleIsFinite(s, es);
    }
    var es := DrainSchedule(s);
  }
}
