/** The mailbox of one sub-agent (`subAgentHandle`): the fields its mutex
    guards, and one operation per critical section. `wake` is the one-slot
    channel: true when the slot holds a token. */
module Mailbox {
  import opened Common

  datatype Message = Message(text: string, title: string, systemPrompt: string, interrupt: bool)

  datatype Status = Queued | Running | Completed | Failed | Aborted | Closed

  /** How the model run of one message ended: no error, an error that is
      `context.Canceled`, or any other error. */
  datatype RunResult = Succeeded | Canceled | Errored(text: string)

  datatype SendError = EmptyMessage | HandleClosed

  datatype Next = Take(msg: Message) | Exit | Nothing

  /** The guarded fields. A stored cancel function is the number of the run
      whose context it cancels. */
  datatype Box = Box(
    queue: seq<Message>,
    status: Status,
    lastError: string,
    cancel: Option<nat>,
    closed: bool,
    wake: bool)

  function Cleaned(msg: Message): Message {
    Message(TrimSpace(msg.text), TrimSpace(msg.title), TrimSpace(msg.systemPrompt), msg.interrupt)
  }

  function RefusalOf(b: Box, msg: Message): Option<SendError> {
    if TrimSpace(msg.text) == "" then Some(EmptyMessage)
    else if b.closed then Some(HandleClosed)
    else None
  }

  /** An accepted send: an interrupt first empties the queue. */
  function Sent(b: Box, msg: Message): Box {
    var kept := if msg.interrupt then [] else b.queue;
    b.(queue := kept + [Cleaned(msg)],
       status := if b.status == Running then Running else Queued,
       wake := true)
  }

  function NextOf(b: Box): Next {
    if b.queue != [] then Take(b.queue[0]) else if b.closed then Exit else Nothing
  }

  function Dequeued(b: Box): Box {
    if b.queue != [] then b.(queue := b.queue[1..]) else b
  }

  function Started(b: Box, run: nat): Box {
    b.(cancel := Some(run), status := Running, lastError := "")
  }

  function EndStatus(closed: bool, result: RunResult): Status {
    match result
    case Succeeded => if closed then Closed else Completed
    case Canceled => if closed then Closed else Aborted
    case Errored(_) => Failed
  }

  function Finished(b: Box, result: RunResult): Box {
    b.(cancel := None,
       status := EndStatus(b.closed, result),
       lastError := if result.Errored? then result.text else "")
  }

  function ClosedBox(b: Box): Box {
    b.(closed := true, queue := [])
  }

  function FinallyClosed(b: Box): Box {
    b.(status := Closed, lastError := "")
  }

  function Signalled(b: Box): Box {
    b.(wake := true)
  }

  function Woken(b: Box): Box {
    b.(wake := false)
  }

  class SubAgentHandle {
    var queue: seq<Message>
    var status: Status
    var lastError: string
    var currentCancel: Option<nat>
    var closed: bool
    var wake: bool

    ghost function State(): Box
      reads this
    {
      Box(queue, status, lastError, currentCancel, closed, wake)
    }

    /** The literal built by `spawn`: the first message is already queued. */
    constructor (first: Message)
      ensures State() == Box([first], Queued, "", None, false, false)
    {
      queue := [first];
      status := Queued;
      lastError := "";
      currentCancel := None;
      closed := false;
      wake := false;
    }

    /** Returns the run whose cancel function an interrupt called. */
    method Send(msg: Message) returns (error: Option<SendError>, cancelled: Option<nat>)
      modifies this
      ensures error == RefusalOf(old(State()), msg)
      ensures error.Some? ==> State() == old(State()) && cancelled == None
      ensures error.None? ==> State() == Sent(old(State()), msg)
      ensures error.None? ==> cancelled == if msg.interrupt then old(currentCancel) else None
      ensures error == if TrimSpace(msg.text) == "" then Some(EmptyMessage) else if old(closed) then Some(HandleClosed) else None
      ensures error.None? ==>
                && queue != [] && queue[..|queue| - 1] == (if msg.interrupt then [] else old(queue))
                && queue[|queue| - 1].text == TrimSpace(msg.text)
                && queue[|queue| - 1].title == TrimSpace(msg.title)
                && queue[|queue| - 1].systemPrompt == TrimSpace(msg.systemPrompt)
                && queue[|queue| - 1].interrupt == msg.interrupt
      ensures error.None? ==> wake && status == (if old(status) == Running then Running else Queued)
      ensures lastError == old(lastError) && currentCancel == old(currentCancel) && closed == old(closed)
    {
      cancelled := None;
      var text := TrimSpace(msg.text);
      if text == "" {
        return Some(EmptyMessage), None;
      }
      if closed {
        return Some(HandleClosed), None;
      }
      if msg.interrupt {
        queue := [];
        cancelled := currentCancel;
      }
      queue := queue + [Message(text, TrimSpace(msg.title), TrimSpace(msg.systemPrompt), msg.interrupt)];
      if status != Running {
        status := Queued;
      }
      Signal();
      error := None;
    }

    /** The locked part of `close`. `first` is false for every closer but the
        one that sets `closed`; that one goes on to cancel and signal. */
    method CloseLocked() returns (first: bool, cancel: Option<nat>)
      modifies this
      ensures first == !old(closed)
      ensures !first ==> State() == old(State()) && cancel == None
      ensures first ==> State() == ClosedBox(old(State())) && cancel == old(currentCancel)
      ensures closed && (first ==> queue == [])
      ensures status == old(status) && lastError == old(lastError) && currentCancel == old(currentCancel) && wake == old(wake)
    {
      if closed {
        return false, None;
      }
      closed := true;
      queue := [];
      return true, currentCancel;
    }

    method Dequeue() returns (next: Next)
      modifies this
      ensures next == NextOf(old(State()))
      ensures State() == Dequeued(old(State()))
      ensures old(queue) != [] ==> next == Take(old(queue)[0]) && queue == old(queue)[1..]
      ensures old(queue) == [] ==> next == (if closed then Exit else Nothing) && queue == []
      ensures status == old(status) && currentCancel == old(currentCancel) && closed == old(closed) && wake == old(wake)
    {
      if |queue| > 0 {
        next := Take(queue[0]);
        queue := queue[1..];
      } else if closed {
        next := Exit;
      } else {
        next := Nothing;
      }
    }

    method SetRunning(cancel: nat)
      modifies this
      ensures State() == Started(old(State()), cancel)
      ensures currentCancel == Some(cancel) && status == Running && lastError == ""
      ensures queue == old(queue) && closed == old(closed) && wake == old(wake)
    {
      currentCancel := Some(cancel);
      status := Running;
      lastError := "";
    }

    /** The locked part of `onRunFinished`: what it then cancels and reports. */
    method OnRunFinished(result: RunResult) returns (cancel: Option<nat>, reported: Status)
      modifies this
      ensures State() == Finished(old(State()), result)
      ensures cancel == old(currentCancel) && reported == status && currentCancel == None
      ensures result.Errored? ==> status == Failed && lastError == result.text
      ensures !result.Errored? && closed ==> status == Closed && lastError == ""
      ensures result.Succeeded? && !closed ==> status == Completed && lastError == ""
      ensures result.Canceled? && !closed ==> status == Aborted && lastError == ""
      ensures queue == old(queue) && closed == old(closed) && wake == old(wake)
    {
      cancel := currentCancel;
      currentCancel := None;
      if result.Succeeded? && closed {
        status, lastError := Closed, "";
      } else if result.Succeeded? {
        status, lastError := Completed, "";
      } else if result.Canceled? && closed {
        status, lastError := Closed, "";
      } else if result.Canceled? {
        status, lastError := Aborted, "";
      } else {
        status, lastError := Failed, result.text;
      }
      reported := status;
    }

    method SetFinalClosed()
      modifies this
      ensures State() == FinallyClosed(old(State()))
      ensures status == Closed && lastError == "" && queue == old(queue) && closed == old(closed)
      ensures currentCancel == old(currentCancel) && wake == old(wake)
    {
      status := Closed;
      lastError := "";
    }

    /** A non-blocking send into the one-slot channel. */
    method Signal()
      modifies this
      ensures State() == Signalled(old(State()))
      ensures wake && queue == old(queue) && status == old(status) && lastError == old(lastError)
      ensures currentCancel == old(currentCancel) && closed == old(closed)
    {
      if !wake {
        wake := true;
      }
    }
  }
}
