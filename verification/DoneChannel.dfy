/** The `done` channel with the semantics it has: unbuffered, so a send completes only when another
    goroutine receives. The worker sends on it and afterwards receives from it; Shutdown, which may
    be called by anyone at any time, receives from it or closes it. */
module DoneChannel {
  import opened Wrappers

  /** Where the worker is: in the select of its loop, processing a run, at the send that ends it
      (lines 241, 291, 806), at the receive after it (line 93), at the close (line 95); or it has
      left its loop, or the process has panicked. */
  datatype Worker = Selecting | Processing | Sending | Receiving | Closing | Left | Panicked

  datatype State = State(worker: Worker, pending: nat, doneClosed: bool, queueClosed: bool, dequeued: nat)

  datatype Action =
    | Enqueue(cap: nat, recovered: bool)  // on a closed queue it panics; a handler's caller recovers
    | TakeRun               // line 79
    | RunProcessed          // processRun and the failure handler have come to their send
    | SendOnClosed          // the send, on a channel that is closed
    | ReceiveAfterRun       // line 93, on a channel that is closed: nobody else ever sends
    | CloseDone             // line 95
    | LeaveLoop             // line 99
    | Shutdown              // receives from a blocked sender or a closed channel, else closes

  const START := State(Selecting, 0, false, false, 0)

  function Take(s: State, a: Action): Option<State> {
    if s.worker.Panicked? then None else
    match a
    case Enqueue(cap, recovered) =>
      if s.queueClosed then Some(if recovered then s else s.(worker := Panicked))
      else if s.pending < cap || (s.worker.Selecting? && s.pending == 0)
      then Some(s.(pending := s.pending + 1)) else Some(s)
    case TakeRun =>
      if s.worker.Selecting? && s.pending > 0
      then Some(s.(worker := Processing, pending := s.pending - 1, dequeued := s.dequeued + 1)) else None
    case RunProcessed => if s.worker.Processing? then Some(s.(worker := Sending)) else None
    case SendOnClosed => if s.worker.Sending? && s.doneClosed then Some(s.(worker := Panicked)) else None
    case ReceiveAfterRun => if s.worker.Receiving? && s.doneClosed then Some(s.(worker := Closing)) else None
    case CloseDone =>
      if !s.worker.Closing? then None
      else if s.doneClosed then Some(s.(worker := Panicked))
      else Some(s.(worker := Selecting, doneClosed := true))
    case LeaveLoop =>
      if s.worker.Selecting? && s.doneClosed then Some(s.(worker := Left, queueClosed := true)) else None
    case Shutdown =>
      if s.doneClosed then Some(s)
      else if s.worker.Sending? then Some(s.(worker := Receiving))
      else Some(s.(doneClosed := true))
  }

  function Exec(actions: seq<Action>): Option<State> {
    if actions == [] then Some(START) else
      var before := Exec(actions[..|actions| - 1]);
      if before.Some? then Take(before.value, actions[|actions| - 1]) else None
  }

  ghost predicate Inv(s: State) {
    && s.dequeued <= 1
    && (s.worker.Selecting? || s.worker.Left? ==> s.dequeued == 0)
    && (s.worker.Processing? || s.worker.Sending? || s.worker.Receiving? || s.worker.Closing? ==> s.dequeued == 1)
    && (s.worker.Closing? ==> s.doneClosed)
  }

  /** No second run is ever taken from a queue, whoever calls Shutdown and whenever: the worker
      waits at its own send, or at its own receive, or panics on closing `done` a second time. */
  lemma {:induction false} AtMostOneRunIsTaken(actions: seq<Action>)
    ensures Exec(actions).Some? ==> Inv(Exec(actions).value)
  {
    if actions != [] {
      AtMostOneRunIsTaken(actions[..|actions| - 1]);
    }
  }

  /** Without a Shutdown the worker stays for good at the send that ends its first run. */
  lemma {:induction false} StuckAtTheSend(before: seq<Action>, after: seq<Action>)
    requires Exec(before).Some? && Exec(before).value.worker.Sending?
    requires forall a <- before + after :: !a.Shutdown?
    ensures Exec(before + after).Some? ==>
      Exec(before + after).value.worker.Sending? && Exec(before + after).value.dequeued == 1
  {
    NobodyCloses(before + after);
    AtMostOneRunIsTaken(before);
    if after == [] {
      assert before + after == before;
    } else {
      StuckAtTheSend(before, after[..|after| - 1]);
      NobodyCloses(before + after[..|after| - 1]);
      assert (before + after)[..|before + after| - 1] == before + after[..|after| - 1];
    }
  }

  lemma {:induction false} NobodyCloses(actions: seq<Action>)
    requires forall a <- actions :: !a.Shutdown?
    ensures Exec(actions).Some? ==>
      !Exec(actions).value.doneClosed && !Exec(actions).value.queueClosed
      && !Exec(actions).value.worker.Closing? && !Exec(actions).value.worker.Receiving?
  {
    if actions != [] {
      NobodyCloses(actions[..|actions| - 1]);
    }
  }

  /** The worker does get there: enqueue, take, process. */
  lemma OneRunIsTaken()
    ensures var s := Exec([Enqueue(1, true), TakeRun, RunProcessed]);
      s.Some? && s.value.worker.Sending? && s.value.dequeued == 1
  {
    var all := [Enqueue(1, true), TakeRun, RunProcessed];
    assert all[..2] == [Enqueue(1, true), TakeRun] && all[..2][..1] == [Enqueue(1, true)];
    assert Exec(all[..2][..1]) == Some(START.(pending := 1)) by {
      assert all[..2][..1][..0] == [];
    }
  }

  /** What two calls of Shutdown do to a worker at its send: the first takes the signal, the second
      closes the channel, and the worker's own close of it panics. */
  lemma ShutdownTwicePanics(s: State)
    requires s.worker.Sending? && !s.doneClosed
    ensures var received := Take(s, Shutdown);
      && received == Some(s.(worker := Receiving))
      && Take(received.value, ReceiveAfterRun) == None
      && var closed := Take(received.value, Shutdown);
         && closed == Some(s.(worker := Receiving, doneClosed := true))
         && Take(closed.value, ReceiveAfterRun) == Some(s.(worker := Closing, doneClosed := true))
         && Take(Take(closed.value, ReceiveAfterRun).value, CloseDone)
              == Some(s.(worker := Panicked, doneClosed := true))
  {
  }

  /** A Shutdown before any run lets the worker leave; one during a run makes its send panic. */
  lemma ShutdownEarly(s: State)
    requires !s.doneClosed
    ensures s.worker.Selecting? ==>
      Take(s.(doneClosed := true), LeaveLoop) == Some(s.(worker := Left, doneClosed := true, queueClosed := true))
    ensures s.worker.Selecting? || s.worker.Processing? ==> Take(s, Shutdown) == Some(s.(doneClosed := true))
    ensures s.worker.Processing? ==> Take(s, RunProcessed) == Some(s.(worker := Sending))
    ensures s.worker.Sending? ==>
      Take(s.(doneClosed := true), SendOnClosed) == Some(s.(worker := Panicked, doneClosed := true))
  {
  }
}
