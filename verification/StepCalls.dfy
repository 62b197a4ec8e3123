/** What the call of one step does, outcome by outcome, and what a failed script returns. */
module StepCalls {
  import opened Wrappers
  import opened PipelineScript
  import opened Grouping
  import opened Sequences
  import opened Messages
  import opened StepGroup
  import opened Ledgers
  import opened GroupOutcome
  import opened ScriptMachine
  import opened PlanOrder
  import opened ScriptTheorems

  /** The acts of a call that has come to its end, for each way it can end. */
  predicate IsCall(step: PipelineScript.Step, outcome: Outcome, acts: seq<Act>) {
    match outcome
    case Pass => acts == [Say(StepStarted(step.step)), Call, Return(true), Say(StepPassed(step.step))]
    case CommandError(text) =>
      acts == [Say(StepStarted(step.step)), Call, Return(false), Collect(CommandFailed(text))]
    case TimedOut =>
      acts == [Say(StepStarted(step.step)), Call, Say(TimeoutNotice(step.timeoutSeconds, step.script)),
               Return(false), Collect(StepTimedOut)]
    case Cancelled =>
      acts == [Say(StepStarted(step.step)), Call, Say(CancelNotice), Return(false), Collect(RunCancel)]
  }

  /** Every caller of a complete group has made one call of that form, act by act. */
  lemma CallsAreComplete(g: Group, s: GroupState, i: nat)
    requires GroupInv(g, s) && Complete(g, s) && i < |g.members|
    ensures IsCall(g.members[i].step, g.members[i].behaviour.outcome, Pick(ActsOf(s.trace, g.k, g.lo + i), Caller))
  {
    hide GroupInv, Complete, Program, Pick, ActsOf, IsCall;
    assert s.threads[i].at == |Program(g.members[i])| by { CompleteMeans(g, s, i); }
    CallerIsThrough(g, s, i);
    ProgramIsCall(g.members[i]);
  }

  lemma CompleteMeans(g: Group, s: GroupState, i: nat)
    requires Complete(g, s) && i < |g.members|
    ensures i < |s.threads| && s.threads[i].at == |Program(g.members[i])|
  {
  }

  lemma ProgramIsCall(m: Member)
    ensures IsCall(m.step, m.behaviour.outcome, Program(m))
  {
  }

  /** The line acts of a step are the lines of its behaviour, in order. */
  lemma LinesAreScanned(m: Member)
    ensures |Acts(m, Stdout)| == |m.behaviour.stdout| && |Acts(m, Stderr)| == |m.behaviour.stderr|
    ensures forall j :: 0 <= j < |m.behaviour.stdout| ==> Acts(m, Stdout)[j] == OutLine(m.behaviour.stdout[j])
    ensures forall j :: 0 <= j < |m.behaviour.stderr| ==> Acts(m, Stderr)[j] == ErrLine(m.behaviour.stderr[j])
  {
  }

  /* ---------- how often an act is on the trace ---------- */

  lemma CountSnoc<T>(s: seq<T>, e: T, x: T)
    ensures multiset(s + [e])[x] == multiset(s)[x] + if e == x then 1 else 0
  {
  }

  lemma {:induction false} CountActs(trace: seq<Event>, k: nat, i: nat, a: Act)
    ensures multiset(trace)[OfStep(k, i, a)] == multiset(ActsOf(trace, k, i))[a]
  {
    if trace != [] {
      var n := |trace| - 1;
      var front, e := trace[..n], trace[n];
      CountActs(front, k, i, a);
      assert trace == front + [e];
      CountSnoc(front, e, OfStep(k, i, a));
      ActsOfSnoc(front, e, k, i);
      hide ActsOf;
      if e.OfStep? {
        CountSnoc(ActsOf(front, k, i), e.act, a);
      }
    }
  }

  lemma {:induction false} CountPicked(acts: seq<Act>, a: Act)
    ensures multiset(acts)[a] == multiset(Pick(acts, KindOf(a)))[a]
  {
    if acts != [] {
      var n := |acts| - 1;
      var front, b := acts[..n], acts[n];
      CountPicked(front, a);
      assert acts == front + [b];
      CountSnoc(front, b, a);
      PickSnoc(front, b, KindOf(a));
      hide Pick;
      CountSnoc(Pick(front, KindOf(a)), b, a);
    }
  }

  function One(b: bool): nat {
    if b then 1 else 0
  }

  lemma CountFour(a: Act, b: Act, c: Act, d: Act, x: Act)
    ensures multiset([a, b, c, d])[x]
         == One(a == x) + One(b == x) + One(c == x) + One(d == x)
  {
    assert [a, b, c, d] == [a, b, c] + [d] && [a, b, c] == [a, b] + [c];
    CountSnoc([a, b, c], d, x);
    CountSnoc([a, b], c, x);
  }

  lemma CountEach(acts: seq<Act>, x: Act)
    requires 4 <= |acts| <= 5
    ensures multiset(acts)[x]
         == One(acts[0] == x) + One(acts[1] == x) + One(acts[2] == x) + One(acts[3] == x)
            + One(|acts| == 5 && acts[|acts| - 1] == x)
  {
    CountFour(acts[0], acts[1], acts[2], acts[3], x);
    var four := [acts[0], acts[1], acts[2], acts[3]];
    if |acts| == 4 {
      assert acts == four;
    } else {
      assert acts == four + [acts[4]];
      CountSnoc(four, acts[4], x);
    }
  }

  /** How often an act occurs in a call. */
  lemma CountInCall(step: PipelineScript.Step, outcome: Outcome, acts: seq<Act>, x: Act)
    requires IsCall(step, outcome, acts)
    ensures x == Say(StepStarted(step.step)) || x == Call || x == Return(outcome.Pass?) ==> multiset(acts)[x] == 1
    ensures x == Return(!outcome.Pass?) ==> multiset(acts)[x] == 0
    ensures x == Say(StepPassed(step.step)) ==> multiset(acts)[x] == if outcome.Pass? then 1 else 0
    ensures outcome.TimedOut? && x == Say(TimeoutNotice(step.timeoutSeconds, step.script)) ==> multiset(acts)[x] == 1
    ensures outcome.Cancelled? && x == Say(CancelNotice) ==> multiset(acts)[x] == 1
  {
    CountEach(acts, x);
    var count := multiset(acts)[x];
  }

  /** Only the group that is open holds events of its steps. */
  lemma ClosedElsewhere(stages: seq<Stage>, oracle: Oracle, s: State, k: nat, i: nat, a: Act)
    requires var plan := Plan(stages, oracle);
      Inv(plan, s) && s.pos < |plan| && plan[s.pos].Batch? && FromGroup(plan[s.pos].g, OfStep(k, i, a))
    ensures OfStep(k, i, a) !in Flatten(s.closed)
  {
    var plan := Plan(stages, oracle);
    PlanFollowsTheScript(stages, oracle, 0);
    if OfStep(k, i, a) in Flatten(s.closed) {
      var q :| 0 <= q < |Flatten(s.closed)| && Flatten(s.closed)[q] == OfStep(k, i, a);
      var b, o := FindInFlatten(s.closed, q);
      hide Inv, BlockOk, PlanFrom, ItemOk, FromGroup;
      ClosedBlock(plan, s, b, OfStep(k, i, a));
      assert Before(stages, plan[b], plan[s.pos]);
      assert false by { NotTwice(stages, plan[b], plan[s.pos], k, i, a); }
    }
  }

  lemma ClosedBlock(plan: seq<Item>, s: State, b: nat, e: Event)
    requires Inv(plan, s) && b < |s.closed| && e in s.closed[b]
    ensures b < s.pos <= |plan| && BelongsTo(plan[b], e)
  {
    BlockEvent(plan[b], s.closed[b], e);
  }

  lemma NotTwice(stages: seq<Stage>, a: Item, b: Item, k: nat, i: nat, act: Act)
    requires Before(stages, a, b) && BelongsTo(a, OfStep(k, i, act)) && b.Batch?
    ensures !FromGroup(b.g, OfStep(k, i, act))
  {
  }

  lemma CountInTrace(stages: seq<Stage>, oracle: Oracle, s: State, k: nat, i: nat, a: Act)
    requires var plan := Plan(stages, oracle);
      Inv(plan, s) && s.pos < |plan| && plan[s.pos].Batch? && FromGroup(plan[s.pos].g, OfStep(k, i, a))
    ensures multiset(Trace(s))[OfStep(k, i, a)] == multiset(Pick(ActsOf(s.group.trace, k, i), KindOf(a)))[a]
  {
    ClosedElsewhere(stages, oracle, s, k, i, a);
    hide Inv, PlanFrom, FromGroup;
    FlattenSnoc(s.closed, s.group.trace);
    CountActs(s.group.trace, k, i, a);
    CountPicked(ActsOf(s.group.trace, k, i), a);
  }

  /** In a script that stops at the group of stage k that starts at lo, each step of that group is
      announced, called and returned exactly once, it says once that it timed out or was cancelled if
      that is what happened, and only a step that passed is said to have passed. */
  lemma StoppedCalls(stages: seq<Stage>, oracle: Oracle, schedule: seq<Action>, s: State, k: nat, lo: nat, i: nat)
    requires Reaches(stages, oracle, schedule, s) && s.status.Returned? && s.status.err.Some?
    requires IsStep(stages, k, lo) && StopsAt(stages, oracle, k, lo) && lo <= i < SpanEnd(stages[k].steps, lo)
    ensures var step, outcome, trace := stages[k].steps[i], oracle(k, i).outcome, multiset(Trace(s));
      && trace[OfStep(k, i, Say(StepStarted(step.step)))] == 1
      && trace[OfStep(k, i, Call)] == 1
      && trace[OfStep(k, i, Return(outcome.Pass?))] == 1 && trace[OfStep(k, i, Return(!outcome.Pass?))] == 0
      && trace[OfStep(k, i, Say(StepPassed(step.step)))] == (if outcome.Pass? then 1 else 0)
      && (outcome.TimedOut? ==>
            trace[OfStep(k, i, Say(TimeoutNotice(step.timeoutSeconds, step.script)))] == 1)
      && (outcome.Cancelled? ==> trace[OfStep(k, i, Say(CancelNotice))] == 1)
  {
    hide Exec, Inv, PlanFrom, StopsAt, GroupInv, Complete, AllPass, Trace, Program, IsCall, Pick, ActsOf;
    EveryScheduleKeepsInv(Plan(stages, oracle), schedule);
    var item := FailedItem(stages, oracle, s);
    FirstFailure(stages, oracle, s);
    StopIsUnique(stages, oracle, k, lo, item.g.k, item.g.lo);
    CallsAreComplete(item.g, s.group, i - lo);
    var step, outcome := stages[k].steps[i], oracle(k, i).outcome;
    var acts := Pick(ActsOf(s.group.trace, k, i), Caller);
    forall a | KindOf(a) == Caller
      ensures multiset(Trace(s))[OfStep(k, i, a)] == multiset(acts)[a]
    {
      CountInTrace(stages, oracle, s, k, i, a);
    }
    CountInCall(step, outcome, acts, Say(StepStarted(step.step)));
    CountInCall(step, outcome, acts, Call);
    CountInCall(step, outcome, acts, Return(outcome.Pass?));
    CountInCall(step, outcome, acts, Return(!outcome.Pass?));
    CountInCall(step, outcome, acts, Say(StepPassed(step.step)));
    CountInCall(step, outcome, acts, Say(TimeoutNotice(step.timeoutSeconds, step.script)));
    CountInCall(step, outcome, acts, Say(CancelNotice));
  }

  /* ---------- the error that is returned ---------- */

  /** The error of a call, for each way of failing. */
  predicate IsErrorOf(outcome: Outcome, error: StepError) {
    match outcome
    case Pass => false
    case CommandError(text) => error == CommandFailed(text)
    case TimedOut => error == StepTimedOut
    case Cancelled => error == RunCancel
  }

  /** The errors of the steps lo .. hi of stage k that fail. */
  ghost function FailuresOf(oracle: Oracle, k: nat, lo: nat, hi: nat): multiset<StepError>
    requires lo <= hi
    decreases hi - lo
  {
    if lo == hi then multiset{} else
      FailuresOf(oracle, k, lo, hi - 1)
      + match oracle(k, hi - 1).outcome
        case Pass => multiset{}
        case CommandError(text) => multiset{CommandFailed(text)}
        case TimedOut => multiset{StepTimedOut}
        case Cancelled => multiset{RunCancel}
  }

  lemma SumSnoc(dues: seq<GroupLedger>)
    requires dues != []
    ensures Sum(dues).errors == Sum(dues[..|dues| - 1]).errors + dues[|dues| - 1].errors
  {
  }

  lemma NothingSummed(dues: seq<GroupLedger>)
    ensures Sum(dues[..0]).errors == multiset{}
  {
  }

  lemma OneDue(g: Group, x: nat)
    requires x < |g.members|
    ensures Dues(g, Spawn(g).threads)[x].errors
         == match g.members[x].behaviour.outcome
            case Pass => multiset{}
            case CommandError(text) => multiset{CommandFailed(text)}
            case TimedOut => multiset{StepTimedOut}
            case Cancelled => multiset{RunCancel}
  {
    hide Left;
  }

  lemma DuesLength(g: Group)
    ensures |Dues(g, Spawn(g).threads)| == |g.members|
  {
  }

  lemma OneFailure(oracle: Oracle, g: Group, n: nat)
    requires n < |g.members| && g.members[n].behaviour == oracle(g.k, g.lo + n)
    ensures FailuresOf(oracle, g.k, g.lo, g.lo + n + 1)
         == FailuresOf(oracle, g.k, g.lo, g.lo + n) + Dues(g, Spawn(g).threads)[n].errors
  {
    OneDue(g, n);
    hide Dues;
  }

  lemma {:induction false} OwedErrors(g: Group, n: nat, oracle: Oracle)
    requires n <= |g.members|
    requires forall x :: 0 <= x < |g.members| ==> g.members[x].behaviour == oracle(g.k, g.lo + x)
    ensures Sum(Dues(g, Spawn(g).threads)[..n]).errors == FailuresOf(oracle, g.k, g.lo, g.lo + n)
  {
    DuesLength(g);
    hide Due, Sum, Dues;
    var dues := Dues(g, Spawn(g).threads);
    if n > 0 {
      hide FailuresOf;
      OwedErrors(g, n - 1, oracle);
      SumSnoc(dues[..n]);
      assert dues[..n][..n - 1] == dues[..n - 1];
      OneFailure(oracle, g, n - 1);
    } else {
      NothingSummed(dues);
    }
  }

  lemma TotalIsSum(g: Group)
    ensures Total(g).errors == Sum(Dues(g, Spawn(g).threads)[..|g.members|]).errors
  {
    hide Due, Sum;
    var dues := Dues(g, Spawn(g).threads);
    assert dues[..|g.members|] == dues;
  }

  lemma GroupErrors(stages: seq<Stage>, oracle: Oracle, item: Item, s: GroupState)
    requires item.Batch? && ItemOk(stages, oracle, item) && Balanced(item.g, s) && Complete(item.g, s)
    ensures multiset(s.errors)
         == FailuresOf(oracle, item.g.k, item.g.lo, item.g.lo + |item.g.members|)
  {
    hide FailuresOf, Complete, Balanced, Total, Sum, Dues, Spawn;
    CompleteErrors(item.g, s);
    TotalIsSum(item.g);
    OwedErrors(item.g, |item.g.members|, oracle);
  }

  /** What the executor returns for a script that stops at the group of stage k that starts at lo: the
      error of a single sequential step as it is, or the errors of all failing steps of a parallel
      group, joined. */
  lemma ReturnedError(stages: seq<Stage>, oracle: Oracle, schedule: seq<Action>, s: State, k: nat, lo: nat)
    requires Reaches(stages, oracle, schedule, s) && s.status.Returned? && s.status.err.Some?
    requires IsStep(stages, k, lo) && StopsAt(stages, oracle, k, lo)
    ensures var err := s.status.err.value;
      if stages[k].steps[lo].parallel then
        err.Joined? && multiset(err.errors) == FailuresOf(oracle, k, lo, SpanEnd(stages[k].steps, lo))
      else err.Bare? && IsErrorOf(oracle(k, lo).outcome, err.error)
  {
    hide Exec, PlanFrom, StopsAt, GroupInv, Complete, AllPass, Trace, FailuresOf, Balanced, BlockOk;
    var plan := Plan(stages, oracle);
    EveryScheduleKeepsInv(plan, schedule);
    var item := FailedItem(stages, oracle, s);
    FirstFailure(stages, oracle, s);
    StopIsUnique(stages, oracle, k, lo, item.g.k, item.g.lo);
    GroupErrors(stages, oracle, item, s.group);
    if !item.g.parallel {
      SequentialError(item.g, s.group);
      assert item.g.members[0].behaviour == oracle(k, lo);
    }
  }
}
