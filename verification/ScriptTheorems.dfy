/** What holds of every schedule of every script: barriers between groups, fail-stop, the trace
    of a passed run, confluence, and that no schedule runs for ever or gets stuck. */
module ScriptTheorems {
  import opened Wrappers
  import opened PipelineScript
  import opened Messages
  import opened Sequences
  import opened Grouping
  import opened StepGroup
  import opened Ledgers
  import opened GroupOutcome
  import opened ScriptMachine
  import opened PlanOrder

  ghost predicate Reaches(stages: seq<Stage>, oracle: Oracle, schedule: seq<Action>, s: State) {
    Exec(Plan(stages, oracle), schedule) == Some(s)
  }

  /* ---------- where an event of the trace comes from ---------- */

  ghost predicate BelongsTo(item: Item, e: Event) {
    if item.Batch? then FromGroup(item.g, e) else e in Announce(item)
  }

  lemma BlockEvent(item: Item, block: seq<Event>, e: Event)
    requires BlockOk(item, block) && e in block
    ensures BelongsTo(item, e)
  {
  }

  lemma OpenEvent(plan: seq<Item>, s: State, e: Event)
    requires Inv(plan, s) && e in s.group.trace
    ensures s.pos < |plan| && plan[s.pos].Batch? && BelongsTo(plan[s.pos], e)
  {
    hide Balanced, MemberInv;
  }

  lemma ItemOfEvent(stages: seq<Stage>, oracle: Oracle, s: State, q: nat) returns (b: nat, o: nat)
    requires Inv(Plan(stages, oracle), s) && q < |Trace(s)|
    ensures var plan, blocks := Plan(stages, oracle), s.closed + [s.group.trace];
      && b <= s.pos && b < |plan| && (b == s.pos ==> plan[b].Batch?)
      && o < |blocks[b]| && blocks[b][o] == Trace(s)[q] && q == StartOf(blocks, b) + o
      && ItemOk(stages, oracle, plan[b]) && BelongsTo(plan[b], Trace(s)[q])
  {
    hide BlockOk, OpenOk, StatusOk, ItemOk, BelongsTo;
    var plan, blocks := Plan(stages, oracle), s.closed + [s.group.trace];
    b, o := FindInFlatten(blocks, q);
    PlanFollowsTheScript(stages, oracle, 0);
    if b < s.pos {
      BlockEvent(plan[b], s.closed[b], Trace(s)[q]);
    } else {
      OpenEvent(plan, s, Trace(s)[q]);
    }
  }

  lemma PassedCallReturned(m: Member, acts: seq<Act>)
    requires PassShape(m, acts)
    ensures Return(true) in acts
  {
  }

  lemma PassedStepReturned(stages: seq<Stage>, oracle: Oracle, s: State, a: nat, k: nat, i: nat) returns (o: nat)
    requires Inv(Plan(stages, oracle), s) && a < s.pos
    requires var plan := Plan(stages, oracle); plan[a].Batch? && FromGroup(plan[a].g, OfStep(k, i, Call))
    ensures o < |s.closed[a]| && s.closed[a][o] == OfStep(k, i, Return(true))
  {
    hide PassShape, OpenOk, StatusOk, Plan, Total, AllPass;
    var g := Plan(stages, oracle)[a].g;
    var block := s.closed[a];
    assert BlockOk(Plan(stages, oracle)[a], block);
    assert k == g.k && i == g.lo + (i - g.lo);
    assert PassShape(g.members[i - g.lo], ActsOf(block, g.k, g.lo + (i - g.lo)));
    PassedCallReturned(g.members[i - g.lo], ActsOf(block, k, i));
    ActIsInTrace(block, k, i, Return(true));
    o :| 0 <= o < |block| && block[o] == OfStep(k, i, Return(true));
  }

  /** Barrier: before anything at all happens in a step, every step of every earlier group has
      returned nil, and nothing of it is still to come. */
  lemma Barrier(stages: seq<Stage>, oracle: Oracle, schedule: seq<Action>, s: State,
                k: nat, i: nat, k': nat, i': nat, q: nat)
    requires Reaches(stages, oracle, schedule, s)
    requires IsStep(stages, k, i) && IsStep(stages, k', i') && EarlierGroup(stages, k, i, k', i')
    requires q < |Trace(s)| && Trace(s)[q].OfStep? && Trace(s)[q].k == k' && Trace(s)[q].i == i'
    ensures exists p :: 0 <= p < q && Trace(s)[p] == OfStep(k, i, Return(true))
    ensures forall p :: q <= p < |Trace(s)| && Trace(s)[p].OfStep? ==> !(Trace(s)[p].k == k && Trace(s)[p].i == i)
  {
    hide Inv, ItemOk, EarlierGroup, Exec, PlanFrom;
    var plan, blocks := Plan(stages, oracle), s.closed + [s.group.trace];
    EveryScheduleKeepsInv(plan, schedule);
    var b, o := ItemOfEvent(stages, oracle, s, q);
    var a := StepIsInPlan(stages, oracle, 0, k, i);
    EarlierGroupsComeFirst(stages, oracle, k, i, k', i', a, b);
    var r := PassedStepReturned(stages, oracle, s, a, k, i);
    BlockInFlatten(blocks, a, r);
    BlocksAreOrdered(blocks, a, b);
    assert Trace(s)[StartOf(blocks, a) + r] == OfStep(k, i, Return(true));
    forall p | q <= p < |Trace(s)| && Trace(s)[p].OfStep?
      ensures !(Trace(s)[p].k == k && Trace(s)[p].i == i)
    {
      if Trace(s)[p].k == k && Trace(s)[p].i == i {
        var c, u := ItemOfEvent(stages, oracle, s, p);
        EarlierGroupsComeFirst(stages, oracle, k, i, k', i', c, b);
        BlocksAreOrdered(blocks, c, b);
      }
    }
  }

  /* ---------- fail-stop ---------- */

  predicate Passes(oracle: Oracle, k: nat, i: nat) {
    oracle(k, i).outcome.Pass?
  }

  ghost predicate EveryStepPasses(stages: seq<Stage>, oracle: Oracle) {
    forall k: nat, i: nat :: IsStep(stages, k, i) ==> Passes(oracle, k, i)
  }

  /** The group of stage k that starts at step lo is the first one with a failing step. */
  ghost predicate StopsAt(stages: seq<Stage>, oracle: Oracle, k: nat, lo: nat)
    requires IsStep(stages, k, lo)
  {
    && StartsGroup(stages[k].steps, lo)
    && (exists i :: lo <= i < SpanEnd(stages[k].steps, lo) && !Passes(oracle, k, i))
    && (forall k': nat, i': nat :: IsStep(stages, k', i') && (k' < k || (k' == k && i' < lo)) ==>
          Passes(oracle, k', i'))
  }

  /** The executor gave up at the group of stage k that starts at step lo. */
  ghost predicate StoppedAt(stages: seq<Stage>, oracle: Oracle, trace: seq<Event>, k: nat, lo: nat)
    requires IsStep(stages, k, lo)
  {
    var hi := SpanEnd(stages[k].steps, lo);
    && StopsAt(stages, oracle, k, lo)
    && (forall i :: lo <= i < hi ==> OfStep(k, i, Call) in trace)
    && (forall i :: lo <= i < hi ==> OfStep(k, i, Return(Passes(oracle, k, i))) in trace)
    && (forall e <- trace :: e.OfStep? ==> e.k < k || (e.k == k && e.i < hi))
    && (forall e <- trace :: e.Main? ==> e.k <= k && (e.msg.StagePassed? ==> e.k < k))
  }

  lemma PassingGroupsMeanPassingSteps(stages: seq<Stage>, oracle: Oracle, k: nat, i: nat)
    requires IsStep(stages, k, i)
    requires forall item <- Plan(stages, oracle) :: item.Batch? ==> AllPass(item.g.members)
    ensures Passes(oracle, k, i)
  {
    var plan := Plan(stages, oracle);
    PlanFollowsTheScript(stages, oracle, 0);
    var j := StepIsInPlan(stages, oracle, 0, k, i);
    assert ItemOk(stages, oracle, plan[j]);
    assert plan[j].g.members[i - plan[j].g.lo] in plan[j].g.members;
  }

  /** In a complete group every act of every caller is on the trace. */
  lemma CompleteActs(g: Group, s: GroupState, i: nat, a: Act)
    requires GroupInv(g, s) && Complete(g, s) && i < |g.members| && a in Program(g.members[i])
    ensures OfStep(g.k, g.lo + i, a) in s.trace
  {
    hide Program, MemberInv;
    CallerIsThrough(g, s, i);
    PickedIsThere(ActsOf(s.trace, g.k, g.lo + i), Caller, a);
    ActIsInTrace(s.trace, g.k, g.lo + i, a);
  }

  lemma CompleteCallsReturned(g: Group, s: GroupState, i: nat)
    requires GroupInv(g, s) && Complete(g, s) && i < |g.members|
    ensures OfStep(g.k, g.lo + i, Call) in s.trace
    ensures OfStep(g.k, g.lo + i, Return(g.members[i].behaviour.outcome.Pass?)) in s.trace
  {
    hide GroupInv;
    CompleteActs(g, s, i, Call);
    CompleteActs(g, s, i, Return(g.members[i].behaviour.outcome.Pass?));
  }

  lemma {:induction false} PickedIsThere(acts: seq<Act>, which: Which, a: Act)
    ensures a in Pick(acts, which) ==> a in acts
  {
    if acts != [] {
      PickedIsThere(acts[..|acts| - 1], which, a);
    }
  }

  lemma ClosedStepPassed(stages: seq<Stage>, oracle: Oracle, item: Item, block: seq<Event>, k: nat, i: nat)
    requires ItemOk(stages, oracle, item) && BlockOk(item, block)
    requires item.Batch? && FromGroup(item.g, OfStep(k, i, Call))
    ensures Passes(oracle, k, i)
  {
    hide PassShape, Total;
    assert item.g.members[i - item.g.lo] in item.g.members;
  }

  lemma EarlierStepsPassed(stages: seq<Stage>, oracle: Oracle, s: State, k: nat, i: nat)
    requires var plan := Plan(stages, oracle);
      Inv(plan, s) && s.pos < |plan| && plan[s.pos].Batch?
    requires var g := Plan(stages, oracle)[s.pos].g;
      IsStep(stages, k, i) && (k < g.k || (k == g.k && i < g.lo))
    ensures Passes(oracle, k, i)
  {
    hide BlockOk, ItemOk, PlanFrom, OpenOk, StatusOk;
    var plan := Plan(stages, oracle);
    PlanFollowsTheScript(stages, oracle, 0);
    var j := StepIsInPlan(stages, oracle, 0, k, i);
    assert j < s.pos by {
      assert s.pos < j ==> Before(stages, plan[s.pos], plan[j]);
    }
    ClosedStepPassed(stages, oracle, plan[j], s.closed[j], k, i);
  }

  lemma TraceStopsAt(stages: seq<Stage>, oracle: Oracle, s: State, e: Event)
    requires var plan := Plan(stages, oracle);
      Inv(plan, s) && s.pos < |plan| && plan[s.pos].Batch? && e in Trace(s)
    ensures var g := Plan(stages, oracle)[s.pos].g;
      && (e.OfStep? ==> e.k < g.k || (e.k == g.k && e.i < g.lo + |g.members|))
      && (e.Main? ==> e.k <= g.k && (e.msg.StagePassed? ==> e.k < g.k))
  {
    var plan := Plan(stages, oracle);
    PlanFollowsTheScript(stages, oracle, 0);
    var q :| 0 <= q < |Trace(s)| && Trace(s)[q] == e;
    var b, o := ItemOfEvent(stages, oracle, s, q);
    if b < s.pos {
      assert Before(stages, plan[b], plan[s.pos]);
      assert ItemOk(stages, oracle, plan[s.pos]);
    }
  }

  lemma {:induction false} GroupTraceIsInTrace(s: State, e: Event)
    requires e in s.group.trace
    ensures e in Trace(s)
  {
    FlattenSnoc(s.closed, s.group.trace);
  }

  lemma FailingMember(stages: seq<Stage>, oracle: Oracle, item: Item) returns (i: nat)
    requires ItemOk(stages, oracle, item) && item.Batch? && !AllPass(item.g.members)
    ensures IsStep(stages, item.g.k, i) && !Passes(oracle, item.g.k, i)
    ensures item.g.lo <= i < item.g.lo + |item.g.members|
  {
    var m :| m in item.g.members && !m.behaviour.outcome.Pass?;
    var x :| 0 <= x < |item.g.members| && item.g.members[x] == m;
    i := item.g.lo + x;
  }

  lemma CallsOfGroupReturned(stages: seq<Stage>, oracle: Oracle, s: State, item: Item, i: nat)
    requires ItemOk(stages, oracle, item) && item.Batch?
    requires GroupInv(item.g, s.group) && Complete(item.g, s.group)
    requires item.g.lo <= i < item.g.lo + |item.g.members|
    ensures OfStep(item.g.k, i, Call) in Trace(s)
    ensures OfStep(item.g.k, i, Return(Passes(oracle, item.g.k, i))) in Trace(s)
  {
    CompleteCallsReturned(item.g, s.group, i - item.g.lo);
    GroupTraceIsInTrace(s, OfStep(item.g.k, i, Call));
    GroupTraceIsInTrace(s, OfStep(item.g.k, i, Return(Passes(oracle, item.g.k, i))));
  }

  /** The group at which the executor gave up. */
  lemma FailedItem(stages: seq<Stage>, oracle: Oracle, s: State) returns (item: Item)
    requires var plan := Plan(stages, oracle);
      Inv(plan, s) && s.status.Returned? && s.status.err.Some?
    ensures s.pos < |Plan(stages, oracle)| && item == Plan(stages, oracle)[s.pos] && item.Batch?
    ensures ItemOk(stages, oracle, item) && GroupInv(item.g, s.group) && Complete(item.g, s.group)
    ensures !AllPass(item.g.members) && IsStep(stages, item.g.k, item.g.lo)
  {
    hide GroupInv, Balanced, Failure, Complete, BlockOk, PlanFrom;
    item := Plan(stages, oracle)[s.pos];
    PlanFollowsTheScript(stages, oracle, 0);
    assert ItemOk(stages, oracle, item);
    CompleteErrors(item.g, s.group);
  }

  lemma FirstFailure(stages: seq<Stage>, oracle: Oracle, s: State)
    requires var plan := Plan(stages, oracle);
      Inv(plan, s) && s.status.Returned? && s.status.err.Some?
    ensures var g := Plan(stages, oracle)[s.pos].g;
      IsStep(stages, g.k, g.lo) && StopsAt(stages, oracle, g.k, g.lo)
  {
    hide Inv, GroupInv, Complete, AllPass, PlanFrom, Passes;
    var item := FailedItem(stages, oracle, s);
    var x := FailingMember(stages, oracle, item);
    forall k': nat, i': nat | IsStep(stages, k', i') && (k' < item.g.k || (k' == item.g.k && i' < item.g.lo))
      ensures Passes(oracle, k', i')
    {
      EarlierStepsPassed(stages, oracle, s, k', i');
    }
  }

  lemma FailedRunStopsAt(stages: seq<Stage>, oracle: Oracle, s: State)
    requires var plan := Plan(stages, oracle);
      Inv(plan, s) && s.status.Returned? && s.status.err.Some?
    ensures var g := Plan(stages, oracle)[s.pos].g;
      IsStep(stages, g.k, g.lo) && StoppedAt(stages, oracle, Trace(s), g.k, g.lo)
  {
    hide Inv, GroupInv, Complete, AllPass, Trace, PlanFrom, Passes, StopsAt;
    var item := FailedItem(stages, oracle, s);
    FirstFailure(stages, oracle, s);
    forall i | item.g.lo <= i < item.g.lo + |item.g.members|
      ensures OfStep(item.g.k, i, Call) in Trace(s)
      ensures OfStep(item.g.k, i, Return(Passes(oracle, item.g.k, i))) in Trace(s)
    {
      CallsOfGroupReturned(stages, oracle, s, item, i);
    }
    forall e | e in Trace(s)
      ensures e.OfStep? ==> e.k < item.g.k || (e.k == item.g.k && e.i < item.g.lo + |item.g.members|)
      ensures e.Main? ==> e.k <= item.g.k && (e.msg.StagePassed? ==> e.k < item.g.k)
    {
      TraceStopsAt(stages, oracle, s, e);
    }
  }

  /** Fail-stop: the executor returns nil iff every step of every stage passes; otherwise it
      stops at one group, all of whose calls were made and have returned. */
  lemma FailStop(stages: seq<Stage>, oracle: Oracle, schedule: seq<Action>, s: State)
    requires Reaches(stages, oracle, schedule, s) && s.status.Returned?
    ensures s.status.err.None? <==> EveryStepPasses(stages, oracle)
    ensures s.status.err.Some? ==>
      exists k: nat, lo: nat :: IsStep(stages, k, lo) && StoppedAt(stages, oracle, Trace(s), k, lo)
  {
    var plan := Plan(stages, oracle);
    EveryScheduleKeepsInv(plan, schedule);
    PlanFollowsTheScript(stages, oracle, 0);
    if s.status.err.None? {
      forall item | item in plan && item.Batch?
        ensures AllPass(item.g.members)
      {
        var j :| 0 <= j < |plan| && plan[j] == item;
        assert BlockOk(plan[j], s.closed[j]);
      }
      forall k: nat, i: nat | IsStep(stages, k, i)
        ensures Passes(oracle, k, i)
      {
        PassingGroupsMeanPassingSteps(stages, oracle, k, i);
      }
    } else {
      FailedRunStopsAt(stages, oracle, s);
      CompleteErrors(plan[s.pos].g, s.group);
      var i := FailingMember(stages, oracle, plan[s.pos]);
    }
  }

  /* ---------- the trace of a passed run ---------- */

  ghost predicate FollowsPlan(plan: seq<Item>, blocks: seq<seq<Event>>) {
    |blocks| == |plan| && forall j :: 0 <= j < |plan| ==> BlockOk(plan[j], blocks[j])
  }

  /** The trace of a passed run is one block per item of the plan, nothing before, between or
      after: a stage's head, an interleaving of each group's passed steps, the stage's tail. */
  lemma PassedRunTrace(stages: seq<Stage>, oracle: Oracle, schedule: seq<Action>, s: State)
    requires Reaches(stages, oracle, schedule, s) && s.status == Returned(None)
    ensures exists blocks :: FollowsPlan(Plan(stages, oracle), blocks) && Trace(s) == Flatten(blocks)
  {
    EveryScheduleKeepsInv(Plan(stages, oracle), schedule);
    FlattenSnoc(s.closed, s.group.trace);
    assert FollowsPlan(Plan(stages, oracle), s.closed);
  }

  /* ---------- confluence of whole runs ---------- */

  function ItemEvents(item: Item): multiset<Event> {
    if item.Batch? then Total(item.g).events else multiset(Announce(item))
  }

  function PlanEvents(plan: seq<Item>, n: nat): multiset<Event>
    requires n <= |plan|
  {
    if n == 0 then multiset{} else PlanEvents(plan, n - 1) + ItemEvents(plan[n - 1])
  }

  lemma {:induction false} ClosedEvents(plan: seq<Item>, closed: seq<seq<Event>>)
    requires |closed| <= |plan| && forall j :: 0 <= j < |closed| ==> BlockOk(plan[j], closed[j])
    ensures multiset(Flatten(closed)) == PlanEvents(plan, |closed|)
  {
    hide Total, PassShape, Program, Acts;
    if closed != [] {
      var n := |closed| - 1;
      ClosedEvents(plan, closed[..n]);
      assert BlockOk(plan[n], closed[n]);
      assert multiset(closed[n]) == ItemEvents(plan[n]);
    }
  }

  /** No scanner of a failed group still has a line to deliver. */
  predicate Quiet(plan: seq<Item>, s: State) {
    s.pos < |plan| && plan[s.pos].Batch? ==> Settled(plan[s.pos].g, s.group)
  }

  lemma QuietEvents(plan: seq<Item>, s: State)
    requires Inv(plan, s) && s.status.Returned? && Quiet(plan, s)
    ensures multiset(Trace(s)) == PlanEvents(plan, if s.pos < |plan| then s.pos + 1 else s.pos)
  {
    hide Total, BlockOk, Settled, Balanced, GroupInv, Complete, Failure;
    ClosedEvents(plan, s.closed);
    FlattenSnoc(s.closed, s.group.trace);
    if s.pos < |plan| {
      SettledEvents(plan[s.pos].g, s.group);
    }
  }

  ghost predicate SameError(a: Option<RunError>, b: Option<RunError>) {
    match (a, b)
    case (None, None) => true
    case (Some(Bare(e)), Some(Bare(f))) => e == f
    case (Some(Joined(es)), Some(Joined(fs))) => multiset(es) == multiset(fs)
    case _ => false
  }

  lemma FailurePositions(plan: seq<Item>, s: State, t: State)
    requires Inv(plan, s) && Inv(plan, t) && s.status.Returned? && s.status.err.Some?
    ensures t.pos <= s.pos
  {
    if s.pos < t.pos {
      assert BlockOk(plan[s.pos], t.closed[s.pos]);
      CompleteErrors(plan[s.pos].g, s.group);
    }
  }

  lemma SameMultisetOfOne<T>(a: seq<T>, b: seq<T>)
    requires multiset(a) == multiset(b) && |a| == 1
    ensures a == b
  {
    assert |multiset(b)| == |b|;
    assert a[0] in multiset(b);
  }

  lemma OneErrorPerMember(g: Group)
    requires |g.members| == 1
    ensures |Total(g).errors| <= 1
  {
    var dues := Dues(g, Spawn(g).threads);
    assert dues[..0] == [];
    assert Sum(dues) == Sum(dues[..0]).Plus(dues[0]);
  }

  /** Whatever the schedules, two finished runs of one script with the same step outcomes agree:
      both pass, or both fail at the same group with the same error (as a multiset when joined);
      and once the scanners are through they have sent the same messages. */
  lemma RunsAgree(stages: seq<Stage>, oracle: Oracle, a: seq<Action>, b: seq<Action>, s: State, t: State)
    requires Reaches(stages, oracle, a, s) && Reaches(stages, oracle, b, t)
    requires s.status.Returned? && t.status.Returned?
    ensures SameError(s.status.err, t.status.err) && s.pos == t.pos
    ensures var plan := Plan(stages, oracle);
      Quiet(plan, s) && Quiet(plan, t) ==> multiset(Trace(s)) == multiset(Trace(t))
  {
    hide PlanFrom, BlockOk, GroupInv, Balanced, Complete, Total, GroupAt, Trace, Quiet, Exec;
    var plan := Plan(stages, oracle);
    EveryScheduleKeepsInv(plan, a);
    EveryScheduleKeepsInv(plan, b);
    if s.status.err.Some? { FailurePositions(plan, s, t); }
    if t.status.err.Some? { FailurePositions(plan, t, s); }
    if s.status.err.Some? {
      SameFailure(stages, oracle, s, t);
    }
    if Quiet(plan, s) && Quiet(plan, t) {
      QuietEvents(plan, s);
      QuietEvents(plan, t);
    }
  }

  lemma SameFailure(stages: seq<Stage>, oracle: Oracle, s: State, t: State)
    requires var plan := Plan(stages, oracle); Inv(plan, s) && Inv(plan, t)
    requires s.status.Returned? && s.status.err.Some? && t.status.Returned? && t.status.err.Some?
    requires s.pos == t.pos
    ensures SameError(s.status.err, t.status.err)
  {
    hide PlanFrom, BlockOk, GroupInv, Balanced, Complete, Total, Trace;
    var plan := Plan(stages, oracle);
    var g := plan[s.pos].g;
    CompleteErrors(g, s.group);
    CompleteErrors(g, t.group);
    PlanFollowsTheScript(stages, oracle, 0);
    assert ItemOk(stages, oracle, plan[s.pos]);
    if !g.parallel {
      OneErrorPerMember(g);
      assert |multiset(s.group.errors)| == |s.group.errors|;
      SameMultisetOfOne(s.group.errors, t.group.errors);
    }
  }

  /** The executor returns a bare cancellation exactly when the group it stops at is a single
      sequential step that was cancelled: a parallel group's errors come back joined. */
  lemma BareCancelOnlyFromSequential(stages: seq<Stage>, oracle: Oracle, schedule: seq<Action>, s: State)
    requires Reaches(stages, oracle, schedule, s) && s.status.Returned? && s.status.err.Some?
    ensures s.status.err == Some(Bare(RunCancel)) <==>
      exists k: nat, i: nat :: IsStep(stages, k, i) && StopsAt(stages, oracle, k, i)
        && !stages[k].steps[i].parallel && oracle(k, i).outcome.Cancelled?
  {
    hide PlanFrom, BlockOk, GroupInv, Balanced, Complete, Total, Trace, Exec;
    var plan := Plan(stages, oracle);
    EveryScheduleKeepsInv(plan, schedule);
    FailedRunStopsAt(stages, oracle, s);
    PlanFollowsTheScript(stages, oracle, 0);
    var g := plan[s.pos].g;
    assert ItemOk(stages, oracle, plan[s.pos]);
    forall k: nat, i: nat | IsStep(stages, k, i) && StopsAt(stages, oracle, k, i)
      ensures k == g.k && i == g.lo
    {
      StopIsUnique(stages, oracle, g.k, g.lo, k, i);
    }
    if !g.parallel {
      SequentialError(g, s.group);
      assert g.members[0].behaviour == oracle(g.k, g.lo);
    }
  }

  lemma StopIsUnique(stages: seq<Stage>, oracle: Oracle, k: nat, lo: nat, k': nat, lo': nat)
    requires IsStep(stages, k, lo) && StopsAt(stages, oracle, k, lo)
    requires IsStep(stages, k', lo') && StopsAt(stages, oracle, k', lo')
    ensures k == k' && lo == lo'
  {
    var i :| lo <= i < SpanEnd(stages[k].steps, lo) && !Passes(oracle, k, i);
    var i' :| lo' <= i' < SpanEnd(stages[k'].steps, lo') && !Passes(oracle, k', i');
    assert IsStep(stages, k, i) && IsStep(stages, k', i');
  }

  lemma SequentialError(g: Group, s: GroupState)
    requires |g.members| == 1 && Balanced(g, s) && Complete(g, s) && s.errors != []
    ensures s.errors[0] == ErrorOf(g.members[0].behaviour.outcome) && !g.members[0].behaviour.outcome.Pass?
  {
    CompleteErrors(g, s);
    assert s.errors[0] in Total(g).errors;
    var dues := Dues(g, Spawn(g).threads);
    assert dues[..0] == [];
    assert Sum(dues) == Sum(dues[..0]).Plus(dues[0]);
    assert Total(g).errors == dues[0].errors;
  }

  /* ---------- every schedule ends, and none gets stuck ---------- */

  /** The actions the first n items take: one to leave each, and one for each event of a group. */
  function Work(plan: seq<Item>, n: nat): nat
    requires n <= |plan|
  {
    if n == 0 then 0 else Work(plan, n - 1) + 1 + if plan[n - 1].Batch? then |Total(plan[n - 1].g).events| else 0
  }

  lemma {:induction false} WorkGrows(plan: seq<Item>, m: nat, n: nat)
    requires m <= n <= |plan|
    ensures Work(plan, m) <= Work(plan, n)
  {
    if m < n {
      WorkGrows(plan, m, n - 1);
    }
  }

  function Spent(plan: seq<Item>, s: State): nat
    requires s.pos <= |plan|
  {
    Work(plan, s.pos) + |s.group.trace| + if s.status.Returned? then 1 else 0
  }

  lemma StepSpendsOne(plan: seq<Item>, s: State, a: Action)
    requires Inv(plan, s) && Take(plan, s, a).Some?
    ensures Inv(plan, Take(plan, s, a).value)
    ensures Spent(plan, Take(plan, s, a).value) == Spent(plan, s) + 1
  {
    hide GroupInv, Balanced, Complete, Total, Program, Acts, CanMove;
    StepKeepsInv(plan, s, a);
    if a.Next? && s.pos < |plan| && plan[s.pos].Batch? && s.group.errors == [] {
      PassedGroupIsOk(plan[s.pos].g, s.group);
      assert |multiset(s.group.trace)| == |s.group.trace|;
    }
  }

  lemma {:induction false} ScheduleLength(plan: seq<Item>, schedule: seq<Action>)
    requires Exec(plan, schedule).Some?
    ensures Inv(plan, Exec(plan, schedule).value) && Spent(plan, Exec(plan, schedule).value) == |schedule|
  {
    EveryScheduleKeepsInv(plan, schedule);
    if schedule != [] {
      var front := schedule[..|schedule| - 1];
      ScheduleLength(plan, front);
      StepSpendsOne(plan, Exec(plan, front).value, schedule[|schedule| - 1]);
    }
  }

  /** The length of every schedule is bounded by the script and its outcomes. */
  lemma EveryScheduleEnds(stages: seq<Stage>, oracle: Oracle, schedule: seq<Action>)
    requires Exec(Plan(stages, oracle), schedule).Some?
    ensures |schedule| <= Work(Plan(stages, oracle), |Plan(stages, oracle)|) + 1
  {
    hide Exec, PlanFrom, OpenOk, StatusOk, BlockOk;
    var plan := Plan(stages, oracle);
    ScheduleLength(plan, schedule);
    var s := Exec(plan, schedule).value;
    GroupTraceBound(plan, s);
    WorkGrows(plan, s.pos, |plan|);
    if s.pos < |plan| {
      WorkGrows(plan, s.pos + 1, |plan|);
    }
  }

  /** No schedule gets stuck: one can be continued exactly when the executor has not returned
      or a scanner still has a line. So the theorems above are about endings that are reached. */
  lemma NoScheduleIsStuck(stages: seq<Stage>, oracle: Oracle, schedule: seq<Action>, s: State)
    requires Reaches(stages, oracle, schedule, s)
    ensures (exists a: Action :: Take(Plan(stages, oracle), s, a).Some?)
      <==> (s.status.Running? || !Quiet(Plan(stages, oracle), s))
  {
    hide Exec, PlanFrom, Inv, Take, Quiet;
    var plan := Plan(stages, oracle);
    EveryScheduleKeepsInv(plan, schedule);
    if s.status.Running? || !Quiet(plan, s) {
      var a := SomeActionIsPossible(plan, s);
    } else {
      forall a: Action
        ensures Take(plan, s, a).None?
      {
        NothingAfterTheEnd(plan, s, a);
      }
    }
  }

  /** Every schedule can be continued to one that ends with a return. */
  lemma {:induction false} CanReturn(stages: seq<Stage>, oracle: Oracle, schedule: seq<Action>)
    returns (full: seq<Action>)
    requires Exec(Plan(stages, oracle), schedule).Some?
    ensures schedule <= full
    ensures Exec(Plan(stages, oracle), full).Some? && Exec(Plan(stages, oracle), full).value.status.Returned?
    decreases Work(Plan(stages, oracle), |Plan(stages, oracle)|) + 1 - |schedule|
  {
    hide Exec, PlanFrom, Inv, Take, Work;
    var plan := Plan(stages, oracle);
    var s := Exec(plan, schedule).value;
    if s.status.Returned? {
      full := schedule;
    } else {
      EveryScheduleKeepsInv(plan, schedule);
      var a := SomeActionIsPossible(plan, s);
      ExecSnoc(plan, schedule, a);
      EveryScheduleEnds(stages, oracle, schedule + [a]);
      full := CanReturn(stages, oracle, schedule + [a]);
    }
  }

  lemma GroupTraceBound(plan: seq<Item>, s: State)
    requires Inv(plan, s)
    ensures |s.group.trace| <= if s.pos < |plan| && plan[s.pos].Batch? then |Total(plan[s.pos].g).events| else 0
  {
    hide GroupInv, Total, Owed;
    if s.pos < |plan| && plan[s.pos].Batch? {
      var g := plan[s.pos].g;
      assert |multiset(s.group.trace)| == |s.group.trace|;
      assert |multiset(s.group.trace) + Owed(g, s.group).events| == |Total(g).events|;
    }
  }

  lemma SomeActionIsPossible(plan: seq<Item>, s: State) returns (a: Action)
    requires Inv(plan, s) && (s.status.Running? || !Quiet(plan, s))
    ensures Take(plan, s, a).Some?
  {
    hide GroupInv, Balanced, CanMove, Moved, BlockOk;
    if s.pos < |plan| && plan[s.pos].Batch? && !Settled(plan[s.pos].g, s.group) {
      var mv := UnsettledCanMove(plan[s.pos].g, s.group);
      a := Go(mv);
    } else {
      a := Next;
      if s.pos < |plan| && plan[s.pos].Batch? {
        SettledIsComplete(plan[s.pos].g, s.group);
      }
    }
  }

  lemma NothingAfterTheEnd(plan: seq<Item>, s: State, a: Action)
    requires Inv(plan, s) && s.status.Returned? && Quiet(plan, s)
    ensures Take(plan, s, a).None?
  {
  }
}
