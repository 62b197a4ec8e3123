/** Where the messages of the stages stand on the trace: each stage that runs is announced once, before
    anything else of it, and said to have passed once, after everything else of it, if it has. */
module StageMessages {
  import opened Wrappers
  import opened PipelineScript
  import opened Sequences
  import opened Messages
  import opened StepGroup
  import opened ScriptMachine
  import opened PlanOrder
  import opened ScriptTheorems

  /** The stage an event of the executor or of a step belongs to. */
  function StageOfEvent(e: Event): int {
    if e.Own? then -1 else e.k
  }

  ghost predicate OnceAt(trace: seq<Event>, e: Event, p: nat) {
    p < |trace| && trace[p] == e && forall x :: 0 <= x < |trace| && trace[x] == e ==> x == p
  }

  /** Stage k is announced at p: nothing of it comes earlier, and nothing of an earlier stage later. */
  ghost predicate Opens(stages: seq<Stage>, trace: seq<Event>, k: nat, p: nat)
    requires k < |stages|
  {
    && OnceAt(trace, Main(k, StageStarted(stages[k].stage)), p)
    && forall x {:trigger trace[x]} :: 0 <= x < |trace| ==>
         && (StageOfEvent(trace[x]) < k ==> x < p)
         && (StageOfEvent(trace[x]) == k ==> p <= x)
         && (StageOfEvent(trace[x]) > k ==> p < x)
  }

  /** Stage k is said to have passed at q: nothing of it comes later, and nothing of a later stage
      earlier. */
  ghost predicate Closes(stages: seq<Stage>, trace: seq<Event>, k: nat, q: nat)
    requires k < |stages|
  {
    && OnceAt(trace, Main(k, StagePassed(stages[k].stage)), q)
    && forall x {:trigger trace[x]} :: 0 <= x < |trace| ==>
         && (StageOfEvent(trace[x]) < k ==> x < q)
         && (StageOfEvent(trace[x]) == k ==> x <= q)
         && (StageOfEvent(trace[x]) > k ==> q < x)
  }

  ghost predicate Framed(stages: seq<Stage>, trace: seq<Event>, k: nat)
    requires k < |stages|
  {
    exists p: nat, q: nat :: p < q && Opens(stages, trace, k, p) && Closes(stages, trace, k, q)
  }

  /** The executor sends nothing else itself. */
  ghost predicate OnlyStageMessages(stages: seq<Stage>, trace: seq<Event>) {
    forall e <- trace :: !e.Own? && e.k < |stages|
      && (e.Main? ==> e.msg == StageStarted(stages[e.k].stage) || e.msg == StagePassed(stages[e.k].stage))
  }

  lemma {:induction false} HeadIsInPlan(stages: seq<Stage>, oracle: Oracle, from: nat, k: nat)
    returns (a: nat, b: nat)
    requires from <= k < |stages|
    ensures var items := PlanFrom(stages, oracle, from);
      && a < b < |items| && items[a] == Head(k, stages[k].stage) && items[b] == Tail(k, stages[k].stage)
    decreases |stages| - from
  {
    var batches, rest := Batches(stages[from].steps, oracle, from, 0), PlanFrom(stages, oracle, from + 1);
    var items := PlanFrom(stages, oracle, from);
    if from == k {
      a, b := 0, |batches| + 1;
    } else {
      a, b := HeadIsInPlan(stages, oracle, from + 1, k);
      assert items[a + |batches| + 2] == rest[a] && items[b + |batches| + 2] == rest[b];
      a, b := a + |batches| + 2, b + |batches| + 2;
    }
  }

  lemma EventStage(stages: seq<Stage>, oracle: Oracle, item: Item, e: Event)
    requires ItemOk(stages, oracle, item) && BelongsTo(item, e)
    ensures !e.Own? && e.k == StageOf(item) && e.k < |stages|
    ensures item.Head? ==> e == Main(item.k, StageStarted(stages[item.k].stage))
    ensures item.Tail? ==> e == Main(item.k, StagePassed(stages[item.k].stage))
    ensures item.Batch? ==> e.OfStep?
  {
    hide GroupAt;
  }

  /** The message at the beginning or the end of a stage. */
  function Announced(stages: seq<Stage>, k: nat, head: bool): Event
    requires k < |stages|
  {
    Main(k, if head then StageStarted(stages[k].stage) else StagePassed(stages[k].stage))
  }

  lemma ItemsInOrder(stages: seq<Stage>, oracle: Oracle, a: nat, b: nat)
    requires a < b < |Plan(stages, oracle)|
    ensures var plan := Plan(stages, oracle);
      && ItemOk(stages, oracle, plan[a]) && ItemOk(stages, oracle, plan[b])
      && StageOf(plan[a]) <= StageOf(plan[b])
      && (StageOf(plan[a]) == StageOf(plan[b]) ==> !plan[b].Head? && !plan[a].Tail?)
  {
    hide PlanFrom;
    PlanFollowsTheScript(stages, oracle, 0);
    var plan := Plan(stages, oracle);
    assert Before(stages, plan[a], plan[b]);
    assert ItemOk(stages, oracle, plan[a]) && ItemOk(stages, oracle, plan[b]);
  }

  /** An event next to the announcement that item j of the plan is. */
  lemma EventPlace(stages: seq<Stage>, oracle: Oracle, s: State, j: nat, x: nat)
    requires Inv(Plan(stages, oracle), s) && j < s.pos && !Plan(stages, oracle)[j].Batch? && x < |Trace(s)|
    ensures var p, item, e := StartOf(s.closed + [s.group.trace], j), Plan(stages, oracle)[j], Trace(s)[x];
      && (StageOfEvent(e) < item.k ==> x < p) && (StageOfEvent(e) > item.k ==> p < x)
      && (StageOfEvent(e) == item.k ==> if item.Head? then p <= x else x <= p)
      && (item.k < |stages| && e == Announced(stages, item.k, item.Head?) ==> x == p)
  {
    hide Inv, Plan, Trace, StartOf, BelongsTo, ItemOk;
    var plan, blocks := Plan(stages, oracle), s.closed + [s.group.trace];
    Bounds(plan, s);
    var b, o := ItemOfEvent(stages, oracle, s, x);
    EventStage(stages, oracle, plan[b], Trace(s)[x]);
    OneEach(plan, s, j);
    if b < j {
      BlocksAreOrdered(blocks, b, j);
      ItemsInOrder(stages, oracle, b, j);
    } else if j < b {
      BlocksAreOrdered(blocks, j, b);
      ItemsInOrder(stages, oracle, j, b);
    }
  }

  lemma Bounds(plan: seq<Item>, s: State)
    requires Inv(plan, s)
    ensures s.pos <= |plan| && |s.closed| == s.pos
  {
  }

  lemma OneEach(plan: seq<Item>, s: State, j: nat)
    requires Inv(plan, s) && j < s.pos && !plan[j].Batch?
    ensures |s.closed| == s.pos && |s.closed[j]| == 1
    ensures var item := plan[j];
      s.closed[j][0] == Main(item.k, if item.Head? then StageStarted(item.name) else StagePassed(item.name))
  {
    hide PassedGroup;
    assert BlockOk(plan[j], s.closed[j]);
  }

  lemma AnnouncedAt(stages: seq<Stage>, oracle: Oracle, s: State, j: nat)
    requires Inv(Plan(stages, oracle), s) && j < s.pos && !Plan(stages, oracle)[j].Batch?
    ensures var p, item := StartOf(s.closed + [s.group.trace], j), Plan(stages, oracle)[j];
      && item.k < |stages|
      && (if item.Head? then Opens(stages, Trace(s), item.k, p) else Closes(stages, Trace(s), item.k, p))
  {
    hide Inv, PlanFrom;
    var plan, blocks := Plan(stages, oracle), s.closed + [s.group.trace];
    Bounds(plan, s);
    PlanFollowsTheScript(stages, oracle, 0);
    assert ItemOk(stages, oracle, plan[j]);
    OneEach(plan, s, j);
    BlockInFlatten(blocks, j, 0);
    forall x | 0 <= x < |Trace(s)|
      ensures var p, item, e := StartOf(blocks, j), plan[j], Trace(s)[x];
        && (StageOfEvent(e) < item.k ==> x < p) && (StageOfEvent(e) > item.k ==> p < x)
        && (StageOfEvent(e) == item.k ==> if item.Head? then p <= x else x <= p)
        && (e == Announced(stages, item.k, item.Head?) ==> x == p)
    {
      EventPlace(stages, oracle, s, j, x);
    }
  }

  lemma OnlyTheseMessages(stages: seq<Stage>, oracle: Oracle, s: State)
    requires Inv(Plan(stages, oracle), s)
    ensures OnlyStageMessages(stages, Trace(s))
  {
    hide Inv, PlanFrom, BelongsTo;
    forall e | e in Trace(s)
      ensures !e.Own? && e.k < |stages|
      ensures e.Main? ==> e.msg == StageStarted(stages[e.k].stage) || e.msg == StagePassed(stages[e.k].stage)
    {
      var x :| 0 <= x < |Trace(s)| && Trace(s)[x] == e;
      var b, o := ItemOfEvent(stages, oracle, s, x);
      EventStage(stages, oracle, Plan(stages, oracle)[b], e);
    }
  }

  /** In a passed run every stage is announced exactly once, before everything else of it, and said to
      have passed exactly once, after everything else; the stages follow each other, and the executor
      itself sends nothing more. */
  lemma PassedStages(stages: seq<Stage>, oracle: Oracle, schedule: seq<Action>, s: State)
    requires Reaches(stages, oracle, schedule, s) && s.status == Returned(None)
    ensures OnlyStageMessages(stages, Trace(s))
    ensures forall k: nat :: k < |stages| ==> Framed(stages, Trace(s), k)
  {
    hide Exec, Opens, Closes, OnlyStageMessages, PlanFrom;
    var plan := Plan(stages, oracle);
    EveryScheduleKeepsInv(plan, schedule);
    OnlyTheseMessages(stages, oracle, s);
    assert s.pos == |plan| by { PassedIsThrough(plan, s); }
    forall k: nat | k < |stages|
      ensures Framed(stages, Trace(s), k)
    {
      StageFramed(stages, oracle, s, k, |plan|);
    }
  }

  lemma PassedIsThrough(plan: seq<Item>, s: State)
    requires Inv(plan, s) && s.status == Returned(None)
    ensures s.pos == |plan|
  {
  }

  lemma FramedBy(stages: seq<Stage>, oracle: Oracle, s: State, k: nat, a: nat, b: nat)
    requires Inv(Plan(stages, oracle), s) && k < |stages| && a < b < s.pos <= |Plan(stages, oracle)|
    requires var plan := Plan(stages, oracle);
      plan[a] == Head(k, stages[k].stage) && plan[b] == Tail(k, stages[k].stage)
    ensures Framed(stages, Trace(s), k)
  {
    hide Inv, Plan, Opens, Closes, Trace, StartOf;
    AnnouncedAt(stages, oracle, s, a);
    AnnouncedAt(stages, oracle, s, b);
    OneEach(Plan(stages, oracle), s, a);
    BlocksAreOrdered(s.closed + [s.group.trace], a, b);
  }

  lemma StageFramed(stages: seq<Stage>, oracle: Oracle, s: State, k: nat, n: nat)
    requires Inv(Plan(stages, oracle), s) && k < |stages| && n <= s.pos
    requires n <= |Plan(stages, oracle)|
    requires n == |Plan(stages, oracle)| || StageOf(Plan(stages, oracle)[n]) > k
    ensures Framed(stages, Trace(s), k)
  {
    hide Inv, PlanFrom, Framed, Trace, ItemOk;
    var a, b := HeadIsInPlan(stages, oracle, 0, k);
    Bounds(Plan(stages, oracle), s);
    if n < b {
      ItemsInOrder(stages, oracle, n, b);
    }
    FramedBy(stages, oracle, s, k, a, b);
  }

  /** In a failed run the same holds of every stage before the one it stops at. That one is announced
      exactly once, before everything else of it, and never said to have passed; no later stage has
      any event. */
  lemma StoppedStages(stages: seq<Stage>, oracle: Oracle, schedule: seq<Action>, s: State, stop: nat, lo: nat)
    requires Reaches(stages, oracle, schedule, s) && s.status.Returned? && s.status.err.Some?
    requires IsStep(stages, stop, lo) && StopsAt(stages, oracle, stop, lo)
    ensures OnlyStageMessages(stages, Trace(s))
    ensures forall k: nat :: k < stop ==> Framed(stages, Trace(s), k)
    ensures exists p: nat :: Opens(stages, Trace(s), stop, p)
    ensures Main(stop, StagePassed(stages[stop].stage)) !in Trace(s)
    ensures forall e <- Trace(s) :: StageOfEvent(e) <= stop
  {
    hide Exec, Opens, Closes, OnlyStageMessages, PlanFrom, StopsAt, Inv, GroupInv, Complete, AllPass;
    var plan := Plan(stages, oracle);
    EveryScheduleKeepsInv(plan, schedule);
    OnlyTheseMessages(stages, oracle, s);
    var item := FailedItem(stages, oracle, s);
    FailedRunStopsAt(stages, oracle, s);
    FirstFailure(stages, oracle, s);
    StopIsUnique(stages, oracle, stop, lo, item.g.k, item.g.lo);
    forall k: nat | k < stop
      ensures Framed(stages, Trace(s), k)
    {
      StageFramed(stages, oracle, s, k, s.pos);
    }
    StageOpened(stages, oracle, s, stop);
    StoppedMeans(stages, oracle, Trace(s), stop, lo);
    assert OnlyStageMessages(stages, Trace(s)) ==> forall e <- Trace(s) :: !e.Own? by { OnlyMeans(stages, Trace(s)); }
  }

  lemma OnlyMeans(stages: seq<Stage>, trace: seq<Event>)
    ensures OnlyStageMessages(stages, trace) ==> forall e <- trace :: !e.Own?
  {
  }

  lemma StoppedMeans(stages: seq<Stage>, oracle: Oracle, trace: seq<Event>, k: nat, lo: nat)
    requires IsStep(stages, k, lo) && StoppedAt(stages, oracle, trace, k, lo)
    ensures Main(k, StagePassed(stages[k].stage)) !in trace
    ensures forall e <- trace :: !e.Own? ==> e.k <= k
  {
  }

  lemma StageOpened(stages: seq<Stage>, oracle: Oracle, s: State, k: nat)
    requires Inv(Plan(stages, oracle), s) && k < |stages| && s.pos < |Plan(stages, oracle)|
    requires Plan(stages, oracle)[s.pos].Batch? && StageOf(Plan(stages, oracle)[s.pos]) == k
    ensures exists p: nat :: Opens(stages, Trace(s), k, p)
  {
    var a, b := HeadIsInPlan(stages, oracle, 0, k);
    hide Inv, PlanFrom, Opens, Closes, Trace, StartOf, ItemOk;
    if s.pos < a {
      ItemsInOrder(stages, oracle, s.pos, a);
    }
    AnnouncedAt(stages, oracle, s, a);
  }
}
