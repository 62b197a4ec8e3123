/** Where the items of a plan come from: they follow the script, cover every step once, and a
    group of several steps holds parallel steps only. */
module PlanOrder {
  import opened PipelineScript
  import opened Sequences
  import opened Grouping
  import opened StepGroup
  import opened ScriptMachine

  predicate IsStep(stages: seq<Stage>, k: nat, i: nat) {
    k < |stages| && i < |stages[k].steps|
  }

  ghost predicate ItemOk(stages: seq<Stage>, oracle: Oracle, item: Item) {
    match item
    case Batch(g) =>
      && g.k < |stages| && StartsGroup(stages[g.k].steps, g.lo)
      && g == GroupAt(stages[g.k].steps, oracle, g.k, g.lo)
    case _ => item.k < |stages| && item.name == stages[item.k].stage
  }

  function StageOf(item: Item): nat {
    if item.Batch? then item.g.k else item.k
  }

  /** The places an item takes within its stage: 0 for the head, then one for each step. */
  function FirstPlace(stages: seq<Stage>, item: Item): nat {
    match item
    case Head(_, _) => 0
    case Batch(g) => g.lo + 1
    case Tail(k, _) => if k < |stages| then |stages[k].steps| + 1 else 0
  }

  function PastPlace(stages: seq<Stage>, item: Item): nat {
    if item.Batch? then item.g.lo + |item.g.members| + 1 else FirstPlace(stages, item) + 1
  }

  ghost predicate Before(stages: seq<Stage>, a: Item, b: Item) {
    StageOf(a) < StageOf(b) || (StageOf(a) == StageOf(b) && PastPlace(stages, a) <= FirstPlace(stages, b))
  }

  ghost predicate Sorted(stages: seq<Stage>, items: seq<Item>) {
    forall a, b :: 0 <= a < b < |items| ==> Before(stages, items[a], items[b])
  }

  lemma {:induction false} BatchesFollowTheSteps(stages: seq<Stage>, oracle: Oracle, k: nat, lo: nat)
    requires k < |stages| && (lo == |stages[k].steps| || StartsGroup(stages[k].steps, lo))
    ensures var items := Batches(stages[k].steps, oracle, k, lo);
      && (forall item <- items :: item.Batch? && item.g.k == k && ItemOk(stages, oracle, item) && lo <= item.g.lo)
      && Sorted(stages, items)
    decreases |stages[k].steps| - lo
  {
    var steps := stages[k].steps;
    if lo < |steps| {
      BatchesFollowTheSteps(stages, oracle, k, SpanEnd(steps, lo));
    }
  }

  lemma {:induction false} PlanFollowsTheScript(stages: seq<Stage>, oracle: Oracle, k: nat)
    requires k <= |stages|
    ensures var items := PlanFrom(stages, oracle, k);
      && (forall item <- items :: ItemOk(stages, oracle, item) && k <= StageOf(item))
      && Sorted(stages, items)
    decreases |stages| - k
  {
    if k < |stages| {
      BatchesFollowTheSteps(stages, oracle, k, 0);
      PlanFollowsTheScript(stages, oracle, k + 1);
      StageSorted(stages, oracle, k);
      var stage := [Head(k, stages[k].stage)] + Batches(stages[k].steps, oracle, k, 0) + [Tail(k, stages[k].stage)];
      var rest := PlanFrom(stages, oracle, k + 1);
      assert PlanFrom(stages, oracle, k) == stage + rest;
    }
  }

  lemma StageSorted(stages: seq<Stage>, oracle: Oracle, k: nat)
    requires k < |stages|
    ensures var stage := stages[k];
      var items := [Head(k, stage.stage)] + Batches(stage.steps, oracle, k, 0) + [Tail(k, stage.stage)];
      && (forall item <- items :: ItemOk(stages, oracle, item) && StageOf(item) == k)
      && Sorted(stages, items)
  {
    BatchesFollowTheSteps(stages, oracle, k, 0);
    var batches := Batches(stages[k].steps, oracle, k, 0);
    assert forall item <- batches :: PastPlace(stages, item) <= |stages[k].steps| + 1;
  }

  lemma {:induction false} StepIsInBatches(steps: seq<PipelineScript.Step>, oracle: Oracle, k: nat, lo: nat, i: nat)
    returns (j: nat)
    requires lo <= i < |steps|
    ensures var items := Batches(steps, oracle, k, lo);
      j < |items| && items[j].Batch? && FromGroup(items[j].g, OfStep(k, i, Call))
    decreases |steps| - lo
  {
    var hi := SpanEnd(steps, lo);
    if i < hi {
      j := 0;
    } else {
      j := StepIsInBatches(steps, oracle, k, hi, i);
      j := j + 1;
    }
  }

  /* ---------- the groups of a stage ---------- */

  ghost predicate AllBatches(items: seq<Item>) {
    forall item <- items :: item.Batch?
  }

  /** The steps each group takes. */
  ghost function SpansOf(items: seq<Item>): seq<Span>
    requires AllBatches(items)
  {
    if items == [] then [] else
      var g := items[0].g;
      [Span(g.lo, g.lo + |g.members|)] + SpansOf(items[1..])
  }

  ghost function StepsOf(items: seq<Item>): seq<seq<PipelineScript.Step>>
    requires AllBatches(items)
  {
    if items == [] then [] else
      var ms := items[0].g.members;
      [seq(|ms|, x requires 0 <= x < |ms| => ms[x].step)] + StepsOf(items[1..])
  }

  lemma {:induction false} BatchesAreSpans(steps: seq<PipelineScript.Step>, oracle: Oracle, k: nat, lo: nat)
    requires lo <= |steps|
    ensures AllBatches(Batches(steps, oracle, k, lo)) && SpansOf(Batches(steps, oracle, k, lo)) == Spans(steps, lo)
    decreases |steps| - lo
  {
    if lo < |steps| {
      var hi := SpanEnd(steps, lo);
      BatchesAreSpans(steps, oracle, k, hi);
      assert Batches(steps, oracle, k, lo)[1..] == Batches(steps, oracle, k, hi);
    }
  }

  /** The groups the executor forms are the only ones that take the steps in order, put several
      together only when all of them are parallel, and never part a parallel run. */
  lemma ExecutorGrouping(steps: seq<PipelineScript.Step>, oracle: Oracle, k: nat, spans: seq<Span>)
    ensures AllBatches(Batches(steps, oracle, k, 0))
    ensures IsGrouping(steps, 0, spans) <==> spans == SpansOf(Batches(steps, oracle, k, 0))
  {
    BatchesAreSpans(steps, oracle, k, 0);
    GroupingExactly(steps, spans);
  }

  /** No step is lost, duplicated or moved by the grouping. */
  lemma {:induction false} GroupsConcatenate(steps: seq<PipelineScript.Step>, oracle: Oracle, k: nat, lo: nat)
    requires lo <= |steps|
    ensures AllBatches(Batches(steps, oracle, k, lo))
    ensures Flatten(StepsOf(Batches(steps, oracle, k, lo))) == steps[lo..]
    decreases |steps| - lo
  {
    if lo < |steps| {
      var hi, items := SpanEnd(steps, lo), Batches(steps, oracle, k, lo);
      GroupsConcatenate(steps, oracle, k, hi);
      assert items[1..] == Batches(steps, oracle, k, hi);
      assert StepsOf(items)[0] == steps[lo..hi];
      FlattenCons(steps[lo..hi], StepsOf(items[1..]));
    }
  }

  /** Every step of the script belongs to some group of the plan. */
  lemma {:induction false} StepIsInPlan(stages: seq<Stage>, oracle: Oracle, from: nat, k: nat, i: nat)
    returns (j: nat)
    requires from <= k && IsStep(stages, k, i)
    ensures var items := PlanFrom(stages, oracle, from);
      j < |items| && items[j].Batch? && FromGroup(items[j].g, OfStep(k, i, Call))
    decreases |stages| - from
  {
    var batches := Batches(stages[from].steps, oracle, from, 0);
    if from == k {
      j := StepIsInBatches(stages[k].steps, oracle, k, 0, i);
      j := j + 1;
      assert PlanFrom(stages, oracle, from)[j] == batches[j - 1];
    } else {
      var rest := PlanFrom(stages, oracle, from + 1);
      j := StepIsInPlan(stages, oracle, from + 1, k, i);
      assert PlanFrom(stages, oracle, from)[j + |batches| + 2] == rest[j];
      j := j + |batches| + 2;
    }
  }

  /** Two steps run in different groups, the first one's earlier: it belongs to an earlier stage,
      or precedes the second with a step that is not parallel from the one to the other. */
  predicate EarlierGroup(stages: seq<Stage>, k: nat, i: nat, k': nat, i': nat)
    requires IsStep(stages, k, i) && IsStep(stages, k', i')
  {
    k < k' || (k == k' && i < i' && exists x :: i <= x <= i' && !stages[k].steps[x].parallel)
  }

  lemma EarlierGroupsComeFirst(stages: seq<Stage>, oracle: Oracle, k: nat, i: nat, k': nat, i': nat, a: nat, b: nat)
    requires IsStep(stages, k, i) && IsStep(stages, k', i')
    requires var plan := Plan(stages, oracle);
      && a < |plan| && plan[a].Batch? && FromGroup(plan[a].g, OfStep(k, i, Call))
      && b < |plan| && plan[b].Batch? && FromGroup(plan[b].g, OfStep(k', i', Call))
    ensures a < b <==> EarlierGroup(stages, k, i, k', i')
  {
    PlanFollowsTheScript(stages, oracle, 0);
    var plan := Plan(stages, oracle);
    assert ItemOk(stages, oracle, plan[a]) && ItemOk(stages, oracle, plan[b]);
    if a < b && k == k' {
      assert Before(stages, plan[a], plan[b]);
      var lo, steps := plan[b].g.lo, stages[k].steps;
      assert i <= lo - 1 && lo <= i' && StartsGroup(steps, lo);
      assert !steps[lo - 1].parallel || !steps[lo].parallel;
    }
  }
}
