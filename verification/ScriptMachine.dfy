/** The executor as a transition system. A script unfolds into a list of items: the head of a
    stage, its groups of steps, its tail. The executor works through the items one by one; the
    moves of a group's goroutines come in any order. */
module ScriptMachine {
  import opened Wrappers
  import opened PipelineScript
  import opened Messages
  import opened Sequences
  import opened Grouping
  import opened StepGroup
  import opened GroupOutcome

  /** How step i of stage k behaves. */
  type Oracle = (nat, nat) -> Behaviour

  datatype Item = Head(k: nat, name: string) | Batch(g: Group) | Tail(k: nat, name: string)

  /** The error the executor returns: a sequential step's own, or a joined list. */
  datatype RunError = Bare(error: StepError) | Joined(errors: seq<StepError>)

  datatype Status = Running | Returned(err: Option<RunError>)

  /** `closed` holds what each finished item put on the trace, `group` the goroutines of the
      item at `pos` and what they have put there so far. */
  datatype State = State(pos: nat, closed: seq<seq<Event>>, group: GroupState, status: Status)

  datatype Action = Next | Go(mv: Move)

  function Members(steps: seq<Step>, oracle: Oracle, k: nat, lo: nat, hi: nat): (ms: seq<Member>)
    requires lo <= hi <= |steps|
    ensures |ms| == hi - lo
    ensures forall x :: 0 <= x < |ms| ==> ms[x] == Member(steps[lo + x], oracle(k, lo + x))
  {
    seq(hi - lo, x requires 0 <= x < hi - lo => Member(steps[lo + x], oracle(k, lo + x)))
  }

  function GroupAt(steps: seq<Step>, oracle: Oracle, k: nat, lo: nat): Group
    requires lo < |steps|
  {
    Group(k, lo, Members(steps, oracle, k, lo, SpanEnd(steps, lo)), steps[lo].parallel)
  }

  function Batches(steps: seq<Step>, oracle: Oracle, k: nat, lo: nat): seq<Item>
    requires lo <= |steps|
    decreases |steps| - lo
  {
    if lo == |steps| then [] else
      [Batch(GroupAt(steps, oracle, k, lo))] + Batches(steps, oracle, k, SpanEnd(steps, lo))
  }

  function PlanFrom(stages: seq<Stage>, oracle: Oracle, k: nat): seq<Item>
    requires k <= |stages|
    decreases |stages| - k
  {
    if k == |stages| then [] else
      [Head(k, stages[k].stage)] + Batches(stages[k].steps, oracle, k, 0) + [Tail(k, stages[k].stage)]
      + PlanFrom(stages, oracle, k + 1)
  }

  function Plan(stages: seq<Stage>, oracle: Oracle): seq<Item> {
    PlanFrom(stages, oracle, 0)
  }

  const NO_GROUP := GroupState([], [], [])

  function Enter(plan: seq<Item>, pos: nat): GroupState {
    if pos < |plan| && plan[pos].Batch? then Spawn(plan[pos].g) else NO_GROUP
  }

  function Init(plan: seq<Item>): State {
    State(0, [], Enter(plan, 0), Running)
  }

  /** What the executor itself sends for an item. */
  function Announce(item: Item): seq<Event>
    requires !item.Batch?
  {
    [Main(item.k, if item.Head? then StageStarted(item.name) else StagePassed(item.name))]
  }

  function Failure(g: Group, errors: seq<StepError>): RunError
    requires errors != []
  {
    if g.parallel then Joined(errors) else Bare(errors[0])
  }

  /** One step of the executor: None when the action is not possible. After a failed group has
      made the executor return, the scanners its calls left behind may still deliver lines. */
  function Take(plan: seq<Item>, s: State, a: Action): Option<State> {
    match a
    case Go(mv) =>
      if s.pos < |plan| && plan[s.pos].Batch? && CanMove(plan[s.pos].g, s.group, mv)
      then Some(s.(group := Moved(plan[s.pos].g, s.group, mv))) else None
    case Next =>
      if s.status != Running then None
      else if s.pos >= |plan| then Some(s.(status := Returned(None)))
      else if !plan[s.pos].Batch? then
        Some(State(s.pos + 1, s.closed + [Announce(plan[s.pos])], Enter(plan, s.pos + 1), Running))
      else if !Complete(plan[s.pos].g, s.group) then None
      else if s.group.errors != [] then
        Some(s.(status := Returned(Some(Failure(plan[s.pos].g, s.group.errors)))))
      else Some(State(s.pos + 1, s.closed + [s.group.trace], Enter(plan, s.pos + 1), Running))
  }

  /** The state a schedule leads to, or None when it asks for something impossible. */
  function Exec(plan: seq<Item>, schedule: seq<Action>): Option<State> {
    if schedule == [] then Some(Init(plan)) else
      var before := Exec(plan, schedule[..|schedule| - 1]);
      if before.Some? then Take(plan, before.value, schedule[|schedule| - 1]) else None
  }

  /** Everything sent, called, returned and collected so far, in order. */
  function Trace(s: State): seq<Event> {
    Flatten(s.closed + [s.group.trace])
  }

  lemma ExecSnoc(plan: seq<Item>, schedule: seq<Action>, a: Action)
    ensures Exec(plan, schedule + [a])
         == if Exec(plan, schedule).Some? then Take(plan, Exec(plan, schedule).value, a) else None
  {
    assert (schedule + [a])[..|schedule|] == schedule;
  }

  lemma GrownTrace(s: State, t: State, events: seq<Event>)
    requires t.closed == s.closed && t.group.trace == s.group.trace + events
    ensures Trace(t) == Trace(s) + events
  {
    FlattenSnoc(s.closed, s.group.trace);
    FlattenSnoc(t.closed, t.group.trace);
  }

  /* ---------- the invariant of every schedule ---------- */

  /** What a finished item has put on the trace. */
  ghost predicate BlockOk(item: Item, block: seq<Event>) {
    if item.Batch? then PassedGroup(item.g, block) else block == Announce(item)
  }

  /** An interleaving of the acts of a group's members, all of which passed. */
  ghost predicate PassedGroup(g: Group, block: seq<Event>) {
    && AllPass(g.members)
    && (forall e <- block :: FromGroup(g, e))
    && (forall i :: 0 <= i < |g.members| ==> PassShape(g.members[i], ActsOf(block, g.k, g.lo + i)))
    && multiset(block) == Total(g).events
  }

  ghost predicate OpenOk(plan: seq<Item>, s: State) {
    if s.pos < |plan| && plan[s.pos].Batch? then
      GroupInv(plan[s.pos].g, s.group) && Balanced(plan[s.pos].g, s.group)
    else s.group == NO_GROUP
  }

  ghost predicate StatusOk(plan: seq<Item>, s: State) {
    match s.status
    case Running => true
    case Returned(None) => s.pos == |plan|
    case Returned(Some(err)) =>
      && s.pos < |plan| && plan[s.pos].Batch?
      && Complete(plan[s.pos].g, s.group) && s.group.errors != []
      && err == Failure(plan[s.pos].g, s.group.errors)
  }

  ghost predicate Inv(plan: seq<Item>, s: State) {
    && s.pos <= |plan| && |s.closed| == s.pos
    && (forall j :: 0 <= j < s.pos ==> BlockOk(plan[j], s.closed[j]))
    && OpenOk(plan, s) && StatusOk(plan, s)
  }

  lemma AllDrainedIsSettled(g: Group, s: GroupState)
    requires Complete(g, s) && forall i :: 0 <= i < |g.members| ==> Drained(g.members[i], s.threads[i])
    ensures Settled(g, s)
  {
  }

  lemma PassedGroupIsOk(g: Group, s: GroupState)
    requires GroupInv(g, s) && Balanced(g, s) && Complete(g, s) && s.errors == []
    ensures PassedGroup(g, s.trace)
  {
    hide Program, Acts, Owed, Total, PassShape, Drained, Balanced, Shape;
    CompleteErrors(g, s);
    forall i | 0 <= i < |g.members|
      ensures PassShape(g.members[i], ActsOf(s.trace, g.k, g.lo + i)) && Drained(g.members[i], s.threads[i])
    {
      assert MemberInv(g, s, i);
      CompletePassShape(g.members[i], s.threads[i], ActsOf(s.trace, g.k, g.lo + i));
    }
    AllDrainedIsSettled(g, s);
    SettledEvents(g, s);
  }

  lemma EnterOk(plan: seq<Item>, pos: nat)
    ensures pos < |plan| && plan[pos].Batch? ==>
      GroupInv(plan[pos].g, Enter(plan, pos)) && Balanced(plan[pos].g, Enter(plan, pos))
  {
    if pos < |plan| && plan[pos].Batch? {
      SpawnInv(plan[pos].g);
      SpawnBalanced(plan[pos].g);
    }
  }

  /** A move of a caller is possible only while the group is not complete, so the errors a
      failed group returned with never change. */
  lemma MoveAfterReturn(g: Group, s: GroupState, mv: Move)
    requires CanMove(g, s, mv) && Complete(g, s)
    ensures Complete(g, Moved(g, s, mv)) && Moved(g, s, mv).errors == s.errors
  {
    assert KindOf(EventOf(g, s, mv).act) == mv.which;
  }

  lemma StepKeepsInv(plan: seq<Item>, s: State, a: Action)
    requires Inv(plan, s) && Take(plan, s, a).Some?
    ensures Inv(plan, Take(plan, s, a).value)
  {
    hide Program, Acts, GroupInv, Balanced, PassedGroup, Complete, Moved, CanMove;
    match a
    case Go(mv) =>
      var g := plan[s.pos].g;
      MoveKeepsInv(g, s.group, mv);
      MoveKeepsBalance(g, s.group, mv);
      if s.status.Returned? && s.status.err.Some? {
        MoveAfterReturn(g, s.group, mv);
      }
    case Next =>
      EnterOk(plan, s.pos + 1);
      if s.pos < |plan| && plan[s.pos].Batch? && s.group.errors == [] {
        PassedGroupIsOk(plan[s.pos].g, s.group);
      }
  }

  lemma {:induction false} EveryScheduleKeepsInv(plan: seq<Item>, schedule: seq<Action>)
    ensures Exec(plan, schedule).Some? ==> Inv(plan, Exec(plan, schedule).value)
  {
    if schedule == [] {
      EnterOk(plan, 0);
    } else {
      var front := schedule[..|schedule| - 1];
      EveryScheduleKeepsInv(plan, front);
      var before := Exec(plan, front);
      if before.Some? && Take(plan, before.value, schedule[|schedule| - 1]).Some? {
        StepKeepsInv(plan, before.value, schedule[|schedule| - 1]);
      }
    }
  }
}
