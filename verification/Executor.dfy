/** The executor's loops. `executePipelineScriptOnAgent` and `executePipelineScriptOnController`
    are the same walk over stages, groups and steps; how a step call behaves is the oracle. */
module Executor {
  import opened Wrappers
  import opened PipelineScript
  import opened Messages
  import opened Sequences
  import opened Grouping
  import opened StepGroup
  import opened Ledgers
  import opened GroupOutcome
  import opened ScriptMachine

  /** What has been sent on a channel whose receiver takes every message. */
  class Channel<T> {
    var sent: seq<T>

    constructor ()
      ensures sent == []
    {
      sent := [];
    }

    method Send(message: T)
      modifies this
      ensures sent == old(sent) + [message]
    {
      sent := sent + [message];
    }
  }

  /** The machine is in the middle of group g, which it entered in state `from`. */
  ghost predicate Going(plan: seq<Item>, schedule: seq<Action>, from: State, g: Group, group: GroupState) {
    && from.status.Running? && from.pos < |plan| && plan[from.pos] == Batch(g)
    && Exec(plan, schedule) == Some(from.(group := group))
    && GroupInv(g, group) && Balanced(g, group)
  }

  lemma GoOn(plan: seq<Item>, schedule: seq<Action>, from: State, g: Group, group: GroupState, mv: Move)
    requires Going(plan, schedule, from, g, group) && CanMove(g, group, mv)
    ensures Going(plan, schedule + [Go(mv)], from, g, Moved(g, group, mv))
    ensures |Owed(g, Moved(g, group, mv)).events| < |Owed(g, group).events|
  {
    hide GroupInv, Balanced, Owed, CanMove, Moved;
    MoveKeepsInv(g, group, mv);
    MoveKeepsBalance(g, group, mv);
    ExecSnoc(plan, schedule, Go(mv));
  }

  lemma CanGoOn(plan: seq<Item>, schedule: seq<Action>, from: State, g: Group, group: GroupState)
    requires Going(plan, schedule, from, g, group) && !Complete(g, group)
    ensures exists i, which :: 0 <= i < |g.members| && CanMove(g, group, Move(i, which))
  {
    hide CanMove, Balanced, Exec;
    if Settled(g, group) {
      SettledIsComplete(g, group);
    } else {
      var mv := UnsettledCanMove(g, group);
      MoveIsOfMember(g, group, mv);
      assert mv == Move(mv.i, mv.which);
    }
  }

  lemma MoveIsOfMember(g: Group, group: GroupState, mv: Move)
    ensures CanMove(g, group, mv) ==> mv.i < |g.members|
  {
  }

  /** The goroutines of one group, from spawning them to the end of the wait: as long as one has
      not finished, any thread that can move may be the next to do so. */
  method RunGoroutines(g: Group, out: Channel<Event>,
                       ghost plan: seq<Item>, ghost before: seq<Action>, ghost from: State)
    returns (errors: seq<StepError>, group: GroupState, ghost schedule: seq<Action>)
    requires Going(plan, before, from, g, Spawn(g))
    modifies out
    ensures Going(plan, schedule, from, g, group) && Complete(g, group) && errors == group.errors
    ensures out.sent == old(out.sent) + group.trace
  {
    hide Going, Owed, Complete, CanMove, EventOf;
    var now := Spawn(g);
    schedule := before;
    while !Complete(g, now)
      invariant Going(plan, schedule, from, g, now) && |now.threads| == |g.members|
      invariant out.sent == old(out.sent) + now.trace
      decreases |Owed(g, now).events|
    {
      CanGoOn(plan, schedule, from, g, now);
      var i, which :| 0 <= i < |g.members| && CanMove(g, now, Move(i, which));
      GoOn(plan, schedule, from, g, now, Move(i, which));
      schedule := schedule + [Go(Move(i, which))];
      out.Send(EventOf(g, now, Move(i, which)));
      now := Moved(g, now, Move(i, which));
    }
    group, errors := now, now.errors;
  }

  /** The machine stands before `rest`, having entered its first item and sent `sent` so far. */
  ghost predicate Standing(plan: seq<Item>, schedule: seq<Action>, s: State, rest: seq<Item>, sent: seq<Event>) {
    && Exec(plan, schedule) == Some(s) && s.status.Running? && s.pos <= |plan|
    && plan[s.pos..] == rest && s.group == Enter(plan, s.pos) && sent == Flatten(s.closed)
  }

  lemma NextItem(plan: seq<Item>, pos: nat, item: Item, rest: seq<Item>)
    requires pos <= |plan| && plan[pos..] == [item] + rest
    ensures pos < |plan| && plan[pos] == item && plan[pos + 1..] == rest
  {
    assert plan[pos..][0] == item;
    assert plan[pos + 1..] == plan[pos..][1..];
  }

  lemma PastAnnouncement(plan: seq<Item>, schedule: seq<Action>, s: State,
                         item: Item, rest: seq<Item>, sent: seq<Event>)
    returns (s': State)
    requires Standing(plan, schedule, s, [item] + rest, sent) && !item.Batch?
    ensures Standing(plan, schedule + [Next], s', rest, sent + Announce(item))
  {
    NextItem(plan, s.pos, item, rest);
    ExecSnoc(plan, schedule, Next);
    FlattenSnoc(s.closed, Announce(item));
    s' := Exec(plan, schedule + [Next]).value;
  }

  lemma IntoGroup(plan: seq<Item>, schedule: seq<Action>, s: State, g: Group, rest: seq<Item>, sent: seq<Event>)
    requires Standing(plan, schedule, s, [Batch(g)] + rest, sent)
    ensures Going(plan, schedule, s, g, Spawn(g))
  {
    NextItem(plan, s.pos, Batch(g), rest);
    SpawnInv(g);
    SpawnBalanced(g);
  }

  /** The executor has returned with an error, from group g, whose scanners may still deliver. */
  ghost predicate Stopped(plan: seq<Item>, schedule: seq<Action>, s: State, g: Group, group: GroupState) {
    && Exec(plan, schedule) == Some(s) && s.status.Returned? && s.status.err.Some?
    && s.pos < |plan| && plan[s.pos] == Batch(g) && s.group == group
  }

  lemma PastGroup(plan: seq<Item>, before: seq<Action>, from: State, schedule: seq<Action>,
                  g: Group, group: GroupState, rest: seq<Item>, sent: seq<Event>)
    returns (s: State)
    requires Standing(plan, before, from, [Batch(g)] + rest, sent)
    requires Going(plan, schedule, from, g, group) && Complete(g, group)
    ensures Exec(plan, schedule + [Next]) == Some(s)
    ensures group.errors == [] ==> Standing(plan, schedule + [Next], s, rest, sent + group.trace)
    ensures group.errors != [] ==>
      && Stopped(plan, schedule + [Next], s, g, group)
      && s.status == Returned(Some(Failure(g, group.errors))) && Trace(s) == sent + group.trace
  {
    hide GroupInv, Balanced, Complete;
    NextItem(plan, from.pos, Batch(g), rest);
    ExecSnoc(plan, schedule, Next);
    FlattenSnoc(from.closed, group.trace);
    s := Exec(plan, schedule + [Next]).value;
  }

  lemma AtTheEnd(plan: seq<Item>, schedule: seq<Action>, s: State, sent: seq<Event>)
    returns (s': State)
    requires Standing(plan, schedule, s, [], sent)
    ensures Exec(plan, schedule + [Next]) == Some(s') && s'.status == Returned(None) && Trace(s') == sent
  {
    ExecSnoc(plan, schedule, Next);
    FlattenSnoc(s.closed, s.group.trace);
    s' := Exec(plan, schedule + [Next]).value;
  }

  function StageRest(stages: seq<Stage>, oracle: Oracle, k: nat, lo: nat): seq<Item>
    requires k < |stages| && lo <= |stages[k].steps|
  {
    Batches(stages[k].steps, oracle, k, lo) + ([Tail(k, stages[k].stage)] + PlanFrom(stages, oracle, k + 1))
  }

  lemma StageItems(stages: seq<Stage>, oracle: Oracle, k: nat)
    requires k < |stages|
    ensures PlanFrom(stages, oracle, k) == [Head(k, stages[k].stage)] + StageRest(stages, oracle, k, 0)
  {
  }

  lemma NextGroup(stages: seq<Stage>, oracle: Oracle, k: nat, lo: nat)
    requires k < |stages| && lo < |stages[k].steps|
    ensures StageRest(stages, oracle, k, lo)
         == [Batch(GroupAt(stages[k].steps, oracle, k, lo))]
          + StageRest(stages, oracle, k, SpanEnd(stages[k].steps, lo))
  {
  }

  lemma StageDone(stages: seq<Stage>, oracle: Oracle, k: nat)
    requires k < |stages|
    ensures StageRest(stages, oracle, k, |stages[k].steps|)
         == [Tail(k, stages[k].stage)] + PlanFrom(stages, oracle, k + 1)
  {
  }

  /** The steps that run next: the parallel run that starts here, or a single step. */
  method NextMembers(steps: seq<Step>, oracle: Oracle, k: nat, lo: nat) returns (batch: seq<Member>, si: nat)
    requires lo < |steps|
    ensures si == SpanEnd(steps, lo) && batch == Members(steps, oracle, k, lo, si)
  {
    var cur := steps[lo];
    batch, si := [Member(cur, oracle(k, lo))], lo + 1;
    if cur.parallel {
      while si < |steps| && steps[si].parallel
        invariant lo < si <= |steps|
        invariant batch == Members(steps, oracle, k, lo, si)
        invariant ParallelEnd(steps, lo + 1) == ParallelEnd(steps, si)
      {
        batch := batch + [Member(steps[si], oracle(k, si))];
        si := si + 1;
      }
    }
  }

  /** The executor, over a whole script. Its sends are the trace of a schedule of the machine,
      and its result is the one that schedule ends with. */
  method ExecutePipelineScript(stages: seq<Stage>, oracle: Oracle, out: Channel<Event>)
    returns (err: Option<RunError>, g: Group, group: GroupState, ghost schedule: seq<Action>, ghost s: State)
    modifies out
    ensures err.Some? ==> Stopped(Plan(stages, oracle), schedule, s, g, group)
    ensures Exec(Plan(stages, oracle), schedule) == Some(s) && s.status == Returned(err)
    ensures out.sent == old(out.sent) + Trace(s)
  {
    hide Standing, Going, PlanFrom, StageRest, Trace, Exec, Complete;
    g, group := Group(0, 0, [], false), NO_GROUP;
    ghost var plan := Plan(stages, oracle);
    ghost var sent: seq<Event> := [];
    schedule, s := [], Init(plan);
    StartsStanding(stages, oracle);
    var k := 0;
    while k < |stages|
      invariant k <= |stages|
      invariant Standing(plan, schedule, s, PlanFrom(stages, oracle, k), sent)
      invariant out.sent == old(out.sent) + sent
    {
      var steps := stages[k].steps;
      StageItems(stages, oracle, k);
      s := PastAnnouncement(plan, schedule, s, Head(k, stages[k].stage), StageRest(stages, oracle, k, 0), sent);
      out.Send(Main(k, StageStarted(stages[k].stage)));
      schedule, sent := schedule + [Next], sent + [Main(k, StageStarted(stages[k].stage))];
      var si := 0;
      while si < |steps|
        invariant si <= |steps|
        invariant Standing(plan, schedule, s, StageRest(stages, oracle, k, si), sent)
        invariant out.sent == old(out.sent) + sent
        decreases |steps| - si
      {
        var lo := si;
        var batch;
        batch, si := NextMembers(steps, oracle, k, lo);
        g := Group(k, lo, batch, steps[lo].parallel);
        NextGroup(stages, oracle, k, lo);
        IntoGroup(plan, schedule, s, g, StageRest(stages, oracle, k, si), sent);
        var errors;
        ghost var moves;
        errors, group, moves := RunGoroutines(g, out, plan, schedule, s);
        s := PastGroup(plan, schedule, s, moves, g, group, StageRest(stages, oracle, k, si), sent);
        schedule := moves + [Next];
        if |errors| > 0 {
          err := Some(if g.parallel then Joined(errors) else Bare(errors[0]));
          return;
        }
        sent := sent + group.trace;
      }
      StageDone(stages, oracle, k);
      s := PastAnnouncement(plan, schedule, s, Tail(k, stages[k].stage), PlanFrom(stages, oracle, k + 1), sent);
      out.Send(Main(k, StagePassed(stages[k].stage)));
      schedule, sent := schedule + [Next], sent + [Main(k, StagePassed(stages[k].stage))];
      k := k + 1;
    }
    NothingLeft(stages, oracle);
    s := AtTheEnd(plan, schedule, s, sent);
    schedule := schedule + [Next];
    err := None;
  }

  lemma LateMove(plan: seq<Item>, schedule: seq<Action>, s: State, g: Group, group: GroupState, mv: Move)
    requires Stopped(plan, schedule, s, g, group) && CanMove(g, group, mv)
    ensures var t := s.(group := Moved(g, group, mv));
      && Stopped(plan, schedule + [Go(mv)], t, g, Moved(g, group, mv))
      && Trace(t) == Trace(s) + [EventOf(g, group, mv)]
  {
    hide Moved, CanMove, EventOf;
    ExecSnoc(plan, schedule, Go(mv));
    var t := s.(group := Moved(g, group, mv));
    MovedTrace(g, group, mv);
    GrownTrace(s, t, [EventOf(g, group, mv)]);
  }

  lemma MovedTrace(g: Group, group: GroupState, mv: Move)
    requires CanMove(g, group, mv)
    ensures Moved(g, group, mv).trace == group.trace + [EventOf(g, group, mv)]
  {
  }

  lemma StoppedCanMove(plan: seq<Item>, schedule: seq<Action>, s: State, g: Group, group: GroupState)
    requires Stopped(plan, schedule, s, g, group) && !Settled(g, group)
    ensures exists i, which :: 0 <= i < |g.members| && CanMove(g, group, Move(i, which))
  {
    hide CanMove, Balanced, Exec, GroupInv, Settled;
    EveryScheduleKeepsInv(plan, schedule);
    var mv := UnsettledCanMove(g, group);
    MoveIsOfMember(g, group, mv);
    assert mv == Move(mv.i, mv.which);
  }

  /** The scanners that a failed group has left behind, while the worker records the failure: they
      deliver some number of lines, at most all that are left, in any order. */
  method LateScanners(g: Group, group: GroupState, lines: nat, out: Channel<Event>,
                      ghost plan: seq<Item>, ghost schedule: seq<Action>, ghost s: State)
    returns (now: GroupState, ghost moves: seq<Action>, ghost t: State)
    requires Stopped(plan, schedule, s, g, group)
    modifies out
    ensures Stopped(plan, schedule + moves, t, g, now) && t.status == s.status
    ensures Trace(s) <= Trace(t) && out.sent == old(out.sent) + Trace(t)[|Trace(s)|..]
  {
    hide Stopped, CanMove, EventOf, Settled, Trace;
    now, moves, t := group, [], s;
    assert schedule + [] == schedule;
    ghost var late: seq<Event> := [];
    var i := 0;
    while i < lines && !Settled(g, now)
      invariant Stopped(plan, schedule + moves, t, g, now) && t.status == s.status
      invariant Trace(t) == Trace(s) + late && out.sent == old(out.sent) + late
    {
      StoppedCanMove(plan, schedule + moves, t, g, now);
      var j, which :| 0 <= j < |g.members| && CanMove(g, now, Move(j, which));
      var mv := Move(j, which);
      LateMove(plan, schedule + moves, t, g, now, mv);
      assert schedule + moves + [Go(mv)] == schedule + (moves + [Go(mv)]);
      out.Send(EventOf(g, now, mv));
      moves, t, late := moves + [Go(mv)], t.(group := Moved(g, now, mv)), late + [EventOf(g, now, mv)];
      now := Moved(g, now, mv);
      i := i + 1;
    }
  }

  lemma StartsStanding(stages: seq<Stage>, oracle: Oracle)
    ensures Standing(Plan(stages, oracle), [], Init(Plan(stages, oracle)), PlanFrom(stages, oracle, 0), [])
  {
  }

  lemma NothingLeft(stages: seq<Stage>, oracle: Oracle)
    ensures PlanFrom(stages, oracle, |stages|) == []
  {
  }
}
