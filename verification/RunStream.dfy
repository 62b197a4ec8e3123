/** The messages of one run, from the first to the last: what a passed run sends, and what a failed
    one does, whose scanners may go on after the executor has returned. */
module RunStream {
  import opened Wrappers
  import opened PipelineScript
  import opened Sequences
  import opened Grouping
  import opened Messages
  import opened StepGroup
  import opened GroupOutcome
  import opened ScriptMachine
  import opened PlanOrder
  import opened ScriptTheorems
  import opened RunQueue

  /** A line of one of the steps of a group. */
  ghost predicate IsLineOf(g: Group, e: Event) {
    FromGroup(g, e) && (e.act.OutLine? || e.act.ErrLine?)
  }

  /** t is s after some more lines of the group at which the executor gave up. */
  ghost predicate Later(plan: seq<Item>, s: State, t: State, lines: seq<Event>) {
    && t == s.(group := t.group) && t.group.trace == s.group.trace + lines
    && (lines != [] ==> s.pos < |plan| && plan[s.pos].Batch?)
    && forall e <- lines :: s.pos < |plan| && plan[s.pos].Batch? && IsLineOf(plan[s.pos].g, e)
  }

  lemma CallersAreThrough(g: Group, s: GroupState, mv: Move)
    requires Complete(g, s) && CanMove(g, s, mv)
    ensures IsLineOf(g, EventOf(g, s, mv))
  {
    assert KindOf(EventOf(g, s, mv).act) == mv.which;
  }

  lemma OneMoreLine(plan: seq<Item>, s: State, a: Action)
    requires Inv(plan, s) && s.status.Returned? && Take(plan, s, a).Some?
    ensures var t := Take(plan, s, a).value;
      exists e :: t == s.(group := t.group) && t.group.trace == s.group.trace + [e]
        && s.pos < |plan| && plan[s.pos].Batch? && IsLineOf(plan[s.pos].g, e)
  {
    hide CanMove, Complete, IsLineOf, EventOf;
    var g, mv := plan[s.pos].g, a.mv;
    CallersAreThrough(g, s.group, mv);
    assert Take(plan, s, a).value.group.trace == s.group.trace + [EventOf(g, s.group, mv)];
  }

  lemma LaterSnoc(plan: seq<Item>, s: State, t: State, lines: seq<Event>, u: State, e: Event)
    requires Later(plan, s, t, lines) && u == t.(group := u.group) && u.group.trace == t.group.trace + [e]
    requires s.pos < |plan| && plan[s.pos].Batch? && IsLineOf(plan[s.pos].g, e)
    ensures Later(plan, s, u, lines + [e])
  {
  }

  /** Once the executor has returned, every schedule only goes on with lines of the last group. */
  lemma {:induction false} AfterReturn(plan: seq<Item>, a: seq<Action>, b: seq<Action>) returns (lines: seq<Event>)
    requires Exec(plan, a).Some? && Exec(plan, a).value.status.Returned? && Exec(plan, a + b).Some?
    ensures Later(plan, Exec(plan, a).value, Exec(plan, a + b).value, lines)
    ensures Trace(Exec(plan, a + b).value) == Trace(Exec(plan, a).value) + lines
  {
    hide Later, Take, IsLineOf, Inv;
    var s := Exec(plan, a).value;
    if b == [] {
      assert a + b == a;
      lines := [];
      assert Later(plan, s, s, []) by { NothingLater(plan, s); }
    } else {
      var n := |b| - 1;
      assert (a + b)[..|a + b| - 1] == a + b[..n];
      lines := AfterReturn(plan, a, b[..n]);
      var t, u := Exec(plan, a + b[..n]).value, Exec(plan, a + b).value;
      EveryScheduleKeepsInv(plan, a + b[..n]);
      assert t.status == s.status && t.pos == s.pos by { SamePlace(plan, s, t, lines); }
      OneMoreLine(plan, t, b[n]);
      var e :| u == t.(group := u.group) && u.group.trace == t.group.trace + [e]
        && t.pos < |plan| && plan[t.pos].Batch? && IsLineOf(plan[t.pos].g, e);
      LaterSnoc(plan, s, t, lines, u, e);
      lines := lines + [e];
    }
    LaterTrace(plan, s, Exec(plan, a + b).value, lines);
  }

  lemma NothingLater(plan: seq<Item>, s: State)
    ensures Later(plan, s, s, [])
  {
  }

  lemma SamePlace(plan: seq<Item>, s: State, t: State, lines: seq<Event>)
    requires Later(plan, s, t, lines)
    ensures t.status == s.status && t.pos == s.pos
  {
  }

  lemma LaterTrace(plan: seq<Item>, s: State, t: State, lines: seq<Event>)
    requires Later(plan, s, t, lines)
    ensures Trace(t) == Trace(s) + lines
  {
    GrownTrace(s, t, lines);
  }

  /** A line of a step of the group of stage k that starts at step lo. */
  ghost predicate IsLineFrom(stages: seq<Stage>, k: nat, lo: nat, e: Event)
    requires IsStep(stages, k, lo)
  {
    e.OfStep? && e.k == k && lo <= e.i < SpanEnd(stages[k].steps, lo) && (e.act.OutLine? || e.act.ErrLine?)
  }

  /** A run that passes sends its setup messages, the trace of a schedule that returns nil, and the
      PASS banner, and nothing else. */
  lemma PassedStream(env: RunEnv, present: bool, script: Script, scriptErr: Option<RunError>)
    requires Executes(env, present, script, scriptErr) && ProcessResult(env, present, scriptErr).None?
    ensures var plan, s := Plan(env.stages, env.oracle), StateOf(env, script.schedule);
      && Sent(env, present, script, scriptErr) == SetupMessages(env, present) + Trace(s) + [Own(PassBanner)]
      && Sent(env, present, script, scriptErr) == Signalled(env, present, script, scriptErr)
      && exists blocks :: FollowsPlan(plan, blocks) && Trace(s) == Flatten(blocks)
  {
    hide Exec, Trace, SetupMessages, Plan, FollowsPlan;
    PassedRunTrace(env.stages, env.oracle, script.schedule, StateOf(env, script.schedule));
    var worked := Worked(env, present, script);
    assert worked + [] == worked && worked + [] + [] == worked;
  }

  /** The stream of a failed run: its setup messages, the trace of a schedule, and the FAIL banner,
      which stands anywhere among the lines that the group it stopped at delivers late. */
  lemma FailedStream(env: RunEnv, present: bool, script: Script, scriptErr: Option<RunError>)
    requires Executes(env, present, script, scriptErr) && scriptErr.Some?
    ensures var before, after := LinesBefore(env, present, script), LinesAfter(env, present, script);
      var s, t := StateOf(env, script.schedule), StateOf(env, script.schedule + script.before + script.after);
      && Sent(env, present, script, scriptErr)
           == SetupMessages(env, present) + Trace(s) + before + [Own(FailBanner)] + after
      && Trace(t) == Trace(s) + before + after
      && exists k: nat, lo: nat :: IsStep(env.stages, k, lo) && StoppedAt(env.stages, env.oracle, Trace(s), k, lo)
           && forall e <- before + after :: IsLineFrom(env.stages, k, lo, e)
  {
    hide Exec, Trace, SetupMessages, StoppedAt, IsLineFrom;
    var plan, s := Plan(env.stages, env.oracle), StateOf(env, script.schedule);
    assert script.schedule + (script.before + script.after) == script.schedule + script.before + script.after;
    var first := AfterReturn(plan, script.schedule, script.before + script.after);
    var early := AfterReturn(plan, script.schedule, script.before);
    SamePlace(plan, s, StateOf(env, script.schedule + script.before), early);
    var late := AfterReturn(plan, script.schedule + script.before, script.after);
    assert LinesBefore(env, present, script) == early && LinesAfter(env, present, script) == late;
    StoppingPlace(env.stages, env.oracle, script.schedule, s);
    var g := plan[s.pos].g;
    forall e | e in early + late
      ensures IsLineFrom(env.stages, g.k, g.lo, e)
    {
      assert Trace(s) + first == Trace(s) + early + late;
      assert first == early + late;
      LineOfStop(env.stages, env.oracle, s, StateOf(env, script.schedule + script.before + script.after), first, e);
    }
    StreamParts(SetupMessages(env, present), Trace(s), early, late);
  }

  lemma StoppingPlace(stages: seq<Stage>, oracle: Oracle, schedule: seq<Action>, s: State)
    requires Reaches(stages, oracle, schedule, s) && s.status.Returned? && s.status.err.Some?
    ensures var plan := Plan(stages, oracle);
      s.pos < |plan| && plan[s.pos].Batch? && ItemOk(stages, oracle, plan[s.pos])
    ensures var g := Plan(stages, oracle)[s.pos].g;
      IsStep(stages, g.k, g.lo) && StoppedAt(stages, oracle, Trace(s), g.k, g.lo)
  {
    hide PlanFrom, Exec, Trace, StoppedAt;
    EveryScheduleKeepsInv(Plan(stages, oracle), schedule);
    PlanFollowsTheScript(stages, oracle, 0);
    FailedRunStopsAt(stages, oracle, s);
  }

  lemma LineOfStop(stages: seq<Stage>, oracle: Oracle, s: State, t: State, lines: seq<Event>, e: Event)
    requires Later(Plan(stages, oracle), s, t, lines) && e in lines
    requires var plan := Plan(stages, oracle);
      s.pos < |plan| && plan[s.pos].Batch? && ItemOk(stages, oracle, plan[s.pos])
    ensures var g := Plan(stages, oracle)[s.pos].g;
      IsStep(stages, g.k, g.lo) && IsLineFrom(stages, g.k, g.lo, e)
  {
  }

  lemma StreamParts(setup: seq<Event>, trace: seq<Event>, early: seq<Event>, late: seq<Event>)
    ensures setup + (trace + []) + (early + [Own(FailBanner)]) + late
         == setup + trace + early + [Own(FailBanner)] + late
  {
  }

  /** A run that fails although its script has passed sends both banners, one after the other. */
  lemma UnrecordedStream(env: RunEnv, present: bool, script: Script, scriptErr: Option<RunError>)
    requires Executes(env, present, script, scriptErr) && SetupFailure(env, present).None? && scriptErr.None?
    requires ProcessResult(env, present, scriptErr).Some?
    ensures var s := StateOf(env, script.schedule);
      && s.status == Returned(None) && EveryStepPasses(env.stages, env.oracle)
      && Sent(env, present, script, scriptErr)
           == SetupMessages(env, present) + Trace(s) + [Own(PassBanner), Own(FailBanner)]
  {
    hide Exec, Trace, SetupMessages, Plan, EveryStepPasses;
    FailStop(env.stages, env.oracle, script.schedule, StateOf(env, script.schedule));
    NothingAfterPassing(env, present, script);
    var setup, trace := SetupMessages(env, present), Trace(StateOf(env, script.schedule));
    assert setup + (trace + [Own(PassBanner)]) + ([] + [Own(FailBanner)]) + []
        == setup + trace + [Own(PassBanner), Own(FailBanner)];
  }

  lemma NothingAfterPassing(env: RunEnv, present: bool, script: Script)
    requires Executes(env, present, script, None) && SetupFailure(env, present).None?
    ensures LinesBefore(env, present, script) == [] && LinesAfter(env, present, script) == []
  {
    hide Exec, Trace, Inv, Plan;
    var plan, s := Plan(env.stages, env.oracle), StateOf(env, script.schedule);
    EveryScheduleKeepsInv(plan, script.schedule);
    PassedIsAtTheEnd(plan, s);
    var early := AfterReturn(plan, script.schedule, script.before);
    var late := AfterReturn(plan, script.schedule + script.before, script.after);
  }

  lemma PassedIsAtTheEnd(plan: seq<Item>, s: State)
    requires Inv(plan, s) && s.status == Returned(None)
    ensures s.pos == |plan|
  {
  }

  /** A run that does not get to its script sends its setup messages and the FAIL banner. */
  lemma SetupFailureStream(env: RunEnv, present: bool, script: Script, scriptErr: Option<RunError>)
    requires SetupFailure(env, present).Some?
    ensures Sent(env, present, script, scriptErr) == SetupMessages(env, present) + [Own(FailBanner)]
  {
    hide SetupMessages;
    var setup := SetupMessages(env, present);
    assert setup + [] + ([] + [Own(FailBanner)]) + [] == setup + [Own(FailBanner)];
  }
}
