/** When the FAIL banner is the last message of a run whose script fails: exactly when the steps that
    failed had nothing to say. */
module LastBanner {
  import opened Wrappers
  import opened PipelineScript
  import opened Grouping
  import opened Messages
  import opened StepGroup
  import opened GroupOutcome
  import opened ScriptMachine
  import opened PlanOrder
  import opened ScriptTheorems
  import opened RunQueue
  import opened RunStream

  /** The command of a step prints nothing that is scanned. */
  predicate IsSilent(oracle: Oracle, k: nat, i: nat) {
    oracle(k, i).stdout == [] && oracle(k, i).stderr == []
  }

  /** Every failing step of the group of stage k that starts at lo is silent. */
  ghost predicate SilentFailures(stages: seq<Stage>, oracle: Oracle, k: nat, lo: nat)
    requires IsStep(stages, k, lo)
  {
    forall i | lo <= i < SpanEnd(stages[k].steps, lo) && !Passes(oracle, k, i) :: IsSilent(oracle, k, i)
  }

  /** Where a script stops is where each of its executions stops. */
  lemma StoppedRun(stages: seq<Stage>, oracle: Oracle, schedule: seq<Action>, s: State, k: nat, lo: nat)
    returns (item: Item)
    requires Reaches(stages, oracle, schedule, s) && s.status.Returned?
    requires IsStep(stages, k, lo) && StopsAt(stages, oracle, k, lo)
    ensures Inv(Plan(stages, oracle), s) && s.status.err.Some?
    ensures s.pos < |Plan(stages, oracle)| && item == Plan(stages, oracle)[s.pos] && item.Batch?
    ensures ItemOk(stages, oracle, item) && GroupInv(item.g, s.group) && Complete(item.g, s.group)
    ensures item.g.k == k && item.g.lo == lo
  {
    var i :| lo <= i < SpanEnd(stages[k].steps, lo) && !Passes(oracle, k, i);
    assert IsStep(stages, k, i);
    hide StopsAt, Inv, GroupInv, Complete, AllPass, Exec, PlanFrom, Passes;
    EveryScheduleKeepsInv(Plan(stages, oracle), schedule);
    FailStop(stages, oracle, schedule, s);
    item := FailedItem(stages, oracle, s);
    FirstFailure(stages, oracle, s);
    StopIsUnique(stages, oracle, k, lo, item.g.k, item.g.lo);
  }

  /* ---------- silent failures: nothing can follow ---------- */

  lemma DoneMember(m: Member, t: Thread, acts: seq<Act>)
    requires Shape(m, t, acts) && t.at == |Program(m)|
    requires !m.behaviour.outcome.Pass? ==> m.behaviour.stdout == [] && m.behaviour.stderr == []
    ensures Drained(m, t)
  {
    if m.behaviour.outcome.Pass? {
      CompletePassShape(m, t, acts);
    } else {
      assert t.Progress(Stdout) <= |Acts(m, Stdout)| && t.Progress(Stderr) <= |Acts(m, Stderr)|;
    }
  }

  lemma SilentMember(stages: seq<Stage>, oracle: Oracle, item: Item, s: GroupState, i: nat)
    requires item.Batch? && ItemOk(stages, oracle, item) && GroupInv(item.g, s) && Complete(item.g, s)
    requires IsStep(stages, item.g.k, item.g.lo) && SilentFailures(stages, oracle, item.g.k, item.g.lo)
    requires i < |item.g.members|
    ensures Drained(item.g.members[i], s.threads[i])
  {
    MemberIsInShape(item.g, s, i);
    MemberIsSilent(stages, oracle, item, i);
    hide ItemOk, SilentFailures, Shape, GroupInv, Drained, Program, ActsOf;
    DoneMember(item.g.members[i], s.threads[i], ActsOf(s.trace, item.g.k, item.g.lo + i));
  }

  lemma MemberIsSilent(stages: seq<Stage>, oracle: Oracle, item: Item, i: nat)
    requires item.Batch? && ItemOk(stages, oracle, item) && i < |item.g.members|
    requires IsStep(stages, item.g.k, item.g.lo) && SilentFailures(stages, oracle, item.g.k, item.g.lo)
    ensures var b := item.g.members[i].behaviour; !b.outcome.Pass? ==> b.stdout == [] && b.stderr == []
  {
    var k, lo := item.g.k, item.g.lo;
    assert item.g.members[i].behaviour == oracle(k, lo + i);
    assert !Passes(oracle, k, lo + i) ==> IsSilent(oracle, k, lo + i);
  }

  lemma SilentStop(stages: seq<Stage>, oracle: Oracle, schedule: seq<Action>, s: State, k: nat, lo: nat)
    requires Reaches(stages, oracle, schedule, s) && s.status.Returned?
    requires IsStep(stages, k, lo) && StopsAt(stages, oracle, k, lo) && SilentFailures(stages, oracle, k, lo)
    ensures Inv(Plan(stages, oracle), s) && Quiet(Plan(stages, oracle), s)
  {
    hide StopsAt, Inv, GroupInv, Exec, PlanFrom, Program, Drained, Settled, Reaches, ItemOk, SilentFailures;
    var item := StoppedRun(stages, oracle, schedule, s, k, lo);
    forall i | 0 <= i < |item.g.members|
      ensures Drained(item.g.members[i], s.group.threads[i])
    {
      SilentMember(stages, oracle, item, s.group, i);
    }
    AllDrainedIsSettled(item.g, s.group);
  }

  lemma {:induction false} QuietIsFinal(plan: seq<Item>, a: seq<Action>, b: seq<Action>)
    requires Exec(plan, a).Some? && Exec(plan, a + b).Some?
    requires var s := Exec(plan, a).value; Inv(plan, s) && s.status.Returned? && Quiet(plan, s)
    ensures b == []
  {
    hide Take, Inv, Quiet;
    if b != [] {
      var n := |b| - 1;
      assert (a + b)[..|a + b| - 1] == a + b[..n];
      QuietIsFinal(plan, a, b[..n]);
      assert a + b[..n] == a;
      NothingAfterTheEnd(plan, Exec(plan, a).value, b[n]);
    }
  }

  lemma NothingIsLate(env: RunEnv, present: bool, script: Script, scriptErr: Option<RunError>, k: nat, lo: nat)
    requires Executes(env, present, script, scriptErr) && SetupFailure(env, present).None?
    requires IsStep(env.stages, k, lo) && StopsAt(env.stages, env.oracle, k, lo)
    requires SilentFailures(env.stages, env.oracle, k, lo)
    ensures LinesAfter(env, present, script) == []
  {
    hide Exec, Trace, Inv, Quiet, Plan, StopsAt, SilentFailures;
    var plan, s := Plan(env.stages, env.oracle), StateOf(env, script.schedule);
    SilentStop(env.stages, env.oracle, script.schedule, s, k, lo);
    assert script.schedule + script.before + script.after == script.schedule + (script.before + script.after);
    QuietIsFinal(plan, script.schedule, script.before + script.after);
    assert script.before == [] && script.after == [];
    assert script.schedule + [] == script.schedule && script.schedule + [] + [] == script.schedule;
  }

  /* ---------- a failure with something to say: a schedule that keeps it back ---------- */

  /** No scanner of a failing step of the group in progress has moved. */
  ghost predicate Held(g: Group, s: GroupState) {
    && |s.threads| == |g.members|
    && forall i :: 0 <= i < |g.members| && !g.members[i].behaviour.outcome.Pass? ==>
         s.threads[i].out == 0 && s.threads[i].err == 0
  }

  ghost predicate AllHeld(plan: seq<Item>, s: State) {
    s.pos < |plan| && plan[s.pos].Batch? ==> Held(plan[s.pos].g, s.group)
  }

  lemma FailingCaller(m: Member, t: Thread)
    requires t.at < |Program(m)| && !m.behaviour.outcome.Pass?
    ensures Ready(m, t, Caller)
  {
  }

  lemma PassingThread(m: Member, t: Thread, acts: seq<Act>) returns (which: Which)
    requires Shape(m, t, acts) && t.at < |Program(m)| && m.behaviour.outcome.Pass?
    ensures Ready(m, t, which)
  {
    hide OrderShape, Pick;
    assert t.Progress(Stdout) <= |Acts(m, Stdout)| && t.Progress(Stderr) <= |Acts(m, Stderr)|;
    if t.at == 2 && !Drained(m, t) {
      which := if t.out < |m.behaviour.stdout| then Stdout else Stderr;
    } else {
      which := Caller;
    }
  }

  /** A group that is not complete can go on without a scanner of a failing step. */
  lemma HeldMove(g: Group, s: GroupState) returns (mv: Move)
    requires GroupInv(g, s) && !Complete(g, s)
    ensures CanMove(g, s, mv)
    ensures !g.members[mv.i].behaviour.outcome.Pass? ==> mv.which == Caller
  {
    hide Program, Ready, Shape;
    var i: nat :| i < |g.members| && s.threads[i].at != |Program(g.members[i])|;
    MemberIsInShape(g, s, i);
    var m, t, acts := g.members[i], s.threads[i], ActsOf(s.trace, g.k, g.lo + i);
    assert t.at < |Program(m)| by { CallerIsBounded(m, t, acts); }
    if m.behaviour.outcome.Pass? {
      var which := PassingThread(m, t, acts);
      mv := Move(i, which);
    } else {
      FailingCaller(m, t);
      mv := Move(i, Caller);
    }
  }

  lemma CallerIsBounded(m: Member, t: Thread, acts: seq<Act>)
    requires Shape(m, t, acts)
    ensures t.at <= |Program(m)|
  {
    hide ThreadShape;
  }

  lemma MoveKeepsHeld(g: Group, s: GroupState, mv: Move)
    requires Held(g, s) && CanMove(g, s, mv) && (!g.members[mv.i].behaviour.outcome.Pass? ==> mv.which == Caller)
    ensures Held(g, Moved(g, s, mv))
  {
    hide Program, Acts;
  }

  lemma HeldStep(plan: seq<Item>, s: State) returns (a: Action)
    requires Inv(plan, s) && s.status.Running? && AllHeld(plan, s)
    ensures Take(plan, s, a).Some? && AllHeld(plan, Take(plan, s, a).value)
  {
    hide GroupInv, Balanced, CanMove, Moved, BlockOk, Complete;
    if s.pos < |plan| && plan[s.pos].Batch? && !Complete(plan[s.pos].g, s.group) {
      var mv := HeldMove(plan[s.pos].g, s.group);
      MoveKeepsHeld(plan[s.pos].g, s.group, mv);
      a := Go(mv);
    } else {
      a := Next;
    }
  }

  lemma {:induction false} HeldReturn(stages: seq<Stage>, oracle: Oracle, schedule: seq<Action>)
    returns (full: seq<Action>)
    requires var plan := Plan(stages, oracle);
      Exec(plan, schedule).Some? && AllHeld(plan, Exec(plan, schedule).value)
    ensures var plan := Plan(stages, oracle);
      Exec(plan, full).Some? && Exec(plan, full).value.status.Returned? && AllHeld(plan, Exec(plan, full).value)
    decreases Work(Plan(stages, oracle), |Plan(stages, oracle)|) + 1 - |schedule|
  {
    hide Exec, PlanFrom, Inv, Take, Work, AllHeld;
    var plan := Plan(stages, oracle);
    var s := Exec(plan, schedule).value;
    if s.status.Returned? {
      full := schedule;
    } else {
      EveryScheduleKeepsInv(plan, schedule);
      var a := HeldStep(plan, s);
      ExecSnoc(plan, schedule, a);
      EveryScheduleEnds(stages, oracle, schedule + [a]);
      full := HeldReturn(stages, oracle, schedule + [a]);
    }
  }

  lemma HeldAtStart(stages: seq<Stage>, oracle: Oracle)
    ensures var plan := Plan(stages, oracle); Exec(plan, []).Some? && AllHeld(plan, Exec(plan, []).value)
  {
    hide PlanFrom;
  }

  lemma HeldScannerCanMove(g: Group, s: GroupState, i: nat) returns (mv: Move)
    requires Held(g, s) && Complete(g, s) && i < |g.members| && !g.members[i].behaviour.outcome.Pass?
    requires g.members[i].behaviour.stdout != [] || g.members[i].behaviour.stderr != []
    ensures CanMove(g, s, mv)
  {
    mv := Move(i, if g.members[i].behaviour.stdout != [] then Stdout else Stderr);
  }

  /** A way to execute the script in which a line of a failing step follows the banner. */
  lemma LateLine(env: RunEnv, present: bool, k: nat, lo: nat) returns (script: Script, scriptErr: Option<RunError>)
    requires SetupFailure(env, present).None?
    requires IsStep(env.stages, k, lo) && StopsAt(env.stages, env.oracle, k, lo)
    requires !SilentFailures(env.stages, env.oracle, k, lo)
    ensures Executes(env, present, script, scriptErr) && LinesAfter(env, present, script) != []
  {
    hide Exec, Trace, StopsAt, Inv, GroupInv, PlanFrom, Complete, AllHeld, CanMove, Passes, Held;
    var plan := Plan(env.stages, env.oracle);
    HeldAtStart(env.stages, env.oracle);
    var full := HeldReturn(env.stages, env.oracle, []);
    var s := Exec(plan, full).value;
    var item := StoppedRun(env.stages, env.oracle, full, s, k, lo);
    var i :| lo <= i < SpanEnd(env.stages[k].steps, lo) && !Passes(env.oracle, k, i) && !IsSilent(env.oracle, k, i);
    assert Held(item.g, s.group) by { HeldHere(plan, s); }
    assert item.g.members[i - lo].behaviour == env.oracle(k, i);
    assert !item.g.members[i - lo].behaviour.outcome.Pass? by { PassesMeans(env.oracle, k, i); }
    var mv := HeldScannerCanMove(item.g, s.group, i - lo);
    script, scriptErr := Script(full, [], [Go(mv)]), s.status.err;
    assert full + [] == full && full + [] + [Go(mv)] == full + [Go(mv)];
    LateTrace(plan, full, s, item.g, mv);
  }

  lemma HeldHere(plan: seq<Item>, s: State)
    requires AllHeld(plan, s) && s.pos < |plan| && plan[s.pos].Batch?
    ensures Held(plan[s.pos].g, s.group)
  {
  }

  lemma PassesMeans(oracle: Oracle, k: nat, i: nat)
    ensures Passes(oracle, k, i) <==> oracle(k, i).outcome.Pass?
  {
  }

  lemma LateTrace(plan: seq<Item>, schedule: seq<Action>, s: State, g: Group, mv: Move)
    requires Exec(plan, schedule) == Some(s) && s.pos < |plan| && plan[s.pos] == Batch(g) && CanMove(g, s.group, mv)
    ensures Exec(plan, schedule + [Go(mv)]).Some?
    ensures Trace(Exec(plan, schedule + [Go(mv)]).value) == Trace(s) + [EventOf(g, s.group, mv)]
  {
    hide CanMove, EventOf;
    ExecSnoc(plan, schedule, Go(mv));
    var t := Exec(plan, schedule + [Go(mv)]).value;
    assert t.group.trace == s.group.trace + [EventOf(g, s.group, mv)];
    GrownTrace(s, t, [EventOf(g, s.group, mv)]);
  }

  /* ---------- the exact condition ---------- */

  ghost predicate BannerIsLast(env: RunEnv, present: bool, script: Script, scriptErr: Option<RunError>) {
    var sent := Sent(env, present, script, scriptErr);
    sent != [] && sent[|sent| - 1] == Own(FailBanner)
  }

  lemma LastMessage(env: RunEnv, present: bool, script: Script, scriptErr: Option<RunError>)
    requires Executes(env, present, script, scriptErr) && scriptErr.Some?
    ensures BannerIsLast(env, present, script, scriptErr) <==> LinesAfter(env, present, script) == []
  {
    FailedStream(env, present, script, scriptErr);
    hide Sent, LinesBefore, Trace, SetupMessages, Exec, StoppedAt;
    var sent := Sent(env, present, script, scriptErr);
    var before, after := LinesBefore(env, present, script), LinesAfter(env, present, script);
    if after != [] {
      assert sent[|sent| - 1] == after[|after| - 1];
      assert after[|after| - 1] in before + after;
    }
  }

  lemma FailingScript(env: RunEnv, present: bool, script: Script, scriptErr: Option<RunError>, k: nat, lo: nat)
    requires Executes(env, present, script, scriptErr) && SetupFailure(env, present).None?
    requires IsStep(env.stages, k, lo) && StopsAt(env.stages, env.oracle, k, lo)
    ensures scriptErr.Some?
  {
    hide Exec, StopsAt, Plan;
    var item := StoppedRun(env.stages, env.oracle, script.schedule, StateOf(env, script.schedule), k, lo);
  }

  /** For a script that stops at the group of stage k starting at step lo: in every execution the
      FAIL banner is the last message of the run, if and only if the failing steps of that group
      print nothing that is scanned. */
  lemma BannerIsLastExactly(env: RunEnv, present: bool, k: nat, lo: nat)
    requires SetupFailure(env, present).None?
    requires IsStep(env.stages, k, lo) && StopsAt(env.stages, env.oracle, k, lo)
    ensures (forall script, scriptErr :: Executes(env, present, script, scriptErr) ==>
               BannerIsLast(env, present, script, scriptErr))
       <==> (forall i | lo <= i < SpanEnd(env.stages[k].steps, lo) && !Passes(env.oracle, k, i) ::
               IsSilent(env.oracle, k, i))
  {
    hide Executes, BannerIsLast, StopsAt, SetupFailure, LinesAfter, Passes, IsSilent;
    if SilentFailures(env.stages, env.oracle, k, lo) {
      forall script, scriptErr | Executes(env, present, script, scriptErr)
        ensures BannerIsLast(env, present, script, scriptErr)
      {
        FailingScript(env, present, script, scriptErr, k, lo);
        LastMessage(env, present, script, scriptErr);
        NothingIsLate(env, present, script, scriptErr, k, lo);
      }
    } else {
      var script, scriptErr := LateLine(env, present, k, lo);
      FailingScript(env, present, script, scriptErr, k, lo);
      LastMessage(env, present, script, scriptErr);
    }
  }

  /** Such a script: a step that times out although its command still has a line to deliver. */
  lemma TimedOutStepOutlivesTheBanner(env: RunEnv, present: bool, stage: Stage, line: string)
    requires SetupFailure(env, present).None? && env.stages == [stage] && |stage.steps| == 1
    requires env.oracle(0, 0) == Behaviour([line], [], TimedOut)
    ensures exists script, scriptErr ::
      Executes(env, present, script, scriptErr) && !BannerIsLast(env, present, script, scriptErr)
  {
    assert IsStep(env.stages, 0, 0) && !Passes(env.oracle, 0, 0) && !IsSilent(env.oracle, 0, 0);
    assert StopsAt(env.stages, env.oracle, 0, 0);
    hide Executes, BannerIsLast, StopsAt, SetupFailure;
    BannerIsLastExactly(env, present, 0, 0);
  }
}
