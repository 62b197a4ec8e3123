/** What the output of a run says, word for word. */
module OutputText {
  import opened Wrappers
  import opened PipelineScript
  import opened Grouping
  import opened Sequences
  import opened Messages
  import opened StepGroup
  import opened GroupOutcome
  import opened ScriptMachine
  import opened PlanOrder
  import opened ScriptTheorems
  import opened StageMessages
  import opened StepCalls
  import opened RunStore
  import opened RunQueue
  import opened RunStream
  import L = RunLifecycle

  const BAR := "============================================="
  const PASS_TEXT :=
    "\n" + BAR + "\n" + "PASS || Executed pipeline steps successfully." + ("\n" + BAR + "\n")
  const FAIL_TEXT :=
    "\n" + BAR + "\n" + "FAIL || Pipeline execution failed." + ("\n" + BAR + "\n")

  ghost predicate Contains(s: string, t: string) {
    exists a, b :: s == a + t + b
  }

  ghost predicate EndsWith(s: string, t: string) {
    exists a :: s == a + t
  }

  function TextOf(events: seq<Event>): string {
    Flatten(Rendered(events))
  }

  lemma TextConcat(a: seq<Event>, b: seq<Event>)
    ensures TextOf(a + b) == TextOf(a) + TextOf(b)
  {
    RenderedConcat(a, b);
    FlattenConcat(Rendered(a), Rendered(b));
  }

  lemma OneText(e: Event, text: string)
    requires TextsOf(e) == [text]
    ensures TextOf([e]) == text
  {
    assert [e][..0] == [];
    assert Rendered([e]) == [text];
    assert [text][..0] == [];
    assert Flatten([text]) == "" + text;
  }

  /** An event is heard in the text of the events it is one of. */
  lemma EventIsHeard(events: seq<Event>, e: Event, text: string)
    requires e in events && TextsOf(e) == [text]
    ensures Contains(TextOf(events), text)
  {
    hide TextOf, TextsOf;
    var x :| 0 <= x < |events| && events[x] == e;
    assert events == events[..x] + [e] + events[x + 1..];
    TextConcat(events[..x] + [e], events[x + 1..]);
    TextConcat(events[..x], [e]);
    OneText(e, text);
  }

  lemma LastIsHeard(events: seq<Event>, e: Event, text: string)
    requires events != [] && events[|events| - 1] == e && TextsOf(e) == [text]
    ensures EndsWith(TextOf(events), text)
  {
    hide TextOf, TextsOf;
    var n := |events| - 1;
    assert events == events[..n] + [e];
    TextConcat(events[..n], [e]);
    OneText(e, text);
  }

  /** The words of each message. */
  lemma Words(k: nat, i: nat, name: string, line: string, seconds: int)
    ensures TextsOf(Main(k, StageStarted(name))) == ["    |    Executing pipeline stage '" + name + "'\n"]
    ensures TextsOf(Main(k, StagePassed(name))) == ["    |    STAGE '" + name + "' PASSED\n"]
    ensures TextsOf(OfStep(k, i, Say(StepStarted(name)))) == ["    |    |    Executing step '" + name + "'\n"]
    ensures TextsOf(OfStep(k, i, Say(StepPassed(name)))) == ["    |    |    STEP '" + name + "' PASSED\n"]
    ensures TextsOf(OfStep(k, i, OutLine(line))) == [line + "\n"]
    ensures TextsOf(OfStep(k, i, ErrLine(line))) == [line + "\n"]
    ensures TextsOf(OfStep(k, i, Say(TimeoutNotice(seconds, line))))
         == ["step execution timed out in " + Decimal(seconds) + " seconds, script: '" + line + "'"]
    ensures TextsOf(OfStep(k, i, Say(CancelNotice))) == ["step execution cancelled by user"]
    ensures TextsOf(Own(Note(line))) == [line]
  {
  }

  lemma Banners()
    ensures TextsOf(Own(PassBanner)) == [PASS_TEXT] && TextsOf(Own(FailBanner)) == [FAIL_TEXT]
  {
    assert Text(PassBanner) == PASS_TEXT;
    assert Text(FailBanner) == FAIL_TEXT;
  }

  /* ---------- what a passed script has on its trace ---------- */

  lemma PassedActs(m: Member, acts: seq<Act>, a: Act)
    requires PassShape(m, acts)
    requires a == Say(StepStarted(m.step.step)) || a == Say(StepPassed(m.step.step))
      || a in Acts(m, Stdout) || a in Acts(m, Stderr)
    ensures a in acts
  {
    var lines: seq<Act> :| IsPassedCall(m, acts, lines);
    PickedIsThere(lines, Stdout, a);
    PickedIsThere(lines, Stderr, a);
  }

  lemma PassedStepEvents(stages: seq<Stage>, oracle: Oracle, s: State, k: nat, i: nat, a: Act)
    requires var plan := Plan(stages, oracle); Inv(plan, s) && s.pos == |plan|
    requires IsStep(stages, k, i)
    requires var m := Member(stages[k].steps[i], oracle(k, i));
      || a == Say(StepStarted(m.step.step)) || a == Say(StepPassed(m.step.step))
      || a in Acts(m, Stdout) || a in Acts(m, Stderr)
    ensures OfStep(k, i, a) in Trace(s)
  {
    hide Program, PassShape, PlanFrom, OpenOk, StatusOk, Total, Acts;
    var plan := Plan(stages, oracle);
    PlanFollowsTheScript(stages, oracle, 0);
    var j := StepIsInPlan(stages, oracle, 0, k, i);
    assert ItemOk(stages, oracle, plan[j]);
    var g, block := plan[j].g, s.closed[j];
    assert BlockOk(plan[j], block);
    assert PassShape(g.members[i - g.lo], ActsOf(block, g.k, g.lo + (i - g.lo)));
    PassedActs(g.members[i - g.lo], ActsOf(block, k, i), a);
    ActIsInTrace(block, k, i, a);
    var o :| 0 <= o < |block| && block[o] == OfStep(k, i, a);
    BlockInFlatten(s.closed + [s.group.trace], j, o);
  }

  /** What every passed run says, in any order. */
  ghost predicate SaysAll(text: string, stages: seq<Stage>, oracle: Oracle) {
    && (forall k: nat :: k < |stages| ==>
          && Contains(text, "    |    Executing pipeline stage '" + stages[k].stage + "'\n")
          && Contains(text, "    |    STAGE '" + stages[k].stage + "' PASSED\n"))
    && (forall k: nat, i: nat :: IsStep(stages, k, i) ==>
          && Contains(text, "    |    |    Executing step '" + stages[k].steps[i].step + "'\n")
          && Contains(text, "    |    |    STEP '" + stages[k].steps[i].step + "' PASSED\n")
          && (forall line <- oracle(k, i).stdout + oracle(k, i).stderr :: Contains(text, line + "\n")))
  }

  lemma TraceSaysAll(stages: seq<Stage>, oracle: Oracle, schedule: seq<Action>, s: State, events: seq<Event>)
    requires Reaches(stages, oracle, schedule, s) && s.status == Returned(None)
    requires forall e <- Trace(s) :: e in events
    ensures SaysAll(TextOf(events), stages, oracle)
  {
    hide Exec, Inv, PlanFrom, Opens, Closes, Contains, TextOf, TextsOf, Trace, OnlyStageMessages;
    EveryScheduleKeepsInv(Plan(stages, oracle), schedule);
    assert s.pos == |Plan(stages, oracle)| by { PassedIsThrough(Plan(stages, oracle), s); }
    PassedStages(stages, oracle, schedule, s);
    forall k: nat | k < |stages|
      ensures Contains(TextOf(events), "    |    Executing pipeline stage '" + stages[k].stage + "'\n")
      ensures Contains(TextOf(events), "    |    STAGE '" + stages[k].stage + "' PASSED\n")
    {
      StageIsHeard(stages, Trace(s), events, k);
    }
    forall k: nat, i: nat | IsStep(stages, k, i)
      ensures Contains(TextOf(events), "    |    |    Executing step '" + stages[k].steps[i].step + "'\n")
      ensures Contains(TextOf(events), "    |    |    STEP '" + stages[k].steps[i].step + "' PASSED\n")
      ensures forall line <- oracle(k, i).stdout + oracle(k, i).stderr :: Contains(TextOf(events), line + "\n")
    {
      StepIsHeard(stages, oracle, s, events, k, i);
    }
  }

  lemma StageIsHeard(stages: seq<Stage>, trace: seq<Event>, events: seq<Event>, k: nat)
    requires k < |stages| && Framed(stages, trace, k) && forall e <- trace :: e in events
    ensures Contains(TextOf(events), "    |    Executing pipeline stage '" + stages[k].stage + "'\n")
    ensures Contains(TextOf(events), "    |    STAGE '" + stages[k].stage + "' PASSED\n")
  {
    var name := stages[k].stage;
    assert Main(k, StageStarted(name)) in trace && Main(k, StagePassed(name)) in trace;
    hide Contains, TextOf, TextsOf, Framed;
    Words(k, 0, name, "", 0);
    EventIsHeard(events, Main(k, StageStarted(name)), "    |    Executing pipeline stage '" + name + "'\n");
    EventIsHeard(events, Main(k, StagePassed(name)), "    |    STAGE '" + name + "' PASSED\n");
  }

  lemma StepIsHeard(stages: seq<Stage>, oracle: Oracle, s: State, events: seq<Event>, k: nat, i: nat)
    requires var plan := Plan(stages, oracle); Inv(plan, s) && s.pos == |plan|
    requires IsStep(stages, k, i) && forall e <- Trace(s) :: e in events
    ensures Contains(TextOf(events), "    |    |    Executing step '" + stages[k].steps[i].step + "'\n")
    ensures Contains(TextOf(events), "    |    |    STEP '" + stages[k].steps[i].step + "' PASSED\n")
    ensures forall line <- oracle(k, i).stdout + oracle(k, i).stderr :: Contains(TextOf(events), line + "\n")
  {
    hide Inv, PlanFrom, Contains, TextOf, TextsOf, Trace, Program;
    var step, m := stages[k].steps[i], Member(stages[k].steps[i], oracle(k, i));
    PassedStepEvents(stages, oracle, s, k, i, Say(StepStarted(step.step)));
    PassedStepEvents(stages, oracle, s, k, i, Say(StepPassed(step.step)));
    Words(k, i, step.step, "", 0);
    EventIsHeard(events, OfStep(k, i, Say(StepStarted(step.step))),
                 "    |    |    Executing step '" + step.step + "'\n");
    EventIsHeard(events, OfStep(k, i, Say(StepPassed(step.step))), "    |    |    STEP '" + step.step + "' PASSED\n");
    forall line | line in oracle(k, i).stdout + oracle(k, i).stderr
      ensures Contains(TextOf(events), line + "\n")
    {
      LineIsHeard(stages, oracle, s, events, k, i, line);
    }
  }

  lemma LineIsHeard(stages: seq<Stage>, oracle: Oracle, s: State, events: seq<Event>, k: nat, i: nat, line: string)
    requires var plan := Plan(stages, oracle); Inv(plan, s) && s.pos == |plan|
    requires IsStep(stages, k, i) && forall e <- Trace(s) :: e in events
    requires line in oracle(k, i).stdout + oracle(k, i).stderr
    ensures Contains(TextOf(events), line + "\n")
  {
    hide Inv, PlanFrom, Contains, TextOf, TextsOf, Trace, Acts;
    var m := Member(stages[k].steps[i], oracle(k, i));
    LinesAreScanned(m);
    Words(k, i, "", line, 0);
    if line in oracle(k, i).stdout {
      var j :| 0 <= j < |oracle(k, i).stdout| && oracle(k, i).stdout[j] == line;
      assert Acts(m, Stdout)[j] == OutLine(line);
      PassedStepEvents(stages, oracle, s, k, i, OutLine(line));
      EventIsHeard(events, OfStep(k, i, OutLine(line)), line + "\n");
    } else {
      var j :| 0 <= j < |oracle(k, i).stderr| && oracle(k, i).stderr[j] == line;
      assert Acts(m, Stderr)[j] == ErrLine(line);
      PassedStepEvents(stages, oracle, s, k, i, ErrLine(line));
      EventIsHeard(events, OfStep(k, i, ErrLine(line)), line + "\n");
    }
  }

  /** The stored output of a passed run ends with the words of the PASS banner, and says of every stage
      and step by name that it was executed and has passed, and every line its command delivered. */
  lemma PassedOutputSays(cap: nat, start: L.Sys, actions: seq<L.Action>, s: L.Sys, id: int)
    requires L.Reached(cap, start, actions, s) && id in s.finished && id in s.streams && id in s.courses
    requires var st := s.streams[id]; !st.faulted && st.cutoff.None? && !st.holding
    requires ProcessResult(s.courses[id].env, true, s.courses[id].scriptErr).None?
    ensures id in s.rows
    ensures var env, output := s.courses[id].env, Content(s.rows[id].output);
      EndsWith(output, PASS_TEXT) && SaysAll(output, env.stages, env.oracle)
  {
    hide L.Reached, Trace, SetupMessages, ProcessResult, Rendered, Flatten, TextsOf, SaysAll, EndsWith, Exec;
    L.PassedOutput(cap, start, actions, s, id);
    var c := s.courses[id];
    var state := StateOf(c.env, c.script.schedule);
    var events := SetupMessages(c.env, true) + Trace(state) + [Own(PassBanner)];
    Banners();
    LastIsHeard(events, Own(PassBanner), PASS_TEXT);
    TraceSaysAll(c.env.stages, c.env.oracle, c.script.schedule, state, events);
  }

  /* ---------- what a failed run says ---------- */

  /** All that a failed run has said when it signals ends with the words of the FAIL banner. */
  lemma FailedRunSays(env: RunEnv, present: bool, script: Script, scriptErr: Option<RunError>)
    requires ProcessResult(env, present, scriptErr).Some?
    ensures EndsWith(TextOf(Signalled(env, present, script, scriptErr)), FAIL_TEXT)
  {
    hide Worked, LinesBefore, ProcessResult, TextOf, TextsOf, EndsWith;
    Banners();
    LastIsHeard(Signalled(env, present, script, scriptErr), Own(FailBanner), FAIL_TEXT);
  }

  /** A script that stops says of every step of the group it stops at that timed out, after how many
      seconds, with which script; and of every one that was cancelled that it was. */
  lemma StoppedRunSays(env: RunEnv, present: bool, script: Script, scriptErr: Option<RunError>,
                       k: nat, lo: nat, i: nat)
    requires Executes(env, present, script, scriptErr) && scriptErr.Some?
    requires IsStep(env.stages, k, lo) && StopsAt(env.stages, env.oracle, k, lo)
    requires lo <= i < SpanEnd(env.stages[k].steps, lo)
    ensures var step, outcome := env.stages[k].steps[i], env.oracle(k, i).outcome;
      var text := TextOf(Signalled(env, present, script, scriptErr));
      && Contains(text, "    |    |    Executing step '" + step.step + "'\n")
      && (outcome.Pass? ==> Contains(text, "    |    |    STEP '" + step.step + "' PASSED\n"))
      && (outcome.TimedOut? ==> Contains(text, "step execution timed out in " + Decimal(step.timeoutSeconds)
                                               + " seconds, script: '" + step.script + "'"))
      && (outcome.Cancelled? ==> Contains(text, "step execution cancelled by user"))
  {
    hide Exec, Trace, StopsAt, Plan, SetupMessages, LinesBefore, Contains, TextOf, TextsOf;
    var s := StateOf(env, script.schedule);
    StoppedCalls(env.stages, env.oracle, script.schedule, s, k, lo, i);
    var events, step := Signalled(env, present, script, scriptErr), env.stages[k].steps[i];
    assert forall e <- Trace(s) :: e in events;
    hide Signalled, StateOf, Executes;
    Words(k, i, step.step, step.script, step.timeoutSeconds);
    Heard(Trace(s), events, OfStep(k, i, Say(StepStarted(step.step))),
          "    |    |    Executing step '" + step.step + "'\n");
    match env.oracle(k, i).outcome
    case Pass =>
      Heard(Trace(s), events, OfStep(k, i, Say(StepPassed(step.step))),
            "    |    |    STEP '" + step.step + "' PASSED\n");
    case TimedOut =>
      Heard(Trace(s), events, OfStep(k, i, Say(TimeoutNotice(step.timeoutSeconds, step.script))),
            "step execution timed out in " + Decimal(step.timeoutSeconds) + " seconds, script: '"
              + step.script + "'");
    case Cancelled => Heard(Trace(s), events, OfStep(k, i, Say(CancelNotice)), "step execution cancelled by user");
    case CommandError(_) =>
  }

  lemma Heard(trace: seq<Event>, events: seq<Event>, e: Event, text: string)
    requires multiset(trace)[e] == 1 && TextsOf(e) == [text] && forall x <- trace :: x in events
    ensures Contains(TextOf(events), text)
  {
    assert e in multiset(trace);
    hide Contains, TextOf, TextsOf;
    EventIsHeard(events, e, text);
  }

  /** The stored output of a failed run that was not cancelled begins with what it had said when it
      signalled, the last of which are the words of the FAIL banner. */
  lemma FailedOutputSays(cap: nat, start: L.Sys, actions: seq<L.Action>, s: L.Sys, id: int)
    requires L.Reached(cap, start, actions, s) && id in s.finished && id in s.streams && id in s.courses
    requires var st := s.streams[id]; !st.faulted && st.cutoff.None? && !st.holding
    requires ProcessResult(s.courses[id].env, true, s.courses[id].scriptErr).Some?
    ensures id in s.rows
    ensures var c := s.courses[id];
      var said := TextOf(Signalled(c.env, true, c.script, c.scriptErr));
      said <= Content(s.rows[id].output) && EndsWith(said, FAIL_TEXT)
  {
    hide L.Reached, Signalled, ProcessResult, Rendered, Flatten, EndsWith;
    L.FinishedOutput(cap, start, actions, s, id);
    var c := s.courses[id];
    FailedRunSays(c.env, true, c.script, c.scriptErr);
  }
}
