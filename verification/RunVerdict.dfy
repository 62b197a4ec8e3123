/** How a run ends: the status its row is left with, from the outcomes of its setup, steps and
    store writes alone. */
module RunVerdict {
  import opened Wrappers
  import opened PipelineScript
  import opened Messages
  import opened StepGroup
  import opened ScriptMachine
  import opened PlanOrder
  import opened ScriptTheorems
  import opened RunStore
  import opened RunQueue

  /** A row after the attempts that were applied. */
  function Settle(row: Row, attempts: seq<Attempt>): Row {
    if attempts == [] then row else
      var a := attempts[|attempts| - 1];
      var before := Settle(row, attempts[..|attempts| - 1]);
      if a.ok then Apply(before, a.w) else before
  }

  lemma SettleSnoc(row: Row, attempts: seq<Attempt>, a: Attempt)
    ensures Settle(row, attempts + [a])
         == if a.ok then Apply(Settle(row, attempts), a.w) else Settle(row, attempts)
  {
    assert (attempts + [a])[..|attempts|] == attempts;
  }

  /** What the attempts leave in the table is what they leave in the row they are addressed to. */
  lemma {:induction false} SettleIsWhatLands(rows: map<int, Row>, id: int, attempts: seq<Attempt>)
    requires id in rows
    ensures id in ApplyLog(rows, Landed(id, attempts))
    ensures ApplyLog(rows, Landed(id, attempts))[id] == Settle(rows[id], attempts)
    ensures ApplyLog(rows, Landed(id, attempts)) == rows[id := Settle(rows[id], attempts)]
  {
    if attempts != [] {
      var n := |attempts| - 1;
      SettleIsWhatLands(rows, id, attempts[..n]);
      Lands(rows, id, attempts[..n], attempts[n]);
      assert attempts[..n] + [attempts[n]] == attempts;
    }
  }

  /** The run's first failing group is a single sequential step, and it was cancelled. */
  ghost predicate CancelledInSequence(stages: seq<Stage>, oracle: Oracle) {
    exists k: nat, i: nat :: IsStep(stages, k, i) && StopsAt(stages, oracle, k, i)
      && !stages[k].steps[i].parallel && oracle(k, i).outcome.Cancelled?
  }

  /* ---------- the setup of a run ---------- */

  /** A run gets to its script when the pipeline's data, the start write, its read-back, the clone and
      the script file are all had, and, unless it runs on this machine, the key and the connection. */
  predicate GetsToItsScript(env: RunEnv) {
    && !env.dataFault && !env.startFault && !env.startReadFault && !env.cloneFault && !env.scriptFault
    && (env.hostname == "localhost" || (!env.keyFault && !env.dialFault))
  }

  lemma SetupExactly(env: RunEnv)
    ensures SetupFailure(env, true).None? <==> GetsToItsScript(env)
    ensures SetupFailure(env, false).Some?
  {
  }

  /** On this machine nothing is said of a connection, and nothing depends on one. */
  lemma LocalSetup(env: RunEnv, present: bool, keyFault: bool, dialFault: bool)
    requires env.hostname == "localhost"
    ensures var other := env.(keyFault := keyFault, dialFault := dialFault);
      && SetupFailure(other, present) == SetupFailure(env, present)
      && SetupMessages(other, present) == SetupMessages(env, present)
    ensures SetupMessages(env, present)
         == if env.dataFault || env.startFault || env.startReadFault || !present || env.cloneFault then []
            else if env.scriptFault then [Own(Note("Cloned repository " + env.repository + "\n"))]
            else [Own(Note("Cloned repository " + env.repository + "\n")),
                  Own(Note("Parsed pipeline script. Starting pipeline execution...\n"))]
  {
  }

  /** On an agent what is said of the connection comes first: one of three things. */
  lemma RemoteSetup(env: RunEnv, present: bool)
    requires env.hostname != "localhost"
    requires !env.dataFault && !env.startFault && !env.startReadFault && present
    ensures env.keyFault || env.dialFault ==> SetupFailure(env, present) == Some(Connect)
    ensures SetupMessages(env, present)
         == if env.keyFault then
              [Own(Note("err parsing ssh private key")), Own(Note("Error connection through SSH."))]
            else if env.dialFault then
              [Own(Note("err dialing ssh")), Own(Note("Error connection through SSH."))]
            else
              [Own(Note("SSH connected to " + env.address + "\n"))]
              + if env.cloneFault then []
                else if env.scriptFault then [Own(Note("Cloned repository " + env.repository + "\n"))]
                else [Own(Note("Cloned repository " + env.repository + "\n")),
                      Own(Note("Parsed pipeline script. Starting pipeline execution...\n"))]
  {
  }

  /* ---------- the row a run leaves ---------- */

  /** The columns that are written at the start, and those that are never written again: whatever
      becomes of the run. */
  lemma StartColumns(env: RunEnv, present: bool, mine: Option<string>, stored: Option<string>,
                     scriptErr: Option<RunError>, row: Row)
    ensures var final, started := Settle(row, WorkerWrites(env, present, mine, stored, scriptErr)),
                                  !env.dataFault && !env.startFault;
      && final.workingDirectory == (if started then Some(env.workdir) else row.workingDirectory)
      && final.startedOn == (if started then Some(env.startedAt) else row.startedOn)
      && final.pipelineId == row.pipelineId && final.branch == row.branch
      && final.createdOn == row.createdOn && final.archive == row.archive && final.output == row.output
  {
    var process := ProcessWrites(env, present, stored, scriptErr);
    var result := ProcessResult(env, present, scriptErr);
    StartColumnsOfProcess(env, present, stored, scriptErr, row);
    if result.Some? {
      SettleSnoc(row, process, FailureWrite(env, mine, result.value));
    } else {
      assert process + [] == process;
    }
  }

  lemma StartColumnsOfProcess(env: RunEnv, present: bool, stored: Option<string>, scriptErr: Option<RunError>, row: Row)
    ensures var final, started := Settle(row, ProcessWrites(env, present, stored, scriptErr)),
                                  !env.dataFault && !env.startFault;
      && final.workingDirectory == (if started then Some(env.workdir) else row.workingDirectory)
      && final.startedOn == (if started then Some(env.startedAt) else row.startedOn)
      && final.pipelineId == row.pipelineId && final.branch == row.branch
      && final.createdOn == row.createdOn && final.archive == row.archive && final.output == row.output
  {
    var start := Attempt(Start(env.workdir, RunStatus.Running, env.startedAt), !env.startFault);
    var end := Attempt(End(RunStatus.Passed, stored, env.passedAt), !env.passFault);
    SettleSnoc(row, [], start);
    SettleSnoc(row, [start], end);
    assert [] + [start] == [start] && [start] + [] == [start];
  }

  /** The row a run leaves when its failure, if it fails, can be recorded: status, end time and
      artifacts follow from what processRun returns, the other columns from the start. */
  lemma FinalStatus(env: RunEnv, present: bool, mine: Option<string>, stored: Option<string>,
                    scriptErr: Option<RunError>, row: Row)
    requires !env.failFault
    ensures var result, final := ProcessResult(env, present, scriptErr),
                                 Settle(row, WorkerWrites(env, present, mine, stored, scriptErr));
      var started := !env.dataFault && !env.startFault;
      && final.status == (if result.None? then RunStatus.Passed
                          else if result.value == FromScript(Bare(RunCancel)) then RunStatus.Cancelled else Failed)
      && final.endedOn == Some(if result.None? then env.passedAt else env.endedAt)
      && final.artifacts == (if result.None? then stored else mine)
      && final.workingDirectory == (if started then Some(env.workdir) else row.workingDirectory)
      && final.startedOn == (if started then Some(env.startedAt) else row.startedOn)
      && final.pipelineId == row.pipelineId && final.branch == row.branch
      && final.createdOn == row.createdOn && final.archive == row.archive && final.output == row.output
  {
    var process := ProcessWrites(env, present, stored, scriptErr);
    var result := ProcessResult(env, present, scriptErr);
    StartColumns(env, present, mine, stored, scriptErr, row);
    if result.Some? {
      SettleSnoc(row, process, FailureWrite(env, mine, result.value));
    } else {
      assert process + [] == process;
      var start := Attempt(Start(env.workdir, RunStatus.Running, env.startedAt), true);
      SettleSnoc(row, [start], Attempt(End(RunStatus.Passed, stored, env.passedAt), true));
      assert process == [start] + [Attempt(End(RunStatus.Passed, stored, env.passedAt), true)];
    }
  }

  /** When even the failure write fails, the row keeps the status it had: a run that failed can be
      left queued, running, or passed for good. */
  lemma UnrecordedFailure(env: RunEnv, mine: Option<string>, stored: Option<string>,
                          scriptErr: Option<RunError>, row: Row)
    requires env.failFault && ProcessResult(env, true, scriptErr).Some?
    ensures var final := Settle(row, WorkerWrites(env, true, mine, stored, scriptErr));
      final.status == (if env.dataFault || env.startFault then row.status
                       else if SetupFailure(env, true).None? && scriptErr.None? && !env.passFault then RunStatus.Passed
                       else RunStatus.Running)
  {
    var process := ProcessWrites(env, true, stored, scriptErr);
    var start := Attempt(Start(env.workdir, RunStatus.Running, env.startedAt), !env.startFault);
    var end := Attempt(End(RunStatus.Passed, stored, env.passedAt), !env.passFault);
    SettleSnoc(row, process, FailureWrite(env, mine, ProcessResult(env, true, scriptErr).value));
    SettleSnoc(row, [], start);
    SettleSnoc(row, [start], end);
    assert [] + [start] == [start] && [start] + [] == [start] && [start] + [end] == [start, end];
  }

  /** The verdict: a run passes iff its setup and every one of its steps pass and the passed write
      and its read-back succeed; it is cancelled iff it reaches its steps and stops at a cancelled
      sequential step; otherwise it fails. A cancellation met while cloning or in a parallel
      group, whose errors are wrapped or joined, is recorded as a failure. */
  lemma Verdict(env: RunEnv, mine: Option<string>, stored: Option<string>, row: Row,
                schedule: seq<Action>, s: State, scriptErr: Option<RunError>)
    requires !env.failFault
    requires SetupFailure(env, true).None? ==> IsScriptResult(env, schedule, s, scriptErr)
    ensures var final := Settle(row, WorkerWrites(env, true, mine, stored, scriptErr));
      && (final.status.Passed? <==>
            GetsToItsScript(env) && EveryStepPasses(env.stages, env.oracle)
            && !env.passFault && !env.passReadFault)
      && (final.status.Cancelled? <==>
            GetsToItsScript(env) && CancelledInSequence(env.stages, env.oracle))
      && (final.status.Passed? || final.status.Cancelled? || final.status.Failed?)
      && final.endedOn.Some? && final.output == row.output
  {
    hide Settle, WorkerWrites, Exec, Plan, StopsAt, EveryStepPasses;
    FinalStatus(env, true, mine, stored, scriptErr, row);
    SetupExactly(env);
    if SetupFailure(env, true).None? {
      FailStop(env.stages, env.oracle, schedule, s);
      if scriptErr.Some? {
        BareCancelOnlyFromSequential(env.stages, env.oracle, schedule, s);
      } else {
        PassedIsNotCancelled(env.stages, env.oracle);
      }
    }
  }

  lemma PassedIsNotCancelled(stages: seq<Stage>, oracle: Oracle)
    ensures EveryStepPasses(stages, oracle) ==> !CancelledInSequence(stages, oracle)
  {
    forall k: nat, i: nat | IsStep(stages, k, i) && EveryStepPasses(stages, oracle)
      ensures !oracle(k, i).outcome.Cancelled?
    {
      assert Passes(oracle, k, i);
    }
  }

  /* ---------- what the status clients see ---------- */

  lemma OneRow(rows: map<int, Row>, id: int, attempts: seq<Attempt>)
    requires id in rows
    ensures RowAfter(rows, id, attempts) == [Settle(rows[id], attempts)]
  {
    SettleIsWhatLands(rows, id, attempts);
  }

  lemma StartedRow(env: RunEnv, row: Row)
    requires !env.startFault
    ensures var started := Settle(row, [StartAttempt(env)]);
      && started.status == RunStatus.Running && started.endedOn == row.endedOn
      && started.workingDirectory == Some(env.workdir) && started.startedOn == Some(env.startedAt)
  {
    SettleSnoc(row, [], StartAttempt(env));
    assert [] + [StartAttempt(env)] == [StartAttempt(env)];
  }

  /** The status clients get the running row if it can be read back, and then the row of the end: the
      passed one, or, if it can be read back, the cancelled or failed one. */
  lemma StatusesSent(env: RunEnv, rows: map<int, Row>, id: int, mine: Option<string>, scriptErr: Option<RunError>)
    requires id in rows && !env.failFault
    ensures var sent, result := StatusRows(env, rows, id, mine, scriptErr), ProcessResult(env, true, scriptErr);
      var started := !env.dataFault && !env.startFault && !env.startReadFault;
      var n := if started then 1 else 0;
      && |sent| == n + (if result.None? || !env.failReadFault then 1 else 0)
      && (started ==> sent[0].status == RunStatus.Running && sent[0].workingDirectory == Some(env.workdir)
                      && sent[0].startedOn == Some(env.startedAt))
      && (result.None? ==> started && sent[n].status == RunStatus.Passed && sent[n].endedOn == Some(env.passedAt))
      && (result.Some? && !env.failReadFault ==>
            && sent[n].endedOn == Some(env.endedAt)
            && sent[n].status == if result.value == FromScript(Bare(RunCancel)) then RunStatus.Cancelled else Failed)
  {
    hide Settle, WorkerWrites, ProcessWrites, ApplyLog, Landed;
    var stored := StoredArtifacts(rows, id);
    OneRow(rows, id, [StartAttempt(env)]);
    OneRow(rows, id, ProcessWrites(env, true, stored, scriptErr));
    OneRow(rows, id, WorkerWrites(env, true, mine, stored, scriptErr));
    if !env.startFault {
      StartedRow(env, rows[id]);
    }
    FinalStatus(env, true, mine, stored, scriptErr, rows[id]);
    if ProcessResult(env, true, scriptErr).None? {
      NoFailureWrite(env, mine, stored, scriptErr);
    }
  }

  lemma NoFailureWrite(env: RunEnv, mine: Option<string>, stored: Option<string>, scriptErr: Option<RunError>)
    requires ProcessResult(env, true, scriptErr).None?
    ensures WorkerWrites(env, true, mine, stored, scriptErr) == ProcessWrites(env, true, stored, scriptErr)
  {
    assert ProcessWrites(env, true, stored, scriptErr) + [] == ProcessWrites(env, true, stored, scriptErr);
  }
}
