/** One pipeline's queue and its worker (internal/service/run_queue.go). Every outcome the worker
    does not decide itself - store errors, connection, clone, script, clock - is in `RunEnv`. */
module RunQueue {
  import opened Wrappers
  import opened PipelineScript
  import opened Messages
  import opened StepGroup
  import opened ScriptMachine
  import opened Executor
  import opened RunStore
  import opened CancelMap

  datatype RunEnv = RunEnv(
    dataFault: bool,
    workdir: string, startedAt: int, startFault: bool, startReadFault: bool,
    hostname: string, address: string, repository: string,
    keyFault: bool, dialFault: bool, cloneFault: bool, scriptFault: bool,
    stages: seq<Stage>, oracle: Oracle,
    passedAt: int, passFault: bool, passReadFault: bool,
    endedAt: int, failFault: bool, failReadFault: bool,
    linesBeforeBanner: nat, linesAfterBanner: nat, cancelled: bool)

  /** What processRun returns. Only the executor's own errors come back unwrapped. */
  datatype RunFailure =
    | PipelineData | StartedOn | ReadBack | Connect | Clone | ReadScript | EndedOn
    | FromScript(err: RunError)

  /** A status write, and whether it was applied. */
  datatype Attempt = Attempt(w: Write, ok: bool)

  predicate IsCancel(err: RunFailure) {
    err == FromScript(Bare(RunCancel))
  }

  predicate OnAgent(env: RunEnv) {
    env.hostname != "localhost"
  }

  /** Why a run never gets to its steps, if it does not. */
  function SetupFailure(env: RunEnv, present: bool): Option<RunFailure> {
    if env.dataFault then Some(PipelineData)
    else if env.startFault then Some(StartedOn)
    else if env.startReadFault || !present then Some(ReadBack)
    else if OnAgent(env) && (env.keyFault || env.dialFault) then Some(Connect)
    else if env.cloneFault then Some(Clone)
    else if env.scriptFault then Some(ReadScript)
    else None
  }

  /** What processRun returns when the executor, if it comes to that, returns scriptErr. */
  function ProcessResult(env: RunEnv, present: bool, scriptErr: Option<RunError>): Option<RunFailure> {
    if SetupFailure(env, present).Some? then SetupFailure(env, present)
    else if scriptErr.Some? then Some(FromScript(scriptErr.value))
    else if env.passFault then Some(EndedOn)
    else if env.passReadFault then Some(ReadBack)
    else None
  }

  /** The status writes processRun attempts; `stored` is the artifacts column it reads back. */
  function ProcessWrites(env: RunEnv, present: bool, stored: Option<string>,
                         scriptErr: Option<RunError>): seq<Attempt>
  {
    if env.dataFault then [] else
      [StartAttempt(env)] +
      if SetupFailure(env, present).Some? || scriptErr.Some? then []
      else [Attempt(End(Passed, stored, env.passedAt), !env.passFault)]
  }

  /** The write handleProcessingFailed attempts; `mine` is the artifacts field of the queued run. */
  function FailureWrite(env: RunEnv, mine: Option<string>, err: RunFailure): Attempt {
    Attempt(End(if IsCancel(err) then RunStatus.Cancelled else Failed, mine, env.endedAt), !env.failFault)
  }

  function WorkerWrites(env: RunEnv, present: bool, mine: Option<string>, stored: Option<string>,
                        scriptErr: Option<RunError>): seq<Attempt>
  {
    var result := ProcessResult(env, present, scriptErr);
    ProcessWrites(env, present, stored, scriptErr) +
    if result.Some? then [FailureWrite(env, mine, result.value)] else []
  }

  /** The writes that were applied, as entries of the store's log. */
  function Landed(id: int, attempts: seq<Attempt>): seq<Entry> {
    if attempts == [] then [] else
      var a := attempts[|attempts| - 1];
      Landed(id, attempts[..|attempts| - 1]) + if a.ok then [Entry(id, a.w)] else []
  }

  lemma Lands(rows: map<int, Row>, id: int, attempts: seq<Attempt>, a: Attempt)
    ensures ApplyLog(rows, Landed(id, attempts + [a]))
         == if a.ok then Update(ApplyLog(rows, Landed(id, attempts)), id, a.w) else ApplyLog(rows, Landed(id, attempts))
  {
    assert (attempts + [a])[..|attempts|] == attempts;
    var log := Landed(id, attempts);
    if a.ok {
      assert (log + [Entry(id, a.w)])[..|log|] == log;
    } else {
      assert Landed(id, attempts + [a]) == log;
    }
  }

  lemma NothingLands(rows: map<int, Row>, id: int)
    ensures ApplyLog(rows, Landed(id, [])) == rows
  {
  }

  function StoredArtifacts(rows: map<int, Row>, id: int): Option<string> {
    if id in rows then rows[id].artifacts else None
  }

  lemma StartKeeps(rows: map<int, Row>, id: int, start: Write)
    requires id in rows && start.Start?
    ensures id in Update(rows, id, start) && Update(rows, id, start)[id].artifacts == StoredArtifacts(rows, id)
  {
  }

  /** `result` is what the executor returned at the end of some schedule of the script. */
  ghost predicate IsScriptResult(env: RunEnv, schedule: seq<Action>, s: State, result: Option<RunError>) {
    Exec(Plan(env.stages, env.oracle), schedule) == Some(s) && s.status == Returned(result)
  }

  /* ---------- what is sent ---------- */

  function ConnectMessages(env: RunEnv): seq<Event> {
    if !OnAgent(env) then []
    else if env.keyFault then
      [Own(Note("err parsing ssh private key")), Own(Note("Error connection through SSH."))]
    else if env.dialFault then
      [Own(Note("err dialing ssh")), Own(Note("Error connection through SSH."))]
    else [Own(Note("SSH connected to " + env.address + "\n"))]
  }

  function CloneMessages(env: RunEnv): seq<Event> {
    if env.cloneFault then []
    else
      [Own(Note("Cloned repository " + env.repository + "\n"))]
      + if env.scriptFault then [] else [Own(Note("Parsed pipeline script. Starting pipeline execution...\n"))]
  }

  /** What is sent before the first stage of a script, or instead of it. */
  function SetupMessages(env: RunEnv, present: bool): seq<Event> {
    if env.dataFault || env.startFault || env.startReadFault || !present then []
    else ConnectMessages(env) + if OnAgent(env) && (env.keyFault || env.dialFault) then [] else CloneMessages(env)
  }

  /** How a script is executed: the schedule up to the executor's return, and the moves of the
      scanners it has left behind before and after the worker sends its last banner. */
  datatype Script = Script(schedule: seq<Action>, before: seq<Action>, after: seq<Action>)

  ghost function StateOf(env: RunEnv, schedule: seq<Action>): State {
    var plan := Plan(env.stages, env.oracle);
    if Exec(plan, schedule).Some? then Exec(plan, schedule).value else Init(plan)
  }

  /** `scriptErr` is what the executor returns when the script is executed this way. */
  ghost predicate Executes(env: RunEnv, present: bool, script: Script, scriptErr: Option<RunError>) {
    if SetupFailure(env, present).Some? then scriptErr.None?
    else
      var plan := Plan(env.stages, env.oracle);
      && IsScriptResult(env, script.schedule, StateOf(env, script.schedule), scriptErr)
      && Exec(plan, script.schedule + script.before).Some?
      && Exec(plan, script.schedule + script.before + script.after).Some?
  }

  /** What processRun sends itself, or makes the executor send. */
  ghost function Worked(env: RunEnv, present: bool, script: Script): seq<Event> {
    SetupMessages(env, present)
    + if SetupFailure(env, present).Some? then [] else
        var s := StateOf(env, script.schedule);
        Trace(s) + if s.status == Returned(None) then [Own(PassBanner)] else []
  }

  /** What the scanners deliver before the last banner, and after it. */
  ghost function LinesBefore(env: RunEnv, present: bool, script: Script): seq<Event> {
    if SetupFailure(env, present).Some? then [] else
      Suffix(Trace(StateOf(env, script.schedule + script.before)), |Trace(StateOf(env, script.schedule))|)
  }

  ghost function LinesAfter(env: RunEnv, present: bool, script: Script): seq<Event> {
    if SetupFailure(env, present).Some? then [] else
      Suffix(Trace(StateOf(env, script.schedule + script.before + script.after)),
             |Trace(StateOf(env, script.schedule + script.before))|)
  }

  function Suffix(trace: seq<Event>, n: nat): seq<Event> {
    if n <= |trace| then trace[n..] else []
  }

  /** All that has been sent when the worker signals that it is done. */
  ghost function Signalled(env: RunEnv, present: bool, script: Script, scriptErr: Option<RunError>): seq<Event> {
    Worked(env, present, script)
    + if ProcessResult(env, present, scriptErr).None? then []
      else LinesBefore(env, present, script) + [Own(FailBanner)]
  }

  /** Everything that is ever sent for a run. */
  ghost function Sent(env: RunEnv, present: bool, script: Script, scriptErr: Option<RunError>): seq<Event> {
    Signalled(env, present, script, scriptErr)
    + if ProcessResult(env, present, scriptErr).None? then [] else LinesAfter(env, present, script)
  }

  /** A send on done that was reached: the status writes attempted and the messages sent before. */
  datatype Signal = Signal(attempts: nat, messages: nat)

  /* ---------- what is sent to the status clients ---------- */

  /** The row as a read-back finds it after these attempts. */
  function RowAfter(rows: map<int, Row>, id: int, attempts: seq<Attempt>): seq<Row> {
    var after := ApplyLog(rows, Landed(id, attempts));
    if id in after then [after[id]] else []
  }

  function StartAttempt(env: RunEnv): Attempt {
    Attempt(Start(env.workdir, RunStatus.Running, env.startedAt), !env.startFault)
  }

  /** The rows processRun sends: one for each read-back that succeeds. */
  function ProcessRows(env: RunEnv, rows: map<int, Row>, id: int, scriptErr: Option<RunError>): seq<Row> {
    (if env.dataFault || env.startFault || env.startReadFault then [] else RowAfter(rows, id, [StartAttempt(env)]))
    + if ProcessResult(env, id in rows, scriptErr).Some? then []
      else RowAfter(rows, id, ProcessWrites(env, id in rows, StoredArtifacts(rows, id), scriptErr))
  }

  function StatusRows(env: RunEnv, rows: map<int, Row>, id: int, mine: Option<string>,
                      scriptErr: Option<RunError>): seq<Row>
  {
    ProcessRows(env, rows, id, scriptErr)
    + if ProcessResult(env, id in rows, scriptErr).None? || env.failReadFault then []
      else RowAfter(rows, id, WorkerWrites(env, id in rows, mine, StoredArtifacts(rows, id), scriptErr))
  }

  class RunQueue {
    const store: RunSQLiteStore
    const maxRuns: nat
    const cancelRunMap: CancelMap<int>
    var queue: seq<Run>
    var outputCh: Channel<Event>
    var statusCh: Channel<Row>
    var attempts: seq<Attempt>  // every status write the worker has attempted
    var signals: seq<Signal>    // every send on done that was reached

    constructor (store: RunSQLiteStore, maxRuns: nat)
      ensures this.store == store && this.maxRuns == maxRuns
      ensures queue == [] && attempts == [] && signals == []
      ensures fresh(cancelRunMap) && cancelRunMap.cancels == map[]
    {
      this.store := store;
      this.maxRuns := maxRuns;
      cancelRunMap := new CancelMap<int>();
      queue, attempts, signals := [], [], [];
      outputCh := new Channel<Event>();
      statusCh := new Channel<Row>();
    }

    /** Offers a run without waiting: it is taken if the buffer has room, or if the worker is
        waiting for one. */
    method Enqueue(r: Run, workerWaiting: bool) returns (ok: bool)
      requires workerWaiting ==> queue == []
      modifies this`queue
      ensures ok <==> |old(queue)| < maxRuns || workerWaiting
      ensures queue == if ok then old(queue) + [r] else old(queue)
    {
      ok := |queue| < maxRuns || workerWaiting;
      if ok {
        queue := queue + [r];
      }
    }

    method ConnectSSH(env: RunEnv) returns (ok: bool)
      requires OnAgent(env)
      modifies outputCh
      ensures ok <==> !env.keyFault && !env.dialFault
      ensures outputCh.sent + (if ok then [] else [Own(Note("Error connection through SSH."))])
           == old(outputCh.sent) + ConnectMessages(env)
    {
      if env.keyFault {
        outputCh.Send(Own(Note("err parsing ssh private key")));
        return false;
      }
      if env.dialFault {
        outputCh.Send(Own(Note("err dialing ssh")));
        return false;
      }
      outputCh.Send(Own(Note("SSH connected to " + env.address + "\n")));
      ok := true;
    }

    /** Clones the repository and reads the script. */
    method CloneAndRead(env: RunEnv) returns (failure: Option<RunFailure>)
      modifies outputCh
      ensures failure == if env.cloneFault then Some(Clone) else if env.scriptFault then Some(ReadScript) else None
      ensures outputCh.sent == old(outputCh.sent) + CloneMessages(env)
    {
      if env.cloneFault {
        return Some(Clone);
      }
      outputCh.Send(Own(Note("Cloned repository " + env.repository + "\n")));
      if env.scriptFault {
        return Some(ReadScript);
      }
      outputCh.Send(Own(Note("Parsed pipeline script. Starting pipeline execution...\n")));
      failure := None;
    }

    /** Connects when the pipeline runs on an agent, then clones and reads the script. */
    method Prepare(env: RunEnv) returns (failure: Option<RunFailure>)
      requires !env.dataFault && !env.startFault && !env.startReadFault && outputCh.sent == []
      modifies outputCh
      ensures failure == SetupFailure(env, true)
      ensures outputCh.sent == SetupMessages(env, true)
    {
      hide ConnectMessages, CloneMessages;
      if OnAgent(env) {
        var connected := ConnectSSH(env);
        if !connected {
          outputCh.Send(Own(Note("Error connection through SSH.")));
          assert ConnectMessages(env) + [] == ConnectMessages(env);
          return Some(Connect);
        }
        assert outputCh.sent + [] == outputCh.sent;
      } else {
        NotConnecting(env);
      }
      assert outputCh.sent == ConnectMessages(env);
      failure := CloneAndRead(env);
    }

    /** The first half of processRun: the pipeline's data, the start write, and its read-back. */
    method StartRun(run: Run, env: RunEnv) returns (err: Option<RunFailure>, r: Run?)
      requires store.Valid()
      modifies this`attempts, run, store`rows, statusCh
      ensures store.Valid() && run.row.artifacts == old(run.row.artifacts)
      ensures attempts == old(attempts) + (if env.dataFault then [] else [StartAttempt(env)])
      ensures store.rows == (if env.dataFault || env.startFault then old(store.rows)
                             else Update(old(store.rows), run.runId, StartAttempt(env).w))
      ensures store.rows.Keys == old(store.rows.Keys)
      ensures err.None? <==> r != null
      ensures err == if env.dataFault then Some(PipelineData) else if env.startFault then Some(StartedOn)
                     else if env.startReadFault || run.runId !in old(store.rows) then Some(ReadBack) else None
      ensures r != null ==> fresh(r) && r.runId == run.runId && run.runId in store.rows
      ensures r != null ==> r.row == store.rows[run.runId]
      ensures statusCh.sent == old(statusCh.sent) + if r != null then [store.rows[run.runId]] else []
    {
      if env.dataFault {
        return Some(PipelineData), null;
      }
      run.row := run.row.(status := RunStatus.Running, startedOn := Some(env.startedAt));
      var ok := store.UpdatePipelineRunStartedOn(run.runId, env.workdir, run.row.status, env.startedAt, env.startFault);
      attempts := attempts + [Attempt(Start(env.workdir, RunStatus.Running, env.startedAt), ok)];
      if !ok {
        return Some(StartedOn), null;
      }
      r := store.ReadRunByID(run.runId, env.startReadFault);
      if r == null {
        return Some(ReadBack), null;
      }
      statusCh.Send(r.row);
      err := None;
    }

    /** The last part of processRun: the banner, the passed write, its read-back, and done. */
    method RecordPass(r: Run, env: RunEnv) returns (err: Option<RunFailure>)
      requires store.Valid() && r.runId in store.rows
      modifies this`attempts, this`signals, r, store`rows, outputCh, statusCh
      ensures store.Valid() && r.runId in store.rows
      ensures var end := Attempt(End(RunStatus.Passed, old(r.row.artifacts), env.passedAt), !env.passFault);
        && attempts == old(attempts) + [end]
        && store.rows == (if end.ok then Update(old(store.rows), r.runId, end.w) else old(store.rows))
      ensures err == if env.passFault then Some(EndedOn) else if env.passReadFault then Some(ReadBack) else None
      ensures signals == old(signals) + (if err.None? then [Signal(|attempts|, |outputCh.sent|)] else [])
      ensures outputCh.sent == old(outputCh.sent) + [Own(PassBanner)]
      ensures statusCh.sent == old(statusCh.sent) + if err.None? then [store.rows[r.runId]] else []
    {
      outputCh.Send(Own(PassBanner));
      r.row := r.row.(status := RunStatus.Passed, endedOn := Some(env.passedAt));
      var ok := store.UpdatePipelineRunEndedOn(r.runId, r.row.status, r.row.artifacts, env.passedAt, env.passFault);
      attempts := attempts + [Attempt(End(RunStatus.Passed, r.row.artifacts, env.passedAt), ok)];
      if !ok {
        return Some(EndedOn);
      }
      var again := store.ReadRunByID(r.runId, env.passReadFault);
      if again == null {
        return Some(ReadBack);
      }
      statusCh.Send(again.row);
      signals := signals + [Signal(|attempts|, |outputCh.sent|)];
      err := None;
    }

    /** Processes one run. When the script fails, `g` is the group it failed at and `group` where
        that group's goroutines were left. */
    method ProcessRun(run: Run, env: RunEnv)
      returns (err: Option<RunFailure>, g: Group, group: GroupState, ghost scriptErr: Option<RunError>,
               ghost schedule: seq<Action>)
      requires store.Valid() && outputCh.sent == [] && statusCh.sent == []
      modifies this`attempts, this`signals, run, store`rows, outputCh, statusCh
      ensures store.Valid() && run.row.artifacts == old(run.row.artifacts)
      ensures var present, stored := run.runId in old(store.rows), StoredArtifacts(old(store.rows), run.runId);
        var writes := ProcessWrites(env, present, stored, scriptErr);
        && err == ProcessResult(env, present, scriptErr)
        && attempts == old(attempts) + writes
        && store.rows == ApplyLog(old(store.rows), Landed(run.runId, writes))
      ensures signals == old(signals) + (if err.None? then [Signal(|attempts|, |outputCh.sent|)] else [])
      ensures Executes(env, run.runId in old(store.rows), Script(schedule, [], []), scriptErr)
      ensures outputCh.sent == Worked(env, run.runId in old(store.rows), Script(schedule, [], []))
      ensures statusCh.sent == ProcessRows(env, old(store.rows), run.runId, scriptErr)
      ensures scriptErr.Some? ==>
        Stopped(Plan(env.stages, env.oracle), schedule, StateOf(env, schedule), g, group)
    {
      hide Exec, Trace, SetupMessages, Plan, Update, ApplyLog, Landed, Stopped;
      scriptErr, schedule, g, group := None, [], Group(0, 0, [], false), NO_GROUP;
      ghost var rows := store.rows;
      ghost var start := StartAttempt(env);
      var r;
      err, r := StartRun(run, env);
      NothingLands(rows, run.runId);
      Lands(rows, run.runId, [], start);
      assert [] + [start] == [start] && [start] + [] == [start];
      if r == null {
        NoSetupMessages(env, run.runId in rows);
        return;
      }
      err := Prepare(env);
      if err.Some? {
        assert statusCh.sent + [] == statusCh.sent && outputCh.sent + [] == outputCh.sent;
        return;
      }
      ghost var s;
      var execErr;
      execErr, g, group, schedule, s := ExecutePipelineScript(env.stages, env.oracle, outputCh);
      scriptErr := execErr;
      assert schedule + [] == schedule && schedule + [] + [] == schedule;
      if execErr.Some? {
        err := Some(FromScript(execErr.value));
        assert statusCh.sent + [] == statusCh.sent;
        return;
      }
      StartKeeps(rows, run.runId, start.w);
      Lands(rows, run.runId, [start], Attempt(End(RunStatus.Passed, r.row.artifacts, env.passedAt), !env.passFault));
      err := RecordPass(r, env);
    }

    /** Marks the run as ended and writes it down. */
    method WriteFailure(err: RunFailure, run: Run, env: RunEnv)
      requires store.Valid()
      modifies this`attempts, run, store`rows
      ensures store.Valid()
      ensures var a := FailureWrite(env, old(run.row.artifacts), err);
        && attempts == old(attempts) + [a]
        && store.rows == (if a.ok then Update(old(store.rows), run.runId, a.w) else old(store.rows))
    {
      hide Update;
      run.row := run.row.(endedOn := Some(env.endedAt));
      if IsCancel(err) {
        run.row := run.row.(status := RunStatus.Cancelled);
      } else {
        run.row := run.row.(status := Failed);
      }
      var ok := store.UpdatePipelineRunEndedOn(
        run.runId, run.row.status, run.row.artifacts, env.endedAt, env.failFault);
      attempts := attempts + [Attempt(End(run.row.status, run.row.artifacts, env.endedAt), ok)];
    }

    method HandleProcessingFailed(err: RunFailure, run: Run, env: RunEnv)
      requires store.Valid()
      modifies this`attempts, this`signals, run, store`rows, outputCh, statusCh
      ensures store.Valid()
      ensures var a := FailureWrite(env, old(run.row.artifacts), err);
        && attempts == old(attempts) + [a]
        && store.rows == (if a.ok then Update(old(store.rows), run.runId, a.w) else old(store.rows))
      ensures signals == old(signals) + [Signal(|attempts|, |outputCh.sent|)]
      ensures outputCh.sent == old(outputCh.sent) + [Own(FailBanner)]
      ensures statusCh.sent == old(statusCh.sent)
        + if !env.failReadFault && run.runId in store.rows then [store.rows[run.runId]] else []
    {
      hide Update, FailureWrite;
      WriteFailure(err, run, env);
      var r := store.ReadRunByID(run.runId, env.failReadFault);
      if r != null {
        statusCh.Send(r.row);
      }
      outputCh.Send(Own(FailBanner));
      signals := signals + [Signal(|attempts|, |outputCh.sent|)];
    }

    /** The failure is recorded while the scanners that a failed script has left behind go on. */
    method RecordFailure(err: RunFailure, run: Run, env: RunEnv, g: Group, group: GroupState,
                         ghost present: bool, ghost scriptErr: Option<RunError>, ghost schedule: seq<Action>)
      returns (ghost script: Script)
      requires store.Valid() && ProcessResult(env, present, scriptErr) == Some(err)
      requires Executes(env, present, Script(schedule, [], []), scriptErr)
      requires outputCh.sent == Worked(env, present, Script(schedule, [], []))
      requires scriptErr.Some? ==> Stopped(Plan(env.stages, env.oracle), schedule, StateOf(env, schedule), g, group)
      modifies this`attempts, this`signals, run, store`rows, outputCh, statusCh
      ensures store.Valid()
      ensures var a := FailureWrite(env, old(run.row.artifacts), err);
        && attempts == old(attempts) + [a]
        && store.rows == (if a.ok then Update(old(store.rows), run.runId, a.w) else old(store.rows))
      ensures Executes(env, present, script, scriptErr) && outputCh.sent == Sent(env, present, script, scriptErr)
      ensures signals == old(signals) + [Signal(|attempts|, |Signalled(env, present, script, scriptErr)|)]
      ensures statusCh.sent == old(statusCh.sent)
        + if !env.failReadFault && run.runId in store.rows then [store.rows[run.runId]] else []
    {
      hide Exec, Trace, SetupMessages, Plan, Update, Stopped, Executes, Worked, LinesBefore, LinesAfter, StateOf;
      FailureOfScript(env, present, scriptErr, err, schedule);
      var now := group;
      ghost var before, after: seq<Action>, s, t := [], [], StateOf(env, schedule), StateOf(env, schedule);
      if err.FromScript? {
        now, before, s := LateScanners(
          g, group, env.linesBeforeBanner, outputCh, Plan(env.stages, env.oracle), schedule, s);
      }
      ghost var mid := now;
      HandleProcessingFailed(err, run, env);
      t := s;
      if err.FromScript? {
        now, after, t := LateScanners(
          g, now, env.linesAfterBanner, outputCh, Plan(env.stages, env.oracle), schedule + before, s);
      }
      script := Script(schedule, before, after);
      if err.FromScript? {
        LateLines(env, present, script, scriptErr, s, t, g, mid, now);
      } else {
        NothingLate(env, present, schedule);
      }
      WorkedBySchedule(env, present, script, Script(schedule, [], []));
      assert outputCh.sent == Sent(env, present, script, scriptErr);
    }

    /** Makes the run cancellable; `cancelled` says whether that is made use of. */
    method MakeCancellable(id: int, cancelled: bool)
      modifies cancelRunMap
      ensures cancelRunMap.cancels.Keys == old(cancelRunMap.cancels.Keys) + {id}
      ensures cancelRunMap.cancels == old(cancelRunMap.cancels)[id := cancelRunMap.cancels[id]]
      ensures fresh(cancelRunMap.cancels[id]) && (cancelRunMap.cancels[id].done <==> cancelled)
    {
      var ctx := new Context();
      cancelRunMap.AddCancel(id, ctx);
      if cancelled {
        var panicked := cancelRunMap.Call(id);
      }
    }

    /** A run, from the first store call to the send on done. */
    method Serve(run: Run, env: RunEnv)
      returns (err: Option<RunFailure>, ghost scriptErr: Option<RunError>, ghost script: Script)
      requires store.Valid() && outputCh.sent == [] && statusCh.sent == []
      modifies this`attempts, this`signals, run, store`rows, outputCh, statusCh
      ensures store.Valid()
      ensures var present, stored := run.runId in old(store.rows), StoredArtifacts(old(store.rows), run.runId);
        var writes := WorkerWrites(env, present, old(run.row.artifacts), stored, scriptErr);
        && err == ProcessResult(env, present, scriptErr)
        && attempts == old(attempts) + writes
        && store.rows == ApplyLog(old(store.rows), Landed(run.runId, writes))
      ensures var present := run.runId in old(store.rows);
        && Executes(env, present, script, scriptErr)
        && outputCh.sent == Sent(env, present, script, scriptErr)
        && signals == old(signals) + [Signal(|attempts|, |Signalled(env, present, script, scriptErr)|)]
      ensures statusCh.sent == StatusRows(env, old(store.rows), run.runId, old(run.row.artifacts), scriptErr)
    {
      hide Exec, Trace, SetupMessages, Plan, Update, ApplyLog, Landed, ProcessWrites, ProcessResult, SetupFailure,
        ProcessRows, Worked, Stopped, Sent, Signalled, Executes, StoredArtifacts, FailureWrite;
      ghost var rows := store.rows;
      ghost var present, stored := run.runId in rows, StoredArtifacts(rows, run.runId);
      var g, group;
      ghost var schedule;
      err, g, group, scriptErr, schedule := ProcessRun(run, env);
      ghost var writes := ProcessWrites(env, present, stored, scriptErr);
      assert writes + [] == writes;
      script := Script(schedule, [], []);
      if err.Some? {
        Lands(rows, run.runId, writes, FailureWrite(env, run.row.artifacts, err.value));
        script := RecordFailure(err.value, run, env, g, group, present, scriptErr, schedule);
      } else {
        NothingFails(env, present, script, scriptErr);
        assert statusCh.sent + [] == statusCh.sent;
      }
    }

    /** One turn of the worker's loop up to the send on done: the first run of the queue is taken,
        made cancellable and served. Meanwhile it may be cancelled, and the scanners that a failed
        script has left behind go on. */
    method ServeNext(env: RunEnv)
      returns (err: Option<RunFailure>, ghost scriptErr: Option<RunError>, ghost script: Script)
      requires store.Valid() && queue != []
      modifies this, cancelRunMap, store`rows, queue[0]
      ensures store.Valid() && fresh(outputCh) && fresh(statusCh)
      ensures queue == old(queue)[1..]
      ensures var id := old(queue)[0].runId;
        && cancelRunMap.cancels.Keys == old(cancelRunMap.cancels.Keys) + {id}
        && cancelRunMap.cancels == old(cancelRunMap.cancels)[id := cancelRunMap.cancels[id]]
        && fresh(cancelRunMap.cancels[id]) && (cancelRunMap.cancels[id].done <==> env.cancelled)
      ensures var id := old(queue)[0].runId;
        var present, stored := id in old(store.rows), StoredArtifacts(old(store.rows), id);
        var writes := WorkerWrites(env, present, old(queue[0].row.artifacts), stored, scriptErr);
        && err == ProcessResult(env, present, scriptErr)
        && attempts == old(attempts) + writes
        && store.rows == ApplyLog(old(store.rows), Landed(id, writes))
      ensures var present := old(queue)[0].runId in old(store.rows);
        && Executes(env, present, script, scriptErr)
        && outputCh.sent == Sent(env, present, script, scriptErr)
        && signals == old(signals) + [Signal(|attempts|, |Signalled(env, present, script, scriptErr)|)]
      ensures statusCh.sent
           == StatusRows(env, old(store.rows), old(queue)[0].runId, old(queue[0].row.artifacts), scriptErr)
    {
      hide ApplyLog, Landed, WorkerWrites, ProcessResult, StatusRows, Sent, Signalled, Executes, StoredArtifacts;
      var run := queue[0];
      queue := queue[1..];
      outputCh := new Channel<Event>();
      statusCh := new Channel<Row>();
      MakeCancellable(run.runId, env.cancelled);
      err, scriptErr, script := Serve(run, env);
    }

    /** What follows once the worker has received on done. */
    method FinishRun(run: Run)
      modifies cancelRunMap
      ensures cancelRunMap.cancels == old(cancelRunMap.cancels) - {run.runId}
    {
      cancelRunMap.RemoveCancel(run.runId);
    }
  }

  lemma NothingFails(env: RunEnv, present: bool, script: Script, scriptErr: Option<RunError>)
    requires ProcessResult(env, present, scriptErr).None?
    ensures Signalled(env, present, script, scriptErr) == Worked(env, present, script)
    ensures Sent(env, present, script, scriptErr) == Worked(env, present, script)
  {
    hide Worked, ProcessResult;
    var worked := Worked(env, present, script);
    assert worked + [] == worked && worked + [] + [] == worked;
  }

  lemma FailureOfScript(env: RunEnv, present: bool, scriptErr: Option<RunError>, err: RunFailure, schedule: seq<Action>)
    requires Executes(env, present, Script(schedule, [], []), scriptErr)
    requires ProcessResult(env, present, scriptErr) == Some(err)
    ensures err.FromScript? <==> scriptErr.Some?
    ensures err.FromScript? ==> SetupFailure(env, present).None?
  {
  }

  lemma WorkedBySchedule(env: RunEnv, present: bool, a: Script, b: Script)
    requires a.schedule == b.schedule
    ensures Worked(env, present, a) == Worked(env, present, b)
  {
  }

  lemma NothingLate(env: RunEnv, present: bool, schedule: seq<Action>)
    ensures LinesBefore(env, present, Script(schedule, [], [])) == []
    ensures LinesAfter(env, present, Script(schedule, [], [])) == []
  {
    assert schedule + [] == schedule && schedule + [] + [] == schedule;
  }

  /** How the lines delivered late are read off the script. */
  lemma LateLines(env: RunEnv, present: bool, script: Script, scriptErr: Option<RunError>, s: State, t: State,
                  g: Group, mid: GroupState, now: GroupState)
    requires SetupFailure(env, present).None?
    requires Executes(env, present, Script(script.schedule, [], []), scriptErr)
    requires Stopped(Plan(env.stages, env.oracle), script.schedule + script.before, s, g, mid)
    requires Stopped(Plan(env.stages, env.oracle), script.schedule + script.before + script.after, t, g, now)
    requires Trace(StateOf(env, script.schedule)) <= Trace(s) <= Trace(t)
    ensures Executes(env, present, script, scriptErr)
    ensures LinesBefore(env, present, script) == Trace(s)[|Trace(StateOf(env, script.schedule))|..]
    ensures LinesAfter(env, present, script) == Trace(t)[|Trace(s)|..]
  {
    hide Exec, Trace;
  }

  lemma NotConnecting(env: RunEnv)
    requires !OnAgent(env)
    ensures ConnectMessages(env) == []
  {
  }

  lemma NoSetupMessages(env: RunEnv, present: bool)
    requires env.dataFault || env.startFault || env.startReadFault || !present
    ensures SetupMessages(env, present) == []
  {
  }
}
