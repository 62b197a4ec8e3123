/** All runs of one queue together: creation, the bounded queue, the worker's status writes, the
    output goroutines' appends and cancellation, interleaved in any order, beside rows that this
    queue has nothing to do with. That a run ends and the worker returns to its queue is a step that
    may or may not be taken. */
module RunLifecycle {
  import opened Wrappers
  import opened Sequences
  import opened Messages
  import opened StepGroup
  import opened ScriptMachine
  import opened RunStore
  import opened RunQueue
  import opened RunVerdict
  import RunStream
  import ScriptTheorems

  /** The worker waits, has received a run, or serves it with these writes still to attempt. */
  datatype Worker = Idle | Holding(id: int) | Serving(id: int, todo: seq<Attempt>)

  /** The output goroutine of a run: what it has received, whether it still holds the last text,
      how many it has stored, how many had been received when the run was cancelled, and whether
      an append has failed for another reason than cancellation. */
  datatype Stream = Stream(received: seq<string>, holding: bool, stored: nat, cutoff: Option<nat>, faulted: bool)

  /** How a run goes: the outcomes it meets, the way its script is executed and the error that comes
      of it, the status writes attempted so far, and the row it started from. */
  datatype Course = Course(
    env: RunEnv, script: Script, scriptErr: Option<RunError>, done: seq<Attempt>, row: Row)

  /** The texts a run sends, and how many of them it has sent when the worker signals. */
  ghost function Texts(c: Course): seq<string> {
    Rendered(Sent(c.env, true, c.script, c.scriptErr))
  }

  ghost function TextsByDone(c: Course): nat {
    |Rendered(Signalled(c.env, true, c.script, c.scriptErr))|
  }

  /** The message of a step whose call was cancelled. */
  predicate IsNotice(e: Event) {
    e.OfStep? && e.act == Say(CancelNotice)
  }

  /** What is sent before the first such message, if there is one. */
  function BeforeNotice(sent: seq<Event>): seq<Event> {
    if sent == [] || IsNotice(sent[0]) then [] else [sent[0]] + BeforeNotice(sent[1..])
  }

  /** How many texts processRun sends, and how many come before a notice of cancellation. */
  ghost function TextsWorked(c: Course): nat {
    |Rendered(Worked(c.env, true, c.script))|
  }

  ghost function TextsBeforeNotice(c: Course): nat {
    |Rendered(BeforeNotice(Sent(c.env, true, c.script, c.scriptErr)))|
  }

  /** `foreign` are the rows of other queues and of earlier starts of the program. */
  datatype Sys = Sys(
    rows: map<int, Row>, nextId: int, foreign: set<int>,
    unoffered: set<int>, rejected: set<int>, accepted: seq<int>, pending: seq<int>, finished: seq<int>,
    worker: Worker, cancels: set<int>, streams: map<int, Stream>, courses: map<int, Course>)

  datatype Action =
    | Create(pipelineId: int, branch: string, now: int)
    | CreateElsewhere(pipelineId: int, branch: string, now: int)
    | WriteElsewhere(id: int, row: Row)
    | Offer(id: int, workerWaiting: bool)
    | Dequeue
    | Begin(env: RunEnv, script: Script, scriptErr: Option<RunError>)
    | StatusWrite
    | Receive
    | AppendHeld(id: int, fault: bool)
    | CancelRun(id: int)
    | Finish

  /** The program starts with any rows; none of them is ever enqueued again. */
  ghost predicate IsStart(s: Sys) {
    && s == Sys(s.rows, s.nextId, s.rows.Keys, {}, {}, [], [], [], Idle, {}, map[], map[])
    && 0 < s.nextId && forall id <- s.rows :: 0 < id < s.nextId
  }

  function Active(s: Sys): seq<int> {
    if s.worker.Idle? then [] else [s.worker.id]
  }

  function Writes(env: RunEnv, scriptErr: Option<RunError>, row: Row): seq<Attempt> {
    WorkerWrites(env, true, None, row.artifacts, scriptErr)
  }

  /* ---------- the steps; None when a step is not possible ---------- */

  function Created(s: Sys, pipelineId: int, branch: string, now: int): Sys {
    s.(rows := s.rows[s.nextId := NewRow(pipelineId, branch, now)], nextId := s.nextId + 1)
  }

  function WrittenElsewhere(s: Sys, id: int, row: Row): Option<Sys> {
    if id in s.foreign && id in s.rows then Some(s.(rows := s.rows[id := row])) else None
  }

  function Offered(cap: nat, s: Sys, id: int, workerWaiting: bool): Option<Sys> {
    if id !in s.unoffered || (workerWaiting && (s.worker != Idle || s.pending != [])) then None
    else if workerWaiting then
      Some(s.(unoffered := s.unoffered - {id}, accepted := s.accepted + [id], worker := Holding(id)))
    else if |s.pending| < cap then
      Some(s.(unoffered := s.unoffered - {id}, accepted := s.accepted + [id], pending := s.pending + [id]))
    else Some(s.(unoffered := s.unoffered - {id}, rejected := s.rejected + {id}))
  }

  function Dequeued(s: Sys): Option<Sys> {
    if s.worker != Idle || s.pending == [] then None
    else Some(s.(pending := s.pending[1..], worker := Holding(s.pending[0])))
  }

  ghost function Begun(s: Sys, env: RunEnv, script: Script, scriptErr: Option<RunError>): Option<Sys> {
    if !s.worker.Holding? || s.worker.id !in s.rows || !Executes(env, true, script, scriptErr) then None else
      var id := s.worker.id;
      Some(s.(worker := Serving(id, Writes(env, scriptErr, s.rows[id])), cancels := s.cancels + {id},
              streams := s.streams[id := Stream([], false, 0, None, false)],
              courses := s.courses[id := Course(env, script, scriptErr, [], s.rows[id])]))
  }

  /** The end of a run is written when everything that processRun sends has been received. */
  ghost predicate MayWrite(c: Course, st: Stream, w: Write) {
    w.End? ==> |st.received| >= TextsWorked(c)
  }

  ghost function StatusWritten(s: Sys): Option<Sys> {
    if !s.worker.Serving? || s.worker.todo == [] || s.worker.id !in s.courses || s.worker.id !in s.streams
       || !MayWrite(s.courses[s.worker.id], s.streams[s.worker.id], s.worker.todo[0].w) then None else
      var id, w, c := s.worker.id, s.worker.todo[0], s.courses[s.worker.id];
      Some(s.(worker := Serving(id, s.worker.todo[1..]), courses := s.courses[id := c.(done := c.done + [w])],
              rows := if w.ok then Update(s.rows, id, w.w) else s.rows))
  }

  /** The next text of a run, if there is one: none before the start has been written, no FAIL banner
      before the end has, and no notice of a cancellation unless the run has been cancelled. */
  ghost predicate MayReceive(c: Course, st: Stream, todo: seq<Attempt>) {
    && !st.holding && |st.received| < |Texts(c)|
    && (todo != [] ==> !todo[0].w.Start?)
    && (ProcessResult(c.env, true, c.scriptErr).Some? && |st.received| + 1 >= TextsByDone(c) ==> todo == [])
    && (|st.received| >= TextsBeforeNotice(c) ==> st.cutoff.Some?)
  }

  ghost function Received(s: Sys): Option<Sys> {
    if !s.worker.Serving? || s.worker.id !in s.streams || s.worker.id !in s.courses
       || !MayReceive(s.courses[s.worker.id], s.streams[s.worker.id], s.worker.todo) then None else
      var st := s.streams[s.worker.id];
      var text := Texts(s.courses[s.worker.id])[|st.received|];
      Some(s.(streams := s.streams[s.worker.id := st.(received := st.received + [text], holding := true)]))
  }

  /** The append of the text a goroutine holds: refused once the run is cancelled. */
  function Appended(s: Sys, id: int, fault: bool): Option<Sys> {
    if !(id in s.streams && id in s.rows && s.streams[id].holding && s.streams[id].received != []) then None else
      var st := s.streams[id];
      if st.cutoff.Some? then Some(s.(streams := s.streams[id := st.(holding := false)]))
      else if fault then Some(s.(streams := s.streams[id := st.(holding := false, faulted := true)]))
      else Some(s.(rows := Update(s.rows, id, Append(st.received[|st.received| - 1])),
                   streams := s.streams[id := st.(holding := false, stored := st.stored + 1)]))
  }

  /** For an id that is not in the cancel map the caller panics and nothing changes. */
  function Cancelled(s: Sys, id: int): Sys {
    if id !in s.cancels || id !in s.streams || s.streams[id].cutoff.Some? then s
    else s.(streams := s.streams[id := s.streams[id].(cutoff := Some(|s.streams[id].received|))])
  }

  ghost function Finished(s: Sys): Option<Sys> {
    if !s.worker.Serving? || s.worker.todo != [] || s.worker.id !in s.streams || s.worker.id !in s.courses
       || |s.streams[s.worker.id].received| < TextsByDone(s.courses[s.worker.id]) then None
    else Some(s.(worker := Idle, finished := s.finished + [s.worker.id], cancels := s.cancels - {s.worker.id}))
  }

  ghost function Take(cap: nat, s: Sys, a: Action): Option<Sys> {
    match a
    case Create(pipelineId, branch, now) =>
      Some(Created(s, pipelineId, branch, now).(unoffered := s.unoffered + {s.nextId}))
    case CreateElsewhere(pipelineId, branch, now) =>
      Some(Created(s, pipelineId, branch, now).(foreign := s.foreign + {s.nextId}))
    case WriteElsewhere(id, row) => WrittenElsewhere(s, id, row)
    case Offer(id, workerWaiting) => Offered(cap, s, id, workerWaiting)
    case Dequeue => Dequeued(s)
    case Begin(env, script, scriptErr) => Begun(s, env, script, scriptErr)
    case StatusWrite => StatusWritten(s)
    case Receive => Received(s)
    case AppendHeld(id, fault) => Appended(s, id, fault)
    case CancelRun(id) => Some(Cancelled(s, id))
    case Finish => Finished(s)
  }

  ghost function Exec(cap: nat, start: Sys, actions: seq<Action>): Option<Sys> {
    if actions == [] then Some(start) else
      var before := Exec(cap, start, actions[..|actions| - 1]);
      if before.Some? then Take(cap, before.value, actions[|actions| - 1]) else None
  }

  /** Whatever outcomes a run meets, there is a way for it to go. */
  lemma BeginIsPossible(cap: nat, s: Sys, env: RunEnv)
    requires s.worker.Holding? && s.worker.id in s.rows
    ensures exists script, scriptErr :: Take(cap, s, Begin(env, script, scriptErr)).Some?
  {
    hide ScriptMachine.Exec, Plan;
    var script, scriptErr := Script([], [], []), None;
    if SetupFailure(env, true).None? {
      assert ScriptMachine.Exec(Plan(env.stages, env.oracle), []).Some? by { EmptySchedule(env); }
      var full := ScriptTheorems.CanReturn(env.stages, env.oracle, []);
      script := Script(full, [], []);
      scriptErr := StateOf(env, full).status.err;
      assert full + [] == full && full + [] + [] == full;
    }
    assert Executes(env, true, script, scriptErr);
    assert Take(cap, s, Begin(env, script, scriptErr)).Some?;
  }

  lemma EmptySchedule(env: RunEnv)
    ensures ScriptMachine.Exec(Plan(env.stages, env.oracle), []).Some?
  {
  }

  /* ---------- conservation and order ---------- */

  ghost predicate NoDuplicates(ids: seq<int>) {
    forall i, j :: 0 <= i < j < |ids| ==> ids[i] != ids[j]
  }

  /** Every created run is in exactly one place, runs are taken in the order in which they were
      accepted, the queue is bounded, and only the run being served can be cancelled. */
  ghost predicate Conserved(cap: nat, s: Sys) {
    && s.accepted == s.finished + Active(s) + s.pending
    && NoDuplicates(s.accepted)
    && s.unoffered !! s.rejected
    && (forall id <- s.accepted :: id !in s.unoffered && id !in s.rejected)
    && (forall id <- s.foreign :: id !in s.unoffered && id !in s.rejected && id !in s.accepted)
    && (forall id :: id in s.rows <==> id in s.foreign || id in s.unoffered || id in s.rejected || id in s.accepted)
    && (forall id <- s.rows :: 0 < id < s.nextId) && 0 < s.nextId
    && |s.pending| <= cap
    && s.cancels == (if s.worker.Serving? then {s.worker.id} else {})
  }

  lemma SnocHasNoDuplicates(ids: seq<int>, id: int)
    requires NoDuplicates(ids) && id !in ids
    ensures NoDuplicates(ids + [id])
  {
  }

  lemma ConservedOffer(cap: nat, s: Sys, id: int, waiting: bool)
    requires Conserved(cap, s) && Offered(cap, s, id, waiting).Some?
    ensures Conserved(cap, Offered(cap, s, id, waiting).value)
  {
    var s' := Offered(cap, s, id, waiting).value;
    assert id in s.rows && id !in s.accepted;
    SnocHasNoDuplicates(s.accepted, id);
    assert s.finished + Active(s) + s.pending + [id] == s.finished + Active(s) + (s.pending + [id]);
    if waiting {
      assert s'.accepted == s'.finished + Active(s') + s'.pending;
    }
  }

  /** A step that only concerns the run being served, or rows that are there already. */
  lemma ConservedServing(cap: nat, s: Sys, s': Sys)
    requires Conserved(cap, s) && s'.rows.Keys == s.rows.Keys && Active(s') == Active(s)
    requires s'.cancels == if s'.worker.Serving? then {s'.worker.id} else {}
    requires s' == s.(rows := s'.rows, worker := s'.worker, cancels := s'.cancels, streams := s'.streams,
                      courses := s'.courses)
    ensures Conserved(cap, s')
  {
    hide NoDuplicates, Active;
    forall id
      ensures id in s'.rows <==> id in s.rows
    {
      assert id in s'.rows.Keys <==> id in s.rows.Keys;
    }
  }

  lemma ConservedCreate(cap: nat, s: Sys, pipelineId: int, branch: string, now: int)
    requires Conserved(cap, s)
    ensures Conserved(cap, Created(s, pipelineId, branch, now).(unoffered := s.unoffered + {s.nextId}))
    ensures Conserved(cap, Created(s, pipelineId, branch, now).(foreign := s.foreign + {s.nextId}))
  {
    hide NoDuplicates, NewRow;
    assert s.nextId !in s.rows;
  }

  lemma ConservedDequeue(cap: nat, s: Sys)
    requires Conserved(cap, s) && Dequeued(s).Some?
    ensures Conserved(cap, Dequeued(s).value)
  {
    hide NoDuplicates;
    var s' := Dequeued(s).value;
    assert s.pending == [s.pending[0]] + s.pending[1..];
    assert s'.finished + Active(s') + s'.pending == s.accepted;
  }

  lemma ConservedFinish(cap: nat, s: Sys)
    requires Conserved(cap, s) && Finished(s).Some?
    ensures Conserved(cap, Finished(s).value)
  {
    hide NoDuplicates, TextsByDone;
    var s' := Finished(s).value;
    assert s'.finished + Active(s') + s'.pending == s.accepted;
  }

  lemma ConservedBegin(cap: nat, s: Sys, env: RunEnv, script: Script, scriptErr: Option<RunError>)
    requires Conserved(cap, s) && Begun(s, env, script, scriptErr).Some?
    ensures Conserved(cap, Begun(s, env, script, scriptErr).value)
  {
    hide Writes, Executes, NoDuplicates;
    ConservedServing(cap, s, Begun(s, env, script, scriptErr).value);
  }

  lemma ConservedStatusWrite(cap: nat, s: Sys)
    requires Conserved(cap, s) && StatusWritten(s).Some?
    ensures Conserved(cap, StatusWritten(s).value)
  {
    hide Apply, MayWrite, NoDuplicates;
    ConservedServing(cap, s, StatusWritten(s).value);
  }

  lemma ConservedReceive(cap: nat, s: Sys)
    requires Conserved(cap, s) && Received(s).Some?
    ensures Conserved(cap, Received(s).value)
  {
    hide Texts, TextsByDone, TextsBeforeNotice, NoDuplicates;
    ConservedServing(cap, s, Received(s).value);
  }

  lemma ConservedStep(cap: nat, s: Sys, a: Action)
    requires Conserved(cap, s) && Take(cap, s, a).Some?
    ensures Conserved(cap, Take(cap, s, a).value)
  {
    hide Conserved, Created, Offered, Dequeued, Begun, StatusWritten, Received, Finished;
    match a
    case Create(pipelineId, branch, now) => ConservedCreate(cap, s, pipelineId, branch, now);
    case CreateElsewhere(pipelineId, branch, now) => ConservedCreate(cap, s, pipelineId, branch, now);
    case Offer(id, waiting) => ConservedOffer(cap, s, id, waiting);
    case Dequeue => ConservedDequeue(cap, s);
    case Begin(env, script, scriptErr) => ConservedBegin(cap, s, env, script, scriptErr);
    case StatusWrite => ConservedStatusWrite(cap, s);
    case Receive => ConservedReceive(cap, s);
    case Finish => ConservedFinish(cap, s);
    case _ => ConservedSmall(cap, s, a);
  }

  lemma ConservedSmall(cap: nat, s: Sys, a: Action)
    requires Conserved(cap, s) && (a.WriteElsewhere? || a.AppendHeld? || a.CancelRun?) && Take(cap, s, a).Some?
    ensures Conserved(cap, Take(cap, s, a).value)
  {
    hide Apply, NoDuplicates, Created, Offered, Dequeued, Begun, StatusWritten, Received, Finished;
    assert s.cancels == (if s.worker.Serving? then {s.worker.id} else {});
    ConservedServing(cap, s, Take(cap, s, a).value);
  }

  /* ---------- the rows ---------- */

  /** The moves a run's status makes. The one that overwrites a terminal status is the failure
      recorded after a passed run could not be read back. */
  predicate LegalMove(env: RunEnv, before: RunStatus, after: RunStatus) {
    match before
    case Queued => after.Running? || after.Failed?
    case Running => Terminal(after)
    case Passed => after.Failed? && env.passReadFault
    case _ => false
  }

  predicate LegalWrite(env: RunEnv, before: RunStatus, w: Write) {
    match w
    case Start(_, after, _) => after.Running? && LegalMove(env, before, after)
    case End(after, artifacts, _) => Terminal(after) && LegalMove(env, before, after) && artifacts.None?
    case Append(_) => false
  }

  predicate LegalPlan(env: RunEnv, before: RunStatus, todo: seq<Attempt>)
    decreases |todo|
  {
    todo != [] ==>
      if !todo[0].ok then !todo[0].w.Append? && LegalPlan(env, before, todo[1..])
      else LegalWrite(env, before, todo[0].w) && LegalPlan(env, todo[0].w.status, todo[1..])
  }

  lemma WritesAreLegal(env: RunEnv, scriptErr: Option<RunError>)
    ensures LegalPlan(env, Queued, WorkerWrites(env, true, None, None, scriptErr))
  {
    var writes := WorkerWrites(env, true, None, None, scriptErr);
    var result := ProcessResult(env, true, scriptErr);
    if result.Some? {
      var failure := [FailureWrite(env, None, result.value)];
      if env.dataFault {
        assert writes == failure;
      } else if SetupFailure(env, true).Some? || scriptErr.Some? {
        assert writes[1..] == failure;
      } else {
        assert writes[1..][1..] == failure;
        assert LegalPlan(env, if env.passFault then RunStatus.Running else RunStatus.Passed, failure);
        assert LegalPlan(env, RunStatus.Running, writes[1..]);
      }
    } else {
      assert writes[1..][1..] == [];
    }
  }

  predicate Untouched(row: Row) {
    row == NewRow(row.pipelineId, row.branch, row.createdOn)
  }

  function Todo(s: Sys, id: int): seq<Attempt> {
    if s.worker.Serving? && s.worker.id == id then s.worker.todo else []
  }

  /** A row is where its worker's applied writes have brought it, apart from the output. */
  ghost predicate CourseOk(s: Sys, id: int)
    requires id in s.courses && id in s.rows
  {
    var c := s.courses[id];
    && Untouched(c.row) && Executes(c.env, true, c.script, c.scriptErr)
    && c.done + Todo(s, id) == Writes(c.env, c.scriptErr, c.row)
    && s.rows[id].(output := None) == Settle(c.row, c.done).(output := None)
    && LegalPlan(c.env, s.rows[id].status, Todo(s, id))
  }

  predicate RowOk(row: Row) {
    (Terminal(row.status) <==> row.endedOn.Some?) && row.artifacts.None?
  }

  ghost predicate RowsOk(s: Sys) {
    && (forall id <- s.rows :: id !in s.foreign ==> RowOk(s.rows[id]))
    && (forall id <- s.rows :: id !in s.foreign && id !in s.courses ==> Untouched(s.rows[id]))
    && (forall id <- s.courses :: id in s.rows && id !in s.foreign && CourseOk(s, id))
    && (forall id :: id in s.courses <==> id in s.finished || (s.worker.Serving? && s.worker.id == id))
  }

  lemma LegalWriteKeepsRowOk(env: RunEnv, row: Row, w: Write)
    requires RowOk(row) && LegalWrite(env, row.status, w)
    ensures RowOk(Apply(row, w)) && Apply(row, w).status == w.status
  {
  }

  lemma PlanAdvances(env: RunEnv, row: Row, done: seq<Attempt>, todo: seq<Attempt>, start: Row)
    requires todo != [] && LegalPlan(env, row.status, todo) && RowOk(row)
    requires row.(output := None) == Settle(start, done).(output := None)
    ensures var a := todo[0]; var row' := if a.ok then Apply(row, a.w) else row;
      && RowOk(row') && LegalPlan(env, row'.status, todo[1..]) && row'.output == row.output
      && row'.(output := None) == Settle(start, done + [a]).(output := None)
  {
    var a := todo[0];
    SettleSnoc(start, done, a);
    if a.ok {
      OutputIsApart(row, Settle(start, done), a.w);
      LegalWriteKeepsRowOk(env, row, a.w);
    }
  }

  lemma StatusWriteKeepsCourse(s: Sys)
    requires RowsOk(s) && StatusWritten(s).Some?
    ensures var s', id := StatusWritten(s).value, s.worker.id;
      && id in s.rows && id in s'.rows
      && CourseOk(s', id) && RowOk(s'.rows[id]) && s'.rows[id].output == s.rows[id].output
  {
    hide Apply, RowOk, Writes, Untouched, LegalWrite, LegalPlan, Settle, Executes, MayWrite;
    var id, c := s.worker.id, s.courses[s.worker.id];
    assert CourseOk(s, id);
    PlanAdvances(c.env, s.rows[id], c.done, s.worker.todo, c.row);
    assert c.done + s.worker.todo == c.done + [s.worker.todo[0]] + s.worker.todo[1..];
  }

  lemma HeldRunIsNew(cap: nat, s: Sys)
    requires Conserved(cap, s) && RowsOk(s) && s.worker.Holding?
    ensures s.worker.id in s.rows && s.worker.id !in s.foreign && s.worker.id !in s.courses
    ensures Untouched(s.rows[s.worker.id])
  {
    hide CourseOk, RowOk, Untouched, NoDuplicates;
    HeldIsNotFinished(cap, s);
    assert s.accepted[|s.finished|] == s.worker.id;
  }

  lemma HeldIsNotFinished(cap: nat, s: Sys)
    requires Conserved(cap, s) && !s.worker.Idle?
    ensures s.worker.id !in s.finished
  {
    assert s.accepted[|s.finished|] == s.worker.id;
    forall j | 0 <= j < |s.finished|
      ensures s.finished[j] != s.worker.id
    {
      assert s.accepted[j] == s.finished[j];
    }
  }

  lemma CourseKept(s: Sys, s': Sys, id: int)
    requires id in s.courses && id in s.rows && CourseOk(s, id)
    requires id in s'.courses && id in s'.rows && s'.courses[id] == s.courses[id]
    requires s'.rows[id].(output := None) == s.rows[id].(output := None) && s'.rows[id].status == s.rows[id].status
    requires Todo(s', id) == Todo(s, id)
    ensures CourseOk(s', id)
  {
    hide Writes, LegalPlan, Settle, Untouched, Executes;
  }

  lemma RowsStatusWrite(s: Sys)
    requires RowsOk(s) && StatusWritten(s).Some?
    ensures RowsOk(StatusWritten(s).value)
  {
    StatusWriteKeepsCourse(s);
    hide Apply, RowOk, Untouched, CourseOk, MayWrite;
    var s' := StatusWritten(s).value;
    forall j | j in s'.courses
      ensures j in s'.rows && CourseOk(s', j)
    {
      if j != s.worker.id {
        CourseKept(s, s', j);
      }
    }
  }

  lemma OnlyOutputAppended(row: Row, text: string)
    requires RowOk(row)
    ensures var row' := Apply(row, Append(text));
      row'.(output := None) == row.(output := None) && row'.status == row.status && RowOk(row')
  {
  }

  lemma RowsAppend(s: Sys, id: int, fault: bool)
    requires RowsOk(s) && Appended(s, id, fault).Some? && id in s.courses
    ensures RowsOk(Appended(s, id, fault).value)
  {
    hide Untouched, Apply, RowOk, CourseOk;
    var s', st := Appended(s, id, fault).value, s.streams[id];
    OnlyOutputAppended(s.rows[id], st.received[|st.received| - 1]);
    forall j | j in s'.courses
      ensures j in s'.rows && CourseOk(s', j)
    {
      CourseKept(s, s', j);
    }
  }

  lemma BegunCourse(s: Sys, env: RunEnv, script: Script, scriptErr: Option<RunError>)
    requires Begun(s, env, script, scriptErr).Some? && Untouched(s.rows[s.worker.id])
    ensures var s', id := Begun(s, env, script, scriptErr).value, s.worker.id;
      id in s'.courses && id in s'.rows && CourseOk(s', id) && RowOk(s'.rows[id])
  {
    hide WorkerWrites, LegalPlan, Executes;
    WritesAreLegal(env, scriptErr);
    var s' := Begun(s, env, script, scriptErr).value;
    assert [] + s'.worker.todo == s'.worker.todo;
  }

  /** The run that has been held is being served. */
  lemma RowsStarted(s: Sys, s': Sys, id: int)
    requires RowsOk(s) && id in s.rows && id !in s.foreign
    requires id in s'.courses && id in s'.rows && CourseOk(s', id)
    requires s.worker == Holding(id) && s'.worker.Serving? && s'.worker.id == id
    requires s'.rows == s.rows && s'.foreign == s.foreign && s'.finished == s.finished
    requires s'.courses == s.courses[id := s'.courses[id]]
    ensures RowsOk(s')
  {
    hide CourseOk, RowOk, Untouched;
    forall j | j in s'.courses
      ensures j in s'.rows && j !in s'.foreign && CourseOk(s', j)
    {
      if j != id {
        assert j in s.courses;
        CourseKept(s, s', j);
      }
    }
  }

  lemma RowsBegin(cap: nat, s: Sys, env: RunEnv, script: Script, scriptErr: Option<RunError>)
    requires Conserved(cap, s) && RowsOk(s) && Begun(s, env, script, scriptErr).Some?
    ensures RowsOk(Begun(s, env, script, scriptErr).value)
  {
    hide Conserved, RowsOk, CourseOk, RowOk, Untouched, Writes, Executes;
    HeldRunIsNew(cap, s);
    BegunCourse(s, env, script, scriptErr);
    RowsStarted(s, Begun(s, env, script, scriptErr).value, s.worker.id);
  }

  /** A new row, of this queue or another. */
  lemma RowsAdded(s: Sys, s': Sys, id: int)
    requires RowsOk(s) && id !in s.rows && id in s'.rows && s'.rows == s.rows[id := s'.rows[id]]
    requires RowOk(s'.rows[id]) && Untouched(s'.rows[id])
    requires s'.courses == s.courses && s'.worker == s.worker && s'.finished == s.finished
    requires s'.foreign == s.foreign || s'.foreign == s.foreign + {id}
    ensures RowsOk(s')
  {
    hide CourseOk, RowOk, Untouched;
    forall j | j in s'.courses
      ensures j in s'.rows && j !in s'.foreign && CourseOk(s', j)
    {
      assert j in s.courses && j != id;
      CourseKept(s, s', j);
    }
  }

  lemma NewRowOk(pipelineId: int, branch: string, now: int)
    ensures RowOk(NewRow(pipelineId, branch, now)) && Untouched(NewRow(pipelineId, branch, now))
  {
  }

  lemma RowsCreate(cap: nat, s: Sys, pipelineId: int, branch: string, now: int)
    requires Conserved(cap, s) && RowsOk(s)
    ensures RowsOk(Created(s, pipelineId, branch, now).(unoffered := s.unoffered + {s.nextId}))
    ensures RowsOk(Created(s, pipelineId, branch, now).(foreign := s.foreign + {s.nextId}))
  {
    assert s.nextId !in s.rows;
    hide Conserved, RowsOk, RowOk, Untouched, NewRow;
    NewRowOk(pipelineId, branch, now);
    var s' := Created(s, pipelineId, branch, now);
    RowsAdded(s, s'.(unoffered := s.unoffered + {s.nextId}), s.nextId);
    RowsAdded(s, s'.(foreign := s.foreign + {s.nextId}), s.nextId);
  }

  /** A step that leaves the rows, the courses and the writes still to attempt alone, except for rows
      this queue has nothing to do with. */
  lemma RowsKept(s: Sys, s': Sys)
    requires RowsOk(s) && s'.courses == s.courses && s'.foreign == s.foreign && s'.rows.Keys == s.rows.Keys
    requires forall id <- s.rows :: id !in s.foreign ==> s'.rows[id] == s.rows[id]
    requires forall id :: Todo(s', id) == Todo(s, id)
    requires forall id :: id in s'.finished || (s'.worker.Serving? && s'.worker.id == id)
                     <==> id in s.finished || (s.worker.Serving? && s.worker.id == id)
    ensures RowsOk(s')
  {
    hide CourseOk, RowOk, Untouched, Todo;
    assert forall id :: id in s'.rows <==> id in s'.rows.Keys;
    assert forall id <- s'.rows :: id in s.rows;
    forall j | j in s'.courses
      ensures j in s'.rows && CourseOk(s', j)
    {
      assert j in s.rows.Keys;
      CourseKept(s, s', j);
    }
  }

  lemma RowsOther(cap: nat, s: Sys, a: Action)
    requires RowsOk(s) && Take(cap, s, a).Some?
    requires a.WriteElsewhere? || a.Offer? || a.Dequeue? || a.Receive? || a.CancelRun? || a.Finish?
    ensures RowsOk(Take(cap, s, a).value)
  {
    hide RowsOk, Texts, TextsByDone, MayReceive, Begun, StatusWritten, Appended, Created;
    RowsKept(s, Take(cap, s, a).value);
  }

  /* ---------- the output goroutines ---------- */

  /** Unless an append failed for another reason, the stored output is what was received up to
      some point: all that has been handled, or, in a cancelled run, no more than had been
      received when it was cancelled. */
  ghost predicate StreamOk(row: Row, st: Stream) {
    && st.stored <= |st.received| && (st.holding ==> st.received != [])
    && (st.cutoff.None? ==> st.stored + (if st.holding then 1 else 0) <= |st.received|)
    && (st.cutoff.Some? ==> st.stored <= st.cutoff.value <= |st.received|)
    && (st.cutoff.None? && !st.faulted ==> |st.received| == st.stored + if st.holding then 1 else 0)
    && (!st.faulted ==> Content(row.output) == Flatten(st.received[..st.stored]))
  }

  ghost predicate StreamsOk(s: Sys) {
    && s.streams.Keys == s.courses.Keys
    && (forall id <- s.streams :: id in s.rows && id !in s.foreign && StreamOk(s.rows[id], s.streams[id]))
  }

  /** A goroutine has received the first texts of its run, and it receives a notice of cancellation
      only after the run has been cancelled. */
  ghost predicate Heard(c: Course, st: Stream) {
    && st.received <= Texts(c)
    && (|st.received| > TextsBeforeNotice(c) ==> st.cutoff.Some? && st.cutoff.value <= TextsBeforeNotice(c))
  }

  /** Once the end of a run has been written, it has received all that processRun sends. */
  ghost predicate Reported(c: Course, st: Stream) {
    forall a <- c.done :: a.w.End? ==> |st.received| >= TextsWorked(c)
  }

  /** A run that has finished has received all it had sent when the worker signalled. */
  ghost predicate HeardAll(s: Sys) {
    && (forall id <- s.streams ::
          id in s.courses && Heard(s.courses[id], s.streams[id]) && Reported(s.courses[id], s.streams[id]))
    && (forall id <- s.finished :: id in s.streams && id in s.courses
          && |s.streams[id].received| >= TextsByDone(s.courses[id]))
  }

  lemma StreamAppend(row: Row, st: Stream)
    requires StreamOk(row, st) && st.holding && st.cutoff.None?
    ensures StreamOk(Apply(row, Append(st.received[|st.received| - 1])), st.(holding := false, stored := st.stored + 1))
    ensures StreamOk(row, st.(holding := false, faulted := true))
  {
    if !st.faulted {
      var n := st.stored;
      assert st.received[..n + 1][..n] == st.received[..n];
    }
  }

  lemma StreamReceive(row: Row, st: Stream, text: string)
    requires StreamOk(row, st) && !st.holding
    ensures StreamOk(row, st.(received := st.received + [text], holding := true))
  {
    assert (st.received + [text])[..st.stored] == st.received[..st.stored];
  }

  lemma StatusWriteKeepsOutput(s: Sys)
    requires RowsOk(s) && StatusWritten(s).Some?
    ensures var s' := StatusWritten(s).value;
      forall id <- s.rows :: id in s'.rows && s'.rows[id].output == s.rows[id].output
  {
    StatusWriteKeepsCourse(s);
    hide RowsOk, Apply, MayWrite;
  }

  lemma StreamsAppend(s: Sys, id: int, fault: bool)
    requires StreamsOk(s) && Appended(s, id, fault).Some?
    ensures StreamsOk(Appended(s, id, fault).value)
  {
    hide Flatten, Apply;
    if s.streams[id].cutoff.None? {
      StreamAppend(s.rows[id], s.streams[id]);
    }
  }

  lemma StreamsReceive(s: Sys)
    requires StreamsOk(s) && Received(s).Some?
    ensures StreamsOk(Received(s).value)
  {
    hide StreamOk, Texts, TextsByDone, TextsBeforeNotice;
    var st := s.streams[s.worker.id];
    StreamReceive(s.rows[s.worker.id], st, Texts(s.courses[s.worker.id])[|st.received|]);
  }

  lemma OnlyOutputMatters(row: Row, other: Row, st: Stream)
    requires StreamOk(row, st) && other.output == row.output
    ensures StreamOk(other, st)
  {
  }

  lemma StreamsStatusWrite(s: Sys)
    requires RowsOk(s) && StreamsOk(s) && StatusWritten(s).Some?
    ensures StreamsOk(StatusWritten(s).value)
  {
    StatusWriteKeepsOutput(s);
    hide StreamOk, RowsOk, Update, MayWrite;
    var s' := StatusWritten(s).value;
    forall id | id in s'.streams
      ensures id in s'.rows && StreamOk(s'.rows[id], s'.streams[id])
    {
      OnlyOutputMatters(s.rows[id], s'.rows[id], s.streams[id]);
    }
    assert s'.courses.Keys == s.courses.Keys;
  }

  lemma StreamsBegin(cap: nat, s: Sys, env: RunEnv, script: Script, scriptErr: Option<RunError>)
    requires Conserved(cap, s) && RowsOk(s) && StreamsOk(s) && Begun(s, env, script, scriptErr).Some?
    ensures StreamsOk(Begun(s, env, script, scriptErr).value)
  {
    HeldRunIsNew(cap, s);
    NothingReceived(s.rows[s.worker.id]);
    hide StreamOk, Conserved, RowsOk, Writes, Untouched, Executes;
  }

  lemma StreamsCancel(s: Sys, id: int)
    requires StreamsOk(s)
    ensures StreamsOk(Cancelled(s, id))
  {
    hide Flatten;
  }

  lemma StreamsCreate(cap: nat, s: Sys, pipelineId: int, branch: string, now: int)
    requires Conserved(cap, s) && StreamsOk(s)
    ensures StreamsOk(Created(s, pipelineId, branch, now).(unoffered := s.unoffered + {s.nextId}))
    ensures StreamsOk(Created(s, pipelineId, branch, now).(foreign := s.foreign + {s.nextId}))
  {
    assert s.nextId !in s.rows;
    hide StreamOk, Conserved, NewRow;
  }

  lemma StreamsOther(cap: nat, s: Sys, a: Action)
    requires StreamsOk(s) && Take(cap, s, a).Some?
    requires a.WriteElsewhere? || a.Offer? || a.Dequeue? || a.Finish?
    ensures StreamsOk(Take(cap, s, a).value)
  {
    hide StreamOk, TextsByDone, Created, Begun, StatusWritten, Received, Appended, Cancelled;
  }

  lemma StreamsStep(cap: nat, s: Sys, a: Action)
    requires Conserved(cap, s) && RowsOk(s) && StreamsOk(s) && Take(cap, s, a).Some?
    ensures StreamsOk(Take(cap, s, a).value)
  {
    hide Conserved, RowsOk, StreamsOk, Created, Begun, StatusWritten, Received, Appended, Cancelled;
    hide Offered, Dequeued, Finished, WrittenElsewhere;
    match a
    case Create(pipelineId, branch, now) => StreamsCreate(cap, s, pipelineId, branch, now);
    case CreateElsewhere(pipelineId, branch, now) => StreamsCreate(cap, s, pipelineId, branch, now);
    case AppendHeld(id, fault) => StreamsAppend(s, id, fault);
    case Receive => StreamsReceive(s);
    case StatusWrite => StreamsStatusWrite(s);
    case Begin(env, script, scriptErr) => StreamsBegin(cap, s, env, script, scriptErr);
    case CancelRun(id) => StreamsCancel(s, id);
    case _ => StreamsOther(cap, s, a);
  }

  /* ---------- what the goroutines have received ---------- */

  lemma SameTexts(c: Course, d: Course)
    requires d.env == c.env && d.script == c.script && d.scriptErr == c.scriptErr
    ensures Texts(d) == Texts(c) && TextsByDone(d) == TextsByDone(c)
    ensures TextsWorked(d) == TextsWorked(c) && TextsBeforeNotice(d) == TextsBeforeNotice(c)
  {
  }

  /** Nothing has been received, no run has been cancelled or has finished, and no status written. */
  lemma HeardKept(s: Sys, s': Sys)
    requires HeardAll(s) && s'.finished == s.finished && s'.courses == s.courses
    requires s'.streams.Keys == s.streams.Keys
    requires forall id <- s.streams ::
      s'.streams[id].received == s.streams[id].received && s'.streams[id].cutoff == s.streams[id].cutoff
    ensures HeardAll(s')
  {
    hide Texts, TextsByDone, TextsWorked, TextsBeforeNotice;
    assert forall id <- s'.streams :: id in s.streams.Keys;
    assert forall id <- s.finished :: id in s'.streams.Keys;
  }

  lemma HeardNext(row: Row, c: Course, st: Stream, todo: seq<Attempt>)
    requires StreamOk(row, st) && Heard(c, st) && Reported(c, st) && MayReceive(c, st, todo)
    ensures var st' := st.(received := st.received + [Texts(c)[|st.received|]], holding := true);
      Heard(c, st') && Reported(c, st')
  {
    hide Texts, TextsByDone, TextsWorked, TextsBeforeNotice, Flatten;
  }

  lemma HeardChanged(s: Sys, s': Sys, id: int, c: Course, st: Stream)
    requires HeardAll(s) && Heard(c, st) && Reported(c, st)
    requires id in s.finished ==> |st.received| >= TextsByDone(c)
    requires s'.streams == s.streams[id := st] && s'.courses == s.courses[id := c] && s'.finished == s.finished
    ensures HeardAll(s')
  {
    hide Heard, Reported, TextsByDone;
  }

  lemma HeardReceive(s: Sys)
    requires StreamsOk(s) && HeardAll(s) && Received(s).Some?
    ensures HeardAll(Received(s).value)
  {
    var id := s.worker.id;
    var c, st := s.courses[id], s.streams[id];
    HeardNext(s.rows[id], c, st, s.worker.todo);
    hide Heard, Reported, StreamOk, Texts, TextsByDone, MayReceive;
    assert s.courses == s.courses[id := c];
    assert MayReceive(c, st, s.worker.todo);
    HeardChanged(s, Received(s).value, id, c, Received(s).value.streams[id]);
  }

  lemma HeardBegin(cap: nat, s: Sys, env: RunEnv, script: Script, scriptErr: Option<RunError>)
    requires Conserved(cap, s) && HeardAll(s) && Begun(s, env, script, scriptErr).Some?
    ensures HeardAll(Begun(s, env, script, scriptErr).value)
  {
    HeldIsNotFinished(cap, s);
    var id := s.worker.id;
    var c, st := Course(env, script, scriptErr, [], s.rows[id]), Stream([], false, 0, None, false);
    NothingHeard(c);
    hide Conserved, HeardAll, Heard, Reported, Executes, Writes;
    HeardChanged(s, Begun(s, env, script, scriptErr).value, id, c, st);
  }

  lemma NothingHeard(c: Course)
    ensures var st := Stream([], false, 0, None, false);
      c.done == [] ==> Heard(c, st) && Reported(c, st)
  {
  }

  lemma HeardFinish(s: Sys)
    requires HeardAll(s) && Finished(s).Some?
    ensures HeardAll(Finished(s).value)
  {
    hide Heard, Reported, TextsByDone;
  }

  lemma HeardWritten(c: Course, st: Stream, w: Attempt)
    requires Heard(c, st) && Reported(c, st) && MayWrite(c, st, w.w)
    ensures var d := c.(done := c.done + [w]);
      Heard(d, st) && Reported(d, st) && TextsByDone(d) == TextsByDone(c)
  {
    SameTexts(c, c.(done := c.done + [w]));
    hide Texts, TextsByDone, TextsWorked, TextsBeforeNotice;
  }

  lemma HeardStatusWrite(s: Sys)
    requires HeardAll(s) && StatusWritten(s).Some?
    ensures HeardAll(StatusWritten(s).value)
  {
    hide Heard, Reported, TextsByDone, Update, MayWrite;
    var id := s.worker.id;
    var c, st, w := s.courses[id], s.streams[id], s.worker.todo[0];
    HeardWritten(c, st, w);
    assert s.streams == s.streams[id := st];
    HeardChanged(s, StatusWritten(s).value, id, c.(done := c.done + [w]), st);
  }

  lemma HeardCancel(s: Sys, id: int)
    requires HeardAll(s)
    ensures HeardAll(Cancelled(s, id))
  {
    hide Texts, TextsByDone, TextsWorked, TextsBeforeNotice;
  }

  lemma HeardAppend(s: Sys, id: int, fault: bool)
    requires HeardAll(s) && Appended(s, id, fault).Some?
    ensures HeardAll(Appended(s, id, fault).value)
  {
    hide HeardAll, Update;
    var s' := Appended(s, id, fault).value;
    assert s'.streams.Keys == s.streams.Keys;
    HeardKept(s, s');
  }

  lemma HeardStep(cap: nat, s: Sys, a: Action)
    requires Conserved(cap, s) && StreamsOk(s) && HeardAll(s) && Take(cap, s, a).Some?
    ensures HeardAll(Take(cap, s, a).value)
  {
    hide Conserved, HeardAll, StreamsOk, Begun, StatusWritten, Received, Appended, Cancelled, Finished;
    match a
    case Receive => HeardReceive(s);
    case Begin(env, script, scriptErr) => HeardBegin(cap, s, env, script, scriptErr);
    case Finish => HeardFinish(s);
    case AppendHeld(id, fault) => HeardAppend(s, id, fault);
    case CancelRun(id) => HeardCancel(s, id);
    case StatusWrite => HeardStatusWrite(s);
    case _ => HeardKept(s, Take(cap, s, a).value);
  }

  lemma NothingReceived(row: Row)
    ensures Untouched(row) ==> StreamOk(row, Stream([], false, 0, None, false))
  {
  }

  /* ---------- what holds of every run of the system ---------- */

  ghost predicate Inv(cap: nat, s: Sys) {
    Conserved(cap, s) && RowsOk(s) && StreamsOk(s) && HeardAll(s)
  }

  lemma StepKeepsInv(cap: nat, s: Sys, a: Action)
    requires Inv(cap, s) && Take(cap, s, a).Some?
    ensures Inv(cap, Take(cap, s, a).value)
  {
    hide Conserved, RowsOk, StreamsOk, HeardAll, Created, Begun, StatusWritten, Received, Appended, Cancelled;
    hide Offered, Dequeued, Finished, WrittenElsewhere;
    ConservedStep(cap, s, a);
    StreamsStep(cap, s, a);
    HeardStep(cap, s, a);
    match a
    case StatusWrite => RowsStatusWrite(s);
    case Begin(env, script, scriptErr) => RowsBegin(cap, s, env, script, scriptErr);
    case AppendHeld(id, fault) =>
      StreamsHaveCourses(s, id, fault);
      RowsAppend(s, id, fault);
    case Create(pipelineId, branch, now) => RowsCreate(cap, s, pipelineId, branch, now);
    case CreateElsewhere(pipelineId, branch, now) => RowsCreate(cap, s, pipelineId, branch, now);
    case _ => RowsOther(cap, s, a);
  }

  lemma StreamsHaveCourses(s: Sys, id: int, fault: bool)
    requires StreamsOk(s) && Appended(s, id, fault).Some?
    ensures id in s.courses
  {
    assert id in s.streams.Keys;
  }

  /** The state after a sequence of actions, from some start of the program. */
  ghost predicate Reached(cap: nat, start: Sys, actions: seq<Action>, s: Sys) {
    IsStart(start) && Exec(cap, start, actions) == Some(s)
  }

  /** Conservation, acceptance order, bounded queue, one active run, its cancel key, row columns and
      stored output: all hold after every sequence of actions, whatever rows the program starts with
      and whatever other queues do. */
  lemma {:induction false} EveryRunOfTheSystem(cap: nat, start: Sys, actions: seq<Action>, s: Sys)
    requires Reached(cap, start, actions, s)
    ensures Inv(cap, s)
  {
    if actions != [] {
      var front := actions[..|actions| - 1];
      var before := Exec(cap, start, front).value;
      EveryRunOfTheSystem(cap, start, front, before);
      StepKeepsInv(cap, before, actions[|actions| - 1]);
    }
  }

  lemma PartsAreDisjoint(a: seq<int>, b: seq<int>, x: int)
    requires NoDuplicates(a + b) && x in a
    ensures x !in b
  {
    var i :| 0 <= i < |a| && a[i] == x;
    assert (a + b)[i] == x;
    forall j | 0 <= j < |b|
      ensures b[j] != x
    {
      assert (a + b)[|a| + j] == b[j];
    }
  }

  function Count(b: bool): nat {
    if b then 1 else 0
  }

  lemma PlacesOfAccepted(cap: nat, s: Sys, id: int)
    requires Conserved(cap, s)
    ensures Count(id in s.finished) + Count(id in Active(s)) + Count(id in s.pending) == Count(id in s.accepted)
  {
    assert s.finished + Active(s) + s.pending == s.finished + (Active(s) + s.pending);
    if id in s.finished {
      PartsAreDisjoint(s.finished, Active(s) + s.pending, id);
    } else if id in Active(s) {
      PartsAreDisjoint(s.finished + Active(s), s.pending, id);
    }
  }

  /** Every row is a foreign one or a created run's, and a created run is in exactly one of five
      places. */
  lemma OnePlace(cap: nat, start: Sys, actions: seq<Action>, s: Sys, id: int)
    requires Reached(cap, start, actions, s) && id in s.rows
    ensures Count(id in s.foreign) + Count(id in s.unoffered) + Count(id in s.rejected) + Count(id in s.pending)
          + Count(id in Active(s)) + Count(id in s.finished) == 1
    ensures s.accepted == s.finished + Active(s) + s.pending && |s.pending| <= cap
    ensures forall key <- s.cancels :: key in Active(s)
  {
    EveryRunOfTheSystem(cap, start, actions, s);
    hide RowsOk, StreamsOk, HeardAll, Exec, NoDuplicates;
    PlacesOfAccepted(cap, s, id);
    assert id in s.unoffered ==> id !in s.accepted && id !in s.rejected;
    assert id in s.rejected ==> id !in s.accepted;
  }

  /** A run that is created is queued under a new id, with its pipeline, branch and time and nothing
      else, and is still to be offered; no other row changes. */
  lemma CreatedIsQueued(cap: nat, start: Sys, actions: seq<Action>, s: Sys, pipelineId: int, branch: string, now: int)
    requires Reached(cap, start, actions, s)
    ensures var next := Take(cap, s, Create(pipelineId, branch, now));
      && next.Some? && s.nextId !in s.rows && s.nextId in next.value.unoffered
      && next.value.rows == s.rows[s.nextId :=
           Row(pipelineId, branch, None, None, None, Queued, now, None, None, false)]
  {
    EveryRunOfTheSystem(cap, start, actions, s);
    hide Reached, RowsOk, StreamsOk, HeardAll, NoDuplicates;
  }

  /** In every run of the system: a run can be offered exactly once, and it is rejected exactly when the
      queue is full and the worker is not waiting; otherwise it is the last one to be taken. */
  lemma RejectedExactly(cap: nat, start: Sys, actions: seq<Action>, s: Sys, id: int, waiting: bool)
    requires Reached(cap, start, actions, s) && (waiting ==> s.worker.Idle? && s.pending == [])
    ensures var next := Take(cap, s, Offer(id, waiting));
      && (next.Some? <==> id in s.unoffered)
      && (next.Some? ==> var t := next.value;
            && id !in t.unoffered
            && (id in t.rejected <==> |s.pending| == cap && !waiting)
            && t.accepted == (if id in t.rejected then s.accepted else s.accepted + [id])
            && t.pending == (if id in t.rejected || waiting then s.pending else s.pending + [id]))
  {
    EveryRunOfTheSystem(cap, start, actions, s);
    hide Reached, RowsOk, StreamsOk, HeardAll, NoDuplicates;
  }

  /** A waiting worker takes the run that was accepted first. */
  lemma OldestIsTaken(cap: nat, start: Sys, actions: seq<Action>, s: Sys)
    requires Reached(cap, start, actions, s) && s.worker.Idle? && s.pending != []
    ensures var next := Take(cap, s, Dequeue);
      && next.Some? && |s.finished| < |s.accepted|
      && next.value.worker == Holding(s.accepted[|s.finished|]) && s.pending[0] == s.accepted[|s.finished|]
  {
    EveryRunOfTheSystem(cap, start, actions, s);
    hide Reached, RowsOk, StreamsOk, HeardAll, NoDuplicates;
    assert s.accepted == s.finished + s.pending;
  }

  ghost predicate Moves(s: Sys, s': Sys, id: int)
    requires id in s.rows
  {
    && id in s'.rows
    && s'.rows[id].pipelineId == s.rows[id].pipelineId && s'.rows[id].branch == s.rows[id].branch
    && s'.rows[id].createdOn == s.rows[id].createdOn && s'.rows[id].archive == s.rows[id].archive
    && (s.rows[id].status == s'.rows[id].status
        || (id in s.courses && LegalMove(s.courses[id].env, s.rows[id].status, s'.rows[id].status)))
  }

  lemma WriteMovesLegally(s: Sys, id: int)
    requires RowsOk(s) && StatusWritten(s).Some? && id in s.rows && id !in s.foreign
    ensures Moves(s, StatusWritten(s).value, id)
  {
    hide Settle, Writes, Untouched, RowOk, Executes, MayWrite;
    assert CourseOk(s, s.worker.id);
  }

  lemma AppendKeepsStatus(s: Sys, id: int, fault: bool, j: int)
    requires Appended(s, id, fault).Some? && j in s.rows
    ensures var s' := Appended(s, id, fault).value;
      && j in s'.rows && s'.rows[j] == s.rows[j].(output := s'.rows[j].output) && s'.foreign == s.foreign
  {
  }

  lemma OthersKeepStatus(cap: nat, s: Sys, a: Action, id: int)
    requires Conserved(cap, s) && Take(cap, s, a).Some? && !a.StatusWrite? && !a.AppendHeld?
    requires id in s.rows && id !in s.foreign
    ensures var s' := Take(cap, s, a).value;
      id in s'.rows && s'.rows[id] == s.rows[id] && id !in s'.foreign
  {
    assert id < s.nextId;
    hide Conserved, NewRow, Executes, MayReceive, TextsByDone, StatusWritten, Appended;
  }

  lemma StepMovesLegally(cap: nat, s: Sys, a: Action, id: int)
    requires Inv(cap, s) && Take(cap, s, a).Some? && id in s.rows && id !in s.foreign
    ensures Moves(s, Take(cap, s, a).value, id) && id !in Take(cap, s, a).value.foreign
  {
    hide Conserved, RowsOk, Begun, Created, Offered, Dequeued, Received, Appended, Cancelled, Finished;
    hide LegalMove, MayWrite;
    match a
    case StatusWrite => WriteMovesLegally(s, id);
    case AppendHeld(j, fault) => AppendKeepsStatus(s, j, fault, id);
    case _ => OthersKeepStatus(cap, s, a, id);
  }

  /** In every run of the system a status only ever makes a legal move, the columns of a row that say
      whose run it is stay as they are, and whether a row has an end time says whether its status is
      terminal. */
  lemma StatusMoves(cap: nat, start: Sys, actions: seq<Action>, s: Sys, a: Action, s': Sys, id: int)
    requires Reached(cap, start, actions, s) && Take(cap, s, a) == Some(s') && id in s.rows && id !in s.foreign
    ensures Moves(s, s', id) && (Terminal(s'.rows[id].status) <==> s'.rows[id].endedOn.Some?)
  {
    hide StreamsOk, HeardAll, Conserved, Exec, CourseOk, Take;
    EveryRunOfTheSystem(cap, start, actions, s);
    StepMovesLegally(cap, s, a, id);
    StepKeepsInv(cap, s, a);
    assert RowOk(s'.rows[id]);
  }

  /** The row of a finished run is what its own setup, steps and store writes make of it, however
      the other runs, the appends and the cancellations were interleaved with them: its directory and
      start time are those of the start, if that was written, and the rest is as it was created. */
  lemma FinishedRow(cap: nat, start: Sys, actions: seq<Action>, s: Sys, id: int)
    requires Reached(cap, start, actions, s) && id in s.finished
    ensures id in s.rows && id in s.courses && id in s.streams
    ensures var c := s.courses[id];
      && Executes(c.env, true, c.script, c.scriptErr)
      && s.rows[id].(output := None) == Settle(c.row, Writes(c.env, c.scriptErr, c.row)).(output := None)
    ensures var env, row, started := s.courses[id].env, s.rows[id],
                                     !s.courses[id].env.dataFault && !s.courses[id].env.startFault;
      && row.workingDirectory == (if started then Some(env.workdir) else None)
      && row.startedOn == (if started then Some(env.startedAt) else None)
      && row.artifacts == None && !row.archive
      && row.pipelineId == s.courses[id].row.pipelineId && row.branch == s.courses[id].row.branch
      && row.createdOn == s.courses[id].row.createdOn
  {
    EveryRunOfTheSystem(cap, start, actions, s);
    hide StreamOk, Heard, Exec, Settle, Writes, Untouched, RowOk, LegalPlan, Executes;
    assert CourseOk(s, id) && id in s.streams.Keys;
    if s.worker.Serving? {
      HeldIsNotFinished(cap, s);
    }
    var c := s.courses[id];
    assert c.done + [] == c.done;
    FinishedColumns(c, s.rows[id]);
  }

  lemma FinishedColumns(c: Course, row: Row)
    requires Untouched(c.row) && row.artifacts.None?
    requires row.(output := None) == Settle(c.row, Writes(c.env, c.scriptErr, c.row)).(output := None)
    ensures var env, started := c.env, !c.env.dataFault && !c.env.startFault;
      && row.workingDirectory == (if started then Some(env.workdir) else None)
      && row.startedOn == (if started then Some(env.startedAt) else None)
      && !row.archive && row.pipelineId == c.row.pipelineId && row.branch == c.row.branch
      && row.createdOn == c.row.createdOn
  {
    hide Settle, WorkerWrites;
    StartColumns(c.env, true, None, c.row.artifacts, c.scriptErr, c.row);
    var final := Settle(c.row, Writes(c.env, c.scriptErr, c.row));
    assert row.(output := None).workingDirectory == final.(output := None).workingDirectory;
  }

  /** So the verdict of a run is its status once it has finished. */
  lemma FinishedVerdict(cap: nat, start: Sys, actions: seq<Action>, s: Sys, id: int)
    requires Reached(cap, start, actions, s) && id in s.finished
    requires id in s.courses ==> !s.courses[id].env.failFault
    ensures id in s.rows && id in s.courses
    ensures var env, status := s.courses[id].env, s.rows[id].status;
      && (status.Passed? <==> (GetsToItsScript(env) && !env.passFault && !env.passReadFault
                               && ScriptTheorems.EveryStepPasses(env.stages, env.oracle)))
      && (status.Cancelled? <==> GetsToItsScript(env) && CancelledInSequence(env.stages, env.oracle))
      && Terminal(status)
  {
    hide Exec, Settle, WorkerWrites, CancelledInSequence, ScriptTheorems.EveryStepPasses;
    FinishedRow(cap, start, actions, s, id);
    var c := s.courses[id];
    Verdict(c.env, None, c.row.artifacts, c.row, c.script.schedule, StateOf(c.env, c.script.schedule), c.scriptErr);
    var settled := Settle(c.row, Writes(c.env, c.scriptErr, c.row));
    assert s.rows[id].(output := None).status == settled.(output := None).status;
  }

  /** The stored output of a run is the text of a prefix of the messages it sends, unless an append
      has failed for another reason than cancellation. Nothing received after a cancellation is
      stored; without one, all that has been received is, but for the text that is still held; and
      when the run has finished that includes all it had sent when the worker signalled. */
  lemma StoredOutput(cap: nat, start: Sys, actions: seq<Action>, s: Sys, id: int)
    requires Reached(cap, start, actions, s) && id in s.streams && !s.streams[id].faulted
    ensures id in s.rows && id in s.courses
    ensures var c, st, output := s.courses[id], s.streams[id], Content(s.rows[id].output);
      && Executes(c.env, true, c.script, c.scriptErr)
      && st.stored <= |st.received| && st.received <= Texts(c)
      && output == Flatten(Texts(c)[..st.stored])
      && (st.cutoff.Some? ==> st.stored <= st.cutoff.value <= |st.received|)
      && (st.cutoff.None? && !st.holding ==> st.stored == |st.received|)
      && (id in s.finished ==> |st.received| >= TextsByDone(c))
  {
    EveryRunOfTheSystem(cap, start, actions, s);
    hide Reached, Conserved, CourseOk, RowOk, StreamOk, Heard, Reported, Texts, TextsByDone, Executes;
    var c, st := s.courses[id], s.streams[id];
    CourseExecutes(s, id);
    StoredStream(s.rows[id], c, st);
  }

  lemma CourseExecutes(s: Sys, id: int)
    requires id in s.courses && id in s.rows && CourseOk(s, id)
    ensures Executes(s.courses[id].env, true, s.courses[id].script, s.courses[id].scriptErr)
  {
    hide Executes, Settle, Writes, LegalPlan, Untouched;
  }

  lemma StoredStream(row: Row, c: Course, st: Stream)
    requires StreamOk(row, st) && Heard(c, st) && !st.faulted
    ensures st.stored <= |st.received| && st.received <= Texts(c)
    ensures Content(row.output) == Flatten(Texts(c)[..st.stored])
    ensures st.cutoff.Some? ==> st.stored <= st.cutoff.value <= |st.received|
    ensures st.cutoff.None? && !st.holding ==> st.stored == |st.received|
  {
    hide Texts, TextsBeforeNotice, Flatten, Content;
    assert st.received[..st.stored] == Texts(c)[..st.stored];
  }

  lemma {:induction false} FlattenGrows(texts: seq<string>, m: nat, n: nat)
    requires m <= n <= |texts|
    ensures Flatten(texts[..m]) <= Flatten(texts[..n])
  {
    if m < n {
      FlattenGrows(texts, m, n - 1);
      FlattenSnoc(texts[..n - 1], texts[n - 1]);
      assert texts[..n - 1] + [texts[n - 1]] == texts[..n];
    }
  }

  lemma SignalledTexts(c: Course)
    ensures TextsByDone(c) <= |Texts(c)|
    ensures Texts(c)[..TextsByDone(c)] == Rendered(Signalled(c.env, true, c.script, c.scriptErr))
  {
    hide Rendered, Signalled, LinesAfter, ProcessResult;
    var signalled := Signalled(c.env, true, c.script, c.scriptErr);
    var late := if ProcessResult(c.env, true, c.scriptErr).None? then [] else LinesAfter(c.env, true, c.script);
    RenderedConcat(signalled, late);
  }

  /** The output of a finished run that was not cancelled begins with the text of all that it had
      sent when the worker signalled: for a failed run, up to and with the FAIL banner. */
  lemma FinishedOutput(cap: nat, start: Sys, actions: seq<Action>, s: Sys, id: int)
    requires Reached(cap, start, actions, s) && id in s.finished
    requires id in s.streams ==> var st := s.streams[id]; !st.faulted && st.cutoff.None? && !st.holding
    ensures id in s.rows && id in s.courses
    ensures var c := s.courses[id];
      Flatten(Rendered(Signalled(c.env, true, c.script, c.scriptErr))) <= Content(s.rows[id].output)
  {
    hide Reached, Texts, TextsByDone, Executes, Rendered, Signalled, Flatten, Settle, Writes;
    FinishedRow(cap, start, actions, s, id);
    StoredOutput(cap, start, actions, s, id);
    var c, st := s.courses[id], s.streams[id];
    SignalledTexts(c);
    FlattenGrows(Texts(c), TextsByDone(c), st.stored);
  }

  /** The texts of a passed run, all of which have been sent when the worker signals. */
  lemma TextsOfPassed(c: Course)
    requires Executes(c.env, true, c.script, c.scriptErr) && ProcessResult(c.env, true, c.scriptErr).None?
    ensures var s := StateOf(c.env, c.script.schedule);
      && IsScriptResult(c.env, c.script.schedule, s, None)
      && Texts(c) == Rendered(SetupMessages(c.env, true) + Trace(s) + [Own(PassBanner)])
      && TextsByDone(c) == |Texts(c)|
  {
    hide ScriptMachine.Exec, Plan, Trace, SetupMessages, Sent, Signalled, Rendered;
    RunStream.PassedStream(c.env, true, c.script, c.scriptErr);
  }

  /** So the output of a passed run is, in full, the text of its setup messages, of the trace of its
      script and of the PASS banner. */
  lemma PassedOutput(cap: nat, start: Sys, actions: seq<Action>, s: Sys, id: int)
    requires Reached(cap, start, actions, s) && id in s.finished && id in s.streams && id in s.courses
    requires var st := s.streams[id]; !st.faulted && st.cutoff.None? && !st.holding
    requires ProcessResult(s.courses[id].env, true, s.courses[id].scriptErr).None?
    ensures var c := s.courses[id];
      var state := StateOf(c.env, c.script.schedule);
      && IsScriptResult(c.env, c.script.schedule, state, None)
      && id in s.rows
      && Content(s.rows[id].output)
           == Flatten(Rendered(SetupMessages(c.env, true) + Trace(state) + [Own(PassBanner)]))
  {
    hide Reached, IsScriptResult, Trace, SetupMessages, Texts, TextsByDone, Executes, ProcessResult, Rendered, StateOf;
    StoredOutput(cap, start, actions, s, id);
    var c := s.courses[id];
    TextsOfPassed(c);
    assert Texts(c)[..|Texts(c)|] == Texts(c);
  }
}
