/** How the status writes of a run and its messages stand to each other in time. */
module RunOrder {
  import opened Wrappers
  import opened StepGroup
  import opened ScriptMachine
  import opened RunQueue
  import RunStore
  import RunVerdict
  import RunProgress
  import L = RunLifecycle

  /** Nothing is received before the start has been written, or found impossible to write; and the FAIL
      banner only after everything has been written. */
  ghost predicate InOrder(c: L.Course, st: L.Stream, todo: seq<Attempt>) {
    && (st.received != [] && todo != [] ==> !todo[0].w.Start?)
    && (ProcessResult(c.env, true, c.scriptErr).Some? && |st.received| >= L.TextsByDone(c) ==> todo == [])
  }

  ghost predicate OrderOk(s: L.Sys) {
    s.worker.Serving? && s.worker.id in s.streams && s.worker.id in s.courses ==>
      InOrder(s.courses[s.worker.id], s.streams[s.worker.id], s.worker.todo)
  }

  lemma StartIsFirst(env: RunEnv, scriptErr: Option<RunError>, row: RunStore.Row, n: nat)
    requires 0 < n < |L.Writes(env, scriptErr, row)|
    ensures !L.Writes(env, scriptErr, row)[n].w.Start?
  {
  }

  lemma NextIsNoStart(s: L.Sys)
    requires L.RowsOk(s) && s.worker.Serving? && |s.worker.todo| > 1 && s.worker.id in s.courses
    ensures !s.worker.todo[1].w.Start?
  {
    hide L.Writes, L.RowOk, L.Untouched, L.LegalPlan, Executes, RunVerdict.Settle;
    var id := s.worker.id;
    var c := s.courses[id];
    assert L.CourseOk(s, id);
    StartIsFirst(c.env, c.scriptErr, c.row, |c.done| + 1);
    assert (c.done + s.worker.todo)[|c.done| + 1] == s.worker.todo[1];
  }

  lemma OrderAfterWrite(s: L.Sys)
    requires L.RowsOk(s) && OrderOk(s) && L.StatusWritten(s).Some?
    ensures OrderOk(L.StatusWritten(s).value)
  {
    var t, id := L.StatusWritten(s).value, s.worker.id;
    if |s.worker.todo| > 1 {
      NextIsNoStart(s);
    }
    hide L.RowsOk, L.TextsByDone, L.MayWrite, ProcessResult, RunStore.Apply;
    L.SameTexts(s.courses[id], t.courses[id]);
  }

  lemma OrderAfterReceive(s: L.Sys)
    requires OrderOk(s) && L.Received(s).Some?
    ensures OrderOk(L.Received(s).value)
  {
    hide L.Texts, L.TextsByDone, L.TextsBeforeNotice, ProcessResult;
  }

  lemma OrderAfterBegin(s: L.Sys, env: RunEnv, script: Script, scriptErr: Option<RunError>)
    requires L.Begun(s, env, script, scriptErr).Some?
    ensures OrderOk(L.Begun(s, env, script, scriptErr).value)
  {
    EndsAreLate(L.Course(env, script, scriptErr, [], s.rows[s.worker.id]));
    hide L.TextsByDone, L.Writes, ProcessResult, Executes;
  }

  lemma EndsAreLate(c: L.Course)
    ensures ProcessResult(c.env, true, c.scriptErr).Some? ==> L.TextsByDone(c) > 0
  {
    RunProgress.Ends(c);
  }

  /** The other steps neither receive nor write. */
  lemma OrderKept(cap: nat, s: L.Sys, a: L.Action)
    requires OrderOk(s) && L.Take(cap, s, a).Some?
    requires !a.StatusWrite? && !a.Receive? && !a.Begin?
    ensures OrderOk(L.Take(cap, s, a).value)
  {
    hide L.TextsByDone, ProcessResult, L.StatusWritten, L.Received, L.Begun, RunStore.Apply;
  }

  lemma {:induction false} AlwaysInOrder(cap: nat, start: L.Sys, actions: seq<L.Action>, s: L.Sys)
    requires L.Reached(cap, start, actions, s)
    ensures OrderOk(s)
  {
    hide OrderOk, L.Inv, L.Take;
    if actions == [] {
      assert OrderOk(s) by { StartIsInOrder(s); }
    } else {
      var front, a := actions[..|actions| - 1], actions[|actions| - 1];
      var before := L.Exec(cap, start, front).value;
      AlwaysInOrder(cap, start, front, before);
      L.EveryRunOfTheSystem(cap, start, front, before);
      OrderStep(cap, before, a);
    }
  }

  lemma StartIsInOrder(s: L.Sys)
    requires L.IsStart(s)
    ensures OrderOk(s)
  {
  }

  lemma OrderStep(cap: nat, s: L.Sys, a: L.Action)
    requires L.Inv(cap, s) && OrderOk(s) && L.Take(cap, s, a).Some?
    ensures OrderOk(L.Take(cap, s, a).value)
  {
    hide OrderOk, L.Conserved, L.RowsOk, L.StreamsOk, L.HeardAll, L.StatusWritten, L.Received, L.Begun;
    match a
    case StatusWrite => OrderAfterWrite(s);
    case Receive => OrderAfterReceive(s);
    case Begin(env, script, scriptErr) => OrderAfterBegin(s, env, script, scriptErr);
    case _ => OrderKept(cap, s, a);
  }

  /** In every run of the system, of the run being served: once its goroutine has received anything, the
      start write has been attempted, unless there was none to attempt; an end write is attempted only
      when everything processRun sends has been received; and the FAIL banner is received only when
      no write is left. */
  lemma WritesAndMessages(cap: nat, start: L.Sys, actions: seq<L.Action>, s: L.Sys)
    requires L.Reached(cap, start, actions, s) && s.worker.Serving?
    ensures s.worker.id in s.streams && s.worker.id in s.courses
    ensures var c, st, todo := s.courses[s.worker.id], s.streams[s.worker.id], s.worker.todo;
      && (st.received != [] ==> forall a <- todo :: !a.w.Start?)
      && ((exists a <- c.done :: a.w.End?) ==> |st.received| >= L.TextsWorked(c))
      && (ProcessResult(c.env, true, c.scriptErr).Some? && |st.received| >= L.TextsByDone(c) ==> todo == [])
  {
    AlwaysInOrder(cap, start, actions, s);
    L.EveryRunOfTheSystem(cap, start, actions, s);
    RunProgress.ServedRun(cap, s);
    NoStartLeft(cap, s);
    hide L.Reached, L.Conserved, L.RowsOk, L.StreamsOk, L.TextsByDone, L.TextsWorked, L.Heard, ProcessResult;
    assert L.Reported(s.courses[s.worker.id], s.streams[s.worker.id]);
  }

  lemma NoStartLeft(cap: nat, s: L.Sys)
    requires L.Inv(cap, s) && s.worker.Serving? && s.worker.id in s.courses && s.worker.id in s.rows
    ensures forall j :: 0 < j < |s.worker.todo| ==> !s.worker.todo[j].w.Start?
  {
    hide L.Conserved, L.StreamsOk, L.HeardAll, L.Writes, L.RowOk, L.Untouched, L.LegalPlan, Executes, RunVerdict.Settle;
    var c, todo := s.courses[s.worker.id], s.worker.todo;
    assert L.CourseOk(s, s.worker.id);
    forall j | 0 < j < |todo|
      ensures !todo[j].w.Start?
    {
      StartIsFirst(c.env, c.scriptErr, c.row, |c.done| + j);
      assert (c.done + todo)[|c.done| + j] == todo[j];
    }
  }
}
