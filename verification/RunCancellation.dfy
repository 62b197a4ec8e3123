/** A run that is recorded as cancelled has been cancelled, and what was sent from the notice of it on
    is not stored. */
module RunCancellation {
  import opened Wrappers
  import opened PipelineScript
  import opened Sequences
  import opened Messages
  import opened StepGroup
  import opened GroupOutcome
  import opened ScriptMachine
  import opened PlanOrder
  import opened ScriptTheorems
  import opened RunStore
  import opened RunQueue
  import opened RunVerdict
  import L = RunLifecycle

  /** A bare cancel error comes with a notice on the trace. */
  lemma CancelGivesNotice(stages: seq<Stage>, oracle: Oracle, schedule: seq<Action>, s: State)
    requires Reaches(stages, oracle, schedule, s) && s.status == Returned(Some(Bare(RunCancel)))
    ensures exists e <- Trace(s) :: L.IsNotice(e)
  {
    hide Inv, PlanFrom, Trace, StopsAt, GroupInv, Complete, AllPass, Exec;
    EveryScheduleKeepsInv(Plan(stages, oracle), schedule);
    BareCancelOnlyFromSequential(stages, oracle, schedule, s);
    var k: nat, i: nat :| IsStep(stages, k, i) && StopsAt(stages, oracle, k, i)
      && !stages[k].steps[i].parallel && oracle(k, i).outcome.Cancelled?;
    var item := FailedItem(stages, oracle, s);
    FirstFailure(stages, oracle, s);
    StopIsUnique(stages, oracle, k, i, item.g.k, item.g.lo);
    var e := OfStep(item.g.k, item.g.lo + 0, Say(CancelNotice));
    CompleteActs(item.g, s.group, 0, Say(CancelNotice));
    GroupTraceIsInTrace(s, e);
    assert e in Trace(s) && L.IsNotice(e);
  }

  lemma NoticeIsWorked(env: RunEnv, script: Script, scriptErr: Option<RunError>) returns (q: nat)
    requires Executes(env, true, script, scriptErr) && scriptErr == Some(Bare(RunCancel))
    ensures q < |Worked(env, true, script)| && L.IsNotice(Worked(env, true, script)[q])
  {
    hide Exec, Trace, Plan, SetupMessages;
    var s := StateOf(env, script.schedule);
    CancelGivesNotice(env.stages, env.oracle, script.schedule, s);
    var e :| e in Trace(s) && L.IsNotice(e);
    assert e in Worked(env, true, script);
    q :| 0 <= q < |Worked(env, true, script)| && Worked(env, true, script)[q] == e;
  }

  lemma {:induction false} BeforeNoticeIsShort(sent: seq<Event>, q: nat) returns (m: nat)
    requires q < |sent| && L.IsNotice(sent[q])
    ensures m <= q && L.BeforeNotice(sent) == sent[..m]
  {
    if L.IsNotice(sent[0]) {
      m := 0;
    } else {
      m := BeforeNoticeIsShort(sent[1..], q - 1);
      m := m + 1;
    }
  }

  /** Fewer texts come before the notice than processRun sends. */
  lemma NoticeComesEarly(c: L.Course)
    requires Executes(c.env, true, c.script, c.scriptErr) && c.scriptErr == Some(Bare(RunCancel))
    ensures L.TextsBeforeNotice(c) < L.TextsWorked(c) <= |L.Texts(c)|
    ensures L.Texts(c)[..L.TextsBeforeNotice(c)] == Rendered(L.BeforeNotice(Sent(c.env, true, c.script, c.scriptErr)))
  {
    hide Rendered, Worked, ProcessResult, LinesBefore, LinesAfter, Executes;
    var worked, sent := Worked(c.env, true, c.script), Sent(c.env, true, c.script, c.scriptErr);
    var q := NoticeIsWorked(c.env, c.script, c.scriptErr);
    assert worked <= sent;
    assert sent[q] == worked[q];
    var m := BeforeNoticeIsShort(sent, q);
    RenderedConcat(sent[..m], sent[m..q]);
    assert sent[..m] + sent[m..q] == sent[..q];
    RenderedSnoc(sent[..q], sent[q]);
    assert sent[..q] + [sent[q]] == worked[..q + 1];
    RenderedConcat(worked[..q + 1], worked[q + 1..]);
    assert worked[..q + 1] + worked[q + 1..] == worked;
    RenderedConcat(worked, sent[|worked|..]);
    assert worked + sent[|worked|..] == sent;
    RenderedConcat(sent[..m], sent[m..]);
    assert sent[..m] + sent[m..] == sent;
  }

  /** The status of a row is its first one or that of a write that was applied. */
  lemma {:induction false} SettledStatus(row: Row, attempts: seq<Attempt>)
    requires forall a <- attempts :: !a.w.Append?
    ensures var final := Settle(row, attempts).status;
      final == row.status || exists a <- attempts :: !a.w.Append? && a.w.status == final
  {
    if attempts != [] {
      var n := |attempts| - 1;
      SettledStatus(row, attempts[..n]);
      assert attempts[n] in attempts;
    }
  }

  lemma CancelledIsReported(c: L.Course, todo: seq<Attempt>)
    requires c.done + todo == L.Writes(c.env, c.scriptErr, c.row) && c.row.status.Queued?
    requires Executes(c.env, true, c.script, c.scriptErr)
    requires Settle(c.row, c.done).status.Cancelled?
    ensures c.scriptErr == Some(Bare(RunCancel)) && exists a <- c.done :: a.w.End?
  {
    hide Settle, Executes;
    forall a | a in c.done
      ensures a in L.Writes(c.env, c.scriptErr, c.row) && !a.w.Append?
    {
      assert a in c.done + todo;
    }
    SettledStatus(c.row, c.done);
    var a :| a in c.done && !a.w.Append? && a.w.status.Cancelled?;
    assert a in L.Writes(c.env, c.scriptErr, c.row);
    assert a.w.End?;
  }

  /** In every run of the system: a row says cancelled only if the run has been cancelled, before its
      goroutine received the notice of it; and unless an append failed otherwise, the row's output is
      the text of a beginning of what the run sent before the notice: neither the notice nor anything
      after it, the FAIL banner included, is stored. */
  lemma CancelledRow(cap: nat, start: L.Sys, actions: seq<L.Action>, s: L.Sys, id: int)
    requires L.Reached(cap, start, actions, s) && id in s.rows && id !in s.foreign
    requires s.rows[id].status.Cancelled?
    ensures id in s.courses && id in s.streams
    ensures var c, st := s.courses[id], s.streams[id];
      var sent := Rendered(L.BeforeNotice(Sent(c.env, true, c.script, c.scriptErr)));
      && c.scriptErr == Some(Bare(RunCancel))
      && st.cutoff.Some? && st.cutoff.value <= |sent| < |st.received|
      && st.stored <= |sent|
      && (!st.faulted ==> Content(s.rows[id].output) == Flatten(sent[..st.stored]))
  {
    hide L.Inv, L.Reached, L.Exec, L.Texts, L.TextsWorked, L.TextsByDone, L.BeforeNotice;
    hide Rendered, Flatten, Executes, Sent, Content;
    L.EveryRunOfTheSystem(cap, start, actions, s);
    var c, st := CancelledCourse(cap, s, id);
    NoticeComesEarly(c);
    if !st.faulted {
      L.StoredOutput(cap, start, actions, s, id);
      var n := L.TextsBeforeNotice(c);
      assert L.Texts(c)[..n][..st.stored] == L.Texts(c)[..st.stored];
    }
  }

  lemma CancelledCourse(cap: nat, s: L.Sys, id: int) returns (c: L.Course, st: L.Stream)
    requires L.Inv(cap, s) && id in s.rows && id !in s.foreign && s.rows[id].status.Cancelled?
    ensures id in s.courses && id in s.streams && c == s.courses[id] && st == s.streams[id]
    ensures Executes(c.env, true, c.script, c.scriptErr) && c.scriptErr == Some(Bare(RunCancel))
    ensures L.TextsBeforeNotice(c) < |st.received|
    ensures st.cutoff.Some? && st.stored <= st.cutoff.value <= L.TextsBeforeNotice(c)
  {
    hide L.Conserved, L.Writes, L.LegalPlan, L.Texts, L.TextsWorked, L.TextsBeforeNotice, L.TextsByDone;
    hide Settle, Executes, Flatten;
    assert id in s.courses && id in s.streams.Keys;
    c, st := s.courses[id], s.streams[id];
    assert L.CourseOk(s, id) && L.StreamOk(s.rows[id], st) && L.Heard(c, st) && L.Reported(c, st);
    assert s.rows[id].(output := None).status == Settle(c.row, c.done).(output := None).status;
    CancelledIsReported(c, L.Todo(s, id));
    NoticeComesEarly(c);
  }
}
