/** A run that is being served can always be brought to its end: none of the conditions on the steps of
    the system shuts a run in. */
module RunProgress {
  import opened Wrappers
  import Messages
  import Sequences
  import opened StepGroup
  import RunStore
  import opened RunQueue
  import opened RunLifecycle

  ghost predicate IsServed(s: Sys) {
    s.worker.Serving? && s.worker.id in s.streams && s.worker.id in s.courses && s.worker.id in s.rows
  }

  ghost function Left(c: Course, st: Stream, todo: seq<Attempt>): nat {
    2 * |todo| + (if st.cutoff.None? then 1 else 0) + (if st.holding then 1 else 0)
    + if |st.received| < TextsByDone(c) then 2 * (TextsByDone(c) - |st.received|) else 0
  }

  /** What is still to be done for the run being served. */
  ghost function LeftOf(s: Sys): nat
    requires IsServed(s)
  {
    Left(s.courses[s.worker.id], s.streams[s.worker.id], s.worker.todo)
  }

  lemma Ends(c: Course)
    ensures TextsWorked(c) <= TextsByDone(c) <= |Texts(c)|
    ensures ProcessResult(c.env, true, c.scriptErr).Some? ==> TextsWorked(c) < TextsByDone(c)
  {
    SignalledTexts(c);
    hide Rendered, Worked, LinesBefore, Sent, ProcessResult, Texts;
    var worked, lines := Worked(c.env, true, c.script), LinesBefore(c.env, true, c.script);
    var banner := Own(Messages.FailBanner);
    RenderedConcat(worked, lines + [banner]);
    RenderedSnoc(lines, banner);
    assert worked + [] == worked;
  }

  lemma ServedRun(cap: nat, s: Sys)
    requires Inv(cap, s) && s.worker.Serving?
    ensures IsServed(s) && s.cancels == {s.worker.id}
    ensures StreamOk(s.rows[s.worker.id], s.streams[s.worker.id])
  {
    hide NoDuplicates, CourseOk, StreamOk, Heard, Reported;
    assert s.worker.id in s.courses && s.worker.id in s.streams.Keys;
  }

  /** t is s nearer to the end of the same run. */
  ghost predicate Nearer(s: Sys, t: Sys) {
    IsServed(s) && IsServed(t) && t.worker.id == s.worker.id && t.finished == s.finished && LeftOf(t) < LeftOf(s)
  }

  lemma AppendIsNearer(s: Sys)
    requires IsServed(s) && s.streams[s.worker.id].holding
    requires StreamOk(s.rows[s.worker.id], s.streams[s.worker.id])
    ensures var next := Appended(s, s.worker.id, false); next.Some? && Nearer(s, next.value)
  {
    hide TextsByDone, RunStore.Apply, Sequences.Flatten;
  }

  lemma WriteIsNearer(s: Sys)
    requires IsServed(s) && StatusWritten(s).Some?
    ensures Nearer(s, StatusWritten(s).value)
  {
    hide TextsByDone, MayWrite, RunStore.Apply;
    var t, id := StatusWritten(s).value, s.worker.id;
    SameTexts(s.courses[id], t.courses[id]);
    assert t.streams[id] == s.streams[id] && |t.worker.todo| == |s.worker.todo| - 1;
  }

  lemma CancelIsNearer(s: Sys)
    requires IsServed(s) && s.cancels == {s.worker.id} && s.streams[s.worker.id].cutoff.None?
    ensures Nearer(s, RunLifecycle.Cancelled(s, s.worker.id))
  {
    hide TextsByDone;
  }

  lemma ReceiveIsNearer(s: Sys)
    requires IsServed(s)
    requires var c, st := s.courses[s.worker.id], s.streams[s.worker.id];
      MayReceive(c, st, s.worker.todo) && |st.received| < TextsByDone(c)
    ensures var next := Received(s); next.Some? && Nearer(s, next.value)
  {
    hide TextsByDone, Texts, TextsBeforeNotice;
  }

  lemma CanReceive(c: Course, st: Stream, todo: seq<Attempt>)
    requires !st.holding && (todo != [] ==> !MayWrite(c, st, todo[0].w))
    requires todo == [] ==> |st.received| < TextsByDone(c)
    requires st.cutoff.Some? || |st.received| < TextsBeforeNotice(c)
    ensures MayReceive(c, st, todo) && |st.received| < TextsByDone(c)
  {
    Ends(c);
    hide Texts, TextsByDone, TextsWorked, TextsBeforeNotice;
  }

  lemma FinishIsPossible(s: Sys)
    requires IsServed(s) && s.worker.todo == []
    requires |s.streams[s.worker.id].received| >= TextsByDone(s.courses[s.worker.id])
    ensures var next := Finished(s); next.Some? && next.value.finished == s.finished + [s.worker.id]
  {
    hide TextsByDone;
  }

  lemma WriteIsPossible(s: Sys)
    requires IsServed(s) && s.worker.todo != []
    requires MayWrite(s.courses[s.worker.id], s.streams[s.worker.id], s.worker.todo[0].w)
    ensures StatusWritten(s).Some?
  {
    hide MayWrite;
  }

  lemma Steps(cap: nat, s: Sys, id: int)
    ensures Take(cap, s, AppendHeld(id, false)) == Appended(s, id, false)
    ensures Take(cap, s, StatusWrite) == StatusWritten(s) && Take(cap, s, Receive) == Received(s)
    ensures Take(cap, s, CancelRun(id)) == Some(RunLifecycle.Cancelled(s, id)) && Take(cap, s, Finish) == Finished(s)
  {
    hide Appended, StatusWritten, Received, RunLifecycle.Cancelled, Finished;
  }

  /** The next thing that can happen to a run, and brings it nearer to its end. */
  lemma NextStep(cap: nat, s: Sys) returns (a: Action)
    requires Inv(cap, s) && s.worker.Serving?
    ensures Take(cap, s, a).Some?
    ensures var t := Take(cap, s, a).value;
      if a.Finish? then t.finished == s.finished + [s.worker.id] else Nearer(s, t)
  {
    ServedRun(cap, s);
    var id := s.worker.id;
    var c, st, todo := s.courses[id], s.streams[id], s.worker.todo;
    hide Inv, Nearer, LeftOf, MayWrite, MayReceive, StreamOk, Texts, TextsByDone, TextsWorked, TextsBeforeNotice;
    hide Take, Appended, RunLifecycle.Cancelled, Received, StatusWritten, Finished;
    Steps(cap, s, id);
    if st.holding {
      a := AppendHeld(id, false);
      AppendIsNearer(s);
    } else if todo != [] && MayWrite(c, st, todo[0].w) {
      a := StatusWrite;
      WriteIsPossible(s);
      WriteIsNearer(s);
    } else if todo == [] && |st.received| >= TextsByDone(c) {
      a := Finish;
      FinishIsPossible(s);
    } else if st.cutoff.None? && |st.received| >= TextsBeforeNotice(c) {
      a := CancelRun(id);
      CancelIsNearer(s);
    } else {
      a := Receive;
      CanReceive(c, st, todo);
      ReceiveIsNearer(s);
    }
  }

  /** From every reached state in which a run is being served, the run can be finished. */
  lemma {:induction false} CanFinish(cap: nat, start: Sys, actions: seq<Action>, s: Sys)
    returns (full: seq<Action>, t: Sys)
    requires Reached(cap, start, actions, s) && s.worker.Serving?
    ensures actions <= full && Reached(cap, start, full, t) && t.finished == s.finished + [s.worker.id]
    decreases if IsServed(s) then LeftOf(s) else 0
  {
    EveryRunOfTheSystem(cap, start, actions, s);
    ServedRun(cap, s);
    hide Inv, Take, IsServed, LeftOf, StreamOk;
    var a := NextStep(cap, s);
    full, t := actions + [a], Take(cap, s, a).value;
    assert full[..|full| - 1] == actions;
    if !a.Finish? {
      assert t.worker.Serving? by { ServedMeans(t); }
      full, t := CanFinish(cap, start, full, t);
    }
  }

  lemma ServedMeans(s: Sys)
    ensures IsServed(s) ==> s.worker.Serving?
  {
  }
}
