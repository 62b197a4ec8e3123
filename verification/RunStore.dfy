/** The `runs` table and the writes that touch it. Every statement runs on the one read-write
    connection, so a write is atomic; an error means that it has not been applied. */
module RunStore {
  import opened Wrappers

  datatype RunStatus = Queued | Running | Cancelled | Failed | Passed

  predicate Terminal(s: RunStatus) {
    s.Cancelled? || s.Failed? || s.Passed?
  }

  /** The columns of a row, apart from its id. Times are instants on some clock. */
  datatype Row = Row(
    pipelineId: int, branch: string, workingDirectory: Option<string>, output: Option<string>,
    artifacts: Option<string>, status: RunStatus, createdOn: int, startedOn: Option<int>,
    endedOn: Option<int>, archive: bool)

  function NewRow(pipelineId: int, branch: string, now: int): Row {
    Row(pipelineId, branch, None, None, None, Queued, now, None, None, false)
  }

  datatype Write =
    | Start(workingDirectory: string, status: RunStatus, at: int)
    | End(status: RunStatus, artifacts: Option<string>, at: int)
    | Append(text: string)

  /** The text of a nullable column. */
  function Content(column: Option<string>): string {
    if column.Some? then column.value else ""
  }

  function Apply(row: Row, w: Write): Row {
    match w
    case Start(dir, status, at) => row.(workingDirectory := Some(dir), status := status, startedOn := Some(at))
    case End(status, artifacts, at) => row.(status := status, artifacts := artifacts, endedOn := Some(at))
    case Append(text) => row.(output := Some(Content(row.output) + text))
  }

  /** An update statement: a row that is not there is not an error, and nothing changes. */
  function Update(rows: map<int, Row>, id: int, w: Write): map<int, Row> {
    if id in rows then rows[id := Apply(rows[id], w)] else rows
  }

  /** A run as the program holds it: the id and a copy of the row, which may grow stale. */
  class Run {
    const runId: int
    var row: Row

    constructor (runId: int, row: Row)
      ensures this.runId == runId && this.row == row
    {
      this.runId := runId;
      this.row := row;
    }
  }

  class RunSQLiteStore {
    var rows: map<int, Row>
    var nextId: int

    constructor ()
      ensures Valid() && rows == map[]
    {
      rows, nextId := map[], 1;
    }

    ghost predicate Valid()
      reads this
    {
      0 < nextId && forall id <- rows :: 0 < id < nextId
    }

    method CreatePipelineRun(pipelineId: int, branch: string, now: int, fault: bool) returns (r: Run?)
      requires Valid()
      modifies this
      ensures Valid()
      ensures fault <==> r == null
      ensures fault ==> rows == old(rows) && nextId == old(nextId)
      ensures r != null ==> fresh(r) && r.runId !in old(rows) && r.row == NewRow(pipelineId, branch, now)
      ensures r != null ==> rows == old(rows)[r.runId := r.row] && old(nextId) <= r.runId < nextId
      ensures r != null ==> r.row.pipelineId == pipelineId && r.row.branch == branch && r.row.createdOn == now
      ensures r != null ==> r.row.status == Queued && !r.row.archive
      ensures r != null ==> r.row.workingDirectory.None? && r.row.output.None? && r.row.artifacts.None?
      ensures r != null ==> r.row.startedOn.None? && r.row.endedOn.None?
    {
      if fault {
        return null;
      }
      r := new Run(nextId, NewRow(pipelineId, branch, now));
      rows := rows[nextId := r.row];
      nextId := nextId + 1;
    }

    method ReadRunByID(id: int, fault: bool) returns (r: Run?)
      ensures r != null <==> !fault && id in rows
      ensures r != null ==> fresh(r) && r.runId == id && r.row == rows[id]
    {
      if fault || id !in rows {
        return null;
      }
      r := new Run(id, rows[id]);
    }

    method UpdatePipelineRunStartedOn(id: int, workingDirectory: string, status: RunStatus, at: int, fault: bool)
      returns (ok: bool)
      requires Valid()
      modifies this`rows
      ensures Valid() && (ok <==> !fault)
      ensures rows == if ok then Update(old(rows), id, Start(workingDirectory, status, at)) else old(rows)
    {
      if !fault && id in rows {
        rows := rows[id := rows[id].(
          workingDirectory := Some(workingDirectory), status := status, startedOn := Some(at))];
      }
      ok := !fault;
    }

    method UpdatePipelineRunEndedOn(id: int, status: RunStatus, artifacts: Option<string>, at: int, fault: bool)
      returns (ok: bool)
      requires Valid()
      modifies this`rows
      ensures Valid() && (ok <==> !fault)
      ensures rows == if ok then Update(old(rows), id, End(status, artifacts, at)) else old(rows)
    {
      if !fault && id in rows {
        rows := rows[id := rows[id].(status := status, artifacts := artifacts, endedOn := Some(at))];
      }
      ok := !fault;
    }

    /** Read-modify-write in one transaction, which a cancelled context refuses. */
    method AppendPipelineRunOutput(ctxDone: bool, id: int, out: string, fault: bool) returns (ok: bool)
      requires Valid()
      modifies this`rows
      ensures Valid() && (ok <==> !ctxDone && !fault && id in old(rows))
      ensures rows == if ok then Update(old(rows), id, Append(out)) else old(rows)
    {
      if ctxDone || fault || id !in rows {
        return false;
      }
      var existingOutput := "";
      if rows[id].output.Some? {
        existingOutput := rows[id].output.value;
      }
      rows := rows[id := rows[id].(output := Some(existingOutput + out))];
      ok := true;
    }
  }

  /* ---------- writers of one row commute ---------- */

  /** A write, and the run it is addressed to. */
  datatype Entry = Entry(id: int, w: Write)

  function ApplyLog(rows: map<int, Row>, log: seq<Entry>): map<int, Row> {
    if log == [] then rows else
      var e := log[|log| - 1];
      Update(ApplyLog(rows, log[..|log| - 1]), e.id, e.w)
  }

  function ApplyAll(row: Row, ws: seq<Write>): Row {
    if ws == [] then row else Apply(ApplyAll(row, ws[..|ws| - 1]), ws[|ws| - 1])
  }

  /** The writes of the log that are addressed to one run and come from its output goroutine
      (`appends`) or from the worker. */
  function Part(log: seq<Entry>, id: int, appends: bool): seq<Write> {
    if log == [] then [] else
      var e := log[|log| - 1];
      Part(log[..|log| - 1], id, appends) + if e.id == id && e.w.Append? == appends then [e.w] else []
  }

  function Texts(appends: seq<Write>): string
    requires forall w <- appends :: w.Append?
  {
    if appends == [] then "" else Texts(appends[..|appends| - 1]) + appends[|appends| - 1].text
  }

  lemma PartSnoc(log: seq<Entry>, id: int, appends: bool)
    requires log != []
    ensures var front, e := Part(log[..|log| - 1], id, appends), log[|log| - 1];
      Part(log, id, appends) == if e.id == id && e.w.Append? == appends then front + [e.w] else front
  {
  }

  lemma NoParts(id: int)
    ensures Part([], id, false) == [] && Part([], id, true) == []
  {
  }

  lemma {:induction false} PartsAreOfOneKind(log: seq<Entry>, id: int, appends: bool)
    ensures forall w <- Part(log, id, appends) :: w.Append? == appends
  {
    if log != [] {
      PartsAreOfOneKind(log[..|log| - 1], id, appends);
    }
  }

  lemma ApplyAllSnoc(row: Row, ws: seq<Write>, w: Write)
    ensures ApplyAll(row, ws + [w]) == Apply(ApplyAll(row, ws), w)
  {
    assert (ws + [w])[..|ws|] == ws;
  }

  lemma OutputIsApart(a: Row, b: Row, w: Write)
    requires a.(output := None) == b.(output := None)
    ensures Apply(a, w).(output := None) == Apply(b, w).(output := None)
    ensures w.Append? ==> Apply(a, w).(output := None) == a.(output := None)
  {
  }

  lemma {:induction false} WorkerColumns(rows: map<int, Row>, log: seq<Entry>, id: int)
    requires id in rows
    ensures id in ApplyLog(rows, log)
    ensures ApplyLog(rows, log)[id].(output := None) == ApplyAll(rows[id], Part(log, id, false)).(output := None)
  {
    hide Apply, Part;
    if log == [] {
      NoParts(id);
    } else {
      var front, e := log[..|log| - 1], log[|log| - 1];
      WorkerColumns(rows, front, id);
      OutputIsApart(ApplyLog(rows, front)[id], ApplyAll(rows[id], Part(front, id, false)), e.w);
      PartSnoc(log, id, false);
      ApplyAllSnoc(rows[id], Part(front, id, false), e.w);
    }
  }

  lemma TextsSnoc(appends: seq<Write>, w: Write)
    requires w.Append? && forall v <- appends :: v.Append?
    ensures forall v <- appends + [w] :: v.Append?
    ensures Texts(appends + [w]) == Texts(appends) + w.text
  {
    assert (appends + [w])[..|appends|] == appends;
  }

  lemma UpdatedOutput(row: Row, w: Write)
    ensures Content(Apply(row, w).output) == Content(row.output) + if w.Append? then w.text else ""
  {
  }

  lemma {:induction false} AppendedOutput(rows: map<int, Row>, log: seq<Entry>, id: int)
    requires id in rows
    ensures id in ApplyLog(rows, log) && forall w <- Part(log, id, true) :: w.Append?
    ensures Content(ApplyLog(rows, log)[id].output) == Content(rows[id].output) + Texts(Part(log, id, true))
  {
    hide Apply, Content, Texts;
    PartsAreOfOneKind(log, id, true);
    if log == [] {
      assert Texts([]) == "" by { NoTexts(); }
    } else {
      var front, e := log[..|log| - 1], log[|log| - 1];
      AppendedOutput(rows, front, id);
      PartSnoc(log, id, true);
      if e.id == id {
        UpdatedOutput(ApplyLog(rows, front)[id], e.w);
        if e.w.Append? {
          TextsSnoc(Part(front, id, true), e.w);
        }
      }
    }
  }

  lemma NoTexts()
    ensures Texts([]) == ""
  {
  }

  lemma {:induction false} OutputIsNullUntilAppended(rows: map<int, Row>, log: seq<Entry>, id: int)
    requires id in rows
    ensures id in ApplyLog(rows, log)
    ensures ApplyLog(rows, log)[id].output.None? <==> rows[id].output.None? && Part(log, id, true) == []
  {
    if log != [] {
      OutputIsNullUntilAppended(rows, log[..|log| - 1], id);
      PartSnoc(log, id, true);
    }
  }

  /** Whatever the order in which the worker's writes, the output goroutine's appends and the
      writes to other runs arrive, a row ends up with the worker's columns as if it had been
      alone, and with the appended texts in their order behind the old output. */
  lemma WritersCommute(rows: map<int, Row>, log: seq<Entry>, id: int)
    requires id in rows
    ensures id in ApplyLog(rows, log) && forall w <- Part(log, id, true) :: w.Append?
    ensures var alone, appends := ApplyAll(rows[id], Part(log, id, false)), Part(log, id, true);
      var row := ApplyLog(rows, log)[id];
      && row == alone.(output := row.output)
      && alone.output == rows[id].output
      && Content(row.output) == Content(rows[id].output) + Texts(appends)
      && (row.output.None? <==> rows[id].output.None? && appends == [])
  {
    WorkerColumns(rows, log, id);
    AppendedOutput(rows, log, id);
    OutputIsNullUntilAppended(rows, log, id);
    WorkerLeavesOutput(rows[id], log, id);
    var alone, row := ApplyAll(rows[id], Part(log, id, false)), ApplyLog(rows, log)[id];
    assert row == row.(output := None).(output := row.output);
    assert alone.(output := None).(output := row.output) == alone.(output := row.output);
  }

  lemma {:induction false} WorkerLeavesOutput(row: Row, log: seq<Entry>, id: int)
    ensures ApplyAll(row, Part(log, id, false)).output == row.output
  {
    if log != [] {
      WorkerLeavesOutput(row, log[..|log| - 1], id);
      PartSnoc(log, id, false);
      ApplyAllSnoc(row, Part(log[..|log| - 1], id, false), log[|log| - 1].w);
    }
  }

  /** Two logs with the same worker part and the same append part leave a row the same. */
  lemma InterleavingsAgree(rows: map<int, Row>, a: seq<Entry>, b: seq<Entry>, id: int)
    requires id in rows
    requires Part(a, id, false) == Part(b, id, false) && Part(a, id, true) == Part(b, id, true)
    ensures id in ApplyLog(rows, a) && id in ApplyLog(rows, b)
    ensures ApplyLog(rows, a)[id] == ApplyLog(rows, b)[id]
  {
    WritersCommute(rows, a, id);
    WritersCommute(rows, b, id);
  }

  /** No write makes or drops a row, or touches a row it is not addressed to. */
  lemma {:induction false} OtherRowsUnchanged(rows: map<int, Row>, log: seq<Entry>, id: int)
    ensures ApplyLog(rows, log).Keys == rows.Keys
    ensures id in rows && (forall e <- log :: e.id != id) ==> ApplyLog(rows, log)[id] == rows[id]
  {
    if log != [] {
      OtherRowsUnchanged(rows, log[..|log| - 1], id);
    }
  }
}
