/** The registry of run queues (internal/service/pipeline_service.go): one queue and one worker for
    every pipeline in the store. A queue is created and removed in calls of several steps, each
    under its own lock, so the calls of different requests may interleave. */
module PipelineRegistry {
  import opened Wrappers
  import RunStore
  import RunQueue

  /** The pipeline ids in the store, the last id its autoincrement column has given out, the
      registry, and the workers that have been started. */
  datatype Registry<Q(==)> = Registry(rows: set<int>, lastId: int, queues: map<int, Q>, workers: multiset<Q>)

  datatype RegistryStep<Q> =
    | Insert | Register(id: int, queue: Q) | Start(id: int) | Erase(id: int) | Unregister(id: int)

  function Apply<Q>(r: Registry<Q>, step: RegistryStep<Q>): Registry<Q> {
    match step
    case Insert => r.(rows := r.rows + {r.lastId + 1}, lastId := r.lastId + 1)
    case Register(id, queue) => r.(queues := r.queues[id := queue])
    case Start(id) => if id in r.queues then r.(workers := r.workers + multiset{r.queues[id]}) else r
    case Erase(id) => r.(rows := r.rows - {id})
    case Unregister(id) => r.(queues := r.queues - {id})
  }

  function ApplyAll<Q>(r: Registry<Q>, steps: seq<RegistryStep<Q>>): Registry<Q> {
    if steps == [] then r else Apply(ApplyAll(r, steps[..|steps| - 1]), steps[|steps| - 1])
  }

  /** The steps of the two calls, when no store error cuts them short. */
  function Creation<Q>(id: int, queue: Q): seq<RegistryStep<Q>> {
    [Insert, Register(id, queue), Start(id)]
  }

  function Deletion<Q>(id: int): seq<RegistryStep<Q>> {
    [Erase(id), Unregister(id)]
  }

  function Without(ids: seq<int>, id: int): (r: seq<int>)
    ensures forall x :: x in r <==> x in ids && x != id
  {
    if ids == [] then [] else (if ids[0] == id then [] else [ids[0]]) + Without(ids[1..], id)
  }

  /** The `pipelines` table, as far as its ids go. */
  class PipelineStore {
    var table: seq<int>
    var lastId: int

    ghost function Rows(): set<int>
      reads this
    {
      set id <- table
    }

    /** Autoincrement: no id exceeds the last one given out. */
    ghost predicate Valid()
      reads this
    {
      forall id <- table :: id <= lastId
    }

    constructor (table: seq<int>, lastId: int)
      requires forall id <- table :: id <= lastId
      ensures Valid()
      ensures this.table == table && this.lastId == lastId
    {
      this.table, this.lastId := table, lastId;
    }

    method CreatePipeline(fault: bool) returns (id: Option<int>)
      modifies this
      ensures id == if fault then None else Some(old(lastId) + 1)
      ensures lastId == if fault then old(lastId) else old(lastId) + 1
      ensures Rows() == if fault then old(Rows()) else old(Rows()) + {lastId}
    {
      if fault {
        return None;
      }
      lastId := lastId + 1;
      table := table + [lastId];
      assert Rows() == old(Rows()) + {lastId};
      id := Some(lastId);
    }

    /** Deleting a row that is not there is not an error. */
    method DeletePipeline(id: int, fault: bool) returns (ok: bool)
      modifies this`table
      ensures ok <==> !fault
      ensures Rows() == if fault then old(Rows()) else old(Rows()) - {id}
    {
      if !fault {
        table := Without(table, id);
      }
      ok := !fault;
    }

    method ListPipelines(fault: bool) returns (ids: Option<seq<int>>)
      ensures ids == if fault then None else Some(table)
    {
      ids := if fault then None else Some(table);
    }
  }

  /** The pipelines among `ids` that a queue serves. */
  ghost function Serving<Q>(queues: map<int, Q>, ids: set<int>, q: Q): set<int> {
    set id <- queues | id in ids && queues[id] == q
  }

  lemma OneMore<Q>(queues: map<int, Q>, ids: set<int>, id: int, q: Q)
    requires id in queues && id !in ids
    ensures |Serving(queues, ids + {id}, q)| == |Serving(queues, ids, q)| + if queues[id] == q then 1 else 0
  {
    assert Serving(queues, ids + {id}, q) == Serving(queues, ids, q) + if queues[id] == q then {id} else {};
  }

  datatype EnqueueResult = Accepted | QueueIsFull | NoSuchQueue

  class PipelineService {
    const pipelineStore: PipelineStore
    const runStore: RunStore.RunSQLiteStore
    const queueSize: nat
    var queues: map<int, RunQueue.RunQueue>
    var workers: multiset<RunQueue.RunQueue>  // the queues on which Run has been called

    ghost function State(): Registry<RunQueue.RunQueue>
      reads this, pipelineStore
    {
      Registry(pipelineStore.Rows(), pipelineStore.lastId, queues, workers)
    }

    constructor (pipelineStore: PipelineStore, runStore: RunStore.RunSQLiteStore, queueSize: nat)
      ensures this.pipelineStore == pipelineStore && this.runStore == runStore && this.queueSize == queueSize
      ensures queues == map[] && workers == multiset{}
    {
      this.pipelineStore, this.runStore, this.queueSize := pipelineStore, runStore, queueSize;
      queues, workers := map[], multiset{};
    }

    method AddRunQueues(ids: seq<int>)
      modifies this`queues
      ensures queues.Keys == old(queues.Keys) + set id <- ids
      ensures forall id <- ids :: fresh(queues[id]) && queues[id].queue == [] && queues[id].maxRuns == queueSize
      ensures forall id <- old(queues) | id !in ids :: queues[id] == old(queues)[id]
      ensures forall id <- ids, other <- queues | queues[id] == queues[other] :: id == other
    {
      var i := 0;
      while i < |ids|
        invariant 0 <= i <= |ids|
        invariant queues.Keys == old(queues.Keys) + set id <- ids[..i]
        invariant forall id <- ids[..i] ::
          fresh(queues[id]) && queues[id].queue == [] && queues[id].maxRuns == queueSize
        invariant forall id <- old(queues) | id !in ids[..i] :: queues[id] == old(queues)[id]
        invariant forall id <- ids[..i], other <- queues | queues[id] == queues[other] :: id == other
      {
        AddRunQueue(ids[i]);
        assert ids[..i + 1] == ids[..i] + [ids[i]];
        i := i + 1;
      }
      assert ids[..i] == ids;
    }

    method AddRunQueue(id: int)
      modifies this`queues
      ensures id in queues && fresh(queues[id]) && queues[id].queue == [] && queues[id].maxRuns == queueSize
      ensures queues == old(queues)[id := queues[id]]
    {
      var q := new RunQueue.RunQueue(runStore, queueSize);
      queues := queues[id := q];
    }

    /** Starts a worker on every queue. */
    method StartRunQueues()
      modifies this`workers
      ensures forall q :: workers[q] == old(workers)[q] + |Serving(queues, queues.Keys, q)|
    {
      var todo: set<int> := queues.Keys;
      while todo != {}
        invariant todo <= queues.Keys
        invariant forall q :: workers[q] == old(workers)[q] + |Serving(queues, queues.Keys - todo, q)|
        decreases |todo|
      {
        assert exists id :: id in todo by {
          if forall id :: id !in todo {
            assert false;
          }
        }
        var id :| id in todo;
        ghost var done := queues.Keys - todo;
        workers := workers + multiset{queues[id]};
        todo := todo - {id};
        assert queues.Keys - todo == done + {id};
        forall q
          ensures |Serving(queues, done + {id}, q)| == |Serving(queues, done, q)| + if queues[id] == q then 1 else 0
        {
          OneMore(queues, done, id, q);
        }
      }
      assert queues.Keys - todo == queues.Keys;
    }

    method GetPipelineRunQueue(id: int) returns (rq: Option<RunQueue.RunQueue>)
      ensures rq == if id in queues then Some(queues[id]) else None
    {
      rq := if id in queues then Some(queues[id]) else None;
    }

    method StartRunQueue(id: int) returns (ok: bool)
      modifies this`workers
      ensures ok <==> id in queues
      ensures State() == Apply(old(State()), Start(id))
    {
      var rq := GetPipelineRunQueue(id);
      if rq.None? {
        return false;
      }
      workers := workers + multiset{rq.value};
      ok := true;
    }

    method RemoveRunQueue(id: int)
      modifies this`queues
      ensures State() == Apply(old(State()), Unregister(id))
    {
      queues := queues - {id};
    }

    /** At start-up the registry is empty; afterwards every pipeline has its own idle queue and one
        worker, or, if the pipelines could not be listed, nothing has changed. */
    method InitializeRunQueues(fault: bool) returns (ok: bool)
      requires queues == map[] && workers == multiset{} && pipelineStore.Valid()
      modifies this
      ensures ok <==> !fault
      ensures !ok ==> State() == old(State())
      ensures ok ==> Settled(State()) && State().rows == old(State()).rows && State().lastId == old(State()).lastId
      ensures forall id <- queues :: fresh(queues[id]) && queues[id].queue == [] && queues[id].maxRuns == queueSize
      ensures forall q <- workers :: q in queues.Values
    {
      var ids := pipelineStore.ListPipelines(fault);
      if ids.None? {
        return false;
      }
      AddRunQueues(ids.value);
      StartRunQueues();
      forall id | id in queues ensures workers[queues[id]] == 1 {
        assert id in ids.value;
        forall k | k in Serving(queues, queues.Keys, queues[id]) ensures k == id {
        }
        assert Serving(queues, queues.Keys, queues[id]) == {id};
      }
      forall q | q in workers ensures q in queues.Values {
        assert Serving(queues, queues.Keys, q) != {};
      }
      ok := true;
    }

    method CreatePipeline(fault: bool) returns (id: Option<int>, started: bool)
      modifies this, pipelineStore
      ensures id.None? <==> fault
      ensures fault ==> State() == old(State())
      ensures id.Some? ==> started && id.value == old(State()).lastId + 1 && id.value in queues
      ensures id.Some? ==> fresh(queues[id.value]) && queues[id.value].queue == []
      ensures id.Some? ==> State() == ApplyAll(old(State()), Creation(id.value, queues[id.value]))
    {
      id := pipelineStore.CreatePipeline(fault);
      started := false;
      if id.None? {
        return;
      }
      AddRunQueue(id.value);
      started := StartRunQueue(id.value);
      CreationSteps(old(State()), queues[id.value]);
    }

    method DeletePipeline(id: int, fault: bool) returns (ok: bool)
      modifies this`queues, pipelineStore`table
      ensures ok <==> !fault
      ensures State() == if ok then ApplyAll(old(State()), Deletion(id)) else old(State())
    {
      ok := pipelineStore.DeletePipeline(id, fault);
      if !ok {
        return;
      }
      RemoveRunQueue(id);
      DeletionSteps(old(State()), id);
    }

    /** Offers a run to its pipeline's queue; no other queue changes. */
    method EnqueueRun(r: RunStore.Run, workerWaiting: bool) returns (result: EnqueueResult)
      requires workerWaiting && r.row.pipelineId in queues ==> queues[r.row.pipelineId].queue == []
      modifies if r.row.pipelineId in queues then {queues[r.row.pipelineId]} else {}
      ensures result == NoSuchQueue <==> r.row.pipelineId !in queues
      ensures r.row.pipelineId in queues ==>
        var q := queues[r.row.pipelineId];
        && (result == Accepted <==> |old(q.queue)| < q.maxRuns || workerWaiting)
        && q.queue == old(q.queue) + if result == Accepted then [r] else []
    {
      var rq := GetPipelineRunQueue(r.row.pipelineId);
      if rq.None? {
        return NoSuchQueue;
      }
      var ok := rq.value.Enqueue(r, workerWaiting);
      result := if ok then Accepted else QueueIsFull;
    }
  }

  lemma CreationSteps<Q>(r: Registry<Q>, queue: Q)
    ensures var id := r.lastId + 1;
      ApplyAll(r, Creation(id, queue)) == Apply(Apply(Apply(r, Insert), Register(id, queue)), Start(id))
  {
    var id := r.lastId + 1;
    var steps := Creation(id, queue);
    assert steps[..2] == [Insert, Register(id, queue)] && steps[..2][..1] == [Insert] && steps[..1][..0] == [];
    assert ApplyAll(r, [Insert]) == Apply(r, Insert);
    assert ApplyAll(r, steps[..2]) == Apply(Apply(r, Insert), Register(id, queue));
  }

  lemma DeletionSteps<Q>(r: Registry<Q>, id: int)
    ensures ApplyAll(r, Deletion(id)) == Apply(Apply(r, Erase(id)), Unregister(id))
  {
    var steps: seq<RegistryStep<Q>> := Deletion(id);
    assert steps[..1] == [Erase(id)] && steps[..1][..0] == [];
    assert ApplyAll(r, [Erase(id)]) == Apply(r, Erase(id));
  }

  /* ---------- one call after the other ---------- */

  /** Between calls: the registry's keys are the ids in the store, no queue serves two pipelines,
      and each has exactly one worker. */
  ghost predicate Settled<Q>(r: Registry<Q>) {
    && r.queues.Keys == r.rows
    && (forall id <- r.rows :: id <= r.lastId)
    && (forall id <- r.queues, other <- r.queues | r.queues[id] == r.queues[other] :: id == other)
    && forall id <- r.queues :: r.workers[r.queues[id]] == 1
  }

  datatype Call<Q> = Create(queue: Q) | Delete(id: int)

  function StepsOf<Q>(r: Registry<Q>, call: Call<Q>): seq<RegistryStep<Q>> {
    match call
    case Create(queue) => Creation(r.lastId + 1, queue)
    case Delete(id) => Deletion(id)
  }

  function After<Q>(r: Registry<Q>, calls: seq<Call<Q>>): Registry<Q> {
    if calls == [] then r else
      var before := After(r, calls[..|calls| - 1]);
      ApplyAll(before, StepsOf(before, calls[|calls| - 1]))
  }

  /** Every creation makes a queue of its own. */
  ghost predicate NewQueues<Q>(r: Registry<Q>, calls: seq<Call<Q>>) {
    && (forall i, j :: 0 <= i < j < |calls| && calls[i].Create? && calls[j].Create? ==>
          calls[i].queue != calls[j].queue)
    && forall i :: 0 <= i < |calls| && calls[i].Create? ==> Unused(r, calls[i].queue)
  }

  ghost predicate Unused<Q>(r: Registry<Q>, queue: Q) {
    r.workers[queue] == 0 && forall id <- r.queues :: r.queues[id] != queue
  }

  lemma CallKeepsSettled<Q>(r: Registry<Q>, call: Call<Q>)
    requires Settled(r) && (call.Create? ==> Unused(r, call.queue))
    ensures Settled(ApplyAll(r, StepsOf(r, call)))
    ensures forall q :: Unused(r, q) && (call.Create? ==> call.queue != q) ==> Unused(ApplyAll(r, StepsOf(r, call)), q)
  {
    match call
    case Create(queue) => CreationSteps(r, queue);
    case Delete(id) => DeletionSteps(r, id);
  }

  /** Whatever complete calls follow the start-up, the registry agrees with the store. */
  lemma {:induction false} AlwaysSettled<Q>(r: Registry<Q>, calls: seq<Call<Q>>)
    requires Settled(r) && NewQueues(r, calls)
    ensures Settled(After(r, calls))
    ensures forall q :: Unused(r, q) && (forall call <- calls :: call.Create? ==> call.queue != q) ==>
      Unused(After(r, calls), q)
  {
    if calls != [] {
      var n := |calls| - 1;
      AlwaysSettled(r, calls[..n]);
      var before := After(r, calls[..n]);
      if calls[n].Create? {
        forall call | call in calls[..n] ensures call.Create? ==> call.queue != calls[n].queue {
        }
      }
      CallKeepsSettled(before, calls[n]);
      assert calls[n] in calls;
    }
  }

  /* ---------- interleaved calls ---------- */

  /** The registry among calls in progress: ids inserted but not yet registered, registered but not
      yet started, and erased but not yet unregistered; and every queue ever made. */
  datatype Sys<Q(==)> = Sys(
    reg: Registry<Q>, adding: set<int>, starting: set<int>, removing: multiset<int>, made: set<Q>)

  /** Whether the next step of some call can be this one. */
  ghost predicate Enabled<Q>(s: Sys<Q>, step: RegistryStep<Q>) {
    match step
    case Insert => true
    case Register(id, queue) => id in s.adding && queue !in s.made
    case Start(id) => id in s.starting
    case Erase(id) => true
    case Unregister(id) => id in s.removing
  }

  function Take<Q>(s: Sys<Q>, step: RegistryStep<Q>): Sys<Q> {
    var t := s.(reg := Apply(s.reg, step));
    match step
    case Insert => t.(adding := s.adding + {t.reg.lastId})
    case Register(id, queue) => t.(adding := s.adding - {id}, starting := s.starting + {id}, made := s.made + {queue})
    case Start(id) => t.(starting := s.starting - {id})
    case Erase(id) => t.(removing := s.removing + multiset{id})
    case Unregister(id) => t.(removing := s.removing - multiset{id})
  }

  ghost predicate IsRun<Q>(s: Sys<Q>, steps: seq<RegistryStep<Q>>, t: Sys<Q>)
    decreases |steps|
  {
    if steps == [] then t == s
    else Enabled(s, steps[0]) && IsRun(Take(s, steps[0]), steps[1..], t)
  }

  ghost predicate Inv<Q>(s: Sys<Q>) {
    IdsInv(s) && QueuesInv(s)
  }

  ghost predicate IdsInv<Q>(s: Sys<Q>) {
    && (forall id <- s.reg.rows :: id <= s.reg.lastId)
    && (forall id <- s.reg.queues :: id <= s.reg.lastId)
    && (forall id <- s.adding :: id <= s.reg.lastId)
    && (forall id <- s.starting :: id <= s.reg.lastId)
    && (forall id <- s.adding :: id !in s.reg.queues && id !in s.starting)
  }

  ghost predicate QueuesInv<Q>(s: Sys<Q>) {
    && (forall id <- s.reg.queues, other <- s.reg.queues | s.reg.queues[id] == s.reg.queues[other] :: id == other)
    && (forall id <- s.reg.queues :: s.reg.queues[id] in s.made
         && s.reg.workers[s.reg.queues[id]] == if id in s.starting then 0 else 1)
    && (forall q <- s.reg.workers :: q in s.made && s.reg.workers[q] <= 1)
  }

  lemma StepKeepsInv<Q>(s: Sys<Q>, step: RegistryStep<Q>)
    requires Inv(s) && Enabled(s, step)
    ensures Inv(Take(s, step))
  {
    StepKeepsIds(s, step);
    StepKeepsQueues(s, step);
  }

  lemma StepKeepsIds<Q>(s: Sys<Q>, step: RegistryStep<Q>)
    requires IdsInv(s) && Enabled(s, step)
    ensures IdsInv(Take(s, step))
  {
  }

  lemma StepKeepsQueues<Q>(s: Sys<Q>, step: RegistryStep<Q>)
    requires IdsInv(s) && QueuesInv(s) && Enabled(s, step)
    ensures QueuesInv(Take(s, step))
  {
  }

  function AtStartUp<Q>(r: Registry<Q>): Sys<Q> {
    Sys(r, {}, {}, multiset{}, r.queues.Values)
  }

  /** What InitializeRunQueues leaves behind is where the interleaved calls start from. */
  lemma StartUp<Q>(r: Registry<Q>)
    requires Settled(r) && forall q <- r.workers :: q in r.queues.Values
    ensures Inv(AtStartUp(r)) && Served(AtStartUp(r)) && RemovingIsGone(AtStartUp(r)) && Leaked(AtStartUp(r)) == {}
  {
  }

  lemma {:induction false} EveryRunKeepsInv<Q>(s: Sys<Q>, steps: seq<RegistryStep<Q>>, t: Sys<Q>)
    requires Inv(s) && IsRun(s, steps, t)
    ensures Inv(t)
    decreases |steps|
  {
    if steps != [] {
      StepKeepsInv(s, steps[0]);
      EveryRunKeepsInv(Take(s, steps[0]), steps[1..], t);
    }
  }

  /** Every pipeline in the store has a queue, or its creation is about to register one. */
  ghost predicate Served<Q>(s: Sys<Q>) {
    forall id <- s.reg.rows :: id in s.reg.queues || id in s.adding
  }

  /** A live pipeline loses its queue exactly when a deletion that had erased nothing, because the
      id had not been given out yet, comes to its second half after the creation. */
  lemma UnservedOnlyByEarlyDeletion<Q>(s: Sys<Q>, step: RegistryStep<Q>)
    requires Inv(s) && Enabled(s, step) && Served(s)
    ensures Served(Take(s, step)) <==>
      !(step.Unregister? && step.id in s.reg.rows && step.id in s.reg.queues)
  {
    var t := Take(s, step);
    if step.Unregister? && step.id in s.reg.rows && step.id in s.reg.queues {
      assert step.id in t.reg.rows && step.id !in t.reg.queues && step.id !in t.adding;
    }
  }

  /** Only ids that have been given out are deleted. */
  ghost predicate DeletesKnownIds<Q>(s: Sys<Q>, steps: seq<RegistryStep<Q>>)
    decreases |steps|
  {
    steps != [] ==>
      (steps[0].Erase? ==> steps[0].id <= s.reg.lastId) && DeletesKnownIds(Take(s, steps[0]), steps[1..])
  }

  ghost predicate RemovingIsGone<Q>(s: Sys<Q>) {
    forall id <- s.removing :: id <= s.reg.lastId && id !in s.reg.rows
  }

  lemma {:induction false} KnownDeletionsLeaveServed<Q>(s: Sys<Q>, steps: seq<RegistryStep<Q>>, t: Sys<Q>)
    requires Inv(s) && Served(s) && RemovingIsGone(s)
    requires IsRun(s, steps, t) && DeletesKnownIds(s, steps)
    ensures Served(t) && RemovingIsGone(t)
    decreases |steps|
  {
    if steps != [] {
      StepKeepsInv(s, steps[0]);
      UnservedOnlyByEarlyDeletion(s, steps[0]);
      assert RemovingIsGone(Take(s, steps[0]));
      KnownDeletionsLeaveServed(Take(s, steps[0]), steps[1..], t);
    }
  }

  /** From the start-up on, in every interleaving of creations and deletions: no two pipelines share
      a queue and no queue has two workers; and as long as only ids that have been given out are
      deleted, a pipeline in the store whose creation has registered it has its queue, so no run for
      it is refused for want of one. */
  lemma LivePipelinesAreServed<Q>(r: Registry<Q>, steps: seq<RegistryStep<Q>>, t: Sys<Q>)
    requires Settled(r) && forall q <- r.workers :: q in r.queues.Values
    requires IsRun(AtStartUp(r), steps, t)
    ensures forall id <- t.reg.queues, other <- t.reg.queues | t.reg.queues[id] == t.reg.queues[other] :: id == other
    ensures forall q <- t.reg.workers :: t.reg.workers[q] <= 1
    ensures DeletesKnownIds(AtStartUp(r), steps) ==>
      forall id <- t.reg.rows :: id in t.adding || id in t.reg.queues
  {
    StartUp(r);
    EveryRunKeepsInv(AtStartUp(r), steps, t);
    if DeletesKnownIds(AtStartUp(r), steps) {
      KnownDeletionsLeaveServed(AtStartUp(r), steps, t);
    }
  }

  /** A queue stays with its pipeline for as long as the pipeline is there and no deletion of its id
      that came too early is still under way: no run in it is lost. */
  lemma {:induction false} QueueIsKept<Q>(s: Sys<Q>, steps: seq<RegistryStep<Q>>, t: Sys<Q>, id: int)
    requires Inv(s) && IsRun(s, steps, t)
    requires id in s.reg.rows && id in s.reg.queues && id in t.reg.rows && id !in s.removing
    ensures id in t.reg.queues && t.reg.queues[id] == s.reg.queues[id]
    decreases |steps|
  {
    if steps != [] {
      var next := Take(s, steps[0]);
      StepKeepsInv(s, steps[0]);
      if id in next.reg.rows {
        QueueIsKept(next, steps[1..], t, id);
      } else {
        ErasedForGood(next, steps[1..], t, id);
      }
    }
  }

  lemma {:induction false} ErasedForGood<Q>(s: Sys<Q>, steps: seq<RegistryStep<Q>>, t: Sys<Q>, id: int)
    requires IsRun(s, steps, t) && id !in s.reg.rows && id <= s.reg.lastId
    ensures id !in t.reg.rows
    decreases |steps|
  {
    if steps != [] {
      ErasedForGood(Take(s, steps[0]), steps[1..], t, id);
    }
  }

  ghost predicate Quiet<Q>(s: Sys<Q>) {
    s.adding == {} && s.starting == {} && s.removing == multiset{}
  }

  /** Queues left in the registry although no pipeline has them and no call will remove them. */
  ghost function Leaked<Q>(s: Sys<Q>): set<int> {
    set id <- s.reg.queues | id !in s.reg.rows && id !in s.removing
  }

  /** When no call is in progress the registry agrees with the store unless a queue has leaked or
      is missing. */
  lemma QuietAgreement<Q>(s: Sys<Q>)
    requires Inv(s) && Quiet(s)
    ensures Settled(s.reg) <==> Leaked(s) == {} && Served(s)
  {
    if Leaked(s) == {} && Served(s) {
      forall id ensures id in s.reg.queues.Keys <==> id in s.reg.rows {
        assert id !in Leaked(s);
        assert id !in s.adding;
      }
      assert s.reg.queues.Keys == s.reg.rows;
    } else if !Served(s) {
      var id :| id in s.reg.rows && id !in s.reg.queues && id !in s.adding;
      assert id !in s.reg.queues.Keys;
    } else {
      assert exists id :: id in Leaked(s) by {
        if forall id :: id !in Leaked(s) {
          assert false;
        }
      }
      var id :| id in Leaked(s);
      assert id in s.reg.queues.Keys && id !in s.reg.rows;
    }
  }

  /** A queue leaks exactly when it is registered for a pipeline that a complete deletion has
      already erased. */
  lemma LeaksOnlyWhenRegisteredLate<Q>(s: Sys<Q>, step: RegistryStep<Q>)
    requires Inv(s) && Enabled(s, step) && Leaked(s) == {}
    ensures Leaked(Take(s, step)) != {} <==>
      step.Register? && step.id !in s.reg.rows && step.id !in s.removing
  {
    var t := Take(s, step);
    if step.Register? && step.id !in s.reg.rows && step.id !in s.removing {
      assert step.id in Leaked(t);
    } else {
      forall id | id in t.reg.queues ensures id !in Leaked(t) {
        assert id in s.reg.queues ==> id !in Leaked(s);
      }
    }
  }

  /** No pipeline is deleted before its creation has registered its queue. */
  ghost predicate DeletesComeLater<Q>(s: Sys<Q>, steps: seq<RegistryStep<Q>>)
    decreases |steps|
  {
    steps != [] ==>
      && (steps[0].Erase? ==> steps[0].id !in s.adding)
      && DeletesComeLater(Take(s, steps[0]), steps[1..])
  }

  lemma {:induction false} NothingLeaks<Q>(s: Sys<Q>, steps: seq<RegistryStep<Q>>, t: Sys<Q>)
    requires Inv(s) && Leaked(s) == {} && s.adding <= s.reg.rows
    requires IsRun(s, steps, t) && DeletesComeLater(s, steps)
    ensures Leaked(t) == {}
    decreases |steps|
  {
    if steps != [] {
      var next := Take(s, steps[0]);
      StepKeepsInv(s, steps[0]);
      LeaksOnlyWhenRegisteredLate(s, steps[0]);
      assert next.adding <= next.reg.rows;
      NothingLeaks(next, steps[1..], t);
    }
  }

  /** From the start-up on, however creations and deletions interleave: if each deletion starts after
      its pipeline's queue has been registered, the registry agrees with the store whenever no call
      is in progress. */
  lemma OrderedCallsAgree<Q>(r: Registry<Q>, steps: seq<RegistryStep<Q>>, t: Sys<Q>)
    requires Settled(r) && forall q <- r.workers :: q in r.queues.Values
    requires IsRun(AtStartUp(r), steps, t) && Quiet(t)
    requires DeletesKnownIds(AtStartUp(r), steps) && DeletesComeLater(AtStartUp(r), steps)
    ensures Settled(t.reg)
  {
    StartUp(r);
    EveryRunKeepsInv(AtStartUp(r), steps, t);
    KnownDeletionsLeaveServed(AtStartUp(r), steps, t);
    NothingLeaks(AtStartUp(r), steps, t);
    QuietAgreement(t);
  }

  function Empty<Q>(): Sys<Q> {
    Sys(Registry({}, 0, map[], multiset{}), {}, {}, multiset{}, {})
  }

  /** A deletion that runs to its end between the two halves of a creation leaves a queue, and a
      worker, behind. */
  lemma OverlapLeaks<Q>(queue: Q)
    ensures var steps := [Insert, Erase(1), Unregister(1), Register(1, queue), Start(1)];
      exists t :: IsRun(Empty<Q>(), steps, t) && Quiet(t) && Leaked(t) == {1} && t.reg.workers[queue] == 1
  {
    var s0 := Empty<Q>();
    var steps := [Insert, Erase(1), Unregister(1), Register(1, queue), Start(1)];
    var s1 := Take(s0, Insert);
    var s2 := Take(s1, Erase(1));
    var s3 := Take(s2, Unregister(1));
    var s4 := Take(s3, Register(1, queue));
    var s5 := Take(s4, Start(1));
    assert IsRun(s5, [], s5);
    assert steps[4..][1..] == [] && IsRun(s4, steps[4..], s5);
    assert steps[3..][1..] == steps[4..] && IsRun(s3, steps[3..], s5);
    assert steps[2..][1..] == steps[3..] && IsRun(s2, steps[2..], s5);
    assert steps[1..][1..] == steps[2..] && IsRun(s1, steps[1..], s5);
    assert IsRun(s0, steps, s5);
    assert Quiet(s5) && Leaked(s5) == {1};
  }

  /** A deletion of an id that has not been given out yet, whose second half comes after the
      creation: the pipeline is left without a queue. */
  lemma EarlyDeletionTakesTheQueue<Q>(queue: Q)
    ensures var steps := [Erase(1), Insert, Register(1, queue), Start(1), Unregister(1)];
      exists t :: IsRun(Empty<Q>(), steps, t) && Quiet(t) && t.reg.rows == {1} && !Served(t)
  {
    var s0 := Empty<Q>();
    var steps := [Erase(1), Insert, Register(1, queue), Start(1), Unregister(1)];
    var s1 := Take(s0, Erase(1));
    var s2 := Take(s1, Insert);
    var s3 := Take(s2, Register(1, queue));
    var s4 := Take(s3, Start(1));
    var s5 := Take(s4, Unregister(1));
    assert IsRun(s5, [], s5);
    assert steps[4..][1..] == [] && IsRun(s4, steps[4..], s5);
    assert steps[3..][1..] == steps[4..] && IsRun(s3, steps[3..], s5);
    assert steps[2..][1..] == steps[3..] && IsRun(s2, steps[2..], s5);
    assert steps[1..][1..] == steps[2..] && IsRun(s1, steps[1..], s5);
    assert IsRun(s0, steps, s5);
    assert 1 in s5.reg.rows && 1 !in s5.reg.queues && 1 !in s5.adding;
  }

  /* ---------- exactly which live pipelines are unserved ---------- */

  /** The system after the first n steps. */
  function At<Q>(s: Sys<Q>, steps: seq<RegistryStep<Q>>, n: nat): Sys<Q>
    requires n <= |steps|
  {
    if n == 0 then s else Take(At(s, steps, n - 1), steps[n - 1])
  }

  lemma {:induction false} AtOfRest<Q>(s: Sys<Q>, steps: seq<RegistryStep<Q>>, n: nat)
    requires 0 < n <= |steps|
    ensures At(s, steps, n) == At(Take(s, steps[0]), steps[1..], n - 1)
  {
    if n > 1 {
      AtOfRest(s, steps, n - 1);
    }
  }

  lemma {:induction false} RunAt<Q>(s: Sys<Q>, steps: seq<RegistryStep<Q>>, t: Sys<Q>, n: nat)
    requires Inv(s) && IsRun(s, steps, t) && n <= |steps|
    ensures Inv(At(s, steps, n)) && (n < |steps| ==> Enabled(At(s, steps, n), steps[n]))
    ensures n == |steps| ==> At(s, steps, n) == t
    decreases |steps|
  {
    hide Inv;
    if steps != [] {
      StepKeepsInv(s, steps[0]);
      if n > 0 {
        RunAt(Take(s, steps[0]), steps[1..], t, n - 1);
        AtOfRest(s, steps, n);
      }
    }
  }

  /** The deletion that step e begins is one of an id that has not been given out yet. */
  ghost predicate ErasesEarly<Q>(s: Sys<Q>, steps: seq<RegistryStep<Q>>, e: nat, id: int) {
    e < |steps| && steps[e] == Erase(id) && id > At(s, steps, e).reg.lastId
  }

  ghost predicate Registers<Q>(steps: seq<RegistryStep<Q>>, i: nat, id: int) {
    i < |steps| && steps[i].Register? && steps[i].id == id
  }

  ghost predicate Unregisters<Q>(steps: seq<RegistryStep<Q>>, j: nat, id: int) {
    j < |steps| && steps[j] == Unregister(id)
  }

  ghost predicate ErasedBefore<Q>(steps: seq<RegistryStep<Q>>, n: nat, id: int)
    requires n <= |steps|
  {
    exists e: nat :: e < n && steps[e] == Erase(id)
  }

  ghost predicate RegisteredBefore<Q>(steps: seq<RegistryStep<Q>>, n: nat, id: int) {
    exists i: nat :: i < n && Registers(steps, i, id)
  }

  /** An id that is in the store has not been erased except early. */
  ghost predicate OnlyEarly<Q>(s: Sys<Q>, steps: seq<RegistryStep<Q>>, n: nat, id: int)
    requires n <= |steps|
  {
    forall e: nat :: e < n && steps[e] == Erase(id) ==> ErasesEarly(s, steps, e, id)
  }

  /** What is known of an id after n steps from the start-up. */
  ghost predicate Known<Q>(s: Sys<Q>, steps: seq<RegistryStep<Q>>, n: nat, id: int)
    requires n <= |steps|
  {
    var now := At(s, steps, n);
    && (id in now.removing ==> ErasedBefore(steps, n, id))
    && (id in now.reg.rows ==> OnlyEarly(s, steps, n, id))
    && (id in now.reg.queues ==> id <= s.reg.lastId || RegisteredBefore(steps, n, id))
    && (RegisteredBefore(steps, n, id) ==> id <= now.reg.lastId && id !in now.adding)
  }

  ghost predicate Lost<Q>(steps: seq<RegistryStep<Q>>, n: nat, id: int) {
    exists i: nat, j: nat :: i < j < n && Registers(steps, i, id) && Unregisters(steps, j, id)
  }

  lemma OneStepMore<Q>(steps: seq<RegistryStep<Q>>, n: nat, id: int)
    requires n < |steps|
    ensures ErasedBefore(steps, n + 1, id) <==> ErasedBefore(steps, n, id) || steps[n] == Erase(id)
    ensures RegisteredBefore(steps, n + 1, id) <==> RegisteredBefore(steps, n, id) || Registers(steps, n, id)
    ensures Lost(steps, n + 1, id)
       <==> Lost(steps, n, id) || (RegisteredBefore(steps, n, id) && Unregisters(steps, n, id))
  {
  }

  lemma {:induction false} KnownAt<Q>(s: Sys<Q>, steps: seq<RegistryStep<Q>>, t: Sys<Q>, n: nat, id: int)
    requires Inv(s) && Served(s) && s.removing == multiset{} && s.adding == {}
    requires IsRun(s, steps, t) && n <= |steps|
    ensures Known(s, steps, n, id)
  {
    if n > 0 {
      KnownAt(s, steps, t, n - 1, id);
      RunAt(s, steps, t, n - 1);
      KnownStep(s, steps, n - 1, id);
    }
  }

  lemma {:induction false} LastIdGrows<Q>(s: Sys<Q>, steps: seq<RegistryStep<Q>>, m: nat, n: nat)
    requires m <= n <= |steps|
    ensures At(s, steps, m).reg.lastId <= At(s, steps, n).reg.lastId
  {
    hide Take;
    if m < n {
      LastIdGrows(s, steps, m, n - 1);
      TakeGrows(At(s, steps, n - 1), steps[n - 1]);
    }
  }

  lemma TakeGrows<Q>(s: Sys<Q>, step: RegistryStep<Q>)
    ensures s.reg.lastId <= Take(s, step).reg.lastId
  {
  }

  lemma RowsStep<Q>(s: Sys<Q>, step: RegistryStep<Q>, id: int)
    ensures id in Take(s, step).reg.rows ==> step != Erase(id) && (id in s.reg.rows || id > s.reg.lastId)
  {
  }

  lemma EarlyStep<Q>(s: Sys<Q>, steps: seq<RegistryStep<Q>>, n: nat, id: int)
    requires n < |steps| && (id in At(s, steps, n).reg.rows ==> OnlyEarly(s, steps, n, id))
    ensures id in At(s, steps, n + 1).reg.rows ==> OnlyEarly(s, steps, n + 1, id)
  {
    var now := At(s, steps, n);
    assert At(s, steps, n + 1) == Take(now, steps[n]);
    RowsStep(now, steps[n], id);
    hide Take, At;
    forall e: nat | e < n + 1 && steps[e] == Erase(id) && id in At(s, steps, n + 1).reg.rows
      ensures ErasesEarly(s, steps, e, id)
    {
      if id !in now.reg.rows {
        LastIdGrows(s, steps, e, n);
      }
    }
  }

  lemma KnownStep<Q>(s: Sys<Q>, steps: seq<RegistryStep<Q>>, n: nat, id: int)
    requires n < |steps| && Known(s, steps, n, id)
    requires IdsInv(At(s, steps, n)) && Enabled(At(s, steps, n), steps[n])
    ensures Known(s, steps, n + 1, id)
  {
    hide ErasedBefore, RegisteredBefore, OnlyEarly, Lost;
    EarlyStep(s, steps, n, id);
    OneStepMore(steps, n, id);
  }

  /** A queue that was lost stays lost, and no other queue is missing. */
  lemma {:induction false} LostAt<Q>(s: Sys<Q>, steps: seq<RegistryStep<Q>>, t: Sys<Q>, n: nat, id: int)
    requires Inv(s) && Served(s) && s.removing == multiset{} && s.adding == {}
    requires IsRun(s, steps, t) && n <= |steps|
    ensures var now := At(s, steps, n);
      && (Lost(steps, n, id) ==> id !in now.reg.queues)
      && (id in now.reg.rows && id !in now.adding && id !in now.reg.queues ==> Lost(steps, n, id))
  {
    if n > 0 {
      hide IsRun, Known, Lost, At, Take, Enabled, Served;
      LostAt(s, steps, t, n - 1, id);
      KnownAt(s, steps, t, n - 1, id);
      RunAt(s, steps, t, n - 1);
      LostStep(s, steps, n - 1, id);
    }
  }

  /** Only a registered queue is lost. */
  lemma LosingStep<Q>(s: Sys<Q>, steps: seq<RegistryStep<Q>>, n: nat, id: int)
    requires n < |steps| && Known(s, steps, n, id) && Enabled(At(s, steps, n), steps[n])
    requires var now := At(s, steps, n); id in now.reg.rows && id in now.reg.queues && steps[n] == Unregister(id)
    ensures RegisteredBefore(steps, n, id)
  {
    hide RegisteredBefore, Take;
    var e: nat :| e < n && steps[e] == Erase(id);
    assert ErasesEarly(s, steps, e, id);
    LastIdGrows(s, steps, 0, e);
  }

  lemma LostStep<Q>(s: Sys<Q>, steps: seq<RegistryStep<Q>>, n: nat, id: int)
    requires n < |steps| && Known(s, steps, n, id)
    requires IdsInv(At(s, steps, n)) && Enabled(At(s, steps, n), steps[n])
    requires var now := At(s, steps, n);
      && (Lost(steps, n, id) ==> id !in now.reg.queues)
      && (id in now.reg.rows && id !in now.adding && id !in now.reg.queues ==> Lost(steps, n, id))
    ensures var next := At(s, steps, n + 1);
      && (Lost(steps, n + 1, id) ==> id !in next.reg.queues)
      && (id in next.reg.rows && id !in next.adding && id !in next.reg.queues ==> Lost(steps, n + 1, id))
  {
    LostIsRegistered(steps, n, id);
    OneStepMore(steps, n, id);
    hide ErasedBefore, RegisteredBefore, OnlyEarly, Lost;
    var now := At(s, steps, n);
    if steps[n] == Unregister(id) && id in now.reg.rows && id in now.reg.queues {
      LosingStep(s, steps, n, id);
    }
  }

  lemma LostIsRegistered<Q>(steps: seq<RegistryStep<Q>>, n: nat, id: int)
    ensures Lost(steps, n, id) ==> RegisteredBefore(steps, n, id)
  {
  }

  /** From the start-up on: a live pipeline whose creation has registered it is without a queue, if
      and only if a deletion that had begun before the pipeline's id was given out came to its second
      half after the registration. */
  lemma UnservedExactly<Q>(r: Registry<Q>, steps: seq<RegistryStep<Q>>, t: Sys<Q>, id: int)
    requires Settled(r) && forall q <- r.workers :: q in r.queues.Values
    requires IsRun(AtStartUp(r), steps, t) && id in t.reg.rows && id !in t.adding
    ensures id !in t.reg.queues <==>
      exists e: nat, i: nat, j: nat :: e < i < j
        && ErasesEarly(AtStartUp(r), steps, e, id) && Registers(steps, i, id) && Unregisters(steps, j, id)
  {
    hide Inv, IsRun, Known, At, Take, Enabled;
    var s, n := AtStartUp(r), |steps|;
    StartUp(r);
    RunAt(s, steps, t, n);
    LostAt(s, steps, t, n, id);
    if Lost(steps, n, id) {
      var i: nat, j: nat :| i < j < n && Registers(steps, i, id) && Unregisters(steps, j, id);
      var e := EarlyErase(s, steps, t, id, i, j);
    }
  }

  lemma EarlyErase<Q>(s: Sys<Q>, steps: seq<RegistryStep<Q>>, t: Sys<Q>, id: int, i: nat, j: nat) returns (e: nat)
    requires Inv(s) && Served(s) && s.removing == multiset{} && s.adding == {}
    requires IsRun(s, steps, t) && id in t.reg.rows
    requires i < j < |steps| && Registers(steps, i, id) && Unregisters(steps, j, id)
    ensures e < i && ErasesEarly(s, steps, e, id)
  {
    RunAt(s, steps, t, |steps|);
    RunAt(s, steps, t, j);
    RunAt(s, steps, t, i);
    KnownAt(s, steps, t, |steps|, id);
    KnownAt(s, steps, t, j, id);
    hide IsRun, At, Take;
    e :| e < j && steps[e] == Erase(id);
    assert ErasesEarly(s, steps, e, id);
    if e >= i {
      LastIdGrows(s, steps, i, e);
    }
  }
}
