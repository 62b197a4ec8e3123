/** The output goroutine of a run (internal/service/run_queue.go): it appends every message it
    receives to the run's row and broadcasts it, whether or not the append succeeded. */
module OutputHandler {
  import opened Sequences
  import opened RunStore
  import SSEClientMap

  /** The appends that go through, among those of the first n messages: none on a cancelled
      context, and none that fails otherwise. */
  function Appends(runId: int, texts: seq<string>, cancelled: nat -> bool, fault: nat -> bool, n: nat): seq<Entry>
    requires n <= |texts|
  {
    if n == 0 then [] else
      Appends(runId, texts, cancelled, fault, n - 1)
      + if cancelled(n - 1) || fault(n - 1) then [] else [Entry(runId, Append(texts[n - 1]))]
  }

  function Broadcast(hub: SSEClientMap.Hub<string>, texts: seq<string>): SSEClientMap.Hub<string> {
    if texts == [] then hub
    else SSEClientMap.Apply(Broadcast(hub, texts[..|texts| - 1]), SSEClientMap.Send(texts[|texts| - 1]))
  }

  lemma AppendsAdd(rows: map<int, Row>, runId: int, texts: seq<string>,
                   cancelled: nat -> bool, fault: nat -> bool, n: nat)
    requires n < |texts|
    ensures var before := ApplyLog(rows, Appends(runId, texts, cancelled, fault, n));
      ApplyLog(rows, Appends(runId, texts, cancelled, fault, n + 1))
        == if cancelled(n) || fault(n) then before else Update(before, runId, Append(texts[n]))
  {
    var log := Appends(runId, texts, cancelled, fault, n);
    var e := Entry(runId, Append(texts[n]));
    assert (log + [e])[..|log|] == log && log + [] == log;
  }

  lemma BroadcastAdds(hub: SSEClientMap.Hub<string>, texts: seq<string>, n: nat)
    requires n < |texts|
    ensures Broadcast(hub, texts[..n + 1])
         == SSEClientMap.Apply(Broadcast(hub, texts[..n]), SSEClientMap.Send(texts[n]))
  {
    assert texts[..n + 1][..n] == texts[..n];
  }

  lemma MissingRow(rows: map<int, Row>, runId: int, w: Write)
    ensures runId !in rows ==> Update(rows, runId, w) == rows
  {
  }

  /** Handles the messages until the channel is closed. `cancelled(i)` says whether the run's context
      has been cancelled when message i is appended, `fault(i)` whether that append fails. */
  method HandleOutput(store: RunSQLiteStore, clients: SSEClientMap.SSEClientMap<string>, runId: int,
                      texts: seq<string>, cancelled: nat -> bool, fault: nat -> bool)
    requires store.Valid()
    modifies store`rows, clients
    ensures store.Valid()
    ensures store.rows == ApplyLog(old(store.rows), Appends(runId, texts, cancelled, fault, |texts|))
    ensures clients.State() == Broadcast(old(clients.State()), texts)
  {
    hide ApplyLog, Appends, Update, Broadcast, SSEClientMap.Apply;
    ghost var rows, hub := store.rows, clients.State();
    Beginning(rows, runId, texts, cancelled, fault, hub);
    var i := 0;
    while i < |texts|
      invariant 0 <= i <= |texts| && store.Valid()
      invariant store.rows == ApplyLog(rows, Appends(runId, texts, cancelled, fault, i))
      invariant clients.State() == Broadcast(hub, texts[..i])
    {
      AppendsAdd(rows, runId, texts, cancelled, fault, i);
      BroadcastAdds(hub, texts, i);
      MissingRow(store.rows, runId, Append(texts[i]));
      var ok := store.AppendPipelineRunOutput(cancelled(i), runId, texts[i], fault(i));
      clients.SendToClients(texts[i]);
      i := i + 1;
    }
    assert texts[..i] == texts;
  }

  lemma Beginning(rows: map<int, Row>, runId: int, texts: seq<string>, cancelled: nat -> bool, fault: nat -> bool,
                  hub: SSEClientMap.Hub<string>)
    ensures ApplyLog(rows, Appends(runId, texts, cancelled, fault, 0)) == rows && Broadcast(hub, texts[..0]) == hub
  {
  }

  /** Message i is appended before the cancellation at `cut`, and no append fails otherwise. */
  ghost predicate OnlyCancelled(cancelled: nat -> bool, fault: nat -> bool, cut: nat) {
    forall i: nat :: (cancelled(i) <==> i >= cut) && !fault(i)
  }

  lemma OneMoreText(log: seq<Entry>, runId: int, text: string)
    requires forall w <- Part(log, runId, true) :: w.Append?
    ensures var part := Part(log + [Entry(runId, Append(text))], runId, true);
      (forall w <- part :: w.Append?) && Texts(part) == Texts(Part(log, runId, true)) + text
  {
    var e := Entry(runId, Append(text));
    assert (log + [e])[..|log|] == log;
    PartSnoc(log + [e], runId, true);
    TextsSnoc(Part(log, runId, true), e.w);
  }

  lemma {:induction false} AppendsAreKept(runId: int, texts: seq<string>, cancelled: nat -> bool, fault: nat -> bool,
                                          n: nat, cut: nat)
    requires n <= |texts| && cut <= |texts| && OnlyCancelled(cancelled, fault, cut)
    ensures var part := Part(Appends(runId, texts, cancelled, fault, n), runId, true);
      (forall w <- part :: w.Append?) && Texts(part) == Flatten(texts[..if n < cut then n else cut])
  {
    hide Part, Texts, Flatten;
    if n == 0 {
      NoParts(runId);
      NoTexts();
      NothingToFlatten<char>();
      assert texts[..0] == [];
    } else {
      AppendsAreKept(runId, texts, cancelled, fault, n - 1, cut);
      var before := Appends(runId, texts, cancelled, fault, n - 1);
      if n <= cut {
        OneMoreText(before, runId, texts[n - 1]);
        FlattenSnoc(texts[..n - 1], texts[n - 1]);
        assert texts[..n] == texts[..n - 1] + [texts[n - 1]];
      } else {
        assert before + [] == before;
      }
    }
  }

  /** With a cancellation before message `cut` and no other failure, the row has received exactly the
      messages before it. */
  lemma StoredUpToTheCancel(rows: map<int, Row>, runId: int, texts: seq<string>,
                            cancelled: nat -> bool, fault: nat -> bool, cut: nat)
    requires runId in rows && cut <= |texts| && OnlyCancelled(cancelled, fault, cut)
    ensures var after := ApplyLog(rows, Appends(runId, texts, cancelled, fault, |texts|));
      runId in after && Content(after[runId].output) == Content(rows[runId].output) + Flatten(texts[..cut])
  {
    AppendedOutput(rows, Appends(runId, texts, cancelled, fault, |texts|), runId);
    AppendsAreKept(runId, texts, cancelled, fault, |texts|, cut);
  }

  /** A client connected throughout gets every message, stored or not, after what it had. */
  lemma {:induction false} EveryMessageIsBroadcast(hub: SSEClientMap.Hub<string>, texts: seq<string>, uid: string)
    requires uid in hub.clients
    ensures uid in Broadcast(hub, texts).clients && Broadcast(hub, texts).clients[uid] == hub.clients[uid] + texts
  {
    if texts != [] {
      EveryMessageIsBroadcast(hub, texts[..|texts| - 1], uid);
    }
  }
}
