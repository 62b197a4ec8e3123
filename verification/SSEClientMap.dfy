/** Broadcasting to the connected clients (internal/service/sse_client_map.go). A client's channel
    is what has been delivered on it: sends are taken to complete. */
module SSEClientMap {

  /** One operation on the map; each holds the lock from beginning to end. */
  datatype Op<T> = Add(uid: string) | Remove(uid: string) | Send(message: T)

  function Delivered<T>(clients: map<string, seq<T>>, message: T): map<string, seq<T>> {
    map uid <- clients :: clients[uid] + [message]
  }

  datatype Hub<T> = Hub(clients: map<string, seq<T>>, closed: map<string, seq<T>>)

  function Apply<T>(h: Hub<T>, op: Op<T>): Hub<T> {
    match op
    case Add(uid) => h.(clients := h.clients[uid := []])
    case Remove(uid) =>
      if uid in h.clients then Hub(h.clients - {uid}, h.closed[uid := h.clients[uid]]) else h
    case Send(message) => h.(clients := Delivered(h.clients, message))
  }

  class SSEClientMap<T> {
    var clients: map<string, seq<T>>
    ghost var closed: map<string, seq<T>>  // what removed clients had received

    ghost function State(): Hub<T>
      reads this
    {
      Hub(clients, closed)
    }

    constructor ()
      ensures State() == Hub(map[], map[])
    {
      clients, closed := map[], map[];
    }

    method AddClient(uid: string)
      modifies this
      ensures State() == Apply(old(State()), Add(uid))
    {
      clients := clients[uid := []];
    }

    /** Closing the channel of a client that is not there panics, before anything has changed. */
    method RemoveClient(uid: string) returns (panicked: bool)
      modifies this
      ensures panicked <==> uid !in old(clients)
      ensures State() == Apply(old(State()), Remove(uid))
    {
      if uid !in clients {
        return true;
      }
      closed := closed[uid := clients[uid]];
      clients := clients - {uid};
      if |clients| == 0 {
        clients := map[];
      }
      panicked := false;
    }

    /** Sends to one client after the other, in whatever order the map yields them. */
    method SendToClients(message: T)
      modifies this
      ensures State() == Apply(old(State()), Send(message))
    {
      var before := clients;
      var todo := clients.Keys;
      while todo != {}
        invariant todo <= clients.Keys == before.Keys && closed == old(closed)
        invariant forall uid <- before :: clients[uid] == if uid in todo then before[uid] else before[uid] + [message]
        decreases |todo|
      {
        var uid :| uid in todo;
        clients := clients[uid := clients[uid] + [message]];
        todo := todo - {uid};
      }
    }
  }

  /* ---------- any sequence of operations ---------- */

  function After<T>(ops: seq<Op<T>>): Hub<T> {
    if ops == [] then Hub(map[], map[]) else Apply(After(ops[..|ops| - 1]), ops[|ops| - 1])
  }

  /** All messages broadcast, in order. */
  function Broadcasts<T>(ops: seq<Op<T>>): seq<T> {
    if ops == [] then [] else
      var op := ops[|ops| - 1];
      Broadcasts(ops[..|ops| - 1]) + if op.Send? then [op.message] else []
  }

  /** Client ids are made afresh, so none is added twice. */
  ghost predicate FreshIds<T>(ops: seq<Op<T>>) {
    forall i, j :: 0 <= i < j < |ops| && ops[i].Add? && ops[j].Add? ==> ops[i].uid != ops[j].uid
  }

  /** `ops[a]` added the client and the first removal after it, if any, is at r. */
  ghost predicate Connected<T>(ops: seq<Op<T>>, uid: string, a: nat, r: nat) {
    && a < r <= |ops| && ops[a] == Add(uid)
    && (forall i :: a < i < r ==> ops[i] != Remove(uid))
    && (r < |ops| ==> ops[r] == Remove(uid))
  }

  lemma {:induction false} BroadcastsGrow<T>(ops: seq<Op<T>>, n: nat)
    requires n <= |ops|
    ensures Broadcasts(ops[..n]) <= Broadcasts(ops)
  {
    if n == |ops| {
      assert ops[..n] == ops;
    } else {
      var front := ops[..|ops| - 1];
      BroadcastsGrow(front, n);
      assert front[..n] == ops[..n];
    }
  }

  /** What a client has received: if it is still connected, from its channel; else when it left. */
  function Received<T>(h: Hub<T>, uid: string): seq<T>
    requires uid in h.clients || uid in h.closed
  {
    if uid in h.clients then h.clients[uid] else h.closed[uid]
  }

  /** What one operation does to a client: it stays connected, or away, until it is named. */
  lemma OneOperation<T>(h: Hub<T>, op: Op<T>, uid: string)
    requires op != Add(uid)
    ensures var h' := Apply(h, op);
      if uid in h.clients && op != Remove(uid) then
        uid in h'.clients && h'.clients[uid] == h.clients[uid] + if op.Send? then [op.message] else []
      else if uid in h.clients then
        uid !in h'.clients && uid in h'.closed && h'.closed[uid] == h.clients[uid]
      else uid in h.closed ==> uid !in h'.clients && uid in h'.closed && h'.closed[uid] == h.closed[uid]
  {
  }

  lemma {:induction false} Slice<T>(ops: seq<Op<T>>, uid: string, a: nat, r: nat)
    requires FreshIds(ops) && Connected(ops, uid, a, r)
    ensures if r == |ops| then uid in After(ops).clients else uid !in After(ops).clients && uid in After(ops).closed
    ensures Broadcasts(ops[..a]) <= Broadcasts(ops[..r])
    ensures Received(After(ops), uid) == Broadcasts(ops[..r])[|Broadcasts(ops[..a])|..]
  {
    hide Apply, FreshIds;
    var n := |ops| - 1;
    var front, op := ops[..n], ops[n];
    BroadcastsGrow(ops[..r], a);
    assert ops[..r][..a] == ops[..a];
    if n == a {
      JustAdded(After(front), op);
      assert ops[..r] == ops && ops[..a] == front;
    } else {
      var r' := if r < n then r else n;
      FrontIsFresh(ops, a);
      OneOperation(After(front), op, uid);
      assert front[..a] == ops[..a] && front[..r'] == ops[..r'];
      assert Connected(front, uid, a, r') by {
        assert forall i :: 0 <= i < n ==> front[i] == ops[i];
      }
      Slice(front, uid, a, r');
      BroadcastsGrow(front, a);
      if r == |ops| {
        assert ops[..r] == ops && ops[..r'] == front;
      }
    }
  }

  lemma JustAdded<T>(h: Hub<T>, op: Op<T>)
    requires op.Add?
    ensures op.uid in Apply(h, op).clients && Apply(h, op).clients[op.uid] == []
  {
  }

  lemma FrontIsFresh<T>(ops: seq<Op<T>>, a: nat)
    requires FreshIds(ops) && a < |ops| - 1 && ops[a].Add?
    ensures FreshIds(ops[..|ops| - 1]) && ops[|ops| - 1] != ops[a]
  {
    assert forall i :: 0 <= i < |ops| - 1 ==> ops[..|ops| - 1][i] == ops[i];
  }
}
