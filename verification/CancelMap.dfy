/** The functions that cancel the runs in progress (internal/service/cancel_map.go). */
module CancelMap {

  /** A cancellable context; its cancel function sets `done`. */
  class Context {
    var done: bool

    constructor ()
      ensures !done
    {
      done := false;
    }
  }

  class CancelMap<K(==)> {
    var cancels: map<K, Context>

    constructor ()
      ensures cancels == map[]
    {
      cancels := map[];
    }

    method AddCancel(id: K, ctx: Context)
      modifies this
      ensures cancels == old(cancels)[id := ctx]
    {
      cancels := cancels[id := ctx];
    }

    method RemoveCancel(key: K)
      modifies this
      ensures cancels == old(cancels) - {key}
    {
      cancels := cancels - {key};
      if |cancels| == 0 {
        cancels := map[];
      }
    }

    /** Looks the function up and calls it unchecked: for a key that is not there the caller
        panics, and nothing is cancelled. */
    method Call(key: K) returns (panicked: bool)
      modifies if key in cancels then {cancels[key]} else {}
      ensures panicked <==> key !in cancels
      ensures !panicked ==> cancels[key].done
    {
      if key !in cancels {
        return true;
      }
      cancels[key].done := true;
      panicked := false;
    }
  }
}
