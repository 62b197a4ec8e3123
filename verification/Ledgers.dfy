/** Sums of what several threads still owe. */
module Ledgers {

  datatype Ledger<!E, !F> = Ledger(events: multiset<E>, errors: multiset<F>) {
    function Plus(other: Ledger<E, F>): Ledger<E, F> {
      Ledger(events + other.events, errors + other.errors)
    }
  }

  function Sum<E, F>(dues: seq<Ledger<E, F>>): Ledger<E, F> {
    if dues == [] then Ledger(multiset{}, multiset{})
    else Sum(dues[..|dues| - 1]).Plus(dues[|dues| - 1])
  }

  lemma PlusSwaps<E, F>(a: Ledger<E, F>, b: Ledger<E, F>, c: Ledger<E, F>)
    ensures a.Plus(b).Plus(c) == a.Plus(c).Plus(b)
  {
  }

  lemma PlusShifts<E, F>(a: Ledger<E, F>, b: Ledger<E, F>, c: Ledger<E, F>)
    ensures a.Plus(b.Plus(c)) == a.Plus(b).Plus(c)
  {
  }

  lemma {:induction false} SumUpdate<E, F>(dues: seq<Ledger<E, F>>, i: nat, due: Ledger<E, F>, paid: Ledger<E, F>)
    requires i < |dues| && dues[i] == due.Plus(paid)
    ensures Sum(dues) == Sum(dues[i := due]).Plus(paid)
  {
    var n := |dues| - 1;
    if i == n {
      assert dues[i := due][..n] == dues[..n];
      PlusShifts(Sum(dues[..n]), due, paid);
    } else {
      SumUpdate(dues[..n], i, due, paid);
      assert dues[i := due][..n] == dues[..n][i := due];
      PlusSwaps(Sum(dues[..n][i := due]), paid, dues[n]);
    }
  }

  lemma {:induction false} SumIsEmpty<E, F>(dues: seq<Ledger<E, F>>)
    ensures Sum(dues).events == multiset{} <==> forall d <- dues :: d.events == multiset{}
    ensures Sum(dues).errors == multiset{} <==> forall d <- dues :: d.errors == multiset{}
  {
    if dues != [] {
      var n := |dues| - 1;
      SumIsEmpty(dues[..n]);
      assert dues == dues[..n] + [dues[n]];
      MultisetUnionEmpty(Sum(dues[..n]).events, dues[n].events);
      MultisetUnionEmpty(Sum(dues[..n]).errors, dues[n].errors);
    }
  }

  lemma MultisetUnionEmpty<T>(a: multiset<T>, b: multiset<T>)
    ensures a + b == multiset{} <==> a == multiset{} && b == multiset{}
  {
    if a + b == multiset{} {
      assert |a| + |b| == |a + b| == 0;
    }
  }
}
