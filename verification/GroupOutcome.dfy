/** What a group owes: the events and errors its threads have still to produce. What has been
    produced and what is owed always add up to the same total, whatever the interleaving. */
module GroupOutcome {
  import opened Wrappers
  import opened StepGroup
  import opened Ledgers

  type GroupLedger = Ledger<Event, StepError>

  function Tagged(k: nat, i: nat, acts: seq<Act>): seq<Event> {
    seq(|acts|, j requires 0 <= j < |acts| => OfStep(k, i, acts[j]))
  }

  /** The acts a thread has still to do. */
  function Rest(m: Member, t: Thread, which: Which): seq<Act> {
    if t.Progress(which) <= |Acts(m, which)| then Acts(m, which)[t.Progress(which)..] else []
  }

  function Left(k: nat, i: nat, m: Member, t: Thread, which: Which): multiset<Event> {
    multiset(Tagged(k, i, Rest(m, t, which)))
  }

  function ErrorsOwed(m: Member, t: Thread): multiset<StepError> {
    if m.behaviour.outcome.Pass? || t.at >= |Program(m)| then multiset{}
    else multiset{ErrorOf(m.behaviour.outcome)}
  }

  function Due(k: nat, i: nat, m: Member, t: Thread): GroupLedger {
    Ledger(Left(k, i, m, t, Caller) + Left(k, i, m, t, Stdout) + Left(k, i, m, t, Stderr), ErrorsOwed(m, t))
  }

  function Dues(g: Group, threads: seq<Thread>): seq<GroupLedger>
    requires |threads| == |g.members|
  {
    seq(|threads|, i requires 0 <= i < |threads| => Due(g.k, g.lo + i, g.members[i], threads[i]))
  }

  function Owed(g: Group, s: GroupState): GroupLedger
    requires |s.threads| == |g.members|
  {
    Sum(Dues(g, s.threads))
  }

  function Produced(s: GroupState): GroupLedger {
    Ledger(multiset(s.trace), multiset(s.errors))
  }

  /** All a group ever produces: a function of its steps and their outcomes alone. */
  function Total(g: Group): GroupLedger {
    Owed(g, Spawn(g))
  }

  ghost predicate Balanced(g: Group, s: GroupState) {
    |s.threads| == |g.members| && Produced(s).Plus(Owed(g, s)) == Total(g)
  }

  lemma SpawnBalanced(g: Group)
    ensures Balanced(g, Spawn(g))
  {
    assert Produced(Spawn(g)) == Ledger(multiset{}, multiset{});
  }

  lemma TaggedCons(k: nat, i: nat, acts: seq<Act>)
    requires acts != []
    ensures multiset(Tagged(k, i, acts)) == multiset{OfStep(k, i, acts[0])} + multiset(Tagged(k, i, acts[1..]))
  {
    assert Tagged(k, i, acts) == [OfStep(k, i, acts[0])] + Tagged(k, i, acts[1..]);
  }

  lemma RestCons(m: Member, t: Thread, which: Which)
    requires Ready(m, t, which)
    ensures Rest(m, t, which) != [] && Rest(m, t, which)[0] == ActOf(m, t, which)
    ensures Rest(m, t, which)[1..] == Rest(m, Advance(t, which), which)
    ensures forall w :: w != which ==> Rest(m, Advance(t, which), w) == Rest(m, t, w)
  {
  }

  lemma ActLeaves(k: nat, i: nat, m: Member, t: Thread, which: Which)
    requires Ready(m, t, which)
    ensures Left(k, i, m, t, which)
         == Left(k, i, m, Advance(t, which), which) + multiset{OfStep(k, i, ActOf(m, t, which))}
    ensures forall w :: w != which ==> Left(k, i, m, Advance(t, which), w) == Left(k, i, m, t, w)
  {
    RestCons(m, t, which);
    TaggedCons(k, i, Rest(m, t, which));
  }

  lemma CollectIsLast(m: Member, j: nat)
    requires j < |Program(m)|
    ensures Collected(Program(m)[j])
         == if !m.behaviour.outcome.Pass? && j == |Program(m)| - 1
            then multiset{ErrorOf(m.behaviour.outcome)} else multiset{}
  {
  }

  lemma ErrorLeaves(m: Member, t: Thread, which: Which)
    requires Ready(m, t, which)
    ensures ErrorsOwed(m, t) == ErrorsOwed(m, Advance(t, which)) + Collected(ActOf(m, t, which))
  {
    hide Program;
    if which == Caller {
      CollectIsLast(m, t.at);
    } else {
      assert KindOf(ActOf(m, t, which)) == which;
    }
  }

  function Collected(a: Act): multiset<StepError> {
    if a.Collect? then multiset{a.error} else multiset{}
  }

  lemma DuePaid(k: nat, i: nat, m: Member, t: Thread, which: Which)
    requires Ready(m, t, which)
    ensures var a := ActOf(m, t, which);
            Due(k, i, m, t) == Due(k, i, m, Advance(t, which)).Plus(Ledger(multiset{OfStep(k, i, a)}, Collected(a)))
  {
    hide Acts, Program, Left, ErrorsOwed, ActOf, Collected;
    ActLeaves(k, i, m, t, which);
    ErrorLeaves(m, t, which);
    assert which == Caller || which == Stdout || which == Stderr;
  }

  lemma OwedIsPaid(g: Group, s: GroupState, mv: Move)
    requires |s.threads| == |g.members| && CanMove(g, s, mv)
    ensures var e := EventOf(g, s, mv);
            Owed(g, s) == Owed(g, Moved(g, s, mv)).Plus(Ledger(multiset{e}, Collected(e.act)))
  {
    hide Acts, Program, Collected, Due;
    var i, t := mv.i, s.threads[mv.i];
    var e := EventOf(g, s, mv);
    var due := Due(g.k, g.lo + i, g.members[i], Advance(t, mv.which));
    DuePaid(g.k, g.lo + i, g.members[i], t, mv.which);
    SumUpdate(Dues(g, s.threads), i, due, Ledger(multiset{e}, Collected(e.act)));
    assert Dues(g, s.threads)[i := due] == Dues(g, Moved(g, s, mv).threads);
  }

  lemma MoveKeepsBalance(g: Group, s: GroupState, mv: Move)
    requires Balanced(g, s) && CanMove(g, s, mv)
    ensures Balanced(g, Moved(g, s, mv))
    ensures |Owed(g, s).events| == |Owed(g, Moved(g, s, mv)).events| + 1
  {
    hide Acts, Program, Owed;
    OwedIsPaid(g, s, mv);
    var s', e := Moved(g, s, mv), EventOf(g, s, mv);
    assert multiset(s'.trace) == multiset(s.trace) + multiset{e};
    assert multiset(s'.errors) == multiset(s.errors) + Collected(e.act);
  }

  /** Every event and every error of the group has been produced. */
  predicate Settled(g: Group, s: GroupState) {
    |s.threads| == |g.members| &&
    forall i :: 0 <= i < |g.members| ==>
      s.threads[i].at >= |Program(g.members[i])| && s.threads[i].out >= |g.members[i].behaviour.stdout|
      && s.threads[i].err >= |g.members[i].behaviour.stderr|
  }

  lemma MemberOwes(k: nat, i: nat, m: Member, t: Thread)
    ensures t.at >= |Program(m)| ==> Due(k, i, m, t).errors == multiset{}
    ensures t.at >= |Program(m)| && t.out >= |m.behaviour.stdout| && t.err >= |m.behaviour.stderr|
      ==> Due(k, i, m, t).events == multiset{}
    ensures t.at == 0 ==> (Due(k, i, m, t).errors == multiset{} <==> m.behaviour.outcome.Pass?)
  {
    if t.at >= |Program(m)| && t.out >= |m.behaviour.stdout| && t.err >= |m.behaviour.stderr| {
      assert Rest(m, t, Caller) == Rest(m, t, Stdout) == Rest(m, t, Stderr) == [];
    }
    if t.at == 0 && !m.behaviour.outcome.Pass? {
      assert ErrorOf(m.behaviour.outcome) in ErrorsOwed(m, t);
    }
  }

  lemma SettledOwesNothing(g: Group, s: GroupState)
    requires |s.threads| == |g.members|
    ensures Settled(g, s) ==> Owed(g, s).events == multiset{}
    ensures Complete(g, s) ==> Owed(g, s).errors == multiset{}
  {
    hide Acts, Program, Due;
    var dues := Dues(g, s.threads);
    SumIsEmpty(dues);
    forall i | 0 <= i < |g.members|
      ensures Settled(g, s) ==> dues[i].events == multiset{}
      ensures Complete(g, s) ==> dues[i].errors == multiset{}
    {
      MemberOwes(g.k, g.lo + i, g.members[i], s.threads[i]);
    }
  }

  /** A group of passing steps owes no error, and a failing member always owes one. */
  lemma FailuresOweErrors(g: Group)
    ensures Total(g).errors == multiset{} <==> AllPass(g.members)
  {
    hide Acts, Program, Due;
    var dues := Dues(g, Spawn(g).threads);
    forall i | 0 <= i < |g.members|
      ensures dues[i].errors == multiset{} <==> g.members[i].behaviour.outcome.Pass?
    {
      MemberOwes(g.k, g.lo + i, g.members[i], Thread(0, 0, 0));
    }
    SumIsEmpty(dues);
    assert forall i :: 0 <= i < |dues| ==> dues[i] in dues;
  }

  lemma CompleteErrors(g: Group, s: GroupState)
    requires Balanced(g, s) && Complete(g, s)
    ensures multiset(s.errors) == Total(g).errors
    ensures s.errors == [] <==> AllPass(g.members)
  {
    SettledOwesNothing(g, s);
    FailuresOweErrors(g);
    assert s.errors == [] <==> multiset(s.errors) == multiset{} by {
      if s.errors != [] {
        assert s.errors[0] in multiset(s.errors);
      }
    }
  }

  lemma SettledEvents(g: Group, s: GroupState)
    requires Balanced(g, s) && Settled(g, s)
    ensures multiset(s.trace) == Total(g).events
  {
    SettledOwesNothing(g, s);
  }

  /** A group that has not settled can move, and one that is not complete can move its callers
      or the scanners they wait for: no interleaving gets stuck. */
  lemma UnsettledCanMove(g: Group, s: GroupState) returns (mv: Move)
    requires GroupInv(g, s) && !Settled(g, s)
    ensures CanMove(g, s, mv)
  {
    var i :| 0 <= i < |g.members| &&
      !(s.threads[i].at >= |Program(g.members[i])| && s.threads[i].out >= |g.members[i].behaviour.stdout|
        && s.threads[i].err >= |g.members[i].behaviour.stderr|);
    var m, t := g.members[i], s.threads[i];
    assert MemberInv(g, s, i);
    assert t.out <= |m.behaviour.stdout| && t.err <= |m.behaviour.stderr| by {
      assert t.Progress(Stdout) <= |Acts(m, Stdout)| && t.Progress(Stderr) <= |Acts(m, Stderr)|;
    }
    if Ready(m, t, Caller) {
      mv := Move(i, Caller);
    } else if t.out < |m.behaviour.stdout| {
      mv := Move(i, Stdout);
    } else {
      mv := Move(i, Stderr);
    }
  }

  lemma SettledIsComplete(g: Group, s: GroupState)
    requires GroupInv(g, s) && Settled(g, s)
    ensures Complete(g, s)
  {
    forall i | 0 <= i < |g.members|
      ensures s.threads[i].at == |Program(g.members[i])|
    {
      assert MemberInv(g, s, i);
    }
  }

  /* ---------- a whole interleaving of one group ---------- */

  /** The group after a sequence of moves, or None when one of them is not possible. */
  ghost function Interleave(g: Group, moves: seq<Move>): Option<GroupState> {
    if moves == [] then Some(Spawn(g)) else
      var before := Interleave(g, moves[..|moves| - 1]);
      var mv := moves[|moves| - 1];
      if before.Some? && CanMove(g, before.value, mv) then Some(Moved(g, before.value, mv)) else None
  }

  lemma {:induction false} InterleavingKeeps(g: Group, moves: seq<Move>)
    ensures var s := Interleave(g, moves); s.Some? ==>
      GroupInv(g, s.value) && Balanced(g, s.value) && |moves| + |Owed(g, s.value).events| == |Total(g).events|
  {
    if moves == [] {
      SpawnInv(g);
    } else {
      var front := moves[..|moves| - 1];
      InterleavingKeeps(g, front);
      var before := Interleave(g, front);
      if before.Some? && CanMove(g, before.value, moves[|moves| - 1]) {
        MoveKeepsInv(g, before.value, moves[|moves| - 1]);
        MoveKeepsBalance(g, before.value, moves[|moves| - 1]);
      }
    }
  }

  /** Whatever the interleaving, what the caller and each scanner of a step have done so far comes
      in that thread's own order, and in a settled group it is complete. */
  lemma OwnOrderIsKept(g: Group, moves: seq<Move>, i: nat, which: Which)
    requires Interleave(g, moves).Some? && i < |g.members|
    ensures var s := Interleave(g, moves).value;
      && Pick(ActsOf(s.trace, g.k, g.lo + i), which) <= Acts(g.members[i], which)
      && (Settled(g, s) ==> Pick(ActsOf(s.trace, g.k, g.lo + i), which) == Acts(g.members[i], which))
  {
    hide Acts, Program, Pick, ActsOf, Interleave, MemberInv, Balanced;
    InterleavingKeeps(g, moves);
    var s := Interleave(g, moves).value;
    ThreadOrder(g.members[i], s.threads[i], ActsOf(s.trace, g.k, g.lo + i), which) by {
      MemberIsInShape(g, s, i);
    }
    if Settled(g, s) {
      ThroughIsAll(g.members[i], s.threads[i], which);
    }
  }

  lemma MemberIsInShape(g: Group, s: GroupState, i: nat)
    requires GroupInv(g, s) && i < |g.members|
    ensures Shape(g.members[i], s.threads[i], ActsOf(s.trace, g.k, g.lo + i))
  {
    assert MemberInv(g, s, i);
  }

  lemma ThreadOrder(m: Member, t: Thread, acts: seq<Act>, which: Which)
    requires Shape(m, t, acts)
    ensures Pick(acts, which) <= Acts(m, which)
    ensures t.Progress(which) >= |Acts(m, which)| ==> Pick(acts, which) == Acts(m, which)
  {
    hide Acts, Pick, OrderShape;
    assert Pick(acts, which) == Acts(m, which)[..t.Progress(which)];
  }

  lemma ThroughIsAll(m: Member, t: Thread, which: Which)
    requires t.at >= |Program(m)| && t.out >= |m.behaviour.stdout| && t.err >= |m.behaviour.stderr|
    ensures t.Progress(which) >= |Acts(m, which)|
  {
  }

  /** Confluence: any two interleavings that bring every goroutine of a group to its end collect
      the same errors and leave the same callers' acts in the same order in every step; once the
      scanners have delivered too, they have sent the same messages. */
  lemma Confluence(g: Group, a: seq<Move>, b: seq<Move>)
    requires var s := Interleave(g, a); s.Some? && Complete(g, s.value)
    requires var s := Interleave(g, b); s.Some? && Complete(g, s.value)
    ensures var s, t := Interleave(g, a).value, Interleave(g, b).value;
      && (s.errors == [] <==> t.errors == [])
      && (s.errors == [] <==> AllPass(g.members))
      && multiset(s.errors) == multiset(t.errors)
      && (forall i :: 0 <= i < |g.members| ==>
            Pick(ActsOf(s.trace, g.k, g.lo + i), Caller) == Program(g.members[i])
            && Pick(ActsOf(t.trace, g.k, g.lo + i), Caller) == Program(g.members[i]))
      && (Settled(g, s) && Settled(g, t) ==> multiset(s.trace) == multiset(t.trace))
  {
    InterleavingKeeps(g, a);
    InterleavingKeeps(g, b);
    var s, t := Interleave(g, a).value, Interleave(g, b).value;
    CompleteErrors(g, s);
    CompleteErrors(g, t);
    if Settled(g, s) && Settled(g, t) {
      SettledEvents(g, s);
      SettledEvents(g, t);
    }
    forall i | 0 <= i < |g.members|
      ensures Pick(ActsOf(s.trace, g.k, g.lo + i), Caller) == Program(g.members[i])
      ensures Pick(ActsOf(t.trace, g.k, g.lo + i), Caller) == Program(g.members[i])
    {
      CallerIsThrough(g, s, i);
      CallerIsThrough(g, t, i);
    }
  }

  lemma CallerIsThrough(g: Group, s: GroupState, i: nat)
    requires GroupInv(g, s) && i < |g.members| && s.threads[i].at == |Program(g.members[i])|
    ensures Pick(ActsOf(s.trace, g.k, g.lo + i), Caller) == Program(g.members[i])
  {
    assert MemberInv(g, s, i);
    var acts := ActsOf(s.trace, g.k, g.lo + i);
    assert Pick(acts, Caller) == Acts(g.members[i], Caller)[..s.threads[i].Progress(Caller)];
  }
}
