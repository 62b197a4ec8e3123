/** One group of steps: the goroutines of a parallel run, or the single call of a sequential
    step. Every step has a calling thread, whose acts are fixed by its outcome, and two scanner
    threads that deliver the lines of its command. A move advances one thread by one act, so a
    sequence of moves is one interleaving of the group. */
module StepGroup {
  import opened PipelineScript
  import opened Messages

  /** How one step call ends; the oracle that stands for SSH, subprocesses and the clock. */
  datatype Outcome = Pass | CommandError(text: string) | TimedOut | Cancelled

  /** The lines the two scanners of a command deliver, and how its call ends. */
  datatype Behaviour = Behaviour(stdout: seq<string>, stderr: seq<string>, outcome: Outcome)

  /** The error a step call returns; `RunCancel` is the source's `RunCancelError`. */
  datatype StepError = CommandFailed(text: string) | StepTimedOut | RunCancel

  datatype Act =
    | Say(msg: Msg)
    | Call
    | Return(passed: bool)
    | Collect(error: StepError)
    | OutLine(text: string)
    | ErrLine(text: string)

  datatype Event =
    | Main(k: nat, msg: Msg)            // sent by the executor itself, in stage k
    | OfStep(k: nat, i: nat, act: Act)  // an act of step i of stage k
    | Own(msg: Msg)                     // sent by the worker before or after the script

  /** The texts an event puts on the output channel: one, or none. */
  function TextsOf(e: Event): seq<string> {
    match e
    case Main(_, msg) => [Text(msg)]
    case Own(msg) => [Text(msg)]
    case OfStep(_, _, Say(msg)) => [Text(msg)]
    case OfStep(_, _, OutLine(text)) => [Text(Line(text))]
    case OfStep(_, _, ErrLine(text)) => [Text(Line(text))]
    case _ => []
  }

  function Rendered(trace: seq<Event>): seq<string> {
    if trace == [] then [] else Rendered(trace[..|trace| - 1]) + TextsOf(trace[|trace| - 1])
  }

  lemma RenderedSnoc(trace: seq<Event>, e: Event)
    ensures Rendered(trace + [e]) == Rendered(trace) + TextsOf(e)
  {
    assert (trace + [e])[..|trace|] == trace;
  }

  lemma {:induction false} RenderedConcat(a: seq<Event>, b: seq<Event>)
    ensures Rendered(a + b) == Rendered(a) + Rendered(b)
  {
    hide TextsOf;
    if b == [] {
      assert a + b == a;
    } else {
      var n := |b| - 1;
      RenderedConcat(a, b[..n]);
      hide Rendered;
      RenderedSnoc(a + b[..n], b[n]);
      RenderedSnoc(b[..n], b[n]);
      assert a + b == a + b[..n] + [b[n]] && b == b[..n] + [b[n]];
    }
  }

  datatype Member = Member(step: Step, behaviour: Behaviour)

  /** Steps lo .. lo + |members| of stage k. */
  datatype Group = Group(k: nat, lo: nat, members: seq<Member>, parallel: bool)

  /** The calling thread of a step and the two scanners of its command's output. */
  datatype Which = Caller | Stdout | Stderr

  /** How many acts each of the three has done. */
  datatype Thread = Thread(at: nat, out: nat, err: nat) {
    function Progress(which: Which): nat {
      match which
      case Caller => at
      case Stdout => out
      case Stderr => err
    }
  }

  datatype GroupState = GroupState(threads: seq<Thread>, errors: seq<StepError>, trace: seq<Event>)

  datatype Move = Move(i: nat, which: Which)

  /** The error of an outcome that is not `Pass`. */
  function ErrorOf(outcome: Outcome): StepError {
    match outcome
    case CommandError(text) => CommandFailed(text)
    case TimedOut => StepTimedOut
    case _ => RunCancel
  }

  /** The acts of a calling thread, in order. */
  function Program(m: Member): (p: seq<Act>)
    ensures 4 <= |p| <= 5 && p[0] == Say(StepStarted(m.step.step)) && p[1] == Call
    ensures forall a <- p :: KindOf(a) == Caller
  {
    [Say(StepStarted(m.step.step)), Call] +
    match m.behaviour.outcome
    case Pass => [Return(true), Say(StepPassed(m.step.step))]
    case CommandError(_) => [Return(false), Collect(ErrorOf(m.behaviour.outcome))]
    case TimedOut =>
      [Say(TimeoutNotice(m.step.timeoutSeconds, m.step.script)), Return(false), Collect(StepTimedOut)]
    case Cancelled => [Say(CancelNotice), Return(false), Collect(RunCancel)]
  }

  function KindOf(a: Act): Which {
    if a.OutLine? then Stdout else if a.ErrLine? then Stderr else Caller
  }

  /** Everything one of the three threads of a step does, in order. */
  function Acts(m: Member, which: Which): (acts: seq<Act>)
    ensures forall a <- acts :: KindOf(a) == which
  {
    match which
    case Caller => Program(m)
    case Stdout => seq(|m.behaviour.stdout|, j requires 0 <= j < |m.behaviour.stdout| => OutLine(m.behaviour.stdout[j]))
    case Stderr => seq(|m.behaviour.stderr|, j requires 0 <= j < |m.behaviour.stderr| => ErrLine(m.behaviour.stderr[j]))
  }

  predicate Drained(m: Member, t: Thread) {
    t.out == |m.behaviour.stdout| && t.err == |m.behaviour.stderr|
  }

  /** The command runs once the call has been made; a call returns nil only after both
      scanners are through, while any other return waits for nothing. */
  predicate Ready(m: Member, t: Thread, which: Which) {
    && t.Progress(which) < |Acts(m, which)|
    && (which != Caller ==> t.at >= 2)
    && (which == Caller && Program(m)[t.at] == Return(true) ==> Drained(m, t))
  }

  function ActOf(m: Member, t: Thread, which: Which): Act
    requires Ready(m, t, which)
  {
    Acts(m, which)[t.Progress(which)]
  }

  function Advance(t: Thread, which: Which): Thread {
    match which
    case Caller => t.(at := t.at + 1)
    case Stdout => t.(out := t.out + 1)
    case Stderr => t.(err := t.err + 1)
  }

  function Spawn(g: Group): GroupState {
    GroupState(seq(|g.members|, _ => Thread(0, 0, 0)), [], [])
  }

  predicate CanMove(g: Group, s: GroupState, mv: Move) {
    mv.i < |g.members| && mv.i < |s.threads| && Ready(g.members[mv.i], s.threads[mv.i], mv.which)
  }

  function EventOf(g: Group, s: GroupState, mv: Move): Event
    requires CanMove(g, s, mv)
  {
    OfStep(g.k, g.lo + mv.i, ActOf(g.members[mv.i], s.threads[mv.i], mv.which))
  }

  function Moved(g: Group, s: GroupState, mv: Move): GroupState
    requires CanMove(g, s, mv)
  {
    var e := EventOf(g, s, mv);
    GroupState(s.threads[mv.i := Advance(s.threads[mv.i], mv.which)],
               s.errors + (if e.act.Collect? then [e.act.error] else []),
               s.trace + [e])
  }

  predicate Complete(g: Group, s: GroupState) {
    |s.threads| == |g.members| &&
    forall i :: 0 <= i < |g.members| ==> s.threads[i].at == |Program(g.members[i])|
  }

  predicate AllPass(members: seq<Member>) {
    forall m <- members :: m.behaviour.outcome.Pass?
  }

  /* ---------- projections of a trace ---------- */

  /** The acts of one step, in the order of the trace. */
  function ActsOf(trace: seq<Event>, k: nat, i: nat): seq<Act> {
    if trace == [] then [] else
      var e := trace[|trace| - 1];
      ActsOf(trace[..|trace| - 1], k, i) + if e.OfStep? && e.k == k && e.i == i then [e.act] else []
  }

  /** The acts of one kind, in order. */
  function Pick(acts: seq<Act>, which: Which): seq<Act> {
    if acts == [] then [] else
      var a := acts[|acts| - 1];
      Pick(acts[..|acts| - 1], which) + if KindOf(a) == which then [a] else []
  }

  lemma PickSnoc(acts: seq<Act>, a: Act, which: Which)
    ensures Pick(acts + [a], which) == Pick(acts, which) + if KindOf(a) == which then [a] else []
  {
    assert (acts + [a])[..|acts|] == acts;
  }

  lemma {:induction false} PickConcat(a: seq<Act>, b: seq<Act>, which: Which)
    ensures Pick(a + b, which) == Pick(a, which) + Pick(b, which)
  {
    if b == [] {
      assert a + b == a;
    } else {
      var n := |b| - 1;
      PickConcat(a, b[..n], which);
      assert (a + b)[..|a + b| - 1] == a + b[..n];
    }
  }

  lemma {:induction false} PickAll(acts: seq<Act>, kind: Which, which: Which)
    requires forall a <- acts :: KindOf(a) == kind
    ensures Pick(acts, which) == if kind == which then acts else []
  {
    if acts != [] {
      PickAll(acts[..|acts| - 1], kind, which);
    }
  }

  lemma ActsOfSnoc(trace: seq<Event>, e: Event, k: nat, i: nat)
    ensures ActsOf(trace + [e], k, i)
         == ActsOf(trace, k, i) + if e.OfStep? && e.k == k && e.i == i then [e.act] else []
  {
    assert (trace + [e])[..|trace|] == trace;
  }

  lemma {:induction false} ActIsInTrace(trace: seq<Event>, k: nat, i: nat, a: Act)
    requires a in ActsOf(trace, k, i)
    ensures OfStep(k, i, a) in trace
  {
    var e := trace[|trace| - 1];
    if !(e.OfStep? && e.k == k && e.i == i && e.act == a) {
      ActIsInTrace(trace[..|trace| - 1], k, i, a);
    }
  }

  /* ---------- what every interleaving keeps ---------- */

  /** Each of the three threads of a step has done the first acts of its program. */
  ghost predicate ThreadShape(m: Member, t: Thread, acts: seq<Act>) {
    forall which :: t.Progress(which) <= |Acts(m, which)|
                 && Pick(acts, which) == Acts(m, which)[..t.Progress(which)]
  }

  /** No line precedes the call, and none follows a call's return when it passed. */
  ghost predicate OrderShape(m: Member, t: Thread, acts: seq<Act>) {
    var p := Program(m);
    && t.at <= |p|
    && (t.at < 2 ==> acts == p[..t.at])
    && (t.at >= 2 ==> |acts| >= 2 && acts[..2] == p[..2])
    && (m.behaviour.outcome.Pass? && t.at > 2 ==>
          Drained(m, t) && |acts| >= t.at && acts[|acts| - (t.at - 2)..] == p[2..t.at])
  }

  ghost predicate Shape(m: Member, t: Thread, acts: seq<Act>) {
    ThreadShape(m, t, acts) && OrderShape(m, t, acts)
  }

  ghost predicate FromGroup(g: Group, e: Event) {
    e.OfStep? && e.k == g.k && g.lo <= e.i < g.lo + |g.members|
  }

  ghost predicate MemberInv(g: Group, s: GroupState, i: nat)
    requires i < |s.threads| == |g.members|
  {
    Shape(g.members[i], s.threads[i], ActsOf(s.trace, g.k, g.lo + i))
  }

  ghost predicate GroupInv(g: Group, s: GroupState) {
    && |s.threads| == |g.members|
    && (forall i :: 0 <= i < |g.members| ==> MemberInv(g, s, i))
    && (forall e <- s.trace :: FromGroup(g, e))
  }

  lemma ThreadShapeKept(m: Member, t: Thread, which: Which, acts: seq<Act>)
    requires ThreadShape(m, t, acts) && Ready(m, t, which)
    ensures ThreadShape(m, Advance(t, which), acts + [ActOf(m, t, which)])
  {
    hide Acts, Program, Pick;
    var a, t' := ActOf(m, t, which), Advance(t, which);
    forall w
      ensures t'.Progress(w) <= |Acts(m, w)| && Pick(acts + [a], w) == Acts(m, w)[..t'.Progress(w)]
    {
      PickSnoc(acts, a, w);
      assert t.Progress(w) <= |Acts(m, w)|;
      if w == which {
        assert Acts(m, w)[..t.Progress(w)] + [a] == Acts(m, w)[..t'.Progress(w)];
      } else {
        assert Pick(acts, w) + [] == Pick(acts, w);
      }
    }
  }

  lemma PassProgram(m: Member)
    requires m.behaviour.outcome.Pass?
    ensures Program(m) == [Say(StepStarted(m.step.step)), Call, Return(true), Say(StepPassed(m.step.step))]
  {
  }

  lemma OrderShapeKept(m: Member, t: Thread, which: Which, acts: seq<Act>)
    requires OrderShape(m, t, acts) && Ready(m, t, which)
    ensures OrderShape(m, Advance(t, which), acts + [ActOf(m, t, which)])
  {
    hide Program;
    var p, a := Program(m), ActOf(m, t, which);
    var acts' := acts + [a];
    if m.behaviour.outcome.Pass? {
      PassProgram(m);
    }
    if t.at < 2 {
      assert acts' == p[..t.at] + [p[t.at]] == p[..t.at + 1];
    } else {
      assert acts'[..2] == acts[..2];
      if m.behaviour.outcome.Pass? && which == Caller {
        assert p[2..t.at + 1] == p[2..t.at] + [a];
        assert acts'[|acts'| - (t.at - 1)..] == acts[|acts| - (t.at - 2)..] + [a];
      }
    }
  }

  lemma SpawnInv(g: Group)
    ensures GroupInv(g, Spawn(g))
  {
  }

  lemma ShapeKept(m: Member, t: Thread, which: Which, acts: seq<Act>)
    requires Shape(m, t, acts) && Ready(m, t, which)
    ensures Shape(m, Advance(t, which), acts + [ActOf(m, t, which)])
  {
    ThreadShapeKept(m, t, which, acts);
    OrderShapeKept(m, t, which, acts);
  }

  lemma MemberKept(g: Group, s: GroupState, mv: Move, i: nat)
    requires |s.threads| == |g.members| && i < |g.members|
    requires MemberInv(g, s, i) && CanMove(g, s, mv)
    ensures MemberInv(g, Moved(g, s, mv), i)
  {
    hide Program, Acts, Shape, ActOf, Ready;
    ActsOfSnoc(s.trace, EventOf(g, s, mv), g.k, g.lo + i);
    if i == mv.i {
      ShapeKept(g.members[i], s.threads[i], mv.which, ActsOf(s.trace, g.k, g.lo + i));
    } else {
      assert ActsOf(s.trace, g.k, g.lo + i) + [] == ActsOf(s.trace, g.k, g.lo + i);
    }
  }

  lemma MoveKeepsInv(g: Group, s: GroupState, mv: Move)
    requires GroupInv(g, s) && CanMove(g, s, mv)
    ensures GroupInv(g, Moved(g, s, mv))
  {
    forall i | 0 <= i < |g.members|
      ensures MemberInv(g, Moved(g, s, mv), i)
    {
      MemberKept(g, s, mv, i);
    }
  }

  /** The acts of a step that passed: announced, called, then a merge of its scanned stdout and
      stderr lines (each in order), then the return and the PASSED message. */
  ghost predicate PassShape(m: Member, acts: seq<Act>) {
    exists lines: seq<Act> :: IsPassedCall(m, acts, lines)
  }

  ghost predicate IsPassedCall(m: Member, acts: seq<Act>, lines: seq<Act>) {
    && acts == [Say(StepStarted(m.step.step)), Call] + lines + [Return(true), Say(StepPassed(m.step.step))]
    && Pick(lines, Caller) == []
    && Pick(lines, Stdout) == Acts(m, Stdout)
    && Pick(lines, Stderr) == Acts(m, Stderr)
  }

  lemma CompletePassShape(m: Member, t: Thread, acts: seq<Act>)
    requires Shape(m, t, acts)
    requires t.at == |Program(m)| && m.behaviour.outcome.Pass?
    ensures PassShape(m, acts) && Drained(m, t)
  {
    hide Program, Pick;
    var p := Program(m);
    PassProgram(m);
    var lines := acts[2..|acts| - 2];
    assert acts == p[..2] + lines + p[2..];
    forall w
      ensures Pick(acts, w) == (if w == Caller then p[..2] else []) + Pick(lines, w)
                            + (if w == Caller then p[2..] else [])
    {
      PickConcat(p[..2] + lines, p[2..], w);
      PickConcat(p[..2], lines, w);
      PickAll(p[..2], Caller, w);
      PickAll(p[2..], Caller, w);
    }
    assert |Pick(acts, Caller)| == t.Progress(Caller);
    assert Pick(acts, Stdout) == Acts(m, Stdout)[..t.Progress(Stdout)];
    assert Pick(acts, Stderr) == Acts(m, Stderr)[..t.Progress(Stderr)];
    assert IsPassedCall(m, acts, lines);
  }
}
