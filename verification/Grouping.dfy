/** The partition of a stage's steps that the `si`/`sii` loops carry out. */
module Grouping {
  import opened PipelineScript

  datatype Span = Span(lo: nat, hi: nat)

  /** Where the run of parallel steps that reaches `start` ends: the value `sii` stops at. */
  function ParallelEnd(steps: seq<Step>, start: nat): (end: nat)
    requires start <= |steps|
    ensures start <= end <= |steps|
    ensures forall i :: start <= i < end ==> steps[i].parallel
    ensures end < |steps| ==> !steps[end].parallel
    decreases |steps| - start
  {
    if start < |steps| && steps[start].parallel then ParallelEnd(steps, start + 1) else start
  }

  function SpanEnd(steps: seq<Step>, lo: nat): (hi: nat)
    requires lo < |steps|
    ensures lo < hi <= |steps|
  {
    if steps[lo].parallel then ParallelEnd(steps, lo + 1) else lo + 1
  }

  /** A group starts at lo: there is no parallel run reaching over it. */
  predicate StartsGroup(steps: seq<Step>, lo: nat) {
    lo < |steps| && (lo == 0 || !steps[lo - 1].parallel || !steps[lo].parallel)
  }

  function Spans(steps: seq<Step>, lo: nat): seq<Span>
    requires lo <= |steps|
    decreases |steps| - lo
  {
    if lo == |steps| then [] else
      var hi := SpanEnd(steps, lo);
      [Span(lo, hi)] + Spans(steps, hi)
  }

  /** Consecutive non-empty spans that cover the steps from lo on. */
  ghost predicate Tiles(steps: seq<Step>, lo: nat, spans: seq<Span>)
    requires lo <= |steps|
  {
    && (spans == [] <==> lo == |steps|)
    && (spans != [] ==> spans[0].lo == lo && spans[|spans| - 1].hi == |steps|)
    && (forall j :: 0 <= j < |spans| ==> spans[j].lo < spans[j].hi <= |steps|)
    && (forall j :: 0 < j < |spans| ==> spans[j].lo == spans[j - 1].hi)
  }

  /** A span of several steps holds parallel steps only. */
  ghost predicate Uniform(steps: seq<Step>, spans: seq<Span>)
    requires forall j :: 0 <= j < |spans| ==> spans[j].lo < spans[j].hi <= |steps|
  {
    forall j, i :: 0 <= j < |spans| && spans[j].lo <= i < spans[j].hi && spans[j].hi - spans[j].lo > 1
      ==> steps[i].parallel
  }

  /** A parallel span is never followed by another one. */
  ghost predicate Maximal(steps: seq<Step>, spans: seq<Span>)
    requires forall j :: 0 <= j < |spans| ==> spans[j].lo < spans[j].hi <= |steps|
  {
    forall j :: 0 < j < |spans| ==> !(steps[spans[j - 1].lo].parallel && steps[spans[j].lo].parallel)
  }

  /** The grouping the loops are meant to produce, said without them. */
  ghost predicate IsGrouping(steps: seq<Step>, lo: nat, spans: seq<Span>)
    requires lo <= |steps|
  {
    Tiles(steps, lo, spans) && Uniform(steps, spans) && Maximal(steps, spans)
  }

  lemma TilesCons(steps: seq<Step>, lo: nat, hi: nat, rest: seq<Span>)
    requires lo < hi <= |steps| && Tiles(steps, hi, rest)
    ensures Tiles(steps, lo, [Span(lo, hi)] + rest)
  {
    var spans := [Span(lo, hi)] + rest;
    assert rest != [] ==> spans[|spans| - 1] == rest[|rest| - 1] && rest[0].lo == hi;
    forall j | 0 < j < |spans|
      ensures spans[j] == rest[j - 1] && spans[j].lo == spans[j - 1].hi
    {
      assert j > 1 ==> spans[j - 1] == rest[j - 2];
    }
  }

  lemma GroupingCons(steps: seq<Step>, lo: nat, rest: seq<Span>)
    requires lo < |steps| && IsGrouping(steps, SpanEnd(steps, lo), rest)
    ensures IsGrouping(steps, lo, [Span(lo, SpanEnd(steps, lo))] + rest)
  {
    var hi := SpanEnd(steps, lo);
    var spans := [Span(lo, hi)] + rest;
    TilesCons(steps, lo, hi, rest);
    forall j | 0 < j < |spans|
      ensures !(steps[spans[j - 1].lo].parallel && steps[spans[j].lo].parallel)
    {
      assert j > 1 ==> spans[j - 1] == rest[j - 2] && spans[j] == rest[j - 1];
    }
    assert Uniform(steps, spans) by {
      assert forall j :: 0 < j < |spans| ==> spans[j] == rest[j - 1];
    }
  }

  lemma {:induction false} SpansAreAGrouping(steps: seq<Step>, lo: nat)
    requires lo <= |steps|
    ensures IsGrouping(steps, lo, Spans(steps, lo))
    decreases |steps| - lo
  {
    hide IsGrouping;
    if lo < |steps| {
      SpansAreAGrouping(steps, SpanEnd(steps, lo));
      GroupingCons(steps, lo, Spans(steps, SpanEnd(steps, lo)));
    } else {
      NoSpans(steps);
    }
  }

  lemma NoSpans(steps: seq<Step>)
    ensures IsGrouping(steps, |steps|, [])
  {
  }

  /** There is only one such grouping, so the loops have no freedom. */
  lemma {:induction false} GroupingIsUnique(steps: seq<Step>, lo: nat, spans: seq<Span>)
    requires lo <= |steps|
    requires IsGrouping(steps, lo, spans)
    ensures spans == Spans(steps, lo)
    decreases |steps| - lo
  {
    if lo < |steps| {
      var first, rest := spans[0], spans[1..];
      assert forall j :: 0 <= j < |rest| ==> rest[j] == spans[j + 1];
      var hi := SpanEnd(steps, lo);
      assert first.hi == hi by {
        if rest == [] {
          assert first.hi == |steps|;
        } else {
          assert spans[1].lo == first.hi;
        }
      }
      assert IsGrouping(steps, hi, rest);
      GroupingIsUnique(steps, hi, rest);
      assert spans == [first] + rest;
    }
  }

  lemma GroupingExactly(steps: seq<Step>, spans: seq<Span>)
    ensures IsGrouping(steps, 0, spans) <==> spans == Spans(steps, 0)
  {
    SpansAreAGrouping(steps, 0);
    if IsGrouping(steps, 0, spans) {
      GroupingIsUnique(steps, 0, spans);
    }
  }
}
