/** Events of every kind, also those whose reconnection time or comment holds line breaks: a stream
    of them is read back exactly when each of its events is read back alone. */
module EventSurvival {
  import opened Wrappers
  import opened EventStream
  import opened EventMarshal

  predicate EndsLine(s: string) {
    s != "" && s[|s| - 1] == LF
  }

  lemma {:induction false} LineEndExtends(s: string, rest: string)
    requires EndsLine(s)
    ensures LineEnd(s).Some? && LineEnd(s + rest) == LineEnd(s)
  {
    if s[0] != LF && s[0] != CR {
      assert (s + rest)[1..] == s[1..] + rest;
      LineEndExtends(s[1..], rest);
    }
  }

  /** A client reads one text after the other when the first one ends with a line feed. */
  lemma {:induction false} LinesConcat(c: Client, s: string, rest: string)
    requires s == "" || EndsLine(s)
    ensures Lines(c, s + rest) == Lines(Lines(c, s), rest)
    decreases |s|
  {
    if s == "" {
      assert s + rest == rest;
    } else {
      hide LineEnd, Line;
      LineEndExtends(s, rest);
      var e := LineEnd(s).value;
      assert (s + rest)[..e.0] == s[..e.0] && (s + rest)[e.1..] == s[e.1..] + rest;
      LinesConcat(Line(c, s[..e.0]), s[e.1..], rest);
    }
  }

  /* ---------- what the messages of a text depend on ---------- */

  function Quieted(c: Client): Client {
    c.(dispatched := [])
  }

  /** The messages a client dispatches while it reads a text. */
  function Output(c: Client, s: string): seq<Message> {
    Lines(Quieted(c), s).dispatched
  }

  lemma LineAppends(c: Client, line: string)
    ensures Line(c, line) == Line(Quieted(c), line).(dispatched := c.dispatched + Line(Quieted(c), line).dispatched)
  {
  }

  lemma Requieted(c: Client, before: seq<Message>)
    ensures Quieted(c.(dispatched := before)) == Quieted(c)
  {
  }

  lemma {:induction false} LinesAppend(c: Client, s: string)
    ensures Lines(c, s) == Lines(Quieted(c), s).(dispatched := c.dispatched + Output(c, s))
    decreases |s|
  {
    hide Line, LineEnd;
    var e := LineEnd(s);
    if e.Some? {
      var line, rest := s[..e.value.0], s[e.value.1..];
      LineAppends(c, line);
      var d := Line(Quieted(c), line);
      Requieted(d, c.dispatched + d.dispatched);
      LinesAppend(Line(c, line), rest);
      LinesAppend(d, rest);
      assert c.dispatched + d.dispatched + Output(d, rest) == c.dispatched + (d.dispatched + Output(d, rest));
    }
  }

  /** How many messages there are depends on the data at hand alone. */
  predicate SameCount(c: Client, d: Client) {
    c.data == d.data && |c.dispatched| == |d.dispatched|
  }

  lemma LineKeepsCount(c: Client, d: Client, line: string)
    requires SameCount(c, d)
    ensures SameCount(Line(c, line), Line(d, line))
  {
  }

  lemma {:induction false} LinesKeepCount(c: Client, d: Client, s: string)
    requires SameCount(c, d)
    ensures SameCount(Lines(c, s), Lines(d, s))
    decreases |s|
  {
    hide Line, LineEnd, SameCount;
    var e := LineEnd(s);
    if e.Some? {
      LineKeepsCount(c, d, s[..e.value.0]);
      LinesKeepCount(Line(c, s[..e.value.0]), Line(d, s[..e.value.0]), s[e.value.1..]);
    }
  }

  /** What the messages are depends on everything but the reconnection time. */
  predicate Agree(c: Client, d: Client) {
    c.(retry := None) == d.(retry := None)
  }

  lemma LineKeepsAgreement(c: Client, d: Client, line: string)
    requires Agree(c, d)
    ensures Agree(Line(c, line), Line(d, line))
  {
  }

  lemma {:induction false} LinesKeepAgreement(c: Client, d: Client, s: string)
    requires Agree(c, d)
    ensures Agree(Lines(c, s), Lines(d, s))
    decreases |s|
  {
    hide Line, LineEnd, Agree;
    var e := LineEnd(s);
    if e.Some? {
      LineKeepsAgreement(c, d, s[..e.value.0]);
      LinesKeepAgreement(Line(c, s[..e.value.0]), Line(d, s[..e.value.0]), s[e.value.1..]);
    }
  }

  /** Data that has been received is dispatched some time. */
  predicate Busy(c: Client) {
    c.data != "" || c.dispatched != []
  }

  lemma LineKeepsBusy(c: Client, line: string)
    requires Busy(c)
    ensures Busy(Line(c, line))
  {
  }

  lemma {:induction false} LinesKeepBusy(c: Client, s: string)
    requires Busy(c)
    ensures Busy(Lines(c, s))
    decreases |s|
  {
    hide Line, LineEnd, Busy;
    var e := LineEnd(s);
    if e.Some? {
      LineKeepsBusy(c, s[..e.value.0]);
      LinesKeepBusy(Line(c, s[..e.value.0]), s[e.value.1..]);
    }
  }

  /* ---------- one event ---------- */

  lemma {:induction false} UnlinesEndsLine(lines: seq<string>)
    requires lines != []
    ensures EndsLine(Unlines(lines))
    decreases |lines|
  {
    if |lines| > 1 {
      UnlinesEndsLine(lines[1..]);
    }
  }

  lemma MarshalParts(ev: Event)
    requires Marshal(ev) != ""
    ensures exists front :: EndsLine(front) && Marshal(ev) == front + [LF]
  {
    var lines := PrintedLines(ev);
    var n := |lines| - 1;
    assert n > 0 && lines[n] == "";
    UnlinesSnoc(lines[..n], "");
    UnlinesEndsLine(lines[..n]);
    assert lines[..n] + [""] == lines;
    assert Unlines(lines[..n]) + "" + [LF] == Unlines(lines[..n]) + [LF];
  }

  lemma MarshalEndsLine(ev: Event)
    ensures Marshal(ev) == "" || EndsLine(Marshal(ev))
  {
    if Marshal(ev) != "" {
      MarshalParts(ev);
    }
  }

  /** Every event leaves its readers between events. */
  lemma EventsAreApart(c: Client, ev: Event)
    requires BetweenEvents(c)
    ensures BetweenEvents(Lines(c, Marshal(ev)))
  {
    if Marshal(ev) != "" {
      MarshalParts(ev);
      var front :| EndsLine(front) && Marshal(ev) == front + [LF];
      LinesConcat(c, front, [LF]);
      BlankLine(Lines(c, front));
    }
  }

  lemma BlankLine(c: Client)
    ensures Lines(c, [LF]) == Dispatch(c)
  {
    assert [LF][1..] == "";
  }

  /** The client after the id and data lines of an event. */
  function WithData(c: Client, ev: Event): Client {
    Client(ev.data + [LF], "", ev.id, c.dispatched, c.retry)
  }

  lemma ReadData(c: Client, ev: Event) returns (rest: string)
    requires BetweenEvents(c) && Carried(ev) && ev.data != ""
    ensures Lines(c, Marshal(ev)) == Lines(WithData(c, ev), rest)
    ensures rest == Unlines(KindLines(ev) + LastLines(ev))
  {
    hide Prefixed, Split, Unlines, Lines, Feed;
    DataLinesArePlain(ev.data);
    assert Plain(FieldText("id", ev.id));
    rest := Unlines(KindLines(ev) + LastLines(ev));
    assert PrintedLines(ev) == DataLines(ev) + (KindLines(ev) + LastLines(ev));
    UnlinesConcat(DataLines(ev), KindLines(ev) + LastLines(ev));
    ReadLines(c, DataLines(ev), rest);
    FeedDataLines(c, ev);
  }

  /** An event without data and comment is no text at all; one without data may hold only what its
      comment smuggles in, one with data yields at least one message. */
  lemma AtLeastExpected(c: Client, ev: Event)
    requires BetweenEvents(c) && Carried(ev)
    ensures |Output(c, Marshal(ev))| >= |Expected([ev])|
  {
    if ev.data != "" {
      hide Lines, Marshal;
      var rest := ReadData(Quieted(c), ev);
      LinesKeepBusy(WithData(Quieted(c), ev), rest);
      EventsAreApart(Quieted(c), ev);
    }
    ExpectedOne(ev);
  }

  lemma ExpectedOne(ev: Event)
    ensures Expected([ev]) == if ev.data != "" then [MessageOf(ev)] else []
  {
    assert [ev][1..] == [];
  }

  lemma SameOutput(c: Client, d: Client, ev: Event)
    requires BetweenEvents(c) && BetweenEvents(d) && Carried(ev)
    ensures |Output(c, Marshal(ev))| == |Output(d, Marshal(ev))|
    ensures ev.data != "" ==> Output(c, Marshal(ev)) == Output(d, Marshal(ev))
  {
    hide Lines, Marshal;
    LinesKeepCount(Quieted(c), Quieted(d), Marshal(ev));
    if ev.data != "" {
      var rest := ReadData(Quieted(c), ev);
      rest := ReadData(Quieted(d), ev);
      LinesKeepAgreement(WithData(Quieted(c), ev), WithData(Quieted(d), ev), rest);
    }
  }

  /* ---------- what a text does to the data it meets ---------- */

  /** The field a line sets, and its value; a comment or a blank line sets none. */
  function FieldName(line: string): string {
    line[..IndexOf(line, ':')]
  }

  function FieldValue(line: string): string {
    var i := IndexOf(line, ':');
    if i < |line| then DropSpace(line[i + 1..]) else ""
  }

  /** Some line of the text is a data field. */
  predicate HasData(s: string)
    decreases |s|
  {
    var e := LineEnd(s);
    e.Some? && (FieldName(s[..e.value.0]) == "data" || HasData(s[e.value.1..]))
  }

  /** The type after the lines of a text before its first blank one. */
  function KindAfter(s: string, kind: string): string
    decreases |s|
  {
    var e := LineEnd(s);
    if e.None? || e.value.0 == 0 then kind else
      var line := s[..e.value.0];
      KindAfter(s[e.value.1..], if FieldName(line) == "event" then FieldValue(line) else kind)
  }

  /** The last event id after those lines. */
  function IdAfter(s: string, id: string): string
    decreases |s|
  {
    var e := LineEnd(s);
    if e.None? || e.value.0 == 0 then id else
      var line := s[..e.value.0];
      IdAfter(s[e.value.1..], if FieldName(line) == "id" && NUL !in FieldValue(line) then FieldValue(line) else id)
  }

  predicate HasBlank(s: string)
    decreases |s|
  {
    var e := LineEnd(s);
    e.Some? && (e.value.0 == 0 || HasBlank(s[e.value.1..]))
  }

  /** The characters of data a client holds or has dispatched, line ends included. */
  function Weight(c: Client): nat {
    |c.data| + Dispatched(c.dispatched)
  }

  function Dispatched(messages: seq<Message>): nat {
    if messages == [] then 0 else Dispatched(messages[..|messages| - 1]) + |messages[|messages| - 1].data| + 1
  }

  predicate WholeLines(c: Client) {
    c.data == "" || EndsLine(c.data)
  }

  lemma DispatchKeepsWeight(c: Client)
    requires WholeLines(c)
    ensures Weight(Dispatch(c)) == Weight(c) && WholeLines(Dispatch(c))
  {
    var d := Dispatch(c);
    if c.data != "" {
      assert d.dispatched[..|c.dispatched|] == c.dispatched;
    }
  }

  lemma LineByName(c: Client, line: string)
    requires line != ""
    ensures Line(c, line) == if FieldName(line) == "" then c else Field(c, FieldName(line), FieldValue(line))
  {
    var i := IndexOf(line, ':');
    if i == |line| {
      assert line[..i] == line;
    }
  }

  lemma LineWeighs(c: Client, line: string)
    requires WholeLines(c)
    ensures WholeLines(Line(c, line)) && Weight(Line(c, line)) >= Weight(c)
    ensures Weight(Line(c, line)) > Weight(c) <==> FieldName(line) == "data"
  {
    if line == "" {
      hide Weight, WholeLines;
      DispatchKeepsWeight(c);
    } else {
      LineByName(c, line);
    }
  }

  lemma {:induction false} LinesWeigh(c: Client, s: string)
    requires WholeLines(c)
    ensures WholeLines(Lines(c, s)) && Weight(Lines(c, s)) >= Weight(c)
    ensures Weight(Lines(c, s)) > Weight(c) <==> HasData(s)
    decreases |s|
  {
    hide Line, LineEnd, Weight, WholeLines, FieldName;
    var e := LineEnd(s);
    if e.Some? {
      LineWeighs(c, s[..e.value.0]);
      LinesWeigh(Line(c, s[..e.value.0]), s[e.value.1..]);
    }
  }

  function KindOrMessage(kind: string): string {
    if kind == "" then "message" else kind
  }

  lemma IdleLine(c: Client, line: string)
    requires c.data == "" && FieldName(line) != "data"
    ensures Line(c, line).data == "" && Line(c, line).dispatched == c.dispatched
  {
    if line != "" {
      LineByName(c, line);
    }
  }

  lemma {:induction false} IdleLines(c: Client, s: string)
    requires c.data == "" && !HasData(s)
    ensures Lines(c, s).dispatched == c.dispatched
    decreases |s|
  {
    hide Line, LineEnd, FieldName;
    var e := LineEnd(s);
    if e.Some? {
      IdleLine(c, s[..e.value.0]);
      IdleLines(Line(c, s[..e.value.0]), s[e.value.1..]);
    }
  }

  lemma OtherLine(c: Client, line: string)
    requires line != "" && FieldName(line) != "data"
    ensures var d := Line(c, line);
      && d.data == c.data && d.dispatched == c.dispatched
      && d.kind == (if FieldName(line) == "event" then FieldValue(line) else c.kind)
      && d.lastId == (if FieldName(line) == "id" && NUL !in FieldValue(line) then FieldValue(line) else c.lastId)
  {
    LineByName(c, line);
  }

  /** A client that holds data and reads a text without any dispatches what it holds at the first
      blank line, and nothing more. */
  lemma {:induction false} OneMessage(c: Client, s: string, data: string)
    requires c.data == data + [LF] && c.dispatched == [] && HasBlank(s) && !HasData(s)
    ensures Lines(c, s).dispatched
         == [Message(KindOrMessage(KindAfter(s, c.kind)), data, IdAfter(s, c.lastId))]
    decreases |s|
  {
    hide Line, LineEnd, FieldName, FieldValue;
    var e := LineEnd(s).value;
    var line, rest := s[..e.0], s[e.1..];
    if e.0 == 0 {
      FirstBlank(c, data);
      assert line == "";
      IdleLines(Line(c, ""), rest);
    } else {
      OtherLine(c, line);
      OneMessage(Line(c, line), rest, data);
    }
  }

  lemma FirstBlank(c: Client, data: string)
    requires c.data == data + [LF] && c.dispatched == []
    ensures var d := Line(c, "");
      d.data == "" && d.dispatched == [Message(KindOrMessage(c.kind), data, c.lastId)]
  {
  }

  /* ---------- when one event survives ---------- */

  /** The lines of an event behind its data and its type, which its reconnection time and comment may
      have filled with lines of their own. */
  function Trailing(ev: Event): string {
    Unlines((if ev.data != "" && ev.retry != "" then [FieldText("retry", ev.retry)] else []) + LastLines(ev))
  }

  /** No line behind the data is a data field, and those before the first blank one leave the type and
      the id of the event as they were. */
  predicate Harmless(ev: Event) {
    if ev.data == "" then ev.comment == "" || !HasData(Trailing(ev))
    else
      && Carried(ev) && !HasData(Trailing(ev))
      && KindOrMessage(KindAfter(Trailing(ev), ev.event)) == KindOrMessage(ev.event)
      && IdAfter(Trailing(ev), ev.id) == ev.id
  }

  /** Read alone, the event is dispatched as it should be. */
  predicate Survives(ev: Event) {
    Parse(Marshal(ev)).dispatched == Expected([ev])
  }

  lemma ReadAlone(ev: Event)
    ensures Parse(Marshal(ev)).dispatched == Output(CONNECTED, Marshal(ev))
    ensures Survives(ev) ==> Carried(ev)
  {
    hide Lines, Marshal;
    assert MarshalAll([ev]) == Marshal(ev) by { MarshalOne(ev); }
    NoByteOrderMark([ev]);
    if Survives(ev) {
      StreamRoundTrip([ev]);
      assert ev in [ev];
    }
  }

  lemma MarshalOne(ev: Event)
    ensures MarshalAll([ev]) == Marshal(ev)
  {
    hide Marshal;
    assert [ev][1..] == [];
    assert MarshalAll([]) == "";
  }

  lemma NothingDispatched(c: Client)
    requires BetweenEvents(c)
    ensures Weight(c) == 0 <==> c.dispatched == []
  {
  }

  /** An event without data survives iff its comment smuggles none in. */
  lemma CommentSurvives(ev: Event)
    requires ev.data == ""
    ensures Survives(ev) <==> Harmless(ev)
  {
    hide Lines, Unlines, HasData, Weight;
    ReadAlone(ev);
    ExpectedOne(ev);
    if ev.comment != "" {
      assert Marshal(ev) == Trailing(ev) by { assert [] + LastLines(ev) == LastLines(ev); }
      LinesWeigh(CONNECTED, Marshal(ev));
      EventsAreApart(CONNECTED, ev);
      NothingDispatched(CONNECTED);
      NothingDispatched(Lines(CONNECTED, Marshal(ev)));
    } else {
      assert Marshal(ev) == "" by { NothingPrinted(ev); }
      NothingRead();
    }
  }

  lemma NothingPrinted(ev: Event)
    requires ev.data == "" && ev.comment == ""
    ensures Marshal(ev) == ""
  {
  }

  lemma NothingRead()
    ensures Lines(CONNECTED, "") == CONNECTED
  {
  }

  /** The client when it comes to the trailing lines. */
  lemma ReadKind(ev: Event) returns (c: Client)
    requires Carried(ev) && ev.data != ""
    ensures c == WithData(CONNECTED, ev).(kind := ev.event)
    ensures Lines(CONNECTED, Marshal(ev)) == Lines(c, Trailing(ev))
  {
    hide Lines, Unlines, Feed, LastLines;
    c := WithData(CONNECTED, ev).(kind := ev.event);
    var rest := ReadData(CONNECTED, ev);
    var front := if ev.event != "" then [FieldText("event", ev.event)] else [];
    var back := (if ev.retry != "" then [FieldText("retry", ev.retry)] else []) + LastLines(ev);
    assert KindLines(ev) + LastLines(ev) == front + back;
    UnlinesConcat(front, back);
    assert Plain(FieldText("event", ev.event));
    ReadLines(WithData(CONNECTED, ev), front, Trailing(ev));
    FeedNothing(WithData(CONNECTED, ev));
    FeedOne(WithData(CONNECTED, ev), "event", ev.event);
  }

  lemma {:induction false} BlankAtTheEnd(s: string)
    requires EndsLine(s)
    ensures HasBlank(s + [LF])
    decreases |s|
  {
    hide LineEnd;
    LineEndExtends(s, [LF]);
    var e := LineEnd(s).value;
    if e.0 != 0 {
      assert (s + [LF])[e.1..] == s[e.1..] + [LF];
      if s[e.1..] == "" {
        assert "" + [LF] == [LF];
        JustBlank();
      } else {
        BlankAtTheEnd(s[e.1..]);
      }
    }
  }

  lemma JustBlank()
    ensures HasBlank([LF])
  {
  }

  lemma TrailingHasBlank(ev: Event)
    ensures HasBlank(Trailing(ev))
  {
    hide Unlines, HasBlank, LineEnd;
    var retry := if ev.data != "" && ev.retry != "" then [FieldText("retry", ev.retry)] else [];
    var front := retry + if ev.comment != "" then [": " + ev.comment] else [];
    assert retry + LastLines(ev) == front + [""];
    UnlinesSnoc(front, "");
    assert Unlines(front) + "" + [LF] == Unlines(front) + [LF];
    if front == [] {
      NoLines("");
      assert "" + Unlines([]) + [LF] == [LF];
      JustBlank();
    } else {
      UnlinesEndsLine(front);
      BlankAtTheEnd(Unlines(front));
    }
  }

  lemma HeavierThanOne(c: Client, d: Client, ev: Event)
    requires c.data == ev.data + [LF] && c.dispatched == [] && BetweenEvents(d) && Weight(d) > Weight(c)
    ensures d.dispatched != [MessageOf(ev)]
  {
    assert [MessageOf(ev)][..0] == [];
    assert Dispatched([]) == 0;
  }

  lemma DataSurvives(ev: Event)
    requires ev.data != "" && Carried(ev)
    ensures Survives(ev) <==> Harmless(ev)
  {
    hide Lines, Marshal, Trailing, HasData, HasBlank, KindAfter, IdAfter, Weight, Carried;
    ReadAlone(ev);
    ExpectedOne(ev);
    var c := ReadKind(ev);
    assert Quieted(CONNECTED) == CONNECTED;
    TrailingHasBlank(ev);
    if HasData(Trailing(ev)) {
      LinesWeigh(c, Trailing(ev));
      EventsAreApart(CONNECTED, ev);
      HeavierThanOne(c, Lines(c, Trailing(ev)), ev);
    } else {
      OneMessage(c, Trailing(ev), ev.data);
    }
  }

  lemma HarmlessIsCarried(ev: Event)
    ensures Harmless(ev) ==> Carried(ev)
  {
  }

  /** An event is dispatched as it should be if and only if it is harmless. */
  lemma SurvivesExactly(ev: Event)
    ensures Survives(ev) <==> Harmless(ev)
  {
    hide Survives, Harmless;
    ReadAlone(ev);
    HarmlessIsCarried(ev);
    if ev.data == "" {
      CommentSurvives(ev);
    } else if Carried(ev) {
      DataSurvives(ev);
    }
  }

  /* ---------- whole streams ---------- */

  lemma OutputConcat(c: Client, evs: seq<Event>)
    requires evs != [] && BetweenEvents(c)
    ensures var next := Lines(c, Marshal(evs[0]));
      BetweenEvents(next)
      && Output(c, MarshalAll(evs)) == Output(c, Marshal(evs[0])) + Output(next, MarshalAll(evs[1..]))
  {
    hide Lines, Marshal;
    var text, rest := Marshal(evs[0]), MarshalAll(evs[1..]);
    EventsAreApart(c, evs[0]);
    MarshalEndsLine(evs[0]);
    LinesConcat(Quieted(c), text, rest);
    LinesAppend(c, text);
    var d := Lines(Quieted(c), text);
    LinesAppend(d, rest);
    Requieted(d, c.dispatched + d.dispatched);
  }

  lemma {:induction false} StreamAtLeast(c: Client, evs: seq<Event>)
    requires BetweenEvents(c) && forall ev <- evs :: Carried(ev)
    ensures |Output(c, MarshalAll(evs))| >= |Expected(evs)|
    decreases |evs|
  {
    hide Output, Marshal, Lines, Carried;
    if evs != [] {
      assert evs[0] in evs;
      OutputConcat(c, evs);
      AtLeastExpected(c, evs[0]);
      StreamAtLeast(Lines(c, Marshal(evs[0])), evs[1..]);
      ExpectedOne(evs[0]);
    }
  }

  lemma SurvivesAnywhere(c: Client, ev: Event)
    requires BetweenEvents(c) && Carried(ev)
    ensures Survives(ev) <==> Output(c, Marshal(ev)) == Expected([ev])
  {
    hide Marshal, Output;
    ReadAlone(ev);
    SameOutput(c, CONNECTED, ev);
    ExpectedOne(ev);
  }

  lemma {:induction false} SurvivorsExactly(c: Client, evs: seq<Event>)
    requires BetweenEvents(c) && forall ev <- evs :: Carried(ev)
    ensures Output(c, MarshalAll(evs)) == Expected(evs) <==> forall ev <- evs :: Survives(ev)
    decreases |evs|
  {
    hide Output, Marshal, Lines, Survives, Carried;
    if evs == [] {
      NothingSent(c);
    } else {
      var ev, rest := evs[0], evs[1..];
      assert ev in evs && evs == [ev] + rest;
      var next := Lines(c, Marshal(ev));
      OutputConcat(c, evs);
      AtLeastExpected(c, ev);
      StreamAtLeast(next, rest);
      SurvivesAnywhere(c, ev);
      SurvivorsExactly(next, rest);
      ExpectedOne(ev);
      assert Expected(evs) == Expected([ev]) + Expected(rest);
      Halves(Output(c, Marshal(ev)), Output(next, MarshalAll(rest)), Expected([ev]), Expected(rest));
    }
  }

  lemma Halves<T>(a: seq<T>, b: seq<T>, x: seq<T>, y: seq<T>)
    requires |a| >= |x| && |b| >= |y|
    ensures a + b == x + y <==> a == x && b == y
  {
    if a + b == x + y {
      assert |a| == |x|;
      assert a == (a + b)[..|a|] && x == (x + y)[..|x|];
      assert b == (a + b)[|a|..] && y == (x + y)[|x|..];
    }
  }

  lemma NothingSent(c: Client)
    ensures Output(c, MarshalAll([])) == []
  {
  }

  /** A stream of any events is dispatched as it should be if and only if each of its events is
      harmless: none harms another, or makes up for it. */
  lemma StreamSurvivesExactly(evs: seq<Event>)
    ensures Parse(MarshalAll(evs)).dispatched == Expected(evs) <==> forall ev <- evs :: Harmless(ev)
  {
    hide Lines, Marshal, Expected, Survives, Carried, Harmless;
    NoByteOrderMark(evs);
    StreamRoundTrip(evs);
    forall ev | ev in evs
      ensures (Survives(ev) <==> Harmless(ev)) && (Survives(ev) ==> Carried(ev))
    {
      SurvivesExactly(ev);
      ReadAlone(ev);
    }
    if forall ev <- evs :: Carried(ev) {
      SurvivorsExactly(CONNECTED, evs);
    }
    assert Parse(MarshalAll(evs)).dispatched == Output(CONNECTED, MarshalAll(evs));
  }

  lemma CommentText(first: string, second: string)
    ensures Trailing(Event("", "", "", "", first + [LF] + second))
         == (": " + first) + [LF] + (second + [LF] + ([LF] + ""))
  {
    hide Unlines;
    var ev := Event("", "", "", "", first + [LF] + second);
    var line := ": " + ev.comment;
    assert [] + LastLines(ev) == [line] + [""];
    UnlinesSnoc([line], "");
    UnlinesSnoc([], line);
    assert [] + [line] == [line];
    NoLines("");
  }

  /** The first of several lines, when it ends with a line feed. */
  lemma FirstLine(line: string, rest: string)
    requires Plain(line)
    ensures HasData(line + [LF] + rest) <==> FieldName(line) == "data" || HasData(rest)
  {
    hide LineEnd;
    LineEndOfPlain(line, rest);
    var s := line + [LF] + rest;
    assert s[..|line|] == line && s[|line| + 1..] == rest;
  }

  /** A line break in a comment does harm when a data field follows it. */
  lemma CommentBecomesData(first: string, data: string)
    requires Plain(first) && Plain(data)
    ensures !Survives(Event("", "", "", "", first + [LF] + FieldText("data", data)))
  {
    hide HasData, Survives, Trailing;
    var ev, line := Event("", "", "", "", first + [LF] + FieldText("data", data)), FieldText("data", data);
    CommentText(first, line);
    assert Plain(line) && Plain(": " + first);
    FirstLine(": " + first, line + [LF] + ([LF] + ""));
    FirstLine(line, [LF] + "");
    assert FieldName(line) == "data" by {
      assert line[..4] == "data" && line[4] == ':';
      IndexIsFirst(line, ':', 4);
    }
    SurvivesExactly(ev);
  }
}
