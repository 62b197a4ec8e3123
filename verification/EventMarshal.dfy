/** Printing server-sent events (internal/handler/sse.go), and that the standard's parser undoes it. */
module EventMarshal {
  import opened Wrappers
  import opened EventStream

  datatype Event = Event(id: string, data: string, event: string, retry: string, comment: string)

  /** Something that takes bytes until it fails; a failing write may have taken some of them. */
  class Writer {
    var out: string
    var room: nat

    constructor (room: nat)
      ensures out == "" && this.room == room
    {
      out, this.room := "", room;
    }

    method Write(s: string) returns (ok: bool)
      modifies this
      ensures ok ==> out == old(out) + s
      ensures !ok ==> old(out) <= out < old(out) + s
      ensures ok <==> |s| <= old(room)
      ensures room == if ok then old(room) - |s| else 0
    {
      ok := |s| <= room;
      if ok {
        out, room := out + s, room - |s|;
      } else {
        out, room := out + s[..room], 0;
      }
    }
  }

  /** bytes.Split at line feeds. */
  function Split(s: string): (parts: seq<string>)
    ensures parts != []
    decreases |s|
  {
    var i := IndexOf(s, LF);
    if i == |s| then [s] else [s[..i]] + Split(s[i + 1..])
  }

  function Prefixed(field: string, parts: seq<string>): seq<string> {
    if parts == [] then [] else [FieldText(field, parts[0])] + Prefixed(field, parts[1..])
  }

  function DataLines(ev: Event): seq<string> {
    [FieldText("id", ev.id)] + Prefixed("data", Split(ev.data))
  }

  function KindLines(ev: Event): seq<string> {
    (if ev.event != "" then [FieldText("event", ev.event)] else [])
    + (if ev.retry != "" then [FieldText("retry", ev.retry)] else [])
  }

  function LastLines(ev: Event): seq<string> {
    (if ev.comment != "" then [": " + ev.comment] else []) + [""]
  }

  /** The lines an event is printed as; the last one is the empty line that ends it. */
  function PrintedLines(ev: Event): seq<string> {
    if ev.data == "" && ev.comment == "" then []
    else if ev.data == "" then LastLines(ev)
    else DataLines(ev) + KindLines(ev) + LastLines(ev)
  }

  function Unlines(lines: seq<string>): string {
    if lines == [] then "" else lines[0] + [LF] + Unlines(lines[1..])
  }

  function Marshal(ev: Event): string {
    Unlines(PrintedLines(ev))
  }

  function MarshalAll(evs: seq<Event>): string {
    if evs == [] then "" else Marshal(evs[0]) + MarshalAll(evs[1..])
  }

  lemma {:induction false} UnlinesConcat(a: seq<string>, b: seq<string>)
    ensures Unlines(a + b) == Unlines(a) + Unlines(b)
  {
    if a == [] {
      assert a + b == b;
    } else {
      UnlinesConcat(a[1..], b);
      assert (a + b)[1..] == a[1..] + b;
    }
  }

  lemma NoLines(before: string)
    ensures before + Unlines([]) == before
  {
  }

  lemma UnlinesSnoc(lines: seq<string>, line: string)
    ensures Unlines(lines + [line]) == Unlines(lines) + line + [LF]
  {
    UnlinesConcat(lines, [line]);
    assert [line][1..] == [];
  }

  lemma {:induction false} PrefixedAt(field: string, parts: seq<string>)
    ensures |Prefixed(field, parts)| == |parts|
    ensures forall i :: 0 <= i < |parts| ==> Prefixed(field, parts)[i] == FieldText(field, parts[i])
  {
    if parts != [] {
      PrefixedAt(field, parts[1..]);
    }
  }

  /** Where each line of an event with data stands. */
  lemma PrintedAt(ev: Event)
    requires ev.data != ""
    ensures var lines, n := PrintedLines(ev), |Split(ev.data)| + 1;
      var r := n + |KindLines(ev)|;
      && |lines| == r + |LastLines(ev)|
      && lines[..n] == DataLines(ev) && lines[n..r] == KindLines(ev) && lines[r..] == LastLines(ev)
      && lines[0] == FieldText("id", ev.id)
      && forall i :: 0 <= i < |Split(ev.data)| ==> lines[1 + i] == FieldText("data", Split(ev.data)[i])
  {
    PrefixedAt("data", Split(ev.data));
    var lines, n := PrintedLines(ev), |Split(ev.data)| + 1;
    assert forall i :: 0 <= i < n ==> lines[i] == DataLines(ev)[i];
  }

  /** Where the type and the reconnection time stand, if they are printed. */
  lemma KindAt(ev: Event)
    requires ev.data != ""
    ensures var lines, n := PrintedLines(ev), |Split(ev.data)| + 1;
      var e := if ev.event != "" then n + 1 else n;
      var r := if ev.retry != "" then e + 1 else e;
      && r <= |lines| && lines[r..] == LastLines(ev)
      && (e > n ==> lines[n] == FieldText("event", ev.event))
      && (r > e ==> lines[e] == FieldText("retry", ev.retry))
  {
    hide PrintedLines, DataLines, LastLines, FieldText, Split;
    PrintedAt(ev);
    var lines, n := PrintedLines(ev), |Split(ev.data)| + 1;
    var kinds := KindLines(ev);
    assert forall i :: 0 <= i < |kinds| ==> kinds[i] == lines[n + i];
  }

  /** Writes the next of an event's lines. */
  method WriteLine(w: Writer, line: string, ghost before: string, ghost lines: seq<string>, ghost n: nat)
    returns (ok: bool)
    requires n < |lines| && lines[n] == line && w.out == before + Unlines(lines[..n])
    modifies w
    ensures ok ==> w.out == before + Unlines(lines[..n + 1])
    ensures !ok ==> before <= w.out < before + Unlines(lines)
    ensures ok <==> |line| + 1 <= old(w.room)
  {
    assert lines[..n + 1] == lines[..n] + [line];
    UnlinesSnoc(lines[..n], line);
    assert lines == lines[..n + 1] + lines[n + 1..];
    UnlinesConcat(lines[..n + 1], lines[n + 1..]);
    ok := w.Write(line + [LF]);
    assert before + Unlines(lines[..n]) + (line + [LF]) == before + (Unlines(lines[..n]) + line + [LF]);
  }

  /** The lines of the data, the type and the reconnection time. */
  method WriteFields(ev: Event, w: Writer, ghost before: string, ghost lines: seq<string>)
    returns (ok: bool, ghost n: nat)
    requires ev.data != "" && lines == PrintedLines(ev) && w.out == before
    modifies w
    ensures ok ==> n <= |lines| && lines[n..] == LastLines(ev) && w.out == before + Unlines(lines[..n])
    ensures !ok ==> before <= w.out < before + Unlines(lines)
  {
    hide PrintedLines, DataLines, LastLines, KindLines, FieldText, Split, Unlines;
    PrintedAt(ev);
    KindAt(ev);
    assert lines[..0] == [];
    NoLines(before);
    n := 0;
    ok := WriteLine(w, FieldText("id", ev.id), before, lines, n);
    if !ok { return; }
    n := 1;
    var sd := Split(ev.data);
    var i := 0;
    while i < |sd|
      invariant 0 <= i <= |sd| && n == 1 + i
      invariant w.out == before + Unlines(lines[..n])
    {
      ok := WriteLine(w, FieldText("data", sd[i]), before, lines, n);
      if !ok { return; }
      i, n := i + 1, n + 1;
    }
    if |ev.event| > 0 {
      ok := WriteLine(w, FieldText("event", ev.event), before, lines, n);
      if !ok { return; }
      n := n + 1;
    }
    if |ev.retry| > 0 {
      ok := WriteLine(w, FieldText("retry", ev.retry), before, lines, n);
      if !ok { return; }
      n := n + 1;
    }
    ok := true;
  }

  /** Writes an event line by line: all of it, or, when a write fails, a proper beginning. */
  method MarshalTo(ev: Event, w: Writer) returns (ok: bool)
    modifies w
    ensures ok ==> w.out == old(w.out) + Marshal(ev)
    ensures !ok ==> old(w.out) <= w.out < old(w.out) + Marshal(ev)
  {
    if |ev.data| == 0 && |ev.comment| == 0 {
      return true;
    }
    ghost var before, lines, n: nat := w.out, PrintedLines(ev), 0;
    assert lines[..0] == [];
    if |ev.data| > 0 {
      ok, n := WriteFields(ev, w, before, lines);
      if !ok { return; }
    }
    assert lines[n..] == LastLines(ev);
    assert forall i :: 0 <= i < |LastLines(ev)| ==> lines[n + i] == lines[n..][i];
    if |ev.comment| > 0 {
      ok := WriteLine(w, ": " + ev.comment, before, lines, n);
      if !ok { return; }
      n := n + 1;
    }
    ok := WriteLine(w, "", before, lines, n);
    assert lines[..n + 1] == lines;
  }

  /* ---------- the text of an event, character by character ---------- */

  /** Every line feed begins another data line. */
  function DataText(data: string): string {
    if data == "" then "" else (if data[0] == '\n' then "\ndata: " else [data[0]]) + DataText(data[1..])
  }

  lemma {:induction false} DataTextOfLine(line: string, rest: string)
    requires LF !in line
    ensures DataText(line + rest) == line + DataText(rest)
  {
    if line == "" {
      assert line + rest == rest;
    } else {
      assert (line + rest)[1..] == line[1..] + rest && line[0] in line;
      DataTextOfLine(line[1..], rest);
    }
  }

  lemma OneLine(line: string)
    ensures Unlines([line]) == line + "\n"
  {
    assert [line][1..] == [];
  }

  lemma DataTextOfBreak(first: string, rest: string)
    requires LF !in first
    ensures DataText(first + [LF] + rest) == first + "\ndata: " + DataText(rest)
  {
    DataTextOfLine(first, [LF] + rest);
    assert first + [LF] + rest == first + ([LF] + rest);
    assert ([LF] + rest)[1..] == rest;
    assert DataText([LF] + rest) == "\ndata: " + DataText(rest);
  }

  lemma DataTextOfWhole(line: string)
    requires LF !in line
    ensures DataText(line) == line
  {
    DataTextOfLine(line, "");
    assert line + "" == line;
    assert DataText("") == "";
  }

  lemma {:induction false} DataIsPrinted(data: string)
    ensures Unlines(Prefixed("data", Split(data))) == "data: " + DataText(data) + "\n"
    decreases |data|
  {
    hide Prefixed, Split, Unlines, IndexOf, DataText;
    SplitStep(data);
    var i := IndexOf(data, LF);
    var first := data[..i];
    OneLine(FieldText("data", first));
    if i == |data| {
      assert first == data;
      OnePart("data", data);
      DataTextOfWhole(data);
    } else {
      var rest := data[i + 1..];
      DataIsPrinted(rest);
      PrefixedCons("data", first, Split(rest));
      UnlinesConcat([FieldText("data", first)], Prefixed("data", Split(rest)));
      DataTextOfBreak(first, rest);
      assert ("data: " + first + "\n") + ("data: " + DataText(rest) + "\n")
          == "data: " + (first + "\ndata: " + DataText(rest)) + "\n";
    }
  }

  lemma OneField(field: string, value: string)
    ensures Unlines(if value != "" then [FieldText(field, value)] else [])
         == if value != "" then field + ": " + value + "\n" else ""
  {
    OneLine(FieldText(field, value));
    NoLines("");
  }

  lemma LastText(comment: string)
    ensures Unlines((if comment != "" then [": " + comment] else []) + [""])
         == (if comment != "" then ": " + comment + "\n" else "") + "\n"
  {
    var front := if comment != "" then [": " + comment] else [];
    UnlinesSnoc(front, "");
    OneLine(": " + comment);
    NoLines("");
  }

  lemma DataPart(ev: Event)
    ensures Unlines(DataLines(ev)) == "id: " + ev.id + "\n" + ("data: " + DataText(ev.data) + "\n")
  {
    hide Unlines, Prefixed, Split, DataText;
    DataIsPrinted(ev.data);
    UnlinesConcat([FieldText("id", ev.id)], Prefixed("data", Split(ev.data)));
    OneLine(FieldText("id", ev.id));
  }

  lemma KindPart(ev: Event)
    ensures Unlines(KindLines(ev))
         == (if ev.event != "" then "event: " + ev.event + "\n" else "")
            + if ev.retry != "" then "retry: " + ev.retry + "\n" else ""
  {
    hide Unlines, FieldText;
    OneField("event", ev.event);
    OneField("retry", ev.retry);
    UnlinesConcat(if ev.event != "" then [FieldText("event", ev.event)] else [],
                  if ev.retry != "" then [FieldText("retry", ev.retry)] else []);
  }

  /** An event as it is printed: nothing, if it has neither data nor comment; else its fields in this
      order, each on a line of its own, the data on as many as it has, and a blank line. */
  lemma PrintedText(ev: Event)
    ensures Marshal(ev)
         == if ev.data == "" && ev.comment == "" then "" else
            (if ev.data == "" then "" else
              ("id: " + ev.id + "\n" + ("data: " + DataText(ev.data) + "\n"))
              + ((if ev.event != "" then "event: " + ev.event + "\n" else "")
                 + if ev.retry != "" then "retry: " + ev.retry + "\n" else ""))
            + ((if ev.comment != "" then ": " + ev.comment + "\n" else "") + "\n")
  {
    LastText(ev.comment);
    NoLines("");
    DataPart(ev);
    KindPart(ev);
    hide Unlines, DataLines, KindLines, DataText, FieldText;
    if ev.data != "" {
      UnlinesConcat(DataLines(ev) + KindLines(ev), LastLines(ev));
      UnlinesConcat(DataLines(ev), KindLines(ev));
    }
  }

  /* ---------- reading an event back ---------- */

  /** What can be carried: no carriage return in the data, no line break in the id and the type,
      and no NUL in the id. */
  predicate Carried(ev: Event) {
    ev.data != "" ==> CR !in ev.data && Plain(ev.event) && Plain(ev.id) && NUL !in ev.id
  }

  function MessageOf(ev: Event): Message {
    Message(if ev.event == "" then "message" else ev.event, ev.data, ev.id)
  }

  /** One message for each event that has data, in order. */
  function Expected(evs: seq<Event>): seq<Message> {
    if evs == [] then [] else (if evs[0].data != "" then [MessageOf(evs[0])] else []) + Expected(evs[1..])
  }

  function Feed(c: Client, lines: seq<string>): Client
    decreases |lines|
  {
    if lines == [] then c else Feed(Line(c, lines[0]), lines[1..])
  }

  lemma {:induction false} ReadLines(c: Client, lines: seq<string>, rest: string)
    requires forall line <- lines :: Plain(line)
    ensures Lines(c, Unlines(lines) + rest) == Lines(Feed(c, lines), rest)
    decreases |lines|
  {
    if lines == [] {
      assert Unlines(lines) + rest == rest;
    } else {
      ReadLine(c, lines[0], Unlines(lines[1..]) + rest);
      assert Unlines(lines) + rest == lines[0] + [LF] + (Unlines(lines[1..]) + rest);
      ReadLines(Line(c, lines[0]), lines[1..], rest);
    }
  }

  lemma {:induction false} FeedConcat(c: Client, a: seq<string>, b: seq<string>)
    ensures Feed(c, a + b) == Feed(Feed(c, a), b)
    decreases |a|
  {
    if a == [] {
      assert a + b == b;
    } else {
      FeedConcat(Line(c, a[0]), a[1..], b);
      assert (a + b)[1..] == a[1..] + b;
    }
  }

  lemma FeedCons(c: Client, line: string, lines: seq<string>)
    ensures Feed(c, [line] + lines) == Feed(Line(c, line), lines)
  {
    assert ([line] + lines)[1..] == lines;
  }

  lemma PrefixedCons(field: string, part: string, parts: seq<string>)
    ensures Prefixed(field, [part] + parts) == [FieldText(field, part)] + Prefixed(field, parts)
  {
    assert ([part] + parts)[1..] == parts;
  }

  lemma AroundLineFeed(data: string, i: nat)
    requires i < |data| && data[i] == LF
    ensures data == data[..i] + [LF] + data[i + 1..]
  {
  }

  lemma SplitStep(data: string)
    ensures var i := IndexOf(data, LF);
      if i == |data| then Split(data) == [data]
      else Split(data) == [data[..i]] + Split(data[i + 1..]) && data == data[..i] + [LF] + data[i + 1..]
  {
    hide IndexOf;
    var i := IndexOf(data, LF);
    if i < |data| {
      AroundLineFeed(data, i);
    }
  }

  /** The data lines put the data back together, with one line feed too many at the end. */
  lemma {:induction false} FeedData(c: Client, data: string)
    ensures Feed(c, Prefixed("data", Split(data))) == c.(data := c.data + data + [LF])
    decreases |data|
  {
    hide Feed, Prefixed, FieldText, Line, Split, IndexOf;
    SplitStep(data);
    var i := IndexOf(data, LF);
    if i == |data| {
      OnePart("data", data);
      FeedOne(c, "data", data);
    } else {
      var first, rest := data[..i], data[i + 1..];
      var next := c.(data := c.data + first + [LF]);
      FeedData(next, rest);
      PrefixedCons("data", first, Split(rest));
      FeedCons(c, FieldText("data", first), Prefixed("data", Split(rest)));
      FieldLine(c, "data", first);
      assert next.data + rest + [LF] == c.data + (first + [LF] + rest) + [LF];
    }
  }

  lemma {:induction false} DataLinesArePlain(data: string)
    requires CR !in data
    ensures forall line <- Prefixed("data", Split(data)) :: Plain(line)
    decreases |data|
  {
    var i := IndexOf(data, LF);
    var first := data[..i];
    assert Plain(FieldText("data", first));
    if i == |data| {
      OnePart("data", first);
      assert first == data;
    } else {
      DataLinesArePlain(data[i + 1..]);
      PrefixedCons("data", first, Split(data[i + 1..]));
    }
  }

  lemma OnePart(field: string, part: string)
    ensures Prefixed(field, [part]) == [FieldText(field, part)]
  {
    assert [part][1..] == [];
  }

  /** What a client that is between two events becomes by one more. */
  function AfterEvent(c: Client, ev: Event): Client {
    if ev.data == "" then c else
      Client("", "", ev.id, c.dispatched + [MessageOf(ev)], if IsDigits(ev.retry) then Some(ev.retry) else c.retry)
  }

  predicate BetweenEvents(c: Client) {
    c.data == "" && c.kind == ""
  }

  lemma FeedTail(c: Client, comment: string)
    ensures Feed(c, (if comment != "" then [": " + comment] else []) + [""]) == Dispatch(c)
  {
    FeedEmptyLine(c);
    if comment != "" {
      var line := ": " + comment;
      assert line[0] == ':' && Line(c, line) == c;
      assert ([line] + [""])[1..] == [""];
    } else {
      assert [] + [""] == [""];
    }
  }

  lemma FeedEmptyLine(c: Client)
    ensures Feed(c, [""]) == Dispatch(c)
  {
    assert [""][1..] == [];
  }

  lemma FeedOne(c: Client, field: string, value: string)
    requires field != "" && ':' !in field
    ensures Feed(c, [FieldText(field, value)]) == Field(c, field, value)
  {
    FieldLine(c, field, value);
    assert [FieldText(field, value)][1..] == [];
  }

  /** The event between two others: it is read as one message, or as none when it has no data. */
  lemma FeedEvent(c: Client, ev: Event)
    requires BetweenEvents(c) && Carried(ev)
    ensures Feed(c, PrintedLines(ev)) == AfterEvent(c, ev)
  {
    hide Feed, FieldText, Split, Prefixed, IsDigits;
    if ev.data == "" {
      if ev.comment == "" {
        FeedNothing(c);
      } else {
        FeedTail(c, ev.comment);
      }
    } else {
      FeedConcat(c, DataLines(ev) + KindLines(ev), LastLines(ev));
      FeedConcat(c, DataLines(ev), KindLines(ev));
      FeedDataLines(c, ev);
      var c1 := Client(ev.data + [LF], "", ev.id, c.dispatched, c.retry);
      FeedKindLines(c1, ev);
      FeedTail(Feed(c1, KindLines(ev)), ev.comment);
    }
  }

  lemma FeedNothing(c: Client)
    ensures Feed(c, []) == c
  {
  }

  lemma FeedDataLines(c: Client, ev: Event)
    requires BetweenEvents(c) && ev.data != "" && NUL !in ev.id
    ensures Feed(c, DataLines(ev)) == Client(ev.data + [LF], "", ev.id, c.dispatched, c.retry)
  {
    hide Feed, FieldText, Split, Prefixed;
    FeedOne(c, "id", ev.id);
    FeedConcat(c, [FieldText("id", ev.id)], Prefixed("data", Split(ev.data)));
    FeedData(c.(lastId := ev.id), ev.data);
    assert "" + ev.data + [LF] == ev.data + [LF];
  }

  lemma FeedKindLines(c: Client, ev: Event)
    requires c.kind == ""
    ensures Feed(c, KindLines(ev))
         == c.(kind := ev.event, retry := if IsDigits(ev.retry) then Some(ev.retry) else c.retry)
  {
    hide Feed, FieldText;
    var a := if ev.event != "" then [FieldText("event", ev.event)] else [];
    var b := if ev.retry != "" then [FieldText("retry", ev.retry)] else [];
    FeedConcat(c, a, b);
    FeedNothing(c);
    FeedOne(c, "event", ev.event);
    var c' := c.(kind := ev.event);
    FeedNothing(c');
    FeedOne(c', "retry", ev.retry);
  }

  lemma PrintedLinesArePlain(ev: Event)
    requires Carried(ev) && Plain(ev.retry) && Plain(ev.comment)
    ensures forall line <- PrintedLines(ev) :: Plain(line)
  {
    hide Prefixed, Split;
    if ev.data != "" {
      DataLinesArePlain(ev.data);
      assert Plain(FieldText("id", ev.id));
      assert Plain(FieldText("event", ev.event)) && Plain(FieldText("retry", ev.retry));
    }
    assert Plain(": " + ev.comment);
  }

  /* ---------- whole streams ---------- */

  function AfterEvents(c: Client, evs: seq<Event>): Client
    decreases |evs|
  {
    if evs == [] then c else AfterEvents(AfterEvent(c, evs[0]), evs[1..])
  }

  ghost predicate Clean(evs: seq<Event>) {
    forall ev <- evs :: Plain(ev.retry) && Plain(ev.comment)
  }

  lemma {:induction false} ReadEvents(c: Client, evs: seq<Event>)
    requires BetweenEvents(c) && Clean(evs) && forall ev <- evs :: Carried(ev)
    ensures Lines(c, MarshalAll(evs)) == AfterEvents(c, evs)
    decreases |evs|
  {
    hide PrintedLines, Feed, Unlines;
    if evs != [] {
      var ev := evs[0];
      assert ev in evs;
      PrintedLinesArePlain(ev);
      ReadLines(c, PrintedLines(ev), MarshalAll(evs[1..]));
      FeedEvent(c, ev);
      ReadEvents(AfterEvent(c, ev), evs[1..]);
    }
  }

  lemma {:induction false} DispatchedIsExpected(c: Client, evs: seq<Event>)
    ensures AfterEvents(c, evs).dispatched == c.dispatched + Expected(evs)
    decreases |evs|
  {
    if evs != [] {
      DispatchedIsExpected(AfterEvent(c, evs[0]), evs[1..]);
    }
  }

  lemma {:induction false} NoByteOrderMark(evs: seq<Event>)
    ensures MarshalAll(evs) != "" ==> MarshalAll(evs)[0] != BOM
    decreases |evs|
  {
    if evs != [] {
      NoByteOrderMark(evs[1..]);
      var lines := PrintedLines(evs[0]);
      if lines != [] {
        assert lines[0] == (if evs[0].data != "" then FieldText("id", evs[0].id)
                            else ": " + evs[0].comment);
      }
    }
  }

  lemma {:induction false} ExpectedOf(evs: seq<Event>, ev: Event)
    requires ev in evs && ev.data != ""
    ensures MessageOf(ev) in Expected(evs)
  {
    if evs[0] != ev {
      ExpectedOf(evs[1..], ev);
    }
  }

  /** The stream round trip: the standard's parser dispatches one message for each event with data,
      in order, with the same data, type and id, and nothing for the others. This needs that no data
      holds a carriage return, no type or id a line break, and no id a NUL; and it is enough when
      the reconnection times and comments are free of line breaks. */
  lemma StreamRoundTrip(evs: seq<Event>)
    ensures Parse(MarshalAll(evs)).dispatched == Expected(evs) ==> forall ev <- evs :: Carried(ev)
    ensures Clean(evs) && (forall ev <- evs :: Carried(ev)) ==>
      Parse(MarshalAll(evs)).dispatched == Expected(evs) && Parse(MarshalAll(evs)) == AfterEvents(CONNECTED, evs)
  {
    hide Lines, MarshalAll, Expected;
    NoByteOrderMark(evs);
    if Clean(evs) && forall ev <- evs :: Carried(ev) {
      ReadEvents(CONNECTED, evs);
      DispatchedIsExpected(CONNECTED, evs);
    }
    if Parse(MarshalAll(evs)).dispatched == Expected(evs) {
      ParsedCanBeDispatched(MarshalAll(evs));
      forall ev | ev in evs
        ensures Carried(ev)
      {
        if ev.data != "" {
          ExpectedOf(evs, ev);
          assert CanBeDispatched(MessageOf(ev));
        }
      }
    }
  }

  /** A carriage return in the data is such a case: output lines that end with one lose it. */
  lemma CarriageReturnIsLost()
    ensures var ev := Event("", "50%\r100%\n", "", "", "");
      Parse(MarshalAll([ev])).dispatched != Expected([ev])
  {
    var ev := Event("", "50%\r100%\n", "", "", "");
    assert ev in [ev] && ev.data[3] == CR;
    StreamRoundTrip([ev]);
  }
}
