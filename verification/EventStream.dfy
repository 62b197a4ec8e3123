/** Parsing an event stream as the WHATWG HTML Living Standard has it (sections 9.2.5 and 9.2.6):
    the reference the printed events are held against. */
module EventStream {
  import opened Wrappers

  const CR: char := '\r'
  const LF: char := '\n'
  const NUL: char := '\U{0000}'
  const BOM: char := '\U{FEFF}'

  datatype Message = Message(kind: string, data: string, lastEventId: string)

  /** The buffers of section 9.2.6, what has been dispatched, and the reconnection time as the
      digits last received. */
  datatype Client = Client(
    data: string, kind: string, lastId: string, dispatched: seq<Message>, retry: Option<string>)

  const CONNECTED := Client("", "", "", [], None)

  predicate IsDigits(s: string) {
    s != "" && forall c <- s :: '0' <= c <= '9'
  }

  function Field(c: Client, field: string, value: string): Client {
    if field == "event" then c.(kind := value)
    else if field == "data" then c.(data := c.data + value + [LF])
    else if field == "id" then if NUL in value then c else c.(lastId := value)
    else if field == "retry" then if IsDigits(value) then c.(retry := Some(value)) else c
    else c
  }

  /** The first position of a character, or the length of the text. */
  function IndexOf(s: string, ch: char): (i: nat)
    ensures i <= |s| && ch !in s[..i] && (i < |s| ==> s[i] == ch)
  {
    if s == "" || s[0] == ch then 0 else
      var i := 1 + IndexOf(s[1..], ch);
      assert s[..i] == [s[0]] + s[1..][..i - 1];
      i
  }

  function DropSpace(s: string): string {
    if s != "" && s[0] == ' ' then s[1..] else s
  }

  function Dispatch(c: Client): Client {
    if c.data == "" then c.(kind := "") else
      var data := if c.data[|c.data| - 1] == LF then c.data[..|c.data| - 1] else c.data;
      var message := Message(if c.kind == "" then "message" else c.kind, data, c.lastId);
      c.(data := "", kind := "", dispatched := c.dispatched + [message])
  }

  function Line(c: Client, line: string): Client {
    if line == "" then Dispatch(c)
    else if line[0] == ':' then c
    else
      var i := IndexOf(line, ':');
      if i < |line| then Field(c, line[..i], DropSpace(line[i + 1..])) else Field(c, line, "")
  }

  /** Where the first line of a stream ends, and where the next one begins: lines end with a
      carriage return, a line feed, or the two in this order. None if no line is complete. */
  function LineEnd(s: string): (e: Option<(nat, nat)>)
    ensures e.Some? ==> e.value.0 < e.value.1 <= |s| && CR !in s[..e.value.0] && LF !in s[..e.value.0]
  {
    if s == "" then None
    else if s[0] == LF then Some((0, 1))
    else if s[0] == CR then Some((0, if |s| > 1 && s[1] == LF then 2 else 1))
    else
      var rest := LineEnd(s[1..]);
      if rest.None? then None else
        assert s[..rest.value.0 + 1] == [s[0]] + s[1..][..rest.value.0];
        Some((rest.value.0 + 1, rest.value.1 + 1))
  }

  /** Processes a stream line by line; what follows the last line end is discarded. */
  function Lines(c: Client, s: string): Client
    decreases |s|
  {
    var e := LineEnd(s);
    if e.None? then c else Lines(Line(c, s[..e.value.0]), s[e.value.1..])
  }

  function Parse(s: string): Client {
    Lines(CONNECTED, if s != "" && s[0] == BOM then s[1..] else s)
  }

  /* ---------- what a parser can dispatch at all ---------- */

  predicate Plain(s: string) {
    CR !in s && LF !in s
  }

  ghost predicate CanBeDispatched(m: Message) {
    CR !in m.data && Plain(m.kind) && Plain(m.lastEventId) && NUL !in m.lastEventId
  }

  ghost predicate ClientOk(c: Client) {
    && CR !in c.data && Plain(c.kind) && Plain(c.lastId) && NUL !in c.lastId
    && forall m <- c.dispatched :: CanBeDispatched(m)
  }

  lemma FieldKeepsOk(c: Client, field: string, value: string)
    requires ClientOk(c) && Plain(value)
    ensures ClientOk(Field(c, field, value))
  {
  }

  lemma DispatchKeepsOk(c: Client)
    requires ClientOk(c)
    ensures ClientOk(Dispatch(c))
  {
  }

  lemma LineKeepsOk(c: Client, line: string)
    requires ClientOk(c) && Plain(line)
    ensures ClientOk(Line(c, line))
  {
    hide ClientOk, Dispatch, Field;
    DispatchKeepsOk(c);
    if line != "" && line[0] != ':' {
      var i := IndexOf(line, ':');
      if i < |line| {
        assert Plain(line[i + 1..]) && Plain(DropSpace(line[i + 1..]));
        FieldKeepsOk(c, line[..i], DropSpace(line[i + 1..]));
      } else {
        FieldKeepsOk(c, line, "");
      }
    }
  }

  lemma {:induction false} LinesKeepOk(c: Client, s: string)
    requires ClientOk(c)
    ensures ClientOk(Lines(c, s))
    decreases |s|
  {
    var e := LineEnd(s);
    if e.Some? {
      LineKeepsOk(c, s[..e.value.0]);
      LinesKeepOk(Line(c, s[..e.value.0]), s[e.value.1..]);
    }
  }

  lemma ParsedCanBeDispatched(s: string)
    ensures forall m <- Parse(s).dispatched :: CanBeDispatched(m)
  {
    LinesKeepOk(CONNECTED, if s != "" && s[0] == BOM then s[1..] else s);
  }

  /* ---------- reading what has been printed line by line ---------- */

  lemma {:induction false} LineEndOfPlain(line: string, rest: string)
    requires Plain(line)
    ensures LineEnd(line + [LF] + rest) == Some((|line|, |line| + 1))
  {
    if line != "" {
      LineEndOfPlain(line[1..], rest);
      assert (line + [LF] + rest)[1..] == line[1..] + [LF] + rest;
    }
  }

  lemma ReadLine(c: Client, line: string, rest: string)
    requires Plain(line)
    ensures Lines(c, line + [LF] + rest) == Lines(Line(c, line), rest)
  {
    LineEndOfPlain(line, rest);
    var s := line + [LF] + rest;
    assert s[..|line|] == line && s[|line| + 1..] == rest;
  }

  lemma {:induction false} IndexIsFirst(s: string, ch: char, i: nat)
    requires i < |s| && s[i] == ch && ch !in s[..i]
    ensures IndexOf(s, ch) == i
  {
    if i > 0 {
      assert s[0] in s[..i];
      assert s[1..][..i - 1] == s[..i][1..];
      IndexIsFirst(s[1..], ch, i - 1);
    }
  }

  /** A line may end with a carriage return and a line feed, or with a carriage return alone; a last line
      that does not end is discarded; and a byte order mark in front is skipped. */
  lemma LineEndings(c: Client, line: string, rest: string)
    requires Plain(line)
    ensures Lines(c, line + [CR, LF] + rest) == Lines(Line(c, line), rest)
    ensures rest == "" || rest[0] != LF ==> Lines(c, line + [CR] + rest) == Lines(Line(c, line), rest)
    ensures Lines(c, line) == c
    ensures Parse([BOM] + line + [LF] + rest) == Lines(Line(CONNECTED, line), rest)
  {
    LineEndOfReturn(line, rest);
    var s, t := line + [CR, LF] + rest, line + [CR] + rest;
    assert s[..|line|] == line && s[|line| + 2..] == rest;
    assert t[..|line|] == line && t[|line| + 1..] == rest;
    ReadLine(CONNECTED, line, rest);
    assert ([BOM] + line + [LF] + rest)[1..] == line + [LF] + rest;
  }

  lemma {:induction false} LineEndOfReturn(line: string, rest: string)
    requires Plain(line)
    ensures LineEnd(line + [CR, LF] + rest) == Some((|line|, |line| + 2))
    ensures rest == "" || rest[0] != LF ==> LineEnd(line + [CR] + rest) == Some((|line|, |line| + 1))
    ensures LineEnd(line) == None
  {
    if line != "" {
      LineEndOfReturn(line[1..], rest);
      assert (line + [CR, LF] + rest)[1..] == line[1..] + [CR, LF] + rest;
      assert (line + [CR] + rest)[1..] == line[1..] + [CR] + rest;
    }
  }

  /** A field as it is printed. */
  function FieldText(field: string, value: string): string {
    field + ": " + value
  }

  lemma FieldLine(c: Client, field: string, value: string)
    requires field != "" && ':' !in field
    ensures Line(c, FieldText(field, value)) == Field(c, field, value)
  {
    hide Field;
    var line, i := FieldText(field, value), |field|;
    assert line[..i] == field && line[i + 1..] == " " + value;
    IndexIsFirst(line, ':', i);
    assert line[0] == field[0] && field[0] in field;
    assert (" " + value)[1..] == value;
  }
}
