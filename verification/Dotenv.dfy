/** The `.env` file: generated keys are appended to it (internal/security/encryption.go) and read
    back at the next start (internal/settings/settings.go). */
module Dotenv {
  import opened Wrappers
  import opened EventStream

  const LOWER := "qwertyuiopasdfghjklzxcvbnm"
  const UPPER := "QWERTYUIOPASDFGHJKLZXCVBNM"
  const CHARSET := LOWER + UPPER + "1234567890" + "-_|!/"

  /** The longest line a bufio.Scanner takes; it stops at the first longer one. */
  const MAX_LINE: nat := 65535

  /** Characters unicode.IsSpace accepts. */
  predicate IsSpace(c: char) {
    '\t' <= c <= '\r' || c == ' ' || c == '\U{0085}' || c == '\U{00A0}' || c == '\U{1680}'
    || '\U{2000}' <= c <= '\U{200A}' || c == '\U{2028}' || c == '\U{2029}' || c == '\U{202F}'
    || c == '\U{205F}' || c == '\U{3000}'
  }

  predicate IsQuote(c: char) {
    c == '"'
  }

  function Trim(s: string, cut: char -> bool): string
    decreases |s|
  {
    if s == "" then "" else if cut(s[0]) then Trim(s[1..], cut)
    else if cut(s[|s| - 1]) then Trim(s[..|s| - 1], cut) else s
  }

  predicate IsNameChar(c: char) {
    'A' <= c <= 'Z' || '0' <= c <= '9' || c == '_'
  }

  /** `^[^0-9][A-Z0-9_]+=.+$`, for a line without line feeds: '=' is not a name character, so the
      match can only end at the first one after the first character. */
  predicate Matches(line: string) {
    && line != "" && !('0' <= line[0] <= '9')
    && var i := 1 + IndexOf(line[1..], '=');
       2 <= i < |line| - 1 && forall j :: 1 <= j < i ==> IsNameChar(line[j])
  }

  /** The first two parts of strings.Split(line, "="). */
  function Name(line: string): string {
    Trim(line[..IndexOf(line, '=')], IsSpace)
  }

  function Value(line: string): string {
    var i := IndexOf(line, '=');
    if i == |line| then "" else ValuePart(line[i + 1..])
  }

  function ValuePart(rest: string): string {
    Trim(Trim(rest[..IndexOf(rest, '=')], IsSpace), IsQuote)
  }

  /** What os.Setenv accepts; a refusal goes unnoticed. */
  predicate Settable(name: string, value: string) {
    name != "" && '=' !in name && NUL !in name && NUL !in value
  }

  /** What one line sets, if anything. */
  function Assignment(line: string): Option<(string, string)> {
    if line != "" && line[0] != '#' && Matches(line) && Settable(Name(line), Value(line))
    then Some((Name(line), Value(line))) else None
  }

  function Set(env: map<string, string>, line: string): map<string, string> {
    match Assignment(line)
    case None => env
    case Some((name, value)) => env[name := value]
  }

  function DropCR(line: string): string {
    if line != "" && line[|line| - 1] == CR then line[..|line| - 1] else line
  }

  /** The lines the scanner yields. */
  function Scan(file: string): seq<string>
    decreases |file|
  {
    var i := IndexOf(file, LF);
    if file == "" || i > MAX_LINE then []
    else if i == |file| then [DropCR(file)]
    else [DropCR(file[..i])] + Scan(file[i + 1..])
  }

  function SetAll(env: map<string, string>, lines: seq<string>): map<string, string> {
    if lines == [] then env else Set(SetAll(env, lines[..|lines| - 1]), lines[|lines| - 1])
  }

  /** Reads the lines one by one and sets the environment as it goes. */
  method ReadDotenv(file: string, env: map<string, string>) returns (r: map<string, string>)
    ensures r == SetAll(env, Scan(file))
  {
    r := env;
    var lines := Scan(file);
    var i := 0;
    while i < |lines|
      invariant 0 <= i <= |lines| && r == SetAll(env, lines[..i])
    {
      var line := lines[i];
      assert lines[..i + 1][..i] == lines[..i];
      if |line| > 0 && line[0] != '#' && Matches(line) {
        var name, value := Name(line), Value(line);
        if Settable(name, value) {
          r := r[name := value];
        }
      }
      i := i + 1;
    }
    assert lines[..|lines|] == lines;
  }

  predicate Generated(key: string) {
    forall c <- key :: c in CHARSET
  }

  /** Picks `length` characters; the generator's numbers come in as `random`. */
  method StringWithCharset(length: nat, random: nat -> nat) returns (s: string)
    ensures |s| == length && Generated(s)
    ensures forall i :: 0 <= i < length ==> s[i] == CHARSET[random(i) % |CHARSET|]
  {
    var b := new char[length];
    var i := 0;
    while i < length
      invariant 0 <= i <= length
      invariant forall j :: 0 <= j < i ==> b[j] == CHARSET[random(j) % |CHARSET|]
    {
      b[i] := CHARSET[random(i) % |CHARSET|];
      i := i + 1;
    }
    s := b[..];
  }

  function Entry(name: string, key: string): string {
    name + "=" + key + [LF]
  }

  const HASH_KEY := "SIMPLECI_HASH_KEY"
  const BLOCK_KEY := "SIMPLECI_BLOCK_KEY"

  /** The keys a start of the program may use in an environment. */
  predicate KeysFor(env: map<string, string>, hashKey: string, blockKey: string) {
    && (if HASH_KEY in env then hashKey == env[HASH_KEY] else |hashKey| == 32 && Generated(hashKey))
    && if BLOCK_KEY in env then blockKey == env[BLOCK_KEY] else |blockKey| == 24 && Generated(blockKey)
  }

  /** The file after that start. */
  function Stored(file: string, env: map<string, string>, hashKey: string, blockKey: string): string {
    var first := if HASH_KEY in env then file else file + Entry(HASH_KEY, hashKey);
    if BLOCK_KEY in env then first else first + Entry(BLOCK_KEY, blockKey)
  }

  class File {
    var content: string

    constructor (content: string)
      ensures this.content == content
    {
      this.content := content;
    }

    method WriteToDotenv(name: string, value: string)
      modifies this
      ensures content == old(content) + Entry(name, value)
    {
      content := content + (name + "=" + value + "\n");
    }

    /** Takes the keys from the environment; a missing one is generated and written down. */
    method NewKeys(env: map<string, string>, random: nat -> nat, more: nat -> nat)
      returns (hashKey: string, blockKey: string)
      modifies this
      ensures KeysFor(env, hashKey, blockKey)
      ensures content == Stored(old(content), env, hashKey, blockKey)
    {
      if HASH_KEY in env {
        hashKey := env[HASH_KEY];
      } else {
        hashKey := StringWithCharset(32, random);
        WriteToDotenv(HASH_KEY, hashKey);
      }
      if BLOCK_KEY in env {
        blockKey := env[BLOCK_KEY];
      } else {
        blockKey := StringWithCharset(24, more);
        WriteToDotenv(BLOCK_KEY, blockKey);
      }
    }
  }

  /** The expression, read as it is written: one character that is no digit, at least one name
      character, '=', and at least one character. */
  ghost predicate MatchesAt(line: string, i: nat) {
    && 2 <= i < |line| - 1 && line[i] == '=' && !('0' <= line[0] <= '9')
    && forall j :: 1 <= j < i ==> 'A' <= line[j] <= 'Z' || '0' <= line[j] <= '9' || line[j] == '_'
  }

  lemma MatchesTheExpression(line: string)
    ensures Matches(line) <==> exists i: nat :: MatchesAt(line, i)
  {
    if line != "" {
      var i := 1 + IndexOf(line[1..], '=');
      assert Matches(line) ==> MatchesAt(line, i);
      forall k: nat | MatchesAt(line, k) ensures Matches(line) {
        assert forall j :: 1 <= j < k ==> line[1..][j - 1] == line[j];
        IndexIsFirst(line[1..], '=', k - 1);
      }
    }
  }

  /* ---------- one entry ---------- */

  /** An upper-case name of the kind the reader takes: at least two characters, no digit first. */
  predicate IsName(name: string) {
    |name| >= 2 && !('0' <= name[0] <= '9') && forall c <- name :: IsNameChar(c)
  }

  lemma LettersAreLetters(c: char)
    ensures c in LOWER ==> 'a' <= c <= 'z'
    ensures c in UPPER ==> 'A' <= c <= 'Z'
  {
  }

  lemma CharsetIsHarmless(c: char)
    requires c in CHARSET
    ensures !IsSpace(c) && c != '"' && c != '=' && c != LF && c != CR && c != NUL
  {
    LettersAreLetters(c);
    assert c in LOWER || c in UPPER || c in "1234567890" || c in "-_|!/";
  }

  /** The characters a generated key is made of: all of them, and no others. */
  lemma CharsetExactly(c: char)
    ensures c in CHARSET <==>
      (('a' <= c <= 'z' || 'A' <= c <= 'Z' || '0' <= c <= '9')
       || c == '-' || c == '_' || c == '|' || c == '!' || c == '/')
  {
    assert c in CHARSET <==> c in LOWER || c in UPPER || c in "1234567890" || c in "-_|!/";
    EveryLetter(c);
  }

  lemma EveryLetter(c: char)
    ensures c in LOWER <==> 'a' <= c <= 'z'
    ensures c in UPPER <==> 'A' <= c <= 'Z'
    ensures c in "1234567890" <==> '0' <= c <= '9'
  {
  }

  lemma TrimKeeps(s: string, cut: char -> bool)
    requires forall c <- s :: !cut(c)
    ensures Trim(s, cut) == s
  {
    if s != "" {
      assert s[0] in s && s[|s| - 1] in s;
    }
  }

  lemma {:induction false} TrimAfterSpaces(tail: string, name: string)
    requires name != "" && forall c <- name :: !IsSpace(c)
    ensures (forall c <- tail :: IsSpace(c)) ==> Trim(tail + name, IsSpace) == name
    ensures !(forall c <- tail :: IsSpace(c)) ==> |Trim(tail + name, IsSpace)| > |name|
    decreases |tail|
  {
    var s := tail + name;
    assert s[|s| - 1] == name[|name| - 1] && name[|name| - 1] in name;
    if tail == "" {
      assert s == name;
      TrimKeeps(name, IsSpace);
    } else if IsSpace(tail[0]) {
      TrimAfterSpaces(tail[1..], name);
      assert s[1..] == tail[1..] + name && tail == [tail[0]] + tail[1..];
    } else {
      assert tail[0] in tail;
    }
  }

  /** The line that appending an entry to a file completes, when the file ends with `tail`. */
  function EntryLine(tail: string, name: string, key: string): string {
    tail + name + "=" + key
  }

  lemma NamesHaveNoEquals(name: string)
    requires IsName(name)
    ensures '=' !in name && LF !in name && NUL !in name
  {
  }

  lemma IndexInHead(head: string, rest: string, ch: char)
    requires rest != "" && rest[0] == ch
    ensures IndexOf(head + rest, ch) == IndexOf(head, ch)
  {
    var i := IndexOf(head, ch);
    assert (head + rest)[..i] == head[..i];
    IndexIsFirst(head + rest, ch, i);
  }

  lemma EntryLineParts(tail: string, name: string, key: string)
    requires '=' !in tail && '=' !in name
    ensures var line, i := EntryLine(tail, name, key), |tail| + |name|;
      i < |line| && IndexOf(line, '=') == i && line[..i] == tail + name && line[i + 1..] == key
  {
    var line, i := EntryLine(tail, name, key), |tail| + |name|;
    assert line[..i] == tail + name && line[i + 1..] == key && line[i] == '=';
    assert '=' !in line[..i];
    IndexIsFirst(line, '=', i);
  }

  lemma NoneToSplit(key: string)
    requires '=' !in key
    ensures key[..IndexOf(key, '=')] == key
  {
    assert IndexOf(key, '=') == |key|;
  }

  lemma KeyIsHarmless(key: string)
    requires Generated(key)
    ensures forall c <- key :: !IsSpace(c) && c != '"' && c != '=' && c != LF && c != CR && c != NUL
  {
    forall c | c in key {
      CharsetIsHarmless(c);
    }
  }

  /** An empty tail, or a single space, which the reader takes for the name's first character and
      then trims away. */
  predicate SafeTail(tail: string) {
    tail == "" || (|tail| == 1 && IsSpace(tail[0]))
  }

  lemma KeyIsTrimmed(key: string)
    requires Generated(key)
    ensures ValuePart(key) == key
  {
    KeyIsHarmless(key);
    NoneToSplit(key);
    TrimKeeps(key, IsSpace);
    TrimKeeps(key, IsQuote);
  }

  lemma ValueIsKey(tail: string, name: string, key: string)
    requires '=' !in name && '=' !in tail && Generated(key)
    ensures Value(EntryLine(tail, name, key)) == key
    ensures Name(EntryLine(tail, name, key)) == Trim(tail + name, IsSpace)
  {
    hide Trim, IsSpace, ValuePart, Generated, EntryLine, IndexOf;
    KeyIsTrimmed(key);
    EntryLineParts(tail, name, key);
  }

  /** Whether a line matches is settled before the last character of its text. */
  predicate HeadMatches(head: string)
    requires head != ""
  {
    && !('0' <= head[0] <= '9')
    && var i := 1 + IndexOf(head[1..], '=');
       2 <= i && forall j :: 1 <= j < i ==> IsNameChar(head[j])
  }

  lemma MatchesByHead(tail: string, name: string, key: string)
    requires tail + name != "" && key != ""
    ensures var line := EntryLine(tail, name, key);
      line != "" && line[0] == (tail + name)[0] && (Matches(line) <==> HeadMatches(tail + name))
  {
    var line, head := EntryLine(tail, name, key), tail + name;
    assert line == head + ("=" + key) && line[1..] == head[1..] + ("=" + key);
    IndexInHead(head[1..], "=" + key, '=');
    assert forall j :: 0 <= j < |head| ==> line[j] == head[j];
  }

  lemma SafeHeadMatches(tail: string, name: string)
    requires IsName(name) && SafeTail(tail)
    ensures (tail + name)[0] != '#' && HeadMatches(tail + name)
  {
    var head := tail + name;
    NamesHaveNoEquals(name);
    assert forall j :: 0 <= j < |name| ==> name[j] in name && head[|tail| + j] == name[j];
    assert head[1..] == if tail == "" then name[1..] else name;
  }

  lemma KeyIsSettable(name: string, key: string)
    requires IsName(name) && Generated(key)
    ensures Settable(name, key)
  {
    NamesHaveNoEquals(name);
    KeyIsHarmless(key);
  }

  lemma SafeLine(tail: string, name: string, key: string)
    requires IsName(name) && Generated(key) && key != "" && SafeTail(tail)
    ensures Assignment(EntryLine(tail, name, key)) == Some((name, key))
  {
    hide Matches, HeadMatches, Name, Value, Trim, IndexOf, Generated, Settable;
    SafeHeadMatches(tail, name);
    MatchesByHead(tail, name, key);
    NamesHaveNoEquals(name);
    ValueIsKey(tail, name, key);
    NamesHaveNoSpace(name);
    TrimAfterSpaces(tail, name);
    KeyIsSettable(name, key);
  }

  lemma NamesHaveNoSpace(name: string)
    requires forall c <- name :: IsNameChar(c)
    ensures forall c <- name :: !IsSpace(c)
  {
  }

  /** What a name is set to, if it is. */
  function Lookup(env: map<string, string>, name: string): Option<string> {
    if name in env then Some(env[name]) else None
  }

  /* ---------- what a line sets ---------- */

  /** Neither white space nor a quote. */
  predicate IsInk(c: char) {
    !IsSpace(c) && c != '"'
  }

  /** A text whose first and last characters are neither white space nor quotes. */
  predicate IsBare(text: string) {
    text != "" && IsInk(text[0]) && IsInk(text[|text| - 1])
  }

  lemma {:induction false} TrimAround(before: string, s: string, after: string, cut: char -> bool)
    requires s == "" || (!cut(s[0]) && !cut(s[|s| - 1]))
    requires (forall c <- before :: cut(c)) && (forall c <- after :: cut(c))
    ensures Trim(before + s + after, cut) == s
    decreases |before| + |after|
  {
    var all := before + s + after;
    if before != "" {
      assert before[0] in before && all[0] == before[0] && all[1..] == before[1..] + s + after;
      TrimAround(before[1..], s, after, cut);
    } else if s == "" {
      assert all == after;
      TrimAll(after, cut);
    } else if after != "" {
      assert after[|after| - 1] in after && all[|all| - 1] == after[|after| - 1];
      assert all[..|all| - 1] == before + s + after[..|after| - 1] && all[0] == s[0];
      TrimAround(before, s, after[..|after| - 1], cut);
    } else {
      assert all == s;
    }
  }

  lemma {:induction false} TrimAll(s: string, cut: char -> bool)
    requires forall c <- s :: cut(c)
    ensures Trim(s, cut) == ""
    decreases |s|
  {
    if s != "" {
      assert s[0] in s;
      TrimAll(s[1..], cut);
    }
  }

  /** The value of `before quotes text quotes after`: what stands between the quotes. */
  lemma PartIs(before: string, quotes: string, text: string, more: string, after: string)
    requires (forall c <- before + after :: IsSpace(c)) && (forall c <- quotes + more :: c == '"')
    requires text == "" || (text[0] != '"' && text[|text| - 1] != '"')
    requires var middle := quotes + text + more; middle == "" || (!IsSpace(middle[0]) && !IsSpace(middle[|middle| - 1]))
    requires '=' !in text
    ensures ValuePart(before + (quotes + text + more) + after) == text
  {
    var middle := quotes + text + more;
    var rest := before + middle + after;
    forall c | c in before || c in after
      ensures c in before + after
    {
    }
    forall c | c in quotes || c in more
      ensures c in quotes + more
    {
    }
    assert '=' !in rest;
    NoneToSplit(rest);
    TrimAround(before, middle, after, IsSpace);
    TrimAround(quotes, text, more, IsQuote);
  }

  lemma LineSets(name: string, rest: string, value: string)
    requires IsName(name) && rest != "" && ValuePart(rest) == value && NUL !in value
    ensures Assignment(name + "=" + rest) == Some((name, value))
  {
    hide ValuePart, Trim, IsSpace;
    NamesHaveNoEquals(name);
    var line := name + "=" + rest;
    assert line == EntryLine("", name, rest);
    SafeHeadMatches("", name);
    MatchesByHead("", name, rest);
    assert "" + name == name;
    SplitAfterName(name, rest);
    NamesHaveNoSpace(name);
    TrimKeeps(name, IsSpace);
  }

  lemma SplitAfterName(name: string, rest: string)
    requires '=' !in name
    ensures var line := name + "=" + rest;
      IndexOf(line, '=') == |name| && |name| < |line| && line[..|name|] == name && line[|name| + 1..] == rest
  {
    var line := name + "=" + rest;
    assert line[..|name|] == name && line[|name| + 1..] == rest && line[|name|] == '=';
    IndexIsFirst(line, '=', |name|);
  }

  /** NAME=text and NAME="text", with white space around the value or not: in each case the name is set
      to the text. Between quotes it may begin and end with white space, or be empty. */
  lemma PlainValue(name: string, before: string, text: string, after: string)
    requires IsName(name) && (forall c <- before + after :: IsSpace(c))
    requires IsBare(text) && '=' !in text && NUL !in text
    ensures Assignment(name + "=" + (before + text + after)) == Some((name, text))
  {
    assert "" + text + "" == text;
    PartIs(before, "", text, "", after);
    LineSets(name, before + text + after, text);
  }

  lemma QuotedValue(name: string, before: string, text: string, after: string)
    requires IsName(name) && (forall c <- before + after :: IsSpace(c))
    requires '"' !in text && '=' !in text && NUL !in text
    ensures Assignment(name + "=" + (before + ("\"" + text + "\"") + after)) == Some((name, text))
  {
    PartIs(before, "\"", text, "\"", after);
    LineSets(name, before + ("\"" + text + "\"") + after, text);
  }

  /** What follows a second '=' is dropped. */
  lemma SecondEquals(name: string, text: string, dropped: string)
    requires IsName(name) && IsBare(text) && '=' !in text && NUL !in text
    ensures Assignment(name + "=" + (text + ("=" + dropped))) == Some((name, text))
  {
    PartBeforeEquals(text, dropped);
    assert "" + text + "" == text;
    PartIs("", "", text, "", "");
    LineSets(name, text + ("=" + dropped), text);
  }

  /** Lines that set nothing: empty ones, comments, and those that begin with a digit or hold no '='. */
  lemma IgnoredLine(line: string)
    requires line == "" || line[0] == '#' || '0' <= line[0] <= '9' || '=' !in line
    ensures Assignment(line) == None
  {
    if line != "" && '=' !in line {
      assert IndexOf(line[1..], '=') == |line| - 1 by { NoneAfterFirst(line); }
    }
  }

  /** What the operating system refuses sets nothing either: an empty name, and a NUL in the value. */
  lemma RefusedLine(name: string, text: string, rest: string)
    requires IsName(name)
    ensures Assignment("=" + name + "=" + rest) == None
    ensures IsBare(text) && '=' !in text && NUL in text ==> Assignment(name + "=" + text) == None
  {
    EmptyName(name + "=" + rest);
    assert "=" + name + "=" + rest == "=" + (name + "=" + rest);
    if IsBare(text) && '=' !in text && NUL in text {
      assert "" + text + "" == text;
      PartIs("", "", text, "", "");
      NamesHaveNoEquals(name);
      SplitAfterName(name, text);
    }
  }

  lemma EmptyName(rest: string)
    ensures Name("=" + rest) == ""
  {
    var line := "=" + rest;
    assert line[..0] == "";
    IndexIsFirst(line, '=', 0);
  }

  lemma NoneAfterFirst(line: string)
    requires line != "" && '=' !in line
    ensures IndexOf(line[1..], '=') == |line| - 1
  {
    assert forall c <- line[1..] :: c in line;
  }

  lemma OnlyLine(line: string)
    requires LF !in line && |line| <= 65535
    ensures Scan(line + [LF]) == [DropCR(line)]
  {
    hide Scan, FullLines, LastLine, Fits, DropCR;
    FinishLine(line);
    ScanFullLines(line + [LF]);
    assert [DropCR(line)] + [] == [DropCR(line)];
  }

  /** A carriage return before the line feed is no part of a line. */
  lemma LineEndsAreAlike(line: string)
    requires LF !in line && CR !in line && |line| < 65535
    ensures Scan(line + [CR, LF]) == [line] && Scan(line + [LF]) == [line]
  {
    hide Scan;
    var crlf := line + [CR];
    assert line + [CR, LF] == crlf + [LF];
    OnlyLine(crlf);
    OnlyLine(line);
    assert crlf[..|line|] == line;
  }

  /** The longest line that is read. */
  lemma LineLimit(line: string)
    requires LF !in line
    ensures Scan(line + [LF]) == [] <==> |line| > 65535
  {
    FinishLine(line);
    if |line| > 65535 {
      TooLongALine(line);
    } else {
      ScanFullLines(line + [LF]);
    }
  }

  /* ---------- the other tails: the entry is lost, whatever its key ---------- */

  lemma IndexInLonger(s: string, more: string, ch: char)
    requires ch in s
    ensures IndexOf(s, ch) < |s| && IndexOf(s + more, ch) == IndexOf(s, ch)
  {
    var i := IndexOf(s, ch);
    assert (s + more)[..i] == s[..i];
    IndexIsFirst(s + more, ch, i);
  }

  lemma SplitInTail(tail: string, name: string, key: string)
    requires '=' in tail
    ensures var line, i := EntryLine(tail, name, key), IndexOf(tail, '=');
      i < |tail| && i < |line| && IndexOf(line, '=') == i
      && line[..i] == tail[..i] && line[i + 1..] == tail[i + 1..] + name + ("=" + key)
  {
    hide IndexOf;
    assert EntryLine(tail, name, key) == tail + (name + "=" + key);
    IndexInLonger(tail, name + "=" + key, '=');
  }

  lemma PartBeforeEquals(rest: string, key: string)
    ensures ValuePart(rest + ("=" + key)) == ValuePart(rest)
  {
    hide Trim, IsSpace, IsQuote;
    IndexInHead(rest, "=" + key, '=');
    var k := IndexOf(rest, '=');
    assert (rest + ("=" + key))[..k] == rest[..k];
  }

  /** With an '=' in the tail neither the name nor the value depends on the key. */
  lemma ByTail(tail: string, name: string, key: string)
    requires '=' in tail
    ensures IndexOf(tail, '=') < |tail|
    ensures Name(EntryLine(tail, name, key)) == Trim(tail[..IndexOf(tail, '=')], IsSpace)
    ensures Value(EntryLine(tail, name, key)) == ValuePart(tail[IndexOf(tail, '=') + 1..] + name)
  {
    hide Trim, IsSpace, ValuePart, IndexOf, EntryLine;
    SplitInTail(tail, name, key);
    PartBeforeEquals(tail[IndexOf(tail, '=') + 1..] + name, key);
  }

  lemma SpacesDoNotMatch(tail: string, name: string)
    requires |tail| >= 2 && IsSpace(tail[1])
    ensures !HeadMatches(tail + name)
  {
    var head := tail + name;
    assert head[1] == tail[1] && head[1..][0] == head[1];
  }

  lemma OtherName(tail: string, name: string, key: string)
    requires IsName(name) && '=' !in tail && Generated(key) && !(forall c <- tail :: IsSpace(c))
    ensures Name(EntryLine(tail, name, key)) != name
  {
    NamesHaveNoEquals(name);
    ValueIsKey(tail, name, key);
    NamesHaveNoSpace(name);
    TrimAfterSpaces(tail, name);
  }

  lemma UnsafeTail(env: map<string, string>, tail: string, name: string, key: string, other: string)
    requires IsName(name) && Generated(key) && key != "" && Generated(other) && other != ""
    requires !SafeTail(tail)
    ensures Lookup(Set(env, EntryLine(tail, name, key)), name)
         == Lookup(Set(env, EntryLine(tail, name, other)), name)
  {
    hide Matches, HeadMatches, Name, Value, ValuePart, Settable, Trim, IndexOf, Generated, IsSpace, EntryLine;
    MatchesByHead(tail, name, key);
    MatchesByHead(tail, name, other);
    if '=' in tail {
      ByTail(tail, name, key);
      ByTail(tail, name, other);
    } else if forall c <- tail :: IsSpace(c) {
      assert tail[0] in tail && tail[|tail| - 1] in tail && |tail| >= 2;
      assert tail[1] in tail;
      SpacesDoNotMatch(tail, name);
    } else {
      OtherName(tail, name, key);
      OtherName(tail, name, other);
    }
  }

  /** Unless the unfinished line assigns to the same name, that name keeps what it had. */
  lemma UnsafeTailKeeps(env: map<string, string>, tail: string, name: string, key: string)
    requires IsName(name) && Generated(key) && key != "" && !SafeTail(tail)
    requires '=' in tail ==> Name(tail) != name
    ensures Lookup(Set(env, EntryLine(tail, name, key)), name) == Lookup(env, name)
  {
    hide Matches, HeadMatches, Value, ValuePart, Settable, Trim, IndexOf, Generated, IsSpace, EntryLine;
    MatchesByHead(tail, name, key);
    if '=' in tail {
      ByTail(tail, name, key);
    } else if forall c <- tail :: IsSpace(c) {
      assert tail[0] in tail && tail[|tail| - 1] in tail && |tail| >= 2;
      assert tail[1] in tail;
      SpacesDoNotMatch(tail, name);
    } else {
      OtherName(tail, name, key);
    }
  }

  /* ---------- whole files ---------- */

  function LastLine(file: string): string
    decreases |file|
  {
    var i := IndexOf(file, LF);
    if i == |file| then file else LastLine(file[i + 1..])
  }

  function FullLines(file: string): seq<string>
    decreases |file|
  {
    var i := IndexOf(file, LF);
    if i == |file| then [] else [DropCR(file[..i])] + FullLines(file[i + 1..])
  }

  predicate Fits(file: string)
    decreases |file|
  {
    var i := IndexOf(file, LF);
    i < |file| ==> i <= MAX_LINE && Fits(file[i + 1..])
  }

  lemma {:induction false} ScanFullLines(file: string)
    requires Fits(file)
    ensures Scan(file) == FullLines(file)
      + if LastLine(file) == "" || |LastLine(file)| > MAX_LINE then [] else [DropCR(LastLine(file))]
    decreases |file|
  {
    var i := IndexOf(file, LF);
    if i < |file| {
      ScanFullLines(file[i + 1..]);
    }
  }

  lemma SplitFirst(file: string, text: string)
    requires LF in file
    ensures var i := IndexOf(file, LF);
      i < |file| && IndexOf(file + text, LF) == i
      && (file + text)[..i] == file[..i] && (file + text)[i + 1..] == file[i + 1..] + text
  {
    IndexInLonger(file, text, LF);
  }

  lemma FinishLine(line: string)
    requires LF !in line
    ensures FullLines(line + [LF]) == [DropCR(line)] && LastLine(line + [LF]) == ""
    ensures Fits(line + [LF]) <==> |line| <= MAX_LINE
    ensures LastLine(line) == line && FullLines(line) == [] && Fits(line)
  {
    hide DropCR;
    var all := line + [LF];
    assert all[..|line|] == line && all[|line| + 1..] == "";
    IndexIsFirst(all, LF, |line|);
    assert IndexOf(line, LF) == |line|;
  }

  /** Completing the last line of a file. */
  lemma {:induction false} AppendLine(file: string, text: string)
    requires LF !in text
    ensures var all, line := file + (text + [LF]), LastLine(file) + text;
      && FullLines(all) == FullLines(file) + [DropCR(line)] && LastLine(all) == ""
      && (Fits(all) <==> Fits(file) && |line| <= MAX_LINE)
    decreases |file|
  {
    hide DropCR, IndexOf;
    if LF in file {
      SplitFirst(file, text + [LF]);
      AppendLine(file[IndexOf(file, LF) + 1..], text);
    } else {
      FinishLine(file);
      FinishLine(file + text);
      assert file + (text + [LF]) == (file + text) + [LF];
    }
  }

  /** Nothing is read from the first too long line on. */
  lemma {:induction false} LongLineHidesTheRest(file: string, text: string)
    requires !Fits(file)
    ensures Scan(file + text) == Scan(file) && !Fits(file + text)
    decreases |file|
  {
    hide DropCR, IndexOf;
    var i := IndexOf(file, LF);
    SplitFirst(file, text);
    if i <= MAX_LINE {
      LongLineHidesTheRest(file[i + 1..], text);
    }
  }

  lemma ScanFirst(file: string, text: string)
    requires LF in file && Fits(file)
    ensures var i := IndexOf(file, LF);
      i < |file| && Scan(file + text) == [DropCR(file[..i])] + Scan(file[i + 1..] + text)
  {
    hide DropCR, IndexOf;
    SplitFirst(file, text);
  }

  /** What is read does not depend on the text of a last line that is too long. */
  lemma {:induction false} TooLongAnEntry(file: string, text: string)
    requires Fits(file) && LF !in text && |LastLine(file) + text| > MAX_LINE
    ensures Scan(file + (text + [LF])) == FullLines(file)
    decreases |file|
  {
    hide DropCR, IndexOf, Scan;
    if LF in file {
      ScanFirst(file, text + [LF]);
      TooLongAnEntry(file[IndexOf(file, LF) + 1..], text);
    } else {
      FinishLine(file);
      TooLongALine(file + text);
      assert file + (text + [LF]) == (file + text) + [LF];
    }
  }

  lemma TooLongALine(line: string)
    requires LF !in line && |line| > MAX_LINE
    ensures Scan(line + [LF]) == []
  {
    assert (line + [LF])[..|line|] == line;
    IndexIsFirst(line + [LF], LF, |line|);
  }

  lemma SetAllStep(env: map<string, string>, lines: seq<string>, line: string)
    ensures SetAll(env, lines + [line]) == Set(SetAll(env, lines), line)
  {
    assert (lines + [line])[..|lines|] == lines;
  }

  lemma KeyEndsTheLine(before: string, key: string)
    requires Generated(key) && key != ""
    ensures DropCR(before + key) == before + key
  {
    KeyIsHarmless(key);
    assert (before + key)[|before + key| - 1] == key[|key| - 1] && key[|key| - 1] in key;
  }

  lemma EntryText(file: string, name: string, key: string)
    requires IsName(name) && Generated(key) && key != ""
    ensures Entry(name, key) == (name + "=" + key) + [LF] && LF !in name + "=" + key
    ensures DropCR(LastLine(file) + (name + "=" + key)) == EntryLine(LastLine(file), name, key)
  {
    hide LastLine, DropCR;
    assert LF !in name + "=" + key by {
      NamesHaveNoEquals(name);
      KeyIsHarmless(key);
    }
    hide IsName, Generated;
    KeyEndsTheLine(LastLine(file) + name + "=", key);
    assert LastLine(file) + (name + "=" + key) == LastLine(file) + name + "=" + key;
  }

  /** Reading a file back after one append, when every line is short enough. */
  lemma AppendEntry(env: map<string, string>, file: string, name: string, key: string)
    requires IsName(name) && Generated(key) && key != ""
    requires Fits(file) && |LastLine(file)| + |name| + 1 + |key| <= MAX_LINE
    ensures var all := file + Entry(name, key);
      && Fits(all) && LastLine(all) == ""
      && SetAll(env, Scan(all)) == Set(SetAll(env, FullLines(file)), EntryLine(LastLine(file), name, key))
  {
    hide IsName, Generated, Entry, EntryLine, Set, Fits, LastLine, FullLines, Scan, SetAll, DropCR;
    var all := file + Entry(name, key);
    EntryText(file, name, key);
    AppendLine(file, name + "=" + key);
    ScanFullLines(all);
    assert FullLines(all) + [] == FullLines(all);
    SetAllStep(env, FullLines(file), EntryLine(LastLine(file), name, key));
  }

  predicate Writable(entry: (string, string)) {
    IsName(entry.0) && Generated(entry.1) && entry.1 != "" && |entry.0| + 1 + |entry.1| <= MAX_LINE
  }

  function Entries(entries: seq<(string, string)>): string {
    if entries == [] then "" else
      var n := |entries| - 1;
      Entries(entries[..n]) + Entry(entries[n].0, entries[n].1)
  }

  /** The environment after a sequence of assignments. */
  function Assigned(env: map<string, string>, entries: seq<(string, string)>): map<string, string> {
    if entries == [] then env else
      var n := |entries| - 1;
      Assigned(env, entries[..n])[entries[n].0 := entries[n].1]
  }

  lemma SetToKey(env: map<string, string>, tail: string, name: string, key: string)
    requires IsName(name) && Generated(key) && key != "" && SafeTail(tail)
    ensures Set(env, EntryLine(tail, name, key)) == env[name := key]
  {
    hide IsName, Generated, Assignment, EntryLine;
    SafeLine(tail, name, key);
  }

  lemma SafeTailSetsNothing(env: map<string, string>, tail: string)
    requires SafeTail(tail)
    ensures Set(env, DropCR(tail)) == env
  {
  }

  lemma SafeTailIsSkipped(env: map<string, string>, file: string)
    requires Fits(file) && SafeTail(LastLine(file))
    ensures SetAll(env, Scan(file)) == SetAll(env, FullLines(file))
  {
    hide Fits, LastLine, Scan, SetAll, Set, FullLines, DropCR;
    ScanFullLines(file);
    assert FullLines(file) + [] == FullLines(file);
    SetAllStep(env, FullLines(file), DropCR(LastLine(file)));
    SafeTailSetsNothing(SetAll(env, FullLines(file)), LastLine(file));
  }

  predicate GoodFile(file: string, name: string, length: nat) {
    Fits(file) && SafeTail(LastLine(file)) && |LastLine(file)| + |name| + 1 + length <= MAX_LINE
  }

  lemma OneEntry(env: map<string, string>, file: string, name: string, key: string)
    requires IsName(name) && Generated(key) && key != "" && GoodFile(file, name, |key|)
    ensures var all := file + Entry(name, key);
      && Fits(all) && LastLine(all) == ""
      && SetAll(env, Scan(all)) == SetAll(env, Scan(file))[name := key]
  {
    hide IsName, Generated, Entry, EntryLine, Fits, LastLine, SetAll, Scan, Set, SafeTail, FullLines;
    AppendEntry(env, file, name, key);
    SafeTailIsSkipped(env, file);
    SetToKey(SetAll(env, FullLines(file)), LastLine(file), name, key);
  }

  lemma {:induction false} EntriesAreSet(env: map<string, string>, file: string, entries: seq<(string, string)>)
    requires Fits(file) && LastLine(file) == "" && forall e <- entries :: Writable(e)
    ensures var all := file + Entries(entries);
      && Fits(all) && LastLine(all) == ""
      && SetAll(env, Scan(all)) == Assigned(SetAll(env, Scan(file)), entries)
  {
    hide Fits, LastLine, Scan, SetAll, Entry, Set, EntryLine;
    if entries == [] {
      assert file + "" == file;
    } else {
      var n := |entries| - 1;
      var (name, key) := entries[n];
      var before := file + Entries(entries[..n]);
      EntriesAreSet(env, file, entries[..n]);
      assert file + Entries(entries) == before + Entry(name, key);
      assert Writable(entries[n]);
      OneEntry(env, before, name, key);
    }
  }

  /** Entry k is the last one under its name. */
  ghost predicate IsLast(entries: seq<(string, string)>, k: nat) {
    k < |entries| && forall j :: k < j < |entries| ==> entries[j].0 != entries[k].0
  }

  /** The last value written for a name is the one that is set. */
  lemma {:induction false} LastWriteWins(env: map<string, string>, entries: seq<(string, string)>, k: nat)
    requires IsLast(entries, k)
    ensures Lookup(Assigned(env, entries), entries[k].0) == Some(entries[k].1)
  {
    var n := |entries| - 1;
    if k < n {
      var before := entries[..n];
      assert forall j :: 0 <= j < n ==> before[j] == entries[j];
      LastWriteWins(env, before, k);
      assert entries[n].0 != entries[k].0;
    }
  }

  lemma {:induction false} OthersAreKept(env: map<string, string>, entries: seq<(string, string)>, name: string)
    requires forall e <- entries :: e.0 != name
    ensures Lookup(Assigned(env, entries), name) == Lookup(env, name)
  {
    if entries != [] {
      var n := |entries| - 1;
      assert entries[n] in entries;
      OthersAreKept(env, entries[..n], name);
    }
  }

  /** Appending generated keys to a file that is empty or ends with a line feed and reading it
      sets each name to the value last written for it, and changes nothing else. */
  lemma RoundTrip(env: map<string, string>, file: string, entries: seq<(string, string)>)
    requires Fits(file) && LastLine(file) == "" && forall e <- entries :: Writable(e)
    ensures var before, after := SetAll(env, Scan(file)), SetAll(env, Scan(file + Entries(entries)));
      && (forall k: nat :: IsLast(entries, k) ==> Lookup(after, entries[k].0) == Some(entries[k].1))
      && (forall name :: (forall e <- entries :: e.0 != name) ==> Lookup(after, name) == Lookup(before, name))
  {
    hide Fits, LastLine, Scan, SetAll, Entries, Assigned, Lookup;
    EntriesAreSet(env, file, entries);
    forall k: nat | IsLast(entries, k)
      ensures Lookup(SetAll(env, Scan(file + Entries(entries))), entries[k].0) == Some(entries[k].1)
    {
      LastWriteWins(SetAll(env, Scan(file)), entries, k);
    }
    forall name | forall e <- entries :: e.0 != name
      ensures Lookup(SetAll(env, Scan(file + Entries(entries))), name) == Lookup(SetAll(env, Scan(file)), name)
    {
      OthersAreKept(SetAll(env, Scan(file)), entries, name);
    }
  }

  /* ---------- exactly when a generated key is read back ---------- */

  predicate ReadsBack(env: map<string, string>, file: string, name: string, key: string) {
    Lookup(SetAll(env, Scan(file + Entry(name, key))), name) == Some(key)
  }

  lemma GoodFileReadsBack(env: map<string, string>, file: string, name: string, key: string)
    requires IsName(name) && Generated(key) && key != "" && GoodFile(file, name, |key|)
    ensures ReadsBack(env, file, name, key)
  {
    hide IsName, Generated, Entry, GoodFile, SetAll, Scan;
    OneEntry(env, file, name, key);
  }

  lemma BadFileForgets(env: map<string, string>, file: string, name: string, key: string, other: string)
    requires IsName(name) && key != "" && |other| == |key| && Generated(key) && Generated(other)
    requires !GoodFile(file, name, |key|)
    ensures Lookup(SetAll(env, Scan(file + Entry(name, key))), name)
         == Lookup(SetAll(env, Scan(file + Entry(name, other))), name)
  {
    hide IsName, Generated, Entry, EntryLine, Fits, LastLine, SetAll, Scan, Set, SafeTail, FullLines, Lookup, DropCR;
    if !Fits(file) {
      LongLineHidesTheRest(file, Entry(name, key));
      LongLineHidesTheRest(file, Entry(name, other));
    } else if |LastLine(file)| + |name| + 1 + |key| > MAX_LINE {
      EntryText(file, name, key);
      EntryText(file, name, other);
      TooLongAnEntry(file, name + "=" + key);
      TooLongAnEntry(file, name + "=" + other);
    } else {
      AppendEntry(env, file, name, key);
      AppendEntry(env, file, name, other);
      UnsafeTail(SetAll(env, FullLines(file)), LastLine(file), name, key, other);
    }
  }

  function Repeat(c: char, n: nat): (s: string)
    ensures |s| == n && forall d <- s :: d == c
  {
    if n == 0 then "" else [c] + Repeat(c, n - 1)
  }

  lemma TwoKeys(n: nat)
    requires n > 0
    ensures Generated(Repeat('q', n)) && Generated(Repeat('w', n)) && Repeat('q', n) != Repeat('w', n)
  {
    var key, other := Repeat('q', n), Repeat('w', n);
    assert key[0] in key && other[0] in other;
    assert 'q' in CHARSET && 'w' in CHARSET;
  }

  /** Every key of a length is read back if and only if no line before it is too long, the file's
      last, unfinished line is empty or one space, and the line the entry completes fits. */
  lemma ReadBackExactly(env: map<string, string>, file: string, name: string, length: nat)
    requires IsName(name) && length > 0
    ensures (forall key :: |key| == length && Generated(key) ==> ReadsBack(env, file, name, key))
       <==> GoodFile(file, name, length)
  {
    hide IsName, GoodFile, SetAll, Scan, Entry, Lookup;
    if GoodFile(file, name, length) {
      forall key | |key| == length && Generated(key) ensures ReadsBack(env, file, name, key) {
        GoodFileReadsBack(env, file, name, key);
      }
    } else {
      TwoKeys(length);
      var key, other := Repeat('q', length), Repeat('w', length);
      BadFileForgets(env, file, name, key, other);
      assert !ReadsBack(env, file, name, key) || !ReadsBack(env, file, name, other);
    }
  }

  /** A file whose last line is unfinished swallows the key: afterwards its name has only the value
      it had before. The exception is an unfinished line that assigns to the same name. */
  lemma UnfinishedLineSwallowsTheKey(env: map<string, string>, file: string, name: string, key: string)
    requires IsName(name) && Generated(key) && key != ""
    requires Fits(file) && !SafeTail(LastLine(file))
    requires '=' in LastLine(file) ==> Name(LastLine(file)) != name
    ensures ReadsBack(env, file, name, key) <==> Lookup(SetAll(env, FullLines(file)), name) == Some(key)
  {
    hide IsName, Generated, Entry, EntryLine, Fits, LastLine, SetAll, Scan, Set, SafeTail, FullLines, Lookup,
      Name, DropCR;
    if |LastLine(file)| + |name| + 1 + |key| > MAX_LINE {
      EntryText(file, name, key);
      TooLongAnEntry(file, name + "=" + key);
    } else {
      AppendEntry(env, file, name, key);
      UnsafeTailKeeps(SetAll(env, FullLines(file)), LastLine(file), name, key);
    }
  }

  /** Such a file: any key under any other name is lost, unless the environment holds it anyway. */
  lemma DebugLineSwallowsTheKey(env: map<string, string>, name: string, key: string)
    requires IsName(name) && Generated(key) && key != "" && name != "DEBUG"
    ensures ReadsBack(env, "DEBUG=1", name, key) <==> Lookup(env, name) == Some(key)
  {
    hide Fits, LastLine, IsName, ReadsBack, FullLines, Generated, Lookup;
    var line := "DEBUG=1";
    FinishLine(line);
    IndexIsFirst(line, '=', 5);
    assert line[..5] == "DEBUG";
    TrimKeeps("DEBUG", IsSpace);
    UnfinishedLineSwallowsTheKey(env, line, name, key);
  }

  /* ---------- the keys of the program ---------- */

  /** After a start that used these keys, the environment of the next one holds them. */
  predicate Survive(os: map<string, string>, file: string, hashKey: string, blockKey: string) {
    var next := SetAll(os, Scan(Stored(file, SetAll(os, Scan(file)), hashKey, blockKey)));
    Lookup(next, HASH_KEY) == Some(hashKey) && Lookup(next, BLOCK_KEY) == Some(blockKey)
  }

  lemma NamesOfTheKeys()
    ensures IsName(HASH_KEY) && IsName(BLOCK_KEY)
  {
  }

  lemma KeysSurvive(os: map<string, string>, file: string, hashKey: string, blockKey: string)
    requires var env := SetAll(os, Scan(file));
      (HASH_KEY in env && BLOCK_KEY in env) || (Fits(file) && SafeTail(LastLine(file)))
    requires KeysFor(SetAll(os, Scan(file)), hashKey, blockKey)
    ensures Survive(os, file, hashKey, blockKey)
  {
    NamesOfTheKeys();
    hide SetAll, Scan, Fits, LastLine, Generated, IsName, Entry;
    var env := SetAll(os, Scan(file));
    var first := file;
    if HASH_KEY !in env {
      OneEntry(os, file, HASH_KEY, hashKey);
      first := file + Entry(HASH_KEY, hashKey);
    }
    if BLOCK_KEY !in env {
      OneEntry(os, first, BLOCK_KEY, blockKey);
    }
  }

  /** The entry of the second key has no effect on the first. */
  lemma SecondEntry(os: map<string, string>, file: string, hashKey: string, blockKey: string)
    requires Generated(hashKey) && |hashKey| == 32 && Generated(blockKey) && |blockKey| == 24
    ensures var first := file + Entry(HASH_KEY, hashKey);
      Lookup(SetAll(os, Scan(first + Entry(BLOCK_KEY, blockKey))), HASH_KEY)
        == Lookup(SetAll(os, Scan(first)), HASH_KEY)
  {
    NamesOfTheKeys();
    hide SetAll, Scan, Fits, LastLine, Generated, IsName, Entry, DropCR, FullLines;
    var first := file + Entry(HASH_KEY, hashKey);
    EntryText(file, HASH_KEY, hashKey);
    AppendLine(file, HASH_KEY + "=" + hashKey);
    if Fits(first) {
      OneEntry(os, first, BLOCK_KEY, blockKey);
    } else {
      LongLineHidesTheRest(first, Entry(BLOCK_KEY, blockKey));
    }
  }

  lemma KeysAreLost(os: map<string, string>, file: string) returns (hashKey: string, blockKey: string)
    requires var env := SetAll(os, Scan(file));
      !(HASH_KEY in env && BLOCK_KEY in env) && !(Fits(file) && SafeTail(LastLine(file)))
    ensures KeysFor(SetAll(os, Scan(file)), hashKey, blockKey) && !Survive(os, file, hashKey, blockKey)
  {
    NamesOfTheKeys();
    TwoKeys(32);
    TwoKeys(24);
    hide SetAll, Scan, Fits, LastLine, SafeTail, Generated, IsName, Entry;
    var env := SetAll(os, Scan(file));
    if HASH_KEY in env {
      hashKey := env[HASH_KEY];
      blockKey := Repeat('q', 24);
      if Survive(os, file, hashKey, blockKey) {
        BadFileForgets(os, file, BLOCK_KEY, blockKey, Repeat('w', 24));
        blockKey := Repeat('w', 24);
      }
    } else {
      hashKey := Repeat('q', 32);
      blockKey := if BLOCK_KEY in env then env[BLOCK_KEY] else Repeat('q', 24);
      if Survive(os, file, hashKey, blockKey) {
        var other := Repeat('w', 32);
        BadFileForgets(os, file, HASH_KEY, hashKey, other);
        if BLOCK_KEY !in env {
          SecondEntry(os, file, hashKey, blockKey);
          SecondEntry(os, file, other, blockKey);
        }
        hashKey := other;
      }
    }
  }

  /** Whatever keys a start uses are those of the next start, if and only if it found both in its
      environment or the file it appends to has no too long line and no unfinished one. */
  lemma KeysSurviveExactly(os: map<string, string>, file: string)
    ensures var env := SetAll(os, Scan(file));
      (forall hashKey, blockKey :: KeysFor(env, hashKey, blockKey) ==> Survive(os, file, hashKey, blockKey))
      <==> (HASH_KEY in env && BLOCK_KEY in env) || (Fits(file) && SafeTail(LastLine(file)))
  {
    hide SetAll, Scan, Fits, LastLine, SafeTail, KeysFor, Survive;
    var env := SetAll(os, Scan(file));
    if (HASH_KEY in env && BLOCK_KEY in env) || (Fits(file) && SafeTail(LastLine(file))) {
      forall hashKey, blockKey | KeysFor(env, hashKey, blockKey) ensures Survive(os, file, hashKey, blockKey) {
        KeysSurvive(os, file, hashKey, blockKey);
      }
    } else {
      var hashKey, blockKey := KeysAreLost(os, file);
    }
  }

  /** Keys that survive are the only ones the next start can use, and it leaves the file alone. */
  lemma NextStart(os: map<string, string>, file: string, hashKey: string, blockKey: string)
    requires Survive(os, file, hashKey, blockKey)
    ensures var left := Stored(file, SetAll(os, Scan(file)), hashKey, blockKey);
      var next := SetAll(os, Scan(left));
      && KeysFor(next, hashKey, blockKey)
      && forall again, other :: KeysFor(next, again, other) ==>
        again == hashKey && other == blockKey && Stored(left, next, again, other) == left
  {
    hide SetAll, Scan, Generated, Entry;
  }
}
