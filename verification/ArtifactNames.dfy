/** The directories a run's artifacts are collected in, one for each stage that has any
    (internal/service/pipeline_service.go, internal/util/strings.go). */
module ArtifactNames {
  import opened PipelineScript
  import opened Messages
  import opened EventStream

  predicate IsLetter(c: char) {
    'a' <= c <= 'z'
  }

  /** Lower case, as far as it decides which characters are kept: besides the capitals only the
      Kelvin sign and the dotted capital I have a lower case among a to z. */
  function ToLower(c: char): char {
    if 'A' <= c <= 'Z' then (c as int + 32) as char
    else if c == '\U{212A}' then 'k'
    else if c == '\U{0130}' then 'i'
    else c
  }

  /** The letters of a text, in order. */
  function Letters(s: string): string {
    if s == "" then "" else
      var c := ToLower(s[|s| - 1]);
      Letters(s[..|s| - 1]) + if IsLetter(c) then [c] else ""
  }

  method RemoveNonAlphabetChars(s: string) returns (r: string)
    ensures r == Letters(s) && forall c <- r :: IsLetter(c)
  {
    r := "";
    var i := 0;
    while i < |s|
      invariant 0 <= i <= |s| && r == Letters(s[..i]) && forall c <- r :: IsLetter(c)
    {
      var c := ToLower(s[i]);
      assert s[..i + 1][..i] == s[..i];
      if 'a' <= c <= 'z' {
        r := r + [c];
      }
      i := i + 1;
    }
    assert s[..i] == s;
  }

  function DirName(i: nat, stage: string): string {
    Digits(i + 1) + ("_" + Letters(stage))
  }

  /** The directories of the first n stages. */
  function DirNames(stages: seq<Stage>, n: nat): seq<string>
    requires n <= |stages|
  {
    if n == 0 then [] else
      DirNames(stages, n - 1) + if stages[n - 1].artifacts != "" then [DirName(n - 1, stages[n - 1].stage)] else []
  }

  ghost predicate NoFault(stages: seq<Stage>, fault: nat -> bool, n: nat)
    requires n <= |stages|
  {
    forall i :: 0 <= i < n && stages[i].artifacts != "" ==> !fault(i)
  }

  ghost predicate FirstFault(stages: seq<Stage>, fault: nat -> bool, n: nat) {
    n < |stages| && stages[n].artifacts != "" && fault(n) && NoFault(stages, fault, n)
  }

  /** Downloads stage by stage; the first download that fails ends it. */
  method CollectArtifacts(stages: seq<Stage>, fault: nat -> bool) returns (dirs: seq<string>, ok: bool)
    ensures ok <==> NoFault(stages, fault, |stages|)
    ensures ok ==> dirs == DirNames(stages, |stages|)
    ensures !ok ==> exists n :: FirstFault(stages, fault, n) && dirs == DirNames(stages, n)
    ensures forall i, j :: 0 <= i < j < |dirs| ==> dirs[i] != dirs[j]
    ensures forall dir <- dirs :: '/' !in dir && '\\' !in dir && '.' !in dir
  {
    dirs, ok := [], true;
    var i := 0;
    while i < |stages|
      invariant 0 <= i <= |stages| && dirs == DirNames(stages, i)
      invariant NoFault(stages, fault, i)
    {
      if stages[i].artifacts != "" {
        var name := RemoveNonAlphabetChars(stages[i].stage);
        if fault(i) {
          NamesAreDistinct(stages, i);
          return dirs, false;
        }
        dirs := dirs + [Digits(i + 1) + ("_" + name)];
      }
      i := i + 1;
    }
    NamesAreDistinct(stages, i);
  }

  lemma DigitsDetermine(m: nat, n: nat)
    requires Digits(m) == Digits(n)
    ensures m == n
  {
    DigitsHaveValue(m);
    DigitsHaveValue(n);
  }

  lemma {:induction false} LettersAreLetters(s: string)
    ensures forall c <- Letters(s) :: IsLetter(c)
  {
    if s != "" {
      LettersAreLetters(s[..|s| - 1]);
    }
  }

  lemma NumberOfName(i: nat, stage: string)
    ensures IndexOf(DirName(i, stage), '_') == |Digits(i + 1)|
    ensures var dir, n := DirName(i, stage), |Digits(i + 1)|;
      n < |dir| && dir[..n] == Digits(i + 1) && dir[n + 1..] == Letters(stage)
    ensures var dir := DirName(i, stage); '/' !in dir && '\\' !in dir && '.' !in dir
  {
    var dir, n := DirName(i, stage), |Digits(i + 1)|;
    DigitsHaveValue(i + 1);
    LettersAreLetters(stage);
    assert dir[..n] == Digits(i + 1) && dir[n] == '_' && dir[n + 1..] == Letters(stage);
    IndexIsFirst(dir, '_', n);
  }

  /** Whatever the stages are called, two of them never share a directory. */
  lemma NamesDetermine(i: nat, stage: string, j: nat, other: string)
    requires DirName(i, stage) == DirName(j, other)
    ensures i == j && Letters(stage) == Letters(other)
  {
    NumberOfName(i, stage);
    NumberOfName(j, other);
    DigitsDetermine(i + 1, j + 1);
  }

  lemma {:induction false} NameHasStage(stages: seq<Stage>, n: nat, dir: string)
    requires n <= |stages| && dir in DirNames(stages, n)
    ensures exists i :: 0 <= i < n && stages[i].artifacts != "" && dir == DirName(i, stages[i].stage)
  {
    if stages[n - 1].artifacts == "" || dir != DirName(n - 1, stages[n - 1].stage) {
      NameHasStage(stages, n - 1, dir);
    }
  }

  lemma NewName(stages: seq<Stage>, n: nat)
    requires n < |stages|
    ensures DirName(n, stages[n].stage) !in DirNames(stages, n)
  {
    hide DirName;
    var last := DirName(n, stages[n].stage);
    if last in DirNames(stages, n) {
      NameHasStage(stages, n, last);
      var i :| 0 <= i < n && last == DirName(i, stages[i].stage);
      NamesDetermine(i, stages[i].stage, n, stages[n].stage);
      assert false;
    }
  }

  lemma {:induction false} NamesAreDistinct(stages: seq<Stage>, n: nat)
    requires n <= |stages|
    ensures var dirs := DirNames(stages, n);
      && (forall i, j :: 0 <= i < j < |dirs| ==> dirs[i] != dirs[j])
      && forall dir <- dirs :: '/' !in dir && '\\' !in dir && '.' !in dir
  {
    hide DirName;
    if n > 0 {
      NamesAreDistinct(stages, n - 1);
      NumberOfName(n - 1, stages[n - 1].stage);
      NewName(stages, n - 1);
    }
  }

  lemma {:induction false} LettersConcat(a: string, b: string)
    ensures Letters(a + b) == Letters(a) + Letters(b)
  {
    if b == "" {
      assert a + b == a;
    } else {
      var n := |b| - 1;
      LettersConcat(a, b[..n]);
      assert (a + b)[..|a + b| - 1] == a + b[..n];
    }
  }

  /** What becomes of one character: letters are kept in lower case, and of the others only the Kelvin
      sign and the dotted capital I leave a letter. */
  lemma LetterOf(c: char)
    ensures 'a' <= c <= 'z' ==> Letters([c]) == [c]
    ensures 'A' <= c <= 'Z' ==> Letters([c]) == [(c as int - 'A' as int + 'a' as int) as char]
    ensures c == '\U{212A}' ==> Letters([c]) == "k"
    ensures c == '\U{0130}' ==> Letters([c]) == "i"
    ensures !('a' <= c <= 'z' || 'A' <= c <= 'Z' || c == '\U{212A}' || c == '\U{0130}') ==> Letters([c]) == ""
  {
    assert [c][..0] == "";
  }

  /** The number in front of a stage's directory counts the stages from one. */
  lemma NumberCountsFromOne(i: nat, stage: string)
    ensures var dir := DirName(i, stage);
      && Value(dir[..IndexOf(dir, '_')]) == i + 1 && dir[0] != '0'
      && IndexOf(dir, '_') < |dir| && dir[IndexOf(dir, '_') + 1..] == Letters(stage)
  {
    NumberOfName(i, stage);
    DigitsHaveValue(i + 1);
  }
}
