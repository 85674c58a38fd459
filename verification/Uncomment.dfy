/** test/utils/utils.go: removing the comment prefix from a block of a file. */
module Uncomment {
  import opened Base

  // bufio.MaxScanTokenSize: a line must be shorter.
  const MAX_LINE: nat := 65536

  // ---- strings.Index ----

  predicate OccursAt(s: string, t: string, i: int) {
    0 <= i <= |s| - |t| && s[i..i + |t|] == t
  }

  function FindFrom(s: string, t: string, i: nat): (idx: int)
    ensures idx == -1 || (OccursAt(s, t, idx) && i <= idx)
    ensures forall k | i <= k && (k < idx || idx == -1) :: !OccursAt(s, t, k)
    decreases |s| - i
  {
    if i + |t| > |s| then -1 else if OccursAt(s, t, i) then i else FindFrom(s, t, i + 1)
  }

  method Index(s: string, t: string) returns (idx: int)
    ensures idx == FindFrom(s, t, 0)
  {
    idx := 0;
    while idx + |t| <= |s|
      invariant 0 <= idx
      invariant FindFrom(s, t, 0) == FindFrom(s, t, idx)
      decreases |s| - idx
    {
      if s[idx..idx + |t|] == t {
        return;
      }
      idx := idx + 1;
    }
    return -1;
  }

  // ---- bufio.Scanner with ScanLines ----

  function LineEnd(s: string): (n: nat)
    ensures n <= |s|
    ensures '\n' !in s[..n]
    ensures n < |s| ==> s[n] == '\n'
  {
    if s == "" || s[0] == '\n' then 0
    else
      assert forall n | 0 <= n < |s| :: s[..n + 1] == [s[0]] + s[1..][..n];
      1 + LineEnd(s[1..])
  }

  function DropCR(line: string): string {
    if line != "" && line[|line| - 1] == '\r' then line[..|line| - 1] else line
  }

  function AfterLine(s: string): string {
    if LineEnd(s) == |s| then "" else s[LineEnd(s) + 1..]
  }

  // The lines the scanner delivers: it stops at the end, where a final newline opens no
  // further line, and at a line that does not fit its buffer.
  function Lines(s: string): seq<string>
    decreases |s|
  {
    if s == "" || LineEnd(s) >= MAX_LINE then [] else [DropCR(s[..LineEnd(s)])] + Lines(AfterLine(s))
  }

  class Scanner {
    var rest: string

    constructor (s: string)
      ensures rest == s
    {
      rest := s;
    }

    method Scan() returns (line: Option<string>)
      modifies this
      ensures line.None? <==> Lines(old(rest)) == []
      ensures line.Some? ==> Lines(old(rest)) == [line.value] + Lines(rest) && |rest| < |old(rest)|
    {
      if rest == "" {
        return None;
      }
      var end := 0;
      while end < |rest| && rest[end] != '\n'
        invariant end <= |rest| && end + LineEnd(rest[end..]) == LineEnd(rest)
      {
        assert rest[end..][1..] == rest[end + 1..];
        end := end + 1;
      }
      assert end == LineEnd(rest);
      if end >= MAX_LINE {
        rest := "";
        return None;
      }
      line := Some(DropCR(rest[..end]));
      rest := if end == |rest| then "" else rest[end + 1..];
    }
  }

  // ---- UncommentCode ----

  function TrimPrefix(s: string, prefix: string): string {
    if prefix <= s then s[|prefix|..] else s
  }

  function JoinTrimmed(lines: seq<string>, prefix: string): string {
    if lines == [] then ""
    else TrimPrefix(lines[0], prefix) + if |lines| == 1 then "" else "\n" + JoinTrimmed(lines[1..], prefix)
  }

  function Uncommented(content: string, target: string, prefix: string): string {
    var idx := FindFrom(content, target, 0);
    if idx < 0 || Lines(target) == [] then content
    else content[..idx] + JoinTrimmed(Lines(target), prefix) + content[idx + |target|..]
  }

  class File {
    var content: string

    constructor (content: string)
      ensures this.content == content
    {
      this.content := content;
    }

    // Fails, changing nothing, when the target does not occur.
    method UncommentCode(target: string, prefix: string) returns (found: bool)
      modifies this
      ensures found <==> exists i :: OccursAt(old(content), target, i)
      ensures content == Uncommented(old(content), target, prefix)
    {
      hide Lines, FindFrom;
      var idx := Index(content, target);
      if idx < 0 {
        return false;
      }
      assert OccursAt(content, target, idx);
      found := true;
      var out := content[..idx];
      var scanner := new Scanner(target);
      var line := scanner.Scan();
      if line.None? {
        return;
      }
      ghost var want := content[..idx] + JoinTrimmed(Lines(target), prefix);
      var more := true;
      while more
        invariant content == old(content)
        invariant more <==> line.Some?
        invariant more ==> out + JoinTrimmed([line.value] + Lines(scanner.rest), prefix) == want
        invariant !more ==> out == want
        decreases more, |scanner.rest|
      {
        ghost var lines := [line.value] + Lines(scanner.rest);
        ghost var was := out;
        JoinStep(lines, prefix, was);
        out := out + TrimPrefix(line.value, prefix);
        line := scanner.Scan();
        more := line.Some?;
        if more {
          out := out + "\n";
          assert lines[1..] == [line.value] + Lines(scanner.rest);
        }
      }
      content := out + content[idx + |target|..];
    }
  }

  lemma JoinStep(lines: seq<string>, prefix: string, out: string)
    requires lines != []
    ensures out + JoinTrimmed(lines, prefix) ==
            if |lines| == 1 then out + TrimPrefix(lines[0], prefix)
            else out + TrimPrefix(lines[0], prefix) + "\n" + JoinTrimmed(lines[1..], prefix)
  {
    hide TrimPrefix;
  }

  // ---- Comment, then uncomment ----

  predicate Line(s: string) {
    '\n' !in s
  }

  ghost predicate AreLines(lines: seq<string>) {
    forall i | 0 <= i < |lines| :: Line(lines[i])
  }

  // A block is a non-empty list of lines with newlines in between.
  function Join(lines: seq<string>): string {
    if lines == [] then "" else lines[0] + if |lines| == 1 then "" else "\n" + Join(lines[1..])
  }

  function Commented(lines: seq<string>, prefix: string): seq<string> {
    seq(|lines|, i requires 0 <= i < |lines| => prefix + lines[i])
  }

  function Newlines(s: string): nat {
    if s == "" then 0 else (if s[0] == '\n' then 1 else 0) + Newlines(s[1..])
  }

  // What the scanner makes of a list of lines of which the last is not empty.
  function Scanned(lines: seq<string>): seq<string> {
    if lines == [] || |lines[0]| >= MAX_LINE then [] else [DropCR(lines[0])] + Scanned(lines[1..])
  }

  lemma {:induction false} EndOfLine(line: string, rest: string)
    requires Line(line)
    ensures LineEnd(line) == |line|
    ensures LineEnd(line + "\n" + rest) == |line|
  {
    if line != "" {
      EndOfLine(line[1..], rest);
      assert (line + "\n" + rest)[1..] == line[1..] + "\n" + rest;
    }
  }

  lemma {:induction false} LinesOfJoin(lines: seq<string>)
    requires AreLines(lines) && (lines != [] ==> lines[|lines| - 1] != "")
    ensures Lines(Join(lines)) == Scanned(lines)
  {
    if lines != [] {
      var s := Join(lines);
      var line := lines[0];
      assert Line(line);
      var rest := Join(lines[1..]);
      EndOfLine(line, rest);
      LinesOfJoin(lines[1..]);
      if |lines| == 1 {
        assert s == line && s[..|line|] == line;
        assert lines[1..] == [];
      } else {
        assert s == line + "\n" + rest;
        assert s[..|line|] == line && s[|line| + 1..] == rest;
      }
    }
  }

  // A commented line comes back without the prefix, and without a final carriage return.
  lemma TrimsBack(line: string, prefix: string)
    requires prefix != "" && '\r' !in prefix
    ensures TrimPrefix(DropCR(prefix + line), prefix) == DropCR(line)
  {
    var s := prefix + line;
    if line == "" {
      assert s == prefix;
      assert s[|s| - 1] in prefix;
    } else {
      assert DropCR(s) == prefix + DropCR(line);
    }
  }

  // A line that survives being commented and uncommented: with the prefix it is shorter
  // than the scanner's 64 KiB, and it does not end in a carriage return.
  predicate Survives(line: string, prefix: string) {
    |prefix| + |line| < 65536 && (line != "" ==> line[|line| - 1] != '\r')
  }

  ghost predicate AllSurvive(lines: seq<string>, prefix: string) {
    forall i | 0 <= i < |lines| :: Survives(lines[i], prefix)
  }

  // The trimmed lines are the block, exactly when every line survives; else they are shorter.
  lemma {:induction false} TrimmedBlock(lines: seq<string>, prefix: string)
    requires lines != [] && prefix != "" && '\r' !in prefix
    ensures var back := JoinTrimmed(Scanned(Commented(lines, prefix)), prefix);
            if AllSurvive(lines, prefix) then back == Join(lines) && Scanned(Commented(lines, prefix)) != []
            else |back| < |Join(lines)| || Scanned(Commented(lines, prefix)) == []
    decreases |lines|
  {
    var first, rest := lines[0], lines[1..];
    var c := Commented(lines, prefix);
    assert c[1..] == Commented(rest, prefix);
    assert AllSurvive(lines, prefix) <==> Survives(first, prefix) && AllSurvive(rest, prefix) by {
      assert forall i | 0 <= i < |rest| :: rest[i] == lines[i + 1];
      assert forall i | 0 < i < |lines| :: lines[i] == rest[i - 1];
    }
    if |prefix + first| < MAX_LINE {
      TrimsBack(first, prefix);
      var scanned := Scanned(c);
      assert scanned == [DropCR(prefix + first)] + Scanned(c[1..]);
      assert scanned[1..] == Scanned(c[1..]);
      if rest != [] {
        TrimmedBlock(rest, prefix);
      }
    }
  }

  lemma {:induction false} CommentedIsLonger(lines: seq<string>, prefix: string)
    requires lines != [] && prefix != ""
    ensures |Join(Commented(lines, prefix))| > |Join(lines)|
    decreases |lines|
  {
    var c := Commented(lines, prefix);
    if |lines| > 1 {
      assert c[1..] == Commented(lines[1..], prefix);
      CommentedIsLonger(lines[1..], prefix);
    }
  }

  // Uncommenting a commented block restores it at its first occurrence, all other bytes
  // unchanged, exactly when every commented line fits the scanner's buffer and no line
  // ends in a carriage return.
  lemma UncommentUndoesComment(content: string, lines: seq<string>, prefix: string)
    requires lines != [] && AreLines(lines) && prefix != "" && '\r' !in prefix && Line(prefix)
    requires FindFrom(content, Join(Commented(lines, prefix)), 0) >= 0
    ensures var target := Join(Commented(lines, prefix));
            var idx := FindFrom(content, target, 0);
            Uncommented(content, target, prefix) == content[..idx] + Join(lines) + content[idx + |target|..] <==>
              AllSurvive(lines, prefix)
  {
    hide FindFrom, Scanned, JoinTrimmed, AllSurvive, Join, Commented, Lines;
    var c := Commented(lines, prefix);
    var target := Join(c);
    var idx := FindFrom(content, target, 0);
    var end := idx + |target|;
    CommentedLines(lines, prefix);
    LinesOfJoin(c);
    TrimmedBlock(lines, prefix);
    CommentedIsLonger(lines, prefix);
    InPlace(content, target, idx);
    Splice(content, idx, end, if Scanned(c) == [] then target else JoinTrimmed(Scanned(c), prefix), Join(lines));
  }

  lemma CommentedLines(lines: seq<string>, prefix: string)
    requires AreLines(lines) && prefix != "" && Line(prefix)
    ensures AreLines(Commented(lines, prefix))
    ensures forall i | 0 <= i < |Commented(lines, prefix)| :: Commented(lines, prefix)[i] != ""
  {
    forall i | 0 <= i < |lines|
      ensures Line(Commented(lines, prefix)[i])
    {
      assert Line(lines[i]);
    }
  }

  lemma InPlace(content: string, target: string, idx: int)
    requires OccursAt(content, target, idx)
    ensures content == content[..idx] + target + content[idx + |target|..]
  {
  }

  lemma Splice(s: string, i: nat, j: nat, a: string, b: string)
    requires i <= j <= |s|
    ensures s[..i] + a + s[j..] == s[..i] + b + s[j..] <==> a == b
  {
    var x, y := s[..i] + a + s[j..], s[..i] + b + s[j..];
    if x == y {
      assert |a| == |b|;
      assert x[i..i + |a|] == a;
      assert y[i..i + |b|] == b;
    }
  }

  // ---- Any block ----

  // A line loses the prefix if it begins with it, and is kept otherwise.
  predicate Strips(line: string, out: string, prefix: string) {
    line == prefix + out || (out == line && !(prefix <= line))
  }

  // The lines of outs are those of the block up to the first that does not fit the scanner;
  // what comes from there on is lost.
  ghost predicate Delivered(lines: seq<string>, outs: seq<string>) {
    && |outs| <= |lines|
    && (forall i | 0 <= i < |outs| :: Survives(lines[i], ""))
    && (|outs| < |lines| ==> |lines[|outs|]| >= 65536)
  }

  // Uncommenting any block, commented throughout, in parts or not at all, removes the prefix
  // once from each line that begins with it and keeps every other line, up to a line that
  // does not fit the scanner. No line ends in a carriage return, and the last is not empty.
  lemma UncommentStripsLines(content: string, lines: seq<string>, outs: seq<string>, prefix: string)
    requires lines != [] && AreLines(lines) && lines[|lines| - 1] != ""
    requires outs != [] && Delivered(lines, outs) && forall i | 0 <= i < |outs| :: Strips(lines[i], outs[i], prefix)
    requires FindFrom(content, Join(lines), 0) >= 0
    ensures var idx := FindFrom(content, Join(lines), 0);
            Uncommented(content, Join(lines), prefix) == content[..idx] + Join(outs) + content[idx + |Join(lines)|..]
  {
    hide FindFrom, Join, JoinTrimmed, Lines, Delivered;
    LinesOfJoin(lines);
    ScannedPrefix(lines, outs);
    JoinStripped(lines[..|outs|], outs, prefix);
  }

  lemma {:induction false} ScannedPrefix(lines: seq<string>, outs: seq<string>)
    requires Delivered(lines, outs)
    ensures |outs| <= |lines| && Scanned(lines) == lines[..|outs|]
    decreases |outs|
  {
    if outs != [] {
      assert Survives(lines[0], "");
      ScannedPrefix(lines[1..], outs[1..]);
    }
  }

  lemma {:induction false} JoinStripped(lines: seq<string>, outs: seq<string>, prefix: string)
    requires |outs| == |lines| && forall i | 0 <= i < |lines| :: Strips(lines[i], outs[i], prefix)
    ensures JoinTrimmed(lines, prefix) == Join(outs)
  {
    if lines != [] {
      assert Strips(lines[0], outs[0], prefix);
      JoinStripped(lines[1..], outs[1..], prefix);
    }
  }

  // A target that is empty or whose first line does not fit the scanner changes nothing,
  // and yet is no failure.
  lemma UnscannedIsKept(content: string, target: string, prefix: string)
    requires target == "" || (|target| >= 65536 && forall i | 0 <= i < 65536 :: target[i] != '\n')
    ensures Uncommented(content, target, prefix) == content
  {
    if target != "" {
      var n := LineEnd(target);
      assert n < |target| ==> target[n] == '\n';
    }
  }

  lemma {:induction false} NewlinesConcat(a: string, b: string)
    ensures Newlines(a + b) == Newlines(a) + Newlines(b)
  {
    if a == "" {
      assert a + b == b;
    } else {
      assert (a + b)[1..] == a[1..] + b;
      NewlinesConcat(a[1..], b);
    }
  }

  lemma {:induction false} NoNewlines(line: string)
    requires Line(line)
    ensures Newlines(line) == 0
  {
    if line != "" {
      NoNewlines(line[1..]);
    }
  }

  lemma {:induction false} NewlinesOfJoin(lines: seq<string>)
    requires lines != [] && AreLines(lines)
    ensures Newlines(Join(lines)) == |lines| - 1
    decreases |lines|
  {
    assert Line(lines[0]);
    NoNewlines(lines[0]);
    if |lines| == 1 {
      assert Join(lines) == lines[0];
    } else {
      var rest := Join(lines[1..]);
      NewlinesOfJoin(lines[1..]);
      NewlinesConcat(lines[0], "\n" + rest);
      assert ("\n" + rest)[1..] == rest;
      assert Join(lines) == lines[0] + ("\n" + rest);
    }
  }

  // A restored block has as many lines as the commented one, so no later line moves.
  lemma LineCountIsKept(lines: seq<string>, prefix: string)
    requires lines != [] && AreLines(lines) && Line(prefix)
    ensures Newlines(Join(lines)) == Newlines(Join(Commented(lines, prefix)))
  {
    forall i | 0 <= i < |lines|
      ensures Line(Commented(lines, prefix)[i])
    {
      assert Line(lines[i]);
    }
    hide Join;
    NewlinesOfJoin(lines);
    NewlinesOfJoin(Commented(lines, prefix));
  }

  // A target that ends in a newline loses it.
  lemma {:induction false} FinalNewlineIsLost(t: string)
    requires t != "" && t[|t| - 1] != '\n'
    ensures Lines(t + "\n") == Lines(t)
    decreases |t|
  {
    var end := LineEnd(t);
    var line := t[..end];
    if end == |t| {
      assert t == line;
      EndOfLine(line, "");
      assert t + "\n" == line + "\n" + "";
      assert (t + "\n")[..end] == line;
      assert AfterLine(t + "\n") == "";
    } else {
      var rest := t[end + 1..];
      assert t == line + "\n" + rest;
      EndOfLine(line, rest + "\n");
      assert t + "\n" == line + "\n" + (rest + "\n");
      assert (t + "\n")[..end] == line;
      assert AfterLine(t + "\n") == rest + "\n";
      FinalNewlineIsLost(rest);
    }
  }
}
