/**
 * The G-code rewriter: turns a slicer's G-code listing (already read into
 * lines, each normally ending in a newline) into the listing the gantry
 * controller runs.  Everything before the "; process Process1" marker is
 * skipped; tool, spindle and fan commands are dropped; every token starting
 * with `E` (extrusion) is removed; vertical `G1 Z` moves become relative
 * moves on a chosen axis letter; comments after the build summary are
 * dropped; and the result is framed by `G75` and the `$iglobal[0]` flag.
 *
 * `AdjustGcodeFile` is the loop as the script runs it; `Adjust`, built from
 * the per-line `Emit`/`Next`, is its specification.
 */
module GcodeRewriter {
  import opened PyStr

  const ProcessMarker := "; process Process1"
  const SummaryTag := "Build Summary"
  const ToolCommands: seq<string> := ["M3", "M4", "M5", "M6", "T0", "T1", "T2", "T3", "M106"]
  const ReplacementLetters: seq<string> := ["A", "B", "C", "D"]
  const LetterError := "Replacement letter must be one of 'A', 'B', 'C', 'D'"
  const Preamble := "G75\n"
  const FlagSet := "$iglobal[0] = 1\n"
  const FlagClear := "$iglobal[0] = 0\n"
  const Relative := "G91\n"
  const Absolute := "G90\n"
  const ZMove := "G1 Z"
  const ZAssign := "Z ="

  /** The rewritten listing, or the ValueError raised for a bad letter. */
  datatype Result = Ok(lines: seq<string>) | ValueError(message: string)

  /** How far the scan has got: past the process marker, past the build summary. */
  datatype Scan = Scan(inProcess: bool, afterSummary: bool)

  const Start := Scan(false, false)

  predicate HasToolCommand(line: string) {
    exists cmd :: cmd in ToolCommands && Contains(line, cmd)
  }

  /** No space-separated token of `s` starts with `E`. */
  predicate NoETokens(s: string) {
    forall i {:trigger s[i]} :: 0 <= i < |s| && (i == 0 || s[i - 1] == ' ') ==> s[i] != 'E'
  }

  /** What every line the rewriter writes looks like. */
  predicate WellFormed(o: string) {
    EndsWith(o, "\n") && NoETokens(o) && !Contains(o, ZMove)
  }

  /** The comprehension that keeps the tokens not starting with `E`, in order. */
  function DropETokens(parts: seq<string>): seq<string>
  {
    if parts == [] then []
    else (if StartsWith(parts[0], "E") then [] else [parts[0]]) + DropETokens(parts[1..])
  }

  /** The comprehension keeps exactly the tokens that do not start with `E`. */
  lemma {:induction false} DropETokensKeeps(parts: seq<string>)
    ensures forall p :: p in DropETokens(parts) <==> p in parts && !StartsWith(p, "E")
  {
    if parts != [] {
      DropETokensKeeps(parts[1..]);
      assert parts == [parts[0]] + parts[1..];
    }
  }

  /** A token that does not start with `E` has no `E` at its first position. */
  lemma NotStartingWithE(p: string)
    requires p != [] && !StartsWith(p, "E")
    ensures p[0] != 'E'
  {
    assert p[..1] == [p[0]];
  }

  /** Joining space-free tokens none of which starts with `E` leaves no `E` token. */
  lemma {:induction false} JoinNoETokens(parts: seq<string>)
    requires forall p :: p in parts ==> ' ' !in p && !StartsWith(p, "E")
    ensures NoETokens(Join(parts, ' '))
  {
    if |parts| == 1 {
      var s := parts[0];
      assert s in parts;
      forall i | 0 <= i < |s| ensures (i == 0 || s[i - 1] == ' ') ==> s[i] != 'E' {
        if i == 0 { NotStartingWithE(s); } else { assert s[i - 1] in s; }
      }
    } else if |parts| > 1 {
      var p0, tail := parts[0], parts[1..];
      assert p0 in parts;
      assert forall p :: p in tail ==> p in parts;
      JoinNoETokens(tail);
      var rest := Join(tail, ' ');
      var s := p0 + [' '] + rest;
      assert s == Join(parts, ' ');
      forall i | 0 <= i < |s| ensures (i == 0 || s[i - 1] == ' ') ==> s[i] != 'E' {
        if i < |p0| {
          assert s[i] == p0[i];
          if i == 0 {
            NotStartingWithE(p0);
          } else {
            assert s[i - 1] == p0[i - 1] && p0[i - 1] in p0;
          }
        } else if i == |p0| {
          assert s[i] == ' ';
        } else {
          var j := i - |p0| - 1;
          assert s[i] == rest[j];
          if j > 0 { assert s[i - 1] == rest[j - 1]; }
        }
      }
    }
  }

  /** Appending a newline keeps a line free of `E` tokens. */
  lemma AppendNewlineNoETokens(kept: string)
    requires NoETokens(kept)
    ensures NoETokens(kept + "\n")
  {
    var s := kept + "\n";
    forall i | 0 <= i < |s| && (i == 0 || s[i - 1] == ' ') ensures s[i] != 'E' {
      if i < |kept| {
        assert s[i] == kept[i];
        if i > 0 { assert s[i - 1] == kept[i - 1]; }
      } else {
        assert s[i] == '\n';
      }
    }
  }

  /** The tokens of a line split at spaces, with the `E` tokens left out, joined back. */
  function KeptTokens(line: string): (kept: string)
    ensures NoETokens(kept)
  {
    var parts := DropETokens(Split(line, ' '));
    JoinSplit(line, ' ');
    DropETokensKeeps(Split(line, ' '));
    JoinNoETokens(parts);
    Join(parts, ' ')
  }

  /** The line with its `E` tokens removed, made to end in a newline. */
  function Clean(line: string): (r: string)
    ensures EndsWith(r, "\n") && NoETokens(r)
  {
    var kept := KeptTokens(line);
    if EndsWith(kept, "\n") then kept
    else
      AppendNewlineNoETokens(kept);
      assert (kept + "\n")[|kept|..] == "\n";
      kept + "\n"
  }

  /** Renaming characters to a letter other than `E` and space keeps the line free of `E` tokens. */
  lemma ReplaceKeepsNoETokens(s: string, r: string, b: char)
    requires b != 'E' && b != ' ' && NoETokens(s)
    requires |r| == |s|
    requires forall i :: 0 <= i < |s| ==> r[i] == if s[i] == 'Z' then b else s[i]
    ensures NoETokens(r)
  {
    forall i | 0 <= i < |r| && (i == 0 || r[i - 1] == ' ') ensures r[i] != 'E' {
      if i > 0 {
        assert s[i - 1] == ' ';
      }
      assert s[i] != 'E';
    }
  }

  /** Replacing `Z` by a valid letter keeps a cleaned line well formed. */
  lemma ReplaceKeepsWellFormed(s: string, letter: string)
    requires letter in ReplacementLetters
    requires EndsWith(s, "\n") && NoETokens(s)
    ensures WellFormed(ReplaceChar(s, 'Z', letter))
  {
    var b := letter[0];
    assert letter == [b] && b != 'Z' && b != 'E' && b != ' ';
    var r := ReplaceChar(s, 'Z', [b]);
    ReplaceByOneChar(s, 'Z', b);
    assert s[|s| - 1] == '\n' by { assert s[|s| - 1..][0] == s[|s| - 1]; }
    assert r[|r| - 1..] == "\n";
    ReplaceKeepsNoETokens(s, r, b);
    if Contains(r, ZMove) {
      ContainsChar(r, ZMove, 'Z');
    }
  }

  /** A newline-terminated line with no `E` and no `Z` at all is well formed. */
  lemma PlainLineWellFormed(o: string)
    requires |o| > 0 && o[|o| - 1] == '\n'
    requires 'E' !in o && 'Z' !in o
    ensures WellFormed(o)
  {
    assert o[|o| - 1..] == "\n";
    if Contains(o, ZMove) {
      ContainsChar(o, ZMove, 'Z');
    }
  }

  lemma FixedLinesWellFormed()
    ensures WellFormed(Preamble) && WellFormed(FlagSet) && WellFormed(FlagClear)
    ensures WellFormed(Relative) && WellFormed(Absolute)
  {
    PlainLineWellFormed(Preamble);
    PlainLineWellFormed(FlagSet);
    PlainLineWellFormed(FlagClear);
    PlainLineWellFormed(Relative);
    PlainLineWellFormed(Absolute);
  }

  /** The line gets past the marker, comment, build-summary and tool filters. */
  predicate Survives(st: Scan, line: string) {
    && (st.inProcess || Contains(line, ProcessMarker))
    && !(st.afterSummary && StartsWith(line, ";"))
    && !Contains(line, SummaryTag)
    && !HasToolCommand(line)
  }

  /**
   * What a line that survives the filters becomes: its cleaned form, or for
   * a `G1 Z` move the relative-move triple with `Z` renamed, or nothing for
   * a `Z =` assignment.
   */
  function Rewrite(line: string, letter: string): (out: seq<string>)
    ensures |out| <= 3
  {
    var cleaned := Clean(line);
    if Contains(cleaned, ZMove) then [Relative, ReplaceChar(cleaned, 'Z', letter), Absolute]
    else if Contains(cleaned, ZAssign) then []
    else [cleaned]
  }

  /** Every line a rewrite produces is well formed. */
  lemma RewriteWellFormed(line: string, letter: string)
    requires letter in ReplacementLetters
    ensures forall o :: o in Rewrite(line, letter) ==> WellFormed(o)
  {
    var cleaned, out := Clean(line), Rewrite(line, letter);
    if Contains(cleaned, ZMove) {
      ReplaceKeepsWellFormed(cleaned, letter);
      FixedLinesWellFormed();
      assert out == [Relative, ReplaceChar(cleaned, 'Z', letter), Absolute];
    } else if Contains(cleaned, ZAssign) {
      assert out == [];
    } else {
      assert out == [cleaned] && WellFormed(cleaned);
    }
  }

  /** The lines one input line adds to the output, given the scan so far. */
  function Emit(st: Scan, line: string, letter: string): seq<string>
  {
    if Survives(st, line) then Rewrite(line, letter) else []
  }

  /** The scan after one more input line. */
  function Next(st: Scan, line: string): (st': Scan)
    ensures st.inProcess ==> st'.inProcess
    ensures st.afterSummary ==> st'.afterSummary
    ensures st'.inProcess <==> st.inProcess || Contains(line, ProcessMarker)
  {
    if !st.inProcess && !Contains(line, ProcessMarker) then st
    else if StartsWith(line, ";") && st.afterSummary then Scan(true, true)
    else if Contains(line, SummaryTag) then Scan(true, true)
    else Scan(true, st.afterSummary)
  }

  /** The body lines produced from `lines`, starting from scan `st`. */
  function Run(st: Scan, lines: seq<string>, letter: string): seq<string>
    decreases |lines|
  {
    if lines == [] then [] else Emit(st, lines[0], letter) + Run(Next(st, lines[0]), lines[1..], letter)
  }

  /** The scan after `lines`. */
  function After(st: Scan, lines: seq<string>): Scan
    decreases |lines|
  {
    if lines == [] then st else After(Next(st, lines[0]), lines[1..])
  }

  /** The whole rewrite: letter check, then framed body. */
  function Adjust(lines: seq<string>, letter: string): (r: Result)
    ensures r.ValueError? <==> letter !in ReplacementLetters
    ensures r.Ok? ==> |r.lines| >= 3 && r.lines[0] == Preamble && r.lines[1] == FlagSet
                      && r.lines[|r.lines| - 1] == FlagClear
  {
    if letter !in ReplacementLetters then ValueError(LetterError)
    else Ok([Preamble, FlagSet] + Run(Start, lines, letter) + [FlagClear])
  }

  /** One iteration of the loop keeps its invariant. */
  lemma Advance(done: seq<string>, st: Scan, lines: seq<string>, i: nat, letter: string,
                done': seq<string>, st': Scan, whole: seq<string>)
    requires i < |lines|
    requires done + Run(st, lines[i..], letter) == whole
    requires done' == done + Emit(st, lines[i], letter) && st' == Next(st, lines[i])
    ensures done' + Run(st', lines[i + 1..], letter) == whole
  {
    assert lines[i..] == [lines[i]] + lines[i + 1..];
    RunCons(st, lines[i], lines[i + 1..], letter);
    Associate(done, Emit(st, lines[i], letter), Run(st', lines[i + 1..], letter));
  }

  lemma Associate(a: seq<string>, b: seq<string>, c: seq<string>)
    ensures a + (b + c) == (a + b) + c
  {
  }

  /**
   * The tail of the loop body for a line that got past the filters: split at
   * spaces, drop the `E` tokens, rejoin, add the newline, then either emit the
   * relative `G1 Z` move, drop the `Z =` line, or emit the cleaned line.
   */
  method RewriteLine(line: string, letter: string) returns (out: seq<string>)
    ensures out == Rewrite(line, letter)
  {
    var parts := DropETokens(Split(line, ' '));
    var cleaned := Join(parts, ' ');
    if !EndsWith(cleaned, "\n") {
      cleaned := cleaned + "\n";
    }
    assert cleaned == Clean(line);
    if Contains(cleaned, ZMove) {
      cleaned := ReplaceChar(cleaned, 'Z', letter);
      out := [Relative, cleaned, Absolute];
      return;
    }
    if Contains(cleaned, ZAssign) {
      cleaned := ReplaceChar(cleaned, 'Z', letter);
      return [];
    }
    out := [cleaned];
  }

  /** `adjust_gcode_file` without the file reading and writing. */
  method AdjustGcodeFile(lines: seq<string>, letter: string) returns (r: Result)
    ensures r == Adjust(lines, letter)
  {
    if letter !in ReplacementLetters {
      return ValueError(LetterError);
    }
    var adjusted := [Preamble];
    var inProcess := false;
    var afterSummary := false;
    ghost var whole := [Preamble] + Run(Start, lines, letter);
    for i := 0 to |lines|
      invariant adjusted + Run(Scan(inProcess, afterSummary), lines[i..], letter) == whole
    {
      ghost var st, done := Scan(inProcess, afterSummary), adjusted;
      var out;
      out, inProcess, afterSummary := FilterLine(lines[i], inProcess, afterSummary, letter);
      adjusted := adjusted + out;
      Advance(done, st, lines, i, letter, adjusted, Scan(inProcess, afterSummary), whole);
    }
    assert lines[|lines|..] == [];
    ghost var before := adjusted;
    adjusted := adjusted[..1] + [FlagSet] + adjusted[1..];
    adjusted := adjusted + [FlagClear];
    InsertSecond(before, Preamble, Run(Start, lines, letter), FlagSet, FlagClear);
    r := Ok(adjusted);
  }

  /** Inserting `y` at index 1 of `[x] + body` and appending `z` frames the body. */
  lemma InsertSecond(a: seq<string>, x: string, body: seq<string>, y: string, z: string)
    requires a == [x] + body
    ensures a[..1] + [y] + a[1..] + [z] == [x, y] + body + [z]
  {
    assert a[..1] == [x] && a[1..] == body;
  }

  /**
   * The body of the loop for one line: the marker, comment, build-summary and
   * tool filters in the order the loop applies them, then the rewrite of a
   * line that gets past them all.
   */
  method FilterLine(line: string, inProcess: bool, afterSummary: bool, letter: string)
    returns (out: seq<string>, inProcess': bool, afterSummary': bool)
    ensures out == Emit(Scan(inProcess, afterSummary), line, letter)
    ensures Scan(inProcess', afterSummary') == Next(Scan(inProcess, afterSummary), line)
  {
    out, inProcess', afterSummary' := [], inProcess, afterSummary;
    if !inProcess' {
      if Contains(line, ProcessMarker) {
        inProcess' := true;
      } else {
        return;
      }
    }
    if StartsWith(line, ";") && afterSummary' {
      return;
    }
    if Contains(line, SummaryTag) {
      afterSummary' := true;
      return;
    }
    if HasToolCommand(line) {
      return;
    }
    out := RewriteLine(line, letter);
  }

  // ---------------------------------------------------------------------
  // What one surviving line becomes
  // ---------------------------------------------------------------------

  /**
   * A surviving `G1 Z` line becomes exactly `G91`, the cleaned line with every
   * `Z` renamed to the letter (character by character, nothing else changed),
   * and `G90`.
   */
  lemma ZMoveLine(st: Scan, l: string, letter: string)
    requires letter in ReplacementLetters
    requires Survives(st, l) && Contains(Clean(l), ZMove)
    ensures |Emit(st, l, letter)| == 3
    ensures Emit(st, l, letter)[0] == Relative && Emit(st, l, letter)[2] == Absolute
    ensures var c, m := Clean(l), Emit(st, l, letter)[1];
            |m| == |c| && 'Z' !in m &&
            forall k :: 0 <= k < |c| ==> m[k] == if c[k] == 'Z' then letter[0] else c[k]
  {
    var b := letter[0];
    assert letter == [b];
    ReplaceByOneChar(Clean(l), 'Z', b);
  }

  /** A surviving `Z =` line that is not a `G1 Z` move is dropped entirely. */
  lemma ZAssignLine(st: Scan, l: string, letter: string)
    requires Survives(st, l) && !Contains(Clean(l), ZMove) && Contains(Clean(l), ZAssign)
    ensures Emit(st, l, letter) == []
  {
  }

  /** The first part of `Split(s, sep)` is empty or starts with `s[0]`. */
  lemma FirstPart(s: string, sep: char)
    ensures Split(s, sep)[0] == [] || (s != [] && Split(s, sep)[0][0] == s[0])
  {
  }

  /** Every part after the first begins right after a space of `s`. */
  lemma {:induction false} LaterPartsNoE(s: string)
    requires forall i {:trigger s[i]} :: 1 <= i < |s| && s[i - 1] == ' ' ==> s[i] != 'E'
    ensures forall k :: 1 <= k < |Split(s, ' ')| ==> !StartsWith(Split(s, ' ')[k], "E")
  {
    if s != [] {
      var t := s[1..];
      var rest := Split(t, ' ');
      assert forall i {:trigger t[i]} :: 1 <= i < |t| && t[i - 1] == ' ' ==> t[i] != 'E' by {
        forall i | 1 <= i < |t| && t[i - 1] == ' ' ensures t[i] != 'E' {
          assert t[i] == s[i + 1] && t[i - 1] == s[i];
        }
      }
      LaterPartsNoE(t);
      if s[0] == ' ' {
        FirstPart(t, ' ');
        if rest[0] != [] {
          assert rest[0][0] == s[1];
          assert rest[0][..1] == [s[1]];
        }
      }
    }
  }

  /** A line with no `E` token splits into parts none of which starts with `E`. */
  lemma SplitNoE(s: string)
    requires NoETokens(s)
    ensures forall p :: p in Split(s, ' ') ==> !StartsWith(p, "E")
  {
    LaterPartsNoE(s);
    FirstPart(s, ' ');
    var parts := Split(s, ' ');
    if parts[0] != [] {
      assert parts[0][..1] == [s[0]];
    }
    forall p | p in parts ensures !StartsWith(p, "E") {
      var k :| 0 <= k < |parts| && parts[k] == p;
    }
  }

  /** The comprehension keeps every token when none starts with `E`. */
  lemma {:induction false} DropETokensNone(parts: seq<string>)
    requires forall p :: p in parts ==> !StartsWith(p, "E")
    ensures DropETokens(parts) == parts
  {
    if parts != [] {
      assert parts[0] in parts;
      assert forall p :: p in parts[1..] ==> p in parts;
      DropETokensNone(parts[1..]);
    }
  }

  /**
   * A surviving line that already ends in a newline, has no `E` token, no
   * `G1 Z` and no `Z =` is appended exactly as it was read.
   */
  lemma PlainLineCopied(st: Scan, l: string, letter: string)
    requires Survives(st, l) && EndsWith(l, "\n") && NoETokens(l)
    requires !Contains(l, ZMove) && !Contains(l, ZAssign)
    ensures Emit(st, l, letter) == [l]
  {
    CleanUnchanged(l);
  }

  /** A line with no `E` token keeps every token: the filter gives it back unchanged. */
  lemma KeptTokensUnchanged(l: string)
    requires NoETokens(l)
    ensures KeptTokens(l) == l
  {
    SplitNoE(l);
    DropETokensNone(Split(l, ' '));
    JoinSplit(l, ' ');
  }

  /** Cleaning a line with no `E` token only adds the newline it lacks. */
  lemma CleanUnchanged(l: string)
    requires NoETokens(l)
    ensures Clean(l) == if EndsWith(l, "\n") then l else l + "\n"
  {
    KeptTokensUnchanged(l);
  }

  /**
   * The filter keeps the other tokens and only those, in their order: splitting
   * its output at spaces gives back exactly the tokens that do not start
   * with `E`; when there are none, the output is empty.
   */
  lemma KeptTokensInOrder(line: string)
    ensures DropETokens(Split(line, ' ')) != [] ==> Split(KeptTokens(line), ' ') == DropETokens(Split(line, ' '))
    ensures DropETokens(Split(line, ' ')) == [] ==> KeptTokens(line) == []
  {
    var parts := Split(line, ' ');
    var kept := DropETokens(parts);
    if kept != [] {
      JoinSplit(line, ' ');
      DropETokensKeeps(parts);
      SplitJoin(kept, ' ');
    }
  }

  // ---------------------------------------------------------------------
  // Properties of the whole rewrite
  // ---------------------------------------------------------------------

  /** One step of the rewrite: the first line, then the rest from the scan it leaves. */
  lemma RunCons(st: Scan, l: string, q: seq<string>, letter: string)
    ensures Run(st, [l] + q, letter) == Emit(st, l, letter) + Run(Next(st, l), q, letter)
    ensures After(st, [l] + q) == After(Next(st, l), q)
  {
    assert ([l] + q)[0] == l && ([l] + q)[1..] == q;
  }

  /** Rewriting `p + q` is rewriting `p`, then `q` from where `p` left the scan. */
  lemma {:induction false} RunAppend(st: Scan, p: seq<string>, q: seq<string>, letter: string)
    ensures Run(st, p + q, letter) == Run(st, p, letter) + Run(After(st, p), q, letter)
    ensures After(st, p + q) == After(After(st, p), q)
    decreases |p|
  {
    if p == [] {
      assert p + q == q;
    } else {
      assert (p + q)[0] == p[0] && (p + q)[1..] == p[1..] + q;
      RunAppend(Next(st, p[0]), p[1..], q, letter);
    }
  }

  /** Lines before the process marker produce nothing and leave the scan at the start. */
  lemma {:induction false} BeforeMarkerSilent(p: seq<string>, letter: string)
    requires forall l :: l in p ==> !Contains(l, ProcessMarker)
    ensures Run(Start, p, letter) == []
    ensures After(Start, p) == Start
    decreases |p|
  {
    if p != [] {
      assert p[0] in p;
      assert forall l :: l in p[1..] ==> l in p;
      BeforeMarkerSilent(p[1..], letter);
    }
  }

  /**
   * The output depends only on the input from the first marker line on, and
   * the marker line itself is filtered as if processing had already begun.
   */
  lemma MarkerStartsProcessing(p: seq<string>, m: string, q: seq<string>, letter: string)
    requires letter in ReplacementLetters
    requires forall l :: l in p ==> !Contains(l, ProcessMarker)
    requires Contains(m, ProcessMarker)
    ensures Adjust(p + [m] + q, letter)
            == Ok([Preamble, FlagSet] + Run(Scan(true, false), [m] + q, letter) + [FlagClear])
  {
    RunFromMarker(p, m, q, letter);
  }

  lemma RunFromMarker(p: seq<string>, m: string, q: seq<string>, letter: string)
    requires forall l :: l in p ==> !Contains(l, ProcessMarker)
    requires Contains(m, ProcessMarker)
    ensures Run(Start, p + [m] + q, letter) == Run(Scan(true, false), [m] + q, letter)
  {
    assert p + [m] + q == p + ([m] + q);
    RunAppend(Start, p, [m] + q, letter);
    BeforeMarkerSilent(p, letter);
    MarkerRun(m, q, letter);
  }

  lemma MarkerRun(m: string, q: seq<string>, letter: string)
    requires Contains(m, ProcessMarker)
    ensures Run(Start, [m] + q, letter) == Run(Scan(true, false), [m] + q, letter)
  {
    RunCons(Start, m, q, letter);
    RunCons(Scan(true, false), m, q, letter);
    MarkerLine(m, letter);
  }

  /** On the marker line itself the scan behaves as if processing had already begun. */
  lemma MarkerLine(m: string, letter: string)
    requires Contains(m, ProcessMarker)
    ensures Emit(Start, m, letter) == Emit(Scan(true, false), m, letter)
    ensures Next(Start, m) == Next(Scan(true, false), m)
  {
    assert Survives(Start, m) == Survives(Scan(true, false), m);
  }

  /** A listing without the marker is rewritten to the frame alone. */
  lemma NoMarkerNoBody(lines: seq<string>, letter: string)
    requires letter in ReplacementLetters
    requires forall l :: l in lines ==> !Contains(l, ProcessMarker)
    ensures Adjust(lines, letter) == Ok([Preamble, FlagSet, FlagClear])
  {
    BeforeMarkerSilent(lines, letter);
  }

  /** Every body line ends in a newline, has no `E` token and no `G1 Z`. */
  lemma {:induction false} RunWellFormed(st: Scan, lines: seq<string>, letter: string)
    requires letter in ReplacementLetters
    ensures forall o :: o in Run(st, lines, letter) ==> WellFormed(o)
    decreases |lines|
  {
    if lines != [] {
      RewriteWellFormed(lines[0], letter);
      RunWellFormed(Next(st, lines[0]), lines[1..], letter);
    }
  }

  /** Every output line, the frame included, is well formed. */
  lemma AdjustWellFormed(lines: seq<string>, letter: string)
    ensures Adjust(lines, letter).Ok? ==>
              forall o :: o in Adjust(lines, letter).lines ==> WellFormed(o)
  {
    if letter in ReplacementLetters {
      RunWellFormed(Start, lines, letter);
      FixedLinesWellFormed();
    }
  }

  /** The lines that do not start with `;`, in order. */
  function DropComments(lines: seq<string>): seq<string>
  {
    if lines == [] then []
    else (if StartsWith(lines[0], ";") then [] else [lines[0]]) + DropComments(lines[1..])
  }

  /** Once both flags are set they stay set. */
  lemma SummaryScanStable(l: string)
    ensures Next(Scan(true, true), l) == Scan(true, true)
  {
  }

  /** After the build summary a comment line adds nothing. */
  lemma CommentSilentAfterSummary(l: string, letter: string)
    requires StartsWith(l, ";")
    ensures Emit(Scan(true, true), l, letter) == []
  {
  }

  /** Once the build summary has been seen, comment lines make no difference. */
  lemma {:induction false} CommentsIgnoredAfterSummary(q: seq<string>, letter: string)
    ensures Run(Scan(true, true), q, letter) == Run(Scan(true, true), DropComments(q), letter)
    decreases |q|
  {
    if q != [] {
      CommentsIgnoredAfterSummary(q[1..], letter);
      CommentStep(q, letter);
    }
  }

  /** The inductive step of `CommentsIgnoredAfterSummary`, for the first line of `q`. */
  lemma CommentStep(q: seq<string>, letter: string)
    requires q != []
    requires Run(Scan(true, true), q[1..], letter) == Run(Scan(true, true), DropComments(q[1..]), letter)
    ensures Run(Scan(true, true), q, letter) == Run(Scan(true, true), DropComments(q), letter)
  {
    var S, l, rest := Scan(true, true), q[0], q[1..];
    assert q == [l] + rest;
    SummaryScanStable(l);
    if StartsWith(l, ";") {
      CommentSilentAfterSummary(l, letter);
      SilentStep(S, l, rest, letter);
      assert DropComments(q) == DropComments(rest);
    } else {
      RunCons(S, l, rest, letter);
      assert DropComments(q) == [l] + DropComments(rest);
      RunCons(S, l, DropComments(rest), letter);
    }
  }

  /** A build-summary line past the marker adds nothing and sets both flags. */
  lemma SummaryStep(st: Scan, l: string, letter: string)
    requires Contains(l, SummaryTag)
    requires st.inProcess || Contains(l, ProcessMarker)
    ensures Emit(st, l, letter) == [] && Next(st, l) == Scan(true, true)
  {
  }

  /**
   * A "Build Summary" line adds nothing itself, and from it on every comment
   * line is dropped.
   */
  lemma SummaryLineSilencesComments(st: Scan, p: seq<string>, l: string, q: seq<string>, letter: string)
    requires Contains(l, SummaryTag)
    requires After(st, p).inProcess || Contains(l, ProcessMarker)
    ensures Run(st, p + [l] + q, letter)
            == Run(st, p, letter) + Run(Scan(true, true), DropComments(q), letter)
  {
    assert p + [l] + q == p + ([l] + q);
    RunAppend(st, p, [l] + q, letter);
    SummaryStep(After(st, p), l, letter);
    SilentStep(After(st, p), l, q, letter);
    CommentsIgnoredAfterSummary(q, letter);
  }

  /** A tool line past the marker, or any non-marker tool line, is skipped without effect. */
  lemma ToolLineStep(st: Scan, l: string, letter: string)
    requires HasToolCommand(l) && !Contains(l, SummaryTag)
    requires st.inProcess || !Contains(l, ProcessMarker)
    requires st.afterSummary ==> st.inProcess
    ensures Emit(st, l, letter) == [] && Next(st, l) == st
  {
  }

  /**
   * Deleting a tool, spindle or fan line from the input does not change the
   * output, unless that line is the process marker or a build-summary line.
   */
  lemma ToolLineTransparent(st: Scan, p: seq<string>, l: string, q: seq<string>, letter: string)
    requires HasToolCommand(l) && !Contains(l, SummaryTag)
    requires After(st, p).inProcess || !Contains(l, ProcessMarker)
    requires st.afterSummary ==> st.inProcess
    ensures Run(st, p + [l] + q, letter) == Run(st, p + q, letter)
  {
    assert p + [l] + q == p + ([l] + q);
    RunAppend(st, p, [l] + q, letter);
    RunAppend(st, p, q, letter);
    AfterKeepsSummaryInProcess(st, p);
    ToolLineStep(After(st, p), l, letter);
    SilentStep(After(st, p), l, q, letter);
  }

  /** A line that adds nothing only moves the scan on. */
  lemma SilentStep(st: Scan, l: string, q: seq<string>, letter: string)
    requires Emit(st, l, letter) == []
    ensures Run(st, [l] + q, letter) == Run(Next(st, l), q, letter)
  {
    RunCons(st, l, q, letter);
  }

  lemma {:induction false} AfterKeepsSummaryInProcess(st: Scan, p: seq<string>)
    requires st.afterSummary ==> st.inProcess
    ensures After(st, p).afterSummary ==> After(st, p).inProcess
    decreases |p|
  {
    if p != [] {
      AfterKeepsSummaryInProcess(Next(st, p[0]), p[1..]);
    }
  }
}
