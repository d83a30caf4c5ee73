// What patch text says about files, apart from the printer and the parser: a
// line with a blank is there before and after, one with a minus only before,
// one with a plus only after.
module PatchMeaning {
  import opened Common
  import opened TextLines
  import opened ApplyPatch
  import opened PatchRoundTrip

  // ---------- Raw lines ----------

  /** The texts that raw lines expect in the old file. */
  function Expected(lines: seq<string>): seq<string> {
    if lines == [] then []
    else
      (if lines[0] != "" && (lines[0][0] == ' ' || lines[0][0] == '-') then [lines[0][1..]] else []) + Expected(lines[1..])
  }

  /** The texts that raw lines leave in the new file. */
  function Left(lines: seq<string>): seq<string> {
    if lines == [] then []
    else
      (if lines[0] != "" && (lines[0][0] == ' ' || lines[0][0] == '+') then [lines[0][1..]] else []) + Left(lines[1..])
  }

  // ---------- Line operations ----------

  /** The texts of the lines that are not added. */
  function OldTexts(ls: seq<LineOp>): seq<string> {
    if ls == [] then [] else (if ls[0].op == Add then [] else [ls[0].text]) + OldTexts(ls[1..])
  }

  /** The texts of the lines that are not removed. */
  function NewTexts(ls: seq<LineOp>): seq<string> {
    if ls == [] then []
    else (if ls[0].op == Remove || ls[0].op == Delete then [] else [ls[0].text]) + NewTexts(ls[1..])
  }

  // ---------- Printing ----------

  /** A printed hunk expects exactly the texts that are not added, and leaves exactly those that are not removed. */
  lemma {:induction false} PrintedHunkMeans(ls: seq<LineOp>)
    ensures Expected(PrintedLines(ls)) == OldTexts(ls)
    ensures Left(PrintedLines(ls)) == NewTexts(ls)
  {
    if ls != [] {
      var line := PrintedLine(ls[0]);
      assert PrintedLines(ls)[1..] == PrintedLines(ls[1..]);
      assert line[1..] == ls[0].text;
      PrintedHunkMeans(ls[1..]);
    }
  }

  lemma {:induction false} PlusMeans(lines: seq<string>)
    ensures Left(Plus(lines)) == lines && Expected(Plus(lines)) == []
  {
    if lines != [] {
      assert Plus(lines)[1..] == Plus(lines[1..]);
      assert ("+" + lines[0])[1..] == lines[0];
      PlusMeans(lines[1..]);
    }
  }

  /** The lines of an added file leave exactly its content, with a final newline if it is not empty, and expect nothing. */
  lemma AddedLinesMean(content: string)
    ensures Expected(AddedLines(content)) == []
    ensures Terminate(Left(AddedLines(content)))
         == if content == "" || content[|content| - 1] == '\n' then content else content + "\n"
  {
    if content != "" {
      var init := DropFinalNewline(content);
      PlusMeans(Split(init));
      SplitPieces(init);
      if content[|content| - 1] == '\n' {
        assert content == init + "\n";
      }
    }
  }

  // ---------- Whole patches ----------

  /** The lines of a hunk: its header, then lines that expect its old texts and leave its new ones. */
  predicate HunkSays(h: Hunk, lines: seq<string>) {
    && |lines| == 1 + |h.lines|
    && lines[0] == (if h.context == "" then "@@" else "@@ " + h.context)
    && Expected(lines[1..]) == OldTexts(h.lines) && Left(lines[1..]) == NewTexts(h.lines)
  }

  /** The hunks one after the other. */
  predicate HunksSay(hs: seq<Hunk>, lines: seq<string>)
    decreases hs
  {
    if hs == [] then lines == []
    else
      var n := 1 + |hs[0].lines|;
      n <= |lines| && HunkSays(hs[0], lines[..n]) && HunksSay(hs[1..], lines[n..])
  }

  /** Lines that leave the content, with its last line ended, and expect nothing. */
  predicate ContentSays(content: string, lines: seq<string>) {
    && Expected(lines) == []
    && Terminate(Left(lines)) == if content == "" || content[|content| - 1] == '\n' then content else content + "\n"
  }

  /** What the lines of an operation say: the file, and what happens to it. */
  predicate OperationSays(op: Operation, lines: seq<string>) {
    match op.kind
    case AddFile => |lines| >= 1 && lines[0] == "*** Add File: " + op.path && ContentSays(op.content, lines[1..])
    case DeleteFile => lines == ["*** Delete File: " + op.path]
    case UpdateFile =>
      var n := if op.moveTo == "" then 1 else 2;
      && |lines| >= n && lines[0] == "*** Update File: " + op.path
      && (op.moveTo != "" ==> lines[1] == "*** Move to: " + op.moveTo)
      && HunksSay(op.hunks, lines[n..])
    case ReplaceFile =>
      && |lines| >= 2 && lines[0] == "*** Delete File: " + op.path && lines[1] == "*** Add File: " + op.path
      && ContentSays(op.content, lines[2..])
    case OtherKind(_) => lines == []
  }

  lemma {:induction false} PrintedHunksSay(hs: seq<Hunk>)
    ensures HunksSay(hs, HunkLines(hs))
  {
    hide Expected, Left, OldTexts, NewTexts, PrintedLines;
    if hs != [] {
      var h := hs[0];
      var n := 1 + |h.lines|;
      PrintedHunkMeans(h.lines);
      PrintedHunksSay(hs[1..]);
      var lines := HunkLines(hs);
      assert lines[..n] == [HunkHeader(h)] + PrintedLines(h.lines) && lines[n..] == HunkLines(hs[1..]);
      assert lines[..n][1..] == PrintedLines(h.lines);
    }
  }

  lemma PrintedOperationSays(op: Operation)
    ensures OperationSays(op, OpLines(op))
  {
    hide Expected, Left, HunksSay, HunkLines, AddedLines;
    var lines, added := OpLines(op), AddedLines(op.content);
    AddedLinesMean(op.content);
    PrintedHunksSay(op.hunks);
    match op.kind {
      case AddFile => assert lines[1..] == added;
      case ReplaceFile => assert lines[2..] == added;
      case UpdateFile => assert lines[if op.moveTo == "" then 1 else 2..] == HunkLines(op.hunks);
      case _ =>
    }
  }

  /** The operations one after the other. */
  ghost predicate Says(ops: seq<Operation>, lines: seq<string>)
    decreases ops
  {
    if ops == [] then lines == []
    else
      exists n :: 0 <= n <= |lines| && OperationSays(ops[0], lines[..n]) && Says(ops[1..], lines[n..])
  }

  lemma {:induction false} BodySays(ops: seq<Operation>)
    ensures Says(ops, BodyLines(ops))
  {
    hide OperationSays, OpLines;
    if ops != [] {
      var first, rest := OpLines(ops[0]), BodyLines(ops[1..]);
      PrintedOperationSays(ops[0]);
      BodySays(ops[1..]);
      var lines := BodyLines(ops);
      assert lines == first + rest && lines[..|first|] == first && lines[|first|..] == rest;
    }
  }

  /** A printed patch: its lines between the two markers say what the operations do, in order. */
  lemma PatchSays(ops: seq<Operation>) returns (lines: seq<string>)
    ensures PatchText(ops) == "*** Begin Patch\n" + Terminate(lines) + "*** End Patch"
    ensures Says(ops, lines)
  {
    hide Terminate, BodyLines, Says;
    lines := BodyLines(ops);
    BodySays(ops);
    assert BEGIN + "\n" == "*** Begin Patch\n";
  }

  // ---------- Reading ----------

  /** A raw line of a hunk body. */
  predicate HunkLine(line: string) {
    line != "" && (line[0] == ' ' || line[0] == '-' || line[0] == '+')
  }

  lemma ReadOne(st: ParseState, done: seq<Hunk>, h: Hunk, line: string) returns (l: LineOp)
    requires Updating(st) && st.current.value.hunks == done + [h] && HunkLine(line)
    ensures OldTexts([l]) == Expected([TrimCR(line)]) && NewTexts([l]) == Left([TrimCR(line)])
    ensures StepLine(st, line) == st.(current := Some(st.current.value.(hunks := done + [h.(lines := h.lines + [l])])))
  {
    hide StepLine, TrimCR;
    var prefix, text := [line[0]], line[1..];
    assert line == prefix + text;
    TextLine(st, prefix, text);
    TrimCRAfterPrefix(prefix, text);
    assert TrimCR(line) == prefix + TrimCR(text) && (prefix + TrimCR(text))[1..] == TrimCR(text);
    l := LineOp(LineOpFromPrefix(line).value, TrimCR(text));
    assert [l][1..] == [] && [TrimCR(line)][1..] == [];
    var h' := h.(lines := h.lines + [l]);
    assert (done + [h])[|done| := h'] == done + [h'];
  }

  lemma TextsCons(l: LineOp, ls: seq<LineOp>)
    ensures OldTexts([l] + ls) == OldTexts([l]) + OldTexts(ls) && NewTexts([l] + ls) == NewTexts([l]) + NewTexts(ls)
  {
    assert ([l] + ls)[1..] == ls && [l][1..] == [];
  }

  lemma LinesCons(line: string, lines: seq<string>)
    ensures Expected([line] + lines) == Expected([line]) + Expected(lines) && Left([line] + lines) == Left([line]) + Left(lines)
  {
    assert ([line] + lines)[1..] == lines && [line][1..] == [];
  }

  /** Reading the body of a hunk: its lines expect and leave what the raw lines do, without final '\r's. */
  lemma {:induction false} ReadHunkMeans(st: ParseState, done: seq<Hunk>, h: Hunk, lines: seq<string>) returns (ls: seq<LineOp>)
    requires Updating(st) && st.current.value.hunks == done + [h]
    requires forall i :: 0 <= i < |lines| ==> HunkLine(lines[i])
    ensures StepLines(st, lines) == st.(current := Some(st.current.value.(hunks := done + [h.(lines := h.lines + ls)])))
    ensures OldTexts(ls) == Expected(TrimCRAll(lines)) && NewTexts(ls) == Left(TrimCRAll(lines))
    decreases lines
  {
    hide StepLine, TrimCR, HunkLine, OldTexts, NewTexts, Expected, Left;
    if lines == [] {
      ls := [];
      assert h.lines + [] == h.lines && TrimCRAll(lines) == [];
      NothingMeans();
    } else {
      var l := ReadOne(st, done, h, lines[0]);
      var more := ReadHunkMeans(StepLine(st, lines[0]), done, h.(lines := h.lines + [l]), lines[1..]);
      ls := [l] + more;
      assert h.lines + [l] + more == h.lines + ls;
      assert TrimCRAll(lines) == [TrimCR(lines[0])] + TrimCRAll(lines[1..]);
      TextsCons(l, more);
      LinesCons(TrimCR(lines[0]), TrimCRAll(lines[1..]));
    }
  }

  lemma NothingMeans()
    ensures OldTexts([]) == Expected([]) == NewTexts([]) == Left([]) == []
  {
  }

  /** Reading the lines of an added file: the content is what they leave. */
  lemma {:induction false} ReadAddedMeans(st: ParseState, lines: seq<string>)
    requires st.current.Some? && st.current.value.kind == AddFile
    requires forall i :: 0 <= i < |lines| ==> HunkLine(lines[i]) && lines[i][0] == '+'
    ensures StepLines(st, lines) ==
      st.(current := Some(st.current.value.(content := st.current.value.content + Terminate(Left(TrimCRAll(lines))))))
    decreases lines
  {
    hide StepLine, TrimCR, Left;
    var op := st.current.value;
    if lines == [] {
      NothingMeans();
      assert op.content + "" == op.content && TrimCRAll(lines) == [];
    } else {
      var text := lines[0][1..];
      assert lines[0] == "+" + text;
      TextLine(st, "+", text);
      TrimCRAfterPrefix("+", text);
      assert ("+" + TrimCR(text))[1..] == TrimCR(text);
      var next := StepLine(st, lines[0]);
      assert next.current.value == op.(content := op.content + TrimCR(text) + "\n");
      ReadAddedMeans(next, lines[1..]);
      assert TrimCRAll(lines) == [TrimCR(lines[0])] + TrimCRAll(lines[1..]);
      LeftOne(TrimCR(text), TrimCRAll(lines[1..]));
      assert op.content + TrimCR(text) + "\n" + Terminate(Left(TrimCRAll(lines[1..])))
          == op.content + Terminate(Left(TrimCRAll(lines)));
    }
  }

  lemma LeftOne(text: string, lines: seq<string>)
    ensures Left(["+" + text] + lines) == [text] + Left(lines)
  {
    assert (["+" + text] + lines)[1..] == lines && ("+" + text)[1..] == text;
  }
}
