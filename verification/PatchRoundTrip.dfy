// Printing and parsing undo each other up to a normal form.
module PatchRoundTrip {
  import opened Common
  import opened TextLines
  import opened ApplyPatch

  // ---------- Normal form ----------

  function NormalLineKind(op: LineKind): LineKind {
    match op
    case Add => Add
    case Remove => Remove
    case Delete => Remove
    case _ => Context
  }

  function NormalLine(l: LineOp): LineOp {
    LineOp(NormalLineKind(l.op), TrimCR(l.text))
  }

  function NormalLines(ls: seq<LineOp>): seq<LineOp> {
    seq(|ls|, i requires 0 <= i < |ls| => NormalLine(ls[i]))
  }

  function NormalHunk(h: Hunk): Hunk {
    Hunk(TrimSpace(h.context), NormalLines(h.lines))
  }

  function NormalHunks(hs: seq<Hunk>): seq<Hunk> {
    seq(|hs|, i requires 0 <= i < |hs| => NormalHunk(hs[i]))
  }

  /** Content ends in a newline unless it is empty. */
  function NormalContent(content: string): string {
    if content == "" then "" else Terminate(TrimCRAll(Split(DropFinalNewline(content))))
  }

  /**
   * What is left of one operation after printing and parsing: a replacement
   * becomes a deletion and an addition, an unknown kind disappears, and the
   * fields a kind does not print are empty.
   */
  function NormalOp(op: Operation): seq<Operation> {
    var path := TrimCR(op.path);
    var added := Operation(AddFile, path, "", NormalContent(op.content), []);
    var deleted := Operation(DeleteFile, path, "", "", []);
    if op.kind == AddFile then [added]
    else if op.kind == DeleteFile then [deleted]
    else if op.kind == UpdateFile then
      [Operation(UpdateFile, path, TrimCR(op.moveTo), "", NormalHunks(op.hunks))]
    else if op.kind == ReplaceFile then [deleted, added]
    else []
  }

  function Normal(ops: seq<Operation>): seq<Operation> {
    if ops == [] then [] else NormalOp(ops[0]) + Normal(ops[1..])
  }

  /** No field that the operation prints on one line contains a line break. */
  predicate OneLineFields(op: Operation) {
    && (op.kind.OtherKind? || NoNewline(op.path))
    && (op.kind == UpdateFile ==>
      NoNewline(op.moveTo) && forall i :: 0 <= i < |op.hunks| ==> OneLineHunk(op.hunks[i]))
  }

  predicate OneLineHunk(h: Hunk) {
    NoNewline(h.context) && forall i :: 0 <= i < |h.lines| ==> NoNewline(h.lines[i].text)
  }

  predicate AllOneLine(ops: seq<Operation>) {
    forall i :: 0 <= i < |ops| ==> OneLineFields(ops[i])
  }

  // ---------- Parsing printed lines ----------

  lemma StepNoLines(st: ParseState)
    ensures StepLines(st, []) == st
  {
  }

  lemma {:induction false} StepLinesAppend(st: ParseState, a: seq<string>, b: seq<string>)
    ensures StepLines(st, a + b) == StepLines(StepLines(st, a), b)
    decreases a
  {
    hide BEGIN, END, ADD, DELETE, UPDATE, MOVE, HUNK;
    if a == [] {
      assert a + b == b;
    } else {
      assert (a + b)[1..] == a[1..] + b;
      StepLinesAppend(StepLine(st, a[0]), a[1..], b);
    }
  }

  /** Two texts that differ at one position are no prefix of one another. */
  lemma DifferAt(p: string, line: string, k: nat)
    requires k < |p| && k < |line| && p[k] != line[k]
    ensures p != line && !(p <= line)
  {
  }

  /** The only facts about the markers the proofs below use. */
  lemma Markers()
    ensures |BEGIN| > 4 && |END| > 4 && |ADD| > 4 && |DELETE| > 4 && |UPDATE| > 4 && |MOVE| > 4
    ensures BEGIN[0] == END[0] == ADD[0] == DELETE[0] == UPDATE[0] == MOVE[0] == '*'
    ensures BEGIN[4] == 'B' && END[4] == 'E' && ADD[4] == 'A'
    ensures DELETE[4] == 'D' && UPDATE[4] == 'U' && MOVE[4] == 'M'
    ensures ADD[|ADD| - 1] == DELETE[|DELETE| - 1] == UPDATE[|UPDATE| - 1] == MOVE[|MOVE| - 1] == ' '
    ensures TrimCR(BEGIN) == BEGIN && TrimCR(END) == END
    ensures NoNewline(BEGIN) && NoNewline(END) && NoNewline(ADD) && NoNewline(DELETE)
    ensures NoNewline(UPDATE) && NoNewline(MOVE) && NoNewline(HUNK)
    ensures HUNK[0] == '@' && HUNK[1] == '@' && |HUNK| == 2
  {
  }

  lemma AfterPrefix(p: string, s: string)
    ensures p <= p + s && (p + s)[|p|..] == s && |p + s| >= |p|
    ensures forall k :: 0 <= k < |p| ==> (p + s)[k] == p[k]
  {
  }

  lemma AddLine(st: ParseState, path: string)
    ensures StepLine(st, ADD + path) == Begin(st, AddFile, TrimCR(path))
  {
    hide BEGIN, END, ADD, DELETE, UPDATE, MOVE, HUNK;
    Markers();
    TrimCRAfterPrefix(ADD, path);
    var line := ADD + TrimCR(path);
    AfterPrefix(ADD, TrimCR(path));
    assert line[4] == 'A';
    DifferAt(BEGIN, line, 4);
    DifferAt(END, line, 4);
  }

  lemma DeleteLine(st: ParseState, path: string)
    ensures StepLine(st, DELETE + path) == Begin(st, DeleteFile, TrimCR(path))
  {
    hide BEGIN, END, ADD, DELETE, UPDATE, MOVE, HUNK;
    Markers();
    TrimCRAfterPrefix(DELETE, path);
    var line := DELETE + TrimCR(path);
    AfterPrefix(DELETE, TrimCR(path));
    assert line[4] == 'D';
    DifferAt(BEGIN, line, 4);
    DifferAt(END, line, 4);
    DifferAt(ADD, line, 4);
  }

  lemma UpdateLine(st: ParseState, path: string)
    ensures StepLine(st, UPDATE + path) == Begin(st, UpdateFile, TrimCR(path))
  {
    hide BEGIN, END, ADD, DELETE, UPDATE, MOVE, HUNK;
    Markers();
    TrimCRAfterPrefix(UPDATE, path);
    var line := UPDATE + TrimCR(path);
    AfterPrefix(UPDATE, TrimCR(path));
    assert line[4] == 'U';
    DifferAt(BEGIN, line, 4);
    DifferAt(END, line, 4);
    DifferAt(ADD, line, 4);
    DifferAt(DELETE, line, 4);
  }

  lemma MoveLine(st: ParseState, target: string)
    requires Updating(st)
    ensures StepLine(st, MOVE + target) == st.(current := Some(st.current.value.(moveTo := TrimCR(target))))
  {
    hide BEGIN, END, ADD, DELETE, UPDATE, MOVE, HUNK;
    Markers();
    TrimCRAfterPrefix(MOVE, target);
    var line := MOVE + TrimCR(target);
    AfterPrefix(MOVE, TrimCR(target));
    assert line[4] == 'M';
    DifferAt(BEGIN, line, 4);
    DifferAt(END, line, 4);
    DifferAt(ADD, line, 4);
    DifferAt(DELETE, line, 4);
    DifferAt(UPDATE, line, 4);
  }

  lemma HunkHeaderLine(st: ParseState, h: Hunk)
    requires Updating(st)
    ensures StepLine(st, HunkHeader(h)) ==
      st.(current := Some(st.current.value.(hunks := st.current.value.hunks + [Hunk(TrimSpace(h.context), [])])))
  {
    hide BEGIN, END, ADD, DELETE, UPDATE, MOVE, HUNK;
    Markers();
    var line := TrimCR(HunkHeader(h));
    if h.context != "" {
      TrimCRAfterPrefix(HUNK + " ", h.context);
      assert line[2..] == " " + TrimCR(h.context);
      TrimSpaceIgnoresFrame(h.context);
    } else {
      assert line == HUNK && line[2..] == "";
    }
    assert line[0] == '@';
    DifferAt(BEGIN, line, 0);
    DifferAt(END, line, 0);
    DifferAt(ADD, line, 0);
    DifferAt(DELETE, line, 0);
    DifferAt(UPDATE, line, 0);
    DifferAt(MOVE, line, 0);
  }

  /**
   * A line that starts with a blank, a plus or a minus is never taken for a
   * marker or a header, whatever follows.
   */
  lemma TextLine(st: ParseState, prefix: string, text: string)
    requires |prefix| == 1 && prefix[0] != '*' && prefix[0] != '@' && prefix[0] != '\r'
    ensures StepLine(st, prefix + text) ==
      if st.current.None? then st
      else st.(current := Some(BodyLine(st.current.value, prefix + TrimCR(text))))
  {
    hide BEGIN, END, ADD, DELETE, UPDATE, MOVE, HUNK, BodyLine;
    Markers();
    TrimCRAfterPrefix(prefix, text);
    var line := prefix + TrimCR(text);
    assert line[0] == prefix[0];
    DifferAt(BEGIN, line, 0);
    DifferAt(END, line, 0);
    DifferAt(ADD, line, 0);
    DifferAt(DELETE, line, 0);
    DifferAt(UPDATE, line, 0);
    DifferAt(MOVE, line, 0);
    DifferAt(HUNK, line, 0);
  }

  lemma {:induction false} ParseAddedLines(st: ParseState, lines: seq<string>)
    requires st.current.Some? && st.current.value.kind == AddFile
    ensures StepLines(st, Plus(lines)) ==
      st.(current := Some(st.current.value.(content := st.current.value.content + Terminate(TrimCRAll(lines)))))
    decreases lines
  {
    hide StepLine, TrimCR;
    var op := st.current.value;
    if lines == [] {
      assert op.content + Terminate([]) == op.content;
    } else {
      assert Plus(lines)[1..] == Plus(lines[1..]);
      assert TrimCRAll(lines)[1..] == TrimCRAll(lines[1..]);
      TextLine(st, "+", lines[0]);
      assert ("+" + TrimCR(lines[0]))[1..] == TrimCR(lines[0]);
      var next := StepLine(st, "+" + lines[0]);
      assert next.current.value == op.(content := op.content + TrimCR(lines[0]) + "\n");
      ParseAddedLines(next, lines[1..]);
      assert op.content + TrimCR(lines[0]) + "\n" + Terminate(TrimCRAll(lines[1..]))
          == op.content + Terminate(TrimCRAll(lines));
    }
  }

  lemma ParsePrintedLine(st: ParseState, done: seq<Hunk>, h: Hunk, l: LineOp)
    requires Updating(st) && st.current.value.hunks == done + [h]
    ensures StepLine(st, PrintedLine(l)) ==
      st.(current := Some(st.current.value.(hunks := done + [h.(lines := h.lines + [NormalLine(l)])])))
  {
    hide StepLine, TrimCR;
    var prefix := LineOpPrefix(l.op);
    TextLine(st, prefix, l.text);
    var line := prefix + TrimCR(l.text);
    assert line[1..] == TrimCR(l.text);
    assert line[0] == prefix[0];
    var h' := h.(lines := h.lines + [NormalLine(l)]);
    assert (done + [h])[|done| := h'] == done + [h'];
  }

  lemma {:induction false} ParsePrintedLines(st: ParseState, done: seq<Hunk>, h: Hunk, ls: seq<LineOp>)
    requires Updating(st) && st.current.value.hunks == done + [h]
    ensures StepLines(st, PrintedLines(ls)) ==
      st.(current := Some(st.current.value.(hunks := done + [h.(lines := h.lines + NormalLines(ls))])))
    decreases ls
  {
    hide StepLine, PrintedLine, NormalLine;
    if ls == [] {
      assert h.lines + NormalLines(ls) == h.lines;
    } else {
      assert PrintedLines(ls)[1..] == PrintedLines(ls[1..]);
      ParsePrintedLine(st, done, h, ls[0]);
      var h' := h.(lines := h.lines + [NormalLine(ls[0])]);
      var next := StepLine(st, PrintedLine(ls[0]));
      ParsePrintedLines(next, done, h', ls[1..]);
      assert h'.lines + NormalLines(ls[1..]) == h.lines + NormalLines(ls);
    }
  }

  lemma ParseHunk(st: ParseState, h: Hunk)
    requires Updating(st)
    ensures StepLines(st, [HunkHeader(h)] + PrintedLines(h.lines)) ==
      st.(current := Some(st.current.value.(hunks := st.current.value.hunks + [NormalHunk(h)])))
  {
    hide BEGIN, END, ADD, DELETE, UPDATE, MOVE, HUNK, StepLine, HunkHeader, PrintedLines;
    var done := st.current.value.hunks;
    var header := [HunkHeader(h)];
    StepLinesAppend(st, header, PrintedLines(h.lines));
    HunkHeaderLine(st, h);
    var begun := StepLine(st, header[0]);
    assert StepLines(st, header) == begun;
    var empty := Hunk(TrimSpace(h.context), []);
    ParsePrintedLines(begun, done, empty, h.lines);
    assert empty.lines + NormalLines(h.lines) == NormalLines(h.lines);
  }

  lemma {:induction false} ParseHunks(st: ParseState, hs: seq<Hunk>)
    requires Updating(st)
    ensures StepLines(st, HunkLines(hs)) ==
      st.(current := Some(st.current.value.(hunks := st.current.value.hunks + NormalHunks(hs))))
    decreases hs
  {
    hide StepLine, HunkHeader, PrintedLines, NormalHunk, StepLines;
    var done := st.current.value.hunks;
    if hs == [] {
      StepNoLines(st);
      assert done + NormalHunks(hs) == done;
    } else {
      var lines := [HunkHeader(hs[0])] + PrintedLines(hs[0].lines);
      StepLinesAppend(st, lines, HunkLines(hs[1..]));
      ParseHunk(st, hs[0]);
      ParseHunks(StepLines(st, lines), hs[1..]);
      assert done + [NormalHunk(hs[0])] + NormalHunks(hs[1..]) == done + NormalHunks(hs);
    }
  }

  lemma ParseAddFile(st: ParseState, path: string, content: string)
    ensures StepLines(st, [ADD + path] + AddedLines(content)) ==
      ParseState(Flush(st), Some(Operation(AddFile, TrimCR(path), "", NormalContent(content), [])))
  {
    hide BEGIN, END, ADD, DELETE, UPDATE, MOVE, HUNK, StepLine;
    AddLine(st, path);
    var lines := AddedLines(content);
    var begun := Begin(st, AddFile, TrimCR(path));
    StepLinesAppend(st, [ADD + path], lines);
    assert StepLines(st, [ADD + path]) == begun;
    if content != "" {
      var pieces := Split(DropFinalNewline(content));
      ParseAddedLines(begun, pieces);
      assert "" + Terminate(TrimCRAll(pieces)) == NormalContent(content);
    }
  }

  lemma ParseUpdateFile(st: ParseState, op: Operation)
    requires op.kind == UpdateFile
    ensures StepLines(st, OpLines(op)) == ParseState(Flush(st), Some(NormalOp(op)[0]))
  {
    hide BEGIN, END, ADD, DELETE, UPDATE, MOVE, HUNK;
    var first := [UPDATE + op.path];
    var move := if op.moveTo != "" then [MOVE + op.moveTo] else [];
    StepLinesAppend(st, first + move, HunkLines(op.hunks));
    StepLinesAppend(st, first, move);
    UpdateLine(st, op.path);
    var begun := Begin(st, UpdateFile, TrimCR(op.path));
    assert StepLines(st, first) == begun;
    if op.moveTo != "" {
      MoveLine(begun, op.moveTo);
    }
    var moved := StepLines(begun, move);
    assert moved == begun.(current := Some(begun.current.value.(moveTo := TrimCR(op.moveTo))));
    ParseHunks(moved, op.hunks);
    assert [] + NormalHunks(op.hunks) == NormalHunks(op.hunks);
  }

  /** The printed form of one operation is read back as its normal form. */
  lemma ParseOneOperation(st: ParseState, op: Operation)
    ensures Flush(StepLines(st, OpLines(op))) == Flush(st) + NormalOp(op)
  {
    hide BEGIN, END, ADD, DELETE, UPDATE, MOVE, HUNK;
    if op.kind == AddFile {
      ParseAddFile(st, op.path, op.content);
    } else if op.kind == DeleteFile {
      DeleteLine(st, op.path);
      assert StepLines(st, OpLines(op)) == StepLine(st, DELETE + op.path);
    } else if op.kind == UpdateFile {
      ParseUpdateFile(st, op);
    } else if op.kind == ReplaceFile {
      DeleteLine(st, op.path);
      var begun := Begin(st, DeleteFile, TrimCR(op.path));
      assert StepLines(st, [DELETE + op.path]) == begun;
      StepLinesAppend(st, [DELETE + op.path], [ADD + op.path] + AddedLines(op.content));
      ParseAddFile(begun, op.path, op.content);
    }
  }

  lemma {:induction false} ParseBody(st: ParseState, ops: seq<Operation>)
    ensures Flush(StepLines(st, BodyLines(ops))) == Flush(st) + Normal(ops)
    decreases ops
  {
    hide OpLines, StepLine, StepLines, NormalOp;
    if ops == [] {
      assert StepLines(st, []) == st by { hide *; StepNoLines(st); }
    } else {
      var next := StepLines(st, OpLines(ops[0]));
      StepLinesAppend(st, OpLines(ops[0]), BodyLines(ops[1..]));
      ParseOneOperation(st, ops[0]);
      ParseBody(next, ops[1..]);
      assert Flush(st) + NormalOp(ops[0]) + Normal(ops[1..]) == Flush(st) + (NormalOp(ops[0]) + Normal(ops[1..]));
    }
  }

  // ---------- Printed lines hold no line break ----------

  lemma {:induction false} HunkLinesOneLine(hs: seq<Hunk>)
    requires forall i :: 0 <= i < |hs| ==> OneLineHunk(hs[i])
    ensures forall i :: 0 <= i < |HunkLines(hs)| ==> NoNewline(HunkLines(hs)[i])
  {
    if hs != [] {
      assert OneLineHunk(hs[0]);
      HunkLinesOneLine(hs[1..]);
    }
  }

  lemma OpLinesOneLine(op: Operation)
    requires OneLineFields(op)
    ensures forall i :: 0 <= i < |OpLines(op)| ==> NoNewline(OpLines(op)[i])
  {
    hide BEGIN, END, ADD, DELETE, UPDATE, MOVE, HUNK;
    Markers();
    if op.kind == UpdateFile {
      HunkLinesOneLine(op.hunks);
    }
    SplitPieces(DropFinalNewline(op.content));
    var added := AddedLines(op.content);
    assert forall i :: 0 <= i < |added| ==> NoNewline(added[i]);
  }

  lemma {:induction false} BodyLinesOneLine(ops: seq<Operation>)
    requires AllOneLine(ops)
    ensures forall i :: 0 <= i < |BodyLines(ops)| ==> NoNewline(BodyLines(ops)[i])
  {
    hide BEGIN, END, ADD, DELETE, UPDATE, MOVE, HUNK;
    if ops != [] {
      OpLinesOneLine(ops[0]);
      BodyLinesOneLine(ops[1..]);
    }
  }

  lemma SplitPatchText(ops: seq<Operation>)
    requires AllOneLine(ops)
    ensures BEGIN <= PatchText(ops)
    ensures Split(PatchText(ops)) == [BEGIN] + BodyLines(ops) + [END]
  {
    hide BEGIN, END, ADD, DELETE, UPDATE, MOVE, HUNK, OpLines, BodyLines;
    Markers();
    var body := BodyLines(ops);
    BodyLinesOneLine(ops);
    SplitTerminated([BEGIN] + body, END);
    assert ([BEGIN] + body)[1..] == body;
    assert PatchText(ops) == Terminate([BEGIN] + body) + END;
  }

  /**
   * Parse after print is the normal form, for every list of operations. The
   * parser gives up exactly when no operation has a kind the printer knows.
   */
  lemma ParseOfPrinted(ops: seq<Operation>)
    requires AllOneLine(ops)
    ensures Parse(PatchText(ops)) == if Normal(ops) == [] then None else Some(Normal(ops))
  {
    hide BEGIN, END, ADD, DELETE, UPDATE, MOVE, HUNK, OpLines, BodyLines, PatchText, Split;
    Markers();
    SplitPatchText(ops);
    var start := ParseState([], None);
    var body := BodyLines(ops);
    StepLinesAppend(start, [BEGIN] + body, [END]);
    StepLinesAppend(start, [BEGIN], body);
    assert StepLines(start, [BEGIN]) == StepLine(start, BEGIN) == start;
    var st := StepLines(start, body);
    assert StepLines(st, [END]) == StepLine(st, END) == st;
    ParseBody(start, ops);
    assert Flush(start) + Normal(ops) == Normal(ops);
    assert StepLines(start, [BEGIN] + body + [END]) == st;
  }

  // ---------- What the parser can return ----------

  /** An operation that printing and parsing leave as it is. */
  predicate Canonical(op: Operation) {
    OneLineFields(op) && NormalOp(op) == [op]
  }

  predicate AllCanonical(ops: seq<Operation>) {
    forall i :: 0 <= i < |ops| ==> Canonical(ops[i])
  }

  /** A text cut off the end of a parsed line: no line break and no final '\r'. */
  predicate Clean(s: string) {
    NoNewline(s) && TrimCR(s) == s
  }

  lemma CleanSuffix(raw: string, k: nat)
    requires NoNewline(raw) && k <= |TrimCR(raw)|
    ensures Clean(TrimCR(raw)[k..])
  {
    var line := TrimCR(raw);
    assert forall i :: 0 <= i < |line[k..]| ==> line[k..][i] == raw[k + i];
    if line[k..] != "" {
      assert line[k..][|line[k..]| - 1] == line[|line| - 1];
    }
  }

  lemma TerminateOne(line: string)
    ensures Terminate([line]) == line + "\n"
  {
    assert Terminate([line]) == line + "\n" + "";
  }

  lemma NormalContentExtend(content: string, line: string)
    requires NormalContent(content) == content && Clean(line)
    ensures NormalContent(content + line + "\n") == content + line + "\n"
  {
    hide Split, Terminate, TrimCR;
    var whole := content + line + "\n";
    assert DropFinalNewline(whole) == content + line;
    TerminateOne(line);
    if content == "" {
      assert content + line == line;
      SplitSingleLine(line);
      assert TrimCRAll([line]) == [line];
    } else {
      var init := DropFinalNewline(content);
      var pieces := Split(init);
      TerminateEndsInNewline(TrimCRAll(pieces));
      assert content == init + "\n";
      SplitExtend(init, line);
      assert TrimCRAll(pieces + [line]) == TrimCRAll(pieces) + [line];
      TerminateAppend(TrimCRAll(pieces), [line]);
    }
  }

  lemma {:induction false} TerminateEndsInNewline(lines: seq<string>)
    requires lines != []
    ensures Terminate(lines) != "" && Terminate(lines)[|Terminate(lines)| - 1] == '\n'
  {
    if |lines| > 1 {
      TerminateEndsInNewline(lines[1..]);
    } else {
      assert Terminate(lines) == lines[0] + "\n" + "";
    }
  }

  lemma BeginCanonical(kind: Kind, path: string)
    requires kind in {AddFile, DeleteFile, UpdateFile} && Clean(path)
    ensures Canonical(Operation(kind, path, "", "", []))
  {
    assert NormalHunks([]) == [];
  }

  lemma MoveCanonical(op: Operation, target: string)
    requires Canonical(op) && op.kind == UpdateFile && Clean(target)
    ensures Canonical(op.(moveTo := target))
  {
  }

  lemma HunkCanonical(op: Operation, context: string)
    requires Canonical(op) && op.kind == UpdateFile && NoNewline(context)
    ensures Canonical(op.(hunks := op.hunks + [Hunk(TrimSpace(context), [])]))
  {
    var h := Hunk(TrimSpace(context), []);
    TrimSpaceOfTrimmed(context);
    TrimSpaceKeepsNoNewline(context);
    assert NormalLines([]) == [];
    assert NormalHunks(op.hunks + [h]) == NormalHunks(op.hunks) + [NormalHunk(h)];
  }

  lemma LineCanonical(op: Operation, l: LineOp)
    requires Canonical(op) && op.kind == UpdateFile && op.hunks != []
    requires l.op in {Context, Add, Remove} && Clean(l.text)
    ensures Canonical(op.(hunks := AppendLine(op.hunks, l)))
  {
    var k := |op.hunks| - 1;
    var last := op.hunks[k];
    var grown := last.(lines := last.lines + [l]);
    assert OneLineHunk(last);
    assert NormalHunks(op.hunks)[k] == last;
    assert NormalLines(last.lines + [l]) == NormalLines(last.lines) + [l];
    assert NormalHunk(grown) == grown;
    assert OneLineHunk(grown);
    var hunks := AppendLine(op.hunks, l);
    forall i | 0 <= i < |hunks|
      ensures NormalHunk(hunks[i]) == hunks[i] && OneLineHunk(hunks[i])
    {
      if i != k {
        assert NormalHunks(op.hunks)[i] == op.hunks[i];
      }
    }
    assert NormalHunks(hunks) == hunks;
  }

  lemma ContentCanonical(op: Operation, line: string)
    requires Canonical(op) && op.kind == AddFile && Clean(line)
    ensures Canonical(op.(content := op.content + line + "\n"))
  {
    NormalContentExtend(op.content, line);
  }

  lemma BodyLineCanonical(op: Operation, raw: string)
    requires Canonical(op) && NoNewline(raw)
    ensures Canonical(BodyLine(op, TrimCR(raw)))
  {
    var line := TrimCR(raw);
    if line != "" {
      CleanSuffix(raw, 1);
      if op.kind == AddFile && "+" <= line {
        ContentCanonical(op, line[1..]);
      } else if op.kind == UpdateFile && op.hunks != [] && LineOpFromPrefix(line).Some? {
        LineCanonical(op, LineOp(LineOpFromPrefix(line).value, line[1..]));
      }
    }
  }

  lemma StepCanonical(st: ParseState, raw: string)
    requires AllCanonical(Flush(st)) && NoNewline(raw)
    ensures AllCanonical(Flush(StepLine(st, raw)))
  {
    hide BEGIN, END, ADD, DELETE, UPDATE, MOVE, HUNK, Canonical, BodyLine;
    Markers();
    var line := TrimCR(raw);
    if st.current.Some? {
      var op := st.current.value;
      assert Flush(st)[|st.ops|] == op;
      assert Canonical(op);
      BodyLineCanonical(op, raw);
      if op.kind == UpdateFile {
        if MOVE <= line {
          CleanSuffix(raw, |MOVE|);
          MoveCanonical(op, line[|MOVE|..]);
        }
        if HUNK <= line {
          CleanSuffix(raw, 2);
          HunkCanonical(op, line[2..]);
        }
      }
    }
    if ADD <= line {
      CleanSuffix(raw, |ADD|);
      BeginCanonical(AddFile, line[|ADD|..]);
    } else if DELETE <= line {
      CleanSuffix(raw, |DELETE|);
      BeginCanonical(DeleteFile, line[|DELETE|..]);
    } else if UPDATE <= line {
      CleanSuffix(raw, |UPDATE|);
      BeginCanonical(UpdateFile, line[|UPDATE|..]);
    }
    forall i | 0 <= i < |st.ops|
      ensures Canonical(st.ops[i])
    {
      assert Flush(st)[i] == st.ops[i];
    }
  }

  lemma {:induction false} StepLinesCanonical(st: ParseState, lines: seq<string>)
    requires AllCanonical(Flush(st))
    requires forall i :: 0 <= i < |lines| ==> NoNewline(lines[i])
    ensures AllCanonical(Flush(StepLines(st, lines)))
    decreases lines
  {
    hide StepLine, Canonical;
    if lines != [] {
      StepCanonical(st, lines[0]);
      StepLinesCanonical(StepLine(st, lines[0]), lines[1..]);
    }
  }

  lemma CanonicalIsOneLine(ops: seq<Operation>)
    requires AllCanonical(ops)
    ensures AllOneLine(ops)
  {
  }

  lemma {:induction false} NormalOfCanonical(ops: seq<Operation>)
    requires AllCanonical(ops)
    ensures Normal(ops) == ops
  {
    if ops != [] {
      NormalOfCanonical(ops[1..]);
      assert Canonical(ops[0]);
    }
  }

  /**
   * Whatever text the parser accepts, printing its operations and parsing
   * again returns the same operations.
   */
  lemma ParsePrintParse(input: string)
    requires Parse(input).Some?
    ensures AllCanonical(Parse(input).value)
    ensures Parse(PatchText(Parse(input).value)) == Parse(input)
  {
    hide BEGIN, END, StepLine, PatchText, Canonical;
    var ops := Parse(input).value;
    SplitPieces(input);
    StepLinesCanonical(ParseState([], None), Split(input));
    CanonicalIsOneLine(ops);
    NormalOfCanonical(ops);
    ParseOfPrinted(ops);
  }

  // ---------- Texts that printing reproduces ----------

  predicate CleanPieces(content: string) {
    TrimCRAll(Split(DropFinalNewline(content))) == Split(DropFinalNewline(content))
  }

  predicate CleanHunk(h: Hunk) {
    && TrimSpace(h.context) == h.context
    && forall i :: 0 <= i < |h.lines| ==> TrimCR(h.lines[i].text) == h.lines[i].text
  }

  /** No printed line ends in '\r' and the hunk contexts are trimmed. */
  predicate CleanOperation(op: Operation) {
    && TrimCR(op.path) == op.path
    && TrimCR(op.moveTo) == op.moveTo
    && CleanPieces(op.content)
    && forall i :: 0 <= i < |op.hunks| ==> CleanHunk(op.hunks[i])
  }

  lemma AddedLinesOfNormal(content: string)
    requires CleanPieces(content)
    ensures AddedLines(NormalContent(content)) == AddedLines(content)
  {
    if content != "" {
      var init := DropFinalNewline(content);
      SplitPieces(init);
      assert NormalContent(content) == init + "\n";
      assert DropFinalNewline(init + "\n") == init;
    }
  }

  lemma PrintedNormalLines(ls: seq<LineOp>)
    requires forall i :: 0 <= i < |ls| ==> TrimCR(ls[i].text) == ls[i].text
    ensures PrintedLines(NormalLines(ls)) == PrintedLines(ls)
  {
  }

  lemma {:induction false} HunkLinesOfNormal(hs: seq<Hunk>)
    requires forall i :: 0 <= i < |hs| ==> CleanHunk(hs[i])
    ensures HunkLines(NormalHunks(hs)) == HunkLines(hs)
  {
    if hs != [] {
      assert CleanHunk(hs[0]);
      PrintedNormalLines(hs[0].lines);
      assert NormalHunks(hs)[1..] == NormalHunks(hs[1..]);
      HunkLinesOfNormal(hs[1..]);
    }
  }

  lemma BodyLinesOfNormalOp(op: Operation)
    requires CleanOperation(op)
    ensures BodyLines(NormalOp(op)) == OpLines(op)
  {
    hide ADD, DELETE, UPDATE, MOVE, AddedLines, NormalContent, HunkLines, NormalHunks, CleanPieces;
    AddedLinesOfNormal(op.content);
    HunkLinesOfNormal(op.hunks);
    var ns := NormalOp(op);
    if |ns| == 1 {
      assert BodyLines(ns[1..]) == [];
    } else if |ns| == 2 {
      assert ns[1..][1..] == [];
      assert BodyLines(ns[1..]) == OpLines(ns[1]) + [];
    }
  }

  lemma {:induction false} BodyLinesAppend(a: seq<Operation>, b: seq<Operation>)
    ensures BodyLines(a + b) == BodyLines(a) + BodyLines(b)
  {
    if a == [] {
      assert a + b == b;
    } else {
      assert (a + b)[1..] == a[1..] + b;
      BodyLinesAppend(a[1..], b);
    }
  }

  lemma {:induction false} BodyLinesOfNormal(ops: seq<Operation>)
    requires forall i :: 0 <= i < |ops| ==> CleanOperation(ops[i])
    ensures BodyLines(Normal(ops)) == BodyLines(ops)
  {
    hide OpLines, NormalOp, CleanOperation;
    if ops != [] {
      BodyLinesAppend(NormalOp(ops[0]), Normal(ops[1..]));
      BodyLinesOfNormalOp(ops[0]);
      BodyLinesOfNormal(ops[1..]);
    }
  }

  /** Parsing a clean printed patch and printing it again gives the same text. */
  lemma PrintParsePrint(ops: seq<Operation>)
    requires AllOneLine(ops) && Normal(ops) != []
    requires forall i :: 0 <= i < |ops| ==> CleanOperation(ops[i])
    ensures Parse(PatchText(ops)).Some?
    ensures PatchText(Parse(PatchText(ops)).value) == PatchText(ops)
  {
    hide BEGIN, END, Parse, BodyLines, Normal, Terminate, CleanOperation, OneLineFields;
    ParseOfPrinted(ops);
    BodyLinesOfNormal(ops);
  }
}
