// Exactly which operations survive printing and parsing: also those whose hunk
// contexts run over several lines.
module PatchExactly {
  import opened Common
  import opened TextLines
  import opened ApplyPatch
  import opened PatchRoundTrip

  // ---------- White space ----------

  predicate White(s: string) {
    forall i :: 0 <= i < |s| ==> IsSpace(s[i])
  }

  predicate AllWhite(lines: seq<string>) {
    forall i :: 0 <= i < |lines| ==> White(lines[i])
  }

  lemma {:induction false} TrimRightWhite(x: string, w: string)
    requires White(w)
    ensures TrimRightSpace(x + w) == TrimRightSpace(x)
  {
    hide IsSpace;
    if w == "" {
      assert x + w == x;
    } else {
      assert (x + w)[..|x + w| - 1] == x + w[..|w| - 1];
      TrimRightWhite(x, w[..|w| - 1]);
    }
  }

  lemma {:induction false} TrimRightText(x: string, w: string)
    requires !White(w)
    ensures TrimRightSpace(w) != "" && TrimRightSpace(x + w) == x + TrimRightSpace(w)
  {
    hide IsSpace;
    var init := w[..|w| - 1];
    assert (x + w)[..|x + w| - 1] == x + init;
    if IsSpace(w[|w| - 1]) {
      assert !White(init);
      TrimRightText(x, init);
    }
  }

  lemma {:induction false} TrimLeftWhite(p: string, w: string)
    requires White(p)
    ensures TrimLeftSpace(p + w) == TrimLeftSpace(w)
  {
    hide IsSpace;
    if p == "" {
      assert p + w == w;
    } else {
      assert (p + w)[1..] == p[1..] + w;
      TrimLeftWhite(p[1..], w);
    }
  }

  lemma {:induction false} TrimLeftText(p: string, w: string)
    requires !White(p)
    ensures TrimLeftSpace(p + w) == TrimLeftSpace(p) + w && !White(TrimLeftSpace(p))
  {
    hide IsSpace;
    if IsSpace(p[0]) {
      assert (p + w)[1..] == p[1..] + w;
      assert !White(p[1..]);
      TrimLeftText(p[1..], w);
    }
  }

  lemma NothingIsWhite()
    ensures White("") && TrimLeftSpace("") == "" && TrimRightSpace("") == ""
  {
  }

  /** What follows is trimmed away exactly when it is white. */
  lemma TrimsAlike(p: string, w: string)
    ensures TrimSpace(p + w) == TrimSpace(p) <==> White(w)
  {
    hide IsSpace, White, TrimLeftSpace, TrimRightSpace;
    assert p + "" == p && w + "" == w && "" + w == w;
    if White(p) {
      TrimLeftWhite(p, w);
      TrimLeftWhite(p, "");
      NothingIsWhite();
      if White(w) {
        TrimLeftWhite(w, "");
      } else {
        TrimLeftText(w, "");
        TrimRightText("", TrimLeftSpace(w));
      }
    } else {
      TrimLeftText(p, w);
      TrimLeftText(p, "");
      if White(w) {
        TrimRightWhite(TrimLeftSpace(p), w);
      } else {
        TrimRightText(TrimLeftSpace(p), w);
      }
    }
  }

  lemma AllWhiteCons(line: string, lines: seq<string>)
    ensures AllWhite([line] + lines) <==> White(line) && AllWhite(lines)
  {
    hide White;
    var all := [line] + lines;
    assert all[0] == line && forall i :: 0 <= i < |lines| ==> all[i + 1] == lines[i];
    if AllWhite(all) {
      forall i | 0 <= i < |lines|
        ensures White(lines[i])
      {
        assert White(all[i + 1]);
      }
    }
  }

  lemma WhiteCons(c: char, s: string)
    ensures White([c] + s) <==> IsSpace(c) && White(s)
  {
    hide IsSpace;
    var t := [c] + s;
    assert t[0] == c && forall i :: 0 <= i < |s| ==> t[i + 1] == s[i];
    if White(t) {
      forall i | 0 <= i < |s|
        ensures IsSpace(s[i])
      {
        assert IsSpace(t[i + 1]);
      }
    }
  }

  lemma {:induction false} WhitePieces(s: string)
    ensures White(s) <==> AllWhite(Split(s))
  {
    hide White;
    if s == "" {
      NothingIsWhite();
    } else {
      WhitePieces(s[1..]);
      var rest := Split(s[1..]);
      WhiteCons(s[0], s[1..]);
      assert s == [s[0]] + s[1..];
      if s[0] == '\n' {
        NothingIsWhite();
        AllWhiteCons("", rest);
      } else {
        WhiteCons(s[0], rest[0]);
        AllWhiteCons(rest[0], rest[1..]);
        AllWhiteCons([s[0]] + rest[0], rest[1..]);
        assert rest == [rest[0]] + rest[1..];
      }
    }
  }

  lemma NewlineIsWhite()
    ensures IsSpace('\n')
  {
  }

  lemma SplitBegins(s: string)
    requires s != ""
    ensures s[0] == '\n' ==> Split(s)[0] == "" && Split(s)[1..] == Split(s[1..])
    ensures s[0] != '\n' ==> Split(s)[0] == [s[0]] + Split(s[1..])[0] && Split(s)[1..] == Split(s[1..])[1..]
  {
  }

  /** A text is its first piece and a rest that is white exactly when all other pieces are. */
  lemma {:induction false} FirstPiece(s: string) returns (w: string)
    ensures s == Split(s)[0] + w
    ensures White(w) <==> AllWhite(Split(s)[1..])
  {
    hide White, IsSpace, Split, AllWhite;
    if s == "" {
      w := "";
      NothingSplits();
    } else {
      SplitBegins(s);
      assert s == [s[0]] + s[1..];
      if s[0] == '\n' {
        w := s;
        NewlineIsWhite();
        WhitePieces(s[1..]);
        WhiteCons(s[0], s[1..]);
      } else {
        w := FirstPiece(s[1..]);
      }
    }
  }

  lemma NothingSplits()
    ensures Split("") == [""] && AllWhite([]) && White("") && [""][1..] == []
  {
  }

  lemma {:induction false} SplitAfter(p: string, s: string)
    requires NoNewline(p)
    ensures Split(p + s) == [p + Split(s)[0]] + Split(s)[1..]
  {
    if p == "" {
      assert p + s == s && p + Split(s)[0] == Split(s)[0];
      assert Split(s) == [Split(s)[0]] + Split(s)[1..];
    } else {
      assert (p + s)[1..] == p[1..] + s;
      SplitAfter(p[1..], s);
      assert [p[0]] + (p[1..] + Split(s)[0]) == p + Split(s)[0];
    }
  }

  // ---------- Operations that can be read back ----------

  /** A line the parser passes over inside a hunk. */
  predicate PassedOver(line: string) {
    White(line) && (line != "" ==> line[0] != ' ')
  }

  /** Behind its first line the context has only lines the parser passes over. */
  predicate ReadableContext(context: string) {
    forall i :: 1 <= i < |Split(context)| ==> PassedOver(Split(context)[i])
  }

  predicate ReadableHunk(h: Hunk) {
    ReadableContext(h.context) && forall i :: 0 <= i < |h.lines| ==> NoNewline(h.lines[i].text)
  }

  predicate Readable(op: Operation) {
    && (op.kind.OtherKind? || NoNewline(op.path))
    && (op.kind == UpdateFile ==>
      NoNewline(op.moveTo) && forall i :: 0 <= i < |op.hunks| ==> ReadableHunk(op.hunks[i]))
  }

  predicate AllReadable(ops: seq<Operation>) {
    forall i :: 0 <= i < |ops| ==> Readable(ops[i])
  }

  /** The fields other than the contexts hold no line break. */
  predicate Plain(op: Operation) {
    && (op.kind.OtherKind? || NoNewline(op.path))
    && (op.kind == UpdateFile ==> NoNewline(op.moveTo) && forall i :: 0 <= i < |op.hunks| ==> PlainHunk(op.hunks[i]))
  }

  predicate PlainHunk(h: Hunk) {
    forall i :: 0 <= i < |h.lines| ==> NoNewline(h.lines[i].text)
  }

  predicate AllPlain(ops: seq<Operation>) {
    forall i :: 0 <= i < |ops| ==> Plain(ops[i])
  }

  // ---------- The lines of the text ----------

  /** HunkLines, with the context's own line breaks taken apart. */
  function RawHunks(hs: seq<Hunk>): seq<string> {
    if hs == [] then [] else Split(HunkHeader(hs[0])) + PrintedLines(hs[0].lines) + RawHunks(hs[1..])
  }

  function RawOp(op: Operation): seq<string> {
    if op.kind == UpdateFile
    then [UPDATE + op.path] + (if op.moveTo != "" then [MOVE + op.moveTo] else []) + RawHunks(op.hunks)
    else OpLines(op)
  }

  function RawBody(ops: seq<Operation>): seq<string> {
    if ops == [] then [] else RawOp(ops[0]) + RawBody(ops[1..])
  }

  lemma {:induction false} TerminateRawHunks(hs: seq<Hunk>)
    ensures Terminate(RawHunks(hs)) == Terminate(HunkLines(hs))
  {
    hide HunkHeader, PrintedLines, Split;
    if hs != [] {
      var header, lines := HunkHeader(hs[0]), PrintedLines(hs[0].lines);
      TerminateRawHunks(hs[1..]);
      SplitPieces(header);
      assert Terminate([header]) == header + "\n" by { assert [header][1..] == []; }
      TerminateAppend(Split(header), lines);
      TerminateAppend(Split(header) + lines, RawHunks(hs[1..]));
      TerminateAppend([header], lines);
      TerminateAppend([header] + lines, HunkLines(hs[1..]));
    }
  }

  lemma {:induction false} TerminateRaw(ops: seq<Operation>)
    ensures Terminate(RawBody(ops)) == Terminate(BodyLines(ops))
  {
    hide HunkLines, RawHunks, UPDATE, MOVE, AddedLines;
    if ops != [] {
      var op := ops[0];
      TerminateRaw(ops[1..]);
      TerminateAppend(RawOp(op), RawBody(ops[1..]));
      TerminateAppend(OpLines(op), BodyLines(ops[1..]));
      if op.kind == UpdateFile {
        var first := [UPDATE + op.path] + (if op.moveTo != "" then [MOVE + op.moveTo] else []);
        TerminateRawHunks(op.hunks);
        TerminateAppend(first, RawHunks(op.hunks));
        TerminateAppend(first, HunkLines(op.hunks));
      }
    }
  }

  lemma {:induction false} RawHunksOneLine(hs: seq<Hunk>)
    requires forall i :: 0 <= i < |hs| ==> PlainHunk(hs[i])
    ensures forall i :: 0 <= i < |RawHunks(hs)| ==> NoNewline(RawHunks(hs)[i])
  {
    hide HunkHeader, Split;
    if hs != [] {
      assert PlainHunk(hs[0]);
      SplitPieces(HunkHeader(hs[0]));
      RawHunksOneLine(hs[1..]);
    }
  }

  lemma RawOpOneLine(op: Operation)
    requires Plain(op)
    ensures forall i :: 0 <= i < |RawOp(op)| ==> NoNewline(RawOp(op)[i])
  {
    hide BEGIN, END, ADD, DELETE, UPDATE, MOVE, HUNK, RawHunks, OpLines;
    if op.kind == UpdateFile {
      Markers();
      RawHunksOneLine(op.hunks);
    } else {
      OpLinesOneLine(op);
    }
  }

  lemma {:induction false} RawBodyOneLine(ops: seq<Operation>)
    requires AllPlain(ops)
    ensures forall i :: 0 <= i < |RawBody(ops)| ==> NoNewline(RawBody(ops)[i])
  {
    hide RawOp, Plain;
    if ops != [] {
      RawOpOneLine(ops[0]);
      RawBodyOneLine(ops[1..]);
    }
  }

  /** Parsing the text is running over these lines. */
  lemma ParseIsRaw(ops: seq<Operation>)
    requires AllPlain(ops)
    ensures var read := Flush(StepLines(ParseState([], None), RawBody(ops)));
      Parse(PatchText(ops)) == if read == [] then None else Some(read)
  {
    hide BEGIN, END, ADD, DELETE, UPDATE, MOVE, HUNK, RawBody, BodyLines, Split, AllPlain;
    Markers();
    var start, body := ParseState([], None), RawBody(ops);
    RawBodyOneLine(ops);
    TerminateRaw(ops);
    SplitTerminated([BEGIN] + body, END);
    assert ([BEGIN] + body)[1..] == body;
    assert PatchText(ops) == Terminate([BEGIN] + body) + END;
    StepLinesAppend(start, [BEGIN] + body, [END]);
    StepLinesAppend(start, [BEGIN], body);
    assert StepLines(start, [BEGIN]) == StepLine(start, BEGIN) == start;
    var st := StepLines(start, body);
    assert StepLines(st, [END]) == StepLine(st, END) == st;
  }

  // ---------- Reading a header of several lines ----------

  /** The state with other hunks in the operation being read. */
  function WithHunks(st: ParseState, hunks: seq<Hunk>): ParseState
    requires Updating(st)
  {
    st.(current := Some(st.current.value.(hunks := hunks)))
  }

  lemma ContextLine(st: ParseState, context: string)
    requires Updating(st)
    ensures StepLine(st, HUNK + " " + context) == WithHunks(st, st.current.value.hunks + [Hunk(TrimSpace(context), [])])
  {
    hide BEGIN, END, ADD, DELETE, UPDATE, MOVE, HUNK, TrimSpace, TrimCR, BodyLine;
    Markers();
    var line := TrimCR(HUNK + " " + context);
    TrimCRAfterPrefix(HUNK + " ", context);
    assert line[2..] == " " + TrimCR(context);
    TrimSpaceIgnoresFrame(context);
    assert line[0] == '@';
    DifferAt(BEGIN, line, 0);
    DifferAt(END, line, 0);
    DifferAt(ADD, line, 0);
    DifferAt(DELETE, line, 0);
    DifferAt(UPDATE, line, 0);
    DifferAt(MOVE, line, 0);
  }

  lemma PassedOverLine(st: ParseState, line: string)
    requires Updating(st) && PassedOver(line)
    ensures StepLine(st, line) == st
  {
    hide BEGIN, END, ADD, DELETE, UPDATE, MOVE, HUNK;
    Markers();
    var t := TrimCR(line);
    if t != "" {
      assert t[0] == line[0] && IsSpace(t[0]);
      DifferAt(BEGIN, t, 0);
      DifferAt(END, t, 0);
      DifferAt(ADD, t, 0);
      DifferAt(DELETE, t, 0);
      DifferAt(UPDATE, t, 0);
      DifferAt(MOVE, t, 0);
      DifferAt(HUNK, t, 0);
    }
  }

  /** The context lines that white lines starting with a blank are read as. */
  function BlankLines(lines: seq<string>): seq<LineOp> {
    if lines == [] then []
    else
      (if lines[0] != "" && lines[0][0] == ' ' then [LineOp(Context, TrimCR(lines[0][1..]))] else []) + BlankLines(lines[1..])
  }

  lemma {:induction false} NoBlankLines(lines: seq<string>)
    requires AllWhite(lines)
    ensures BlankLines(lines) == [] <==> forall i :: 0 <= i < |lines| ==> PassedOver(lines[i])
  {
    if lines != [] {
      NoBlankLines(lines[1..]);
      assert lines == [lines[0]] + lines[1..];
    }
  }

  lemma BlankLine(st: ParseState, done: seq<Hunk>, h: Hunk, line: string)
    requires Updating(st) && st.current.value.hunks == done + [h] && line != "" && line[0] == ' '
    ensures StepLine(st, line) == WithHunks(st, done + [h.(lines := h.lines + [LineOp(Context, TrimCR(line[1..]))])])
  {
    hide StepLine, TrimCR;
    var text := line[1..];
    assert line == " " + text;
    TextLine(st, " ", text);
    assert (" " + TrimCR(text))[1..] == TrimCR(text);
    var h' := h.(lines := h.lines + [LineOp(Context, TrimCR(text))]);
    assert (done + [h])[|done| := h'] == done + [h'];
  }

  lemma {:induction false} WhiteLines(st: ParseState, done: seq<Hunk>, h: Hunk, lines: seq<string>)
    requires Updating(st) && st.current.value.hunks == done + [h] && AllWhite(lines)
    ensures StepLines(st, lines) == WithHunks(st, done + [h.(lines := h.lines + BlankLines(lines))])
    decreases lines
  {
    hide StepLine, TrimCR, White;
    if lines == [] {
      assert h.lines + [] == h.lines;
    } else {
      var line := lines[0];
      assert AllWhite(lines[1..]);
      if line != "" && line[0] == ' ' {
        var l := LineOp(Context, TrimCR(line[1..]));
        BlankLine(st, done, h, line);
        WhiteLines(StepLine(st, line), done, h.(lines := h.lines + [l]), lines[1..]);
        assert h.lines + [l] + BlankLines(lines[1..]) == h.lines + ([l] + BlankLines(lines[1..]));
      } else {
        assert White(line);
        PassedOverLine(st, line);
        WhiteLines(st, done, h, lines[1..]);
        assert [] + BlankLines(lines[1..]) == BlankLines(lines[1..]);
      }
    }
  }

  /** What the first header line does, and which lines are left of the header. */
  lemma HeaderBegins(st: ParseState, h: Hunk) returns (first: string, rest: seq<string>)
    requires Updating(st)
    ensures Split(HunkHeader(h)) == [first] + rest
    ensures StepLine(st, first) == WithHunks(st, st.current.value.hunks + [Hunk(TrimSpace(Split(h.context)[0]), [])])
    ensures rest == Split(h.context)[1..]
  {
    hide HUNK, StepLine, TrimSpace;
    Markers();
    if h.context == "" {
      first, rest := HunkHeader(h), [];
      SplitSingleLine(first);
      HunkHeaderLine(st, h);
    } else {
      first, rest := HUNK + " " + Split(h.context)[0], Split(h.context)[1..];
      assert NoNewline(HUNK + " ");
      SplitAfter(HUNK + " ", h.context);
      ContextLine(st, Split(h.context)[0]);
    }
  }

  /** A hunk whose header has only white lines behind the first one. */
  lemma WhiteHunk(st: ParseState, h: Hunk)
    requires Updating(st) && AllWhite(Split(h.context)[1..])
    ensures StepLines(st, Split(HunkHeader(h)) + PrintedLines(h.lines)) ==
      WithHunks(st, st.current.value.hunks
        + [Hunk(TrimSpace(h.context), BlankLines(Split(h.context)[1..]) + NormalLines(h.lines))])
  {
    hide StepLine, TrimSpace, PrintedLines, HunkHeader, NormalLines, BlankLines, AllWhite, Split;
    var done := st.current.value.hunks;
    var first, rest := HeaderBegins(st, h);
    var w := FirstPiece(h.context);
    TrimsAlike(Split(h.context)[0], w);
    var empty := Hunk(TrimSpace(h.context), []);
    var header := [first] + rest;
    StepLinesAppend(st, header, PrintedLines(h.lines));
    StepLinesAppend(st, [first], rest);
    var begun := StepLine(st, first);
    assert StepLines(st, [first]) == begun by { StepNoLines(begun); assert [first][1..] == []; }
    WhiteLines(begun, done, empty, rest);
    var blank := empty.(lines := [] + BlankLines(rest));
    ParsePrintedLines(WithHunks(begun, done + [blank]), done, blank, h.lines);
    assert [] + BlankLines(rest) == BlankLines(rest);
  }

  // ---------- Readable operations are read back ----------

  lemma ReadableIsWhite(context: string)
    requires ReadableContext(context)
    ensures AllWhite(Split(context)[1..]) && BlankLines(Split(context)[1..]) == []
  {
    var rest := Split(context)[1..];
    assert forall i :: 0 <= i < |rest| ==> rest[i] == Split(context)[i + 1];
    NoBlankLines(rest);
  }

  lemma WhiteIsReadable(context: string)
    requires AllWhite(Split(context)[1..]) && BlankLines(Split(context)[1..]) == []
    ensures ReadableContext(context)
  {
    var rest := Split(context)[1..];
    NoBlankLines(rest);
    assert forall i :: 1 <= i < |Split(context)| ==> rest[i - 1] == Split(context)[i];
  }

  lemma ReadableHunkReads(st: ParseState, h: Hunk)
    requires Updating(st) && ReadableHunk(h)
    ensures StepLines(st, Split(HunkHeader(h)) + PrintedLines(h.lines)) ==
      WithHunks(st, st.current.value.hunks + [NormalHunk(h)])
  {
    hide StepLine, StepLines, TrimSpace, PrintedLines, HunkHeader, NormalLines, BlankLines, AllWhite, Split;
    ReadableIsWhite(h.context);
    WhiteHunk(st, h);
    assert [] + NormalLines(h.lines) == NormalLines(h.lines);
  }

  lemma {:induction false} ReadableHunksRead(st: ParseState, hs: seq<Hunk>)
    requires Updating(st) && forall i :: 0 <= i < |hs| ==> ReadableHunk(hs[i])
    ensures StepLines(st, RawHunks(hs)) == WithHunks(st, st.current.value.hunks + NormalHunks(hs))
    decreases hs
  {
    hide StepLine, StepLines, HunkHeader, PrintedLines, NormalHunk, ReadableHunk, Split;
    var done := st.current.value.hunks;
    if hs == [] {
      StepNoLines(st);
      assert done + NormalHunks(hs) == done;
    } else {
      var lines := Split(HunkHeader(hs[0])) + PrintedLines(hs[0].lines);
      StepLinesAppend(st, lines, RawHunks(hs[1..]));
      ReadableHunkReads(st, hs[0]);
      ReadableHunksRead(StepLines(st, lines), hs[1..]);
      assert done + [NormalHunk(hs[0])] + NormalHunks(hs[1..]) == done + NormalHunks(hs);
    }
  }

  /** The lines of an update before its hunks. */
  function UpdateStart(op: Operation): seq<string> {
    [UPDATE + op.path] + if op.moveTo != "" then [MOVE + op.moveTo] else []
  }

  lemma UpdateStarts(st: ParseState, op: Operation)
    requires op.kind == UpdateFile
    ensures StepLines(st, UpdateStart(op)) ==
      ParseState(Flush(st), Some(Operation(UpdateFile, TrimCR(op.path), TrimCR(op.moveTo), "", [])))
  {
    var none := op.(hunks := []);
    ParseUpdateFile(st, none);
    assert UpdateStart(op) + [] == UpdateStart(op) && OpLines(none) == UpdateStart(op) + HunkLines([]);
    assert NormalHunks([]) == [];
  }

  lemma ReadableOpReads(st: ParseState, op: Operation)
    requires Readable(op)
    ensures Flush(StepLines(st, RawOp(op))) == Flush(st) + NormalOp(op)
  {
    hide UPDATE, MOVE, StepLines, RawHunks, ReadableHunk, OpLines, NormalHunks;
    if op.kind == UpdateFile {
      var begun := StepLines(st, UpdateStart(op));
      UpdateStarts(st, op);
      StepLinesAppend(st, UpdateStart(op), RawHunks(op.hunks));
      ReadableHunksRead(begun, op.hunks);
      assert [] + NormalHunks(op.hunks) == NormalHunks(op.hunks);
    } else {
      ParseOneOperation(st, op);
    }
  }

  // ---------- What later lines cannot change ----------

  /** Only the last hunk may still get lines, and more hunks may follow. */
  predicate Grown(a: seq<Hunk>, b: seq<Hunk>) {
    && |a| <= |b|
    && (forall i :: 0 <= i < |a| - 1 ==> a[i] == b[i])
    && (a != [] ==>
          a[|a| - 1].context == b[|a| - 1].context && a[|a| - 1].lines <= b[|a| - 1].lines)
  }

  /** The operations before pos are settled, and the one at pos has at least these hunks. */
  predicate Since(ops: seq<Operation>, pos: nat, hunks: seq<Hunk>) {
    pos < |ops| && ops[pos].kind == UpdateFile && Grown(hunks, ops[pos].hunks)
  }

  lemma BodyGrows(op: Operation, line: string)
    ensures BodyLine(op, line).kind == op.kind && Grown(op.hunks, BodyLine(op, line).hunks)
  {
  }

  lemma GrownMore(a: seq<Hunk>, b: seq<Hunk>, c: seq<Hunk>)
    requires Grown(a, b) && Grown(b, c)
    ensures Grown(a, c)
  {
    if a != [] {
      var k := |a| - 1;
      assert k < |b| - 1 ==> b[k] == c[k];
    }
  }

  /** A line changes at most the operation being read, or begins another. */
  lemma LineChanges(st: ParseState, raw: string)
    requires st.current.Some?
    ensures var s := StepLine(st, raw);
      || (s.current.Some? && s.ops == Flush(st))
      || (s.ops == st.ops && s.current.Some? && s.current.value.kind == st.current.value.kind
          && Grown(st.current.value.hunks, s.current.value.hunks))
  {
    hide BEGIN, END, ADD, DELETE, UPDATE, MOVE, HUNK, BodyLine, Grown, TrimSpace;
    Markers();
    var op, line := st.current.value, TrimCR(raw);
    BodyGrows(op, line);
    GrownSame(op.hunks);
    if HUNK <= line {
      OneMoreHunk(op.hunks, Hunk(TrimSpace(line[2..]), []));
    }
  }

  lemma GrownSame(hunks: seq<Hunk>)
    ensures Grown(hunks, hunks)
  {
  }

  lemma LineKeeps(st: ParseState, raw: string, pos: nat, hunks: seq<Hunk>)
    requires Since(Flush(st), pos, hunks)
    ensures Since(Flush(StepLine(st, raw)), pos, hunks)
  {
    hide Grown;
    if st.current.Some? {
      hide StepLine;
      LineChanges(st, raw);
      var s := StepLine(st, raw);
      if s.ops == Flush(st) {
        assert Flush(s)[pos] == Flush(st)[pos];
      } else if pos == |st.ops| {
        GrownMore(hunks, st.current.value.hunks, s.current.value.hunks);
      }
    }
  }

  lemma OneMoreHunk(hunks: seq<Hunk>, h: Hunk)
    ensures Grown(hunks, hunks + [h])
  {
  }

  lemma {:induction false} LinesKeep(st: ParseState, lines: seq<string>, pos: nat, hunks: seq<Hunk>)
    requires Since(Flush(st), pos, hunks)
    ensures Since(Flush(StepLines(st, lines)), pos, hunks)
    decreases lines
  {
    hide StepLine, Since;
    if lines != [] {
      LineKeeps(st, lines[0], pos, hunks);
      LinesKeep(StepLine(st, lines[0]), lines[1..], pos, hunks);
    }
  }

  // ---------- Unreadable operations are not ----------

  /** An unreadable header leaves another context, or a line too many, for good. */
  lemma UnreadableHunkShows(st: ParseState, h: Hunk, more: seq<string>) returns (x: Hunk)
    requires Updating(st) && PlainHunk(h) && !ReadableHunk(h)
    ensures x.context != TrimSpace(h.context) || |x.lines| > |h.lines|
    ensures Since(Flush(StepLines(st, Split(HunkHeader(h)) + PrintedLines(h.lines) + more)), |st.ops|, st.current.value.hunks + [x])
  {
    hide StepLine, TrimSpace, PrintedLines, HunkHeader, BlankLines, AllWhite, Split, Grown, NormalLines, ReadableContext;
    var done, lines := st.current.value.hunks, Split(HunkHeader(h)) + PrintedLines(h.lines);
    if AllWhite(Split(h.context)[1..]) {
      var blank := BlankLines(Split(h.context)[1..]);
      assert blank != [] by {
        if blank == [] {
          WhiteIsReadable(h.context);
        }
      }
      x := Hunk(TrimSpace(h.context), blank + NormalLines(h.lines));
      assert |NormalLines(h.lines)| == |h.lines| by { NormalLinesSize(h.lines); }
      WhiteHunk(st, h);
      StepLinesAppend(st, lines, more);
      ReadTo(st, StepLines(st, lines), done + [x], more);
    } else {
      var first, rest := HeaderBegins(st, h);
      var w := FirstPiece(h.context);
      TrimsAlike(Split(h.context)[0], w);
      x := Hunk(TrimSpace(Split(h.context)[0]), []);
      assert lines + more == [first] + (rest + PrintedLines(h.lines) + more);
      assert ([first] + (rest + PrintedLines(h.lines) + more))[1..] == rest + PrintedLines(h.lines) + more;
      ReadTo(st, StepLine(st, first), done + [x], rest + PrintedLines(h.lines) + more);
    }
  }

  lemma NormalLinesSize(ls: seq<LineOp>)
    ensures |NormalLines(ls)| == |ls|
  {
  }

  /** What has been read of the current operation stays in the result. */
  lemma ReadTo(st: ParseState, next: ParseState, hunks: seq<Hunk>, more: seq<string>)
    requires Updating(st) && next == WithHunks(st, hunks)
    ensures Since(Flush(StepLines(next, more)), |st.ops|, hunks)
  {
    GrownSame(hunks);
    LinesKeep(next, more, |st.ops|, hunks);
  }

  predicate SomeUnreadable(hs: seq<Hunk>) {
    exists i :: 0 <= i < |hs| && !ReadableHunk(hs[i])
  }

  lemma {:induction false} UnreadableHunksShow(st: ParseState, hs: seq<Hunk>, more: seq<string>)
    requires Updating(st) && SomeUnreadable(hs) && forall i :: 0 <= i < |hs| ==> PlainHunk(hs[i])
    ensures var read := Flush(StepLines(st, RawHunks(hs) + more));
      |st.ops| < |read| && read[|st.ops|].hunks != st.current.value.hunks + NormalHunks(hs)
    decreases hs
  {
    hide StepLine, StepLines, HunkHeader, PrintedLines, NormalHunk, ReadableHunk, PlainHunk, Split;
    var done := st.current.value.hunks;
    var lines, rest := Split(HunkHeader(hs[0])) + PrintedLines(hs[0].lines), RawHunks(hs[1..]) + more;
    assert RawHunks(hs) + more == lines + rest;
    if ReadableHunk(hs[0]) {
      StepLinesAppend(st, lines, rest);
      ReadableHunkReads(st, hs[0]);
      UnreadableHunksShow(StepLines(st, lines), hs[1..], more);
      assert done + [NormalHunk(hs[0])] + NormalHunks(hs[1..]) == done + NormalHunks(hs);
    } else {
      var x := UnreadableHunkShows(st, hs[0], rest);
      NormalHunkIs(hs[0]);
      assert (done + [x])[|done|] == x && (done + NormalHunks(hs))[|done|] == NormalHunk(hs[0]);
    }
  }

  lemma NormalHunkIs(h: Hunk)
    ensures NormalHunk(h).context == TrimSpace(h.context) && |NormalHunk(h).lines| == |h.lines|
  {
  }

  lemma UnreadableOpShows(st: ParseState, op: Operation, more: seq<string>)
    requires Plain(op) && !Readable(op)
    ensures op.kind == UpdateFile
    ensures var read := Flush(StepLines(st, RawOp(op) + more));
      |Flush(st)| < |read| && read[|Flush(st)|] != NormalOp(op)[0]
  {
    hide UPDATE, MOVE, StepLines, RawHunks, ReadableContext, NormalHunks, TrimCR;
    var begun := StepLines(st, UpdateStart(op));
    assert forall i :: 0 <= i < |op.hunks| ==> PlainHunk(op.hunks[i]);
    UpdateStarts(st, op);
    StepLinesAppend(st, UpdateStart(op), RawHunks(op.hunks) + more);
    assert RawOp(op) + more == UpdateStart(op) + (RawHunks(op.hunks) + more);
    UnreadableHunksShow(begun, op.hunks, more);
    assert [] + NormalHunks(op.hunks) == NormalHunks(op.hunks);
  }

  lemma {:induction false} ReadsExactly(st: ParseState, ops: seq<Operation>)
    requires AllPlain(ops)
    ensures Flush(StepLines(st, RawBody(ops))) == Flush(st) + Normal(ops) <==> AllReadable(ops)
    decreases ops
  {
    hide StepLines, RawOp, Readable, Plain, NormalOp;
    if ops == [] {
      StepNoLines(st);
    } else {
      var next := StepLines(st, RawOp(ops[0]));
      assert AllReadable(ops) <==> Readable(ops[0]) && AllReadable(ops[1..]) by { assert ops == [ops[0]] + ops[1..]; }
      if Readable(ops[0]) {
        ReadableOpReads(st, ops[0]);
        StepLinesAppend(st, RawOp(ops[0]), RawBody(ops[1..]));
        ReadsExactly(next, ops[1..]);
        assert Flush(st) + NormalOp(ops[0]) + Normal(ops[1..]) == Flush(st) + (NormalOp(ops[0]) + Normal(ops[1..]));
      } else {
        UnreadableOpShows(st, ops[0], RawBody(ops[1..]));
        assert |NormalOp(ops[0])| == 1 by { OneUpdate(ops[0]); }
        assert (Flush(st) + Normal(ops))[|Flush(st)|] == NormalOp(ops[0])[0];
      }
    }
  }

  lemma OneUpdate(op: Operation)
    requires op.kind == UpdateFile
    ensures |NormalOp(op)| == 1
  {
  }

  lemma {:induction false} NewlineSurvivesTrimCR(s: string)
    ensures NoNewline(TrimCR(s)) <==> NoNewline(s)
  {
    if s != "" && s[|s| - 1] == '\r' {
      NewlineSurvivesTrimCR(s[..|s| - 1]);
      assert s == s[..|s| - 1] + ['\r'];
    }
  }

  lemma PlainFromNormal(op: Operation)
    requires AllOneLine(NormalOp(op))
    ensures Plain(op)
  {
    NewlineSurvivesTrimCR(op.path);
    NewlineSurvivesTrimCR(op.moveTo);
    if !op.kind.OtherKind? {
      var first := NormalOp(op)[0];
      assert OneLineFields(first);
      if op.kind == UpdateFile {
        forall i | 0 <= i < |op.hunks|
          ensures PlainHunk(op.hunks[i])
        {
          assert OneLineHunk(first.hunks[i]);
          PlainFromNormalHunk(op.hunks[i]);
        }
      }
    }
  }

  lemma PlainFromNormalHunk(h: Hunk)
    requires OneLineHunk(NormalHunk(h))
    ensures PlainHunk(h)
  {
    forall i | 0 <= i < |h.lines|
      ensures NoNewline(h.lines[i].text)
    {
      NewlineSurvivesTrimCR(h.lines[i].text);
      assert NormalHunk(h).lines[i].text == TrimCR(h.lines[i].text);
    }
  }

  lemma {:induction false} AllPlainFromNormal(ops: seq<Operation>)
    requires AllOneLine(Normal(ops))
    ensures AllPlain(ops)
  {
    hide NormalOp, OneLineFields, Plain;
    if ops != [] {
      var head, tail := NormalOp(ops[0]), Normal(ops[1..]);
      forall i | 0 <= i < |head|
        ensures OneLineFields(head[i])
      {
        assert Normal(ops)[i] == head[i];
      }
      forall i | 0 <= i < |tail|
        ensures OneLineFields(tail[i])
      {
        assert Normal(ops)[|head| + i] == tail[i];
      }
      PlainFromNormal(ops[0]);
      AllPlainFromNormal(ops[1..]);
    }
  }

  lemma ReadableIsPlain(ops: seq<Operation>)
    requires AllReadable(ops)
    ensures AllPlain(ops)
  {
    hide ReadableContext;
    assert forall i :: 0 <= i < |ops| ==> Readable(ops[i]);
  }

  /**
   * A printed patch is read back as its normal form if and only if no path,
   * move target or line text contains a line break, and no hunk context has
   * anything behind its first line but white lines that do not start with a
   * blank. When no operation has a kind the printer knows, the form is empty
   * and the parser gives up.
   */
  lemma RoundTripExactly(ops: seq<Operation>)
    ensures Parse(PatchText(ops)) == (if Normal(ops) == [] then None else Some(Normal(ops))) <==> AllReadable(ops)
  {
    hide PatchText, Parse, Normal, Canonical, AllReadable, AllPlain, RawBody, StepLines;
    var start := ParseState([], None);
    if AllReadable(ops) {
      ReadableIsPlain(ops);
    }
    if Normal(ops) == [] || Parse(PatchText(ops)) == Some(Normal(ops)) {
      if Normal(ops) == [] {
        assert AllOneLine(Normal(ops));
      } else {
        ParsePrintParse(PatchText(ops));
        CanonicalIsOneLine(Normal(ops));
      }
      AllPlainFromNormal(ops);
    }
    if AllPlain(ops) {
      ParseIsRaw(ops);
      ReadsExactly(start, ops);
      assert Flush(start) + Normal(ops) == Normal(ops);
    }
  }

  /** A line break in a path: the rest of the path is lost. */
  lemma BrokenPathIsCut()
    ensures var broken := Operation(AddFile, "a\nb", "", "", []);
      && Parse(PatchText([broken])) == Some([broken.(path := "a")])
      && Normal([broken]) == [broken]
  {
    hide BEGIN, END, ADD, DELETE, UPDATE, MOVE, HUNK, StepLine, Split;
    Markers();
    var broken := Operation(AddFile, "a\nb", "", "", []);
    var lines := [BEGIN, ADD + "a", "b"];
    assert [broken][1..] == [] && lines[1..] == [ADD + "a", "b"] && lines[1..][1..] == ["b"] && lines[1..][1..][1..] == [];
    assert PatchText([broken]) == Terminate(lines) + END by {
      var whole := ADD + "a\nb";
      assert BodyLines([broken]) == [whole] && [whole][1..] == [];
      assert Terminate([whole]) == whole + "\n" + "";
      assert whole == ADD + "a" + "\n" + "b" by { assert "a\nb" == "a" + "\n" + "b"; }
      var end := "b" + "\n" + "";
      assert Terminate(["b"]) == end;
      assert Terminate([ADD + "a", "b"]) == ADD + "a" + "\n" + end == Terminate([whole]);
    }
    SplitTerminated(lines, END);
    ReadBroken(lines);
  }

  lemma ReadBroken(lines: seq<string>)
    requires lines == [BEGIN, ADD + "a", "b"]
    ensures Flush(StepLines(ParseState([], None), lines + [END])) == [Operation(AddFile, "a", "", "", [])]
  {
    hide BEGIN, END, ADD, DELETE, UPDATE, MOVE, HUNK;
    Markers();
    var start := ParseState([], None);
    var all := lines + [END];
    assert all[1..] == [ADD + "a", "b", END] && all[1..][1..] == ["b", END] && all[1..][1..][1..] == [END];
    assert [END][1..] == [];
    assert StepLine(start, BEGIN) == start;
    AddLine(start, "a");
    assert TrimCR("a") == "a";
    var st := Begin(start, AddFile, "a");
    assert StepLine(start, ADD + "a") == st;
    TextLine(st, "b", "");
    assert "b" + "" == "b" && !("+" <= "b") && BodyLine(st.current.value, "b") == st.current.value;
    assert StepLine(st, "b") == st && StepLine(st, END) == st;
    StepNoLines(st);
    assert StepLines(st, [END]) == st && StepLines(st, ["b", END]) == st;
    assert StepLines(start, [ADD + "a", "b", END]) == st;
  }
}
