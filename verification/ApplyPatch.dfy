// The apply_patch grammar: the printer that turns operations into patch text
// and the line-driven parser that reads them back.
module ApplyPatch {
  import opened Common
  import opened TextLines

  // The op and type names of the wire format; any other name is kept as text.
  datatype LineKind = Context | Add | Remove | Delete | OtherLine(name: string)
  datatype Kind = AddFile | DeleteFile | UpdateFile | ReplaceFile | OtherKind(name: string)

  datatype LineOp = LineOp(op: LineKind, text: string)
  datatype Hunk = Hunk(context: string, lines: seq<LineOp>)
  datatype Operation = Operation(kind: Kind, path: string, moveTo: string, content: string, hunks: seq<Hunk>)

  const BEGIN := "*** Begin Patch"
  const END := "*** End Patch"
  const ADD := "*** Add File: "
  const DELETE := "*** Delete File: "
  const UPDATE := "*** Update File: "
  const MOVE := "*** Move to: "
  const HUNK := "@@"

  // ---------- Printer ----------

  function LineOpPrefix(op: LineKind): string {
    match op
    case Context => " "
    case Add => "+"
    case Remove => "-"
    case Delete => "-"
    case OtherLine(_) => " "
  }

  function PrintedLine(l: LineOp): string {
    LineOpPrefix(l.op) + l.text
  }

  function PrintedLines(ls: seq<LineOp>): (r: seq<string>)
    ensures |r| == |ls|
  {
    seq(|ls|, i requires 0 <= i < |ls| => PrintedLine(ls[i]))
  }

  function HunkHeader(h: Hunk): string {
    if h.context != "" then HUNK + " " + h.context else HUNK
  }

  function HunkLines(hs: seq<Hunk>): seq<string> {
    if hs == [] then []
    else [HunkHeader(hs[0])] + PrintedLines(hs[0].lines) + HunkLines(hs[1..])
  }

  function Plus(lines: seq<string>): (r: seq<string>)
    ensures |r| == |lines|
  {
    seq(|lines|, i requires 0 <= i < |lines| => "+" + lines[i])
  }

  function AddedLines(content: string): seq<string> {
    if content == "" then [] else Plus(Split(DropFinalNewline(content)))
  }

  /** The lines one operation prints; an unknown kind prints nothing. */
  function OpLines(op: Operation): seq<string> {
    if op.kind == AddFile then
      [ADD + op.path] + AddedLines(op.content)
    else if op.kind == DeleteFile then
      [DELETE + op.path]
    else if op.kind == UpdateFile then
      [UPDATE + op.path] + (if op.moveTo != "" then [MOVE + op.moveTo] else []) + HunkLines(op.hunks)
    else if op.kind == ReplaceFile then
      [DELETE + op.path] + ([ADD + op.path] + AddedLines(op.content))
    else []
  }

  function BodyLines(ops: seq<Operation>): seq<string> {
    if ops == [] then [] else OpLines(ops[0]) + BodyLines(ops[1..])
  }

  function PatchText(ops: seq<Operation>): string {
    BEGIN + "\n" + Terminate(BodyLines(ops)) + END
  }

  method WriteAddedContent(sb: string, content: string) returns (r: string)
    ensures r == sb + Terminate(AddedLines(content))
  {
    r := sb;
    if content == "" {
      return;
    }
    var lines := Split(DropFinalNewline(content));
    ghost var all := Plus(lines);
    for i := 0 to |lines|
      invariant r + Terminate(all[i..]) == sb + Terminate(all)
    {
      assert all[i..][0] == "+" + lines[i] && all[i..][1..] == all[i + 1..];
      r := r + "+" + lines[i] + "\n";
    }
    assert all[|lines|..] == [];
  }

  method WriteLine(sb: string, prefix: string, rest: string) returns (r: string)
    ensures r == sb + Terminate([prefix + rest])
  {
    hide BEGIN, END, ADD, DELETE, UPDATE, MOVE;
    r := sb + prefix + rest + "\n";
    assert Terminate([prefix + rest]) == prefix + rest + "\n" + "";
  }

  method WriteLineOps(sb: string, ls: seq<LineOp>) returns (r: string)
    ensures r == sb + Terminate(PrintedLines(ls))
  {
    r := sb;
    ghost var all := PrintedLines(ls);
    for i := 0 to |ls|
      invariant r + Terminate(all[i..]) == sb + Terminate(all)
    {
      assert all[i..][0] == PrintedLine(ls[i]) && all[i..][1..] == all[i + 1..];
      r := r + LineOpPrefix(ls[i].op) + ls[i].text + "\n";
    }
    assert all[|ls|..] == [];
  }

  method WriteHunk(sb: string, h: Hunk) returns (r: string)
    ensures r == sb + Terminate([HunkHeader(h)] + PrintedLines(h.lines))
  {
    hide HUNK, PrintedLines;
    TerminateAppend([HunkHeader(h)], PrintedLines(h.lines));
    if h.context != "" {
      r := WriteLine(sb, HUNK + " ", h.context);
    } else {
      r := WriteLine(sb, HUNK, "");
      assert HUNK + "" == HUNK;
    }
    assert r == sb + Terminate([HunkHeader(h)]);
    r := WriteLineOps(r, h.lines);
  }

  method WriteHunks(sb: string, hunks: seq<Hunk>) returns (r: string)
    ensures r == sb + Terminate(HunkLines(hunks))
  {
    r := sb;
    for i := 0 to |hunks|
      invariant r + Terminate(HunkLines(hunks[i..])) == sb + Terminate(HunkLines(hunks))
    {
      ghost var h := [HunkHeader(hunks[i])] + PrintedLines(hunks[i].lines);
      assert hunks[i..][0] == hunks[i] && hunks[i..][1..] == hunks[i + 1..];
      TerminateAppend(h, HunkLines(hunks[i + 1..]));
      r := WriteHunk(r, hunks[i]);
    }
    assert hunks[|hunks|..] == [];
  }

  method WriteAddFile(sb: string, op: Operation) returns (r: string)
    ensures r == sb + Terminate([ADD + op.path] + AddedLines(op.content))
  {
    hide BEGIN, END, ADD, DELETE, UPDATE, MOVE;
    r := WriteLine(sb, ADD, op.path);
    TerminateAppend([ADD + op.path], AddedLines(op.content));
    r := WriteAddedContent(r, op.content);
  }

  method WriteUpdateFile(sb: string, op: Operation) returns (r: string)
    requires op.kind == UpdateFile
    ensures r == sb + Terminate(OpLines(op))
  {
    hide BEGIN, END, ADD, DELETE, UPDATE, MOVE, AddedLines, HunkLines;
    r := WriteLine(sb, UPDATE, op.path);
    ghost var first := [UPDATE + op.path];
    ghost var move := if op.moveTo != "" then [MOVE + op.moveTo] else [];
    TerminateAppend(first + move, HunkLines(op.hunks));
    TerminateAppend(first, move);
    if op.moveTo != "" {
      r := WriteLine(r, MOVE, op.moveTo);
    }
    assert r == sb + Terminate(first + move);
    r := WriteHunks(r, op.hunks);
  }

  method WriteOperation(sb: string, op: Operation) returns (r: string)
    ensures r == sb + Terminate(OpLines(op))
  {
    hide BEGIN, END, ADD, DELETE, UPDATE, MOVE, AddedLines, HunkLines;
    if op.kind == AddFile {
      r := WriteAddFile(sb, op);
    } else if op.kind == DeleteFile {
      r := WriteLine(sb, DELETE, op.path);
    } else if op.kind == UpdateFile {
      r := WriteUpdateFile(sb, op);
    } else if op.kind == ReplaceFile {
      ghost var deletion, addition := [DELETE + op.path], [ADD + op.path] + AddedLines(op.content);
      TerminateAppend(deletion, addition);
      assert sb + Terminate(deletion) + Terminate(addition) == sb + (Terminate(deletion) + Terminate(addition));
      r := WriteLine(sb, DELETE, op.path);
      r := WriteAddFile(r, op);
    } else {
      r := sb;
    }
  }

  /** Prints the operations in order between the two patch markers. */
  method BuildApplyPatchInput(ops: seq<Operation>) returns (text: string)
    ensures text == PatchText(ops)
  {
    hide BEGIN, END, OpLines;
    var sb := BEGIN + "\n";
    for i := 0 to |ops|
      invariant sb + Terminate(BodyLines(ops[i..])) == BEGIN + "\n" + Terminate(BodyLines(ops))
    {
      assert ops[i..][0] == ops[i] && ops[i..][1..] == ops[i + 1..];
      ghost var rest := Terminate(BodyLines(ops[i + 1..]));
      ghost var line := Terminate(OpLines(ops[i]));
      TerminateAppend(OpLines(ops[i]), BodyLines(ops[i + 1..]));
      assert sb + (line + rest) == sb + line + rest;
      sb := WriteOperation(sb, ops[i]);
    }
    assert ops[|ops|..] == [];
    assert sb + Terminate([]) == sb;
    text := sb + END;
  }

  // ---------- Parser ----------

  datatype ParseState = ParseState(ops: seq<Operation>, current: Option<Operation>)

  /** All operations, the one still being read included. */
  function Flush(st: ParseState): seq<Operation> {
    st.ops + (if st.current.Some? then [st.current.value] else [])
  }

  function Begin(st: ParseState, kind: Kind, path: string): ParseState {
    ParseState(Flush(st), Some(Operation(kind, path, "", "", [])))
  }

  predicate Updating(st: ParseState) {
    st.current.Some? && st.current.value.kind == UpdateFile
  }

  /** The line op a prefix character stands for, if any. */
  function LineOpFromPrefix(line: string): Option<LineKind> {
    if line == "" then None
    else if line[0] == ' ' then Some(Context)
    else if line[0] == '+' then Some(Add)
    else if line[0] == '-' then Some(Remove)
    else None
  }

  function AppendLine(hs: seq<Hunk>, l: LineOp): seq<Hunk>
    requires hs != []
  {
    var last := hs[|hs| - 1];
    hs[|hs| - 1 := last.(lines := last.lines + [l])]
  }

  /** A line that is no header: text of the operation being read. */
  function BodyLine(op: Operation, line: string): Operation {
    if op.kind == AddFile && "+" <= line then
      op.(content := op.content + line[1..] + "\n")
    else if op.kind == UpdateFile && op.hunks != [] && LineOpFromPrefix(line).Some? then
      op.(hunks := AppendLine(op.hunks, LineOp(LineOpFromPrefix(line).value, line[1..])))
    else op
  }

  function StepLine(st: ParseState, raw: string): ParseState {
    var line := TrimCR(raw);
    if line == BEGIN || line == END then st
    else if ADD <= line then Begin(st, AddFile, line[|ADD|..])
    else if DELETE <= line then Begin(st, DeleteFile, line[|DELETE|..])
    else if UPDATE <= line then Begin(st, UpdateFile, line[|UPDATE|..])
    else if MOVE <= line && Updating(st) then
      st.(current := Some(st.current.value.(moveTo := line[|MOVE|..])))
    else if HUNK <= line && Updating(st) then
      st.(current := Some(st.current.value.(hunks := st.current.value.hunks + [Hunk(TrimSpace(line[2..]), [])])))
    else if st.current.Some? then
      st.(current := Some(BodyLine(st.current.value, line)))
    else st
  }

  function StepLines(st: ParseState, lines: seq<string>): ParseState
    decreases lines
  {
    if lines == [] then st else StepLines(StepLine(st, lines[0]), lines[1..])
  }

  function Parse(input: string): Option<seq<Operation>> {
    if !(BEGIN <= input) then None
    else
      var ops := Flush(StepLines(ParseState([], None), Split(input)));
      if ops == [] then None else Some(ops)
  }

  method ParseApplyPatchOperations(input: string) returns (ops: seq<Operation>, ok: bool)
    ensures ok == Parse(input).Some?
    ensures ok ==> Parse(input) == Some(ops)
    ensures !ok ==> ops == []
  {
    if input == "" || !(BEGIN <= input) {
      return [], false;
    }
    ops := [];
    var lines := Split(input);
    var currentOp: Option<Operation> := None;
    for i := 0 to |lines|
      invariant StepLines(ParseState(ops, currentOp), lines[i..]) == StepLines(ParseState([], None), lines)
    {
      assert lines[i..][0] == lines[i] && lines[i..][1..] == lines[i + 1..];
      ghost var before := ParseState(ops, currentOp);
      ghost var wanted := StepLine(before, lines[i]);
      var line := TrimCR(lines[i]);
      if line == BEGIN || line == END {
        assert ParseState(ops, currentOp) == wanted;
        continue;
      }
      if ADD <= line || DELETE <= line || UPDATE <= line {
        if currentOp.Some? {
          ops := ops + [currentOp.value];
        }
        assert ops == Flush(before);
        if ADD <= line {
          currentOp := Some(Operation(AddFile, line[|ADD|..], "", "", []));
        } else if DELETE <= line {
          currentOp := Some(Operation(DeleteFile, line[|DELETE|..], "", "", []));
        } else {
          currentOp := Some(Operation(UpdateFile, line[|UPDATE|..], "", "", []));
        }
        assert ParseState(ops, currentOp) == wanted;
        continue;
      }
      if MOVE <= line && currentOp.Some? && currentOp.value.kind == UpdateFile {
        currentOp := Some(currentOp.value.(moveTo := line[|MOVE|..]));
        assert ParseState(ops, currentOp) == wanted;
        continue;
      }
      if HUNK <= line && currentOp.Some? && currentOp.value.kind == UpdateFile {
        var hunk := Hunk(TrimSpace(line[2..]), []);
        currentOp := Some(currentOp.value.(hunks := currentOp.value.hunks + [hunk]));
        assert ParseState(ops, currentOp) == wanted;
        continue;
      }
      if currentOp.Some? {
        var op := currentOp.value;
        if op.kind == AddFile {
          if "+" <= line {
            currentOp := Some(op.(content := op.content + line[1..] + "\n"));
          }
        } else if op.kind == UpdateFile && |op.hunks| > 0 {
          var last := op.hunks[|op.hunks| - 1];
          var prefixed := LineOpFromPrefix(line);
          if prefixed.Some? {
            last := last.(lines := last.lines + [LineOp(prefixed.value, line[1..])]);
            currentOp := Some(op.(hunks := op.hunks[|op.hunks| - 1 := last]));
          }
        }
      }
      assert ParseState(ops, currentOp) == wanted;
    }
    assert lines[|lines|..] == [];
    ghost var parsed := Flush(ParseState(ops, currentOp));
    if currentOp.Some? {
      ops := ops + [currentOp.value];
    }
    assert ops == parsed;
    ok := |ops| > 0;
  }
}
