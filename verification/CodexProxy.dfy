// The proxy-argument layer of the apply_patch tool: a patch text becomes the
// arguments of an upstream function call, and the arguments become text again.
// JSON values are values here; encoding and decoding them is the identity.
module CodexProxy {
  import opened ApplyPatch
  import opened PatchRoundTrip

  datatype Key =
    | Path | Content | MoveTo | Hunks | Operations | Type | ContextKey | Lines | Op | Text | Input | RawPatch
    | OtherKey(name: string)

  datatype Json = JString(text: string) | JArray(items: seq<Json>) | JObject(fields: map<Key, Json>) | JOther

  /** The argument string of a call: a JSON object, or a text that is none. */
  datatype Arguments = Fields(fields: map<Key, Json>) | NoObject(raw: string)

  /** The tool input handed back: a text, or the argument string unchanged. */
  datatype ToolInput = Rebuilt(text: string) | Unchanged(arguments: Arguments)

  datatype ToolKind = Raw | ApplyPatchTool | Exec | BuiltIn
  datatype Action = Single(kind: Kind) | Batch | NoAction
  datatype ToolSpec = ToolSpec(openAIName: string, kind: ToolKind, proxyAction: Action)
  type CustomTools = map<string, ToolSpec>

  // ---------- Names on the wire ----------

  function KindName(kind: Kind): string {
    match kind
    case AddFile => "add_file"
    case DeleteFile => "delete_file"
    case UpdateFile => "update_file"
    case ReplaceFile => "replace_file"
    case OtherKind(name) => name
  }

  function KindOf(name: string): Kind {
    if name == "add_file" then AddFile
    else if name == "delete_file" then DeleteFile
    else if name == "update_file" then UpdateFile
    else if name == "replace_file" then ReplaceFile
    else OtherKind(name)
  }

  function LineKindName(kind: LineKind): string {
    match kind
    case Context => "context"
    case Add => "add"
    case Remove => "remove"
    case Delete => "delete"
    case OtherLine(name) => name
  }

  function LineKindOf(name: string): LineKind {
    if name == "context" then Context
    else if name == "add" then Add
    else if name == "remove" then Remove
    else if name == "delete" then Delete
    else OtherLine(name)
  }

  lemma NamesAreRead()
    ensures forall k: Kind :: !k.OtherKind? ==> KindOf(KindName(k)) == k
    ensures forall k: LineKind :: !k.OtherLine? ==> LineKindOf(LineKindName(k)) == k
  {
    assert "add_file"[0] == 'a' && "delete_file"[0] == 'd' && "update_file"[0] == 'u' && "replace_file"[0] == 'r';
    assert "context"[0] == 'c' && "add"[0] == 'a' && "remove"[0] == 'r' && "delete"[0] == 'd';
  }

  function ActionName(action: Action): string {
    match action
    case Single(kind) => KindName(kind)
    case Batch => "batch"
    case NoAction => ""
  }

  // ---------- Operations to JSON ----------

  function LineJson(l: LineOp): Json {
    JObject(map[Op := JString(LineKindName(l.op)), Text := JString(l.text)])
  }

  function LinesJson(ls: seq<LineOp>): (r: seq<Json>)
    ensures |r| == |ls|
  {
    seq(|ls|, i requires 0 <= i < |ls| => LineJson(ls[i]))
  }

  function HunkJson(h: Hunk): Json {
    JObject(map[ContextKey := JString(h.context), Lines := JArray(LinesJson(h.lines))])
  }

  function HunksJson(hs: seq<Hunk>): (r: seq<Json>)
    ensures |r| == |hs|
  {
    seq(|hs|, i requires 0 <= i < |hs| => HunkJson(hs[i]))
  }

  /** Arguments of a call that carries one operation. */
  function SingleArgs(op: Operation): map<Key, Json> {
    match op.kind
    case AddFile => map[Path := JString(op.path), Content := JString(op.content)]
    case ReplaceFile => map[Path := JString(op.path), Content := JString(op.content)]
    case UpdateFile =>
      map[Path := JString(op.path), Hunks := JArray(HunksJson(op.hunks))]
      + (if op.moveTo != "" then map[MoveTo := JString(op.moveTo)] else map[])
    case _ => map[Path := JString(op.path)]
  }

  /** One entry of a batch; empty fields are left out. */
  function BatchItem(op: Operation): (r: Json)
    ensures r.JObject?
  {
    JObject(map[Type := JString(KindName(op.kind)), Path := JString(op.path)]
      + (if op.moveTo != "" then map[MoveTo := JString(op.moveTo)] else map[])
      + (if op.content != "" then map[Content := JString(op.content)] else map[])
      + (if op.hunks != [] then map[Hunks := JArray(HunksJson(op.hunks))] else map[]))
  }

  function BatchItems(ops: seq<Operation>): (r: seq<Json>)
    ensures |r| == |ops|
  {
    seq(|ops|, i requires 0 <= i < |ops| => BatchItem(ops[i]))
  }

  method BuildHunks(hs: seq<Hunk>) returns (r: seq<Json>)
    ensures r == HunksJson(hs)
  {
    r := [];
    for i := 0 to |hs|
      invariant r == HunksJson(hs)[..i]
    {
      var lines: seq<Json> := [];
      for j := 0 to |hs[i].lines|
        invariant lines == LinesJson(hs[i].lines)[..j]
      {
        var l := hs[i].lines[j];
        lines := lines + [JObject(map[Op := JString(LineKindName(l.op)), Text := JString(l.text)])];
      }
      assert lines == LinesJson(hs[i].lines);
      r := r + [JObject(map[ContextKey := JString(hs[i].context), Lines := JArray(lines)])];
    }
  }

  method BuildSingleOpArgs(op: Operation) returns (args: map<Key, Json>)
    ensures args == SingleArgs(op)
  {
    match op.kind {
      case AddFile =>
        args := map[Path := JString(op.path), Content := JString(op.content)];
      case ReplaceFile =>
        args := map[Path := JString(op.path), Content := JString(op.content)];
      case UpdateFile =>
        var hunks := BuildHunks(op.hunks);
        args := map[Path := JString(op.path), Hunks := JArray(hunks)];
        if op.moveTo != "" {
          args := args[MoveTo := JString(op.moveTo)];
        }
      case _ =>
        args := map[Path := JString(op.path)];
    }
  }

  method BuildBatchItem(op: Operation) returns (item: map<Key, Json>)
    ensures JObject(item) == BatchItem(op)
  {
    hide KindName, HunksJson;
    item := map[Type := JString(KindName(op.kind)), Path := JString(op.path)];
    ghost var base := item;
    ghost var move := if op.moveTo != "" then map[MoveTo := JString(op.moveTo)] else map[];
    ghost var content := if op.content != "" then map[Content := JString(op.content)] else map[];
    if op.moveTo != "" {
      item := item[MoveTo := JString(op.moveTo)];
    }
    assert item == base + move;
    if op.content != "" {
      item := item[Content := JString(op.content)];
    }
    assert item == base + move + content;
    if |op.hunks| > 0 {
      var hunks := BuildHunks(op.hunks);
      item := item[Hunks := JArray(hunks)];
    }
  }

  method BuildBatchOps(ops: seq<Operation>) returns (items: seq<Json>)
    ensures items == BatchItems(ops)
  {
    hide BatchItem;
    items := [];
    for i := 0 to |ops|
      invariant items == BatchItems(ops)[..i]
    {
      var item := BuildBatchItem(ops[i]);
      items := items + [JObject(item)];
    }
  }

  // ---------- JSON to operations ----------

  /** The string under a key, or "" when it is absent or no string. */
  function MapString(fields: map<Key, Json>, key: Key): string {
    if key in fields && fields[key].JString? then fields[key].text else ""
  }

  /** The array under a key; absent and no array both read as empty. */
  function MapArray(fields: map<Key, Json>, key: Key): seq<Json> {
    if key in fields && fields[key].JArray? then fields[key].items else []
  }

  function LineOpsOf(items: seq<Json>): seq<LineOp> {
    if items == [] then []
    else
      var first := items[0];
      (if first.JObject?
       then [LineOp(LineKindOf(MapString(first.fields, Op)), MapString(first.fields, Text))]
       else []) + LineOpsOf(items[1..])
  }

  function HunksOf(items: seq<Json>): seq<Hunk> {
    if items == [] then []
    else
      var first := items[0];
      (if first.JObject?
       then [Hunk(MapString(first.fields, ContextKey), LineOpsOf(MapArray(first.fields, Lines)))]
       else []) + HunksOf(items[1..])
  }

  function OperationOf(fields: map<Key, Json>): Operation {
    Operation(KindOf(MapString(fields, Type)), MapString(fields, Path), MapString(fields, MoveTo),
              MapString(fields, Content), HunksOf(MapArray(fields, Hunks)))
  }

  function OperationsOf(items: seq<Json>): seq<Operation> {
    if items == [] then []
    else (if items[0].JObject? then [OperationOf(items[0].fields)] else []) + OperationsOf(items[1..])
  }

  function SingleOf(kind: Kind, fields: map<Key, Json>): Operation {
    var path := MapString(fields, Path);
    match kind
    case UpdateFile => Operation(kind, path, MapString(fields, MoveTo), "", HunksOf(MapArray(fields, Hunks)))
    case DeleteFile => Operation(kind, path, "", "", [])
    case _ => Operation(kind, path, "", MapString(fields, Content), [])
  }

  /** What the arguments of a proxy call with the given action are turned into. */
  function InputOf(action: Action, args: Arguments): ToolInput {
    match args
    case NoObject(_) => Unchanged(args)
    case Fields(fields) =>
      match action
      case Single(OtherKind(_)) => PlainInput(args)
      case Single(kind) => Rebuilt(PatchText([SingleOf(kind, fields)]))
      case Batch =>
        var ops := OperationsOf(MapArray(fields, Operations));
        if ops == [] then Unchanged(args) else Rebuilt(PatchText(ops))
      case NoAction => PlainInput(args)
  }

  function PlainInput(args: Arguments): ToolInput {
    if args.Fields? && Input in args.fields && args.fields[Input].JString?
    then Rebuilt(args.fields[Input].text)
    else Unchanged(args)
  }

  method ParseLineOpsFromRaw(items: seq<Json>) returns (lines: seq<LineOp>)
    ensures lines == LineOpsOf(items)
  {
    lines := [];
    for i := 0 to |items|
      invariant lines + LineOpsOf(items[i..]) == LineOpsOf(items)
    {
      assert items[i..][0] == items[i] && items[i..][1..] == items[i + 1..];
      if !items[i].JObject? {
        continue;
      }
      var fields := items[i].fields;
      lines := lines + [LineOp(LineKindOf(MapString(fields, Op)), MapString(fields, Text))];
    }
  }

  method ParseHunksFromRaw(items: seq<Json>) returns (hunks: seq<Hunk>)
    ensures hunks == HunksOf(items)
  {
    hunks := [];
    for i := 0 to |items|
      invariant hunks + HunksOf(items[i..]) == HunksOf(items)
    {
      assert items[i..][0] == items[i] && items[i..][1..] == items[i + 1..];
      if !items[i].JObject? {
        continue;
      }
      var fields := items[i].fields;
      var lines := ParseLineOpsFromRaw(MapArray(fields, Lines));
      hunks := hunks + [Hunk(MapString(fields, ContextKey), lines)];
    }
  }

  method ParseOperationsFromRaw(items: seq<Json>) returns (ops: seq<Operation>)
    ensures ops == OperationsOf(items)
  {
    ops := [];
    for i := 0 to |items|
      invariant ops + OperationsOf(items[i..]) == OperationsOf(items)
    {
      assert items[i..][0] == items[i] && items[i..][1..] == items[i + 1..];
      if !items[i].JObject? {
        continue;
      }
      var fields := items[i].fields;
      var hunks := ParseHunksFromRaw(MapArray(fields, Hunks));
      ops := ops + [Operation(KindOf(MapString(fields, Type)), MapString(fields, Path),
                              MapString(fields, MoveTo), MapString(fields, Content), hunks)];
    }
  }

  method ApplyPatchInputFromProxyArguments(args: Arguments, action: Action) returns (r: ToolInput)
    ensures r == InputOf(action, args)
  {
    if args.NoObject? {
      return Unchanged(args);
    }
    var fields := args.fields;
    var ops: seq<Operation> := [];
    var path := MapString(fields, Path);
    if action == Single(AddFile) || action == Single(ReplaceFile) {
      ops := [Operation(action.kind, path, "", MapString(fields, Content), [])];
    } else if action == Single(DeleteFile) {
      ops := [Operation(DeleteFile, path, "", "", [])];
    } else if action == Single(UpdateFile) {
      var hunks := ParseHunksFromRaw(MapArray(fields, Hunks));
      ops := [Operation(UpdateFile, path, MapString(fields, MoveTo), "", hunks)];
    } else if action == Batch {
      ops := ParseOperationsFromRaw(MapArray(fields, Operations));
    } else {
      return PlainInput(args);
    }
    if |ops| == 0 {
      return Unchanged(args);
    }
    var text := BuildApplyPatchInput(ops);
    r := Rebuilt(text);
  }

  // ---------- The tool context ----------

  predicate HasSuffix(s: string, suffix: string) {
    |suffix| <= |s| && s[|s| - |suffix|..] == suffix
  }

  function ActionFromName(name: string): Action {
    if HasSuffix(name, "_add_file") then Single(AddFile)
    else if HasSuffix(name, "_delete_file") then Single(DeleteFile)
    else if HasSuffix(name, "_update_file") then Single(UpdateFile)
    else if HasSuffix(name, "_replace_file") then Single(ReplaceFile)
    else if HasSuffix(name, "_batch") then Batch
    else NoAction
  }

  const PROXIES := [Single(AddFile), Single(DeleteFile), Single(UpdateFile), Single(ReplaceFile), Batch]

  function ProxyName(name: string, action: Action): string {
    name + ("_" + ActionName(action))
  }

  /** The tool and its five proxies are declared, and nothing replaced them. */
  predicate Registered(tools: CustomTools, name: string) {
    && name in tools
    && tools[name].kind == ApplyPatchTool && tools[name].openAIName == name
    && forall a :: a in PROXIES ==>
         && ProxyName(name, a) in tools
         && tools[ProxyName(name, a)] == ToolSpec(name, ApplyPatchTool, a)
  }

  lemma ProxyNamesDiffer(name: string, a: Action, b: Action)
    requires a in PROXIES && b in PROXIES
    ensures ProxyName(name, a) != name
    ensures a != b ==> ProxyName(name, a) != ProxyName(name, b)
  {
    var x, y := ActionName(a), ActionName(b);
    assert x[0] == (match a case Single(AddFile) => 'a' case Single(DeleteFile) => 'd'
                    case Single(UpdateFile) => 'u' case Single(ReplaceFile) => 'r' case _ => 'b');
    assert y[0] == (match b case Single(AddFile) => 'a' case Single(DeleteFile) => 'd'
                    case Single(UpdateFile) => 'u' case Single(ReplaceFile) => 'r' case _ => 'b');
    assert ProxyName(name, a)[|name| + 1] == x[0];
    assert ProxyName(name, b)[|name| + 1] == y[0];
    assert |ProxyName(name, a)| > |name|;
  }

  /** The branch of the context builder that declares a patch tool. */
  method RegisterPatchTool(tools: CustomTools, name: string) returns (r: CustomTools)
    ensures Registered(r, name)
    ensures forall n :: n in tools && n != name && (forall a :: a in PROXIES ==> n != ProxyName(name, a)) ==>
      n in r && r[n] == tools[n]
  {
    hide KindName;
    r := tools[name := ToolSpec(name, ApplyPatchTool, NoAction)];
    for i := 0 to |PROXIES|
      invariant name in r && r[name] == ToolSpec(name, ApplyPatchTool, NoAction)
      invariant forall j :: 0 <= j < i ==>
        ProxyName(name, PROXIES[j]) in r && r[ProxyName(name, PROXIES[j])] == ToolSpec(name, ApplyPatchTool, PROXIES[j])
      invariant forall n :: n in tools && n != name && (forall a :: a in PROXIES ==> n != ProxyName(name, a)) ==>
        n in r && r[n] == tools[n]
    {
      forall j | 0 <= j < i
        ensures ProxyName(name, PROXIES[j]) != ProxyName(name, PROXIES[i])
      {
        ProxyNamesDiffer(name, PROXIES[j], PROXIES[i]);
      }
      ProxyNamesDiffer(name, PROXIES[i], PROXIES[i]);
      r := r[ProxyName(name, PROXIES[i]) := ToolSpec(name, ApplyPatchTool, PROXIES[i])];
    }
  }

  // ---------- History replay and reconstruction ----------

  function HistoryCall(tools: CustomTools, name: string, input: string): (string, Arguments) {
    if name !in tools then (name, Fields(map[Input := JString(input)]))
    else
      var spec := tools[name];
      if spec.kind != ApplyPatchTool then (spec.openAIName, Fields(map[Input := JString(input)]))
      else
        match Parse(input)
        case None =>
          (ProxyName(spec.openAIName, Batch), Fields(map[Operations := JArray([]), RawPatch := JString(input)]))
        case Some(ops) =>
          if |ops| == 1 then
            var action := if ops[0].kind.OtherKind? then Batch else Single(ops[0].kind);
            (ProxyName(spec.openAIName, action), Fields(SingleArgs(ops[0])))
          else
            (ProxyName(spec.openAIName, Batch), Fields(map[Operations := JArray(BatchItems(ops))]))
  }

  method BuildCustomToolCallHistoryArguments(tools: CustomTools, originalName: string, input: string)
    returns (name: string, args: Arguments)
    ensures (name, args) == HistoryCall(tools, originalName, input)
  {
    if originalName !in tools {
      return originalName, Fields(map[Input := JString(input)]);
    }
    var spec := tools[originalName];
    if spec.kind != ApplyPatchTool {
      return spec.openAIName, Fields(map[Input := JString(input)]);
    }
    var ops, ok := ParseApplyPatchOperations(input);
    if !ok || |ops| == 0 {
      return ProxyName(spec.openAIName, Batch), Fields(map[Operations := JArray([]), RawPatch := JString(input)]);
    }
    if |ops| == 1 {
      var action := if ops[0].kind.OtherKind? then Batch else Single(ops[0].kind);
      var single := BuildSingleOpArgs(ops[0]);
      return ProxyName(spec.openAIName, action), Fields(single);
    }
    var items := BuildBatchOps(ops);
    return ProxyName(spec.openAIName, Batch), Fields(map[Operations := JArray(items)]);
  }

  function Reconstructed(tools: CustomTools, upstreamName: string, args: Arguments): ToolInput {
    if upstreamName !in tools then Unchanged(args)
    else
      var spec := tools[upstreamName];
      if spec.kind == ApplyPatchTool then
        InputOf(if spec.proxyAction == NoAction then ActionFromName(upstreamName) else spec.proxyAction, args)
      else PlainInput(args)
  }

  method ReconstructCustomToolCallInput(tools: CustomTools, upstreamName: string, args: Arguments)
    returns (r: ToolInput)
    ensures r == Reconstructed(tools, upstreamName, args)
  {
    if upstreamName !in tools {
      return Unchanged(args);
    }
    var spec := tools[upstreamName];
    if spec.kind == ApplyPatchTool {
      var action := spec.proxyAction;
      if action == NoAction {
        action := ActionFromName(upstreamName);
      }
      r := ApplyPatchInputFromProxyArguments(args, action);
    } else {
      r := PlainInput(args);
    }
  }

  // ---------- Round trips ----------

  /** The op names of an operation are ones the wire format knows. */
  predicate KnownNames(op: Operation) {
    && !op.kind.OtherKind?
    && forall i, j :: 0 <= i < |op.hunks| && 0 <= j < |op.hunks[i].lines| ==> !op.hunks[i].lines[j].op.OtherLine?
  }

  lemma {:induction false} LinesRoundTrip(ls: seq<LineOp>)
    requires forall j :: 0 <= j < |ls| ==> !ls[j].op.OtherLine?
    ensures LineOpsOf(LinesJson(ls)) == ls
  {
    hide LineKindName, LineKindOf, KindOf, KindName;
    if ls != [] {
      NamesAreRead();
      assert LinesJson(ls)[1..] == LinesJson(ls[1..]);
      assert LinesJson(ls)[0] == LineJson(ls[0]);
      LinesRoundTrip(ls[1..]);
    }
  }

  lemma {:induction false} HunksRoundTrip(hs: seq<Hunk>)
    requires forall i, j :: 0 <= i < |hs| && 0 <= j < |hs[i].lines| ==> !hs[i].lines[j].op.OtherLine?
    ensures HunksOf(HunksJson(hs)) == hs
  {
    hide LinesJson, LineOpsOf;
    if hs != [] {
      assert HunksJson(hs)[1..] == HunksJson(hs[1..]);
      assert HunksJson(hs)[0] == HunkJson(hs[0]);
      LinesRoundTrip(hs[0].lines);
      HunksRoundTrip(hs[1..]);
    }
  }

  lemma NoHunks()
    ensures HunksOf([]) == []
  {
  }

  lemma BatchItemRoundTrip(op: Operation)
    requires KnownNames(op)
    ensures OperationOf(BatchItem(op).fields) == op
  {
    hide KindName, KindOf, LineKindName, LineKindOf, HunksJson, HunksOf;
    NamesAreRead();
    HunksRoundTrip(op.hunks);
    NoHunks();
  }

  lemma {:induction false} BatchRoundTrip(ops: seq<Operation>)
    requires forall i :: 0 <= i < |ops| ==> KnownNames(ops[i])
    ensures OperationsOf(BatchItems(ops)) == ops
  {
    hide BatchItem, OperationOf;
    if ops != [] {
      assert BatchItems(ops)[1..] == BatchItems(ops[1..]);
      assert BatchItems(ops)[0] == BatchItem(ops[0]);
      BatchItemRoundTrip(ops[0]);
      BatchRoundTrip(ops[1..]);
    }
  }

  /** The single-call arguments keep every field the operation prints. */
  lemma SingleRoundTrip(op: Operation)
    requires KnownNames(op)
    ensures OpLines(SingleOf(op.kind, SingleArgs(op))) == OpLines(op)
  {
    hide ADD, DELETE, UPDATE, MOVE, HunksJson, HunksOf, HunkLines;
    HunksRoundTrip(op.hunks);
  }

  /** One operation reads back the same from either encoding. */
  lemma SingleAndBatchAgree(op: Operation)
    requires KnownNames(op)
    ensures InputOf(Single(op.kind), Fields(SingleArgs(op))) == Rebuilt(PatchText([op]))
    ensures InputOf(Batch, Fields(map[Operations := JArray(BatchItems([op]))])) == Rebuilt(PatchText([op]))
  {
    hide BEGIN, END, OpLines, SingleArgs, SingleOf, BatchItem, OperationOf, BatchItems, OperationsOf;
    SingleRoundTrip(op);
    BatchRoundTrip([op]);
    var one := SingleOf(op.kind, SingleArgs(op));
    assert [one][1..] == [] && [op][1..] == [];
    assert BodyLines([one]) == OpLines(one) + BodyLines([one][1..]);
    assert BodyLines([op]) == OpLines(op) + BodyLines([op][1..]);
  }

  lemma CanonicalHasKnownNames(op: Operation)
    requires Canonical(op)
    ensures KnownNames(op)
  {
    forall i, j | 0 <= i < |op.hunks| && 0 <= j < |op.hunks[i].lines|
      ensures !op.hunks[i].lines[j].op.OtherLine?
    {
      assert NormalOp(op)[0].hunks[i] == op.hunks[i];
      assert op.kind == UpdateFile;
      assert NormalHunk(op.hunks[i]).lines[j] == NormalLine(op.hunks[i].lines[j]);
    }
  }

  /**
   * Replaying a patch as a proxy call and reconstructing it prints the parsed
   * operations again; a text the parser rejects comes back as the argument
   * string of an empty batch.
   */
  lemma ReplayAndReconstruct(tools: CustomTools, name: string, input: string)
    requires Registered(tools, name)
    ensures
      var (upstream, args) := HistoryCall(tools, name, input);
      Reconstructed(tools, upstream, args) ==
        match Parse(input)
        case Some(ops) => Rebuilt(PatchText(ops))
        case None => Unchanged(args)
  {
    hide Parse, PatchText, SingleArgs, SingleOf, BatchItems, OperationsOf, Canonical, ProxyName;
    match Parse(input) {
      case Some(ops) =>
        ParsePrintParse(input);
        forall i | 0 <= i < |ops|
          ensures KnownNames(ops[i])
        {
          CanonicalHasKnownNames(ops[i]);
        }
        assert ops != [] by { ParsedIsNotEmpty(input); }
        if |ops| == 1 {
          assert ops == [ops[0]];
          SingleAndBatchAgree(ops[0]);
          assert Single(ops[0].kind) in PROXIES by { KindIsProxied(ops[0].kind); }
        } else {
          BatchRoundTrip(ops);
          assert Batch in PROXIES;
        }
      case None =>
        assert Batch in PROXIES;
        BatchRoundTrip([]);
        assert BatchItems([]) == [] by { NoItems(); }
    }
  }

  lemma ParsedIsNotEmpty(input: string)
    requires Parse(input).Some?
    ensures Parse(input).value != []
  {
  }

  lemma KindIsProxied(kind: Kind)
    requires !kind.OtherKind?
    ensures Single(kind) in PROXIES
  {
    assert PROXIES[0] == Single(AddFile) && PROXIES[1] == Single(DeleteFile);
    assert PROXIES[2] == Single(UpdateFile) && PROXIES[3] == Single(ReplaceFile);
  }

  lemma NoItems()
    ensures BatchItems([]) == [] && OperationsOf([]) == []
  {
  }

  /** A clean printed patch survives the replay unchanged. */
  lemma CanonicalPatchSurvivesReplay(tools: CustomTools, name: string, ops: seq<Operation>)
    requires Registered(tools, name)
    requires AllOneLine(ops) && Normal(ops) != []
    requires forall i :: 0 <= i < |ops| ==> CleanOperation(ops[i])
    ensures
      var (upstream, args) := HistoryCall(tools, name, PatchText(ops));
      Reconstructed(tools, upstream, args) == Rebuilt(PatchText(ops))
  {
    hide HistoryCall, Reconstructed, PatchText, Parse, CleanOperation, Normal;
    ReplayAndReconstruct(tools, name, PatchText(ops));
    PrintParsePrint(ops);
  }
}
