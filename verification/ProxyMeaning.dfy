// What the proxy arguments of the apply_patch tool say, field by field and with
// the names they have on the wire.
module ProxyMeaning {
  import opened Common
  import opened ApplyPatch
  import opened CodexProxy

  // ---------- Names ----------

  /** The names of operations, lines and proxies, written and read. */
  lemma WireNames(name: string)
    ensures KindName(AddFile) == "add_file" && KindName(DeleteFile) == "delete_file"
    ensures KindName(UpdateFile) == "update_file" && KindName(ReplaceFile) == "replace_file"
    ensures KindOf("add_file") == AddFile && KindOf("delete_file") == DeleteFile
    ensures KindOf("update_file") == UpdateFile && KindOf("replace_file") == ReplaceFile
    ensures LineKindOf("context") == Context && LineKindOf("add") == Add
    ensures LineKindOf("remove") == Remove && LineKindOf("delete") == Delete
    ensures KindOf(name).OtherKind? ==> KindOf(name) == OtherKind(name)
    ensures LineKindOf(name).OtherLine? ==> LineKindOf(name) == OtherLine(name)
  {
    NamesAreRead();
    assert KindName(AddFile) == "add_file";
  }

  lemma SuffixOf(name: string, suffix: string)
    ensures HasSuffix(name + suffix, suffix)
  {
    assert (name + suffix)[|name|..] == suffix;
  }

  /** Two endings that differ, counted from the end. */
  lemma OtherSuffix(name: string, suffix: string, other: string, back: nat)
    requires 0 < back <= |suffix| && back <= |other| && suffix[|suffix| - back] != other[|other| - back]
    ensures !HasSuffix(name + suffix, other)
  {
    var s := name + suffix;
    assert s[|s| - back] == suffix[|suffix| - back];
    if |other| <= |s| {
      assert s[|s| - |other|..][|other| - back] == s[|s| - back];
    }
  }

  // ---------- What the arguments say ----------

  predicate LineSays(l: LineOp, j: Json) {
    && j.JObject? && j.fields.Keys == {Op, Text} && j.fields[Text] == JString(l.text)
    && j.fields[Op] == JString(
         match l.op
         case Context => "context"
         case Add => "add"
         case Remove => "remove"
         case Delete => "delete"
         case OtherLine(name) => name)
  }

  predicate HunkSays(h: Hunk, j: Json) {
    && j.JObject? && j.fields.Keys == {ContextKey, Lines}
    && j.fields[ContextKey] == JString(h.context)
    && j.fields[Lines].JArray? && |j.fields[Lines].items| == |h.lines|
    && forall i :: 0 <= i < |h.lines| ==> LineSays(h.lines[i], j.fields[Lines].items[i])
  }

  predicate HunksSay(hs: seq<Hunk>, j: Json) {
    j.JArray? && |j.items| == |hs| && forall i :: 0 <= i < |hs| ==> HunkSays(hs[i], j.items[i])
  }

  /** The arguments of a single-operation proxy: the fields of its kind and no others. */
  predicate SingleSays(op: Operation, fields: map<Key, Json>) {
    && Path in fields && fields[Path] == JString(op.path)
    && fields.Keys == {Path}
         + (if op.kind == AddFile || op.kind == ReplaceFile then {Content} else {})
         + (if op.kind == UpdateFile then {Hunks} else {})
         + (if op.kind == UpdateFile && op.moveTo != "" then {MoveTo} else {})
    && (Content in fields ==> fields[Content] == JString(op.content))
    && (Hunks in fields ==> HunksSay(op.hunks, fields[Hunks]))
    && (MoveTo in fields ==> fields[MoveTo] == JString(op.moveTo))
  }

  /** An entry of a batch: the kind, the path, and what is not empty. */
  predicate EntrySays(op: Operation, j: Json) {
    && j.JObject?
    && j.fields.Keys == {Type, Path} + (if op.moveTo != "" then {MoveTo} else {})
         + (if op.content != "" then {Content} else {}) + (if op.hunks != [] then {Hunks} else {})
    && j.fields[Type] == JString(
         match op.kind
         case AddFile => "add_file"
         case DeleteFile => "delete_file"
         case UpdateFile => "update_file"
         case ReplaceFile => "replace_file"
         case OtherKind(name) => name)
    && j.fields[Path] == JString(op.path)
    && (MoveTo in j.fields ==> j.fields[MoveTo] == JString(op.moveTo))
    && (Content in j.fields ==> j.fields[Content] == JString(op.content))
    && (Hunks in j.fields ==> HunksSay(op.hunks, j.fields[Hunks]))
  }

  lemma HunksAreSaid(hs: seq<Hunk>)
    ensures HunksSay(hs, JArray(HunksJson(hs)))
  {
    forall i | 0 <= i < |hs|
      ensures HunkSays(hs[i], HunksJson(hs)[i])
    {
      var items := LinesJson(hs[i].lines);
      forall k | 0 <= k < |hs[i].lines|
        ensures LineSays(hs[i].lines[k], items[k])
      {
        assert items[k] == LineJson(hs[i].lines[k]);
      }
    }
  }

  lemma SingleIsSaid(op: Operation)
    ensures SingleSays(op, SingleArgs(op))
  {
    hide HunksSay, HunksJson;
    HunksAreSaid(op.hunks);
  }

  lemma EntryIsSaid(op: Operation)
    ensures EntrySays(op, BatchItem(op))
  {
    hide HunksSay, HunksJson;
    HunksAreSaid(op.hunks);
  }

  // ---------- What a history replay says ----------

  /** What follows the tool's name in the name of the proxy that takes the operations. */
  function Suffix(ops: seq<Operation>): string {
    if |ops| != 1 then "_batch"
    else
      match ops[0].kind
      case AddFile => "_add_file"
      case DeleteFile => "_delete_file"
      case UpdateFile => "_update_file"
      case ReplaceFile => "_replace_file"
      case OtherKind(_) => "_batch"
  }

  /** One operation as a single call, several as a batch in order. */
  predicate OperationsSay(ops: seq<Operation>, args: Arguments) {
    && args.Fields?
    && if |ops| == 1 then SingleSays(ops[0], args.fields)
       else
         && args.fields.Keys == {Operations} && args.fields[Operations].JArray?
         && |args.fields[Operations].items| == |ops|
         && forall i :: 0 <= i < |ops| ==> EntrySays(ops[i], args.fields[Operations].items[i])
  }

  lemma ProxyIs(name: string, op: Operation)
    ensures ProxyName(name, Batch) == name + "_batch"
    ensures ProxyName(name, if op.kind.OtherKind? then Batch else Single(op.kind)) == name + Suffix([op])
  {
    assert "_" + "batch" == "_batch" && "_" + "add_file" == "_add_file" && "_" + "delete_file" == "_delete_file";
    assert "_" + "update_file" == "_update_file" && "_" + "replace_file" == "_replace_file";
  }

  lemma OneIsSaid(tools: CustomTools, name: string, input: string, op: Operation)
    requires name in tools && tools[name].kind == ApplyPatchTool && Parse(input) == Some([op])
    ensures HistoryCall(tools, name, input) == (tools[name].openAIName + Suffix([op]), Fields(SingleArgs(op)))
  {
    hide Parse, SingleArgs, ProxyName, Suffix;
    ProxyIs(tools[name].openAIName, op);
  }

  lemma BatchIsSaid(tools: CustomTools, name: string, input: string, ops: seq<Operation>)
    requires name in tools && tools[name].kind == ApplyPatchTool && Parse(input) == Some(ops) && |ops| != 1
    ensures HistoryCall(tools, name, input) ==
      (tools[name].openAIName + "_batch", Fields(map[Operations := JArray(BatchItems(ops))]))
  {
    hide Parse, BatchItems, ProxyName;
    ProxyIs(tools[name].openAIName, Operation(AddFile, "", "", "", []));
  }

  lemma EntriesAreSaid(ops: seq<Operation>)
    requires |ops| != 1
    ensures OperationsSay(ops, Fields(map[Operations := JArray(BatchItems(ops))]))
  {
    hide SingleSays, EntrySays, BatchItem;
    forall i | 0 <= i < |ops|
      ensures EntrySays(ops[i], BatchItems(ops)[i])
    {
      EntryIsSaid(ops[i]);
    }
  }

  /**
   * A replayed call of the patch tool names the proxy and carries the
   * operations of its input; an input that is no patch is kept beside an empty
   * batch, and the input of any other tool is passed on as it is.
   */
  lemma HistorySays(tools: CustomTools, name: string, input: string)
    ensures
      var (upstream, args) := HistoryCall(tools, name, input);
      if name !in tools || tools[name].kind != ApplyPatchTool then
        && upstream == (if name in tools then tools[name].openAIName else name)
        && args == Fields(map[Input := JString(input)])
      else
        match Parse(input)
        case Some(ops) => upstream == tools[name].openAIName + Suffix(ops) && OperationsSay(ops, args)
        case None =>
          upstream == tools[name].openAIName + "_batch"
          && args == Fields(map[Operations := JArray([]), RawPatch := JString(input)])
  {
    hide Parse, SingleArgs, SingleSays, EntrySays, BatchItems;
    if name in tools && tools[name].kind == ApplyPatchTool && Parse(input).Some? {
      hide HistoryCall;
      var ops := Parse(input).value;
      if |ops| == 1 {
        assert ops == [ops[0]];
        OneIsSaid(tools, name, input, ops[0]);
        SingleIsSaid(ops[0]);
      } else {
        BatchIsSaid(tools, name, input, ops);
        EntriesAreSaid(ops);
      }
    }
  }

  // ---------- Reading arguments ----------

  /** The text of a field; no text reads as empty. */
  predicate Reads(fields: map<Key, Json>, key: Key, text: string) {
    text == if key in fields && fields[key].JString? then fields[key].text else ""
  }

  /** The operations read from the arguments of a single-operation proxy: path and content as they are given. */
  lemma SingleIsRead(kind: Kind, fields: map<Key, Json>) returns (op: Operation)
    requires !kind.OtherKind?
    ensures InputOf(Single(kind), Fields(fields)) == Rebuilt(PatchText([op]))
    ensures op.kind == kind && Reads(fields, Path, op.path)
    ensures kind == AddFile || kind == ReplaceFile ==> Reads(fields, Content, op.content)
    ensures kind == UpdateFile ==> Reads(fields, MoveTo, op.moveTo)
  {
    hide PatchText;
    op := SingleOf(kind, fields);
  }

  /** Entries that are no objects are skipped; without any other the arguments are handed back. */
  lemma BatchSkipsOthers(fields: map<Key, Json>)
    requires Operations !in fields || !fields[Operations].JArray?
      || forall i :: 0 <= i < |fields[Operations].items| ==> !fields[Operations].items[i].JObject?
    ensures InputOf(Batch, Fields(fields)) == Unchanged(Fields(fields))
  {
    NothingRead(MapArray(fields, Operations));
  }

  lemma {:induction false} NothingRead(items: seq<Json>)
    requires forall i :: 0 <= i < |items| ==> !items[i].JObject?
    ensures OperationsOf(items) == []
  {
    if items != [] {
      NothingRead(items[1..]);
    }
  }

  /** A tool that is no patch tool, and a text that is no object, hand back the input field or the arguments. */
  lemma OthersPassThrough(tools: CustomTools, name: string, args: Arguments)
    requires name !in tools || tools[name].kind != ApplyPatchTool || args.NoObject?
    ensures var r := Reconstructed(tools, name, args);
      if name in tools && args.Fields? && Input in args.fields && args.fields[Input].JString?
      then r == Rebuilt(args.fields[Input].text)
      else r == Unchanged(args)
  {
  }

  /** An undeclared proxy is known by the end of its name. */
  lemma ProxyByName(name: string)
    ensures ActionFromName(name + "_add_file") == Single(AddFile)
    ensures ActionFromName(name + "_delete_file") == Single(DeleteFile)
    ensures ActionFromName(name + "_update_file") == Single(UpdateFile)
    ensures ActionFromName(name + "_replace_file") == Single(ReplaceFile)
    ensures ActionFromName(name + "_batch") == Batch
  {
    hide HasSuffix;
    SuffixOf(name, "_add_file");
    SuffixOf(name, "_delete_file");
    SuffixOf(name, "_update_file");
    SuffixOf(name, "_replace_file");
    SuffixOf(name, "_batch");
    OtherSuffix(name, "_delete_file", "_add_file", 6);
    OtherSuffix(name, "_update_file", "_add_file", 6);
    OtherSuffix(name, "_replace_file", "_add_file", 6);
    OtherSuffix(name, "_update_file", "_delete_file", 8);
    OtherSuffix(name, "_replace_file", "_delete_file", 7);
    OtherSuffix(name, "_replace_file", "_update_file", 7);
    OtherSuffix(name, "_batch", "_add_file", 1);
    OtherSuffix(name, "_batch", "_delete_file", 1);
    OtherSuffix(name, "_batch", "_update_file", 1);
    OtherSuffix(name, "_batch", "_replace_file", 1);
  }
}
