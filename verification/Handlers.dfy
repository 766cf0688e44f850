/**
 The handler summary: static analysis writes its tool handlers into one JSON document, semantic
 analysis reads them back. Values are untyped on both sides, as in the code.
 */
module Handlers {
  import opened Models

  /** A Python value: JSON, or an import reference, the one record that is nested in a field
      without being rebuilt on reading. */
  datatype Value =
    | Nil
    | Bool(b: bool)
    | Int(n: int)
    | Real(r: real)
    | Str(s: string)
    | List(items: seq<Value>)
    | Dict(fields: map<string, Value>)
    | ImportRef(target: Value, symbol: Value)

  datatype NetworkCall = NetworkCall(func: Value, urlArgKind: Value, urlLiteral: Value, line: Value)

  datatype FileOp = FileOp(func: Value, pathArgKind: Value, pathLiteral: Value, mode: Value, line: Value)

  datatype SubprocessCall = SubprocessCall(func: Value, cmdArgKind: Value, cmdLiteral: Value, line: Value)

  datatype IOSummary = IOSummary(
    networkCalls: seq<NetworkCall>,
    fileReads: seq<FileOp>,
    fileWrites: seq<FileOp>,
    subprocessCalls: seq<SubprocessCall>,
    envReads: Value,
    cryptoCalls: Value)

  datatype ToolHandler = ToolHandler(
    name: Value,
    declaredDescription: Value,
    declaredInputSchema: Value,
    file: Value,
    lineStart: Value,
    lineEnd: Value,
    calleesLocal: Value,
    calleesImported: Value,
    stringLiterals: Value,
    io: IOSummary)

  // ----- writing -----

  /** asdict: records become dictionaries, lists and dictionaries are copied through. */
  function AsDict(v: Value): Value {
    match v
    case List(items) => List(seq(|items|, k requires 0 <= k < |items| => AsDict(items[k])))
    case Dict(fields) => Dict(map key | key in fields :: AsDict(fields[key]))
    case ImportRef(target, symbol) => Dict(map["module" := AsDict(target), "symbol" := AsDict(symbol)])
    case _ => v
  }

  function WriteNetworkCall(n: NetworkCall): Value {
    Dict(map[
      "func" := AsDict(n.func), "url_arg_kind" := AsDict(n.urlArgKind),
      "url_literal" := AsDict(n.urlLiteral), "line" := AsDict(n.line)])
  }

  function WriteFileOp(f: FileOp): Value {
    Dict(map[
      "func" := AsDict(f.func), "path_arg_kind" := AsDict(f.pathArgKind),
      "path_literal" := AsDict(f.pathLiteral), "mode" := AsDict(f.mode),
      "line" := AsDict(f.line)])
  }

  function WriteSubprocessCall(s: SubprocessCall): Value {
    Dict(map[
      "func" := AsDict(s.func), "cmd_arg_kind" := AsDict(s.cmdArgKind),
      "cmd_literal" := AsDict(s.cmdLiteral), "line" := AsDict(s.line)])
  }

  function WriteAll<T>(write: T -> Value, ts: seq<T>): Value {
    List(seq(|ts|, k requires 0 <= k < |ts| => write(ts[k])))
  }

  function WriteIO(io: IOSummary): Value {
    Dict(map[
      "network_calls" := WriteAll(WriteNetworkCall, io.networkCalls),
      "file_reads" := WriteAll(WriteFileOp, io.fileReads),
      "file_writes" := WriteAll(WriteFileOp, io.fileWrites),
      "subprocess_calls" := WriteAll(WriteSubprocessCall, io.subprocessCalls),
      "env_reads" := AsDict(io.envReads),
      "crypto_calls" := AsDict(io.cryptoCalls)])
  }

  function SerializeHandler(h: ToolHandler): Value {
    Dict(map[
      "name" := AsDict(h.name),
      "declared_description" := AsDict(h.declaredDescription),
      "declared_input_schema" := AsDict(h.declaredInputSchema),
      "file" := AsDict(h.file),
      "line_start" := AsDict(h.lineStart),
      "line_end" := AsDict(h.lineEnd),
      "callees_local" := AsDict(h.calleesLocal),
      "callees_imported" := AsDict(h.calleesImported),
      "string_literals" := AsDict(h.stringLiterals),
      "io_summary" := WriteIO(h.io)])
  }

  /** The stored document; `others` are its remaining entries. */
  function Payload(hs: seq<ToolHandler>, others: map<string, Value>): Value {
    Dict(others["tool_handlers" := WriteAll(SerializeHandler, hs)])
  }

  // ----- reading; None stands for a raised exception -----

  predicate Truthy(v: Value) {
    match v
    case Nil => false
    case Bool(b) => b
    case Int(n) => n != 0
    case Real(r) => r != 0.0
    case Str(s) => s != ""
    case List(items) => items != []
    case Dict(fields) => fields != map[]
    case ImportRef(_, _) => true
  }

  const EMPTY := List([])

  /** d.get(key, default) */
  function Get(d: map<string, Value>, key: string, default: Value): Value {
    if key in d then d[key] else default
  }

  /** d.get(key) or default */
  function GetOr(d: map<string, Value>, key: string, default: Value): Value {
    if key in d && Truthy(d[key]) then d[key] else default
  }

  function ReadNetworkCall(v: Value): Option<NetworkCall> {
    if !v.Dict? then None else
    Some(NetworkCall(
      Get(v.fields, "func", Str("")), Get(v.fields, "url_arg_kind", Str("var")),
      Get(v.fields, "url_literal", Nil), Get(v.fields, "line", Int(0))))
  }

  function ReadFileOp(v: Value): Option<FileOp> {
    if !v.Dict? then None else
    Some(FileOp(
      Get(v.fields, "func", Str("")), Get(v.fields, "path_arg_kind", Str("var")),
      Get(v.fields, "path_literal", Nil), Get(v.fields, "mode", Nil),
      Get(v.fields, "line", Int(0))))
  }

  function ReadSubprocessCall(v: Value): Option<SubprocessCall> {
    if !v.Dict? then None else
    Some(SubprocessCall(
      Get(v.fields, "func", Str("")), Get(v.fields, "cmd_arg_kind", Str("var")),
      Get(v.fields, "cmd_literal", Nil), Get(v.fields, "line", Int(0))))
  }

  /** A comprehension over a list; it raises if reading one element does. */
  function Collect<T>(read: Value -> Option<T>, vs: seq<Value>): Option<seq<T>> {
    if vs == [] then Some([])
    else
      var front, last := Collect(read, vs[..|vs| - 1]), read(vs[|vs| - 1]);
      if front.Some? && last.Some? then Some(front.value + [last.value]) else None
  }

  /** A comprehension over any value: what is neither empty nor a list raises, for a text and a
      dictionary iterate over texts, which cannot be read as records. */
  function ReadAll<T>(read: Value -> Option<T>, v: Value): Option<seq<T>> {
    if v.List? then Collect(read, v.items) else None
  }

  function ReadIO(v: Value): Option<IOSummary> {
    if !v.Dict? then None
    else
      var d := v.fields;
      var net := ReadAll(ReadNetworkCall, GetOr(d, "network_calls", EMPTY));
      var inp := ReadAll(ReadFileOp, GetOr(d, "file_reads", EMPTY));
      var outp := ReadAll(ReadFileOp, GetOr(d, "file_writes", EMPTY));
      var procs := ReadAll(ReadSubprocessCall, GetOr(d, "subprocess_calls", EMPTY));
      if net.None? || inp.None? || outp.None? || procs.None? then None
      else Some(IOSummary(net.value, inp.value, outp.value, procs.value, GetOr(d, "env_reads", EMPTY), GetOr(d, "crypto_calls", EMPTY)))
  }

  function ReadHandler(v: Value): Option<ToolHandler> {
    if !v.Dict? then None
    else
      var d := v.fields;
      var io := ReadIO(GetOr(d, "io_summary", Dict(map[])));
      if io.None? then None
      else Some(ToolHandler(
        Get(d, "name", Str("")), Get(d, "declared_description", Nil), Get(d, "declared_input_schema", Nil),
        Get(d, "file", Str("")), Get(d, "line_start", Int(0)), Get(d, "line_end", Int(0)),
        GetOr(d, "callees_local", EMPTY), GetOr(d, "callees_imported", EMPTY), GetOr(d, "string_literals", EMPTY),
        io.value))
  }

  function Hydrate(summary: Value): Option<seq<ToolHandler>> {
    if !Truthy(summary) then Some([])
    else if !summary.Dict? then None
    else ReadAll(ReadHandler, GetOr(summary.fields, "tool_handlers", EMPTY))
  }

  /** What Python takes for false. */
  lemma {:induction false} FalsyIff(v: Value)
    ensures !Truthy(v) <==> v == Nil || v == Bool(false) || v == Int(0) || v == Real(0.0) || v == Str("") || v == List([]) || v == Dict(map[])
  {
  }

  /** Nothing stored, or nothing under the key, reads as no handlers. */
  lemma {:induction false} AbsentSummary(v: Value, d: map<string, Value>)
    requires !Truthy(v) && (if "tool_handlers" in d then !Truthy(d["tool_handlers"]) else true)
    ensures Hydrate(v) == Some([]) && Hydrate(Dict(d)) == Some([])
  {
  }

  /** What a handler without any entries reads as. */
  lemma {:induction false} EmptyHandler()
    ensures ReadHandler(Dict(map[])) ==
            Some(ToolHandler(Str(""), Nil, Nil, Str(""), Int(0), Int(0), List([]), List([]), List([]),
                             IOSummary([], [], [], [], List([]), List([]))))
  {
  }

  lemma {:induction false} EmptyRecords()
    ensures ReadNetworkCall(Dict(map[])) == Some(NetworkCall(Str(""), Str("var"), Nil, Int(0)))
    ensures ReadFileOp(Dict(map[])) == Some(FileOp(Str(""), Str("var"), Nil, Nil, Int(0)))
    ensures ReadSubprocessCall(Dict(map[])) == Some(SubprocessCall(Str(""), Str("var"), Nil, Int(0)))
  {
  }

  lemma {:induction false} CollectStopsAtFailure<T>(read: Value -> Option<T>, vs: seq<Value>, k: nat)
    requires k < |vs| && read(vs[k]).None?
    ensures Collect(read, vs).None?
  {
    if k < |vs| - 1 {
      CollectStopsAtFailure(read, vs[..|vs| - 1], k);
    }
  }

  method HydrateHandlers(summary: Value) returns (r: Option<seq<ToolHandler>>)
    ensures r == Hydrate(summary)
  {
    if !Truthy(summary) {
      return Some([]);
    }
    if !summary.Dict? {
      return None;
    }
    var handlers := GetOr(summary.fields, "tool_handlers", EMPTY);
    if !handlers.List? {
      return None;
    }
    var out := [];
    for k := 0 to |handlers.items|
      invariant Collect(ReadHandler, handlers.items[..k]) == Some(out)
    {
      var h := ReadHandler(handlers.items[k]);
      if h.None? {
        CollectStopsAtFailure(ReadHandler, handlers.items, k);
        return None;
      }
      assert handlers.items[..k + 1][..k] == handlers.items[..k];
      out := out + [h.value];
    }
    assert handlers.items[..|handlers.items|] == handlers.items;
    return Some(out);
  }

  // ----- the round trip -----

  /** No import reference anywhere inside. */
  predicate Plain(v: Value) {
    match v
    case List(items) => forall k :: 0 <= k < |items| ==> Plain(items[k])
    case Dict(fields) => forall key :: key in fields ==> Plain(fields[key])
    case ImportRef(_, _) => false
    case _ => true
  }

  /** Writing a value changes it exactly if there is an import reference inside. */
  lemma {:induction false} AsDictKeepsIff(v: Value)
    ensures AsDict(v) == v <==> Plain(v)
  {
    match v
    case List(items) =>
      var copy := AsDict(v).items;
      forall k | 0 <= k < |items| ensures copy[k] == items[k] <==> Plain(items[k]) {
        AsDictKeepsIff(items[k]);
      }
      assert copy == items <==> forall k :: 0 <= k < |items| ==> copy[k] == items[k];
    case Dict(fields) =>
      var copy := AsDict(v).fields;
      forall key | key in fields ensures copy[key] == fields[key] <==> Plain(fields[key]) {
        AsDictKeepsIff(fields[key]);
      }
      assert copy == fields <==> forall key :: key in fields ==> copy[key] == fields[key];
    case _ =>
  }

  predicate PlainList(v: Value) {
    v.List? && Plain(v)
  }

  predicate PlainNetworkCall(n: NetworkCall) {
    Plain(n.func) && Plain(n.urlArgKind) && Plain(n.urlLiteral) && Plain(n.line)
  }

  predicate PlainFileOp(f: FileOp) {
    Plain(f.func) && Plain(f.pathArgKind) && Plain(f.pathLiteral) && Plain(f.mode) && Plain(f.line)
  }

  predicate PlainSubprocessCall(s: SubprocessCall) {
    Plain(s.func) && Plain(s.cmdArgKind) && Plain(s.cmdLiteral) && Plain(s.line)
  }

  /** What the dataclasses declare, as far as the round trip depends on it: lists where lists are
      declared, and import references in callees_imported only. */
  predicate Declared(h: ToolHandler) {
    && Plain(h.name) && Plain(h.declaredDescription) && Plain(h.declaredInputSchema)
    && Plain(h.file) && Plain(h.lineStart) && Plain(h.lineEnd)
    && PlainList(h.calleesLocal) && PlainList(h.stringLiterals)
    && h.calleesImported.List?
    && (forall k :: 0 <= k < |h.calleesImported.items| ==> h.calleesImported.items[k].ImportRef?)
    && (forall k :: 0 <= k < |h.io.networkCalls| ==> PlainNetworkCall(h.io.networkCalls[k]))
    && (forall k :: 0 <= k < |h.io.fileReads| ==> PlainFileOp(h.io.fileReads[k]))
    && (forall k :: 0 <= k < |h.io.fileWrites| ==> PlainFileOp(h.io.fileWrites[k]))
    && (forall k :: 0 <= k < |h.io.subprocessCalls| ==> PlainSubprocessCall(h.io.subprocessCalls[k]))
    && PlainList(h.io.envReads) && PlainList(h.io.cryptoCalls)
  }

  /** Reading back undoes writing, element by element, up to what `image` says. */
  lemma {:induction false} CollectReadsBack<T>(write: T -> Value, read: Value -> Option<T>, ts: seq<T>, image: seq<T>)
    requires |image| == |ts|
    requires forall k :: 0 <= k < |ts| ==> read(write(ts[k])) == Some(image[k])
    ensures ReadAll(read, WriteAll(write, ts)) == Some(image)
  {
    var vs := WriteAll(write, ts).items;
    if ts != [] {
      var n := |ts| - 1;
      CollectReadsBack(write, read, ts[..n], image[..n]);
      assert vs[..n] == WriteAll(write, ts[..n]).items;
      assert image == image[..n] + [image[n]];
    }
  }

  /** The names under which the nested records are written. */
  lemma {:induction false} RecordEntries(n: NetworkCall, f: FileOp, s: SubprocessCall, target: Value, symbol: Value)
    ensures AsDict(ImportRef(target, symbol)) == Dict(map["module" := AsDict(target), "symbol" := AsDict(symbol)])
    ensures WriteNetworkCall(n) == Dict(map["func" := AsDict(n.func), "url_arg_kind" := AsDict(n.urlArgKind),
                                            "url_literal" := AsDict(n.urlLiteral), "line" := AsDict(n.line)])
    ensures WriteFileOp(f) == Dict(map["func" := AsDict(f.func), "path_arg_kind" := AsDict(f.pathArgKind),
                                       "path_literal" := AsDict(f.pathLiteral), "mode" := AsDict(f.mode), "line" := AsDict(f.line)])
    ensures WriteSubprocessCall(s) == Dict(map["func" := AsDict(s.func), "cmd_arg_kind" := AsDict(s.cmdArgKind),
                                               "cmd_literal" := AsDict(s.cmdLiteral), "line" := AsDict(s.line)])
  {
  }

  lemma {:induction false} NetworkCallsReadBack(ts: seq<NetworkCall>)
    requires forall k :: 0 <= k < |ts| ==> PlainNetworkCall(ts[k])
    ensures ReadAll(ReadNetworkCall, WriteAll(WriteNetworkCall, ts)) == Some(ts)
  {
    forall k | 0 <= k < |ts| ensures ReadNetworkCall(WriteNetworkCall(ts[k])) == Some(ts[k]) {
      AsDictKeepsIff(ts[k].func);
      AsDictKeepsIff(ts[k].urlArgKind);
      AsDictKeepsIff(ts[k].urlLiteral);
      AsDictKeepsIff(ts[k].line);
    }
    CollectReadsBack(WriteNetworkCall, ReadNetworkCall, ts, ts);
  }

  lemma {:induction false} FileOpsReadBack(ts: seq<FileOp>)
    requires forall k :: 0 <= k < |ts| ==> PlainFileOp(ts[k])
    ensures ReadAll(ReadFileOp, WriteAll(WriteFileOp, ts)) == Some(ts)
  {
    forall k | 0 <= k < |ts| ensures ReadFileOp(WriteFileOp(ts[k])) == Some(ts[k]) {
      AsDictKeepsIff(ts[k].func);
      AsDictKeepsIff(ts[k].pathArgKind);
      AsDictKeepsIff(ts[k].pathLiteral);
      AsDictKeepsIff(ts[k].mode);
      AsDictKeepsIff(ts[k].line);
    }
    CollectReadsBack(WriteFileOp, ReadFileOp, ts, ts);
  }

  lemma {:induction false} SubprocessCallsReadBack(ts: seq<SubprocessCall>)
    requires forall k :: 0 <= k < |ts| ==> PlainSubprocessCall(ts[k])
    ensures ReadAll(ReadSubprocessCall, WriteAll(WriteSubprocessCall, ts)) == Some(ts)
  {
    forall k | 0 <= k < |ts| ensures ReadSubprocessCall(WriteSubprocessCall(ts[k])) == Some(ts[k]) {
      AsDictKeepsIff(ts[k].func);
      AsDictKeepsIff(ts[k].cmdArgKind);
      AsDictKeepsIff(ts[k].cmdLiteral);
      AsDictKeepsIff(ts[k].line);
    }
    CollectReadsBack(WriteSubprocessCall, ReadSubprocessCall, ts, ts);
  }

  predicate Entry(d: map<string, Value>, key: string, v: Value) {
    key in d && d[key] == v
  }

  /** An empty list is read back as the default, which is the empty list. */
  lemma {:induction false} EntryOfList(d: map<string, Value>, key: string, v: Value)
    requires Entry(d, key, v) && v.List?
    ensures GetOr(d, key, EMPTY) == v
  {
  }

  lemma {:induction false} IOEntries(io: IOSummary)
    ensures var d := WriteIO(io).fields;
            && Entry(d, "network_calls", WriteAll(WriteNetworkCall, io.networkCalls))
            && Entry(d, "file_reads", WriteAll(WriteFileOp, io.fileReads))
            && Entry(d, "file_writes", WriteAll(WriteFileOp, io.fileWrites))
            && Entry(d, "subprocess_calls", WriteAll(WriteSubprocessCall, io.subprocessCalls))
            && Entry(d, "env_reads", AsDict(io.envReads)) && Entry(d, "crypto_calls", AsDict(io.cryptoCalls))
  {
  }

  /** One written list, read back through its entry. */
  lemma {:induction false} ListReadsBack<T>(read: Value -> Option<T>, d: map<string, Value>, key: string, v: Value, ts: seq<T>)
    requires Entry(d, key, v) && v.List? && ReadAll(read, v) == Some(ts)
    ensures ReadAll(read, GetOr(d, key, EMPTY)) == Some(ts)
  {
    EntryOfList(d, key, v);
  }

  lemma {:induction false} NetworkCallsBack(h: ToolHandler)
    requires Declared(h)
    ensures ReadAll(ReadNetworkCall, GetOr(WriteIO(h.io).fields, "network_calls", EMPTY)) == Some(h.io.networkCalls)
  {
    IOEntries(h.io);
    NetworkCallsReadBack(h.io.networkCalls);
    ListReadsBack(ReadNetworkCall, WriteIO(h.io).fields, "network_calls", WriteAll(WriteNetworkCall, h.io.networkCalls), h.io.networkCalls);
  }

  lemma {:induction false} FileOpsBack(h: ToolHandler)
    requires Declared(h)
    ensures ReadAll(ReadFileOp, GetOr(WriteIO(h.io).fields, "file_reads", EMPTY)) == Some(h.io.fileReads)
    ensures ReadAll(ReadFileOp, GetOr(WriteIO(h.io).fields, "file_writes", EMPTY)) == Some(h.io.fileWrites)
  {
    IOEntries(h.io);
    FileOpsReadBack(h.io.fileReads);
    FileOpsReadBack(h.io.fileWrites);
    ListReadsBack(ReadFileOp, WriteIO(h.io).fields, "file_reads", WriteAll(WriteFileOp, h.io.fileReads), h.io.fileReads);
    ListReadsBack(ReadFileOp, WriteIO(h.io).fields, "file_writes", WriteAll(WriteFileOp, h.io.fileWrites), h.io.fileWrites);
  }

  lemma {:induction false} SubprocessCallsBack(h: ToolHandler)
    requires Declared(h)
    ensures ReadAll(ReadSubprocessCall, GetOr(WriteIO(h.io).fields, "subprocess_calls", EMPTY)) == Some(h.io.subprocessCalls)
  {
    IOEntries(h.io);
    SubprocessCallsReadBack(h.io.subprocessCalls);
    ListReadsBack(ReadSubprocessCall, WriteIO(h.io).fields, "subprocess_calls",
                  WriteAll(WriteSubprocessCall, h.io.subprocessCalls), h.io.subprocessCalls);
  }

  lemma {:induction false} PlainListsBack(h: ToolHandler)
    requires Declared(h)
    ensures GetOr(WriteIO(h.io).fields, "env_reads", EMPTY) == h.io.envReads
    ensures GetOr(WriteIO(h.io).fields, "crypto_calls", EMPTY) == h.io.cryptoCalls
  {
    IOEntries(h.io);
    AsDictKeepsIff(h.io.envReads);
    AsDictKeepsIff(h.io.cryptoCalls);
    EntryOfList(WriteIO(h.io).fields, "env_reads", h.io.envReads);
    EntryOfList(WriteIO(h.io).fields, "crypto_calls", h.io.cryptoCalls);
  }

  lemma {:induction false} IOReadsBack(h: ToolHandler)
    requires Declared(h)
    ensures ReadIO(WriteIO(h.io)) == Some(h.io)
  {
    NetworkCallsBack(h);
    FileOpsBack(h);
    SubprocessCallsBack(h);
    PlainListsBack(h);
  }

  /** What comes back: the handler, its import references turned into dictionaries. */
  function Image(h: ToolHandler): ToolHandler {
    h.(calleesImported := AsDict(h.calleesImported))
  }

  lemma {:induction false} ReadsEntries(d: map<string, Value>, h: ToolHandler, io: Value)
    requires Entry(d, "name", h.name) && Entry(d, "declared_description", h.declaredDescription)
    requires Entry(d, "declared_input_schema", h.declaredInputSchema) && Entry(d, "file", h.file)
    requires Entry(d, "line_start", h.lineStart) && Entry(d, "line_end", h.lineEnd)
    requires Entry(d, "callees_local", h.calleesLocal) && Entry(d, "callees_imported", h.calleesImported)
    requires Entry(d, "string_literals", h.stringLiterals) && Entry(d, "io_summary", io)
    requires h.calleesLocal.List? && h.calleesImported.List? && h.stringLiterals.List?
    requires Truthy(io) && ReadIO(io) == Some(h.io)
    ensures ReadHandler(Dict(d)) == Some(h)
  {
    EntryOfList(d, "callees_local", h.calleesLocal);
    EntryOfList(d, "callees_imported", h.calleesImported);
    EntryOfList(d, "string_literals", h.stringLiterals);
  }

  lemma {:induction false} ImageIsExactIff(h: ToolHandler)
    requires Declared(h)
    ensures Image(h) == h <==> h.calleesImported == EMPTY
  {
    var callees := h.calleesImported;
    AsDictKeepsIff(callees);
    if callees.items != [] {
      assert !Plain(callees.items[0]);
    }
  }

  lemma {:induction false} SerializedEntries(h: ToolHandler)
    ensures var d := SerializeHandler(h).fields;
            && Entry(d, "name", AsDict(h.name)) && Entry(d, "declared_description", AsDict(h.declaredDescription))
            && Entry(d, "declared_input_schema", AsDict(h.declaredInputSchema)) && Entry(d, "file", AsDict(h.file))
            && Entry(d, "line_start", AsDict(h.lineStart)) && Entry(d, "line_end", AsDict(h.lineEnd))
            && Entry(d, "callees_local", AsDict(h.calleesLocal)) && Entry(d, "callees_imported", AsDict(h.calleesImported))
            && Entry(d, "string_literals", AsDict(h.stringLiterals)) && Entry(d, "io_summary", WriteIO(h.io))
  {
  }

  lemma {:induction false} HandlerReadsBack(h: ToolHandler)
    requires Declared(h)
    ensures ReadHandler(SerializeHandler(h)) == Some(Image(h))
  {
    IOReadsBack(h);
    assert Entry(WriteIO(h.io).fields, "env_reads", AsDict(h.io.envReads));
    SerializedEntries(h);
    AsDictKeepsIff(h.name);
    AsDictKeepsIff(h.declaredDescription);
    AsDictKeepsIff(h.declaredInputSchema);
    AsDictKeepsIff(h.file);
    AsDictKeepsIff(h.lineStart);
    AsDictKeepsIff(h.lineEnd);
    AsDictKeepsIff(h.calleesLocal);
    AsDictKeepsIff(h.stringLiterals);
    ReadsEntries(SerializeHandler(h).fields, Image(h), WriteIO(h.io));
  }

  lemma {:induction false} HydrateReadsList(d: map<string, Value>, v: Value)
    requires Entry(d, "tool_handlers", v) && v.List?
    ensures Hydrate(Dict(d)) == ReadAll(ReadHandler, v)
  {
    assert d != map[];
    EntryOfList(d, "tool_handlers", v);
  }

  /** Everything but the import references survives, whatever else the document holds. */
  lemma {:induction false} SummaryReadsBack(hs: seq<ToolHandler>, others: map<string, Value>, image: seq<ToolHandler>)
    requires forall k :: 0 <= k < |hs| ==> Declared(hs[k])
    requires |image| == |hs| && forall k :: 0 <= k < |hs| ==> image[k] == Image(hs[k])
    ensures Hydrate(Payload(hs, others)) == Some(image)
  {
    HydrateReadsList(Payload(hs, others).fields, WriteAll(SerializeHandler, hs));
    forall k | 0 <= k < |hs| ensures ReadHandler(SerializeHandler(hs[k])) == Some(image[k]) {
      HandlerReadsBack(hs[k]);
    }
    CollectReadsBack(SerializeHandler, ReadHandler, hs, image);
  }

  /** The round trip is exact if and only if no handler has imported callees. */
  lemma {:induction false} RoundTripIff(hs: seq<ToolHandler>, others: map<string, Value>)
    requires forall k :: 0 <= k < |hs| ==> Declared(hs[k])
    ensures Hydrate(Payload(hs, others)) == Some(hs) <==>
            forall k :: 0 <= k < |hs| ==> hs[k].calleesImported == List([])
  {
    var image := seq(|hs|, k requires 0 <= k < |hs| => Image(hs[k]));
    SummaryReadsBack(hs, others, image);
    forall k | 0 <= k < |hs| ensures image[k] == hs[k] <==> hs[k].calleesImported == EMPTY {
      ImageIsExactIff(hs[k]);
    }
    assert image == hs <==> forall k :: 0 <= k < |hs| ==> image[k] == hs[k];
  }
}
