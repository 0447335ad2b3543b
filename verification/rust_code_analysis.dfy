/**
 * The code-measure adapter over rust-code-analysis.
 *
 * `check` keeps the `src` directories of the project walk, creates the
 * details directory and flattens the function-space tree the engine
 * computed for every analysed file into the process-wide record list
 * (`FUNC_SPACE_RESULT`, here a `FuncSpaceStore` object shared by
 * reference). `parse` flags the records that exceed the configured
 * thresholds and counts them, `count` turns the four counts into a score
 * and `result` copies it into the report's code-measure slot. The file
 * name under which the engine dumps one file's metrics and the worker
 * count are modelled as well.
 */
module RustCodeAnalysis {
  import opened Wrappers
  import opened StrUtil
  import opened Config
  import opened ResultTypes
  import opened Util
  import Scoring
  import Engine = MetricsEngine

  /** The record kinds; `save_funcspace` only ever emits `Unit` and `Function`. */
  datatype FuncKind = Unknown | Function | Class | Struct | Trait | Impl | Unit | Namespace | Interface

  /** `get_space_kind_name`: the lower-case name of a space kind. */
  function SpaceKindName(s: Engine.SpaceKind): string
  {
    match s
    case Unknown => "unknown"
    case Function => "function"
    case Class => "class"
    case Struct => "struct"
    case Trait => "trait"
    case Impl => "impl"
    case Unit => "unit"
    case Namespace => "namespace"
    case Interface => "interface"
  }

  /** The kind a name stands for: the inverse of `SpaceKindName`. */
  function SpaceKindFromName(n: string): Option<Engine.SpaceKind> {
    if n == "unknown" then Some(Engine.Unknown)
    else if n == "function" then Some(Engine.Function)
    else if n == "class" then Some(Engine.Class)
    else if n == "struct" then Some(Engine.Struct)
    else if n == "trait" then Some(Engine.Trait)
    else if n == "impl" then Some(Engine.Impl)
    else if n == "unit" then Some(Engine.Unit)
    else if n == "namespace" then Some(Engine.Namespace)
    else if n == "interface" then Some(Engine.Interface)
    else None
  }

  /** Reading a kind's name back gives the kind. */
  lemma SpaceKindNameRoundTrip(s: Engine.SpaceKind)
    ensures SpaceKindFromName(SpaceKindName(s)) == Some(s)
  {
  }

  /** Distinct kinds have distinct names, so the kind tag of a prefix identifies the kind. */
  lemma SpaceKindNameInjective(a: Engine.SpaceKind, b: Engine.SpaceKind)
    ensures SpaceKindName(a) == SpaceKindName(b) ==> a == b
  {
    SpaceKindNameRoundTrip(a);
    SpaceKindNameRoundTrip(b);
  }

  /** The record of one function or file, as `parse` flags and the result file lists it. */
  datatype FuncInfo = FuncInfo(
    name: string,
    path: string,
    startLine: nat,
    endLine: nat,
    ifLargeFile: bool,
    ifLargeFunction: bool,
    kind: FuncKind,
    cognitive: nat,
    ifLargeCognitive: bool,
    cyclomatic: nat,
    ifLargeCyclomatic: bool)

  // ---------------------------------------------------------------------
  // Flattening the function-space tree (`save_funcspace`)
  // ---------------------------------------------------------------------

  /** The nodes `save_funcspace` records: named `Unit` and `Function` spaces. */
  predicate Emits(f: Engine.FuncSpace) {
    f.name.Some? && (f.kind.Unit? || f.kind.Function?)
  }

  predicate Unflagged(x: FuncInfo) {
    !x.ifLargeFile && !x.ifLargeFunction && !x.ifLargeCognitive && !x.ifLargeCyclomatic
  }

  /**
   * The shape of every record `save_funcspace` emits: no flag set, a
   * `Unit` record keyed by its own name with zero metrics, a `Function`
   * record keyed by a path ending in its name and kind.
   */
  predicate Shaped(x: FuncInfo) {
    Unflagged(x)
    && (x.kind == Unit || x.kind == Function)
    && (x.kind == Unit ==> x.path == x.name && x.cognitive == 0 && x.cyclomatic == 0)
    && (x.kind == Function ==> EndsWith(x.path, "&&&FuncName:" + x.name + "&&&Kind:function"))
  }

  /** The record of one emitting node under prefix `path`. */
  function NodeRecord(path: string, f: Engine.FuncSpace): (r: FuncInfo)
    requires Emits(f)
    ensures r.name == f.name.value && r.startLine == f.startLine && r.endLine == f.endLine
    ensures f.kind.Unit? <==> r.kind == Unit
  {
    if f.kind.Unit? then
      FuncInfo(f.name.value, f.name.value, f.startLine, f.endLine, false, false, Unit, 0, false, 0, false)
    else
      FuncInfo(f.name.value, path + "&&&FuncName:" + f.name.value + "&&&Kind:" + SpaceKindName(f.kind),
               f.startLine, f.endLine, false, false, Function, f.cognitive, false, f.cyclomatic, false)
  }

  /**
   * A node's record is unflagged; a unit is keyed by its own name with zero
   * metrics; a function keeps the engine's metrics under a path that
   * extends the prefix and ends in the function's name and kind.
   */
  lemma NodeRecordShaped(path: string, f: Engine.FuncSpace)
    requires Emits(f)
    ensures var r := NodeRecord(path, f);
      Shaped(r)
      && (r.kind == Function ==>
            StartsWith(r.path, path) && r.cognitive == f.cognitive && r.cyclomatic == f.cyclomatic)
  {
    if f.kind.Function? {
      var p := NodeRecord(path, f).path;
      var tail := "&&&FuncName:" + f.name.value + "&&&Kind:function";
      assert p == path + tail;
      assert p[|p| - |tail|..] == tail;
      assert p[..|path|] == path;
    }
  }

  /**
   * The prefix handed to the children of `f`: the node's own name at the
   * top, otherwise the parent prefix extended by the node's name (or a
   * placeholder) and kind.
   */
  function ChildPath(path: string, f: Engine.FuncSpace): (r: string)
    requires path == [] ==> f.name.Some?
    ensures path == [] ==> r == f.name.value
    ensures path != [] ==> StartsWith(r, path) && |r| > |path|
  {
    if path == [] then f.name.value
    else
      var r := path + "&&&Name:" + f.name.GetOr("parse_func_name_failed") + "&&&Kind:" + SpaceKindName(f.kind);
      assert r[..|path|] == path;
      r
  }

  /**
   * `save_funcspace` unwraps the name of a node with children when the
   * node is reached with an empty prefix (`top`). The prefix handed to the
   * children is empty again only when it was empty and the node's name is
   * the empty string. The requirement holds everywhere in the tree.
   */
  predicate NamedWhereNeeded(top: bool, f: Engine.FuncSpace)
    decreases f, 1
  {
    (top && f.spaces != [] ==> f.name.Some?) && ChildrenNamed(top && f.name == Some(""), f)
  }

  /** `NamedWhereNeeded` for every child of `f`, each reached at `top`. */
  predicate ChildrenNamed(top: bool, f: Engine.FuncSpace)
    decreases f, 0
  {
    forall i :: 0 <= i < |f.spaces| ==> NamedWhereNeeded(top, f.spaces[i])
  }

  /** The child prefix is empty exactly when `NamedWhereNeeded` says so. */
  lemma ChildPathEmpty(path: string, f: Engine.FuncSpace)
    requires path == [] ==> f.name.Some?
    ensures (ChildPath(path, f) == []) == (path == [] && f.name == Some(""))
  {
  }

  /** The records `save_funcspace(path, f)` appends, in order. */
  function Flatten(path: string, f: Engine.FuncSpace): (r: seq<FuncInfo>)
    requires NamedWhereNeeded(path == [], f)
    decreases f, 1, 0
  {
    if f.spaces == [] then OwnRecords(path, f)
    else OwnRecords(path, f) + FlattenChildren(ChildPath(path, f), f, |f.spaces|)
  }

  /** The record of `f` itself, if it emits one. */
  function OwnRecords(path: string, f: Engine.FuncSpace): seq<FuncInfo> {
    if Emits(f) then [NodeRecord(path, f)] else []
  }

  /** The records of the first `n` children of `f`, each flattened under prefix `p`. */
  function FlattenChildren(p: string, f: Engine.FuncSpace, n: nat): (r: seq<FuncInfo>)
    requires n <= |f.spaces|
    requires ChildrenNamed(p == [], f)
    decreases f, 0, n
  {
    if n == 0 then [] else FlattenChildren(p, f, n - 1) + Flatten(p, f.spaces[n - 1])
  }

  /** What a record says about its node, prefixes aside. */
  function SummaryOf(x: FuncInfo): (string, FuncKind, nat, nat) {
    (x.name, x.kind, x.startLine, x.endLine)
  }

  function NodeSummary(f: Engine.FuncSpace): (string, FuncKind, nat, nat)
    requires Emits(f)
  {
    (f.name.value, if f.kind.Unit? then Unit else Function, f.startLine, f.endLine)
  }

  /**
   * The emitting nodes of a tree in pre-order, a parent before its
   * children and the children in order; every other node contributes only
   * its children.
   */
  function Emitted(f: Engine.FuncSpace): seq<(string, FuncKind, nat, nat)>
    decreases f, 1, 0
  {
    (if Emits(f) then [NodeSummary(f)] else []) + EmittedChildren(f, |f.spaces|)
  }

  function EmittedChildren(f: Engine.FuncSpace, n: nat): seq<(string, FuncKind, nat, nat)>
    requires n <= |f.spaces|
    decreases f, 0, n
  {
    if n == 0 then [] else EmittedChildren(f, n - 1) + Emitted(f.spaces[n - 1])
  }

  function Summaries(rs: seq<FuncInfo>): seq<(string, FuncKind, nat, nat)> {
    seq(|rs|, i requires 0 <= i < |rs| => SummaryOf(rs[i]))
  }

  lemma SummariesAppend(a: seq<FuncInfo>, b: seq<FuncInfo>)
    ensures Summaries(a + b) == Summaries(a) + Summaries(b)
  {
    assert forall i :: 0 <= i < |a + b| ==> Summaries(a + b)[i] == (Summaries(a) + Summaries(b))[i];
  }

  /**
   * Exactly one record per emitting node, in pre-order, whatever the
   * prefix: the prefixes change only the paths of the records.
   */
  lemma {:induction false} FlattenEmitted(path: string, f: Engine.FuncSpace)
    requires NamedWhereNeeded(path == [], f)
    ensures Summaries(Flatten(path, f)) == Emitted(f)
    decreases f, 1, 0
  {
    var own := OwnRecords(path, f);
    assert Summaries(own) == (if Emits(f) then [NodeSummary(f)] else []);
    if f.spaces == [] {
      assert EmittedChildren(f, 0) == [];
    } else {
      var p := ChildPath(path, f);
      FlattenChildrenEmitted(p, f, |f.spaces|);
      SummariesAppend(own, FlattenChildren(p, f, |f.spaces|));
    }
  }

  lemma {:induction false} FlattenChildrenEmitted(p: string, f: Engine.FuncSpace, n: nat)
    requires n <= |f.spaces|
    requires ChildrenNamed(p == [], f)
    ensures Summaries(FlattenChildren(p, f, n)) == EmittedChildren(f, n)
    decreases f, 0, n
  {
    if n > 0 {
      FlattenChildrenEmitted(p, f, n - 1);
      FlattenEmitted(p, f.spaces[n - 1]);
      SummariesAppend(FlattenChildren(p, f, n - 1), Flatten(p, f.spaces[n - 1]));
    }
  }

  /** The records of the first `i + 1` children: those of the first `i`, then those of child `i`. */
  lemma FlattenChildrenSnoc(before: seq<FuncInfo>, p: string, f: Engine.FuncSpace, i: nat)
    requires i < |f.spaces| && ChildrenNamed(p == [], f)
    ensures NamedWhereNeeded(p == [], f.spaces[i])
    ensures before + FlattenChildren(p, f, i) + Flatten(p, f.spaces[i]) == before + FlattenChildren(p, f, i + 1)
  {
  }

  /** Every record `save_funcspace` emits has the shape of a fresh record. */
  lemma {:induction false} FlattenShaped(path: string, f: Engine.FuncSpace)
    requires NamedWhereNeeded(path == [], f)
    ensures forall x :: x in Flatten(path, f) ==> Shaped(x)
    decreases f, 1, 0
  {
    if Emits(f) {
      NodeRecordShaped(path, f);
    }
    if f.spaces != [] {
      FlattenChildrenShaped(ChildPath(path, f), f, |f.spaces|);
    }
  }

  lemma {:induction false} FlattenChildrenShaped(p: string, f: Engine.FuncSpace, n: nat)
    requires n <= |f.spaces|
    requires ChildrenNamed(p == [], f)
    ensures forall x :: x in FlattenChildren(p, f, n) ==> Shaped(x)
    decreases f, 0, n
  {
    if n > 0 {
      FlattenChildrenShaped(p, f, n - 1);
      FlattenShaped(p, f.spaces[n - 1]);
    }
  }

  /** The records of every tree, each flattened from an empty prefix, in order. */
  function FlattenAll(spaces: seq<Engine.FuncSpace>): (r: seq<FuncInfo>)
    requires forall i :: 0 <= i < |spaces| ==> NamedWhereNeeded(true, spaces[i])
  {
    if spaces == [] then []
    else FlattenAll(spaces[..|spaces| - 1]) + Flatten("", spaces[|spaces| - 1])
  }

  lemma {:induction false} FlattenAllShaped(spaces: seq<Engine.FuncSpace>)
    requires forall i :: 0 <= i < |spaces| ==> NamedWhereNeeded(true, spaces[i])
    ensures forall x :: x in FlattenAll(spaces) ==> Shaped(x)
  {
    if spaces != [] {
      FlattenAllShaped(spaces[..|spaces| - 1]);
      FlattenShaped("", spaces[|spaces| - 1]);
    }
  }

  /** The process-wide record list `save_funcspace` appends to and `parse` reads. */
  class FuncSpaceStore {
    var records: seq<FuncInfo>

    constructor ()
      ensures records == []
    {
      records := [];
    }

    /** `save_funcspace`: appends the records of `f` and of its descendants. */
    method SaveFuncSpace(path: string, f: Engine.FuncSpace)
      requires NamedWhereNeeded(path == [], f)
      modifies this`records
      ensures records == old(records) + Flatten(path, f)
      decreases f, 1
    {
      SaveOwnRecord(path, f);
      if f.spaces != [] {
        SaveChildren(ChildPath(path, f), f);
      }
    }

    /** The second half of `save_funcspace`: every child of `f`, in order, under prefix `p`. */
    method SaveChildren(p: string, f: Engine.FuncSpace)
      requires ChildrenNamed(p == [], f)
      modifies this`records
      ensures records == old(records) + FlattenChildren(p, f, |f.spaces|)
      decreases f, 0
    {
      ghost var before := records;
      for i := 0 to |f.spaces|
        invariant records == before + FlattenChildren(p, f, i)
      {
        FlattenChildrenSnoc(before, p, f, i);
        SaveFuncSpace(p, f.spaces[i]);
      }
    }

    /** The first half of `save_funcspace`: the record of `f` itself, when `f` is a named unit or function. */
    method SaveOwnRecord(path: string, f: Engine.FuncSpace)
      modifies this`records
      ensures records == old(records) + OwnRecords(path, f)
      decreases f, 0
    {
      if f.kind.Unit? {
        if f.name.Some? {
          var n := f.name.value;
          records := records + [FuncInfo(n, n, f.startLine, f.endLine, false, false, Unit, 0, false, 0, false)];
        }
      } else if f.kind.Function? {
        if f.name.Some? {
          var n := f.name.value;
          var p := path + "&&&FuncName:" + n + "&&&Kind:" + SpaceKindName(f.kind);
          records := records + [FuncInfo(n, p, f.startLine, f.endLine, false, false, Function,
                                         f.cognitive, false, f.cyclomatic, false)];
        }
      }
    }
  }

  // ---------------------------------------------------------------------
  // Output formats and the dump file name (`Format`, `dump_formats`)
  // ---------------------------------------------------------------------

  datatype Format = Cbor | Json | Toml | Yaml

  /** `Format::all`. */
  function FormatNames(): seq<string> {
    ["cbor", "json", "toml", "yaml"]
  }

  function FormatName(f: Format): string {
    match f
    case Cbor => "cbor"
    case Json => "json"
    case Toml => "toml"
    case Yaml => "yaml"
  }

  /** `Format::from_str`: exactly the names `all` lists, case-sensitively. */
  function FormatFromStr(s: string): (r: Outcome<Format>)
    ensures r.Ok? <==> s in FormatNames()
    ensures r.Ok? ==> FormatName(r.value) == s
  {
    if s == "cbor" then Ok(Cbor)
    else if s == "json" then Ok(Json)
    else if s == "toml" then Ok(Toml)
    else if s == "yaml" then Ok(Yaml)
    else Err("\"" + s + "\" is not a supported format")
  }

  /** Every format's name is listed by `all` and parses back to it. */
  lemma FormatRoundTrip(f: Format)
    ensures FormatName(f) in FormatNames()
    ensures FormatFromStr(FormatName(f)) == Ok(f)
  {
  }

  /** A path that cannot leave the output folder or name a drive. */
  predicate Safe(s: string) {
    '/' !in s && '\\' !in s && ':' !in s
  }

  /** The file extension of a format (YAML is written `.yml`). */
  function Extension(f: Format): (r: string)
    ensures |r| > 1 && r[0] == '.' && Safe(r)
  {
    match f
    case Cbor => ".cbor"
    case Json => ".json"
    case Toml => ".toml"
    case Yaml => ".yml"
  }

  /** The components left after `strip_prefix("/")` and then `strip_prefix("./")`. */
  function StripRoot(cs: seq<string>): (r: seq<string>)
    ensures |r| <= |cs| && r == cs[|cs| - |r|..]
    ensures r != [] && r == cs ==> cs[0] != "/" && cs[0] != "."
  {
    var a := if cs != [] && cs[0] == "/" then cs[1..] else cs;
    if a != [] && a[0] == "." then a[1..] else a
  }

  /** `..` becomes `.`, so no component climbs out of the output folder. */
  function CleanComponent(c: string): (r: string)
    ensures r != ".."
    ensures c != ".." ==> r == c
  {
    if c == ".." then "." else c
  }

  /** The cleaned components that survive, each followed by `___`. */
  function JoinedComponents(cs: seq<string>): (r: string)
    ensures Safe(r)
  {
    if cs == [] then ""
    else
      var c := CleanComponent(cs[|cs| - 1]);
      JoinedComponents(cs[..|cs| - 1]) + (if Safe(c) then c + "___" else "")
  }

  /** The fixed start of every dump file name, before its last character is dropped. */
  const DumpPrefix := "file_result___"

  lemma SafeSlice(a: string, k: nat)
    requires Safe(a) && k <= |a|
    ensures Safe(a[..k])
  {
    assert forall c :: c in a[..k] ==> c in a;
  }

  /** One more component extends the joined name by that component and `___`, if it is kept. */
  lemma {:induction false} JoinedStep(cs: seq<string>, i: nat)
    requires i < |cs|
    ensures var c := CleanComponent(cs[i]);
      DumpPrefix + JoinedComponents(cs[..i + 1])
      == if Safe(c) then DumpPrefix + JoinedComponents(cs[..i]) + c + "___"
         else DumpPrefix + JoinedComponents(cs[..i])
  {
    assert cs[..i + 1][..i] == cs[..i];
    var c := CleanComponent(cs[i]);
    if Safe(c) {
      var j := JoinedComponents(cs[..i]);
      assert JoinedComponents(cs[..i + 1]) == j + (c + "___");
      assert DumpPrefix + (j + (c + "___")) == DumpPrefix + j + c + "___";
    }
  }

  /** Dropping the last character of a safe name that starts with the prefix and appending an extension. */
  lemma {:induction false} DumpNameShape(joined: string, fmt: Format)
    requires Safe(joined)
    ensures var name := DumpPrefix + joined; var r := name[..|name| - 1] + Extension(fmt);
      StartsWith(r, "file_result__") && EndsWith(r, Extension(fmt)) && Safe(r)
  {
    var name := DumpPrefix + joined;
    assert |DumpPrefix| == 14 && Safe(DumpPrefix);
    assert Safe(name);
    var head := name[..|name| - 1];
    assert head[..13] == DumpPrefix[..13] == "file_result__";
    SafeSlice(name, |name| - 1);
    var ext := Extension(fmt);
    var r := head + ext;
    assert r[..13] == head[..13];
    assert r[|r| - |ext|..] == ext;
  }

  /**
   * The name under which one file's metrics are dumped: it starts with
   * `file_result__`, ends with the format's extension and holds no `/`,
   * `\` or `:`, whatever the analysed path was.
   */
  function DumpFileName(cs: seq<string>, fmt: Format): (r: string)
    ensures StartsWith(r, "file_result__")
    ensures EndsWith(r, Extension(fmt))
    ensures Safe(r)
  {
    var joined := JoinedComponents(StripRoot(cs));
    DumpNameShape(joined, fmt);
    var name := DumpPrefix + joined;
    name[..|name| - 1] + Extension(fmt)
  }

  /** The file-name loop of `dump_formats`, over the components of the analysed path. */
  method OutputFileName(components: seq<string>, fmt: Format) returns (name: string)
    ensures name == DumpFileName(components, fmt)
  {
    var cleaned := StripRoot(components);
    var pathName := DumpPrefix;
    for i := 0 to |cleaned|
      invariant pathName == DumpPrefix + JoinedComponents(cleaned[..i])
    {
      JoinedStep(cleaned, i);
      var s := if cleaned[i] == ".." then "." else cleaned[i];
      if '\\' !in s && '/' !in s && ':' !in s {
        pathName := pathName + s;
        pathName := pathName + "___";
      }
    }
    assert cleaned[..|cleaned|] == cleaned;
    name := pathName[..|pathName| - 1] + Extension(fmt);
  }

  /**
   * The worker count of the engine's runner: one fewer than the jobs asked
   * for, or than the available parallelism when none were asked for, and
   * never fewer than one.
   */
  function NumJobs(requested: Option<nat>, available: nat): (r: nat)
    requires available >= 1
    ensures r >= 1
    ensures var n := requested.GetOr(available); (n >= 2 ==> r + 1 == n) && (n <= 2 ==> r == 1)
  {
    var n := if requested.Some? then requested.value else available;
    (if n > 2 then n else 2) - 1
  }

  // ---------------------------------------------------------------------
  // Thresholds and counting (`parse`)
  // ---------------------------------------------------------------------

  datatype Largeness = LargeCyclomatic | LargeCognitive | LargeFile | LargeFunction

  /** `parse` can classify `x`: its span is not reversed and the thresholds its kind reads are set. */
  predicate Classifiable(m: MeasureEvaluationConfig, x: FuncInfo) {
    x.startLine <= x.endLine
    && (x.kind == Function ==>
          m.largeNumRowsFunction.Some? && m.largeCognitiveComplexity.Some? && m.largeCyclomaticComplexity.Some?)
    && (x.kind != Function ==> m.largeNumRowsFile.Some?)
  }

  predicate AllClassifiable(m: MeasureEvaluationConfig, rs: seq<FuncInfo>) {
    forall i :: 0 <= i < |rs| ==> Classifiable(m, rs[i])
  }

  /** Whether `x` strictly exceeds the threshold of `w`; function thresholds apply to functions only. */
  predicate IsLarge(m: MeasureEvaluationConfig, x: FuncInfo, w: Largeness)
    requires Classifiable(m, x)
  {
    match w
    case LargeFunction => x.kind == Function && x.endLine - x.startLine > m.largeNumRowsFunction.value
    case LargeCognitive => x.kind == Function && x.cognitive > m.largeCognitiveComplexity.value
    case LargeCyclomatic => x.kind == Function && x.cyclomatic > m.largeCyclomaticComplexity.value
    case LargeFile => x.kind != Function && x.endLine - x.startLine > m.largeNumRowsFile.value
  }

  function FlagOf(x: FuncInfo, w: Largeness): bool {
    match w
    case LargeFunction => x.ifLargeFunction
    case LargeCognitive => x.ifLargeCognitive
    case LargeCyclomatic => x.ifLargeCyclomatic
    case LargeFile => x.ifLargeFile
  }

  /**
   * One record after `parse`: a flag is raised exactly when its threshold
   * is exceeded (a raised flag stays raised), a function can only gain the
   * three function flags, anything else only the file flag, and no other
   * field changes.
   */
  function Flag(m: MeasureEvaluationConfig, x: FuncInfo): (r: FuncInfo)
    requires Classifiable(m, x)
    ensures forall w :: FlagOf(r, w) == (FlagOf(x, w) || IsLarge(m, x, w))
    ensures x.kind == Function ==> r.ifLargeFile == x.ifLargeFile
    ensures x.kind != Function ==>
      r.ifLargeFunction == x.ifLargeFunction && r.ifLargeCognitive == x.ifLargeCognitive
      && r.ifLargeCyclomatic == x.ifLargeCyclomatic
    ensures r.(ifLargeFile := x.ifLargeFile, ifLargeFunction := x.ifLargeFunction,
               ifLargeCognitive := x.ifLargeCognitive, ifLargeCyclomatic := x.ifLargeCyclomatic) == x
  {
    if x.kind == Function then
      x.(ifLargeFunction := x.ifLargeFunction || x.endLine - x.startLine > m.largeNumRowsFunction.value,
         ifLargeCognitive := x.ifLargeCognitive || x.cognitive > m.largeCognitiveComplexity.value,
         ifLargeCyclomatic := x.ifLargeCyclomatic || x.cyclomatic > m.largeCyclomaticComplexity.value)
    else
      x.(ifLargeFile := x.ifLargeFile || x.endLine - x.startLine > m.largeNumRowsFile.value)
  }

  function FlagAll(m: MeasureEvaluationConfig, rs: seq<FuncInfo>): (r: seq<FuncInfo>)
    requires AllClassifiable(m, rs)
    ensures |r| == |rs|
    ensures forall i :: 0 <= i < |rs| ==> r[i] == Flag(m, rs[i])
  {
    if rs == [] then [] else FlagAll(m, rs[..|rs| - 1]) + [Flag(m, rs[|rs| - 1])]
  }

  /** How many records exceed the threshold of `w`. */
  function CountLarge(m: MeasureEvaluationConfig, rs: seq<FuncInfo>, w: Largeness): nat
    requires AllClassifiable(m, rs)
  {
    if rs == [] then 0
    else CountLarge(m, rs[..|rs| - 1], w) + (if IsLarge(m, rs[|rs| - 1], w) then 1 else 0)
  }

  /**
   * One more record of the prefix: the flagged prefix grows by the flagged
   * record, replacing it in place in the list, and each count grows by
   * that record's share.
   */
  lemma PrefixStep(m: MeasureEvaluationConfig, rs: seq<FuncInfo>, i: nat)
    requires AllClassifiable(m, rs) && i < |rs|
    ensures AllClassifiable(m, rs[..i]) && AllClassifiable(m, rs[..i + 1])
    ensures (FlagAll(m, rs[..i]) + rs[i..])[i] == rs[i]
    ensures (FlagAll(m, rs[..i]) + rs[i..])[i := Flag(m, rs[i])] == FlagAll(m, rs[..i + 1]) + rs[i + 1..]
    ensures FlagAll(m, rs[..i + 1]) == FlagAll(m, rs[..i]) + [Flag(m, rs[i])]
    ensures CountLarge(m, rs[..i + 1], LargeCyclomatic)
      == CountLarge(m, rs[..i], LargeCyclomatic) + (if IsLarge(m, rs[i], LargeCyclomatic) then 1 else 0)
    ensures CountLarge(m, rs[..i + 1], LargeCognitive)
      == CountLarge(m, rs[..i], LargeCognitive) + (if IsLarge(m, rs[i], LargeCognitive) then 1 else 0)
    ensures CountLarge(m, rs[..i + 1], LargeFile)
      == CountLarge(m, rs[..i], LargeFile) + (if IsLarge(m, rs[i], LargeFile) then 1 else 0)
    ensures CountLarge(m, rs[..i + 1], LargeFunction)
      == CountLarge(m, rs[..i], LargeFunction) + (if IsLarge(m, rs[i], LargeFunction) then 1 else 0)
  {
    assert rs[..i + 1][..i] == rs[..i];
    var f := FlagAll(m, rs[..i]);
    assert (f + rs[i..])[i := Flag(m, rs[i])] == f + [Flag(m, rs[i])] + rs[i + 1..];
  }

  /** How many records carry the flag of `w`. */
  function CountFlagged(rs: seq<FuncInfo>, w: Largeness): nat {
    if rs == [] then 0
    else CountFlagged(rs[..|rs| - 1], w) + (if FlagOf(rs[|rs| - 1], w) then 1 else 0)
  }

  /** On records without flags, each counter of `parse` is the number of records whose flag it raises. */
  lemma {:induction false} CountLargeIsFlagged(m: MeasureEvaluationConfig, rs: seq<FuncInfo>, w: Largeness)
    requires AllClassifiable(m, rs)
    requires forall i :: 0 <= i < |rs| ==> !FlagOf(rs[i], w)
    ensures CountFlagged(FlagAll(m, rs), w) == CountLarge(m, rs, w)
  {
    if rs != [] {
      var n := |rs| - 1;
      var pre := rs[..n];
      CountLargeIsFlagged(m, pre, w);
      var fa := FlagAll(m, rs);
      assert fa[..n] == FlagAll(m, pre);
      assert fa[n] == Flag(m, rs[n]);
    }
  }

  /** Every record `save_funcspace` emits is counted by the flag it raises. */
  lemma FreshRecordsCounted(m: MeasureEvaluationConfig, rs: seq<FuncInfo>, w: Largeness)
    requires AllClassifiable(m, rs)
    requires forall i :: 0 <= i < |rs| ==> Shaped(rs[i])
    ensures CountFlagged(FlagAll(m, rs), w) == CountLarge(m, rs, w)
  {
    CountLargeIsFlagged(m, rs, w);
  }

  // ---------------------------------------------------------------------
  // Score (`count`) and report slot (`result`)
  // ---------------------------------------------------------------------

  /** All four counts the score needs are present. */
  predicate MeasureCounted(pr: Option<ParseResultDetail>) {
    pr.Some? && pr.value.CodeAnalysisParsed?
    && pr.value.largeCyclomaticComplexity.Some? && pr.value.largeCognitiveComplexity.Some?
    && pr.value.largeNumRowsFile.Some? && pr.value.largeNumRowsFunction.Some?
  }

  /** The four penalties, in the order `count` subtracts them. */
  function MeasurePenalties(c: MeasureEvaluationConfig, pr: ParseResultDetail): seq<nat>
    requires c.largeCyclomaticComplexityScore.Some? && c.largeCognitiveComplexityScore.Some?
    requires c.largeNumRowsFileScore.Some? && c.largeNumRowsFunctionScore.Some?
    requires MeasureCounted(Some(pr))
  {
    [c.largeCyclomaticComplexityScore.value * pr.largeCyclomaticComplexity.value,
     c.largeCognitiveComplexityScore.value * pr.largeCognitiveComplexity.value,
     pr.largeNumRowsFile.value * c.largeNumRowsFileScore.value,
     pr.largeNumRowsFunction.value * c.largeNumRowsFunctionScore.value]
  }

  /** The measure score of `count`, when the six fields and the four counts are present. */
  function MeasureScore(cfg: Config, pr: Option<ParseResultDetail>): (r: Option<CountResultDetail>)
    requires MeasureCfgComplete(cfg) && MeasureCounted(pr) ==> MeasureCfg(cfg).value.measureScore.value > 0
    ensures r.Some? <==> MeasureCfgComplete(cfg) && MeasureCounted(pr)
    ensures r.Some? ==>
      var c := MeasureCfg(cfg).value;
      var penalty := Scoring.Sum(MeasurePenalties(c, pr.value));
      r.value.CodeAnalysisCount? && r.value.score.Some? && r.value.normalizedScore.Some?
      && r.value.score.value <= 100
      && (penalty >= c.measureScore.value ==> r.value.score.value == 0)
      && (penalty == 0 ==> r.value.score.value == 100)
      && r.value.normalizedScore.value == Scoring.Normalize(r.value.score.value, c.measureWeight.value)
      && r.value.normalizedScore.value <= c.measureWeight.value
  {
    if MeasureCfgComplete(cfg) && MeasureCounted(pr) then
      var c := MeasureCfg(cfg).value;
      var score := Scoring.RawScore(c.measureScore.value, MeasurePenalties(c, pr.value));
      Some(CodeAnalysisCount(Some(score), Some(Scoring.Normalize(score, c.measureWeight.value))))
    else None
  }

  /** More over-long functions never raise the measure score. */
  lemma {:induction false} MeasureScoreMonotone(cfg: Config, cyc: nat, cog: nat, file: nat, fn1: nat, fn2: nat)
    requires MeasureCfgComplete(cfg) && MeasureCfg(cfg).value.measureScore.value > 0 && fn1 <= fn2
    ensures MeasureScore(cfg, Some(CodeAnalysisParsed(Some(cyc), Some(cog), Some(file), Some(fn2)))).value.score.value
         <= MeasureScore(cfg, Some(CodeAnalysisParsed(Some(cyc), Some(cog), Some(file), Some(fn1)))).value.score.value
  {
    var c := MeasureCfg(cfg).value;
    var ps := MeasurePenalties(c, CodeAnalysisParsed(Some(cyc), Some(cog), Some(file), Some(fn1)));
    var qs := MeasurePenalties(c, CodeAnalysisParsed(Some(cyc), Some(cog), Some(file), Some(fn2)));
    Scoring.MulMonotone(fn1, fn2, c.largeNumRowsFunctionScore.value);
    Scoring.RawScoreMonotone(c.measureScore.value, ps, qs);
  }

  /** `result`: the code-measure slot is filled when both numbers are present; nothing else changes. */
  function MergeMeasure(cr: Option<CountResultDetail>, report: Report): (r: Report)
    ensures r.(codeMeasure := report.codeMeasure) == report
    ensures cr.Some? && cr.value.CodeAnalysisCount? && cr.value.score.Some? && cr.value.normalizedScore.Some?
      ==> r.codeMeasure == Some(ScoreEntry(cr.value.score, cr.value.normalizedScore))
    ensures !(cr.Some? && cr.value.CodeAnalysisCount? && cr.value.score.Some? && cr.value.normalizedScore.Some?)
      ==> r == report
  {
    if cr.Some? && cr.value.CodeAnalysisCount? && cr.value.score.Some? && cr.value.normalizedScore.Some? then
      report.(codeMeasure := Some(ScoreEntry(cr.value.score, cr.value.normalizedScore)))
    else report
  }

  /** The directory the engine dumps per-file metrics into: `details` beside the result file. */
  function DetailsDir(result: Path): (r: Path)
    ensures |r| > 0 && r[|r| - 1] == "details"
    ensures |result| > 0 ==> r[..|r| - 1] == result[..|result| - 1]
  {
    Push(Pop(result), "details")
  }

  /** The exclude fragments `check` hands to the directory filter. */
  function ExcludeDirs(cfg: Config): seq<string> {
    cfg.excludeDir.GetOr([])
  }

  // ---------------------------------------------------------------------
  // The adapter
  // ---------------------------------------------------------------------

  class RustCodeAnalysis {
    const projectCfg: ProjectInfoConfig
    const config: Config
    const store: FuncSpaceStore
    var dirList: map<string, DirEntry>
    var funcInfo: seq<FuncInfo>
    var checkResult: Option<CheckResultDetail>
    var parseResult: Option<ParseResultDetail>
    var countResult: Option<CountResultDetail>

    constructor (projectCfg: ProjectInfoConfig, config: Config, store: FuncSpaceStore)
      ensures this.projectCfg == projectCfg && this.config == config && this.store == store
      ensures dirList == map[] && funcInfo == []
      ensures checkResult.None? && parseResult.None? && countResult.None?
    {
      this.projectCfg := projectCfg;
      this.config := config;
      this.store := store;
      dirList := map[];
      funcInfo := [];
      checkResult := None;
      parseResult := None;
      countResult := None;
    }

    /**
     * `check`: `walk` is what walking the project directory yields,
     * `failingDirs` the directories that cannot be created, and `spaces`
     * the trees the engine computes for the files under the kept
     * directories. The kept directories are recorded before the details
     * directory is created; if that fails nothing is analysed.
     */
    method Check(walk: seq<DirEntry>, failingDirs: set<Path>, spaces: seq<Engine.FuncSpace>)
      returns (st: Status)
      requires forall i :: 0 <= i < |spaces| ==> NamedWhereNeeded(true, spaces[i])
      modifies this`dirList, store`records
      ensures forall k :: k in dirList <==>
        exists e :: e in walk && DirAndName(e, "src", ExcludeDirs(config)) && e.path == k
      ensures forall k :: k in dirList ==> dirList[k] in walk && dirList[k].path == k
      ensures DetailsDir(projectCfg.result) in failingDirs ==> st.Err? && store.records == old(store.records)
      ensures DetailsDir(projectCfg.result) !in failingDirs ==>
        st == Done && store.records == old(store.records) + FlattenAll(spaces)
    {
      var excludeDir := config.excludeDir.GetOr([]);
      dirList := GetAllDir(walk, "src", excludeDir, DirAndName);
      var output := Pop(projectCfg.result);
      output := Push(output, "details");
      if output in failingDirs {
        return Err("Create result dir path failed!");
      }
      ghost var before := store.records;
      ghost var kept := dirList;
      for i := 0 to |spaces|
        invariant store.records == before + FlattenAll(spaces[..i])
        invariant dirList == kept
      {
        assert spaces[..i + 1][..i] == spaces[..i];
        store.SaveFuncSpace("", spaces[i]);
      }
      assert spaces[..|spaces|] == spaces;
      st := Done;
    }

    /**
     * `parse`: with the measure table configured, every stored record is
     * flagged in place and a copy appended to `func_info`, and the four
     * counts are stored; without it nothing changes.
     */
    method Parse() returns (st: Status)
      requires MeasureCfg(config).Some? ==> AllClassifiable(MeasureCfg(config).value, store.records)
      modifies store`records, this`funcInfo, this`parseResult
      ensures st == Done
      ensures MeasureCfg(config).Some? ==>
        var m := MeasureCfg(config).value;
        var rs := old(store.records);
        store.records == FlagAll(m, rs)
        && funcInfo == old(funcInfo) + FlagAll(m, rs)
        && parseResult == Some(CodeAnalysisParsed(
             Some(CountLarge(m, rs, LargeCyclomatic)), Some(CountLarge(m, rs, LargeCognitive)),
             Some(CountLarge(m, rs, LargeFile)), Some(CountLarge(m, rs, LargeFunction))))
      ensures MeasureCfg(config).None? ==>
        store.records == old(store.records) && funcInfo == old(funcInfo) && parseResult == old(parseResult)
    {
      if config.qualityEvaluationCfg.Some? && config.qualityEvaluationCfg.value.measeureCfg.Some? {
        var m := config.qualityEvaluationCfg.value.measeureCfg.value;
        var cyc, cog, file, func := FlagRecords(m);
        parseResult := Some(CodeAnalysisParsed(Some(cyc), Some(cog), Some(file), Some(func)));
      }
      st := Done;
    }

    /** The loop of `parse`: flags each stored record in place, counts, and copies it out. */
    method FlagRecords(m: MeasureEvaluationConfig) returns (cyc: nat, cog: nat, file: nat, func: nat)
      requires AllClassifiable(m, store.records)
      modifies store`records, this`funcInfo
      ensures store.records == FlagAll(m, old(store.records))
      ensures funcInfo == old(funcInfo) + FlagAll(m, old(store.records))
      ensures cyc == CountLarge(m, old(store.records), LargeCyclomatic)
      ensures cog == CountLarge(m, old(store.records), LargeCognitive)
      ensures file == CountLarge(m, old(store.records), LargeFile)
      ensures func == CountLarge(m, old(store.records), LargeFunction)
    {
      ghost var rs := store.records;
      ghost var before := funcInfo;
      cyc, cog, file, func := 0, 0, 0, 0;
      var n := |store.records|;
      for i := 0 to n
        invariant store.records == FlagAll(m, rs[..i]) + rs[i..]
        invariant funcInfo == before + FlagAll(m, rs[..i])
        invariant cyc == CountLarge(m, rs[..i], LargeCyclomatic)
        invariant cog == CountLarge(m, rs[..i], LargeCognitive)
        invariant file == CountLarge(m, rs[..i], LargeFile)
        invariant func == CountLarge(m, rs[..i], LargeFunction)
      {
        PrefixStep(m, rs, i);
        var v, dCyc, dCog, dFile, dFunc := FlagRecord(m, store.records[i]);
        cyc, cog, file, func := cyc + dCyc, cog + dCog, file + dFile, func + dFunc;
        store.records := store.records[i := v];
        funcInfo := funcInfo + [v];
      }
      assert rs[..|rs|] == rs;
      assert store.records == FlagAll(m, rs) + [];
    }

    /** The body of the `parse` loop for one record: its flagged form and what it adds to each counter. */
    static method FlagRecord(m: MeasureEvaluationConfig, x: FuncInfo)
      returns (v: FuncInfo, dCyc: nat, dCog: nat, dFile: nat, dFunc: nat)
      requires Classifiable(m, x)
      ensures v == Flag(m, x)
      ensures dCyc == (if IsLarge(m, x, LargeCyclomatic) then 1 else 0)
      ensures dCog == (if IsLarge(m, x, LargeCognitive) then 1 else 0)
      ensures dFile == (if IsLarge(m, x, LargeFile) then 1 else 0)
      ensures dFunc == (if IsLarge(m, x, LargeFunction) then 1 else 0)
    {
      v := x;
      dCyc, dCog, dFile, dFunc := 0, 0, 0, 0;
      if v.kind == Function {
        if v.endLine - v.startLine > m.largeNumRowsFunction.value {
          dFunc := 1;
          v := v.(ifLargeFunction := true);
        }
        if v.cognitive > m.largeCognitiveComplexity.value {
          dCog := 1;
          v := v.(ifLargeCognitive := true);
        }
        if v.cyclomatic > m.largeCyclomaticComplexity.value {
          dCyc := 1;
          v := v.(ifLargeCyclomatic := true);
        }
      } else {
        if v.endLine - v.startLine > m.largeNumRowsFile.value {
          dFile := 1;
          v := v.(ifLargeFile := true);
        }
      }
    }

    /** `count`: the score is stored only when the six fields and the four counts are present. */
    method Count() returns (st: Status)
      requires MeasureCfgComplete(config) && MeasureCounted(parseResult) ==>
        MeasureCfg(config).value.measureScore.value > 0
      modifies this`countResult
      ensures st == Done
      ensures countResult ==
        (if MeasureScore(config, parseResult).Some? then MeasureScore(config, parseResult) else old(countResult))
    {
      if config.qualityEvaluationCfg.Some? && config.qualityEvaluationCfg.value.measeureCfg.Some? {
        var c := config.qualityEvaluationCfg.value.measeureCfg.value;
        if c.largeCyclomaticComplexityScore.Some? && c.largeCognitiveComplexityScore.Some?
           && c.largeNumRowsFunctionScore.Some? && c.largeNumRowsFileScore.Some?
           && c.measureScore.Some? && c.measureWeight.Some? {
          if parseResult.Some? && parseResult.value.CodeAnalysisParsed?
             && parseResult.value.largeCyclomaticComplexity.Some? && parseResult.value.largeCognitiveComplexity.Some?
             && parseResult.value.largeNumRowsFile.Some? && parseResult.value.largeNumRowsFunction.Some? {
            var pr := parseResult.value;
            var base := c.measureScore.value;
            var p1 := c.largeCyclomaticComplexityScore.value * pr.largeCyclomaticComplexity.value;
            var p2 := c.largeCognitiveComplexityScore.value * pr.largeCognitiveComplexity.value;
            var p3 := pr.largeNumRowsFile.value * c.largeNumRowsFileScore.value;
            var p4 := pr.largeNumRowsFunction.value * c.largeNumRowsFunctionScore.value;
            Scoring.ChainSubQuad(base, p1, p2, p3, p4);
            var score := Scoring.SaturatingSub(Scoring.SaturatingSub(Scoring.SaturatingSub(
                           Scoring.SaturatingSub(base, p1), p2), p3), p4) * 100 / base;
            assert MeasurePenalties(c, pr) == [p1, p2, p3, p4];
            assert score == Scoring.RawScore(base, [p1, p2, p3, p4]);
            countResult := Some(CodeAnalysisCount(Some(score), Some(score * c.measureWeight.value / 100)));
          }
        }
      }
      st := Done;
    }

    /** `result`: copies the score into the report's code-measure slot. */
    method Result(report: Report) returns (st: Status, report': Report)
      ensures st == Done && report' == MergeMeasure(countResult, report)
    {
      report' := report;
      if countResult.Some? && countResult.value.CodeAnalysisCount?
         && countResult.value.score.Some? && countResult.value.normalizedScore.Some? {
        report' := report.(codeMeasure := Some(ScoreEntry(countResult.value.score, countResult.value.normalizedScore)));
      }
      st := Done;
    }
  }
}
