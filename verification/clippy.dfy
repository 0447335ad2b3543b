/**
 * The static-check adapter (`toolchains/clippy`): Clippy writes its
 * diagnostics to a text file; `parse` splits that file into blank-line
 * separated blocks, tags each block with the lint kind found in it and
 * counts warnings and errors; `count` turns the counts into a score and
 * `result` stores it in the report's static-check slot.
 */
module Clippy {
  import opened Wrappers
  import opened StrUtil
  import opened Config
  import opened ResultTypes
  import Scoring

  /** `LintKind`; the source's `None` variant is `NoLint` here. */
  datatype LintKind =
    | ClippyWarn(tag: string)
    | ClippyDeny(tag: string)
    | RustWarn(tag: string)
    | RustDeny(tag: string)
    | NoLint

  datatype LintInfo = LintInfo(ind: nat, lintKind: LintKind, content: seq<string>)

  predicate IsWarn(k: LintKind) {
    k.ClippyWarn? || k.RustWarn?
  }

  predicate IsDeny(k: LintKind) {
    k.ClippyDeny? || k.RustDeny?
  }

  // The four markers `get_lint_kind` searches for, exactly as written: the
  // first is a raw string, the other three are ordinary strings that begin
  // with a literal `r`.
  const RustWarnMarker: string := "#[warn("
  const RustDenyMarker: string := "r#[deny("
  const ClippyWarnMarker: string := "r#[warn(clippy::"
  const ClippyDenyMarker: string := "r#[deny(clippy::"

  /** The marker whose match produced a tagged kind. */
  function MarkerOf(k: LintKind): string
    requires !k.NoLint?
  {
    match k
    case RustWarn(_) => RustWarnMarker
    case RustDeny(_) => RustDenyMarker
    case ClippyWarn(_) => ClippyWarnMarker
    case ClippyDeny(_) => ClippyDenyMarker
  }

  /** The test `parse` applies to a line before classifying it (all four raw strings). */
  predicate HasLintMarker(l: string) {
    Contains(l, "#[warn(") || Contains(l, "#[deny(")
    || Contains(l, "#[warn(clippy::") || Contains(l, "#[deny(clippy::")
  }

  /**
   * The slice `s[p..e]` of `get_lint_kind` exists: when both the marker and
   * a `)` are found, the `)` does not come before the marker (the source
   * panics otherwise).
   */
  predicate SliceDefined(s: string, marker: string) {
    Find(s, marker).Some? && Find(s, ")").Some? ==> Find(s, marker).value <= Find(s, ")").value
  }

  predicate LintKindDefined(s: string) {
    SliceDefined(s, RustWarnMarker) && SliceDefined(s, RustDenyMarker)
    && SliceDefined(s, ClippyWarnMarker) && SliceDefined(s, ClippyDenyMarker)
  }

  /**
   * The text from the first occurrence of `marker` up to (excluding) the
   * first `)` of the line, when both exist.
   */
  function TagFor(s: string, marker: string): (r: Option<string>)
    requires ')' !in marker && SliceDefined(s, marker)
    ensures r.Some? <==> Contains(s, marker) && Contains(s, ")")
    ensures r.Some? ==> StartsWith(r.value, marker) && ')' !in r.value
    ensures r.Some? ==>
      Find(s, marker).Some? &&
      var p := Find(s, marker).value;
      p + |r.value| < |s| && s[p..p + |r.value|] == r.value
      && s[p + |r.value|] == ')' && ')' !in s[..p]
  {
    var p := Find(s, marker);
    var e := Find(s, ")");
    if p.Some? && e.Some? then
      TagShape(s, marker, p.value, e.value);
      Some(s[p.value..e.value])
    else None
  }

  /** Why the tag starts with its marker and holds no `)`. */
  lemma TagShape(s: string, marker: string, p: nat, e: nat)
    requires ')' !in marker
    requires Find(s, marker) == Some(p) && Find(s, ")") == Some(e) && p <= e
    ensures p + |marker| <= e <= |s|
    ensures StartsWith(s[p..e], marker) && ')' !in s[p..e]
    ensures e < |s| && s[e] == ')' && ')' !in s[..p]
  {
    OccursAtChar(s, ')', e);
    forall x | p <= x < p + |marker|
      ensures s[x] == marker[x - p]
    {
      assert s[p..p + |marker|][x - p] == s[x];
    }
    forall x | 0 <= x < e
      ensures s[x] != ')'
    {
      OccursAtChar(s, ')', x);
    }
    assert forall x :: 0 <= x < p ==> s[..p][x] == s[x];
    assert s[p..e][..|marker|] == s[p..p + |marker|];
  }

  /**
   * `get_lint_kind`: the four markers are tried in order and the last one
   * found wins, provided the line also holds a `)`.
   */
  function GetLintKind(s: string): (r: LintKind)
    requires LintKindDefined(s)
    ensures r.ClippyDeny? <==> Contains(s, ")") && Contains(s, ClippyDenyMarker)
    ensures r.ClippyWarn? <==>
      Contains(s, ")") && Contains(s, ClippyWarnMarker) && !Contains(s, ClippyDenyMarker)
    ensures r.RustDeny? <==>
      Contains(s, ")") && Contains(s, RustDenyMarker)
      && !Contains(s, ClippyWarnMarker) && !Contains(s, ClippyDenyMarker)
    ensures r.RustWarn? <==>
      Contains(s, ")") && Contains(s, RustWarnMarker) && !Contains(s, RustDenyMarker)
      && !Contains(s, ClippyWarnMarker) && !Contains(s, ClippyDenyMarker)
    ensures !r.NoLint? ==> StartsWith(r.tag, MarkerOf(r)) && ')' !in r.tag
    ensures !r.NoLint? ==> TagFor(s, MarkerOf(r)) == Some(r.tag)
  {
    var w := TagFor(s, RustWarnMarker);
    var d := TagFor(s, RustDenyMarker);
    var cw := TagFor(s, ClippyWarnMarker);
    var cd := TagFor(s, ClippyDenyMarker);
    if cd.Some? then ClippyDeny(cd.value)
    else if cw.Some? then ClippyWarn(cw.value)
    else if d.Some? then RustDeny(d.value)
    else if w.Some? then RustWarn(w.value)
    else NoLint
  }

  /** `save_lint_item` on the map: a tagged block is stored under its index. */
  function WithLintItem(m: map<nat, LintInfo>, ind: nat, kind: LintKind, content: seq<string>): (r: map<nat, LintInfo>)
    ensures kind.NoLint? ==> r == m
    ensures !kind.NoLint? ==> ind in r && r[ind] == LintInfo(ind, kind, content)
    ensures forall k :: k != ind ==> (k in r <==> k in m) && (k in m ==> r[k] == m[k])
  {
    if kind.NoLint? then m else m[ind := LintInfo(ind, kind, content)]
  }

  /** The state of the line-by-line loop of `parse`. */
  datatype Scanner = Scanner(blockInd: nat, lintKind: LintKind, content: seq<string>, lintInfo: map<nat, LintInfo>)

  predicate LinesDefined(ls: seq<string>) {
    forall i :: 0 <= i < |ls| ==> (HasLintMarker(ls[i]) ==> LintKindDefined(ls[i]))
  }

  /** One iteration of the loop. */
  function Step(st: Scanner, l: string): Scanner
    requires HasLintMarker(l) ==> LintKindDefined(l)
  {
    var st1 :=
      if l == "" then Scanner(st.blockInd + 1, st.lintKind, [], WithLintItem(st.lintInfo, st.blockInd, st.lintKind, st.content))
      else st;
    var st2 := if HasLintMarker(l) then st1.(lintKind := GetLintKind(l)) else st1;
    if l != "" then st2.(content := st2.content + [l]) else st2
  }

  /** The loop over all lines. */
  function Scan(st: Scanner, ls: seq<string>): Scanner
    requires LinesDefined(ls)
  {
    if ls == [] then st else Step(Scan(st, ls[..|ls| - 1]), ls[|ls| - 1])
  }

  /** The loop's starting state: block 1, no kind, nothing collected. */
  function Start(m: map<nat, LintInfo>): Scanner {
    Scanner(1, NoLint, [], m)
  }

  function EmptyLines(ls: seq<string>): nat {
    if ls == [] then 0 else EmptyLines(ls[..|ls| - 1]) + (if ls[|ls| - 1] == "" then 1 else 0)
  }

  /** Every stored entry sits under its own index and carries a kind. */
  predicate Tagged(m: map<nat, LintInfo>) {
    forall k :: k in m ==> m[k].ind == k && !m[k].lintKind.NoLint?
  }

  /**
   * The block index counts the blank lines; blocks before the starting index
   * keep their entries; new entries only appear under the indices of the
   * blank lines that closed them, and each is tagged.
   */
  lemma {:induction false} ScanFrame(st: Scanner, ls: seq<string>)
    requires LinesDefined(ls)
    ensures Scan(st, ls).blockInd == st.blockInd + EmptyLines(ls)
    ensures forall k :: k in st.lintInfo && k < st.blockInd ==>
      k in Scan(st, ls).lintInfo && Scan(st, ls).lintInfo[k] == st.lintInfo[k]
    ensures forall k :: k in Scan(st, ls).lintInfo && k !in st.lintInfo ==>
      st.blockInd <= k < Scan(st, ls).blockInd
    ensures Tagged(st.lintInfo) ==> Tagged(Scan(st, ls).lintInfo)
  {
    if ls != [] {
      ScanFrame(st, ls[..|ls| - 1]);
    }
  }

  /**
   * Lines after the last blank line are collected but never stored: the
   * final block of the file is not saved.
   */
  lemma {:induction false} UnsavedTail(st: Scanner, ls: seq<string>, tail: seq<string>)
    requires LinesDefined(ls) && LinesDefined(tail)
    requires forall i :: 0 <= i < |tail| ==> tail[i] != ""
    ensures LinesDefined(ls + tail)
    ensures Scan(st, ls + tail).lintInfo == Scan(st, ls).lintInfo
    ensures Scan(st, ls + tail).blockInd == Scan(st, ls).blockInd
    ensures Scan(st, ls + tail).content == Scan(st, ls).content + tail
  {
    if tail == [] {
      assert ls + tail == ls;
    } else {
      var n := |tail| - 1;
      UnsavedTail(st, ls, tail[..n]);
      assert (ls + tail)[..|ls + tail| - 1] == ls + tail[..n];
      assert tail[..n] + [tail[n]] == tail;
    }
  }

  /** A blank line stores the block it closes, under the current index. */
  lemma {:induction false} BlankLineSaves(st: Scanner, ls: seq<string>)
    requires LinesDefined(ls)
    ensures LinesDefined(ls + [""])
    ensures var before := Scan(st, ls);
      var after := Scan(st, ls + [""]);
      after.blockInd == before.blockInd + 1 && after.content == []
      && after.lintKind == before.lintKind
      && after.lintInfo == WithLintItem(before.lintInfo, before.blockInd, before.lintKind, before.content)
  {
    assert (ls + [""])[..|ls|] == ls;
    assert !HasLintMarker("");
  }

  /** The warnings and the errors among the stored blocks. */
  function WarnKeys(m: map<nat, LintInfo>): set<nat> {
    set k | k in m && IsWarn(m[k].lintKind)
  }

  function DenyKeys(m: map<nat, LintInfo>): set<nat> {
    set k | k in m && IsDeny(m[k].lintKind)
  }

  /** Moving key `k` out of the still-to-visit keys adds it to the visited part of `keys` exactly when it is in `keys`. */
  lemma TakeKey(keys: set<nat>, todo: set<nat>, k: nat)
    requires k in todo
    ensures k in keys ==> keys - (todo - {k}) == (keys - todo) + {k} && k !in keys - todo
    ensures k !in keys ==> keys - (todo - {k}) == keys - todo
  {
  }

  /** With every entry tagged, each counts once, as a warning or as an error. */
  lemma CountsPartition(m: map<nat, LintInfo>)
    requires Tagged(m)
    ensures |WarnKeys(m)| + |DenyKeys(m)| == |m|
  {
    assert WarnKeys(m) + DenyKeys(m) == m.Keys;
    assert WarnKeys(m) * DenyKeys(m) == {};
  }

  // Two lines as the compiler prints them.
  const WarnSample: string := "#[warn(unused)]"
  const DenySample: string := "#[deny(missing_docs)]"

  /** A line without `#` holds no marker. */
  lemma PlainLine(l: string)
    requires '#' !in l
    ensures !HasLintMarker(l)
  {
    NotContainsAt(l, "#[warn(", 0);
    NotContainsAt(l, "#[deny(", 0);
    NotContainsAt(l, "#[warn(clippy::", 0);
    NotContainsAt(l, "#[deny(clippy::", 0);
  }

  lemma WarnSampleSearches()
    ensures Find(WarnSample, RustWarnMarker) == Some(0) && Find(WarnSample, ")") == Some(13)
    ensures !Contains(WarnSample, RustDenyMarker) && !Contains(WarnSample, ClippyWarnMarker)
    ensures !Contains(WarnSample, ClippyDenyMarker)
  {
    FindAtStart(WarnSample, RustWarnMarker);
    WarnSampleClose();
    WarnSampleNoRustDeny();
    WarnSampleNoClippyMarker();
  }

  lemma WarnSampleClose()
    ensures Find(WarnSample, ")") == Some(13)
  {
    assert forall x :: 0 <= x < 13 ==> WarnSample[x] != ')';
    FindFirstChar(WarnSample, ')', 13);
  }

  lemma WarnSampleNoRustDeny()
    ensures !Contains(WarnSample, RustDenyMarker)
  {
    assert forall x :: 1 <= x < |WarnSample| ==> WarnSample[x] != '#';
    NotContainsAt(WarnSample, RustDenyMarker, 1);
  }

  lemma WarnSampleNoClippyMarker()
    ensures !Contains(WarnSample, ClippyWarnMarker) && !Contains(WarnSample, ClippyDenyMarker)
  {
    assert forall x :: 1 <= x < |WarnSample| ==> WarnSample[x] != '#';
    NotContainsAt(WarnSample, ClippyWarnMarker, 1);
    NotContainsAt(WarnSample, ClippyDenyMarker, 1);
  }

  /** `#[warn(unused)]` is a compiler warning tagged `#[warn(unused`. */
  lemma WarnLine()
    ensures HasLintMarker(WarnSample) && LintKindDefined(WarnSample)
    ensures GetLintKind(WarnSample) == RustWarn("#[warn(unused")
  {
    WarnSampleSearches();
    assert WarnSample[0..13] == "#[warn(unused";
  }

  lemma DenySampleSearches()
    ensures Find(DenySample, "#[deny(") == Some(0)
    ensures !Contains(DenySample, RustWarnMarker) && !Contains(DenySample, RustDenyMarker)
    ensures !Contains(DenySample, ClippyWarnMarker) && !Contains(DenySample, ClippyDenyMarker)
  {
    FindAtStart(DenySample, "#[deny(");
    DenySampleNoRustWarn();
    DenySampleNoRustDeny();
    DenySampleNoClippyMarker();
  }

  lemma DenySampleNoRustDeny()
    ensures !Contains(DenySample, RustDenyMarker)
  {
    assert forall x :: 1 <= x < |DenySample| ==> DenySample[x] != '#';
    NotContainsAt(DenySample, RustDenyMarker, 1);
  }

  lemma DenySampleNoRustWarn()
    ensures !Contains(DenySample, RustWarnMarker)
  {
    assert forall x :: 2 <= x < |DenySample| ==> DenySample[x] != 'w';
    NotContainsAt(DenySample, RustWarnMarker, 2);
  }

  lemma DenySampleNoClippyMarker()
    ensures !Contains(DenySample, ClippyWarnMarker) && !Contains(DenySample, ClippyDenyMarker)
  {
    assert forall x :: 1 <= x < |DenySample| ==> DenySample[x] != '#';
    NotContainsAt(DenySample, ClippyWarnMarker, 1);
    NotContainsAt(DenySample, ClippyDenyMarker, 1);
  }

  /**
   * `#[deny(missing_docs)]` passes the marker test of `parse` but matches
   * none of the four markers of `get_lint_kind` (the deny markers carry a
   * leading `r`), so it gets no kind.
   */
  lemma DenyLine()
    ensures HasLintMarker(DenySample) && LintKindDefined(DenySample)
    ensures GetLintKind(DenySample) == NoLint
  {
    DenySampleSearches();
  }

  /** Scanning one more line is one more step. */
  lemma ScanSnoc(st: Scanner, ls: seq<string>, l: string)
    requires LinesDefined(ls) && (HasLintMarker(l) ==> LintKindDefined(l))
    ensures LinesDefined(ls + [l])
    ensures Scan(st, ls + [l]) == Step(Scan(st, ls), l)
  {
    assert (ls + [l])[..|ls|] == ls;
  }

  /** A blank line closes the block: it is stored when it has a kind, and the next block starts empty. */
  lemma ScanBlank(st: Scanner, ls: seq<string>)
    requires LinesDefined(ls)
    ensures LinesDefined(ls + [""])
    ensures var p := Scan(st, ls);
      Scan(st, ls + [""]) == Scanner(p.blockInd + 1, p.lintKind, [], WithLintItem(p.lintInfo, p.blockInd, p.lintKind, p.content))
  {
    assert !HasLintMarker("");
    ScanSnoc(st, ls, "");
  }

  /** A non-blank line without a marker is collected into the block. */
  lemma ScanPlain(st: Scanner, ls: seq<string>, l: string)
    requires LinesDefined(ls) && l != "" && !HasLintMarker(l)
    ensures LinesDefined(ls + [l])
    ensures Scan(st, ls + [l]) == Scan(st, ls).(content := Scan(st, ls).content + [l])
  {
    ScanSnoc(st, ls, l);
  }

  /** A marker line sets the block's kind and is collected into the block. */
  lemma ScanMarked(st: Scanner, ls: seq<string>, l: string)
    requires LinesDefined(ls) && HasLintMarker(l) && LintKindDefined(l)
    ensures LinesDefined(ls + [l])
    ensures Scan(st, ls + [l]) == Scan(st, ls).(lintKind := GetLintKind(l), content := Scan(st, ls).content + [l])
  {
    assert !HasLintMarker("");
    ScanSnoc(st, ls, l);
  }

  /** A tagged line, a plain line and a blank line: one stored block. */
  lemma FirstBlock(w: string, f: string)
    requires HasLintMarker(w) && LintKindDefined(w) && !GetLintKind(w).NoLint?
    requires f != "" && !HasLintMarker(f)
    ensures LinesDefined([w, f, ""])
    ensures Scan(Start(map[]), [w, f, ""])
      == Scanner(2, GetLintKind(w), [], map[1 := LintInfo(1, GetLintKind(w), [w, f])])
  {
    var st := Start(map[]);
    var tag := GetLintKind(w);
    ScanMarked(st, [], w);
    assert [] + [w] == [w];
    assert Scan(st, [w]) == Scanner(1, tag, [w], map[]);
    ScanPlain(st, [w], f);
    assert [w] + [f] == [w, f];
    assert Scan(st, [w, f]) == Scanner(1, tag, [w, f], map[]);
    ScanBlank(st, [w, f]);
    assert [w, f] + [""] == [w, f, ""];
  }

  /** A marker line without a kind and a plain line: the block has no kind and nothing is stored. */
  lemma UntaggedLines(st: Scanner, ls: seq<string>, d: string, g: string)
    requires LinesDefined(ls)
    requires HasLintMarker(d) && LintKindDefined(d) && GetLintKind(d).NoLint?
    requires g != "" && !HasLintMarker(g)
    ensures LinesDefined(ls + [d, g])
    ensures Scan(st, ls + [d, g]) == Scan(st, ls).(lintKind := NoLint, content := Scan(st, ls).content + [d, g])
  {
    ScanMarked(st, ls, d);
    ScanPlain(st, ls + [d], g);
    assert ls + [d] + [g] == ls + [d, g];
  }

  /**
   * A warning block followed by a block whose marker line gets no kind
   * (such as `DenySample`): the warning is stored under index 1 with its
   * lines; the second block has no kind and, being last, is not stored
   * either. One warning, no error.
   */
  lemma TwoBlocks(w: string, f: string, d: string, g: string)
    requires HasLintMarker(w) && LintKindDefined(w) && IsWarn(GetLintKind(w))
    requires HasLintMarker(d) && LintKindDefined(d) && GetLintKind(d).NoLint?
    requires f != "" && !HasLintMarker(f) && g != "" && !HasLintMarker(g)
    ensures LinesDefined([w, f, "", d, g])
    ensures Scan(Start(map[]), [w, f, "", d, g]).lintInfo == map[1 := LintInfo(1, GetLintKind(w), [w, f])]
    ensures |WarnKeys(Scan(Start(map[]), [w, f, "", d, g]).lintInfo)| == 1
    ensures |DenyKeys(Scan(Start(map[]), [w, f, "", d, g]).lintInfo)| == 0
  {
    var m := map[1 := LintInfo(1, GetLintKind(w), [w, f])];
    FirstBlock(w, f);
    UntaggedLines(Start(map[]), [w, f, ""], d, g);
    assert [w, f, ""] + [d, g] == [w, f, "", d, g];
    assert WarnKeys(m) == {1};
    assert DenyKeys(m) == {};
  }

  /** A plain line and a blank line: the block is stored with the kind in force. */
  lemma PlainBlock(st: Scanner, ls: seq<string>, g: string)
    requires LinesDefined(ls) && g != "" && !HasLintMarker(g)
    ensures LinesDefined(ls + [g, ""])
    ensures var p := Scan(st, ls);
      Scan(st, ls + [g, ""])
        == Scanner(p.blockInd + 1, p.lintKind, [], WithLintItem(p.lintInfo, p.blockInd, p.lintKind, p.content + [g]))
  {
    ScanPlain(st, ls, g);
    ScanBlank(st, ls + [g]);
    assert ls + [g] + [""] == ls + [g, ""];
  }

  /** A tagged line alone in its block: the block is stored under index 1. */
  lemma MarkedLine(w: string)
    requires HasLintMarker(w) && LintKindDefined(w) && !GetLintKind(w).NoLint?
    ensures LinesDefined([w, ""])
    ensures Scan(Start(map[]), [w, ""]) == Scanner(2, GetLintKind(w), [], map[1 := LintInfo(1, GetLintKind(w), [w])])
  {
    var st := Start(map[]);
    ScanMarked(st, [], w);
    assert [] + [w] == [w];
    ScanBlank(st, [w]);
    assert [w] + [""] == [w, ""];
  }

  /**
   * The kind is not reset at a blank line: a block without a marker of its
   * own is stored with the kind of the block before it.
   */
  lemma KindCarriesOver(w: string, g: string)
    requires HasLintMarker(w) && LintKindDefined(w) && !GetLintKind(w).NoLint?
    requires g != "" && !HasLintMarker(g)
    ensures LinesDefined([w, "", g, ""])
    ensures Scan(Start(map[]), [w, "", g, ""]).lintInfo
      == map[1 := LintInfo(1, GetLintKind(w), [w]), 2 := LintInfo(2, GetLintKind(w), [g])]
  {
    var st := Start(map[]);
    var tag := GetLintKind(w);
    var m := map[1 := LintInfo(1, tag, [w])];
    MarkedLine(w);
    var p := Scan(st, [w, ""]);
    assert p == Scanner(2, tag, [], m);
    PlainBlock(st, [w, ""], g);
    assert [w, ""] + [g, ""] == [w, "", g, ""];
    assert p.content + [g] == [g];
    assert Scan(st, [w, "", g, ""]).lintInfo == WithLintItem(m, 2, tag, [g]) == m[2 := LintInfo(2, tag, [g])];
  }

  /** Two stored blocks of the same warning kind count two warnings and no error. */
  lemma TwoWarnings(k: LintKind, a: seq<string>, b: seq<string>)
    requires IsWarn(k)
    ensures var m := map[1 := LintInfo(1, k, a), 2 := LintInfo(2, k, b)];
      |WarnKeys(m)| == 2 && |DenyKeys(m)| == 0
  {
    var m := map[1 := LintInfo(1, k, a), 2 := LintInfo(2, k, b)];
    assert WarnKeys(m) == {1, 2};
    assert DenyKeys(m) == {};
  }

  // A line of a diagnostic that names no lint.
  const HelpSample: string := "help: remove it"

  /**
   * A whole lint file: a warning block, a blank line, a block without a
   * marker of its own and a blank line. The second block inherits the
   * warning, so the file counts two warnings and no error.
   */
  lemma SampleFileCounts()
    ensures LinesDefined([WarnSample, "", HelpSample, ""])
    ensures var info := Scan(Start(map[]), [WarnSample, "", HelpSample, ""]).lintInfo;
      |WarnKeys(info)| == 2 && |DenyKeys(info)| == 0
  {
    WarnLine();
    PlainLine(HelpSample);
    KindCarriesOver(WarnSample, HelpSample);
    TwoWarnings(GetLintKind(WarnSample), [WarnSample], [HelpSample]);
  }

  /** The static-check score of `count`, when the configuration and the counts are all present. */
  function StaticScore(cfg: Config, pr: Option<ParseResultDetail>): (r: Option<CountResultDetail>)
    requires StaticScoreDefined(cfg)
    ensures r.Some? <==>
      StaticCfgComplete(cfg) && pr.Some? && pr.value.ClippyParsed?
      && pr.value.warn.Some? && pr.value.error.Some?
    ensures r.Some? ==>
      var c := StaticCfg(cfg).value;
      var penalty := pr.value.warn.value * c.warnScore.value + pr.value.error.value * c.errorScore.value;
      r.value.ClippyCount? && r.value.score.Some? && r.value.normalizedScore.Some?
      && r.value.score.value <= 100
      && (penalty >= c.staticCheckScore.value ==> r.value.score.value == 0)
      && (penalty == 0 ==> r.value.score.value == 100)
      && r.value.normalizedScore.value == Scoring.Normalize(r.value.score.value, c.staticCheckWeight.value)
      && r.value.normalizedScore.value <= c.staticCheckWeight.value
  {
    if StaticCfgComplete(cfg) && pr.Some? && pr.value.ClippyParsed?
       && pr.value.warn.Some? && pr.value.error.Some?
    then
      var c := StaticCfg(cfg).value;
      var penalties := [pr.value.warn.value * c.warnScore.value, pr.value.error.value * c.errorScore.value];
      Scoring.ChainSubPair(c.staticCheckScore.value, penalties[0], penalties[1]);
      var score := Scoring.RawScore(c.staticCheckScore.value, penalties);
      Some(ClippyCount(Some(score), Some(Scoring.Normalize(score, c.staticCheckWeight.value))))
    else None
  }

  /** More warnings never raise the static-check score. */
  lemma {:induction false} StaticScoreMonotone(cfg: Config, warn1: nat, warn2: nat, err: nat)
    requires StaticScoreDefined(cfg) && StaticCfgComplete(cfg) && warn1 <= warn2
    ensures StaticScore(cfg, Some(ClippyParsed(Some(err), Some(warn2)))).value.score.value
         <= StaticScore(cfg, Some(ClippyParsed(Some(err), Some(warn1)))).value.score.value
  {
    var c := StaticCfg(cfg).value;
    var ps := [warn1 * c.warnScore.value, err * c.errorScore.value];
    var qs := [warn2 * c.warnScore.value, err * c.errorScore.value];
    Scoring.MulMonotone(warn1, warn2, c.warnScore.value);
    Scoring.RawScoreMonotone(c.staticCheckScore.value, ps, qs);
  }

  /** `result`: the static-check slot is filled when both numbers are present; nothing else changes. */
  function MergeStatic(cr: Option<CountResultDetail>, report: Report): (r: Report)
    ensures r.(staticCheck := report.staticCheck) == report
    ensures cr.Some? && cr.value.ClippyCount? && cr.value.score.Some? && cr.value.normalizedScore.Some?
      ==> r.staticCheck == Some(ScoreEntry(cr.value.score, cr.value.normalizedScore))
    ensures !(cr.Some? && cr.value.ClippyCount? && cr.value.score.Some? && cr.value.normalizedScore.Some?)
      ==> r == report
  {
    if cr.Some? && cr.value.ClippyCount? && cr.value.score.Some? && cr.value.normalizedScore.Some? then
      report.(staticCheck := Some(ScoreEntry(cr.value.score, cr.value.normalizedScore)))
    else report
  }

  /** The lint file `parse` reads: the path `check` recorded, if any. */
  function LintPath(cr: Option<CheckResultDetail>): Option<Path> {
    if cr.Some? && cr.value.ClippyRaw? && cr.value.result.Some? then cr.value.result else None
  }

  /**
   * The lint lines `parse` can classify: the recorded file, when it exists,
   * holds no marker line whose slice would be reversed.
   */
  predicate ParseDefined(cr: Option<CheckResultDetail>, files: map<Path, seq<string>>) {
    LintPath(cr).Some? && LintPath(cr).value in files ==> LinesDefined(files[LintPath(cr).value])
  }

  class Clippy {
    const projectCfg: ProjectInfoConfig
    const config: Config
    var lintInfo: map<nat, LintInfo>
    var checkResult: Option<CheckResultDetail>
    var parseResult: Option<ParseResultDetail>
    var countResult: Option<CountResultDetail>

    constructor (projectCfg: ProjectInfoConfig, config: Config)
      ensures this.projectCfg == projectCfg && this.config == config
      ensures lintInfo == map[] && checkResult.None? && parseResult.None? && countResult.None?
    {
      this.projectCfg := projectCfg;
      this.config := config;
      lintInfo := map[];
      checkResult := None;
      parseResult := None;
      countResult := None;
    }

    /** `save_lint_item`. */
    method SaveLintItem(ind: nat, kind: LintKind, content: seq<string>)
      modifies this`lintInfo
      ensures lintInfo == WithLintItem(old(lintInfo), ind, kind, content)
    {
      if kind == NoLint {
        return;
      }
      lintInfo := lintInfo[ind := LintInfo(ind, kind, content)];
    }

    /**
     * `check`: Clippy's own run (an external process) writes the lint file;
     * its failure is only reported, and the result path is always recorded.
     */
    method Check() returns (st: Status)
      modifies this`checkResult
      ensures st == Done && checkResult == Some(ClippyRaw(Some(projectCfg.result)))
    {
      checkResult := Some(ClippyRaw(Some(projectCfg.result)));
      st := Done;
    }

    /**
     * `parse`: `files` holds the lines of every readable file. A recorded
     * lint file that cannot be opened is an error that leaves everything
     * as it was; otherwise the file's blocks are stored and the warnings
     * and errors among all stored blocks are counted.
     */
    method Parse(files: map<Path, seq<string>>) returns (st: Status)
      requires ParseDefined(checkResult, files)
      modifies this`lintInfo, this`parseResult
      ensures LintPath(checkResult).Some? && LintPath(checkResult).value !in files ==>
        st.Err? && lintInfo == old(lintInfo) && parseResult == old(parseResult)
      ensures !(LintPath(checkResult).Some? && LintPath(checkResult).value !in files) ==>
        st == Done
        && lintInfo == (if LintPath(checkResult).Some?
                        then Scan(Start(old(lintInfo)), files[LintPath(checkResult).value]).lintInfo
                        else old(lintInfo))
        && parseResult == Some(ClippyParsed(Some(|DenyKeys(lintInfo)|), Some(|WarnKeys(lintInfo)|)))
    {
      if checkResult.Some? && checkResult.value.ClippyRaw? && checkResult.value.result.Some? {
        var p := checkResult.value.result.value;
        if p !in files {
          return Err("cannot open the lint file");
        }
        ReadBlocks(files[p]);
      }
      var resErr, resWarn := CountLints();
      parseResult := Some(ClippyParsed(Some(resErr), Some(resWarn)));
      st := Done;
    }

    /** The line-by-line loop of `parse` over the lines of the lint file. */
    method ReadBlocks(lines: seq<string>)
      requires LinesDefined(lines)
      modifies this`lintInfo
      ensures lintInfo == Scan(Start(old(lintInfo)), lines).lintInfo
    {
      ghost var start := lintInfo;
      var blockInd: nat := 1;
      var lintKind := NoLint;
      var content: seq<string> := [];
      for i := 0 to |lines|
        invariant Scanner(blockInd, lintKind, content, lintInfo) == Scan(Start(start), lines[..i])
      {
        var l := lines[i];
        assert lines[..i + 1][..i] == lines[..i];
        if l == "" {
          SaveLintItem(blockInd, lintKind, content);
          content := [];
          blockInd := blockInd + 1;
        }
        if Contains(l, "#[warn(") || Contains(l, "#[deny(")
           || Contains(l, "#[warn(clippy::") || Contains(l, "#[deny(clippy::") {
          lintKind := GetLintKind(l);
        }
        if l != "" {
          content := content + [l];
        }
      }
      assert lines[..|lines|] == lines;
    }

    /** The counting loop of `parse`: errors and warnings among the stored blocks. */
    method CountLints() returns (resErr: nat, resWarn: nat)
      ensures resErr == |DenyKeys(lintInfo)| && resWarn == |WarnKeys(lintInfo)|
      ensures Tagged(lintInfo) ==> resErr + resWarn == |lintInfo|
    {
      resErr, resWarn := 0, 0;
      var todo := lintInfo.Keys;
      ghost var warned: set<nat> := {};
      ghost var denied: set<nat> := {};
      while todo != {}
        invariant todo <= lintInfo.Keys
        invariant warned == WarnKeys(lintInfo) - todo && resWarn == |warned|
        invariant denied == DenyKeys(lintInfo) - todo && resErr == |denied|
        decreases |todo|
      {
        var k :| k in todo;
        TakeKey(WarnKeys(lintInfo), todo, k);
        TakeKey(DenyKeys(lintInfo), todo, k);
        match lintInfo[k].lintKind {
          case ClippyWarn(_) =>
            resWarn := resWarn + 1;
            warned := warned + {k};
          case RustWarn(_) =>
            resWarn := resWarn + 1;
            warned := warned + {k};
          case ClippyDeny(_) =>
            resErr := resErr + 1;
            denied := denied + {k};
          case RustDeny(_) =>
            resErr := resErr + 1;
            denied := denied + {k};
          case NoLint =>
        }
        todo := todo - {k};
      }
      if Tagged(lintInfo) {
        CountsPartition(lintInfo);
      }
    }

    /** `count`: the score is stored only when the configuration and the counts are complete. */
    method Count() returns (st: Status)
      requires StaticScoreDefined(config)
      modifies this`countResult
      ensures st == Done
      ensures countResult == (if StaticScore(config, parseResult).Some? then StaticScore(config, parseResult) else old(countResult))
    {
      if config.qualityEvaluationCfg.Some? && config.qualityEvaluationCfg.value.staticCheckCfg.Some? {
        var c := config.qualityEvaluationCfg.value.staticCheckCfg.value;
        if parseResult.Some? && parseResult.value.ClippyParsed?
           && parseResult.value.warn.Some? && parseResult.value.error.Some? {
          var warnCount := parseResult.value.warn.value;
          var errCount := parseResult.value.error.value;
          if c.staticCheckScore.Some? && c.warnScore.Some? && c.errorScore.Some? && c.staticCheckWeight.Some? {
            var base := c.staticCheckScore.value;
            Scoring.ChainSubPair(base, warnCount * c.warnScore.value, errCount * c.errorScore.value);
            var score := Scoring.SaturatingSub(Scoring.SaturatingSub(base, warnCount * c.warnScore.value),
                                               errCount * c.errorScore.value) * 100 / base;
            assert score == Scoring.RawScore(base, [warnCount * c.warnScore.value, errCount * c.errorScore.value]);
            var normalized := score * c.staticCheckWeight.value / 100;
            countResult := Some(ClippyCount(Some(score), Some(normalized)));
          }
        }
      }
      st := Done;
    }

    /** `result`: copies the score into the report's static-check slot. */
    method Result(report: Report) returns (st: Status, report': Report)
      ensures st == Done && report' == MergeStatic(countResult, report)
    {
      report' := report;
      if countResult.Some? && countResult.value.ClippyCount?
         && countResult.value.score.Some? && countResult.value.normalizedScore.Some? {
        report' := report.(staticCheck := Some(ScoreEntry(countResult.value.score, countResult.value.normalizedScore)));
      }
      st := Done;
    }
  }
}
