/**
 * The check-item factory: one item per quality-evaluation kind, each with
 * its own result subdirectory, and the dispatch of `check` to the item's
 * driver.
 */
module CheckItem {
  import opened Wrappers
  import opened Config
  import opened ResultTypes
  import opened Environment
  import Clippy
  import RCA = RustCodeAnalysis
  import StaticCheckItem
  import LicenseCheckItem
  import MeasureCheckItem

  /** The name of the result subdirectory of a kind. */
  function ItemDirName(q: QualityEvaluation): string {
    match q
    case StaticCheck => "static_check"
    case License => "license_check"
    case Measure => "measure_check"
  }

  /** `make_result_path`: the kind's subdirectory, one level below `dir`. */
  function MakeResultPath(q: QualityEvaluation, dir: Path): (r: Path)
    ensures |r| == |dir| + 1 && Pop(r) == dir
    ensures r[|dir|] == ItemDirName(q)
  {
    Push(dir, ItemDirName(q))
  }

  /** Distinct kinds get distinct result subdirectories. */
  lemma MakeResultPathInjective(a: QualityEvaluation, b: QualityEvaluation, dir: Path)
    ensures MakeResultPath(a, dir) == MakeResultPath(b, dir) <==> a == b
  {
    if MakeResultPath(a, dir) == MakeResultPath(b, dir) {
      assert ItemDirName(a) == MakeResultPath(a, dir)[|dir|] == ItemDirName(b);
      assert ItemDirName(a)[0] == ItemDirName(b)[0];
    }
  }

  /** A boxed check item: one of the three implementations of `check`. */
  datatype Item =
    | StaticItem(s: StaticCheckItem.StaticCheck)
    | LicenseItem(l: LicenseCheckItem.LicenseCheck)
    | MeasureItem(m: MeasureCheckItem.MeasureCheck)
  {
    function Kind(): QualityEvaluation {
      match this
      case StaticItem(_) => StaticCheck
      case LicenseItem(_) => License
      case MeasureItem(_) => Measure
    }

    function Project(): ProjectInfoConfig {
      match this
      case StaticItem(s) => s.project
      case LicenseItem(l) => l.project
      case MeasureItem(m) => m.project
    }

    function Cfg(): Config {
      match this
      case StaticItem(s) => s.config
      case LicenseItem(l) => l.config
      case MeasureItem(m) => m.config
    }
  }

  /**
   * `make_check`: an item of kind `q` with configuration `c`, whose
   * project keeps `p`'s directory and manifest and whose result directory
   * is the kind's subdirectory of `p`'s.
   */
  function MakeCheck(c: Config, q: QualityEvaluation, p: ProjectInfoConfig): (r: Item)
    ensures r.Kind() == q && r.Cfg() == c
    ensures r.Project().dir == p.dir && r.Project().manifest == p.manifest
    ensures r.Project().result == MakeResultPath(q, p.result)
  {
    var project := ProjectInfoConfig(p.manifest, p.dir, MakeResultPath(q, p.result));
    match q
    case StaticCheck => StaticItem(StaticCheckItem.StaticCheck(project, c))
    case License => LicenseItem(LicenseCheckItem.LicenseCheck(project, c))
    case Measure => MeasureItem(MeasureCheckItem.MeasureCheck(project, c))
  }

  /**
   * What running `item` needs, by its kind: a static item needs its score
   * base and the lint markers of its own lint file, a license item its score
   * base, and a measure item its score base and the requirements on the
   * trees and the store.
   */
  predicate ItemRunnable(item: Item, env: Env, records: seq<RCA.FuncInfo>) {
    match item
    case StaticItem(s) => StaticCheckItem.StaticRunnable(s.project, s.config, env)
    case LicenseItem(l) => LicenseCheckItem.LicenseRunnable(l.config)
    case MeasureItem(m) => MeasureCheckItem.MeasureRunnable(m.config, env, records)
  }

  /**
   * The report after running `item`, or `None` when it fails, and the
   * records in the store afterwards. Only the slot of the item's kind can
   * change; a failing item changes nothing; the store stays usable by a
   * measure item configured like this one.
   */
  function ItemRun(item: Item, env: Env, report: Report, records: seq<RCA.FuncInfo>)
    : (r: (Option<Report>, seq<RCA.FuncInfo>))
    requires ItemRunnable(item, env, records)
    ensures MeasureCheckItem.MeasureRunnable(item.Cfg(), env, records) ==>
      MeasureCheckItem.MeasureRunnable(item.Cfg(), env, r.1)
    ensures r.0.None? ==> r.1 == records
    ensures r.0.Some? ==> Slot(r.0.value, item.Kind()) == Slot(report, item.Kind())
                          || SlotScored(r.0.value, item.Kind())
    ensures r.0.Some? ==> forall q :: q != item.Kind() ==> Slot(r.0.value, q) == Slot(report, q)
    ensures r.0.Some? ==> OtherSlots(r.0.value) == OtherSlots(report)
  {
    match item
    case StaticItem(s) =>
      (StaticCheckItem.StaticRun(s.project, s.config, env, report), records)
    case LicenseItem(l) =>
      (LicenseCheckItem.LicenseRun(l.project, l.config, env, report), records)
    case MeasureItem(m) =>
      MeasureCheckItem.MeasureRun(m.project, m.config, env, report, records)
  }

  /**
   * Only a measure item looks at the store, so an item stays runnable on
   * any store that keeps the measure requirements of its configuration.
   */
  lemma RunnableOnStore(item: Item, env: Env, records: seq<RCA.FuncInfo>, records': seq<RCA.FuncInfo>)
    requires ItemRunnable(item, env, records)
    requires MeasureCheckItem.MeasureRunnable(item.Cfg(), env, records) ==>
      MeasureCheckItem.MeasureRunnable(item.Cfg(), env, records')
    ensures ItemRunnable(item, env, records')
  {
  }

  /** The report slot an item of kind `q` writes. */
  function Slot(r: Report, q: QualityEvaluation): Option<ScoreEntry> {
    match q
    case StaticCheck => r.staticCheck
    case License => r.licenseCheck
    case Measure => r.codeMeasure
  }

  /** The slot of `q` holds a score of at most 100. */
  predicate SlotScored(r: Report, q: QualityEvaluation) {
    Slot(r, q).Some? && Slot(r, q).value.score.Some? && Slot(r, q).value.score.value <= 100
  }

  /** The nine slots no item writes. */
  function OtherSlots(r: Report): Report {
    r.(staticCheck := None, licenseCheck := None, codeMeasure := None)
  }

  /**
   * `CheckItem::check`, dispatched on the item: `store` is the
   * process-wide record store, which only a measure item changes.
   */
  method RunItem(item: Item, env: Env, store: RCA.FuncSpaceStore, report: Report) returns (st: Status, report': Report)
    requires ItemRunnable(item, env, store.records)
    modifies store`records
    ensures var r := ItemRun(item, env, report, old(store.records));
      (st.Ok? <==> r.0.Some?) && report' == r.0.GetOr(report) && store.records == r.1
  {
    match item {
      case StaticItem(s) =>
        st, report' := s.Check(env, store, report);
      case LicenseItem(l) =>
        st, report' := l.Check(env, store, report);
      case MeasureItem(m) =>
        st, report' := m.Check(env, store, report);
    }
  }
}
