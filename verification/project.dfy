/**
 * A project evaluation: the kinds selected by the configuration, one check
 * item per kind, and the report the items fill in when they run in order.
 */
module Project {
  import opened Wrappers
  import opened Config
  import opened ResultTypes
  import opened Environment
  import CheckItem
  import Clippy
  import StaticCheckItem
  import MeasureCheckItem
  import RCA = RustCodeAnalysis

  /** The kinds to evaluate: the configured list when there is one, otherwise every kind. */
  function CheckInfo(config: Config): seq<QualityEvaluation> {
    if config.checkQualityItem.Some? then config.checkQualityItem.value else GetAll()
  }

  /** The directory the report and the item subdirectories go to, under the working directory `cwd`. */
  function ResultDir(cwd: Path): Path {
    Push(cwd, "cargo_quality_evaluation")
  }

  /**
   * The project settings every item starts from: the project directory,
   * its `Cargo.toml` and the result directory.
   */
  function ProjectCfg(projectPath: Path, resultDir: Path): (r: ProjectInfoConfig)
    ensures r.dir == projectPath && r.result == resultDir
    ensures |r.manifest| == |projectPath| + 1 && Pop(r.manifest) == projectPath
    ensures r.manifest[|projectPath|] == "Cargo.toml"
  {
    ProjectInfoConfig(Push(projectPath, "Cargo.toml"), projectPath, resultDir)
  }

  /** The items for `kinds`: one per kind, in the same order, repeated kinds included. */
  function MakeItems(config: Config, kinds: seq<QualityEvaluation>, p: ProjectInfoConfig)
    : (r: seq<CheckItem.Item>)
    ensures |r| == |kinds|
    ensures forall i :: 0 <= i < |kinds| ==>
      r[i].Kind() == kinds[i] && r[i].Cfg() == config
      && r[i].Project().dir == p.dir && r[i].Project().manifest == p.manifest
      && r[i].Project().result == CheckItem.MakeResultPath(kinds[i], p.result)
  {
    if kinds == [] then []
    else MakeItems(config, kinds[..|kinds| - 1], p) + [CheckItem.MakeCheck(config, kinds[|kinds| - 1], p)]
  }

  /** Where a run of items stands: whether every item so far succeeded, the report and the store. */
  datatype RunState = RunState(ok: bool, report: Report, records: seq<RCA.FuncInfo>)

  predicate Configured(items: seq<CheckItem.Item>, cfg: Config) {
    forall i :: 0 <= i < |items| ==> items[i].Cfg() == cfg
  }

  /** Every item can run on the store `records`, each by the needs of its own kind. */
  predicate AllRunnable(items: seq<CheckItem.Item>, env: Env, records: seq<RCA.FuncInfo>) {
    forall i :: 0 <= i < |items| ==> CheckItem.ItemRunnable(items[i], env, records)
  }

  /**
   * `execute`: the items run in order on the shared report and store; the
   * first failure ends the run. The nine slots no item writes never
   * change, and the store stays usable by later measure items.
   */
  function RunAll(items: seq<CheckItem.Item>, cfg: Config, env: Env, report: Report, records: seq<RCA.FuncInfo>)
    : (r: RunState)
    requires Configured(items, cfg) && AllRunnable(items, env, records)
    ensures MeasureCheckItem.MeasureRunnable(cfg, env, records) ==>
      MeasureCheckItem.MeasureRunnable(cfg, env, r.records)
    ensures CheckItem.OtherSlots(r.report) == CheckItem.OtherSlots(report)
    ensures items == [] ==> r == RunState(true, report, records)
  {
    if items == [] then RunState(true, report, records)
    else
      var n := |items| - 1;
      var prev := RunAll(items[..n], cfg, env, report, records);
      if !prev.ok then prev
      else
        CheckItem.RunnableOnStore(items[n], env, records, prev.records);
        var step := CheckItem.ItemRun(items[n], env, prev.report, prev.records);
        RunState(step.0.Some?, step.0.GetOr(prev.report), step.1)
  }

  /** Running one more item after a successful run of a prefix: the item can run, and its outcome extends the run. */
  lemma RunAllStep(items: seq<CheckItem.Item>, cfg: Config, env: Env, report: Report, records: seq<RCA.FuncInfo>,
                   i: nat, report': Report, records': seq<RCA.FuncInfo>)
    requires Configured(items, cfg) && AllRunnable(items, env, records) && i < |items|
    requires RunAll(items[..i], cfg, env, report, records) == RunState(true, report', records')
    ensures CheckItem.ItemRunnable(items[i], env, records')
    ensures var step := CheckItem.ItemRun(items[i], env, report', records');
      RunAll(items[..i + 1], cfg, env, report, records) == RunState(step.0.Some?, step.0.GetOr(report'), step.1)
  {
    assert items[..i + 1][..i] == items[..i];
    CheckItem.RunnableOnStore(items[i], env, records, records');
  }

  /** Once an item fails, the items after it do not run: the outcome is that of the run up to the failure. */
  lemma {:induction false} RunAllStopsAtError(items: seq<CheckItem.Item>, cfg: Config, env: Env, report: Report,
                                              records: seq<RCA.FuncInfo>, j: nat)
    requires Configured(items, cfg) && AllRunnable(items, env, records)
    requires j <= |items| && !RunAll(items[..j], cfg, env, report, records).ok
    ensures RunAll(items, cfg, env, report, records) == RunAll(items[..j], cfg, env, report, records)
    decreases |items|
  {
    if j == |items| {
      assert items[..j] == items;
    } else {
      var n := |items| - 1;
      assert items[..n][..j] == items[..j];
      RunAllStopsAtError(items[..n], cfg, env, report, records, j);
    }
  }

  /** A kind that is not selected keeps its report slot. */
  lemma {:induction false} UnselectedSlotUntouched(items: seq<CheckItem.Item>, cfg: Config, env: Env,
                                                   report: Report, records: seq<RCA.FuncInfo>, q: QualityEvaluation)
    requires Configured(items, cfg) && AllRunnable(items, env, records)
    requires forall i :: 0 <= i < |items| ==> items[i].Kind() != q
    ensures CheckItem.Slot(RunAll(items, cfg, env, report, records).report, q) == CheckItem.Slot(report, q)
    decreases |items|
  {
    if items != [] {
      var n := |items| - 1;
      UnselectedSlotUntouched(items[..n], cfg, env, report, records, q);
    }
  }

  /**
   * With the default selection, a lint file that cannot be opened makes
   * the first item fail: the run fails with the report and the store as
   * they were, and the license and measure items never run.
   */
  lemma DefaultRunWithoutLintFile(cfg: Config, projectPath: Path, resultDir: Path, env: Env,
                                  report: Report, records: seq<RCA.FuncInfo>)
    requires cfg.checkQualityItem.None?
    requires AllRunnable(MakeItems(cfg, CheckInfo(cfg), ProjectCfg(projectPath, resultDir)), env, records)
    requires Push(resultDir, "static_check") !in env.failingDirs
    requires Push(Push(resultDir, "static_check"), "static_check.txt") !in env.files
    ensures var items := MakeItems(cfg, CheckInfo(cfg), ProjectCfg(projectPath, resultDir));
      RunAll(items, cfg, env, report, records) == RunState(false, report, records)
  {
    var items := MakeItems(cfg, CheckInfo(cfg), ProjectCfg(projectPath, resultDir));
    assert items[0].Kind() == StaticCheck;
    assert items[..1][..0] == [];
    assert !RunAll(items[..1], cfg, env, report, records).ok;
    RunAllStopsAtError(items, cfg, env, report, records, 1);
  }

  /**
   * A run that selects only the static check asks nothing of the license
   * and measure tables or of the store: its one item is runnable as soon as
   * the static score base is usable and the lint file's markers are closed.
   */
  lemma StaticOnlyRunnable(cfg: Config, projectPath: Path, resultDir: Path, env: Env, records: seq<RCA.FuncInfo>)
    requires cfg.checkQualityItem == Some([StaticCheck]) && StaticScoreDefined(cfg)
    requires var lintFile := Push(Push(resultDir, "static_check"), "static_check.txt");
      lintFile in env.files ==> Clippy.LinesDefined(env.files[lintFile])
    ensures AllRunnable(MakeItems(cfg, CheckInfo(cfg), ProjectCfg(projectPath, resultDir)), env, records)
  {
    var items := MakeItems(cfg, CheckInfo(cfg), ProjectCfg(projectPath, resultDir));
    assert items[0].Kind() == StaticCheck;
  }

  class Project {
    /** The source keeps the project directory itself in this field. */
    var manifest: Path
    var resultPath: Path
    var cfg: Config
    var checkItem: seq<CheckItem.Item>
    var result: Report

    /** Every item carries the project's configuration. */
    predicate Valid()
      reads this
    {
      Configured(checkItem, cfg)
    }

    constructor (manifest: Path, resultPath: Path, cfg: Config)
      ensures this.manifest == manifest && this.resultPath == resultPath && this.cfg == cfg
      ensures checkItem == [] && result == EmptyReport
    {
      this.manifest := manifest;
      this.resultPath := resultPath;
      this.cfg := cfg;
      checkItem := [];
      result := EmptyReport;
    }

    /**
     * `Project::new`: `cwd` is the working directory, or the error of
     * reading it, and `failingDirs` the directories that cannot be
     * created. On success the project holds one item per selected kind, in
     * order, and an empty report.
     */
    static method New(projectPath: Path, config: Config, cwd: Outcome<Path>, failingDirs: set<Path>)
      returns (r: Outcome<Project>)
      ensures r.Ok? <==> cwd.Ok? && ResultDir(cwd.value) !in failingDirs
      ensures r.Ok? ==>
        var pr := r.value;
        fresh(pr) && pr.Valid() && pr.cfg == config && pr.manifest == projectPath
        && pr.resultPath == ResultDir(cwd.value) && pr.result == EmptyReport
        && pr.checkItem == MakeItems(config, CheckInfo(config), ProjectCfg(projectPath, ResultDir(cwd.value)))
    {
      var checkInfo := if config.checkQualityItem.Some? then config.checkQualityItem.value else GetAll();
      var manifest := Push(projectPath, "Cargo.toml");
      if cwd.Err? {
        return Err("Find current path failed!");
      }
      var resultDirPath := Push(cwd.value, "cargo_quality_evaluation");
      if resultDirPath in failingDirs {
        return Err("Create result dir path failed!");
      }
      var projectCfg := ProjectInfoConfig(manifest, projectPath, resultDirPath);
      var pr := new Project(projectPath, resultDirPath, config);
      for i := 0 to |checkInfo|
        invariant pr.cfg == config && pr.manifest == projectPath && pr.resultPath == resultDirPath
        invariant pr.result == EmptyReport
        invariant pr.checkItem == MakeItems(config, checkInfo[..i], projectCfg)
      {
        assert checkInfo[..i + 1][..i] == checkInfo[..i];
        pr.checkItem := pr.checkItem + [CheckItem.MakeCheck(config, checkInfo[i], projectCfg)];
      }
      assert checkInfo[..|checkInfo|] == checkInfo;
      r := Ok(pr);
    }

    /**
     * `execute`: runs the items in order on the report, stopping at the
     * first error; `store` is the process-wide record store.
     */
    method Execute(env: Env, store: RCA.FuncSpaceStore) returns (st: Status)
      requires Valid() && AllRunnable(checkItem, env, store.records)
      modifies this`result, store`records
      ensures var r := RunAll(checkItem, cfg, env, old(result), old(store.records));
        (st.Ok? <==> r.ok) && result == r.report && store.records == r.records
    {
      ghost var start := result;
      ghost var rs := store.records;
      for i := 0 to |checkItem|
        invariant RunAll(checkItem[..i], cfg, env, start, rs) == RunState(true, result, store.records)
      {
        RunAllStep(checkItem, cfg, env, start, rs, i, result, store.records);
        var s, report' := CheckItem.RunItem(checkItem[i], env, store, result);
        result := report';
        if s.Err? {
          RunAllStopsAtError(checkItem, cfg, env, start, rs, i + 1);
          return s;
        }
      }
      assert checkItem[..|checkItem|] == checkItem;
      st := Done;
    }

    /** `get_result`: the report, leaving the project as it is. */
    method GetResult() returns (r: Report)
      ensures r == result
    {
      r := result;
    }
  }
}
