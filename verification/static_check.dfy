/**
 * The static-check item: it creates its result directory, builds the
 * Clippy adapter and runs the four phases `check`, `parse`, `count` and
 * `result` in order, returning the first error.
 */
module StaticCheckItem {
  import opened Wrappers
  import opened Config
  import opened ResultTypes
  import opened Environment
  import Toolchains
  import Clippy
  import RustCodeAnalysis

  /** The lint file the Clippy run of this item leaves behind. */
  function LintFile(project: ProjectInfoConfig): Path {
    Toolchains.MakeResultPath(Toolchains.ClippyForStaticCheck, project.result)
  }

  /**
   * What the phases need of their inputs: the score base is positive when
   * the score is computed, and every lint marker in the lint file is
   * followed by a `)`.
   */
  predicate StaticRunnable(project: ProjectInfoConfig, config: Config, env: Env) {
    StaticScoreDefined(config)
    && (LintFile(project) in env.files ==> Clippy.LinesDefined(env.files[LintFile(project)]))
  }

  /** The counts `parse` stores after reading the lint file into a fresh adapter. */
  function LintCounts(lines: seq<string>): Option<ParseResultDetail>
    requires Clippy.LinesDefined(lines)
  {
    var info := Clippy.Scan(Clippy.Start(map[]), lines).lintInfo;
    Some(ClippyParsed(Some(|Clippy.DenyKeys(info)|), Some(|Clippy.WarnKeys(info)|)))
  }

  /**
   * The report after a static check, or `None` when the check fails. It
   * fails exactly when its result directory cannot be created or the lint
   * file cannot be opened; otherwise only the static-check slot can
   * change, and it holds a score of at most 100 exactly when the
   * static-check table is complete.
   */
  function StaticRun(project: ProjectInfoConfig, config: Config, env: Env, report: Report): (r: Option<Report>)
    requires StaticRunnable(project, config, env)
    ensures r.Some? <==> project.result !in env.failingDirs && LintFile(project) in env.files
    ensures r.Some? ==> r.value.(staticCheck := report.staticCheck) == report
    ensures r.Some? && StaticCfgComplete(config) ==>
      r.value.staticCheck.Some? && r.value.staticCheck.value.score.Some?
      && r.value.staticCheck.value.score.value <= 100
    ensures r.Some? && !StaticCfgComplete(config) ==> r.value == report
  {
    if project.result in env.failingDirs || LintFile(project) !in env.files then None
    else Some(Clippy.MergeStatic(Clippy.StaticScore(config, LintCounts(env.files[LintFile(project)])), report))
  }

  datatype StaticCheck = StaticCheck(project: ProjectInfoConfig, config: Config) {
    /**
     * `check`: `env` answers the directory creation and the lint-file
     * read; `store` is the process-wide record store, which this item
     * leaves alone. The item fails as `StaticRun` says, and then leaves
     * the report as it was.
     */
    method Check(env: Env, store: RustCodeAnalysis.FuncSpaceStore, report: Report) returns (st: Status, report': Report)
      requires StaticRunnable(project, config, env)
      ensures st.Ok? <==> StaticRun(project, config, env, report).Some?
      ensures report' == StaticRun(project, config, env, report).GetOr(report)
    {
      if project.result in env.failingDirs {
        return Err("Create result dir path failed!"), report;
      }
      var t := Toolchains.MakeCheck(config, Toolchains.ClippyForStaticCheck, project, store);
      var tool := t.clippy;
      var s := tool.Check();
      if s.Err? {
        return s, report;
      }
      s := tool.Parse(env.files);
      if s.Err? {
        return s, report;
      }
      s := tool.Count();
      if s.Err? {
        return s, report;
      }
      s, report' := tool.Result(report);
      if s.Err? {
        return s, report;
      }
      st := Done;
    }
  }
}
