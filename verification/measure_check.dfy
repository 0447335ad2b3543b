/**
 * The code-measure item: it creates its result directory, builds the
 * rust-code-analysis adapter over the process-wide record store and runs
 * the four phases in order, returning the first error.
 */
module MeasureCheckItem {
  import opened Wrappers
  import opened Config
  import opened ResultTypes
  import opened Environment
  import Toolchains
  import RCA = RustCodeAnalysis

  /**
   * What the phases need of their inputs: every tree can be flattened,
   * the score base is positive when the score is computed, and with the
   * measure table present its thresholds cover every stored and every new
   * record, each of which ends no earlier than it starts.
   */
  predicate MeasureRunnable(config: Config, env: Env, records: seq<RCA.FuncInfo>) {
    (forall i :: 0 <= i < |env.spaces| ==> RCA.NamedWhereNeeded(true, env.spaces[i]))
    && MeasureScoreDefined(config)
    && (MeasureCfg(config).Some? ==>
          RCA.AllClassifiable(MeasureCfg(config).value, records)
          && RCA.AllClassifiable(MeasureCfg(config).value, RCA.FlattenAll(env.spaces)))
  }

  /** The directory the adapter dumps per-file metrics into. */
  function DetailsOf(project: ProjectInfoConfig): Path {
    RCA.DetailsDir(Toolchains.MakeResultPath(Toolchains.RustCodeAnalysisForMeasure, project.result))
  }

  /** The counts `parse` stores for the records `rs`; none without the measure table. */
  function MeasureCounts(config: Config, rs: seq<RCA.FuncInfo>): (r: Option<ParseResultDetail>)
    requires MeasureCfg(config).Some? ==> RCA.AllClassifiable(MeasureCfg(config).value, rs)
    ensures r.Some? <==> MeasureCfg(config).Some?
    ensures r.Some? ==> RCA.MeasureCounted(r)
  {
    if MeasureCfg(config).Some? then
      var m := MeasureCfg(config).value;
      Some(CodeAnalysisParsed(
        Some(RCA.CountLarge(m, rs, RCA.LargeCyclomatic)), Some(RCA.CountLarge(m, rs, RCA.LargeCognitive)),
        Some(RCA.CountLarge(m, rs, RCA.LargeFile)), Some(RCA.CountLarge(m, rs, RCA.LargeFunction))))
    else None
  }

  /**
   * The report after a measure check, or `None` when it fails, and the
   * records in the store afterwards. The check fails exactly when its
   * result directory or the `details` directory inside it cannot be
   * created, and then the store is untouched. Otherwise one record per
   * emitting node of the new trees is added, the records stay flaggable,
   * and only the code-measure slot can change: it holds a score of at
   * most 100 exactly when the measure table is complete.
   */
  function MeasureRun(project: ProjectInfoConfig, config: Config, env: Env, report: Report,
                      records: seq<RCA.FuncInfo>): (r: (Option<Report>, seq<RCA.FuncInfo>))
    requires MeasureRunnable(config, env, records)
    ensures r.0.Some? <==>
      project.result !in env.failingDirs && project.result + ["details"] !in env.failingDirs
    ensures r.0.None? ==> r.1 == records
    ensures r.0.Some? ==> |r.1| == |records| + |RCA.FlattenAll(env.spaces)|
    ensures MeasureRunnable(config, env, r.1)
    ensures r.0.Some? ==> r.0.value.(codeMeasure := report.codeMeasure) == report
    ensures r.0.Some? && MeasureCfgComplete(config) ==>
      r.0.value.codeMeasure.Some? && r.0.value.codeMeasure.value.score.Some?
      && r.0.value.codeMeasure.value.score.value <= 100
    ensures r.0.Some? && !MeasureCfgComplete(config) ==> r.0.value == report
  {
    assert DetailsOf(project) == project.result + ["details"];
    if project.result in env.failingDirs || DetailsOf(project) in env.failingDirs then (None, records)
    else
      var saved := records + RCA.FlattenAll(env.spaces);
      var report' := RCA.MergeMeasure(RCA.MeasureScore(config, MeasureCounts(config, saved)), report);
      if MeasureCfg(config).Some? then (Some(report'), RCA.FlagAll(MeasureCfg(config).value, saved))
      else (Some(report'), saved)
  }

  datatype MeasureCheck = MeasureCheck(project: ProjectInfoConfig, config: Config) {
    /**
     * `check`: `env` answers the directory creation, the project walk and
     * the engine's trees; `store` is the process-wide record store. The
     * item fails as `MeasureRun` says, and then leaves the report as it
     * was; the store ends as `MeasureRun` says.
     */
    method Check(env: Env, store: RCA.FuncSpaceStore, report: Report) returns (st: Status, report': Report)
      requires MeasureRunnable(config, env, store.records)
      modifies store`records
      ensures var r := MeasureRun(project, config, env, report, old(store.records));
        (st.Ok? <==> r.0.Some?) && report' == r.0.GetOr(report) && store.records == r.1
    {
      if project.result in env.failingDirs {
        return Err("Create result dir path failed!"), report;
      }
      var t := Toolchains.MakeCheck(config, Toolchains.RustCodeAnalysisForMeasure, project, store);
      var tool := t.measure;
      var s := tool.Check(env.walk, env.failingDirs, env.spaces);
      if s.Err? {
        return s, report;
      }
      s := tool.Parse();
      if s.Err? {
        return s, report;
      }
      s := tool.Count();
      if s.Err? {
        return s, report;
      }
      s, report' := tool.Result(report);
      if s.Err? {
        return s, report;
      }
      st := Done;
    }
  }
}
