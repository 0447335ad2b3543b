/**
 * The tool factory: which adapter backs which check, and the file inside
 * the check's result directory that the adapter writes its details to.
 */
module Toolchains {
  import opened Config
  import Clippy
  import CargoDeny
  import RustCodeAnalysis

  datatype CheckTool = ClippyForStaticCheck | CargoDenyForLicenseCheck | RustCodeAnalysisForMeasure

  /** The name of the file a tool writes its details to. */
  function ResultFileName(c: CheckTool): string {
    match c
    case ClippyForStaticCheck => "static_check.txt"
    case CargoDenyForLicenseCheck => "license_check.txt"
    case RustCodeAnalysisForMeasure => "measure_check.txt"
  }

  /** `make_result_path`: the tool's file, one level below `dir`. */
  function MakeResultPath(c: CheckTool, dir: Path): (r: Path)
    ensures |r| == |dir| + 1 && Pop(r) == dir
    ensures r[|dir|] == ResultFileName(c)
  {
    Push(dir, ResultFileName(c))
  }

  /** Two tools share a result file only if they are the same tool. */
  lemma MakeResultPathInjective(a: CheckTool, b: CheckTool, dir: Path)
    ensures MakeResultPath(a, dir) == MakeResultPath(b, dir) <==> a == b
  {
    if MakeResultPath(a, dir) == MakeResultPath(b, dir) {
      assert ResultFileName(a) == MakeResultPath(a, dir)[|dir|] == ResultFileName(b);
      assert ResultFileName(a)[0] == ResultFileName(b)[0];
    }
  }

  /** The project settings a tool is built with: only the result path changes. */
  function ToolProject(c: CheckTool, p: ProjectInfoConfig): (r: ProjectInfoConfig)
    ensures r.dir == p.dir && r.manifest == p.manifest
    ensures r.result == MakeResultPath(c, p.result)
  {
    ProjectInfoConfig(p.manifest, p.dir, MakeResultPath(c, p.result))
  }

  /** A boxed adapter: one of the three implementations of the phase interface. */
  datatype Tool =
    | ClippyTool(clippy: Clippy.Clippy)
    | LicenseTool(license: CargoDeny.LicenseCheck)
    | MeasureTool(measure: RustCodeAnalysis.RustCodeAnalysis)

  /**
   * `make_check`: a fresh adapter of the requested kind, with no results
   * and empty collections. The measure adapter works on the process-wide
   * record store `store`.
   */
  method MakeCheck(cfg: Config, tool: CheckTool, projectCfg: ProjectInfoConfig,
                   store: RustCodeAnalysis.FuncSpaceStore)
    returns (t: Tool)
    ensures tool.ClippyForStaticCheck? <==> t.ClippyTool?
    ensures tool.CargoDenyForLicenseCheck? <==> t.LicenseTool?
    ensures tool.RustCodeAnalysisForMeasure? <==> t.MeasureTool?
    ensures t.ClippyTool? ==>
      var c := t.clippy;
      fresh(c) && c.projectCfg == ToolProject(tool, projectCfg) && c.config == cfg
      && c.lintInfo == map[] && c.checkResult.None? && c.parseResult.None? && c.countResult.None?
    ensures t.LicenseTool? ==>
      var l := t.license;
      fresh(l) && l.projectCfg == ToolProject(tool, projectCfg) && l.config == cfg
      && l.crateLicenses == [] && l.licenseCrates == [] && l.unlicenseCrates == [] && l.result == []
      && l.checkResult.None? && l.parseResult.None? && l.countResult.None? && l.Valid()
    ensures t.MeasureTool? ==>
      var m := t.measure;
      fresh(m) && m.projectCfg == ToolProject(tool, projectCfg) && m.config == cfg && m.store == store
      && m.dirList == map[] && m.funcInfo == []
      && m.checkResult.None? && m.parseResult.None? && m.countResult.None?
  {
    var project := ProjectInfoConfig(projectCfg.manifest, projectCfg.dir, MakeResultPath(tool, projectCfg.result));
    match tool {
      case ClippyForStaticCheck =>
        var c := new Clippy.Clippy(project, cfg);
        t := ClippyTool(c);
      case CargoDenyForLicenseCheck =>
        var l := new CargoDeny.LicenseCheck(project, cfg);
        t := LicenseTool(l);
      case RustCodeAnalysisForMeasure =>
        var m := new RustCodeAnalysis.RustCodeAnalysis(project, cfg, store);
        t := MeasureTool(m);
    }
  }
}
