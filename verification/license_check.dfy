/**
 * The license-check item: it creates its result directory, builds the
 * cargo-deny adapter and runs the four phases in order, returning the
 * first error.
 */
module LicenseCheckItem {
  import opened Wrappers
  import opened Config
  import opened ResultTypes
  import opened Environment
  import Toolchains
  import CargoDeny
  import RustCodeAnalysis

  /** What the phases need of their inputs: the score base is positive when the score is computed. */
  predicate LicenseRunnable(config: Config) {
    LicenseScoreDefined(config)
  }

  /** The counts `parse` stores for a fresh adapter after indexing `nfos`; none without both lists. */
  function LicenseCounts(config: Config, nfos: seq<CargoDeny.KrateLicenseNfo>): (r: Option<ParseResultDetail>)
    ensures r.Some? <==> LicenseListsPresent(config)
  {
    if LicenseListsPresent(config) then
      var allow := LicenseCfg(config).value.allowLicenses.value;
      var deny := LicenseCfg(config).value.denyLicenses.value;
      var ix := CargoDeny.IndexCrates(CargoDeny.EmptyIndex, nfos);
      Some(CargoLicenseParsed(
        Some(CargoDeny.TotalClass(ix.crateLicenses, allow, deny, CargoDeny.DenyClass)),
        Some(|ix.unlicenseCrates|),
        Some(CargoDeny.TotalClass(ix.crateLicenses, allow, deny, CargoDeny.DefaultClass))))
    else None
  }

  /**
   * The report after a license check, or `None` when the check fails. It
   * fails exactly when its result directory cannot be created or
   * gathering the crates fails; otherwise only the license slot can
   * change, and it holds a score of at most 100 exactly when the license
   * table is complete and lists both allowed and denied licenses.
   */
  function LicenseRun(project: ProjectInfoConfig, config: Config, env: Env, report: Report): (r: Option<Report>)
    requires LicenseRunnable(config)
    ensures r.Some? <==> project.result !in env.failingDirs && env.gathered.Ok?
    ensures r.Some? ==> r.value.(licenseCheck := report.licenseCheck) == report
    ensures r.Some? && LicenseCfgComplete(config) && LicenseListsPresent(config) ==>
      r.value.licenseCheck.Some? && r.value.licenseCheck.value.score.Some?
      && r.value.licenseCheck.value.score.value <= 100
    ensures r.Some? && !(LicenseCfgComplete(config) && LicenseListsPresent(config)) ==> r.value == report
  {
    if project.result in env.failingDirs || env.gathered.Err? then None
    else Some(CargoDeny.MergeLicense(CargoDeny.LicenseScore(config, LicenseCounts(config, env.gathered.value)), report))
  }

  datatype LicenseCheck = LicenseCheck(project: ProjectInfoConfig, config: Config) {
    /**
     * `check`: `env` answers the directory creation and the crate
     * gathering; `store` is the process-wide record store, which this item
     * leaves alone. The item fails as `LicenseRun` says, and then leaves
     * the report as it was.
     */
    method Check(env: Env, store: RustCodeAnalysis.FuncSpaceStore, report: Report) returns (st: Status, report': Report)
      requires LicenseRunnable(config)
      ensures st.Ok? <==> LicenseRun(project, config, env, report).Some?
      ensures report' == LicenseRun(project, config, env, report).GetOr(report)
    {
      if project.result in env.failingDirs {
        return Err("Create result dir path failed!"), report;
      }
      var t := Toolchains.MakeCheck(config, Toolchains.CargoDenyForLicenseCheck, project, store);
      var tool := t.license;
      var s := tool.Check(env.gathered);
      if s.Err? {
        return s, report;
      }
      s := tool.Parse();
      if s.Err? {
        return s, report;
      }
      s := tool.Count();
      if s.Err? {
        return s, report;
      }
      s, report' := tool.Result(report);
      if s.Err? {
        return s, report;
      }
      st := Done;
    }
  }
}
