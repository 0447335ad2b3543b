/**
 * Configuration: the quality-evaluation kinds, their parsers, and the
 * configuration records read from the project's TOML file (all integers
 * are `u64` in the source and `nat` here).
 */
module Config {
  import opened Wrappers
  import opened StrUtil

  /** A `PathBuf`, as its sequence of components; `push` appends one. */
  type Path = seq<string>

  function Push(p: Path, component: string): Path {
    p + [component]
  }

  /** `PathBuf::pop`: drops the last component, if there is one. */
  function Pop(p: Path): Path {
    if |p| == 0 then p else p[..|p| - 1]
  }

  datatype CommunityEcology = DeveloperCount

  /** `CommunityEcology::get_all`: every variant, once. */
  function CommunityEcologyGetAll(): (r: seq<CommunityEcology>)
    ensures |r| == 1 && DeveloperCount in r
  {
    [DeveloperCount]
  }

  /** `CommunityEcology::from_str`: case-insensitive match on `developer_count`. */
  function CommunityEcologyFromStr(s: string): (r: Outcome<CommunityEcology>)
    ensures r.Ok? <==> ToAsciiLower(s) == "developer_count"
  {
    var l := ToAsciiLower(s);
    if l == "developer_count" then Ok(DeveloperCount)
    else Err("unkonw CommunityEcology option")
  }

  datatype QualityEvaluation = StaticCheck | License | Measure

  /** `QualityEvaluation::get_all`: the three kinds, each once, in declaration order. */
  function GetAll(): (r: seq<QualityEvaluation>)
    ensures |r| == 3 && StaticCheck in r && License in r && Measure in r
    ensures forall i, j :: 0 <= i < j < |r| ==> r[i] != r[j]
    ensures r[0] == StaticCheck && r[1] == License && r[2] == Measure
  {
    [StaticCheck, License, Measure]
  }

  /** The lower-case name under which each kind is accepted. */
  function Name(q: QualityEvaluation): string {
    match q
    case StaticCheck => "static_check"
    case License => "license"
    case Measure => "measure"
  }

  /** `QualityEvaluation::from_str`: ASCII-lower-cases, then matches the three names. */
  function QualityEvaluationFromStr(s: string): (r: Outcome<QualityEvaluation>)
    ensures r.Ok? <==> ToAsciiLower(s) in {Name(StaticCheck), Name(License), Name(Measure)}
    ensures r.Ok? ==> ToAsciiLower(s) == Name(r.value)
  {
    var l := ToAsciiLower(s);
    if l == "static_check" then Ok(StaticCheck)
    else if l == "license" then Ok(License)
    else if l == "measure" then Ok(Measure)
    else Err("unkonw QualityEvaluation option")
  }

  /** Parsing ignores ASCII case. */
  lemma QualityEvaluationCaseInsensitive(s: string)
    ensures QualityEvaluationFromStr(s) == QualityEvaluationFromStr(ToAsciiLower(s))
    ensures CommunityEcologyFromStr(s) == CommunityEcologyFromStr(ToAsciiLower(s))
  {
    ToAsciiLowerIdempotent(s);
  }

  /** Every kind's name parses back to that kind. */
  lemma QualityEvaluationRoundTrip(q: QualityEvaluation)
    ensures QualityEvaluationFromStr(Name(q)) == Ok(q)
  {
    var n := Name(q);
    assert ToAsciiLower(n) == n;
  }

  /** Upper-case spellings are accepted; other words are refused. */
  lemma QualityEvaluationExamples()
    ensures QualityEvaluationFromStr("LICENSE") == Ok(License)
    ensures QualityEvaluationFromStr("Static_Check") == Ok(StaticCheck)
    ensures QualityEvaluationFromStr("lint").Err?
    ensures CommunityEcologyFromStr("Developer_Count") == Ok(DeveloperCount)
  {
    assert ToAsciiLower("LICENSE") == "license";
    assert ToAsciiLower("Static_Check") == "static_check";
    assert ToAsciiLower("lint") == "lint";
    assert ToAsciiLower("Developer_Count") == "developer_count";
  }

  datatype StaticCheckEvaluationConfig = StaticCheckEvaluationConfig(
    errorScore: Option<nat>,
    warnScore: Option<nat>,
    staticCheckScore: Option<nat>,
    staticCheckWeight: Option<nat>)

  datatype MeasureEvaluationConfig = MeasureEvaluationConfig(
    largeCyclomaticComplexity: Option<nat>,
    largeCyclomaticComplexityScore: Option<nat>,
    largeCognitiveComplexity: Option<nat>,
    largeCognitiveComplexityScore: Option<nat>,
    largeNumRowsFunction: Option<nat>,
    largeNumRowsFunctionScore: Option<nat>,
    largeNumRowsFile: Option<nat>,
    largeNumRowsFileScore: Option<nat>,
    measureScore: Option<nat>,
    measureWeight: Option<nat>)

  datatype LicenseEvaluationConfig = LicenseEvaluationConfig(
    allowLicenses: Option<seq<string>>,
    denyLicenses: Option<seq<string>>,
    denyLicenseScore: Option<nat>,
    defaultLicenseScore: Option<nat>,
    unlicenseScore: Option<nat>,
    licenseEvalScore: Option<nat>,
    licenseEvalWeight: Option<nat>)

  /** The field is spelled `measeure_cfg` in the source. */
  datatype QualityEvaluationConfig = QualityEvaluationConfig(
    staticCheckCfg: Option<StaticCheckEvaluationConfig>,
    measeureCfg: Option<MeasureEvaluationConfig>,
    licenseCfg: Option<LicenseEvaluationConfig>)

  datatype CommunityEcologyConfig = CommunityEcologyConfig(name: Option<string>)

  datatype ProjectInfoConfig = ProjectInfoConfig(manifest: Path, dir: Path, result: Path)

  datatype Config = Config(
    checkQualityItem: Option<seq<QualityEvaluation>>,
    excludeDir: Option<seq<string>>,
    checkCommunityEcologyItem: Option<seq<CommunityEcology>>,
    communityEcologyCfg: Option<CommunityEcologyConfig>,
    qualityEvaluationCfg: Option<QualityEvaluationConfig>,
    projectInfoConfig: Option<ProjectInfoConfig>)

  /** The static-check table, when present. */
  function StaticCfg(c: Config): Option<StaticCheckEvaluationConfig> {
    if c.qualityEvaluationCfg.Some? then c.qualityEvaluationCfg.value.staticCheckCfg else None
  }

  function MeasureCfg(c: Config): Option<MeasureEvaluationConfig> {
    if c.qualityEvaluationCfg.Some? then c.qualityEvaluationCfg.value.measeureCfg else None
  }

  function LicenseCfg(c: Config): Option<LicenseEvaluationConfig> {
    if c.qualityEvaluationCfg.Some? then c.qualityEvaluationCfg.value.licenseCfg else None
  }

  /** All four fields the static-check score needs are present. */
  predicate StaticCfgComplete(c: Config) {
    var s := StaticCfg(c);
    s.Some? && s.value.errorScore.Some? && s.value.warnScore.Some?
    && s.value.staticCheckScore.Some? && s.value.staticCheckWeight.Some?
  }

  /** The static-check score divides by its base only when it is computed. */
  predicate StaticScoreDefined(c: Config) {
    StaticCfgComplete(c) ==> StaticCfg(c).value.staticCheckScore.value > 0
  }

  /** Both license lists are present (what `parse` of the license check needs). */
  predicate LicenseListsPresent(c: Config) {
    var l := LicenseCfg(c);
    l.Some? && l.value.allowLicenses.Some? && l.value.denyLicenses.Some?
  }

  /** All four fields the license score needs are present. */
  predicate LicenseCfgComplete(c: Config) {
    var l := LicenseCfg(c);
    l.Some? && l.value.denyLicenseScore.Some? && l.value.defaultLicenseScore.Some?
    && l.value.licenseEvalScore.Some? && l.value.licenseEvalWeight.Some?
  }

  predicate LicenseScoreDefined(c: Config) {
    LicenseCfgComplete(c) && LicenseListsPresent(c) ==> LicenseCfg(c).value.licenseEvalScore.value > 0
  }

  /** All six fields the measure score needs are present. */
  predicate MeasureCfgComplete(c: Config) {
    var m := MeasureCfg(c);
    m.Some? && m.value.largeCyclomaticComplexityScore.Some? && m.value.largeCognitiveComplexityScore.Some?
    && m.value.largeNumRowsFunctionScore.Some? && m.value.largeNumRowsFileScore.Some?
    && m.value.measureScore.Some? && m.value.measureWeight.Some?
  }

  predicate MeasureScoreDefined(c: Config) {
    MeasureCfgComplete(c) ==> MeasureCfg(c).value.measureScore.value > 0
  }
}
