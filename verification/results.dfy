/**
 * The data the adapters produce in their phases and the aggregate report
 * (`result::Result`, here `Report`: twelve optional scored slots).
 */
module ResultTypes {
  import opened Wrappers
  import opened Config

  /** Where an engine left its raw output. */
  datatype CheckResultDetail =
    | ClippyRaw(result: Option<Path>)
    | CodeAnalysisRaw(result: Option<Path>)
    | CargoLicenseRaw(result: Option<Path>)

  /** The counts classification extracts. */
  datatype ParseResultDetail =
    | ClippyParsed(error: Option<nat>, warn: Option<nat>)
    | CodeAnalysisParsed(
        largeCyclomaticComplexity: Option<nat>,
        largeCognitiveComplexity: Option<nat>,
        largeNumRowsFile: Option<nat>,
        largeNumRowsFunction: Option<nat>)
    | CargoLicenseParsed(denyLicense: Option<nat>, unlicense: Option<nat>, defaultLicense: Option<nat>)

  /** The score and the weight-normalised score of one adapter. */
  datatype CountResultDetail =
    | ClippyCount(score: Option<nat>, normalizedScore: Option<nat>)
    | CodeAnalysisCount(score: Option<nat>, normalizedScore: Option<nat>)
    | CargoLicenseCount(score: Option<nat>, normalizedScore: Option<nat>)

  /** One slot of the report; the twelve slot structs of the source share this shape. */
  datatype ScoreEntry = ScoreEntry(score: Option<nat>, normalizedScore: Option<nat>)

  datatype Report = Report(
    staticCheck: Option<ScoreEntry>,
    codeMeasure: Option<ScoreEntry>,
    codeDuplication: Option<ScoreEntry>,
    dependentCrate: Option<ScoreEntry>,
    securityCheck: Option<ScoreEntry>,
    dynamicCheck: Option<ScoreEntry>,
    vulnerabilityScan: Option<ScoreEntry>,
    licenseCheck: Option<ScoreEntry>,
    compileBuildInfoCheck: Option<ScoreEntry>,
    docCheck: Option<ScoreEntry>,
    testCheck: Option<ScoreEntry>,
    architectureDesignCheck: Option<ScoreEntry>)

  /** `Result::default()`: every slot absent. */
  const EmptyReport := Report(None, None, None, None, None, None, None, None, None, None, None, None)

  /** The three slots the adapters write are absent. */
  predicate NoScores(r: Report) {
    r.staticCheck.None? && r.licenseCheck.None? && r.codeMeasure.None?
  }
}
