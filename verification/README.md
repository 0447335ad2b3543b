# cargo-quality, modelled in Dafny

`cargo quality` evaluates a Rust project along up to three axes: a static
check (Clippy lints), a license check (cargo-deny's license gathering) and a
code measure (rust-code-analysis metrics). A `Project` reads which axes the
configuration selects, builds one check item per axis, each with its own
result subdirectory, and runs them in order on one shared report. Every item
builds its tool adapter and drives it through four phases: `check` runs or
queries the external engine, `parse` classifies its output, `count` turns
the classification into a 0..100 score and a weighted score, and `result`
copies both into the item's slot of the report.

The model follows the source file by file:

| Dafny file | module | models |
|---|---|---|
| `config.dfy` | `Config` | `config/mod.rs`: the configuration records, the two enums and their parsing |
| `results.dfy` | `ResultTypes` | `result/mod.rs`: the report and the per-phase result details |
| `util.dfy` | `Util` | `util/mod.rs`: the directory filter and the walk over a project |
| `toolchains.dfy` | `Toolchains` | `toolchains/mod.rs`: the adapter factory and the result file of each tool |
| `clippy.dfy` | `Clippy` | `toolchains/clippy/mod.rs`: the line scanner over Clippy's output, the counts and the score |
| `cargo_deny.dfy` | `CargoDeny` | `toolchains/cargo_deny/mod.rs`: the license index, the classification and the score |
| `rust_code_analysis.dfy` | `RustCodeAnalysis` | `toolchains/rust_code_analysis/mod.rs`: the process-wide record store, the flattening of metric trees, the dump file names, the thresholds and the score |
| `static_check.dfy`, `license_check.dfy`, `measure_check.dfy` | `StaticCheckItem`, `LicenseCheckItem`, `MeasureCheckItem` | the three `check_item/*/mod.rs` drivers |
| `check_item.dfy` | `CheckItem` | `check_item/mod.rs`: the item factory and the dispatch of `check` |
| `project.dfy` | `Project` | `project/mod.rs`: building the items and running them |

Helper modules: `Wrappers` (`Option`, the `Outcome` of an operation that can
fail, and the `Status` of a phase), `StrUtil` (`find`, `contains`,
`starts_with`, `ends_with`, ASCII lower-casing and the lexicographic order of
`String`), `SortedAssoc` (a `BTreeMap` and a vector kept sorted by binary
search, both as sorted association lists), `Scoring` (the saturating-sub
score arithmetic all three `count` phases share), `MetricsEngine` (the
`FuncSpace` trees rust-code-analysis computes) and `Environment` (what the
outside world answers: which directories cannot be created, which files can
be read and their lines, what cargo-deny gathered, what walking the project
yields and the metric trees of its files).

Adapters, whose phases update fields, are classes with `modifies` clauses.
Check items hold no mutable state and are datatypes with a `Check` method.
`Project` is a class. The process-wide `FUNC_SPACE_RESULT` vector is the
class `RustCodeAnalysis.FuncSpaceStore`; one store is handed to every item
and every adapter. Each driver is specified by a pure run function
(`StaticRun`, `LicenseRun`, `MeasureRun`, `ItemRun`, `RunAll`). The method's
`ensures` ties its status, its report and the store to that function, and
the lemmas state what the function promises.

u64 arithmetic is modelled on unbounded naturals. Every `requires` on a
score states the source's own division by the score base: the base must be
positive when the score is computed, since the source panics otherwise.

## Behaviour of the code worth knowing

The model keeps these behaviours of the code as written, and a lemma states
each one:

- A failing item aborts the run (`project/mod.rs:57-62`). `execute` returns
  at the first `?`, so the items after a failing one never run. In
  particular, a lint file that cannot be opened ends the whole evaluation.
  See `Project.RunAllStopsAtError` and `Project.DefaultRunWithoutLintFile`.
- The lint kind of a block is that of its last marker line
  (`toolchains/clippy/mod.rs:85-101`). Every marker line overwrites the
  kind, and the kind is not reset at a blank line: a block without a marker
  of its own inherits the previous block's kind (`Clippy.KindCarriesOver`,
  `Clippy.SampleFileCounts`). The last block of the file is stored only if a
  blank line follows it (`Clippy.UnsavedTail`).
- Three of the four markers of `get_lint_kind`
  (`toolchains/clippy/mod.rs:183-202`) are ordinary strings that start with
  a literal `r` (`"r#[deny("`, `"r#[warn(clippy::"`, `"r#[deny(clippy::"`).
  Ordinary Clippy diagnostics do not contain those, so a `#[deny(...)]`
  line gets no kind (`Clippy.DenyLine`). The model keeps the strings as
  written. The tag runs from the marker to the first `)` anywhere in the
  line (`Clippy.TagFor`).
- License counts are per license occurrence, not per crate
  (`toolchains/cargo_deny/mod.rs:126-150`). A crate with two denied
  licenses adds two to the deny count (`CargoDeny.PerLicenseCount`).
- An unlicensed crate is also entered, with an empty license list, in the
  per-crate map (`toolchains/cargo_deny/mod.rs:69-98`). It is therefore
  reported twice (`CargoDeny.UnlicensedListedTwice`).
- A Clippy run that fails is only reported (`toolchains/clippy/mod.rs:56-70`).
  The static item fails only if the lint file cannot be opened afterwards
  (`Clippy.Clippy.Check`, `Clippy.Clippy.Parse`).

## Model

| member | source | states |
|---|---|---|
| `Config.CommunityEcologyGetAll` | cargo-quality/src/config/mod.rs:12-14 | the list holds exactly one entry, `DeveloperCount` |
| `Config.CommunityEcologyFromStr` | cargo-quality/src/config/mod.rs:20-27 | succeeds exactly when the ASCII-lower-cased input is `developer_count` |
| `Config.GetAll` | cargo-quality/src/config/mod.rs:38-44 | three distinct kinds, in the order static check, license, measure |
| `Config.QualityEvaluationFromStr` | cargo-quality/src/config/mod.rs:50-57 | succeeds exactly when the lower-cased input is one of the three names, and then yields the kind with that name |
| `Config.QualityEvaluationCaseInsensitive` | cargo-quality/src/config/mod.rs:20-57 | both parsers give the same answer for a string and for its lower-cased form |
| `Config.QualityEvaluationRoundTrip` | cargo-quality/src/config/mod.rs:50-57 | every kind's name parses back to that kind |
| `Config.QualityEvaluationExamples` | cargo-quality/src/config/mod.rs:20-57 | upper- and mixed-case spellings are accepted; an unknown word is an error |
| `StrUtil.FindFrom` | cargo-quality/src/toolchains/clippy/mod.rs:183-202 | the search returns the first offset at which the pattern occurs, or none when it occurs nowhere |
| `StrUtil.LessIrreflexive` | cargo-quality/src/toolchains/cargo_deny/mod.rs:81 | the string order used by the binary search is irreflexive |
| `StrUtil.LessAsymmetric` | cargo-quality/src/toolchains/cargo_deny/mod.rs:81 | the string order is asymmetric |
| `StrUtil.LessTransitive` | cargo-quality/src/toolchains/cargo_deny/mod.rs:81 | the string order is transitive |
| `StrUtil.LessTotal` | cargo-quality/src/toolchains/cargo_deny/mod.rs:81 | any two strings are equal or ordered one way |
| `StrUtil.ToAsciiLower` | cargo-quality/src/config/mod.rs:21 | lower-casing keeps the length and maps each character independently |
| `StrUtil.ToAsciiLowerIdempotent` | cargo-quality/src/config/mod.rs:51 | lower-casing twice equals lower-casing once |
| `Util.FirstExcluded` | cargo-quality/src/util/mod.rs:11-14 | a found fragment is an exclude entry contained in the path; none is found exactly when no entry is contained |
| `Util.DirAndNameMeaning` | cargo-quality/src/util/mod.rs:10-18 | an entry is kept iff no fragment occurs in its path, it is a directory and its path ends with the name |
| `Util.EmptyFragmentExcludesAll` | cargo-quality/src/util/mod.rs:11-16 | an empty exclude fragment rejects every entry |
| `Util.DirAndNameAntitone` | cargo-quality/src/util/mod.rs:10-18 | more exclude fragments never accept an entry that fewer rejected |
| `Util.GetAllDir` | cargo-quality/src/util/mod.rs:21-36 | a path is a key exactly when some walked entry with that path passes the filter, and it maps to such an entry |
| `SortedAssoc.Lookup` | cargo-quality/src/toolchains/cargo_deny/mod.rs:35-36 | a key is found exactly when some entry carries it |
| `SortedAssoc.Put` | cargo-quality/src/toolchains/cargo_deny/mod.rs:96-97 | insertion keeps the keys sorted and every entry is either the new one or an old one |
| `SortedAssoc.PutLookup` | cargo-quality/src/toolchains/cargo_deny/mod.rs:96-97 | after insertion the key maps to the new value, every other key keeps its value, and the list grows only for a new key |
| `SortedAssoc.BinarySearch` | cargo-quality/src/toolchains/cargo_deny/mod.rs:81 | finds the key's index, or the index with every smaller key before it and every larger key from it on |
| `SortedAssoc.PutFound` | cargo-quality/src/toolchains/cargo_deny/mod.rs:82 | a present key's entry is replaced in place |
| `SortedAssoc.PutInsert` | cargo-quality/src/toolchains/cargo_deny/mod.rs:83-87 | an absent key is inserted at the position the binary search reports |
| `Scoring.SaturatingSub` | cargo-quality/src/toolchains/clippy/mod.rs:145-147 | the result never exceeds the minuend, is the difference when that is non-negative, and zero otherwise |
| `Scoring.ChainSubIsSubOfSum` | cargo-quality/src/toolchains/rust_code_analysis/mod.rs:725-733 | a chain of saturating subtractions equals one saturating subtraction of the total penalty |
| `Scoring.ChainSubPair` | cargo-quality/src/toolchains/clippy/mod.rs:145-147 | the two-step chain of the static and license scores is the chain over the two penalties |
| `Scoring.ChainSubQuad` | cargo-quality/src/toolchains/rust_code_analysis/mod.rs:725-733 | the four-step chain of the measure score is the chain over the four penalties |
| `Scoring.RawScore` | cargo-quality/src/toolchains/clippy/mod.rs:145-149 | the score is at most 100, is 0 once the penalties reach the base, and is 100 without penalty |
| `Scoring.RawScoreMonotone` | cargo-quality/src/toolchains/clippy/mod.rs:145-149 | larger penalties never give a higher score |
| `Scoring.Normalize` | cargo-quality/src/toolchains/clippy/mod.rs:150 | the weighted score is the floor of score times weight over 100, and at most the weight |
| `Scoring.ScoreExample` | cargo-quality/src/toolchains/clippy/mod.rs:145-150 | base 100 with 40 points of penalty scores 60, which weight 50 turns into 30 |
| `Clippy.TagFor` | cargo-quality/src/toolchains/clippy/mod.rs:183-202 | a tag exists exactly when the line holds both the marker and a `)`; it starts with the marker, holds no `)`, sits in the line at the marker's first occurrence and ends just before the line's first `)`, which does not come before the marker |
| `Clippy.TagShape` | cargo-quality/src/toolchains/clippy/mod.rs:183-186 | the slice from the marker to the first `)` starts with the marker and holds no `)` |
| `Clippy.GetLintKind` | cargo-quality/src/toolchains/clippy/mod.rs:181-204 | each kind is returned exactly when its marker and a `)` occur and no later-tested marker occurs; its tag is the `TagFor` slice of its own marker, so it starts at that marker and ends before the line's first `)` |
| `Clippy.WithLintItem` | cargo-quality/src/toolchains/clippy/mod.rs:40-50 | a block without kind changes nothing; a tagged block is stored under its index; other indices are untouched |
| `Clippy.ScanFrame` | cargo-quality/src/toolchains/clippy/mod.rs:79-102 | the block index grows by the number of blank lines; earlier blocks keep their entries; new entries appear only under closed blocks, tagged |
| `Clippy.UnsavedTail` | cargo-quality/src/toolchains/clippy/mod.rs:83-102 | lines after the last blank line are collected but never stored |
| `Clippy.BlankLineSaves` | cargo-quality/src/toolchains/clippy/mod.rs:85-89 | a blank line stores the block it closes under the current index, then clears the block and advances the index |
| `Clippy.ScanPlain` | cargo-quality/src/toolchains/clippy/mod.rs:98-100 | a non-blank line without a marker is only collected into the block |
| `Clippy.ScanMarked` | cargo-quality/src/toolchains/clippy/mod.rs:91-100 | a marker line sets the block's kind to its classification and is collected |
| `Clippy.CountsPartition` | cargo-quality/src/toolchains/clippy/mod.rs:105-117 | every stored tagged block counts once, as a warning or as an error |
| `Clippy.PlainLine` | cargo-quality/src/toolchains/clippy/mod.rs:91-95 | a line without `#` is never classified |
| `Clippy.WarnLine` | cargo-quality/src/toolchains/clippy/mod.rs:181-187 | `#[warn(unused)]` is a compiler warning tagged `#[warn(unused` |
| `Clippy.DenyLine` | cargo-quality/src/toolchains/clippy/mod.rs:188-202 | a `#[deny(...)]` line passes the marker test of `parse` but gets no kind |
| `Clippy.FirstBlock` | cargo-quality/src/toolchains/clippy/mod.rs:79-102 | a tagged line, a plain line and a blank line store one block with both lines under index 1 |
| `Clippy.TwoBlocks` | cargo-quality/src/toolchains/clippy/mod.rs:79-121 | a warning block followed by an untagged final block stores only the warning: one warning, no error |
| `Clippy.KindCarriesOver` | cargo-quality/src/toolchains/clippy/mod.rs:80-97 | a block without a marker is stored with the previous block's kind |
| `Clippy.TwoWarnings` | cargo-quality/src/toolchains/clippy/mod.rs:105-118 | two stored blocks of one warning kind count two warnings and no error |
| `Clippy.SampleFileCounts` | cargo-quality/src/toolchains/clippy/mod.rs:76-118 | the file `#[warn(unused)]`, blank, `help: remove it`, blank is scanned into two warnings and no error |
| `Clippy.StaticScore` | cargo-quality/src/toolchains/clippy/mod.rs:126-159 | a score exists exactly when the four settings and both counts are present; it is at most 100, 0 once the penalty reaches the base, 100 without penalty, and the weighted score is at most the weight |
| `Clippy.StaticScoreMonotone` | cargo-quality/src/toolchains/clippy/mod.rs:145-149 | more warnings never raise the static score |
| `Clippy.MergeStatic` | cargo-quality/src/toolchains/clippy/mod.rs:163-177 | only the static slot can change; it gets both numbers when both are present, otherwise the report is unchanged |
| `Clippy.Clippy.constructor` | cargo-quality/src/toolchains/mod.rs:41-48 | a fresh adapter: no lints, no phase results |
| `Clippy.Clippy.SaveLintItem` | cargo-quality/src/toolchains/clippy/mod.rs:40-50 | the lint map becomes the map with the block saved, as `WithLintItem` describes |
| `Clippy.Clippy.Check` | cargo-quality/src/toolchains/clippy/mod.rs:56-70 | always succeeds and records the result path as the lint file |
| `Clippy.Clippy.Parse` | cargo-quality/src/toolchains/clippy/mod.rs:74-123 | an unreadable lint file is an error that changes nothing; otherwise the file's blocks are stored and errors and warnings among all stored blocks are counted |
| `Clippy.Clippy.ReadBlocks` | cargo-quality/src/toolchains/clippy/mod.rs:79-102 | the loop stores exactly the blocks the scanner model stores |
| `Clippy.Clippy.CountLints` | cargo-quality/src/toolchains/clippy/mod.rs:105-117 | the counts are the deny and warn entries of the map, and they add up to its size when every entry is tagged |
| `Clippy.Clippy.Count` | cargo-quality/src/toolchains/clippy/mod.rs:126-159 | the score is stored exactly when `StaticScore` yields one; otherwise the old count stays |
| `Clippy.Clippy.Result` | cargo-quality/src/toolchains/clippy/mod.rs:163-177 | the report gains the static score as `MergeStatic` says |
| `CargoDeny.Dedup` | cargo-quality/src/toolchains/cargo_deny/mod.rs:74-89 | no repeats, the same elements, and a list without repeats is kept as it is |
| `CargoDeny.DedupFirstSeen` | cargo-quality/src/toolchains/cargo_deny/mod.rs:74-89 | the kept elements are in the order of their first occurrence in the requirements (with `Dedup`'s contract this fixes the list) |
| `CargoDeny.FirstIndexPrefix` | cargo-quality/src/toolchains/cargo_deny/mod.rs:78-89 | pushing further requirements does not move the first occurrence of one already seen |
| `CargoDeny.AddCrate` | cargo-quality/src/toolchains/cargo_deny/mod.rs:81-88 | the license index stays sorted |
| `CargoDeny.AddCrateLookup` | cargo-quality/src/toolchains/cargo_deny/mod.rs:81-88 | only the named license's crate list changes, by appending the crate |
| `CargoDeny.AddCrateFound` | cargo-quality/src/toolchains/cargo_deny/mod.rs:81-82 | a license already indexed gets the crate appended in place |
| `CargoDeny.AddCrateInsert` | cargo-quality/src/toolchains/cargo_deny/mod.rs:83-87 | a new license is inserted at its sorted place with the crate alone |
| `CargoDeny.AddReqs` | cargo-quality/src/toolchains/cargo_deny/mod.rs:73-91 | the license index stays sorted |
| `CargoDeny.AddReqsMeaning` | cargo-quality/src/toolchains/cargo_deny/mod.rs:73-91 | the crate's list is its requirements without repeats, and each license it names gets the crate exactly once |
| `CargoDeny.IndexOne` | cargo-quality/src/toolchains/cargo_deny/mod.rs:69-98 | one gathered crate keeps both sorted collections sorted |
| `CargoDeny.IndexCrates` | cargo-quality/src/toolchains/cargo_deny/mod.rs:69-98 | indexing all gathered crates keeps both sorted collections sorted |
| `CargoDeny.IndexCratesMeaning` | cargo-quality/src/toolchains/cargo_deny/mod.rs:69-98 | each license lists the crates naming it in gathering order; the unlicensed crates are listed in order; each crate maps to the licenses of its last gathered entry |
| `CargoDeny.CratesWithBound` | cargo-quality/src/toolchains/cargo_deny/mod.rs:77-89 | a crate is listed under a license at most as often as it was gathered |
| `CargoDeny.CountClassPositive` | cargo-quality/src/toolchains/cargo_deny/mod.rs:131-141 | a class is counted for a crate exactly when one of its licenses falls in it |
| `CargoDeny.CountClassPartition` | cargo-quality/src/toolchains/cargo_deny/mod.rs:131-141 | every license occurrence falls in exactly one of deny, allow and default |
| `CargoDeny.DenyBeforeAllow` | cargo-quality/src/toolchains/cargo_deny/mod.rs:132-136 | a license in both lists counts as denied only |
| `CargoDeny.CrateRecord` | cargo-quality/src/toolchains/cargo_deny/mod.rs:126-149 | each flag of a crate's record is set exactly when one of its licenses is in that class, deny first |
| `CargoDeny.Records` | cargo-quality/src/toolchains/cargo_deny/mod.rs:126-150 | one record per indexed crate, in key order |
| `CargoDeny.UnlicensedRecords` | cargo-quality/src/toolchains/cargo_deny/mod.rs:151-160 | one unlicensed record per unlicensed crate, in order |
| `CargoDeny.PerLicenseCount` | cargo-quality/src/toolchains/cargo_deny/mod.rs:131-141 | a crate with two denied licenses adds two to the deny count |
| `CargoDeny.UnlicensedListedTwice` | cargo-quality/src/toolchains/cargo_deny/mod.rs:92-160 | an unlicensed crate yields an empty record and, after it, an unlicensed record |
| `CargoDeny.LicenseScore` | cargo-quality/src/toolchains/cargo_deny/mod.rs:172-205 | a score exists exactly when the four settings and both counts are present; it is at most 100, 0 once the penalty reaches the base, 100 without penalty, and the weighted score is at most the weight |
| `CargoDeny.UnlicenseIgnored` | cargo-quality/src/toolchains/cargo_deny/mod.rs:186-196 | the unlicensed count does not affect the score |
| `CargoDeny.LicenseScoreMonotone` | cargo-quality/src/toolchains/cargo_deny/mod.rs:192-196 | more denied licenses never raise the license score |
| `CargoDeny.MergeLicense` | cargo-quality/src/toolchains/cargo_deny/mod.rs:208-221 | only the license slot can change; it gets both numbers when both are present, otherwise the report is unchanged |
| `CargoDeny.LicenseCheck.constructor` | cargo-quality/src/toolchains/mod.rs:49-59 | a fresh adapter: empty collections, no phase results |
| `CargoDeny.LicenseCheck.Check` | cargo-quality/src/toolchains/cargo_deny/mod.rs:48-101 | a gathering error fails and changes nothing; otherwise the collections become the index of the gathered crates |
| `CargoDeny.LicenseCheck.AddLicenses` | cargo-quality/src/toolchains/cargo_deny/mod.rs:70-90 | the binary-search loop computes what `AddReqs` describes |
| `CargoDeny.LicenseCheck.Parse` | cargo-quality/src/toolchains/cargo_deny/mod.rs:105-169 | with both lists configured it appends the crate and unlicensed records and stores the deny, unlicensed and default counts; otherwise nothing changes |
| `CargoDeny.LicenseCheck.AppendCrateRecords` | cargo-quality/src/toolchains/cargo_deny/mod.rs:126-150 | appends one record per crate and returns the deny and default totals |
| `CargoDeny.LicenseCheck.ClassifyLicenses` | cargo-quality/src/toolchains/cargo_deny/mod.rs:127-141 | counts a crate's deny and default occurrences and sets each flag exactly when a license falls in its class |
| `CargoDeny.LicenseCheck.AppendUnlicensed` | cargo-quality/src/toolchains/cargo_deny/mod.rs:151-160 | appends one unlicensed record per unlicensed crate |
| `CargoDeny.LicenseCheck.Count` | cargo-quality/src/toolchains/cargo_deny/mod.rs:172-205 | the score is stored exactly when `LicenseScore` yields one; otherwise the old count stays |
| `CargoDeny.LicenseCheck.Result` | cargo-quality/src/toolchains/cargo_deny/mod.rs:208-221 | the report gains the license score as `MergeLicense` says |
| `RustCodeAnalysis.SpaceKindNameRoundTrip` | cargo-quality/src/toolchains/rust_code_analysis/mod.rs:66-78 | every space kind's name reads back as that kind |
| `RustCodeAnalysis.SpaceKindNameInjective` | cargo-quality/src/toolchains/rust_code_analysis/mod.rs:66-78 | distinct kinds have distinct names |
| `RustCodeAnalysis.NodeRecord` | cargo-quality/src/toolchains/rust_code_analysis/mod.rs:97-130 | a node's record keeps its name and span and is a unit record exactly for a unit node |
| `RustCodeAnalysis.NodeRecordShaped` | cargo-quality/src/toolchains/rust_code_analysis/mod.rs:97-130 | a node's record is unflagged; a unit is keyed by its name with zero metrics; a function keeps its metrics under the prefix, its name and its kind |
| `RustCodeAnalysis.ChildPath` | cargo-quality/src/toolchains/rust_code_analysis/mod.rs:133-144 | at the top the children's prefix is the node's name; below it strictly extends the parent's prefix |
| `RustCodeAnalysis.ChildPathEmpty` | cargo-quality/src/toolchains/rust_code_analysis/mod.rs:133-144 | the children's prefix is empty exactly for a top node named with the empty string |
| `RustCodeAnalysis.FlattenEmitted` | cargo-quality/src/toolchains/rust_code_analysis/mod.rs:97-148 | the records of a tree are its named units and functions in pre-order, prefixes aside |
| `RustCodeAnalysis.FlattenChildrenEmitted` | cargo-quality/src/toolchains/rust_code_analysis/mod.rs:131-147 | the children's records are their emitting nodes in order, prefixes aside |
| `RustCodeAnalysis.FlattenShaped` | cargo-quality/src/toolchains/rust_code_analysis/mod.rs:97-148 | every record of a tree has the shape of a fresh record |
| `RustCodeAnalysis.FlattenChildrenShaped` | cargo-quality/src/toolchains/rust_code_analysis/mod.rs:131-147 | every record of the children has the shape of a fresh record |
| `RustCodeAnalysis.FlattenAllShaped` | cargo-quality/src/toolchains/rust_code_analysis/mod.rs:341-343 | every record of every analysed file has the shape of a fresh record |
| `RustCodeAnalysis.FuncSpaceStore.constructor` | cargo-quality/src/toolchains/rust_code_analysis/mod.rs:37 | the store starts empty |
| `RustCodeAnalysis.FuncSpaceStore.SaveFuncSpace` | cargo-quality/src/toolchains/rust_code_analysis/mod.rs:97-148 | appends exactly the tree's records, in order |
| `RustCodeAnalysis.FuncSpaceStore.SaveChildren` | cargo-quality/src/toolchains/rust_code_analysis/mod.rs:131-147 | appends the records of every child, in order, under the children's prefix |
| `RustCodeAnalysis.FuncSpaceStore.SaveOwnRecord` | cargo-quality/src/toolchains/rust_code_analysis/mod.rs:98-130 | appends the node's own record when it is a named unit or function, nothing otherwise |
| `RustCodeAnalysis.FormatFromStr` | cargo-quality/src/toolchains/rust_code_analysis/mod.rs:265-276 | accepts exactly the names `all` lists, case-sensitively, and yields the format with that name |
| `RustCodeAnalysis.FormatRoundTrip` | cargo-quality/src/toolchains/rust_code_analysis/mod.rs:160-276 | every format's name is listed and parses back to it |
| `RustCodeAnalysis.Extension` | cargo-quality/src/toolchains/rust_code_analysis/mod.rs:200-205 | every extension starts with a dot and is a safe file name |
| `RustCodeAnalysis.StripRoot` | cargo-quality/src/toolchains/rust_code_analysis/mod.rs:207-211 | leaves a suffix of the components; when nothing is removed, the first component is neither `/` nor `.` |
| `RustCodeAnalysis.CleanComponent` | cargo-quality/src/toolchains/rust_code_analysis/mod.rs:213-224 | no component is `..`; other components are unchanged |
| `RustCodeAnalysis.JoinedComponents` | cargo-quality/src/toolchains/rust_code_analysis/mod.rs:225-232 | the joined name holds no separator or drive character |
| `RustCodeAnalysis.JoinedStep` | cargo-quality/src/toolchains/rust_code_analysis/mod.rs:226-232 | one more component extends the name by that component and `___` when it is kept, and not at all otherwise |
| `RustCodeAnalysis.DumpNameShape` | cargo-quality/src/toolchains/rust_code_analysis/mod.rs:233 | dropping the last character and appending the extension keeps the fixed start and safety |
| `RustCodeAnalysis.DumpFileName` | cargo-quality/src/toolchains/rust_code_analysis/mod.rs:200-233 | every dump file name starts with `file_result__`, ends with the format's extension and cannot leave the output folder |
| `RustCodeAnalysis.OutputFileName` | cargo-quality/src/toolchains/rust_code_analysis/mod.rs:225-233 | the loop builds exactly the name `DumpFileName` describes |
| `RustCodeAnalysis.NumJobs` | cargo-quality/src/toolchains/rust_code_analysis/mod.rs:592-602 | at least one worker, one fewer than requested (or available) when that is at least two |
| `RustCodeAnalysis.Flag` | cargo-quality/src/toolchains/rust_code_analysis/mod.rs:663-686 | a flag is raised exactly when its threshold is strictly exceeded, functions only gain function flags, other records only the file flag, nothing else changes |
| `RustCodeAnalysis.FlagAll` | cargo-quality/src/toolchains/rust_code_analysis/mod.rs:662-688 | every record is flagged, in place and in order |
| `RustCodeAnalysis.CountLargeIsFlagged` | cargo-quality/src/toolchains/rust_code_analysis/mod.rs:658-688 | on records without the flag, each counter equals the number of records whose flag it raises |
| `RustCodeAnalysis.FreshRecordsCounted` | cargo-quality/src/toolchains/rust_code_analysis/mod.rs:658-688 | for freshly saved records each counter equals the number of records flagged |
| `RustCodeAnalysis.MeasureScore` | cargo-quality/src/toolchains/rust_code_analysis/mod.rs:702-743 | a score exists exactly when the six settings and four counts are present; it is at most 100, 0 once the penalty reaches the base, 100 without penalty, and the weighted score is at most the weight |
| `RustCodeAnalysis.MeasureScoreMonotone` | cargo-quality/src/toolchains/rust_code_analysis/mod.rs:725-735 | more over-long functions never raise the measure score |
| `RustCodeAnalysis.MergeMeasure` | cargo-quality/src/toolchains/rust_code_analysis/mod.rs:746-760 | only the measure slot can change; it gets both numbers when both are present, otherwise the report is unchanged |
| `RustCodeAnalysis.DetailsDir` | cargo-quality/src/toolchains/rust_code_analysis/mod.rs:522-524 | the details directory sits beside the result file |
| `RustCodeAnalysis.RustCodeAnalysis.constructor` | cargo-quality/src/toolchains/mod.rs:60-68 | a fresh adapter over the given store: no directories, no records copied, no phase results |
| `RustCodeAnalysis.RustCodeAnalysis.Check` | cargo-quality/src/toolchains/rust_code_analysis/mod.rs:506-644 | records the kept `src` directories; fails without touching the store when the details directory cannot be created; otherwise appends every tree's records |
| `RustCodeAnalysis.RustCodeAnalysis.Parse` | cargo-quality/src/toolchains/rust_code_analysis/mod.rs:648-699 | with the measure table the stored records are flagged in place, copied out and counted; otherwise nothing changes |
| `RustCodeAnalysis.RustCodeAnalysis.FlagRecords` | cargo-quality/src/toolchains/rust_code_analysis/mod.rs:658-688 | the loop flags every stored record, copies it, and returns the four counts |
| `RustCodeAnalysis.RustCodeAnalysis.FlagRecord` | cargo-quality/src/toolchains/rust_code_analysis/mod.rs:663-687 | one record's flagged form and a one for each threshold it exceeds |
| `RustCodeAnalysis.RustCodeAnalysis.Count` | cargo-quality/src/toolchains/rust_code_analysis/mod.rs:702-743 | the score is stored exactly when `MeasureScore` yields one; otherwise the old count stays |
| `RustCodeAnalysis.RustCodeAnalysis.Result` | cargo-quality/src/toolchains/rust_code_analysis/mod.rs:746-760 | the report gains the measure score as `MergeMeasure` says |
| `Toolchains.MakeResultPath` | cargo-quality/src/toolchains/mod.rs:75-83 | the tool's file sits one level below the directory and is named after the tool |
| `Toolchains.MakeResultPathInjective` | cargo-quality/src/toolchains/mod.rs:75-83 | two tools share a result file exactly when they are the same tool |
| `Toolchains.ToolProject` | cargo-quality/src/toolchains/mod.rs:35-39 | the tool keeps the project directory and manifest; only the result path changes |
| `Toolchains.MakeCheck` | cargo-quality/src/toolchains/mod.rs:30-70 | returns a fresh adapter of exactly the requested kind, with empty state and no phase results |
| `StaticCheckItem.StaticRun` | cargo-quality/src/check_item/static_check/mod.rs:36-50 | fails exactly when the result directory cannot be created or the lint file cannot be opened; otherwise only the static slot changes, and it holds a score of at most 100 exactly when the static table is complete |
| `StaticCheckItem.StaticCheck.Check` | cargo-quality/src/check_item/static_check/mod.rs:36-50 | the four phases, stopping at the first error, give the status and report `StaticRun` describes |
| `LicenseCheckItem.LicenseCounts` | cargo-quality/src/toolchains/cargo_deny/mod.rs:110-165 | counts exist exactly when both license lists are configured |
| `LicenseCheckItem.LicenseRun` | cargo-quality/src/check_item/license_check/mod.rs:37-51 | fails exactly when the result directory cannot be created or gathering fails; otherwise only the license slot changes, and it holds a score of at most 100 exactly when the license table is complete and names both lists |
| `LicenseCheckItem.LicenseCheck.Check` | cargo-quality/src/check_item/license_check/mod.rs:37-51 | the four phases, stopping at the first error, give the status and report `LicenseRun` describes |
| `MeasureCheckItem.MeasureCounts` | cargo-quality/src/toolchains/rust_code_analysis/mod.rs:653-694 | counts exist exactly when the measure table is configured, and then all four are present |
| `MeasureCheckItem.MeasureRun` | cargo-quality/src/check_item/measure_check/mod.rs:36-50 | fails exactly when the result or details directory cannot be created, leaving the store; otherwise adds one record per emitting node, and only the measure slot changes |
| `MeasureCheckItem.MeasureCheck.Check` | cargo-quality/src/check_item/measure_check/mod.rs:36-50 | the four phases, stopping at the first error, give the status, report and store `MeasureRun` describes |
| `CheckItem.MakeResultPath` | cargo-quality/src/check_item/mod.rs:44-52 | the item's directory sits one level below the result directory and is named after the kind |
| `CheckItem.MakeResultPathInjective` | cargo-quality/src/check_item/mod.rs:44-52 | two kinds share a directory exactly when they are the same kind |
| `CheckItem.MakeCheck` | cargo-quality/src/check_item/mod.rs:15-39 | an item of the requested kind and configuration, keeping the project directory and manifest, with the kind's own result directory |
| `CheckItem.ItemRun` | cargo-quality/src/check_item/mod.rs:9-12 | needing only what its own kind needs, a failing item leaves the store; a succeeding one changes only its own slot, which is either unchanged or scored at most 100; the store stays usable by a measure item |
| `CheckItem.RunnableOnStore` | cargo-quality/src/check_item/mod.rs:9-12 | only a measure item depends on the store, so an item stays runnable on any store that keeps the measure requirements |
| `CheckItem.RunItem` | cargo-quality/src/check_item/mod.rs:9-12 | dispatching `check`, under the item's own kind's needs, gives the status, report and store `ItemRun` describes |
| `Project.ProjectCfg` | cargo-quality/src/project/mod.rs:24-40 | the items start from the project directory, its `Cargo.toml` and the result directory |
| `Project.MakeItems` | cargo-quality/src/project/mod.rs:48-51 | one item per selected kind, in order, each with the configuration and its kind's result directory |
| `Project.RunAll` | cargo-quality/src/project/mod.rs:57-62 | with each selected item runnable by its own kind, running the items never changes the report's other slots and keeps the store usable by measure items |
| `Project.RunAllStep` | cargo-quality/src/project/mod.rs:57-60 | after a successful run of the first items, the next item can run and its outcome extends the run |
| `Project.RunAllStopsAtError` | cargo-quality/src/project/mod.rs:58-60 | after the first failing item nothing else runs: the outcome is that of the run up to it |
| `Project.UnselectedSlotUntouched` | cargo-quality/src/project/mod.rs:57-62 | a kind that is not selected keeps its slot |
| `Project.DefaultRunWithoutLintFile` | cargo-quality/src/project/mod.rs:17-62 | with the default selection and no lint file, the run fails with the report and store unchanged |
| `Project.StaticOnlyRunnable` | cargo-quality/src/project/mod.rs:17-48 | a run selecting only the static check needs nothing of the license or measure tables or the store |
| `Project.Project.constructor` | cargo-quality/src/project/mod.rs:41-47 | no items and an empty report |
| `Project.Project.New` | cargo-quality/src/project/mod.rs:17-54 | fails exactly when the working directory is unknown or the result directory cannot be created; otherwise one item per selected kind, in order, and an empty report |
| `Project.Project.Execute` | cargo-quality/src/project/mod.rs:57-62 | the status, report and store are those `RunAll` describes |
| `Project.Project.GetResult` | cargo-quality/src/project/mod.rs:63-65 | returns the report and changes nothing |

## Left out

- The external engines: running `cargo clippy`, cargo-deny's crate gathering and license store, and rust-code-analysis's parsing and metrics are foreign code. Their outcomes are inputs (`Environment.Env`): the lint file's lines, the gathered crates or the gathering error, the walked entries and the metric trees.
- File writing: `write_result_file` of the license and measure adapters, `util::cargo`'s output file and the metric dumps write files that nothing reads back. The file names are modelled (`RustCodeAnalysis.DumpFileName`); the serialised contents (TOML, JSON, CBOR, YAML) are not.
- Concurrency: the `rayon::join` of gathering and store loading, and the concurrent runner over the analysed files. The model runs them in sequence, and the trees arrive in the order the environment lists them.
- The rust-code-analysis command-line configuration built inside `check` (globsets, preprocessor data, language guessing, `act_on_file`'s other actions, `process_dir_path`): only the metrics path the adapter selects is modelled.
- `process::exit` when the output is not a directory or the runner fails: the details directory has just been created, and a runner failure is a foreign-code outcome.
- Panics are preconditions: a zero score base (the division in every `count`), an unset threshold read by `unwrap` in the measure `parse`, a function or file whose end line precedes its start line, a lint line whose `)` precedes its marker, and a top-level tree node without a name.
- `Project.RunAll`: requires every selected item to be runnable, including items after a failing one, which the source never reaches.
- Undecodable lines of the lint file: `lines().flatten()` (`toolchains/clippy/mod.rs:78-83`) silently drops a line that fails to read. The model takes the lines as the environment supplies them, after that dropping.
- `ResultInfo::details` is `unimplemented!()` in the source. The `StaticCheckResult`, `LicenseCheckResult` and `MeasureCheckResult` structs are constructed nowhere in the core, so their accessors are not modelled.
- `config::parse` (reading and deserialising the TOML configuration), the command-line layer, logging and the printed progress messages.
- Integer widths: counts, lines and scores are unbounded naturals. u64 overflow of a penalty product and `usize` wrap-around are not modelled.
