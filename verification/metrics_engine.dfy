/**
 * What the rust-code-analysis engine hands back for one source file: a
 * tree of function spaces (the file, its impls, functions, closures, ...),
 * each with its kind, line span and the two complexity metrics read from it.
 */
module MetricsEngine {
  import opened Wrappers

  /** The engine's space kinds. */
  datatype SpaceKind = Unknown | Function | Class | Struct | Trait | Impl | Unit | Namespace | Interface

  /**
   * One space and its nested spaces. `cognitive` and `cyclomatic` are the
   * engine's floating-point metrics after the `as usize` conversion.
   */
  datatype FuncSpace = FuncSpace(
    name: Option<string>,
    kind: SpaceKind,
    startLine: nat,
    endLine: nat,
    cognitive: nat,
    cyclomatic: nat,
    spaces: seq<FuncSpace>)
}
