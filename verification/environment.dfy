/**
 * What the outside world answers during one evaluation: the file system,
 * the analysers' outputs and the project walk. The model takes these as
 * inputs instead of performing the I/O.
 */
module Environment {
  import opened Wrappers
  import opened Config
  import Util
  import CargoDeny
  import Engine = MetricsEngine

  /**
   * - `failingDirs`: the directories `create_dir_all` cannot create;
   * - `files`: the lines of every file that can be opened (Clippy's lint file among them);
   * - `gathered`: the crates cargo-deny's gatherer finds, with their licenses, or its error;
   * - `walk`: the entries of the walk of the project directory;
   * - `spaces`: the function-space trees rust-code-analysis computes for the analysed files.
   */
  datatype Env = Env(
    failingDirs: set<Path>,
    files: map<Path, seq<string>>,
    gathered: Outcome<seq<CargoDeny.KrateLicenseNfo>>,
    walk: seq<Util.DirEntry>,
    spaces: seq<Engine.FuncSpace>)
}
