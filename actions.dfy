/** The values a Rust compilation unit is described by, the build actions the builder emits,
    and the module context that collects them. */
module Actions {
  import opened Wrappers
  import opened Paths

  /** The ninja rule an action runs; the command templates themselves are not modelled. */
  datatype Rule = Rustc | Clippy | Zip

  /** One declarative build action handed to the build-graph engine. */
  datatype BuildAction = BuildAction(
    rule: Rule,
    description: string,
    output: Path,
    implicitOutputs: seq<Path>,
    inputs: seq<Path>,
    implicits: seq<Path>,
    args: RuleArgs)

  /** The values of the variables a rule's command template names; the zip rule names none. */
  datatype RuleArgs =
    | RustcArgs(rustcFlags: string, linkFlags: string, libFlags: string, crtBegin: string, crtEnd: string)
    | ClippyArgs(rustcFlags: string, libFlags: string, clippyFlags: string)
    | NoArgs

  /** A Rust library dependency: the crate name it is linked under and its artifact. */
  datatype RustLibrary = RustLibrary(crateName: string, path: Path)

  /** The resolved dependencies of one unit. */
  datatype PathDeps = PathDeps(
    rlibs: seq<RustLibrary>,
    dylibs: seq<RustLibrary>,
    procMacros: seq<RustLibrary>,
    staticLibs: seq<Path>,
    sharedLibs: seq<Path>,
    crtBegin: Option<Path>,
    crtEnd: Option<Path>)

  /** The builder asks for the crtEnd path whenever crtBegin is set; asking an unset
      optional path for its value panics, so callers must pair them. */
  predicate CrtPaired(deps: PathDeps)
  {
    deps.crtBegin.Some? ==> deps.crtEnd.Some?
  }

  /** An optional path as a string: "" when unset. */
  function OptionalString(p: Option<Path>): string
  {
    if p.Some? then p.value.String() else ""
  }

  /** The flag configuration of one unit. */
  datatype Flags = Flags(
    globalRustFlags: seq<string>,
    rustFlags: seq<string>,
    globalLinkFlags: seq<string>,
    linkFlags: seq<string>,
    clippyFlags: seq<string>,
    coverage: bool,
    clippy: bool)

  /** What the builder returns: the artifact and, with coverage, the notes (.gcno) file. */
  datatype BuildOutput = BuildOutput(outputFile: Path, coverageFile: Option<Path>)

  /** Values the builder obtains from its surroundings: the module's crate name, the toolchain's
      target triple, the PWD prefix used for coverage data, and the module's output directory. */
  datatype Env = Env(crateName: string, rustTriple: string, pwdPrefix: string, moduleOutDir: string)

  /** A path under the module's output directory. */
  function ModuleOut(env: Env, name: string): Path
  {
    Path(env.moduleOutDir, name)
  }

  /** The module context: fixed surroundings and the log of actions emitted so far. */
  class ModuleContext {
    const env: Env
    var actions: seq<BuildAction>

    constructor (env: Env)
      ensures this.env == env && actions == []
    {
      this.env := env;
      actions := [];
    }

    /** Registers one action with the build graph. */
    method Build(a: BuildAction)
      modifies this
      ensures actions == old(actions) + [a]
    {
      actions := actions + [a];
    }
  }
}
