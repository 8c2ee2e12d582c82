/** What one call of the crate builder produces, as functions of its inputs: the rustc, linker
    and library flags, the implicit inputs, the coverage paths, the clippy and rustc actions,
    the six entry points and the coverage archive. CrateProperties states their properties. */
module CrateSpec {
  import opened Wrappers
  import opened Seqs
  import opened Paths
  import opened Actions

  const Sysroot := "--sysroot=/dev/null"
  const Lto := "-C lto"

  // ---- rustc and linker flags ----

  function NameFlags(crateName: string): seq<string>
  {
    if crateName == "" then [] else ["--crate-name=" + crateName]
  }

  function TargetFlags(triple: string): seq<string>
  {
    if triple == "" then [] else ["--target=" + triple]
  }

  function LinkTargetFlags(triple: string): seq<string>
  {
    if triple == "" then [] else ["-target " + triple]
  }

  /** The flags passed to rustc (and to clippy-driver). */
  function RustcFlags(env: Env, flags: Flags, crateType: string, outputFile: Path): seq<string>
  {
    flags.globalRustFlags + flags.rustFlags + ["--crate-type=" + crateType]
      + NameFlags(env.crateName) + TargetFlags(env.rustTriple) + [Sysroot]
      + (if flags.coverage then [ProfileEmitFlag(env, outputFile)] else [])
  }

  /** The flags passed to the linker through rustc. */
  function LinkFlags(env: Env, flags: Flags): seq<string>
  {
    LinkTargetFlags(env.rustTriple) + flags.globalLinkFlags + flags.linkFlags
  }

  // ---- library flags and implicit inputs ----

  function ExternFlag(lib: RustLibrary): string
  {
    "--extern " + lib.crateName + "=" + lib.path.String()
  }

  function SearchFlag(dir: string): string
  {
    "-L " + dir
  }

  /** One `--extern` flag per library, in order. */
  function ExternFlags(libs: seq<RustLibrary>): seq<string>
  {
    seq(|libs|, i requires 0 <= i < |libs| => ExternFlag(libs[i]))
  }

  /** One `-L` flag per directory, in order. */
  function SearchFlags(dirs: seq<string>): seq<string>
  {
    seq(|dirs|, i requires 0 <= i < |dirs| => SearchFlag(dirs[i]))
  }

  function LibFlags(deps: PathDeps, linkDirs: seq<string>): seq<string>
  {
    ExternFlags(deps.rlibs) + ExternFlags(deps.dylibs) + ExternFlags(deps.procMacros) + SearchFlags(linkDirs)
  }

  /** The artifact of each library, in order. */
  function LibPaths(libs: seq<RustLibrary>): seq<Path>
  {
    seq(|libs|, i requires 0 <= i < |libs| => libs[i].path)
  }

  /** The crtbegin/crtend objects, present when crtBegin is set. */
  function CrtImplicits(deps: PathDeps): seq<Path>
    requires CrtPaired(deps)
  {
    if deps.crtBegin.Some? then [deps.crtBegin.value, deps.crtEnd.value] else []
  }

  /** The implicit inputs contributed by the dependencies. */
  function DepImplicits(deps: PathDeps): seq<Path>
    requires CrtPaired(deps)
  {
    LibPaths(deps.rlibs) + LibPaths(deps.dylibs) + LibPaths(deps.procMacros)
      + deps.staticLibs + deps.sharedLibs + CrtImplicits(deps)
  }

  // ---- coverage ----

  /** The name of a coverage file for `outputFile`: its extension replaced by `ext` when it has one,
      `ext` appended otherwise. */
  function CoverageName(outputFile: Path, ext: string): string
  {
    if outputFile.Ext() != "" then ReplaceExtension(outputFile.Base(), ext)
    else outputFile.Base() + "." + ext
  }

  function GcnoFile(env: Env, outputFile: Path): Path
  {
    ModuleOut(env, CoverageName(outputFile, "gcno"))
  }

  function GcdaFile(env: Env, outputFile: Path): Path
  {
    ModuleOut(env, CoverageName(outputFile, "gcda"))
  }

  /** The directory prefix of the coverage data path: the PWD prefix without its `PWD=`. */
  function ProfileEmitArg(env: Env): string
  {
    TrimPrefix(env.pwdPrefix, "PWD=") + "/"
  }

  function ProfileEmitFlag(env: Env, outputFile: Path): string
  {
    "-Z profile-emit=" + (ProfileEmitArg(env) + GcdaFile(env, outputFile).String())
  }

  function CoverageOutputs(env: Env, flags: Flags, outputFile: Path): seq<Path>
  {
    if flags.coverage then [GcnoFile(env, outputFile)] else []
  }

  function CrateOutput(env: Env, flags: Flags, outputFile: Path): BuildOutput
  {
    BuildOutput(outputFile, if flags.coverage then Some(GcnoFile(env, outputFile)) else None)
  }

  // ---- actions ----

  function ClippyFile(env: Env, outputFile: Path): Path
  {
    ModuleOut(env, outputFile.Base() + ".clippy")
  }

  function ClippyAction(env: Env, main: Path, deps: PathDeps, flags: Flags, outputFile: Path,
                        crateType: string, linkDirs: seq<string>): BuildAction
    requires CrtPaired(deps)
  {
    BuildAction(Clippy, "clippy " + main.Rel(), ClippyFile(env, outputFile), [], [main], DepImplicits(deps),
      ClippyArgs(rustcFlags := Join(RustcFlags(env, flags, crateType, outputFile), " "),
                 libFlags := Join(LibFlags(deps, linkDirs), " "),
                 clippyFlags := Join(flags.clippyFlags, " ")))
  }

  function RustcAction(env: Env, main: Path, deps: PathDeps, flags: Flags, outputFile: Path,
                       crateType: string, linkDirs: seq<string>): BuildAction
    requires CrtPaired(deps)
  {
    BuildAction(Rustc, "rustc " + main.Rel(), outputFile, CoverageOutputs(env, flags, outputFile), [main],
      DepImplicits(deps) + (if flags.clippy then [ClippyFile(env, outputFile)] else []),
      RustcArgs(rustcFlags := Join(RustcFlags(env, flags, crateType, outputFile), " "),
                linkFlags := Join(LinkFlags(env, flags), " "),
                libFlags := Join(LibFlags(deps, linkDirs), " "),
                crtBegin := OptionalString(deps.crtBegin),
                crtEnd := OptionalString(deps.crtEnd)))
  }

  /** The actions one crate build emits, in order. */
  function CrateActions(env: Env, main: Path, deps: PathDeps, flags: Flags, outputFile: Path,
                        crateType: string, linkDirs: seq<string>): seq<BuildAction>
    requires CrtPaired(deps)
  {
    (if flags.clippy then [ClippyAction(env, main, deps, flags, outputFile, crateType, linkDirs)] else [])
      + [RustcAction(env, main, deps, flags, outputFile, crateType, linkDirs)]
  }

  // ---- entry points ----

  /** The six kinds of crate the builder has an entry point for. */
  datatype CrateKind = Binary | Rlib | Dylib | Staticlib | Cdylib | ProcMacro
  {
    /** The --crate-type value the entry point passes. */
    function CrateType(): string
    {
      match this
      case Binary => "bin"
      case Rlib => "rlib"
      case Dylib => "dylib"
      case Staticlib => "staticlib"
      case Cdylib => "cdylib"
      case ProcMacro => "proc-macro"
    }

    /** Whether the entry point requests link-time optimisation. */
    predicate UsesLto()
    {
      match this
      case Binary => true
      case Staticlib => true
      case Cdylib => true
      case Rlib => false
      case Dylib => false
      case ProcMacro => false
    }
  }

  /** The flags an entry point hands on: `-C lto` appended to the unit's own rustc flags for LTO kinds. */
  function EntryFlags(kind: CrateKind, flags: Flags): Flags
  {
    if kind.UsesLto() then flags.(rustFlags := flags.rustFlags + [Lto]) else flags
  }

  function EntryActions(env: Env, kind: CrateKind, main: Path, deps: PathDeps, flags: Flags, outputFile: Path,
                        linkDirs: seq<string>): seq<BuildAction>
    requires CrtPaired(deps)
  {
    CrateActions(env, main, deps, EntryFlags(kind, flags), outputFile, kind.CrateType(), linkDirs)
  }

  // ---- coverage archive ----

  /** The archive the coverage files of a module are zipped into. */
  function ZipFile(env: Env, baseName: string): Path
  {
    ModuleOut(env, baseName + ".zip")
  }

  /** The archive, present only when there are coverage files to put in it. */
  function ZipOutput(env: Env, covFiles: seq<Path>, baseName: string): Option<Path>
  {
    if |covFiles| > 0 then Some(ZipFile(env, baseName)) else None
  }

  /** The actions archiving the coverage files: none, or one zip action over all of them. */
  function ZipActions(env: Env, covFiles: seq<Path>, baseName: string): seq<BuildAction>
  {
    if |covFiles| > 0 then
      var zip := ZipFile(env, baseName);
      [BuildAction(Zip, "zip " + zip.Base(), zip, [], covFiles, [], NoArgs)]
    else []
  }
}
