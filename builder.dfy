/** The crate builder itself: the six entry points, the shared crate builder, the conversion of
    library dependencies to paths and the coverage archive. Each method appends the actions it
    emits to the context's log; its postcondition says which, by way of CrateSpec. */
module Builder {
  import opened Wrappers
  import opened Seqs
  import opened Paths
  import opened Actions
  import opened CrateSpec
  import opened CrateProperties

  /** The artifact paths of `libs`, in order. */
  method RustLibsToPaths(libs: seq<RustLibrary>) returns (paths: seq<Path>)
    ensures |paths| == |libs|
    ensures forall i :: 0 <= i < |libs| ==> paths[i] == libs[i].path
    ensures paths == LibPaths(libs)
  {
    paths := [];
    for i := 0 to |libs|
      invariant paths == LibPaths(libs[..i])
    {
      assert libs[..i + 1][..i] == libs[..i];
      paths := paths + [libs[i].path];
    }
    assert libs[..|libs|] == libs;
  }

  /** The `--extern` flag of every Rust library dependency, rlibs then dylibs then proc-macros,
      followed by one `-L` flag per link directory. */
  method CollectLibFlags(deps: PathDeps, linkDirs: seq<string>) returns (libFlags: seq<string>)
    ensures libFlags == LibFlags(deps, linkDirs)
  {
    libFlags := [];
    for i := 0 to |deps.rlibs|
      invariant libFlags == ExternFlags(deps.rlibs[..i])
    {
      var lib := deps.rlibs[i];
      assert deps.rlibs[..i + 1][..i] == deps.rlibs[..i];
      libFlags := libFlags + ["--extern " + lib.crateName + "=" + lib.path.String()];
    }
    assert deps.rlibs[..|deps.rlibs|] == deps.rlibs;
    ghost var done := libFlags;
    for i := 0 to |deps.dylibs|
      invariant libFlags == done + ExternFlags(deps.dylibs[..i])
    {
      var lib := deps.dylibs[i];
      assert deps.dylibs[..i + 1][..i] == deps.dylibs[..i];
      libFlags := libFlags + ["--extern " + lib.crateName + "=" + lib.path.String()];
    }
    assert deps.dylibs[..|deps.dylibs|] == deps.dylibs;
    done := libFlags;
    for i := 0 to |deps.procMacros|
      invariant libFlags == done + ExternFlags(deps.procMacros[..i])
    {
      var procMacro := deps.procMacros[i];
      assert deps.procMacros[..i + 1][..i] == deps.procMacros[..i];
      libFlags := libFlags + ["--extern " + procMacro.crateName + "=" + procMacro.path.String()];
    }
    assert deps.procMacros[..|deps.procMacros|] == deps.procMacros;
    done := libFlags;
    for i := 0 to |linkDirs|
      invariant libFlags == done + SearchFlags(linkDirs[..i])
    {
      assert linkDirs[..i + 1][..i] == linkDirs[..i];
      libFlags := libFlags + ["-L " + linkDirs[i]];
    }
    assert linkDirs[..|linkDirs|] == linkDirs;
  }

  /** The implicit inputs the dependencies contribute: the Rust library artifacts, the native
      static and shared libraries, and the crtbegin/crtend objects when crtBegin is set. */
  method CollectDepImplicits(deps: PathDeps) returns (implicits: seq<Path>)
    requires CrtPaired(deps)
    ensures implicits == DepImplicits(deps)
  {
    implicits := [];
    var rlibPaths := RustLibsToPaths(deps.rlibs);
    implicits := implicits + rlibPaths;
    assert implicits == rlibPaths;
    var dylibPaths := RustLibsToPaths(deps.dylibs);
    implicits := implicits + dylibPaths;
    var procMacroPaths := RustLibsToPaths(deps.procMacros);
    implicits := implicits + procMacroPaths;
    implicits := implicits + deps.staticLibs;
    implicits := implicits + deps.sharedLibs;
    if deps.crtBegin.Some? {
      implicits := implicits + [deps.crtBegin.value, deps.crtEnd.value];
    }
    assert implicits == DepImplicits(deps);
  }

  /** The coverage files as the builder spells them out, branch by branch: replacing the extension
      when the output's base name has one and appending one when it has none both give the notes
      and data files named after the output's stem in the module output directory. */
  lemma {:induction false} CoverageFilesAsWritten(env: Env, outputFile: Path)
    ensures var base, dir := outputFile.Base(), env.moduleOutDir;
            outputFile.Ext() != "" ==>
              && ModuleOut(env, ReplaceExtension(base, "gcno")) == Path(dir, Stem(base) + ".gcno") == GcnoFile(env, outputFile)
              && ModuleOut(env, ReplaceExtension(base, "gcda")) == Path(dir, Stem(base) + ".gcda") == GcdaFile(env, outputFile)
    ensures var base, dir := outputFile.Base(), env.moduleOutDir;
            outputFile.Ext() == "" ==>
              && ModuleOut(env, base + ".gcno") == Path(dir, Stem(base) + ".gcno") == GcnoFile(env, outputFile)
              && ModuleOut(env, base + ".gcda") == Path(dir, Stem(base) + ".gcda") == GcdaFile(env, outputFile)
  {
    CoveragePaths(env, outputFile);
    CoverageNameStem(outputFile, "gcno");
    CoverageNameStem(outputFile, "gcda");
  }

  /** The rustc flags before the coverage flag, and the linker flags. */
  method CollectCompileFlags(env: Env, flags: Flags, crateType: string)
    returns (rustcFlags: seq<string>, linkFlags: seq<string>)
    ensures rustcFlags == flags.globalRustFlags + flags.rustFlags + ["--crate-type=" + crateType]
                          + NameFlags(env.crateName) + TargetFlags(env.rustTriple) + [Sysroot]
    ensures linkFlags == LinkFlags(env, flags)
  {
    rustcFlags := [];
    linkFlags := [];
    var crateName := env.crateName;
    var targetTriple := env.rustTriple;

    rustcFlags := rustcFlags + flags.globalRustFlags;
    assert rustcFlags == flags.globalRustFlags;
    rustcFlags := rustcFlags + flags.rustFlags;
    rustcFlags := rustcFlags + ["--crate-type=" + crateType];
    if crateName != "" {
      rustcFlags := rustcFlags + ["--crate-name=" + crateName];
    }
    assert rustcFlags == flags.globalRustFlags + flags.rustFlags + ["--crate-type=" + crateType] + NameFlags(crateName);
    if targetTriple != "" {
      rustcFlags := rustcFlags + ["--target=" + targetTriple];
      linkFlags := linkFlags + ["-target " + targetTriple];
    }
    // no implicit sysroot
    rustcFlags := rustcFlags + ["--sysroot=/dev/null"];

    linkFlags := linkFlags + flags.globalLinkFlags;
    linkFlags := linkFlags + flags.linkFlags;
  }

  /** The gcno notes file the compiler writes and the flag that sends the gcda data next to it. */
  method CoverageFlag(env: Env, outputFile: Path) returns (gcnoFile: Path, profileFlag: string)
    ensures gcnoFile == GcnoFile(env, outputFile)
    ensures profileFlag == ProfileEmitFlag(env, outputFile)
  {
    CoverageFilesAsWritten(env, outputFile);
    var profileEmitArg := TrimPrefix(env.pwdPrefix, "PWD=") + "/";
    if outputFile.Ext() != "" {
      gcnoFile := ModuleOut(env, ReplaceExtension(outputFile.Base(), "gcno"));
      profileFlag := "-Z profile-emit=" + (profileEmitArg
                     + ModuleOut(env, ReplaceExtension(outputFile.Base(), "gcda")).String());
    } else {
      gcnoFile := ModuleOut(env, outputFile.Base() + ".gcno");
      profileFlag := "-Z profile-emit=" + (profileEmitArg + ModuleOut(env, outputFile.Base() + ".gcda").String());
    }
  }

  /** Builds one crate: emits the optional clippy action and then the rustc action, and returns
      the artifact together with the coverage notes file when coverage is on. */
  method TransformSrcToCrate(ctx: ModuleContext, main: Path, deps: PathDeps, flags: Flags,
                             outputFile: Path, crateType: string, linkDirs: seq<string>)
    returns (output: BuildOutput)
    requires CrtPaired(deps)
    modifies ctx
    ensures output == CrateOutput(ctx.env, flags, outputFile)
    ensures ctx.actions == old(ctx.actions) + CrateActions(ctx.env, main, deps, flags, outputFile, crateType, linkDirs)
  {
    ghost var log := ctx.actions;
    var implicitOutputs: seq<Path> := [];
    output := BuildOutput(outputFile, None);
    var inputs := [main];

    var rustcFlags, linkFlags := CollectCompileFlags(ctx.env, flags, crateType);
    var libFlags := CollectLibFlags(deps, linkDirs);
    var implicits := CollectDepImplicits(deps);

    if flags.coverage {
      var gcnoFile, profileFlag := CoverageFlag(ctx.env, outputFile);
      rustcFlags := rustcFlags + [profileFlag];
      implicitOutputs := implicitOutputs + [gcnoFile];
      output := output.(coverageFile := Some(gcnoFile));
    }
    assert rustcFlags == RustcFlags(ctx.env, flags, crateType, outputFile);
    assert implicitOutputs == CoverageOutputs(ctx.env, flags, outputFile);

    var rustcFlagsArg := Join(rustcFlags, " ");
    var libFlagsArg := Join(libFlags, " ");
    if flags.clippy {
      var clippyFile := ModuleOut(ctx.env, outputFile.Base() + ".clippy");
      var clippy := BuildAction(Clippy, "clippy " + main.Rel(), clippyFile, [], inputs, implicits,
        ClippyArgs(rustcFlags := rustcFlagsArg,
                   libFlags := libFlagsArg,
                   clippyFlags := Join(flags.clippyFlags, " ")));
      assert clippy == ClippyAction(ctx.env, main, deps, flags, outputFile, crateType, linkDirs);
      ctx.Build(clippy);
      // the clippy run is an implicit dependency of the crate
      implicits := implicits + [clippyFile];
    }
    ghost var clippyPart := if flags.clippy
      then [ClippyAction(ctx.env, main, deps, flags, outputFile, crateType, linkDirs)] else [];
    assert ctx.actions == log + clippyPart;

    var rustc := BuildAction(Rustc, "rustc " + main.Rel(), outputFile, implicitOutputs, inputs, implicits,
      RustcArgs(rustcFlags := rustcFlagsArg,
                linkFlags := Join(linkFlags, " "),
                libFlags := libFlagsArg,
                crtBegin := OptionalString(deps.crtBegin),
                crtEnd := OptionalString(deps.crtEnd)));
    assert rustc == RustcAction(ctx.env, main, deps, flags, outputFile, crateType, linkDirs);
    ctx.Build(rustc);
    ConcatAssoc(log, clippyPart, [rustc]);
  }

  /** Builds a binary crate, with link-time optimisation. */
  method TransformSrcToBinary(ctx: ModuleContext, mainSrc: Path, deps: PathDeps, flags: Flags,
                              outputFile: Path, linkDirs: seq<string>)
    returns (output: BuildOutput)
    requires CrtPaired(deps)
    modifies ctx
    ensures output == CrateOutput(ctx.env, flags, outputFile)
    ensures ctx.actions == old(ctx.actions) + EntryActions(ctx.env, Binary, mainSrc, deps, flags, outputFile, linkDirs)
  {
    var ltoFlags := flags.(rustFlags := flags.rustFlags + ["-C lto"]);
    output := TransformSrcToCrate(ctx, mainSrc, deps, ltoFlags, outputFile, "bin", linkDirs);
  }

  /** Builds an rlib crate. */
  method TransformSrcToRlib(ctx: ModuleContext, mainSrc: Path, deps: PathDeps, flags: Flags,
                            outputFile: Path, linkDirs: seq<string>)
    returns (output: BuildOutput)
    requires CrtPaired(deps)
    modifies ctx
    ensures output == CrateOutput(ctx.env, flags, outputFile)
    ensures ctx.actions == old(ctx.actions) + EntryActions(ctx.env, Rlib, mainSrc, deps, flags, outputFile, linkDirs)
  {
    output := TransformSrcToCrate(ctx, mainSrc, deps, flags, outputFile, "rlib", linkDirs);
  }

  /** Builds a dylib crate. */
  method TransformSrcToDylib(ctx: ModuleContext, mainSrc: Path, deps: PathDeps, flags: Flags,
                             outputFile: Path, linkDirs: seq<string>)
    returns (output: BuildOutput)
    requires CrtPaired(deps)
    modifies ctx
    ensures output == CrateOutput(ctx.env, flags, outputFile)
    ensures ctx.actions == old(ctx.actions) + EntryActions(ctx.env, Dylib, mainSrc, deps, flags, outputFile, linkDirs)
  {
    output := TransformSrcToCrate(ctx, mainSrc, deps, flags, outputFile, "dylib", linkDirs);
  }

  /** Builds a static library crate, with link-time optimisation. */
  method TransformSrcToStatic(ctx: ModuleContext, mainSrc: Path, deps: PathDeps, flags: Flags,
                              outputFile: Path, linkDirs: seq<string>)
    returns (output: BuildOutput)
    requires CrtPaired(deps)
    modifies ctx
    ensures output == CrateOutput(ctx.env, flags, outputFile)
    ensures ctx.actions == old(ctx.actions) + EntryActions(ctx.env, Staticlib, mainSrc, deps, flags, outputFile, linkDirs)
  {
    var ltoFlags := flags.(rustFlags := flags.rustFlags + ["-C lto"]);
    output := TransformSrcToCrate(ctx, mainSrc, deps, ltoFlags, outputFile, "staticlib", linkDirs);
  }

  /** Builds a C-compatible shared library crate, with link-time optimisation. */
  method TransformSrcToShared(ctx: ModuleContext, mainSrc: Path, deps: PathDeps, flags: Flags,
                              outputFile: Path, linkDirs: seq<string>)
    returns (output: BuildOutput)
    requires CrtPaired(deps)
    modifies ctx
    ensures output == CrateOutput(ctx.env, flags, outputFile)
    ensures ctx.actions == old(ctx.actions) + EntryActions(ctx.env, Cdylib, mainSrc, deps, flags, outputFile, linkDirs)
  {
    var ltoFlags := flags.(rustFlags := flags.rustFlags + ["-C lto"]);
    output := TransformSrcToCrate(ctx, mainSrc, deps, ltoFlags, outputFile, "cdylib", linkDirs);
  }

  /** Builds a procedural macro crate. */
  method TransformSrcToProcMacro(ctx: ModuleContext, mainSrc: Path, deps: PathDeps, flags: Flags,
                                 outputFile: Path, linkDirs: seq<string>)
    returns (output: BuildOutput)
    requires CrtPaired(deps)
    modifies ctx
    ensures output == CrateOutput(ctx.env, flags, outputFile)
    ensures ctx.actions == old(ctx.actions) + EntryActions(ctx.env, ProcMacro, mainSrc, deps, flags, outputFile, linkDirs)
  {
    output := TransformSrcToCrate(ctx, mainSrc, deps, flags, outputFile, "proc-macro", linkDirs);
  }

  /** Zips the coverage files into `<baseName>.zip` under the module output directory; with no
      coverage files it emits nothing and returns an unset path. */
  method TransformCoverageFilesToZip(ctx: ModuleContext, covFiles: seq<Path>, baseName: string)
    returns (r: Option<Path>)
    modifies ctx
    ensures r == ZipOutput(ctx.env, covFiles, baseName)
    ensures ctx.actions == old(ctx.actions) + ZipActions(ctx.env, covFiles, baseName)
  {
    if |covFiles| > 0 {
      var outputFile := ModuleOut(ctx.env, baseName + ".zip");
      ctx.Build(BuildAction(Zip, "zip " + outputFile.Base(), outputFile, [], covFiles, [], NoArgs));
      return Some(outputFile);
    }
    return None;
  }
}
