/** Properties of the crate builder's output, proved about the functions of CrateSpec. */
module CrateProperties {
  import opened Wrappers
  import opened Seqs
  import opened Paths
  import opened Actions
  import opened CrateSpec

  /** A one-element list holds no flag starting with `p` when the flag differs from `p` at index `i`. */
  lemma CountMismatch(x: string, p: string, i: nat)
    requires i < |p| && i < |x| && p[i] != x[i]
    ensures CountPrefixed([x], p) == 0
  {
    assert [x][1..] == [];
  }

  /** The same, for a flag made of a fixed head and a variable rest, differing from `p` inside the head. */
  lemma {:induction false} CountMismatchHead(head: string, rest: string, p: string, i: nat)
    requires i < |p| && i < |head| && p[i] != head[i]
    ensures CountPrefixed([head + rest], p) == 0
  {
    assert (head + rest)[i] == head[i];
    CountMismatch(head + rest, p, i);
  }

  /** A flag made of a fixed head and a variable rest differs from `y` when the head does. */
  lemma {:induction false} DiffersInHead(head: string, rest: string, y: string, i: nat)
    requires i < |y| && i < |head| && y[i] != head[i]
    ensures head + rest != y
  {
    assert (head + rest)[i] == head[i];
  }

  lemma CountMatch(x: string, p: string)
    requires p <= x
    ensures CountPrefixed([x], p) == 1
  {
    assert [x][1..] == [];
  }

  /** Counting over the six pieces rustc's flags are made of. */
  lemma CountPieces(u: seq<string>, a: seq<string>, n: seq<string>, t: seq<string>, s: seq<string>,
                    c: seq<string>, p: string)
    ensures CountPrefixed(u + a + n + t + s + c, p)
         == CountPrefixed(u, p) + CountPrefixed(a, p) + CountPrefixed(n, p) + CountPrefixed(t, p)
          + CountPrefixed(s, p) + CountPrefixed(c, p)
  {
    CountPrefixedConcat(u + a + n + t + s, c, p);
    CountPrefixedConcat(u + a + n + t, s, p);
    CountPrefixedConcat(u + a + n, t, p);
    CountPrefixedConcat(u + a, n, p);
    CountPrefixedConcat(u, a, p);
  }

  /** Which of the counted prefixes the coverage flag carries. */
  lemma {:induction false} ProfileEmitFlagCounts(env: Env, outputFile: Path)
    ensures CountPrefixed([ProfileEmitFlag(env, outputFile)], "--crate-name=") == 0
    ensures CountPrefixed([ProfileEmitFlag(env, outputFile)], "--target=") == 0
    ensures CountPrefixed([ProfileEmitFlag(env, outputFile)], "-Z profile-emit=") == 1
    ensures ProfileEmitFlag(env, outputFile) != Lto
  {
    ProfileFlagCounts(ProfileEmitArg(env) + GcdaFile(env, outputFile).String());
  }

  /** The same for any flag starting with `-Z profile-emit=`, whatever follows. */
  lemma {:induction false} ProfileFlagCounts(rest: string)
    ensures CountPrefixed(["-Z profile-emit=" + rest], "--crate-name=") == 0
    ensures CountPrefixed(["-Z profile-emit=" + rest], "--target=") == 0
    ensures CountPrefixed(["-Z profile-emit=" + rest], "-Z profile-emit=") == 1
    ensures "-Z profile-emit=" + rest != Lto
  {
    var h := "-Z profile-emit=";
    CountMismatchHead(h, rest, "--crate-name=", 1);
    CountMismatchHead(h, rest, "--target=", 1);
    CountMatch(h + rest, h);
    DiffersInHead(h, rest, Lto, 1);
  }

  /** How many flags of each counted kind the crate-type flag carries: none. */
  lemma {:induction false} CrateTypeFlagCounts(crateType: string)
    ensures CountPrefixed(["--crate-type=" + crateType], "--crate-name=") == 0
    ensures CountPrefixed(["--crate-type=" + crateType], "--target=") == 0
    ensures CountPrefixed(["--crate-type=" + crateType], "-Z profile-emit=") == 0
    ensures "--crate-type=" + crateType != Lto
  {
    DiffersInHead("--crate-type=", crateType, Lto, 1);
    CountMismatchHead("--crate-type=", crateType, "--crate-name=", 8);
    CountMismatchHead("--crate-type=", crateType, "--target=", 2);
    CountMismatchHead("--crate-type=", crateType, "-Z profile-emit=", 1);
  }

  /** The name flags carry one `--crate-name=` flag exactly when the name is non-empty, and no
      flag of the other counted kinds. */
  lemma {:induction false} NameFlagsCounts(name: string)
    ensures CountPrefixed(NameFlags(name), "--crate-name=") == (if name == "" then 0 else 1)
    ensures CountPrefixed(NameFlags(name), "--target=") == 0
    ensures CountPrefixed(NameFlags(name), "-Z profile-emit=") == 0
    ensures Lto !in NameFlags(name)
  {
    if name != "" {
      DiffersInHead("--crate-name=", name, Lto, 1);
      CountMatch("--crate-name=" + name, "--crate-name=");
      CountMismatchHead("--crate-name=", name, "--target=", 2);
      CountMismatchHead("--crate-name=", name, "-Z profile-emit=", 1);
    }
  }

  /** The target flags carry one `--target=` flag exactly when the triple is non-empty, and no
      flag of the other counted kinds. */
  lemma {:induction false} TargetFlagsCounts(triple: string)
    ensures CountPrefixed(TargetFlags(triple), "--crate-name=") == 0
    ensures CountPrefixed(TargetFlags(triple), "--target=") == (if triple == "" then 0 else 1)
    ensures CountPrefixed(TargetFlags(triple), "-Z profile-emit=") == 0
    ensures Lto !in TargetFlags(triple)
  {
    if triple != "" {
      DiffersInHead("--target=", triple, Lto, 1);
      CountMismatchHead("--target=", triple, "--crate-name=", 2);
      CountMatch("--target=" + triple, "--target=");
      CountMismatchHead("--target=", triple, "-Z profile-emit=", 1);
    }
  }

  /** The null sysroot flag is of none of the counted kinds. */
  lemma {:induction false} SysrootCounts()
    ensures CountPrefixed([Sysroot], "--crate-name=") == 0
    ensures CountPrefixed([Sysroot], "--target=") == 0
    ensures CountPrefixed([Sysroot], "-Z profile-emit=") == 0
    ensures Sysroot != Lto
  {
    assert Sysroot[1] != Lto[1];
    CountMismatch(Sysroot, "--crate-name=", 2);
    CountMismatch(Sysroot, "--target=", 2);
    CountMismatch(Sysroot, "-Z profile-emit=", 1);
  }

  /** The coverage part of rustc's flags carries one profile flag exactly when coverage is on. */
  lemma {:induction false} CoverageFlagCounts(env: Env, flags: Flags, outputFile: Path)
    ensures var c := if flags.coverage then [ProfileEmitFlag(env, outputFile)] else [];
            && CountPrefixed(c, "--crate-name=") == 0
            && CountPrefixed(c, "--target=") == 0
            && CountPrefixed(c, "-Z profile-emit=") == (if flags.coverage then 1 else 0)
            && Lto !in c
  {
    if flags.coverage {
      ProfileEmitFlagCounts(env, outputFile);
    }
  }

  /** rustc's flags, in order: the global flags, the unit's flags, the crate type, the crate name
      when there is one, the target when there is one, the null sysroot, and the coverage
      profile flag last when coverage is on. */
  lemma {:induction false} RustcFlagsOrder(env: Env, flags: Flags, crateType: string, outputFile: Path)
    ensures var rf := RustcFlags(env, flags, crateType, outputFile);
            var n := |flags.globalRustFlags| + |flags.rustFlags|;
            var k := n + 1 + |NameFlags(env.crateName)| + |TargetFlags(env.rustTriple)|;
            && |rf| == k + 1 + (if flags.coverage then 1 else 0)
            && rf[..n] == flags.globalRustFlags + flags.rustFlags
            && rf[n] == "--crate-type=" + crateType
            && (env.crateName != "" ==> rf[n + 1] == "--crate-name=" + env.crateName)
            && (env.rustTriple != "" ==> rf[k - 1] == "--target=" + env.rustTriple)
            && rf[k] == Sysroot
            && rf[|rf| - 1] == (if flags.coverage then ProfileEmitFlag(env, outputFile) else Sysroot)
  {
  }

  /** The crate name flag appears exactly once when the name is non-empty and not at all when it is
      empty, beyond whatever the configured flag lists carry. */
  lemma {:induction false} CrateNameFlagCount(env: Env, flags: Flags, crateType: string, outputFile: Path)
    ensures CountPrefixed(RustcFlags(env, flags, crateType, outputFile), "--crate-name=")
         == CountPrefixed(flags.globalRustFlags + flags.rustFlags, "--crate-name=")
          + (if env.crateName == "" then 0 else 1)
  {
    CountPieces(flags.globalRustFlags + flags.rustFlags, ["--crate-type=" + crateType], NameFlags(env.crateName),
                TargetFlags(env.rustTriple), [Sysroot], if flags.coverage then [ProfileEmitFlag(env, outputFile)] else [],
                "--crate-name=");
    CrateTypeFlagCounts(crateType);
    NameFlagsCounts(env.crateName);
    TargetFlagsCounts(env.rustTriple);
    SysrootCounts();
    CoverageFlagCounts(env, flags, outputFile);
  }

  /** The target flag of rustc appears once exactly when the triple is non-empty. */
  lemma {:induction false} RustcTargetFlagCount(env: Env, flags: Flags, crateType: string, outputFile: Path)
    ensures CountPrefixed(RustcFlags(env, flags, crateType, outputFile), "--target=")
         == CountPrefixed(flags.globalRustFlags + flags.rustFlags, "--target=")
          + (if env.rustTriple == "" then 0 else 1)
  {
    CountPieces(flags.globalRustFlags + flags.rustFlags, ["--crate-type=" + crateType], NameFlags(env.crateName),
                TargetFlags(env.rustTriple), [Sysroot], if flags.coverage then [ProfileEmitFlag(env, outputFile)] else [],
                "--target=");
    CrateTypeFlagCounts(crateType);
    NameFlagsCounts(env.crateName);
    TargetFlagsCounts(env.rustTriple);
    SysrootCounts();
    CoverageFlagCounts(env, flags, outputFile);
  }

  /** The linker's target flag comes first, and only when the triple is non-empty; the configured
      link flags follow unchanged, global ones before the unit's own. */
  lemma {:induction false} LinkFlagsOrder(env: Env, flags: Flags)
    ensures env.rustTriple == "" ==> LinkFlags(env, flags) == flags.globalLinkFlags + flags.linkFlags
    ensures env.rustTriple != "" ==> LinkFlags(env, flags) == ["-target " + env.rustTriple] + flags.globalLinkFlags + flags.linkFlags
    ensures CountPrefixed(LinkFlags(env, flags), "-target ")
         == CountPrefixed(flags.globalLinkFlags + flags.linkFlags, "-target ")
          + (if env.rustTriple == "" then 0 else 1)
  {
    var t := LinkTargetFlags(env.rustTriple);
    CountPrefixedConcat(t + flags.globalLinkFlags, flags.linkFlags, "-target ");
    CountPrefixedConcat(t, flags.globalLinkFlags, "-target ");
    CountPrefixedConcat(flags.globalLinkFlags, flags.linkFlags, "-target ");
    if env.rustTriple != "" {
      CountMatch("-target " + env.rustTriple, "-target ");
    }
  }

  /** With coverage on, exactly one profile-emit flag is added; with it off, none. */
  lemma {:induction false} ProfileEmitFlagCount(env: Env, flags: Flags, crateType: string, outputFile: Path)
    ensures CountPrefixed(RustcFlags(env, flags, crateType, outputFile), "-Z profile-emit=")
         == CountPrefixed(flags.globalRustFlags + flags.rustFlags, "-Z profile-emit=")
          + (if flags.coverage then 1 else 0)
  {
    CountPieces(flags.globalRustFlags + flags.rustFlags, ["--crate-type=" + crateType], NameFlags(env.crateName),
                TargetFlags(env.rustTriple), [Sysroot], if flags.coverage then [ProfileEmitFlag(env, outputFile)] else [],
                "-Z profile-emit=");
    CrateTypeFlagCounts(crateType);
    NameFlagsCounts(env.crateName);
    TargetFlagsCounts(env.rustTriple);
    SysrootCounts();
    CoverageFlagCounts(env, flags, outputFile);
  }

  /** The kinds built with link-time optimisation are exactly those of crate type `bin`,
      `staticlib` and `cdylib`. */
  lemma EntryLtoKinds(kind: CrateKind)
    ensures kind.UsesLto() <==> kind.CrateType() in {"bin", "staticlib", "cdylib"}
  {
  }

  /** The entry points: Binary, Staticlib and Cdylib, the kinds whose crate type is `bin`,
      `staticlib` or `cdylib`, append `-C lto` to the unit's own flags, so it lands after the
      configured flags and just before everything the builder adds for the crate type (which
      starts with `--crate-type=`); Rlib, Dylib and ProcMacro add nothing. Nothing else about the
      flags changes. */
  lemma {:induction false} EntryLtoPlacement(env: Env, kind: CrateKind, flags: Flags, outputFile: Path)
    ensures EntryFlags(kind, flags).(rustFlags := flags.rustFlags) == flags
    ensures RustcFlags(env, EntryFlags(kind, flags), kind.CrateType(), outputFile)
         == flags.globalRustFlags + flags.rustFlags + (if kind.UsesLto() then [Lto] else [])
            + RustcFlags(env, flags.(globalRustFlags := [], rustFlags := []), kind.CrateType(), outputFile)
  {
    var ef := EntryFlags(kind, flags);
    var ct := kind.CrateType();
    var tail := RustcFlags(env, flags.(globalRustFlags := [], rustFlags := []), ct, outputFile);
    var builderAdds := ["--crate-type=" + ct] + NameFlags(env.crateName) + TargetFlags(env.rustTriple) + [Sysroot]
      + (if flags.coverage then [ProfileEmitFlag(env, outputFile)] else []);
    assert tail == builderAdds;
    var lto: seq<string> := if kind.UsesLto() then [Lto] else [];
    assert ef.globalRustFlags + ef.rustFlags == flags.globalRustFlags + flags.rustFlags + lto;
    var a, nm, t, c := ["--crate-type=" + ct], NameFlags(env.crateName), TargetFlags(env.rustTriple),
                       if flags.coverage then [ProfileEmitFlag(env, outputFile)] else [];
    var pre := flags.globalRustFlags + flags.rustFlags + lto;
    ConcatAssoc(pre, a + nm + t + [Sysroot], c);
    ConcatAssoc(pre, a + nm + t, [Sysroot]);
    ConcatAssoc(pre, a + nm, t);
    ConcatAssoc(pre, a, nm);
  }

  /** None of the flags the builder adds for the crate is `-C lto`. */
  lemma {:induction false} LtoNotAdded(env: Env, flags: Flags, crateType: string, outputFile: Path)
    ensures Lto !in RustcFlags(env, flags.(globalRustFlags := [], rustFlags := []), crateType, outputFile)
  {
    CrateTypeFlagCounts(crateType);
    NameFlagsCounts(env.crateName);
    TargetFlagsCounts(env.rustTriple);
    SysrootCounts();
    CoverageFlagCounts(env, flags, outputFile);
  }

  /** Occurrences in three lists, one after the other, add up. */
  lemma OccurrencesConcat<T>(a: seq<T>, b: seq<T>, c: seq<T>, x: T)
    ensures multiset(a + b + c)[x] == multiset(a)[x] + multiset(b)[x] + multiset(c)[x]
  {
    assert multiset(a + b + c) == multiset(a) + multiset(b) + multiset(c);
  }

  /** `-C lto` occurs in rustc's flags once more than in the configured lists for the LTO kinds,
      and exactly as often for the others. */
  lemma {:induction false} EntryLtoCount(env: Env, kind: CrateKind, flags: Flags, outputFile: Path)
    ensures multiset(RustcFlags(env, EntryFlags(kind, flags), kind.CrateType(), outputFile))[Lto]
         == multiset(flags.globalRustFlags + flags.rustFlags)[Lto] + (if kind.UsesLto() then 1 else 0)
  {
    var ct := kind.CrateType();
    var tail := RustcFlags(env, flags.(globalRustFlags := [], rustFlags := []), ct, outputFile);
    EntryLtoPlacement(env, kind, flags, outputFile);
    LtoNotAdded(env, flags, ct, outputFile);
    var lto: seq<string> := if kind.UsesLto() then [Lto] else [];
    assert multiset(lto)[Lto] == (if kind.UsesLto() then 1 else 0);
    OccurrencesConcat(flags.globalRustFlags + flags.rustFlags, lto, tail, Lto);
  }

  /** The `--extern` flags of two library lists, one after the other, are those of the joined list. */
  lemma {:induction false} ExternFlagsConcat(x: seq<RustLibrary>, y: seq<RustLibrary>)
    ensures ExternFlags(x + y) == ExternFlags(x) + ExternFlags(y)
  {
    var l, r := ExternFlags(x + y), ExternFlags(x) + ExternFlags(y);
    forall i | 0 <= i < |x| + |y|
      ensures l[i] == r[i]
    {
      if i < |x| {
        assert (x + y)[i] == x[i];
      } else {
        assert (x + y)[i] == y[i - |x|];
      }
    }
  }

  /** The artifacts of two library lists, one after the other, are those of the joined list. */
  lemma {:induction false} LibPathsConcat(x: seq<RustLibrary>, y: seq<RustLibrary>)
    ensures LibPaths(x + y) == LibPaths(x) + LibPaths(y)
  {
    var l, r := LibPaths(x + y), LibPaths(x) + LibPaths(y);
    forall i | 0 <= i < |x| + |y|
      ensures l[i] == r[i]
    {
      if i < |x| {
        assert (x + y)[i] == x[i];
      } else {
        assert (x + y)[i] == y[i - |x|];
      }
    }
  }

  /** The library flags are one `--extern name=path` flag per Rust dependency, taking the rlibs,
      then the dylibs, then the proc-macros, each in list order, followed by one `-L dir` flag per
      link directory. */
  lemma {:induction false} LibFlagsLayout(deps: PathDeps, linkDirs: seq<string>)
    ensures LibFlags(deps, linkDirs) == ExternFlags(deps.rlibs + deps.dylibs + deps.procMacros) + SearchFlags(linkDirs)
    ensures |LibFlags(deps, linkDirs)| == |deps.rlibs| + |deps.dylibs| + |deps.procMacros| + |linkDirs|
  {
    ExternFlagsConcat(deps.rlibs, deps.dylibs);
    ExternFlagsConcat(deps.rlibs + deps.dylibs, deps.procMacros);
  }

  /** The implicit inputs contributed by the dependencies: the artifacts of the rlibs, dylibs and
      proc-macros in that order, the static and shared libraries, and the crtbegin/crtend pair
      last exactly when crtBegin is set; the link directories are not among them. */
  lemma {:induction false} DepImplicitsLayout(deps: PathDeps)
    requires CrtPaired(deps)
    ensures DepImplicits(deps)
         == LibPaths(deps.rlibs + deps.dylibs + deps.procMacros) + deps.staticLibs + deps.sharedLibs
            + (if deps.crtBegin.Some? then [deps.crtBegin.value, deps.crtEnd.value] else [])
    ensures |DepImplicits(deps)|
         == |deps.rlibs| + |deps.dylibs| + |deps.procMacros| + |deps.staticLibs| + |deps.sharedLibs|
            + (if deps.crtBegin.Some? then 2 else 0)
  {
    LibPathsConcat(deps.rlibs, deps.dylibs);
    LibPathsConcat(deps.rlibs + deps.dylibs, deps.procMacros);
  }

  /** Coverage file names keep the output's stem: the extension is replaced when the base name has
      one and `.ext` is appended when it has none, which is what replacing the extension does in
      both cases, so the notes and data files differ only in it. */
  lemma {:induction false} CoverageNameStem(outputFile: Path, ext: string)
    ensures CoverageName(outputFile, ext) == ReplaceExtension(outputFile.Base(), ext)
    ensures CoverageName(outputFile, ext) == Stem(outputFile.Base()) + "." + ext
    ensures outputFile.Ext() == "" ==> Stem(outputFile.Base()) == outputFile.Base()
  {
    SplitExtension(outputFile.Base());
    ReplaceExtensionStem(outputFile.Base(), ext);
  }

  /** Coverage artifacts exist exactly when coverage is on: then the notes file is the one implicit
      output of the rustc action and the returned coverage file. */
  lemma CoverageArtifacts(env: Env, main: Path, deps: PathDeps, flags: Flags, outputFile: Path,
                            crateType: string, linkDirs: seq<string>)
    requires CrtPaired(deps)
    ensures var out := CrateOutput(env, flags, outputFile);
            var act := RustcAction(env, main, deps, flags, outputFile, crateType, linkDirs);
            && out.outputFile == outputFile
            && (out.coverageFile.Some? <==> flags.coverage)
            && (flags.coverage ==> out.coverageFile == Some(GcnoFile(env, outputFile))
                                   && act.implicitOutputs == [GcnoFile(env, outputFile)])
            && (!flags.coverage ==> act.implicitOutputs == [])
  {
  }

  /** The notes and data files sit side by side in the module's output directory under the
      output's stem. */
  lemma CoveragePaths(env: Env, outputFile: Path)
    ensures var stem := Stem(outputFile.Base());
            && GcnoFile(env, outputFile) == Path(env.moduleOutDir, stem + ".gcno")
            && GcdaFile(env, outputFile) == Path(env.moduleOutDir, stem + ".gcda")
  {
    CoverageFileStem(env, outputFile, "gcno");
    CoverageFileStem(env, outputFile, "gcda");
    CoverageSuffixes();
  }

  lemma CoverageSuffixes()
    ensures "." + "gcno" == ".gcno" && "." + "gcda" == ".gcda"
  {
    assert ("." + "gcno")[1..] == "gcno";
    assert ("." + "gcda")[1..] == "gcda";
  }

  /** A coverage file with extension `ext` is the output's stem plus `.ext` in the output directory. */
  lemma {:induction false} CoverageFileStem(env: Env, outputFile: Path, ext: string)
    ensures ModuleOut(env, CoverageName(outputFile, ext)) == Path(env.moduleOutDir, Stem(outputFile.Base()) + ("." + ext))
  {
    CoverageNameStem(outputFile, ext);
    ConcatAssoc(Stem(outputFile.Base()), ".", ext);
  }

  /** One crate build emits the rustc action, preceded by the clippy action exactly when clippy is
      on. Both read the main source only; the clippy marker is the last implicit input of the rustc
      action and the clippy action's own implicits are the dependency implicits alone. */
  lemma CrateActionsShape(env: Env, main: Path, deps: PathDeps, flags: Flags, outputFile: Path,
                          crateType: string, linkDirs: seq<string>)
    requires CrtPaired(deps)
    ensures var acts := CrateActions(env, main, deps, flags, outputFile, crateType, linkDirs);
            var rustc := acts[|acts| - 1];
            var rf := Join(RustcFlags(env, flags, crateType, outputFile), " ");
            var lib := Join(LibFlags(deps, linkDirs), " ");
            && |acts| == (if flags.clippy then 2 else 1)
            && rustc.rule == Rustc && rustc.output == outputFile && rustc.inputs == [main]
            && rustc.implicits == DepImplicits(deps)
                                  + (if flags.clippy then [Path(env.moduleOutDir, outputFile.Base() + ".clippy")] else [])
            && rustc.args == RustcArgs(rf, Join(LinkFlags(env, flags), " "), lib,
                                       OptionalString(deps.crtBegin), OptionalString(deps.crtEnd))
            && (flags.clippy ==>
                  && acts[0].rule == Clippy
                  && acts[0].output == Path(env.moduleOutDir, outputFile.Base() + ".clippy")
                  && acts[0].implicitOutputs == []
                  && acts[0].inputs == [main]
                  && acts[0].implicits == DepImplicits(deps)
                  && acts[0].args == ClippyArgs(rf, lib, Join(flags.clippyFlags, " ")))
  {
  }

  /** The coverage archive exists exactly when there are coverage files: then one zip action
      reads all of them, in order, and writes `<baseName>.zip` in the module's output directory,
      described by that file name when the base name has no directory part. */
  lemma ZipArchiveShape(env: Env, covFiles: seq<Path>, baseName: string)
    ensures var r := ZipOutput(env, covFiles, baseName);
            var acts := ZipActions(env, covFiles, baseName);
            && (r.None? <==> covFiles == [])
            && |acts| == (if covFiles == [] then 0 else 1)
            && (r.Some? ==>
                  && r.value == Path(env.moduleOutDir, baseName + ".zip")
                  && acts[0].rule == Zip && acts[0].output == r.value
                  && acts[0].inputs == covFiles && acts[0].implicits == [] && acts[0].implicitOutputs == []
                  && ('/' !in baseName ==> acts[0].description == "zip " + baseName + ".zip"))
  {
    if covFiles != [] && '/' !in baseName {
      ZipFileBase(env, baseName);
    }
  }

  /** The archive of a base name without a separator is named by the base name plus `.zip`. */
  lemma {:induction false} ZipFileBase(env: Env, baseName: string)
    requires '/' !in baseName
    ensures ZipFile(env, baseName).Base() == baseName + ".zip"
  {
    var zip := ZipFile(env, baseName);
    assert '/' !in zip.rel by {
      forall k | 0 <= k < |zip.rel|
        ensures zip.rel[k] != '/'
      {
        if k < |baseName| {
          assert zip.rel[k] == baseName[k];
        } else {
          assert zip.rel[k] == ".zip"[k - |baseName|];
        }
      }
    }
    BaseOfFlatRel(zip);
  }

  /** Two dependencies, one rlib and one dylib, give two `--extern` flags in that order and both
      artifacts as implicit inputs. */
  lemma LibFlagsExample()
    ensures var deps := PathDeps([RustLibrary("alpha", Path("/out", "liba.rlib"))],
                                 [RustLibrary("beta", Path("/out", "libb.so"))], [], [], [], None, None);
            && LibFlags(deps, []) == ["--extern alpha=/out/liba.rlib", "--extern beta=/out/libb.so"]
            && DepImplicits(deps) == [Path("/out", "liba.rlib"), Path("/out", "libb.so")]
  {
    ExternFlagOfRlib();
    ExternFlagOfDylib();
  }

  lemma ExternFlagOfRlib()
    ensures ExternFlag(RustLibrary("alpha", Path("/out", "liba.rlib"))) == "--extern alpha=/out/liba.rlib"
  {
  }

  lemma ExternFlagOfDylib()
    ensures ExternFlag(RustLibrary("beta", Path("/out", "libb.so"))) == "--extern beta=/out/libb.so"
  {
  }

  lemma LastDotOfExample()
    ensures LastIndex("libbar.rlib", '.') == 6
    ensures Stem("libbar.rlib") == "libbar"
  {
    LastIndexIsLast("libbar.rlib", '.');
    assert "libbar.rlib"[6] == '.';
  }

  lemma NoDotExample()
    ensures Stem("libbar") == "libbar"
  {
    LastIndexIsLast("libbar", '.');
  }

  /** Coverage names for an output with an extension ... */
  lemma CoverageNameReplaces()
    ensures CoverageName(Path("out", "libbar.rlib"), "gcno") == "libbar.gcno"
  {
    var out := Path("out", "libbar.rlib");
    BaseOfFlatRel(out);
    LastDotOfExample();
    CoverageNameStem(out, "gcno");
    LibbarWith("gcno");
  }

  /** ... and without one. */
  lemma CoverageNameAppends()
    ensures CoverageName(Path("out", "libbar"), "gcda") == "libbar.gcda"
  {
    var out := Path("out", "libbar");
    BaseOfFlatRel(out);
    NoDotExample();
    CoverageNameStem(out, "gcda");
    LibbarWith("gcda");
  }

  lemma LibbarWith(ext: string)
    requires ext in {"gcno", "gcda"}
    ensures "libbar" + "." + ext == "libbar." + ext
  {
    assert "libbar" + "." == "libbar.";
  }
}
