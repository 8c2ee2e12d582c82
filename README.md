# Rust crate builder (soong `rust/builder.go`)

This project models the part of the Android build system's Rust support that turns one Rust
compilation unit into declarative build actions. The builder runs nothing itself. It assembles
ordered lists of rustc, linker and library flags and of implicit inputs, derives the coverage
file names from the output's base name, and hands one or two actions (an optional clippy lint
run, then the rustc compile) to the module context. Six entry points (binary, rlib, dylib,
static library, C shared library, procedural macro) differ only in the crate type they pass and
in whether they append `-C lto` to the unit's own rustc flags. A separate operation zips a
module's coverage files into one archive.

Layout:

- `wrappers.dfy`: `Option`.
- `seqs.dfy`: concatenation, counting prefixed strings, `strings.Join`.
- `paths.dfy`: build paths and the string operations the builder applies to them (`Base`, `Ext`,
  `pathtools.ReplaceExtension`, `strings.TrimPrefix`).
- `actions.dfy`: the data model (build actions, dependencies, flags, the returned `buildOutput`)
  and `ModuleContext`, a class whose `actions` field logs every action passed to `Build`.
- `crate_spec.dfy`: what one call produces, as functions of its inputs.
- `crate_properties.dfy`: the properties of those functions.
- `builder.dfy`: the builder's operations as methods with loops and appends, each proved to
  append exactly the actions `crate_spec.dfy` describes and to return the described output.

The values the builder obtains from its surroundings (the module's crate name, the toolchain's
target triple, the `PWD=` prefix of coverage data, the module's output directory) are fields of
an `Env` value the context holds; `PathForModuleOut(ctx, name)` is `Path(env.moduleOutDir, name)`.

The linker's `-target` flag comes first in the link flags. The zip action receives the coverage
files unchanged; the rule's `sort -u` removes duplicates only when the action runs. There are six
entry points.

## Model

| member | source | states |
|---|---|---|
| Builder.RustLibsToPaths | rust/builder.go:106-112 | the result has one path per library, in order: the i-th path is the i-th library's artifact |
| Builder.CollectCompileFlags | rust/builder.go:129-146 | rustc flags are global flags, unit flags, the crate type, the name flag if any, the target flag if any, then the null sysroot; link flags are the target flag if any, then global and unit link flags |
| Builder.CollectLibFlags | rust/builder.go:148-161 | the library flags are the `--extern name=path` flags of rlibs, dylibs and proc-macros in that order, then one `-L dir` per link directory |
| Builder.CollectDepImplicits | rust/builder.go:163-171 | the dependency implicits are the rlib, dylib and proc-macro artifacts, the static and shared libraries, and crtbegin/crtend when crtbegin is set |
| Builder.CoverageFilesAsWritten | rust/builder.go:178-186 | in each of the builder's two branches (replace the extension when the base name has one, append `.gcno`/`.gcda` when it has none) the notes and data files are the output's stem plus `.gcno`/`.gcda` in the module output directory, and they are the files `GcnoFile`/`GcdaFile` describe |
| Builder.CoverageFlag | rust/builder.go:173-186 | the gcno file and the `-Z profile-emit=` flag naming the gcda file next to it in the module output directory |
| Builder.TransformSrcToCrate | rust/builder.go:114-228 | appends the clippy action (when clippy is on) and then the rustc action to the context's log, and returns the output file with the gcno file exactly when coverage is on |
| Builder.TransformSrcToBinary | rust/builder.go:72-77 | builds with `-C lto` appended to the unit's rustc flags and crate type `bin` |
| Builder.TransformSrcToRlib | rust/builder.go:79-82 | builds with unchanged flags and crate type `rlib` |
| Builder.TransformSrcToDylib | rust/builder.go:84-87 | builds with unchanged flags and crate type `dylib` |
| Builder.TransformSrcToStatic | rust/builder.go:89-93 | builds with `-C lto` appended and crate type `staticlib` |
| Builder.TransformSrcToShared | rust/builder.go:95-99 | builds with `-C lto` appended and crate type `cdylib` |
| Builder.TransformSrcToProcMacro | rust/builder.go:101-104 | builds with unchanged flags and crate type `proc-macro` |
| Builder.TransformCoverageFilesToZip | rust/builder.go:230-246 | with no coverage files nothing is emitted and the result is unset; otherwise one zip action over the files is appended and `<baseName>.zip` is returned |
| Actions.ModuleContext.Build | rust/builder.go:211-225 | emitting an action appends it to the context's log and changes nothing else |
| CrateProperties.RustcFlagsOrder | rust/builder.go:130-142 | the exact layout of the rustc flags: prefix of configured flags, crate type at index n, name flag next when the name is non-empty, target flag before the sysroot when the triple is non-empty, profile flag last when coverage is on |
| CrateProperties.CrateNameFlagCount | rust/builder.go:133-135 | the rustc flags carry one more `--crate-name=` flag than the configured lists when the name is non-empty, and no more when it is empty |
| CrateProperties.RustcTargetFlagCount | rust/builder.go:136-139 | one more `--target=` flag exactly when the triple is non-empty |
| CrateProperties.LinkFlagsOrder | rust/builder.go:136-146 | link flags are `-target T` first (only with a triple) then global and unit link flags; the `-target ` count grows by one exactly with a triple |
| CrateProperties.ProfileEmitFlagCount | rust/builder.go:173-186 | one more `-Z profile-emit=` flag exactly when coverage is on |
| CrateProperties.ProfileEmitFlagCounts | rust/builder.go:180-185 | the profile flag is neither a name, target nor LTO flag |
| CrateProperties.ProfileFlagCounts | rust/builder.go:180-185 | any flag starting with `-Z profile-emit=` is counted as a profile flag and as no name, target or LTO flag |
| CrateProperties.CrateTypeFlagCounts | rust/builder.go:132 | the crate-type flag is neither a name, target, profile nor LTO flag |
| CrateProperties.NameFlagsCounts | rust/builder.go:133-135 | the name flags hold one `--crate-name=` flag exactly when the name is non-empty, and no target, profile or LTO flag |
| CrateProperties.TargetFlagsCounts | rust/builder.go:136-139 | the target flags hold one `--target=` flag exactly when the triple is non-empty, and no name, profile or LTO flag |
| CrateProperties.SysrootCounts | rust/builder.go:141 | the null sysroot flag is neither a name, target, profile nor LTO flag |
| CrateProperties.CoverageFlagCounts | rust/builder.go:173-186 | the coverage part of the rustc flags holds one profile flag exactly when coverage is on, and no name, target or LTO flag |
| CrateProperties.EntryLtoKinds | rust/builder.go:72-104 | the kinds built with `-C lto` are exactly those of crate type bin, staticlib and cdylib |
| CrateProperties.EntryLtoPlacement | rust/builder.go:72-104 | an entry point changes only the unit's rustc flags; rustc then gets the configured flags, `-C lto` for the LTO kinds, and then exactly the flags the builder adds for the crate type, which start with `--crate-type=` |
| CrateProperties.LtoNotAdded | rust/builder.go:130-142 | none of the flags the builder adds itself is `-C lto` |
| CrateProperties.EntryLtoCount | rust/builder.go:72-104 | `-C lto` occurs once more than configured for the LTO kinds and as often as configured for the others |
| CrateProperties.ExternFlagsConcat | rust/builder.go:149-157 | the `--extern` flags of two library lists in turn are those of the joined list |
| CrateProperties.LibPathsConcat | rust/builder.go:163-166 | the artifacts of two library lists in turn are those of the joined list |
| CrateProperties.LibFlagsLayout | rust/builder.go:149-161 | the library flags are the `--extern` flags of the rlibs, dylibs and proc-macros joined in that order, then the `-L` flags of the link directories; their number is the sum of the group sizes |
| CrateProperties.DepImplicitsLayout | rust/builder.go:163-171 | the dependency implicits are the artifacts of the rlibs, dylibs and proc-macros joined in that order, the static and shared libraries, and crtbegin/crtend last only when crtbegin is set; their number is the sum of the group sizes |
| CrateProperties.CoverageNameStem | rust/builder.go:178-186 | both branches of the coverage name equal `pathtools.ReplaceExtension` of the output's base name, that is its stem plus `.ext`; without an extension the stem is the whole base name |
| CrateProperties.CoverageFileStem | rust/builder.go:178-186 | a coverage file with a given extension is the output's stem plus that extension, in the module output directory |
| CrateProperties.CoveragePaths | rust/builder.go:178-186 | the gcno and gcda files lie in the module output directory and share the output's stem |
| CrateProperties.CoverageArtifacts | rust/builder.go:173-190 | a coverage file is returned iff coverage is on; then it is the gcno file and the rustc action's only implicit output, otherwise there are none |
| CrateProperties.CrateActionsShape | rust/builder.go:192-227 | one action without clippy and two with it; the rustc action's rule, output, inputs, implicits (clippy marker last) and arguments; the clippy action's output, inputs, implicits and arguments |
| CrateProperties.ZipArchiveShape | rust/builder.go:230-246 | the archive exists iff there are coverage files; then one zip action reads them unchanged, writes `<baseName>.zip` and is described by its file name |
| CrateProperties.LibFlagsExample | rust/builder.go:149-166 | an rlib and a dylib give two `--extern` flags in that order and both artifacts as implicits |
| CrateProperties.ExternFlagOfRlib | rust/builder.go:148-150 | the rlib `alpha` at `/out/liba.rlib` gives `--extern alpha=/out/liba.rlib` |
| CrateProperties.ExternFlagOfDylib | rust/builder.go:151-153 | the dylib `beta` at `/out/libb.so` gives `--extern beta=/out/libb.so` |
| CrateProperties.CoverageNameReplaces | rust/builder.go:178-181 | `libbar.rlib` gives the notes name `libbar.gcno` |
| CrateProperties.CoverageNameAppends | rust/builder.go:182-185 | `libbar` gives the data name `libbar.gcda` |
| Paths.LastIndex | rust/builder.go:179 | the index found holds the character, or is -1 |
| Paths.LastIndexIsLast | rust/builder.go:179 | no later index holds the character, and -1 means it does not occur |
| Paths.SplitExtension | rust/builder.go:178 | a base name is its stem followed by its extension; the extension is empty iff there is no dot, and otherwise starts with the only dot it contains |
| Paths.ReplaceExtensionStem | rust/builder.go:179 | a name without an extension gets `.ext` appended; when `ext` holds no dot, the result's stem is the old stem and its extension is `.ext` |
| Paths.LastDotBeforeExtension | rust/builder.go:179 | in `stem.ext` with no dot in `ext`, the last dot is the one right after the stem |
| Paths.BaseHasNoSeparator | rust/builder.go:193 | a base name contains no `/` |
| Paths.BaseOfFlatRel | rust/builder.go:233-236 | a path whose relative part has no `/` has that part as its base name |
| CrateProperties.ZipFileBase | rust/builder.go:233-236 | for a base name without `/`, the archive's base name is the base name plus `.zip` |

## Left out

- The ninja rule templates and their command strings (rust/builder.go:27-61) are not modelled; a rule is an opaque tag. This includes the `sort -u` inside the zip rule's command, which removes duplicate inputs when the action runs, not in this code.
- The `init` registration of the zip tool variable (rust/builder.go:68-70) is process-wide configuration and is not modelled.
- The crate name, target triple and `PWD=` prefix come from calls into the module, the toolchain and the C++ builder; they are fields of `Env`, not computed.
- `PathForModuleOut` is modelled as pairing the module output directory with the name; path cleaning and validation of the name are not modelled.
- `Path.Base` and `Path.Ext` follow the last `/` and the last `.`; Go's special cases for empty paths and trailing slashes are not modelled.
- `OptionalPath.Path()` panics on an unset path: the builder asks for crtend whenever crtbegin is set, so the crate-building methods require `CrtPaired` (crtbegin set implies crtend set) instead of modelling the panic.
- `pathtools.ReplaceExtension` is not part of this model's sources: it is modelled as the name's stem, a dot and the new extension, so a name without an extension gets one appended.
- `strings.Join` is modelled by its definition in `Seqs.Join` with no separate contract.
- The build-graph engine that schedules and runs the actions is outside this code.
