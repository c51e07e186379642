# TI MSP432 build script, modelled in Dafny

This project models `builder/main.py`, the PlatformIO build script for TI
MSP432 boards. The script runs once per build. It configures the SCons
construction environment for the `arm-none-eabi` toolchain and registers
a builder that converts the linked ELF into an Intel HEX image. It
applies two overrides: the program name defaults to "firmware", and the
"energia" framework is treated as "arduino". It declares the targets
`nobuild`, `buildprog`, `size` and `upload`, and picks the uploader from
the upload protocol ("dslite", "openocd", or nothing at all).

Modules:

- `PyStr` (`strings.dfy`): the Python string operations the script uses:
  - `startswith`, `endswith` and substring `in`;
  - `str.replace`, including its empty-pattern case;
  - `" ".join` and `split`.
- `PosixPath` (`paths.dfy`): `os.path.join` with POSIX rules. An absolute
  component resets the path, and an empty head vanishes.
- `Wrappers` (`wrappers.dfy`): `Option`.
- `Environment` (`environment.dfy`):
  - the construction variables as values;
  - SCons's `Append` rule on them;
  - the class `Env`, whose `Replace` and `Append` change its variable map
    in place.
- `ImageFormat` and `Toolchain` (`toolchain.dfy`):
  - the ELF/HEX suffixes;
  - the objcopy conversion command;
  - the variables the script replaces and the ones it appends.
- `Targets` (`targets.dfy`): the artifact nodes, the four aliases, which of
  them always build, and the defaults, in both the normal and the
  "nobuild" mode.
- `Upload` (`upload.dfy`): the DSLite and OpenOCD uploaders and the
  protocol dispatch.
- `Script` (`script.dfy`):
  - the two override policies;
  - the script's steps as methods on an `Env`;
  - `Run`, which performs them in the script's order;
  - lemmas about the final environment.

Inputs that the script reads from PlatformIO and SCons are parameters of the
model:

| input | parameter |
|---|---|
| `$UPLOAD_PROTOCOL` | `protocol` |
| `COMMAND_LINE_TARGETS` | `commandLineTargets` |
| installed package directories (`get_package_dir`) | `packages` |
| the two board fields | `Board` |

## Model

| member | source | states |
|---|---|---|
| Environment.Env.Replace | builder/main.py:10-30 | every given key now holds its new value; every other key keeps its value; the key set is the old one plus the given keys |
| Environment.Env.Append | builder/main.py:32-85 | the variables become `Appended(old, kw)`: keys outside `kw` are unchanged, and a list is extended by the new items after the old ones |
| Environment.Appended | builder/main.py:32-85 | the resulting key set is the old keys plus the appended keys; untouched keys keep their values; a new key gets the appended value; an existing key gets `AppendValue(old, new)` |
| Environment.AppendValue | builder/main.py:32-85 | list with list concatenates the items in order; string with string concatenates |
| Environment.AppendKeepsOrder | builder/main.py:32-85 | appending to a list keeps every old element at its index and puts the new elements after them, in their order |
| Environment.AppendTwice | builder/main.py:32-85 | for list-valued variables, two appends in a row equal one append of the two updates appended to each other |
| Toolchain.FlagKeysNotReplaced | builder/main.py:10-69 | none of CCFLAGS, CXXFLAGS, CPPDEFINES, LINKFLAGS and LIBS is among the replaced variables |
| Toolchain.FlagKeysAppended | builder/main.py:35-69 | each of the five flag variables is appended as a list |
| Toolchain.FlagVarsKeys | builder/main.py:32-85 | the appended variables are exactly the five flag lists and BUILDERS |
| Toolchain.BuildersNotReplaced | builder/main.py:10-30 | BUILDERS is not a replaced variable |
| Toolchain.LaterKeysNotReplaced | builder/main.py:10-30 | PROGNAME, PIOFRAMEWORK and the three upload settings are not replaced by the toolchain step |
| Toolchain.LaterKeysNotAppended | builder/main.py:32-85 | PROGNAME, PIOFRAMEWORK and the three upload settings are not appended by the toolchain step |
| ImageFormat.HexWordsJoined | builder/main.py:73-81 | the seven words joined with single spaces are exactly `$OBJCOPY -O ihex -R .eeprom $SOURCES $TARGET` |
| ImageFormat.HexCommandExact | builder/main.py:72-82 | the ElfToHex command is exactly `$OBJCOPY -O ihex -R .eeprom $SOURCES $TARGET`, and splitting it at spaces gives back the seven words in order |
| Environment.Lookup | builder/main.py:89-92 | `env.get(key, default)`: the value under the key, or the default when it is absent |
| Environment.Env.Get | builder/main.py:89-92 | `env.get` on the environment's current variables |
| Script.NamesEnergia | builder/main.py:92 | `"energia" in v`: an element of a list, a substring of a string, a key of the builder table |
| Script.UploaderVars | builder/main.py:121-144 | the three upload settings an uploader gives: UPLOADER, UPLOADERFLAGS as a list of words, UPLOADCMD |
| Script.WithUploader | builder/main.py:120-145 | the upload settings replaced when the protocol selects an uploader, the variables unchanged otherwise |
| Script.ConfiguredWith | builder/main.py:10-145 | the script's steps in order, for given replaced and appended variables and uploader |
| Script.Configured | builder/main.py:10-145 | the script's steps in order, with the variables of lines 10-85 and the dispatched uploader |
| Script.WithDefaultProgName | builder/main.py:88-90 | PROGNAME becomes "firmware" when it is absent or equal to "program"; any other value is kept; no other key changes |
| Script.DefaultProgNameIdempotent | builder/main.py:88-90 | applying the program-name override twice is the same as applying it once |
| Script.DefaultProgName | builder/main.py:89-90 | the environment's variables become `WithDefaultProgName` of the old ones |
| Script.WithNormalisedFramework | builder/main.py:92-93 | a PIOFRAMEWORK naming "energia" becomes exactly `["arduino"]`, otherwise nothing changes; either way the result no longer names "energia" |
| Script.NormalisedFrameworkIdempotent | builder/main.py:92-93 | applying the framework override twice is the same as applying it once |
| Script.NormaliseFramework | builder/main.py:92-93 | the environment's variables become `WithNormalisedFramework` of the old ones |
| Script.ConfigureToolchain | builder/main.py:10-85 | the environment's variables become the old ones with the tool settings replaced, then the flag lists and builder appended |
| Script.ConfigureUpload | builder/main.py:120-145 | the three upload settings are replaced by the protocol's uploader; for an unknown protocol the variables are unchanged |
| Script.Run | builder/main.py:10-152 | the script's own Replace, Append, override and upload steps leave the environment as `Configured` says; the graph is the one for the requested mode, with `$BUILD_DIR` and `${PROGNAME}` |
| Script.LaterStepsKeep | builder/main.py:88-145 | a variable other than PROGNAME, PIOFRAMEWORK and the upload settings passes the overrides and the upload step unchanged |
| Script.ConfiguredWithFlag | builder/main.py:32-93 | an appended list that no later step writes ends as the old items followed by the appended ones, or as the appended list alone when it was unset |
| Script.ConfiguredWithTool | builder/main.py:10-93 | a replaced variable that is neither appended nor written later ends with its replaced value |
| Script.ConfiguredWithProgName | builder/main.py:88-90 | PROGNAME ends as the program-name override says whenever the toolchain step does not write it |
| Script.ConfiguredWithoutUploader | builder/main.py:120-145 | without an uploader, a variable that no step writes is left as it was, whether set or unset |
| Script.ConfiguredWithUploader | builder/main.py:121-130 | with an uploader, UPLOADER, UPLOADERFLAGS and UPLOADCMD end as the uploader gives them |
| Script.UploadKeysNotPolicies | builder/main.py:88-145 | the upload settings are written only by the upload step, not by either override |
| Script.ConfiguredFlags | builder/main.py:32-69 | after the script's own steps each flag list holds its old items followed by the script's flags in order, or just the flags when it was unset |
| Script.ConfiguredTools | builder/main.py:10-30 | after the script's own steps every tool name and fixed setting holds the value the script gave it |
| Script.ConfiguredProgName | builder/main.py:88-90 | after the whole script PROGNAME is "firmware" when it was unset or "program", and otherwise what it was |
| Script.ConfiguredUnknownProtocol | builder/main.py:120-145 | for a protocol other than "dslite" and "openocd", UPLOADER, UPLOADERFLAGS and UPLOADCMD are left as they were, whether set or unset |
| Script.ConfiguredDslite | builder/main.py:120-130 | for "dslite", UPLOADER is the DSLite binary, UPLOADERFLAGS is the four DSLite words, and UPLOADCMD is `$UPLOADER $UPLOADERFLAGS $SOURCES` |
| Script.ConfiguredOpenocd | builder/main.py:132-144 | for "openocd", UPLOADER is "openocd"; UPLOADERFLAGS is the board's server arguments (none when the board has none) with `$PACKAGE_DIR` substituted, followed by the program command; UPLOADCMD is `$UPLOADER $UPLOADERFLAGS` |
| Script.ProgNamePlaceholderPlain | builder/main.py:98-102 | the program name `${PROGNAME}` does not already end in ".hex" |
| Script.ScriptArtifactPaths | builder/main.py:96-102 | in both modes the ELF is `$BUILD_DIR/${PROGNAME}.elf` and the image is `$BUILD_DIR/${PROGNAME}.hex` |
| Targets.WithSuffix | builder/main.py:102 | the builder's target name always ends with the suffix and starts with the given name, and a name that already has the suffix is kept |
| Targets.Artifacts | builder/main.py:96-102 | in nobuild mode two plain paths under the build directory; otherwise the linked ELF and the image converted from it |
| Targets.BuildGraph | builder/main.py:96-152 | the artifacts, the four aliases with their dependencies, actions and always-build marks, and the defaults |
| Targets.GraphNames | builder/main.py:104-152 | the aliases are nobuild, buildprog, size and upload, in that order; the defaults are buildprog then size, both declared |
| Targets.GraphDeps | builder/main.py:104-146 | nobuild, buildprog and upload depend on the image alone; size depends on the ELF alone |
| Targets.GraphAlwaysBuilt | builder/main.py:104-147 | exactly nobuild, size and upload are always built; buildprog is not |
| Targets.NoBuildRunsNoStep | builder/main.py:97-99 | in nobuild mode no node that a target depends on or runs is produced by a build step |
| Targets.BuildOrdersSteps | builder/main.py:100-102 | otherwise the image is converted from the linked ELF, so building the image links the ELF first |
| Targets.ArtifactPaths | builder/main.py:96-102 | in both modes the ELF and the image are the build directory joined with the program name, plus ".elf" and ".hex" |
| Targets.NoBuildPathsAgree | builder/main.py:96-102 | the artifact paths do not depend on whether the build runs |
| Upload.PackageDir | builder/main.py:122-136 | `get_package_dir(name) or ""`: empty exactly when the package is missing or has an empty directory, and otherwise that directory |
| Upload.Dslite | builder/main.py:121-130 | the DSLite uploader: the binary under the package's `DebugServer/bin`, the flags `load -c <pkg>/<variant>.ccxml -f` and the command with the sources last; `DsliteLayout` states its shape |
| Upload.SubstitutePackageDir | builder/main.py:135-138 | one result per argument, in order, each the argument with every `$PACKAGE_DIR` replaced; an argument without the placeholder comes through as it is |
| Upload.Openocd | builder/main.py:133-144 | the OpenOCD uploader: the board's server arguments (or none) plus the program command, substituted, with the command `$UPLOADER $UPLOADERFLAGS`; `OpenocdLayout` states its shape |
| Upload.Dispatch | builder/main.py:120-145 | there is no uploader exactly when the protocol is neither "dslite" nor "openocd"; otherwise it is the DSLite or the OpenOCD uploader, built from that tool's package |
| Upload.DsliteLayout | builder/main.py:121-130 | DSLite gets four flags, `load -c <variant>.ccxml -f`; the uploader ends in `DSLite`; the command passes the sources last |
| Upload.DsliteWithoutPackage | builder/main.py:122-127 | with the package missing, the uploader is `DebugServer/bin/DSLite` and the configuration file is `<variant>.ccxml`, with no prefix |
| Upload.DsliteWithPackage | builder/main.py:122-127 | with package directory `pkg` and a variant that is not an absolute path, the uploader is `pkg/DebugServer/bin/DSLite` and the configuration file is `pkg/<variant>.ccxml` |
| Upload.OpenocdProgramUntouched | builder/main.py:134-138 | substituting the package directory leaves the two appended program words unchanged |
| Upload.OpenocdLayout | builder/main.py:133-144 | OpenOCD gets the board's arguments with `$PACKAGE_DIR` replaced, then `-c` and the program command unchanged, two more flags than the board gives; the command is `$UPLOADER $UPLOADERFLAGS` |
| Upload.OpenocdWithoutArguments | builder/main.py:133-134 | a board without server arguments gets just the program command |
| Upload.OpenocdArgumentKept | builder/main.py:135-138 | a board argument is passed on unchanged exactly when it holds no `$PACKAGE_DIR` or the package directory is that text itself |
| Upload.OpenocdPlainArguments | builder/main.py:133-138 | arguments without `$PACKAGE_DIR` are passed on as they are, followed by the program command |
| PyStr.ReplaceAll | builder/main.py:136 | a replacement no longer than the pattern never lengthens the string, one no shorter never shortens it, and an empty pattern adds the replacement at least once |
| PyStr.ReplaceWithSelf | builder/main.py:136 | replacing a pattern with itself changes nothing |
| PyStr.ReplaceAbsent | builder/main.py:136 | a string without the pattern comes back unchanged |
| PyStr.ReplacePresent | builder/main.py:136 | a string that holds the pattern changes, unless the replacement is the pattern |
| PyStr.ReplaceUnchangedIff | builder/main.py:136 | `s.replace(p, r) == s` exactly when `p` is not in `s` or `r == p` |
| PyStr.InfixHasChars | builder/main.py:136 | a string that holds a pattern holds each of its characters |
| PyStr.IsInfix | builder/main.py:92 | `pat in s` for strings, read recursively: `s` starts with `pat`, or its tail holds `pat` |
| PyStr.IsInfixIff | builder/main.py:92 | `pat in s` holds exactly when some index of `s` starts an occurrence of `pat` |
| PyStr.InfixOfConcat | builder/main.py:136 | `x + p + y` always holds `p` |
| PyStr.JoinWith | builder/main.py:73 | `sep.join(ws)`: the words with one separator between consecutive ones; `SplitJoin` inverts it |
| PyStr.Split | builder/main.py:73 | splitting at a separator gives at least one field, and no field holds the separator |
| PyStr.SplitField | builder/main.py:73 | a separator-free field followed by a string splits into that field joined to the first field of the rest, then the remaining fields |
| PyStr.SplitJoin | builder/main.py:73 | joining words that hold no separator, then splitting, gives the words back |
| PosixPath.JoinStep | builder/main.py:98-102 | one step of `os.path.join`: an absolute component replaces the path, otherwise "/" is inserted only after a non-empty path not ending in "/" |
| PosixPath.Join | builder/main.py:98-102 | `os.path.join(a, *p)`: the steps applied left to right; its lemmas below state what it promises |
| PosixPath.JoinConcat | builder/main.py:98-102 | joining in two batches is joining once |
| PosixPath.JoinEndsWithLast | builder/main.py:98-102 | a joined path ends with its last component |
| PosixPath.JoinEmptyHead | builder/main.py:122-127 | an empty leading component is dropped |
| PosixPath.JoinAbsoluteResets | builder/main.py:122-127 | a component starting with "/" discards everything joined before it |
| PosixPath.JoinAppendSuffix | builder/main.py:98-102 | appending text that does not start with "/" to the joined path equals appending it to the last component |
| PosixPath.JoinStepEndsWith | builder/main.py:102 | whether a join ends with a "/"-free suffix depends on the last component alone |
| PosixPath.JoinPlain | builder/main.py:122-127 | with a non-empty base without a trailing "/" and plain components, joining inserts one "/" between consecutive parts |

## Left out

- SCons and PlatformIO internals are not modelled. This covers
  `DefaultEnvironment`, `PioPlatform`, `BoardConfig`, `Builder`, how actions
  run, and `env.subst`. The substituted `$UPLOAD_PROTOCOL` is an input of
  the model.
- `get_package_dir` and `board.get` are inputs: a map of installed
  package directories, and a `Board` with the two fields the script reads.
- Upload.Board: `board.get("build.variant")` has no default, so a board
  without that option makes PlatformIO's lookup raise an error. The model
  takes the variant to be present and does not model that failure.
- Running the external tools (compiler, objcopy, size, DSLite, OpenOCD) is
  not modelled. The commands are kept as strings.
- The size regular expressions are kept as text. Regular-expression matching
  is not modelled.
- The diagnostic `print` at line 139 is I/O and is left out.
- `openocd_args.extend` changes the list that `board.get` returned, in
  place. The model builds a new sequence instead, so that aliasing is not
  captured.
- `env.BuildProgram()` is PlatformIO's. The model takes its result to be
  the ELF at the build directory joined with `${PROGNAME}` plus PROGSUFFIX.
- Script.Run: in build mode, `env.BuildProgram()` also changes the
  construction variables. It adds the project's build flags to CCFLAGS,
  CPPDEFINES and LINKFLAGS, builds the frameworks named in PIOFRAMEWORK,
  and puts the linker script into LINKFLAGS. None of that is modelled.
  `Configured`, and the `Configured*` lemmas about it, describe the
  variables only as this script's own Replace, Append, override and upload
  steps leave them.
- Targets.Artifacts: a builder's target name gets the builder's suffix
  unless it already ends with it. SCons's finer rule, based on
  `os.path.splitext`, is not modelled.
- Environment.AppendValue: SCons's Append has further cases that are not
  modelled:
  - when the old and new values are of kinds the model does not combine,
    the new value replaces the old one;
  - the special handling SCons gives CPPDEFINES (deduplication, dictionary
    forms) is not modelled. Here CPPDEFINES is appended like any other
    list.
- A protocol other than "dslite" or "openocd" configures no uploader and
  raises no error. The model follows the code here: there is no
  "unsupported protocol" failure.
