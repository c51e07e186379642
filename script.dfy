/**
 * The build script itself, top to bottom: configure the toolchain, apply
 * the two override policies (program name, framework alias), declare the
 * build graph and configure the uploader, all on one environment changed
 * in place.
 */
module Script {
  import opened Wrappers
  import opened PyStr
  import opened Environment
  import opened ImageFormat
  import opened Toolchain
  import opened Targets
  import opened Upload

  const BuildDir := "$BUILD_DIR"
  const ProgNamePlaceholder := "${PROGNAME}"

  /**
   * The program-name policy: a PROGNAME that is absent or still "program"
   * becomes "firmware"; any other value stays; no other key changes.
   */
  function WithDefaultProgName(vars: map<string, Value>): (r: map<string, Value>)
    ensures r.Keys == vars.Keys + {"PROGNAME"}
    ensures "PROGNAME" !in vars || vars["PROGNAME"] == Str("program") ==> r["PROGNAME"] == Str("firmware")
    ensures "PROGNAME" in vars && vars["PROGNAME"] != Str("program") ==> r["PROGNAME"] == vars["PROGNAME"]
    ensures forall k :: k in vars && k != "PROGNAME" ==> r[k] == vars[k]
  {
    if Lookup(vars, "PROGNAME", Str("program")) == Str("program") then
      vars["PROGNAME" := Str("firmware")]
    else
      vars
  }

  /** `"energia" in v`: an element of a list, a substring of a string, a key of a table. */
  predicate NamesEnergia(v: Value) {
    match v
    case List(items) => Word("energia") in items
    case Str(s) => IsInfix("energia", s)
    case Builders(table) => "energia" in table
  }

  /**
   * The framework policy: a PIOFRAMEWORK that names "energia" becomes
   * exactly `["arduino"]`, dropping whatever else it listed; otherwise nothing
   * changes. Either way it no longer names "energia".
   */
  function WithNormalisedFramework(vars: map<string, Value>): (r: map<string, Value>)
    ensures NamesEnergia(Lookup(vars, "PIOFRAMEWORK", List([]))) ==>
      r == vars["PIOFRAMEWORK" := List([Word("arduino")])]
    ensures !NamesEnergia(Lookup(vars, "PIOFRAMEWORK", List([]))) ==> r == vars
    ensures !NamesEnergia(Lookup(r, "PIOFRAMEWORK", List([])))
  {
    if NamesEnergia(Lookup(vars, "PIOFRAMEWORK", List([]))) then
      assert "arduino"[0] != "energia"[0];
      assert Words(["arduino"]) == [Word("arduino")];
      vars["PIOFRAMEWORK" := List(Words(["arduino"]))]
    else
      vars
  }

  /** UPLOADER, UPLOADERFLAGS and UPLOADCMD for an uploader. */
  function UploaderVars(u: Uploader): map<string, Value> {
    map["UPLOADER" := Str(u.uploader), "UPLOADERFLAGS" := List(Words(u.flags)), "UPLOADCMD" := Str(u.command)]
  }

  /** The variables after the upload dispatch: replaced for a known protocol, untouched otherwise. */
  function WithUploader(vars: map<string, Value>, u: Option<Uploader>): map<string, Value> {
    match u
    case Some(up) => vars + UploaderVars(up)
    case None => vars
  }

  /**
   * The environment after the script, for replaced variables `tools`,
   * appended variables `flags` and the uploader `u`, in the script's order.
   */
  function ConfiguredWith(init: map<string, Value>, tools: map<string, Value>, flags: map<string, Value>, u: Option<Uploader>): map<string, Value> {
    WithUploader(WithNormalisedFramework(WithDefaultProgName(Appended(init + tools, flags))), u)
  }

  /** Everything the script does to the environment, in order. */
  function Configured(init: map<string, Value>, protocol: string, packages: map<string, string>, board: Board): map<string, Value> {
    ConfiguredWith(init, ToolVars, FlagVars, Dispatch(protocol, packages, board))
  }

  /** Applying the program-name policy twice is applying it once. */
  lemma DefaultProgNameIdempotent(vars: map<string, Value>)
    ensures WithDefaultProgName(WithDefaultProgName(vars)) == WithDefaultProgName(vars)
  {
  }

  /** Applying the framework policy twice is applying it once. */
  lemma NormalisedFrameworkIdempotent(vars: map<string, Value>)
    ensures WithNormalisedFramework(WithNormalisedFramework(vars)) == WithNormalisedFramework(vars)
  {
  }

  /** A key that no later step writes keeps the value the toolchain configuration gave it. */
  lemma LaterStepsKeep(vars: map<string, Value>, u: Option<Uploader>, k: string)
    requires k in vars && k !in LaterKeys
    ensures var r := WithUploader(WithNormalisedFramework(WithDefaultProgName(vars)), u);
      k in r && r[k] == vars[k]
  {
    var v1 := WithDefaultProgName(vars);
    var v2 := WithNormalisedFramework(v1);
    assert k in v2 && v2[k] == vars[k];
    if u.Some? {
      assert k !in UploaderVars(u.value);
    }
  }

  /** An appended list that no later step writes ends as its old items followed by the appended ones. */
  lemma ConfiguredWithFlag(init: map<string, Value>, tools: map<string, Value>, flags: map<string, Value>, u: Option<Uploader>, k: string)
    requires k in flags && flags[k].List? && k !in tools && k !in LaterKeys
    ensures var r := ConfiguredWith(init, tools, flags, u);
      && k in r
      && (k !in init ==> r[k] == flags[k])
      && (k in init && init[k].List? ==> r[k] == List(init[k].items + flags[k].items))
  {
    var configured := Appended(init + tools, flags);
    assert k in init ==> (init + tools)[k] == init[k];
    LaterStepsKeep(configured, u, k);
  }

  /** A replaced variable that is neither appended to nor written later ends with its replaced value. */
  lemma ConfiguredWithTool(init: map<string, Value>, tools: map<string, Value>, flags: map<string, Value>, u: Option<Uploader>, k: string)
    requires k in tools && k !in flags && k !in LaterKeys
    ensures var r := ConfiguredWith(init, tools, flags, u);
      k in r && r[k] == tools[k]
  {
    LaterStepsKeep(Appended(init + tools, flags), u, k);
  }

  /** PROGNAME, untouched by the toolchain configuration, ends as the program-name policy says. */
  lemma ConfiguredWithProgName(init: map<string, Value>, tools: map<string, Value>, flags: map<string, Value>, u: Option<Uploader>)
    requires "PROGNAME" !in tools && "PROGNAME" !in flags
    ensures var r := ConfiguredWith(init, tools, flags, u);
      && "PROGNAME" in r
      && ("PROGNAME" !in init || init["PROGNAME"] == Str("program") ==> r["PROGNAME"] == Str("firmware"))
      && ("PROGNAME" in init && init["PROGNAME"] != Str("program") ==> r["PROGNAME"] == init["PROGNAME"])
  {
    var configured := Appended(init + tools, flags);
    assert "PROGNAME" in init ==> configured["PROGNAME"] == init["PROGNAME"];
    var v1 := WithDefaultProgName(configured);
    var v2 := WithNormalisedFramework(v1);
    assert v2["PROGNAME"] == v1["PROGNAME"];
    if u.Some? {
      assert "PROGNAME" !in UploaderVars(u.value);
    }
  }

  /** Without an uploader, a variable none of the steps writes is left as it was, set or unset. */
  lemma ConfiguredWithoutUploader(init: map<string, Value>, tools: map<string, Value>, flags: map<string, Value>, k: string)
    requires k !in tools && k !in flags && k != "PROGNAME" && k != "PIOFRAMEWORK"
    ensures var r := ConfiguredWith(init, tools, flags, None);
      (k in r <==> k in init) && (k in init ==> r[k] == init[k])
  {
    var configured := Appended(init + tools, flags);
    assert k in configured <==> k in init;
    assert k in init ==> configured[k] == init[k];
  }

  /** The upload settings. */
  const UploadKeys: set<string> := {"UPLOADER", "UPLOADERFLAGS", "UPLOADCMD"}

  /** The upload settings are neither the program name nor the framework. */
  lemma UploadKeysNotPolicies()
    ensures forall k :: k in UploadKeys ==> k in LaterKeys && k != "PROGNAME" && k != "PIOFRAMEWORK"
  {
  }

  /** With an uploader, the three upload settings end as the uploader gives them. */
  lemma ConfiguredWithUploader(init: map<string, Value>, tools: map<string, Value>, flags: map<string, Value>, up: Uploader)
    ensures var r := ConfiguredWith(init, tools, flags, Some(up));
      && "UPLOADER" in r && r["UPLOADER"] == Str(up.uploader)
      && "UPLOADERFLAGS" in r && r["UPLOADERFLAGS"] == List(Words(up.flags))
      && "UPLOADCMD" in r && r["UPLOADCMD"] == Str(up.command)
  {
  }

  /**
   * After the whole script, each of CCFLAGS, CXXFLAGS, CPPDEFINES, LINKFLAGS
   * and LIBS holds what it held before followed by the script's flags in
   * their listed order (or just those flags, when it was unset).
   */
  lemma ConfiguredFlags(init: map<string, Value>, protocol: string, packages: map<string, string>, board: Board, k: string)
    requires k in FlagListKeys
    ensures k in FlagVars && FlagVars[k].List?
    ensures var r := Configured(init, protocol, packages, board);
      && k in r
      && (k !in init ==> r[k] == FlagVars[k])
      && (k in init && init[k].List? ==> r[k] == List(init[k].items + FlagVars[k].items))
  {
    FlagKeysNotReplaced();
    FlagKeysAppended();
    LaterKeysNotAppended();
    ConfiguredWithFlag(init, ToolVars, FlagVars, Dispatch(protocol, packages, board), k);
  }

  /** After the whole script, every tool name and fixed setting holds the value the script replaced it with. */
  lemma ConfiguredTools(init: map<string, Value>, protocol: string, packages: map<string, string>, board: Board, k: string)
    requires k in ToolVars
    ensures var r := Configured(init, protocol, packages, board);
      k in r && r[k] == ToolVars[k]
  {
    FlagVarsKeys();
    FlagKeysNotReplaced();
    BuildersNotReplaced();
    LaterKeysNotReplaced();
    ConfiguredWithTool(init, ToolVars, FlagVars, Dispatch(protocol, packages, board), k);
  }

  /**
   * After the whole script PROGNAME is "firmware" if it was unset or
   * "program", and otherwise what it was.
   */
  lemma ConfiguredProgName(init: map<string, Value>, protocol: string, packages: map<string, string>, board: Board)
    ensures var r := Configured(init, protocol, packages, board);
      && "PROGNAME" in r
      && ("PROGNAME" !in init || init["PROGNAME"] == Str("program") ==> r["PROGNAME"] == Str("firmware"))
      && ("PROGNAME" in init && init["PROGNAME"] != Str("program") ==> r["PROGNAME"] == init["PROGNAME"])
  {
    LaterKeysNotReplaced();
    LaterKeysNotAppended();
    ConfiguredWithProgName(init, ToolVars, FlagVars, Dispatch(protocol, packages, board));
  }

  /**
   * For a protocol other than "dslite" and "openocd", the script leaves
   * UPLOADER, UPLOADERFLAGS and UPLOADCMD as they were, set or unset.
   */
  lemma ConfiguredUnknownProtocol(init: map<string, Value>, protocol: string, packages: map<string, string>, board: Board, k: string)
    requires protocol != "dslite" && protocol != "openocd"
    requires k in UploadKeys
    ensures var r := Configured(init, protocol, packages, board);
      (k in r <==> k in init) && (k in init ==> r[k] == init[k])
  {
    LaterKeysNotReplaced();
    LaterKeysNotAppended();
    UploadKeysNotPolicies();
    ConfiguredWithoutUploader(init, ToolVars, FlagVars, k);
  }

  /**
   * For "dslite", the script sets the DSLite binary as UPLOADER, the four
   * words `load -c <ccxml> -f` as UPLOADERFLAGS and a command that passes
   * the sources after them.
   */
  lemma ConfiguredDslite(init: map<string, Value>, packages: map<string, string>, board: Board)
    ensures var r, u := Configured(init, "dslite", packages, board), Dslite(PackageDir(packages, "tool-dslite"), board.variant);
      && "UPLOADER" in r && r["UPLOADER"] == Str(u.uploader)
      && "UPLOADERFLAGS" in r && r["UPLOADERFLAGS"] == List(Words(u.flags)) && |u.flags| == 4
      && "UPLOADCMD" in r && r["UPLOADCMD"] == Str("$UPLOADER $UPLOADERFLAGS $SOURCES")
  {
    var u := Dslite(PackageDir(packages, "tool-dslite"), board.variant);
    DsliteLayout(PackageDir(packages, "tool-dslite"), board.variant);
    ConfiguredWithUploader(init, ToolVars, FlagVars, u);
  }

  /**
   * For "openocd", UPLOADER is "openocd", UPLOADERFLAGS is the board's
   * server arguments (none when the board has none) with the package
   * directory put in, then the program command, and UPLOADCMD passes the
   * flags to the uploader.
   */
  lemma ConfiguredOpenocd(init: map<string, Value>, packages: map<string, string>, board: Board)
    ensures var r, args := Configured(init, "openocd", packages, board),
        match board.serverArguments case Some(a) => a case None => [];
      && "UPLOADER" in r && r["UPLOADER"] == Str("openocd")
      && "UPLOADERFLAGS" in r
      && r["UPLOADERFLAGS"] == List(Words(SubstitutePackageDir(args, PackageDir(packages, "tool-openocd")) + OpenocdProgram))
      && "UPLOADCMD" in r && r["UPLOADCMD"] == Str("$UPLOADER $UPLOADERFLAGS")
  {
    var pkg := PackageDir(packages, "tool-openocd");
    var args := match board.serverArguments case Some(a) => a case None => [];
    OpenocdLayout(pkg, args);
    var up := Openocd(pkg, board.serverArguments);
    assert up == Openocd(pkg, Some(args));
    assert up.flags == SubstitutePackageDir(args, pkg) + OpenocdProgram;
    ConfiguredWithUploader(init, ToolVars, FlagVars, up);
  }

  /** The program name the script's graph uses does not end in ".hex". */
  lemma ProgNamePlaceholderPlain()
    ensures !EndsWith(ProgNamePlaceholder, HexSuffix)
  {
    assert ProgNamePlaceholder[|ProgNamePlaceholder| - 1] != HexSuffix[|HexSuffix| - 1];
  }

  /**
   * The script's graph names `$BUILD_DIR/${PROGNAME}.elf` and
   * `$BUILD_DIR/${PROGNAME}.hex` whether or not "nobuild" was requested.
   */
  lemma ScriptArtifactPaths(nobuild: bool)
    ensures var g := BuildGraph(nobuild, BuildDir, ProgNamePlaceholder);
      && g.elf.path == BuildDir + "/" + ProgNamePlaceholder + ProgSuffix
      && g.firmware.path == BuildDir + "/" + ProgNamePlaceholder + HexSuffix
  {
    ProgNamePlaceholderPlain();
    ArtifactPaths(nobuild, BuildDir, ProgNamePlaceholder);
    PosixPath.SlashEnds(BuildDir);
    PosixPath.SlashEnds(ProgNamePlaceholder);
    assert PosixPath.Join(BuildDir, [ProgNamePlaceholder]) == PosixPath.JoinStep(BuildDir, ProgNamePlaceholder);
  }

  /** Lines 10-85: set the tool names and fixed settings, then append the flag lists and the HEX builder. */
  method ConfigureToolchain(env: Env)
    modifies env
    ensures env.vars == Appended(old(env.vars) + ToolVars, FlagVars)
  {
    env.Replace(ToolVars);
    env.Append(FlagVars);
  }

  /** Lines 89-90. */
  method DefaultProgName(env: Env)
    modifies env
    ensures env.vars == WithDefaultProgName(old(env.vars))
  {
    if env.Get("PROGNAME", Str("program")) == Str("program") {
      env.Replace(map["PROGNAME" := Str("firmware")]);
    }
  }

  /** Lines 92-93. */
  method NormaliseFramework(env: Env)
    modifies env
    ensures env.vars == WithNormalisedFramework(old(env.vars))
  {
    if NamesEnergia(env.Get("PIOFRAMEWORK", List([]))) {
      env.Replace(map["PIOFRAMEWORK" := List(Words(["arduino"]))]);
    }
  }

  /** Lines 120-145: the upload settings for the protocol; for any other protocol, nothing. */
  method ConfigureUpload(env: Env, protocol: string, packages: map<string, string>, board: Board)
    modifies env
    ensures env.vars == WithUploader(old(env.vars), Dispatch(protocol, packages, board))
  {
    if protocol == "dslite" {
      env.Replace(UploaderVars(Dslite(PackageDir(packages, "tool-dslite"), board.variant)));
    } else if protocol == "openocd" {
      env.Replace(UploaderVars(Openocd(PackageDir(packages, "tool-openocd"), board.serverArguments)));
    }
  }

  /**
   * The whole script: the environment ends as `Configured` says, and the
   * graph is the one for the requested mode under `$BUILD_DIR` and
   * `${PROGNAME}`.
   */
  method Run(env: Env, commandLineTargets: seq<string>, protocol: string, packages: map<string, string>, board: Board)
    returns (g: Graph)
    modifies env
    ensures env.vars == Configured(old(env.vars), protocol, packages, board)
    ensures g == BuildGraph("nobuild" in commandLineTargets, BuildDir, ProgNamePlaceholder)
  {
    ConfigureToolchain(env);
    DefaultProgName(env);
    NormaliseFramework(env);
    g := BuildGraph("nobuild" in commandLineTargets, BuildDir, ProgNamePlaceholder);
    ConfigureUpload(env, protocol, packages, board);
  }
}
