/**
 * The build graph the script declares: the ELF program and the HEX image it
 * is converted to (or, in "nobuild" mode, the paths where both are
 * expected), the aliases `nobuild`, `buildprog`, `size` and `upload` over
 * them, which of those always run, and the default targets.
 */
module Targets {
  import opened PyStr
  import opened PosixPath
  import opened ImageFormat

  /** A node of the graph, identified by its path. */
  datatype Node =
    | File(path: string)              // a path named directly; no step produces it
    | Program(path: string)           // `env.BuildProgram()`: compile and link the ELF
    | Hex(path: string, elf: Node)    // `env.ElfToHex(target, elf)`: convert the ELF to Intel HEX

  /** What an alias runs when it is built. */
  datatype Action =
    | NoAction
    | Shell(command: string, message: string)   // `env.VerboseAction(command, message)`
    | Nodes(node: Node)                         // a node passed where the action goes

  /** `env.Alias(name, deps, action)`, and whether `AlwaysBuild` was applied to it. */
  datatype Target = Alias(name: string, deps: seq<Node>, action: Action, alwaysBuild: bool)

  /** The artifacts, the aliases in declaration order, and the `Default` target names. */
  datatype Graph = Graph(elf: Node, firmware: Node, targets: seq<Target>, defaults: seq<string>)

  /**
   * The name a builder gives its target: the builder's suffix is added
   * unless the name already has it. The result always ends with the suffix
   * and starts with the name.
   */
  function WithSuffix(name: string, suffix: string): (r: string)
    ensures EndsWith(r, suffix) && StartsWith(r, name)
    ensures EndsWith(name, suffix) ==> r == name
  {
    if EndsWith(name, suffix) then name
    else
      assert (name + suffix)[|name|..] == suffix;
      name + suffix
  }

  /**
   * The ELF and the image. In "nobuild" mode both are plain paths under the
   * build directory; otherwise the ELF is linked (at the build directory
   * joined with the program name and PROGSUFFIX) and the image is converted
   * from it.
   */
  function Artifacts(nobuild: bool, buildDir: string, progName: string): (Node, Node) {
    if nobuild then
      (File(Join(buildDir, [progName + ".elf"])), File(Join(buildDir, [progName + ".hex"])))
    else
      var elf := Program(Join(buildDir, [progName + ProgSuffix]));
      (elf, Hex(WithSuffix(Join(buildDir, [progName]), HexSuffix), elf))
  }

  /** The whole graph the script declares. */
  function BuildGraph(nobuild: bool, buildDir: string, progName: string): Graph {
    var (elf, firmware) := Artifacts(nobuild, buildDir, progName);
    Graph(
      elf, firmware,
      [ Alias("nobuild", [firmware], NoAction, true),
        Alias("buildprog", [firmware], Nodes(firmware), false),
        Alias("size", [elf], Shell("$SIZEPRINTCMD", "Calculating size $SOURCE"), true),
        Alias("upload", [firmware], Shell("$UPLOADCMD", "Uploading $SOURCE"), true) ],
      ["buildprog", "size"])
  }

  /** The names of the targets, in declaration order. */
  function Names(targets: seq<Target>): seq<string> {
    if targets == [] then [] else [targets[0].name] + Names(targets[1..])
  }

  /** The dependencies of the first target called `name`, if there is one. */
  function DepsOf(targets: seq<Target>, name: string): seq<Node> {
    if targets == [] then []
    else if targets[0].name == name then targets[0].deps
    else DepsOf(targets[1..], name)
  }

  /** The names of the targets marked always-build. */
  function AlwaysBuilt(targets: seq<Target>): set<string> {
    set t | t in targets && t.alwaysBuild :: t.name
  }

  /** The build steps a node sets off: itself if a step produces it, and the steps of what it is made from. */
  function Steps(n: Node): set<Node> {
    match n
    case File(_) => {}
    case Program(_) => {n}
    case Hex(_, elf) => {n} + Steps(elf)
  }

  /**
   * Whatever the mode, the graph declares the four aliases `nobuild`,
   * `buildprog`, `size` and `upload`, and the defaults are `buildprog` then
   * `size`, both declared targets.
   */
  lemma GraphNames(nobuild: bool, buildDir: string, progName: string)
    ensures var g := BuildGraph(nobuild, buildDir, progName);
      && Names(g.targets) == ["nobuild", "buildprog", "size", "upload"]
      && g.defaults == ["buildprog", "size"]
      && (forall d :: d in g.defaults ==> d in Names(g.targets))
  {
    var ts := BuildGraph(nobuild, buildDir, progName).targets;
    assert Names(ts[3..]) == ["upload"] by { assert ts[3..][1..] == []; }
    assert Names(ts[2..]) == ["size", "upload"] by { assert ts[2..][1..] == ts[3..]; }
    assert Names(ts[1..]) == ["buildprog", "size", "upload"] by { assert ts[1..][1..] == ts[2..]; }
  }

  /** `nobuild`, `buildprog` and `upload` depend on the image alone, and `size` on the ELF alone. */
  lemma GraphDeps(nobuild: bool, buildDir: string, progName: string)
    ensures var g := BuildGraph(nobuild, buildDir, progName);
      && DepsOf(g.targets, "nobuild") == [g.firmware]
      && DepsOf(g.targets, "buildprog") == [g.firmware]
      && DepsOf(g.targets, "size") == [g.elf]
      && DepsOf(g.targets, "upload") == [g.firmware]
  {
    var g := BuildGraph(nobuild, buildDir, progName);
    var ts := g.targets;
    assert ts[1..][1..] == ts[2..];
    assert ts[2..][1..] == ts[3..];
    assert DepsOf(ts[2..], "size") == [g.elf];
    assert DepsOf(ts[2..], "upload") == DepsOf(ts[3..], "upload") == [g.firmware];
    assert DepsOf(ts[1..], "upload") == DepsOf(ts[2..], "upload");
  }

  /** Exactly `nobuild`, `size` and `upload` are always built; `buildprog` is not. */
  lemma GraphAlwaysBuilt(nobuild: bool, buildDir: string, progName: string)
    ensures AlwaysBuilt(BuildGraph(nobuild, buildDir, progName).targets) == {"nobuild", "size", "upload"}
  {
    var ts := BuildGraph(nobuild, buildDir, progName).targets;
    forall name | name in AlwaysBuilt(ts) ensures name in {"nobuild", "size", "upload"} {
      var t :| t in ts && t.alwaysBuild && t.name == name;
    }
    assert ts[0] in ts && ts[2] in ts && ts[3] in ts;
  }

  /**
   * In "nobuild" mode nothing is compiled, linked or converted: no node any
   * target depends on, or runs, is produced by a step.
   */
  lemma NoBuildRunsNoStep(buildDir: string, progName: string)
    ensures var g := BuildGraph(true, buildDir, progName);
      forall t, n :: t in g.targets && (n in t.deps || t.action == Nodes(n)) ==> Steps(n) == {}
  {
  }

  /**
   * Otherwise the image is converted from the linked ELF, so building the
   * image, and with it `upload` and `buildprog`, first links the ELF; `size`
   * needs only the ELF.
   */
  lemma BuildOrdersSteps(buildDir: string, progName: string)
    ensures var g := BuildGraph(false, buildDir, progName);
      && g.elf.Program? && g.firmware.Hex? && g.firmware.elf == g.elf
      && Steps(g.firmware) == {g.firmware, g.elf}
      && Steps(g.elf) == {g.elf}
  {
  }

  /**
   * In either mode the ELF and the image share one base name, the build
   * directory joined with the program name, and differ only in their
   * suffixes; so "nobuild" names exactly the files a build would produce.
   */
  lemma ArtifactPaths(nobuild: bool, buildDir: string, progName: string)
    requires !EndsWith(progName, HexSuffix)
    ensures var g, base := BuildGraph(nobuild, buildDir, progName), Join(buildDir, [progName]);
      && g.elf.path == base + ProgSuffix
      && g.firmware.path == base + HexSuffix
  {
    var base := Join(buildDir, [progName]);
    SlashEnds(ProgSuffix);
    SlashEnds(HexSuffix);
    assert ProgSuffix[0] == '.' && HexSuffix[0] == '.';
    assert [progName][..0] + [progName + ProgSuffix] == [progName + ProgSuffix];
    assert [progName][..0] + [progName + HexSuffix] == [progName + HexSuffix];
    JoinAppendSuffix(buildDir, [progName], ProgSuffix);
    JoinAppendSuffix(buildDir, [progName], HexSuffix);
    assert base == JoinStep(buildDir, progName);
    JoinStepEndsWith(buildDir, progName, HexSuffix);
  }

  /** The paths of the two artifacts do not depend on whether the build runs. */
  lemma NoBuildPathsAgree(buildDir: string, progName: string)
    requires !EndsWith(progName, HexSuffix)
    ensures BuildGraph(true, buildDir, progName).elf.path == BuildGraph(false, buildDir, progName).elf.path
    ensures BuildGraph(true, buildDir, progName).firmware.path == BuildGraph(false, buildDir, progName).firmware.path
  {
    ArtifactPaths(true, buildDir, progName);
    ArtifactPaths(false, buildDir, progName);
  }
}
