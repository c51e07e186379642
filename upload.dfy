/**
 * The upload-protocol dispatcher: from the protocol name, the installed
 * tool packages and the board description, the uploader to run, its flags
 * and the command line that combines them. "dslite" runs TI's DebugServer
 * DSLite with the board's `.ccxml` file; "openocd" runs OpenOCD with the
 * board's server arguments plus a program/reset/shutdown command, every
 * `$PACKAGE_DIR` in them replaced by the package directory; any other
 * protocol sets nothing.
 */
module Upload {
  import opened Wrappers
  import opened PyStr
  import opened PosixPath

  /** What the script reads from the board description. */
  datatype Board = Board(
    variant: string,                        // `build.variant`, which the board must define
    serverArguments: Option<seq<string>>)   // `debug.tools.mspdebug.server.arguments`, if defined

  /** UPLOADER, UPLOADERFLAGS and UPLOADCMD as the script sets them. */
  datatype Uploader = Uploader(uploader: string, flags: seq<string>, command: string)

  const PackageDirPlaceholder := "$PACKAGE_DIR"

  /** The words the script appends to OpenOCD's arguments. */
  const OpenocdProgram: seq<string> := ["-c", "program {$SOURCE} reset; shutdown;"]

  /**
   * `platform.get_package_dir(name) or ""`: the installed package's
   * directory, or "" when the package is missing; the result is empty
   * exactly when there is no directory to report.
   */
  function PackageDir(packages: map<string, string>, name: string): (r: string)
    ensures r == "" <==> name !in packages || packages[name] == ""
    ensures r != "" ==> name in packages && r == packages[name]
  {
    if name in packages then packages[name] else ""
  }

  /** The "dslite" uploader for the package directory `pkg`. */
  function Dslite(pkg: string, variant: string): Uploader {
    Uploader(
      Join(pkg, ["DebugServer", "bin", "DSLite"]),
      ["load", "-c", Join(pkg, [variant + ".ccxml"]), "-f"],
      "$UPLOADER $UPLOADERFLAGS $SOURCES")
  }

  /**
   * `[f.replace("$PACKAGE_DIR", pkg) for f in args]`: one result per
   * argument, in order, and an argument without the placeholder comes
   * through as it is.
   */
  function SubstitutePackageDir(args: seq<string>, pkg: string): (r: seq<string>)
    ensures |r| == |args|
    ensures forall i :: 0 <= i < |args| ==> r[i] == ReplaceAll(args[i], PackageDirPlaceholder, pkg)
    ensures forall i :: 0 <= i < |args| && !IsInfix(PackageDirPlaceholder, args[i]) ==> r[i] == args[i]
  {
    var r := seq(|args|, i requires 0 <= i < |args| => ReplaceAll(args[i], PackageDirPlaceholder, pkg));
    assert forall i :: 0 <= i < |args| && !IsInfix(PackageDirPlaceholder, args[i]) ==> r[i] == args[i] by {
      forall i | 0 <= i < |args| && !IsInfix(PackageDirPlaceholder, args[i]) {
        ReplaceAbsent(args[i], PackageDirPlaceholder, pkg);
      }
    }
    r
  }

  /** The "openocd" uploader: the board's server arguments (none if it has none), then the program command. */
  function Openocd(pkg: string, serverArguments: Option<seq<string>>): Uploader {
    var args := match serverArguments case Some(a) => a case None => [];
    Uploader("openocd", SubstitutePackageDir(args + OpenocdProgram, pkg), "$UPLOADER $UPLOADERFLAGS")
  }

  /**
   * The uploader for `protocol`, or None for any protocol other than
   * "dslite" and "openocd", which leaves the upload settings as they were.
   */
  function Dispatch(protocol: string, packages: map<string, string>, board: Board): (r: Option<Uploader>)
    ensures r.None? <==> protocol != "dslite" && protocol != "openocd"
    ensures protocol == "dslite" ==> r == Some(Dslite(PackageDir(packages, "tool-dslite"), board.variant))
    ensures protocol == "openocd" ==> r == Some(Openocd(PackageDir(packages, "tool-openocd"), board.serverArguments))
  {
    if protocol == "dslite" then
      Some(Dslite(PackageDir(packages, "tool-dslite"), board.variant))
    else if protocol == "openocd" then
      Some(Openocd(PackageDir(packages, "tool-openocd"), board.serverArguments))
    else
      None
  }

  /**
   * DSLite always gets four flags, `load -c <file> -f`, where the file is the
   * board variant's `.ccxml` and the uploader is the `DSLite` binary.
   */
  lemma DsliteLayout(pkg: string, variant: string)
    ensures var u := Dslite(pkg, variant);
      && |u.flags| == 4
      && u.flags[0] == "load" && u.flags[1] == "-c" && u.flags[3] == "-f"
      && EndsWith(u.flags[2], variant + ".ccxml")
      && EndsWith(u.uploader, "DSLite")
      && u.command == "$UPLOADER $UPLOADERFLAGS $SOURCES"
  {
    JoinEndsWithLast(pkg, ["DebugServer", "bin", "DSLite"]);
    JoinEndsWithLast(pkg, [variant + ".ccxml"]);
  }

  /** Three plain components under a base: with a base they are joined to it by "/", and an empty base vanishes. */
  lemma JoinThree(base: string, x: string, y: string, z: string)
    requires !EndsWith(base, "/")
    requires Plain(x) && Plain(y) && Plain(z)
    ensures base != [] ==> Join(base, [x, y, z]) == base + "/" + x + "/" + y + "/" + z
    ensures base == [] ==> Join(base, [x, y, z]) == x + "/" + y + "/" + z
  {
    JoinStepPlain(base, x);
    var bx := JoinStep(base, x);
    JoinStepPlain(bx, y);
    var bxy := JoinStep(bx, y);
    JoinStepPlain(bxy, z);
    assert [x, y, z][1..] == [y, z] && [y, z][1..] == [z] && [z][1..] == [];
    assert Join(bxy, [z]) == JoinStep(bxy, z);
    assert Join(bx, [y, z]) == Join(bxy, [z]);
    assert Join(base, [x, y, z]) == Join(bx, [y, z]);
  }

  /** The "/"-free names of the DSLite binary's directories and file. */
  lemma DslitePartsPlain()
    ensures Plain("DebugServer") && Plain("bin") && Plain("DSLite")
  {
  }

  /** With the package missing (`pkg == ""`) the paths lose their prefix instead of failing. */
  lemma DsliteWithoutPackage(variant: string)
    ensures Dslite("", variant).uploader == "DebugServer" + "/" + "bin" + "/" + "DSLite"
    ensures Dslite("", variant).flags[2] == variant + ".ccxml"
  {
    DslitePartsPlain();
    SlashEnds("");
    JoinThree("", "DebugServer", "bin", "DSLite");
    var file := variant + ".ccxml";
    assert Join("", [file]) == JoinStep("", file) == file;
  }

  /**
   * With the package at `pkg` (non-empty, no trailing "/") and a variant
   * that is not an absolute path, the uploader is `pkg/DebugServer/bin/DSLite`
   * and the configuration file is `pkg/<variant>.ccxml`.
   */
  lemma DsliteWithPackage(pkg: string, variant: string)
    requires pkg != [] && !EndsWith(pkg, "/")
    requires !StartsWith(variant, "/")
    ensures Dslite(pkg, variant).uploader == pkg + "/" + "DebugServer" + "/" + "bin" + "/" + "DSLite"
    ensures Dslite(pkg, variant).flags[2] == pkg + "/" + variant + ".ccxml"
  {
    DslitePartsPlain();
    JoinThree(pkg, "DebugServer", "bin", "DSLite");
    var v := variant;
    assert !StartsWith(v + ".ccxml", "/") by {
      if v == [] {
        assert v + ".ccxml" == ".ccxml";
      } else {
        assert (v + ".ccxml")[0] == v[0];
      }
    }
    assert Join(pkg, [v + ".ccxml"]) == JoinStep(pkg, v + ".ccxml") == pkg + "/" + (v + ".ccxml");
    assert pkg + "/" + (v + ".ccxml") == pkg + "/" + v + ".ccxml";
  }

  /** The two words appended for OpenOCD contain no `$PACKAGE_DIR`, so substitution leaves them alone. */
  lemma OpenocdProgramUntouched(pkg: string)
    ensures SubstitutePackageDir(OpenocdProgram, pkg) == OpenocdProgram
  {
    assert 'P' in PackageDirPlaceholder;
    forall i | 0 <= i < |OpenocdProgram|
      ensures ReplaceAll(OpenocdProgram[i], PackageDirPlaceholder, pkg) == OpenocdProgram[i]
    {
      assert 'P' !in OpenocdProgram[i];
      if IsInfix(PackageDirPlaceholder, OpenocdProgram[i]) {
        InfixHasChars(PackageDirPlaceholder, OpenocdProgram[i], 'P');
      }
      ReplaceAbsent(OpenocdProgram[i], PackageDirPlaceholder, pkg);
    }
  }

  /**
   * OpenOCD's flags are the board's arguments, each with `$PACKAGE_DIR`
   * replaced, followed by `-c` and `program {$SOURCE} reset; shutdown;`
   * unchanged: two more than the board gives.
   */
  lemma OpenocdLayout(pkg: string, args: seq<string>)
    ensures var u := Openocd(pkg, Some(args));
      && u.uploader == "openocd"
      && u.command == "$UPLOADER $UPLOADERFLAGS"
      && |u.flags| == |args| + 2
      && (forall i :: 0 <= i < |args| ==> u.flags[i] == ReplaceAll(args[i], PackageDirPlaceholder, pkg))
      && u.flags[|args|..] == OpenocdProgram
  {
    var flags := Openocd(pkg, Some(args)).flags;
    OpenocdProgramUntouched(pkg);
    assert flags[|args|..] == SubstitutePackageDir(OpenocdProgram, pkg);
  }

  /** A board without server arguments gets just the program command. */
  lemma OpenocdWithoutArguments(pkg: string)
    ensures Openocd(pkg, None).flags == OpenocdProgram
  {
    OpenocdProgramUntouched(pkg);
    assert [] + OpenocdProgram == OpenocdProgram;
  }

  /**
   * A board argument comes through unchanged exactly when it holds no
   * `$PACKAGE_DIR` or the package directory is that very text.
   */
  lemma OpenocdArgumentKept(pkg: string, args: seq<string>, i: nat)
    requires i < |args|
    ensures Openocd(pkg, Some(args)).flags[i] == args[i]
      <==> !IsInfix(PackageDirPlaceholder, args[i]) || pkg == PackageDirPlaceholder
  {
    OpenocdLayout(pkg, args);
    ReplaceUnchangedIff(args[i], PackageDirPlaceholder, pkg);
  }

  /** Board arguments without `$PACKAGE_DIR` are passed on as they are, followed by the program command. */
  lemma OpenocdPlainArguments(pkg: string, args: seq<string>)
    requires forall i :: 0 <= i < |args| ==> !IsInfix(PackageDirPlaceholder, args[i])
    ensures Openocd(pkg, Some(args)).flags == args + OpenocdProgram
  {
    var flags := Openocd(pkg, Some(args)).flags;
    OpenocdLayout(pkg, args);
    forall i | 0 <= i < |args| ensures flags[i] == args[i] {
      ReplaceAbsent(args[i], PackageDirPlaceholder, pkg);
    }
    assert flags == flags[..|args|] + flags[|args|..];
    assert flags[..|args|] == args;
  }
}
