/**
 * The two artifact formats of a build, the linked ELF program and the
 * Intel HEX image, and the objcopy command that converts one into the other.
 */
module ImageFormat {
  import opened PyStr

  const ProgSuffix := ".elf"
  const HexSuffix := ".hex"

  /** The words of the conversion command, in order. */
  const HexWords: seq<string> := ["$OBJCOPY", "-O", "ihex", "-R", ".eeprom", "$SOURCES", "$TARGET"]

  /** `" ".join(HexWords)` */
  const HexCommand: string := JoinWith(' ', HexWords)

  /** One step of the join: the first word, a space, and the rest joined. */
  lemma JoinWithStep(ws: seq<string>)
    requires |ws| >= 2
    ensures JoinWith(' ', ws) == ws[0] + " " + JoinWith(' ', ws[1..])
  {
  }

  /** Joining the seven words with single spaces gives `$OBJCOPY -O ihex -R .eeprom $SOURCES $TARGET`. */
  lemma HexWordsJoined()
    ensures JoinWith(' ', HexWords) == "$OBJCOPY " + "-O " + "ihex " + "-R " + ".eeprom " + "$SOURCES " + "$TARGET"
  {
    var w := HexWords;
    assert w[6..] == ["$TARGET"];
    assert w[5..][1..] == w[6..];
    assert w[4..][1..] == w[5..];
    assert w[3..][1..] == w[4..];
    assert w[2..][1..] == w[3..];
    assert w[1..][1..] == w[2..];
    JoinWithStep(w);
    JoinWithStep(w[1..]);
    JoinWithStep(w[2..]);
    JoinWithStep(w[3..]);
    JoinWithStep(w[4..]);
    JoinWithStep(w[5..]);
    var t5 := "$SOURCES " + "$TARGET";
    var t4 := ".eeprom " + t5;
    var t3 := "-R " + t4;
    var t2 := "ihex " + t3;
    var t1 := "-O " + t2;
    assert JoinWith(' ', w[5..]) == t5;
    assert JoinWith(' ', w[4..]) == t4;
    assert JoinWith(' ', w[3..]) == t3;
    assert JoinWith(' ', w[2..]) == t2;
    assert JoinWith(' ', w[1..]) == t1;
    assert JoinWith(' ', w) == "$OBJCOPY " + t1;
  }

  /**
   * The conversion command is exactly `$OBJCOPY -O ihex -R .eeprom $SOURCES
   * $TARGET`, and splitting it at single spaces gives back its seven words in
   * order.
   */
  lemma HexCommandExact()
    ensures HexCommand == "$OBJCOPY " + "-O " + "ihex " + "-R " + ".eeprom " + "$SOURCES " + "$TARGET"
    ensures Split(HexCommand, ' ') == HexWords
  {
    HexWordsJoined();
    assert forall i :: 0 <= i < |HexWords| ==> ' ' !in HexWords[i];
    SplitJoin(HexWords, ' ');
  }
}

/**
 * The toolchain configuration the build script writes into the
 * environment: the arm-none-eabi tool names and fixed settings it
 * replaces, and the compile, link and library lists it appends, in order.
 */
module Toolchain {
  import opened Environment
  import opened ImageFormat

  /** The builder that turns the ELF into an Intel HEX image. */
  const ElfToHex := BuilderSpec(HexCommand, "Building $TARGET", HexSuffix)

  /** The variables the script sets with `env.Replace`, overwriting whatever they held. */
  const ToolVars: map<string, Value> := map[
    "AR" := Str("arm-none-eabi-ar"),
    "AS" := Str("arm-none-eabi-as"),
    "CC" := Str("arm-none-eabi-gcc"),
    "CXX" := Str("arm-none-eabi-g++"),
    "GDB" := Str("arm-none-eabi-gdb"),
    "OBJCOPY" := Str("arm-none-eabi-objcopy"),
    "RANLIB" := Str("arm-none-eabi-ranlib"),
    "SIZETOOL" := Str("arm-none-eabi-size"),
    "ARFLAGS" := List(Words(["rc"])),
    "PIODEBUGFLAGS" := List(Words(["-O0", "-g3", "-ggdb", "-gdwarf-2"])),
    "SIZEPROGREGEXP" := Str(@"^(?:\.text|\.data|\.rodata|\.text.align|\.ARM.exidx)\s+(\d+).*"),
    "SIZEDATAREGEXP" := Str(@"^(?:\.data|\.bss|\.noinit)\s+(\d+).*"),
    "SIZECHECKCMD" := Str("$SIZETOOL -A -d $SOURCES"),
    "SIZEPRINTCMD" := Str("$SIZETOOL -B -d $SOURCES"),
    "PROGSUFFIX" := Str(ProgSuffix)
  ]

  const CcFlags: seq<string> := [
    "-Os", "-ffunction-sections", "-fdata-sections", "-mthumb", "-mcpu=$BOARD_MCU",
    "-mfpu=fpv4-sp-d16", "-mabi=aapcs", "-mfloat-abi=hard", "-march=armv7e-m", "-MMD"
  ]
  const CxxFlags: seq<string> := ["-fno-exceptions", "-fno-threadsafe-statics", "-fno-rtti"]
  const CppDefines: seq<Item> := [Define("F_CPU", "$BOARD_F_CPU"), Word("gcc")]
  const LinkFlags: seq<string> := [
    "-Os", "-mthumb", "-mcpu=$BOARD_MCU", "-mfpu=fpv4-sp-d16", "-mfloat-abi=hard",
    "-mabi=aapcs", "-specs=nosys.specs"
  ]
  const Libs: seq<string> := ["m", "stdc++", "gcc", "nosys", "c"]

  /** The variables the script extends with `env.Append`. */
  const FlagVars: map<string, Value> := map[
    "CCFLAGS" := List(Words(CcFlags)),
    "CXXFLAGS" := List(Words(CxxFlags)),
    "CPPDEFINES" := List(CppDefines),
    "LINKFLAGS" := List(Words(LinkFlags)),
    "LIBS" := List(Words(Libs)),
    "BUILDERS" := Builders(map["ElfToHex" := ElfToHex])
  ]

  /** The list-valued variables among FlagVars. */
  const FlagListKeys: set<string> := {"CCFLAGS", "CXXFLAGS", "CPPDEFINES", "LINKFLAGS", "LIBS"}

  /** None of the appended flag lists is among the replaced variables. */
  lemma FlagKeysNotReplaced()
    ensures forall k :: k in FlagListKeys ==> k !in ToolVars
  {
  }

  /** The variables the script writes after the toolchain: the program name, the framework and the upload settings. */
  const LaterKeys: set<string> := {"PROGNAME", "PIOFRAMEWORK", "UPLOADER", "UPLOADERFLAGS", "UPLOADCMD"}

  /** The appended variables are the five flag lists and the builder table. */
  lemma FlagVarsKeys()
    ensures FlagVars.Keys == FlagListKeys + {"BUILDERS"}
  {
  }

  /** The builder table is not among the replaced variables either. */
  lemma BuildersNotReplaced()
    ensures "BUILDERS" !in ToolVars
  {
  }

  /** No replaced variable is written again later. */
  lemma LaterKeysNotReplaced()
    ensures forall k :: k in LaterKeys ==> k !in ToolVars
  {
  }

  /** No appended variable is written again later. */
  lemma LaterKeysNotAppended()
    ensures forall k :: k in LaterKeys ==> k !in FlagVars
  {
  }

  /** Each of the five flag variables is appended as a list. */
  lemma FlagKeysAppended()
    ensures forall k :: k in FlagListKeys ==> k in FlagVars && FlagVars[k].List?
  {
  }
}
