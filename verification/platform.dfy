/**
 Host-platform classification and the fixed command tables the mojo spawns:
 `getOSType`, the six `GRUNT_*_COMMAND` constants and the argument vectors of
 `copyDirectoryOnWindows` / `copyDirectoryOnUnix`.
 */
module Platform {
  import opened Optional
  import JavaStrings

  /** `OS_TYPE_WIN` and `OS_TYPE_UNIX_LIKE`. */
  datatype OsType = Windows | UnixLike

  /** One process to spawn: its argument vector and, if any, its working directory. */
  datatype Command = Command(argv: seq<string>, workDir: Option<string>)

  /** The three toolchain steps of a run. */
  datatype Step = Install | Update | Build

  /** A name spelling "win" in its first three characters, in any case. */
  predicate WindowsName(osName: string)
  {
    |osName| >= 3 && osName[0] in "Ww" && osName[1] in "Ii" && osName[2] in "Nn"
  }

  /**
   `getOSType` for a non-null `os.name`: Windows exactly when the name, lowered,
   starts with "win", that is when its first three characters spell w-i-n in
   any mix of cases.
   */
  function OsTypeOf(osName: string): (os: OsType)
    ensures os == Windows <==> WindowsName(osName)
  {
    var lowered := JavaStrings.ToLowerCase(osName);
    if JavaStrings.StartsWith(lowered, "win") then Windows else UnixLike
  }

  /** `GRUNT_INSTALL_UNIX_COMMAND`, `GRUNT_UPDATE_UNIX_COMMAND`, `GRUNT_BUILD_UNIX_COMMAND`. */
  function UnixArgv(step: Step): seq<string>
  {
    match step
    case Install => ["npm", "install", "grunt", "--save-dev"]
    case Update => ["npm", "install"]
    case Build => ["grunt"]
  }

  /** `GRUNT_INSTALL_WIN_COMMAND`, `GRUNT_UPDATE_WIN_COMMAND`, `GRUNT_BUILD_WIN_COMMAND`. */
  function WindowsArgv(step: Step): seq<string>
  {
    match step
    case Install => ["cmd.exe", "/c", "npm", "install", "grunt", "--save-dev"]
    case Update => ["cmd.exe", "/c", "npm", "install"]
    case Build => ["cmd.exe", "/c", "grunt"]
  }

  /**
   The command table `execute` selects for an OS type. The Windows table runs
   the very same Unix command line through `cmd.exe /c`; install and update
   both go through npm, and build is grunt on its own.
   */
  function StepArgv(os: OsType, step: Step): (argv: seq<string>)
    ensures os == Windows ==> argv == ["cmd.exe", "/c"] + UnixArgv(step)
    ensures os == UnixLike ==> argv == UnixArgv(step)
    ensures step != Build <==> "npm" in argv
    ensures step == Build ==> argv[|argv| - 1] == "grunt"
  {
    if os == Windows then WindowsArgv(step) else UnixArgv(step)
  }

  /** A toolchain step, spawned in the grunt directory. */
  function StepCommand(os: OsType, step: Step, gruntPath: string): (c: Command)
    ensures c.workDir == Some(gruntPath)
    ensures |c.argv| > 0
  {
    Command(StepArgv(os, step), Some(gruntPath))
  }

  /**
   The argument vectors of `copyDirectoryOnWindows` and `copyDirectoryOnUnix`:
   xcopy through `cmd.exe /c` on Windows, and on Unix a vector whose program
   name is the single string "cp -rf " (with its spaces) followed by the
   xcopy switches. Both end with source, destination and `/S /E /Y`.
   */
  function CopyArgv(os: OsType, absSrc: string, absDest: string): (argv: seq<string>)
    ensures |argv| >= 6
    ensures argv[|argv| - 5] == absSrc && argv[|argv| - 4] == absDest
    ensures argv[|argv| - 3..] == ["/S", "/E", "/Y"]
    ensures os == Windows ==> argv[..3] == ["cmd.exe", "/c", "xcopy"] && |argv| == 8
    ensures os == UnixLike ==> argv[0] == "cp -rf " && |argv| == 6
  {
    match os
    case Windows => ["cmd.exe", "/c", "xcopy", absSrc, absDest, "/S", "/E", "/Y"]
    case UnixLike => ["cp -rf ", absSrc, absDest, "/S", "/E", "/Y"]
  }

  /**
   The program the copy asks `Runtime.exec` to start: `cmd.exe` on Windows,
   and on Unix the string "cp -rf ", which is not the program `cp`.
   */
  function CopyProgram(os: OsType): (program: string)
    ensures forall absSrc, absDest :: CopyArgv(os, absSrc, absDest)[0] == program
    ensures os == UnixLike ==> program != "cp"
  {
    if os == Windows then "cmd.exe" else "cp -rf "
  }

  /** The copy process, spawned without a working directory. */
  function CopyCommand(os: OsType, absSrc: string, absDest: string): (c: Command)
    ensures c.workDir == None
    ensures |c.argv| > 0
  {
    Command(CopyArgv(os, absSrc, absDest), None)
  }
}
