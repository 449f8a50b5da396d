# grunt-maven-plugin: a Dafny model of the `build` goal

The plugin is one Maven mojo (`cn.com.cnwidsom.Main`, goal `build`, phase
`prepare-package`) that drives a grunt front-end build. When `execute` runs it:

1. classifies the host from the `os.name` property: Windows when the lowered
   name starts with `win`, Unix-like otherwise. This picks one of two fixed
   command tables;
2. when `os.name` is set, does nothing and succeeds when `gruntPath` is null
   or empty (a null `os.name` fails before this point);
3. fails when the grunt directory does not exist, or when fewer than two of
   its entries are named `Gruntfile.js` or `package.json` (ignoring case), or
   when it cannot be listed;
4. spawns `npm install grunt --save-dev` and `npm install` when `autoUpdate`
   holds, then `grunt`, all in the grunt directory (through `cmd.exe /c` on
   Windows);
5. when both `outputDir` and `copyTo` are set, fails if the output directory
   is missing, creates the destination with `mkdirs` when it is missing
   (failing if that fails), and spawns the copy (`xcopy` on Windows; on Unix
   a vector whose program name is the string `"cp -rf "`) without a working
   directory.

Every exception is caught at the top and rethrown as a
`MojoFailureException` with an empty message.

The model is a pure function, `GruntMojo.Execute(cfg, host)`. Its result is a
`Run`: the commands spawned, in order (argument vector and working directory);
the directory `mkdirs` created, if any; and the outcome, which is success or
a wrapped failure with a typed cause. A failure keeps the commands spawned
before it, so "fails after build" and "fails before the copy" can be stated.
The host is an input. It gives the `os.name` value (or null), an abstract
file system, and the set of program names `Runtime.exec` can start.

Modules:

- `Optional`, `JavaStrings` (java_strings.dfy): Java null, `StringUtils.isNotEmpty`,
  `toLowerCase`, `startsWith` and `equalsIgnoreCase` with Java's per-character
  rule.
- `Platform` (platform.dfy): `getOSType`, the six command-table constants, and
  the copy argument vectors.
- `Markers` (markers.dfy): the `FilenameFilter` and the count threshold.
- `GruntMojo` (grunt_mojo.dfy): configuration, host, causes, and `execute`.
- `GruntMojoProperties` (grunt_mojo_properties.dfy): one lemma per behaviour of
  `execute`.

The central contract is on `GruntMojo.Execute`. It uses `IntendedPlan`, the
commands a run spawns when nothing fails. Every run spawns a prefix of that
plan. A successful run spawns all of it. Every failure has an empty message.
Every spawned command names a program that can be started.

Behaviour of the code worth noting:

- Platform detection tests only the prefix `win` of the lower-cased `os.name`.
- The marker check counts accepted entries; it does not look for each marker.
  `Markers.CountsEntriesNotMarkers` shows that two spellings of `package.json`
  pass without any `Gruntfile.js`.
- No failure distinguishes configuration errors from execution errors. All
  of them are wrapped alike.
- Exit codes are never read. Only a program that cannot be started ends a run.
- The Unix copy's program name is the single string `"cp -rf "` followed by
  xcopy's switches. `GruntMojoProperties.UnixCopyNeedsProgramCpRf` states what
  that means on a host with no program of that name, even one that can start
  `cp`.
- A failure's message is empty, and the message `execute` built is kept only
  in the cause. `GruntMojo.Message` rebuilds it, and
  `GruntMojoProperties.FailureMessageNamesPath` shows that it names the
  configured path the failure is about.

## Model

| member | source | states |
|---|---|---|
| JavaStrings.EqualsIgnoreCase | src/main/java/cn/com/cnwidsom/Main.java:90 | two strings are equal ignoring case exactly when they have the same length and at every position the characters are equal, or equal after upper-casing, or equal after lower-casing the upper cases |
| JavaStrings.EqualsIgnoreCaseAscii | src/main/java/cn/com/cnwidsom/Main.java:90 | on ASCII strings, equality ignoring case coincides with equality of the lower-case forms |
| Platform.OsTypeOf | src/main/java/cn/com/cnwidsom/Main.java:54-65 | the host is Windows exactly when the first three characters of `os.name` are w, i, n in any case; every other name, including shorter ones, is Unix-like |
| Platform.StepArgv | src/main/java/cn/com/cnwidsom/Main.java:29-35 | each Windows command is the Unix command run through `cmd.exe /c`; install and update run npm, build does not and ends with grunt |
| Platform.CopyArgv | src/main/java/cn/com/cnwidsom/Main.java:159-172 | both copy vectors end with the absolute source, the absolute destination and `/S /E /Y`; Windows starts with `cmd.exe /c xcopy` (8 entries), Unix with the program name `"cp -rf "` (6 entries) |
| Markers.Matching | src/main/java/cn/com/cnwidsom/Main.java:88-94 | the filtered listing holds only accepted names from the listing, holds every accepted entry, and has one element per accepted position |
| Markers.Validate | src/main/java/cn/com/cnwidsom/Main.java:95-97 | the check passes exactly when the listing is non-null and at least two of its positions hold accepted names |
| Markers.NullListingFails | src/main/java/cn/com/cnwidsom/Main.java:95 | a null listing fails the check |
| Markers.TwoAcceptedPass | src/main/java/cn/com/cnwidsom/Main.java:95-97 | any two distinct accepted entries make the check pass |
| Markers.FewerThanTwoFail | src/main/java/cn/com/cnwidsom/Main.java:95-97 | a listing in which no two entries are both accepted fails the check |
| Markers.AcceptAscii | src/main/java/cn/com/cnwidsom/Main.java:89-93 | an ASCII name is accepted exactly when its lower case is `gruntfile.js` or `package.json` |
| Markers.BothMarkersPass | src/main/java/cn/com/cnwidsom/Main.java:88-97 | a listing with an entry matching each marker, in any case, passes |
| Markers.CountsEntriesNotMarkers | src/main/java/cn/com/cnwidsom/Main.java:88-97 | `package.json` and `PACKAGE.JSON` together pass although neither is a `Gruntfile.js` |
| Markers.DotlessIAccepted | src/main/java/cn/com/cnwidsom/Main.java:90 | Java's case folding accepts `Gruntfıle.js` spelled with a dotless i |
| GruntMojo.Message | src/main/java/cn/com/cnwidsom/Main.java:84-131 | the thrown messages name the offending path: the grunt directory by absolute path (with both marker names when markers are missing), the copy directories as configured |
| GruntMojo.IntendedPlan | src/main/java/cn/com/cnwidsom/Main.java:83-135 | the full run has no commands without a grunt directory, and otherwise three or one toolchain commands plus one copy when both copy directories are set |
| GruntMojo.ToolchainPlan | src/main/java/cn/com/cnwidsom/Main.java:99-114 | three commands with `autoUpdate` and one without, all in the grunt directory, with build last |
| GruntMojo.CopyPlan | src/main/java/cn/com/cnwidsom/Main.java:116-134 | one copy command without a working directory exactly when both copy directories are set |
| GruntMojo.Execute | src/main/java/cn/com/cnwidsom/Main.java:69-144 | every failure has an empty message; a null `os.name` fails before anything; the spawned commands are a prefix of the intended plan, and the run succeeds exactly when it spawned all of it; only `copyTo` is ever created, only when the copy is configured, it did not exist and `mkdirs` can make it; every spawned program can be started |
| GruntMojo.RunGrunt | src/main/java/cn/com/cnwidsom/Main.java:83-135 | the same guarantees, success exactly when the whole plan was spawned included, for a run with a configured grunt directory, after its existence and marker checks |
| GruntMojo.BuildAndCopy | src/main/java/cn/com/cnwidsom/Main.java:99-135 | after the checks, the spawned commands are a prefix of the toolchain steps followed by the copy, and the run succeeds exactly when it spawned all of them |
| GruntMojo.RunToolchain | src/main/java/cn/com/cnwidsom/Main.java:99-114 | the toolchain spawns a prefix of install, update and build; it succeeds exactly when it spawns all of them, and creates nothing |
| GruntMojo.CopyOutput | src/main/java/cn/com/cnwidsom/Main.java:116-135 | an earlier failure or an unconfigured copy leaves the run unchanged; otherwise the copy is appended only after a successful build, a failure spawns nothing more, and only a missing `copyTo` that `mkdirs` can make is created |
| GruntMojoProperties.SpawnedFromPlatformTables | src/main/java/cn/com/cnwidsom/Main.java:74-82 | every spawned command is a step of the host's own table in the grunt directory, or that platform's copy of the configured directories |
| GruntMojoProperties.WindowsRunsCmdExe | src/main/java/cn/com/cnwidsom/Main.java:60-61 | on a host whose name starts with win in any case, every spawned command starts with `cmd.exe /c` |
| GruntMojoProperties.OtherNameRunsUnixCommands | src/main/java/cn/com/cnwidsom/Main.java:62-63 | on any other host every spawned program is npm, grunt or `"cp -rf "` |
| GruntMojoProperties.SkipWhenUnconfigured | src/main/java/cn/com/cnwidsom/Main.java:137-139 | with no grunt directory the run spawns nothing, creates nothing and succeeds, whatever the file system holds |
| GruntMojoProperties.MissingGruntPathFails | src/main/java/cn/com/cnwidsom/Main.java:84-86 | a configured grunt directory that does not exist fails with its absolute path, with nothing spawned |
| GruntMojoProperties.MarkerCheckGatesToolchain | src/main/java/cn/com/cnwidsom/Main.java:88-97 | for an existing grunt directory the run fails on the markers exactly when the check rejects the listing, and then nothing is spawned |
| GruntMojoProperties.CopyOutputCauses | src/main/java/cn/com/cnwidsom/Main.java:116-132 | a failure after the marker check is a spawn failure, a missing output directory or an uncreatable destination |
| GruntMojoProperties.BuildSequence | src/main/java/cn/com/cnwidsom/Main.java:99-114 | with startable programs the run begins install, update, build with `autoUpdate` and build alone without, all in the grunt directory |
| GruntMojoProperties.UnrunnableStepStopsRun | src/main/java/cn/com/cnwidsom/Main.java:99-114 | a toolchain step whose program cannot be started fails the run; build is not spawned and nothing is created |
| GruntMojoProperties.NoCopyWithoutBothDirectories | src/main/java/cn/com/cnwidsom/Main.java:116-134 | without both copy directories the run is exactly the toolchain steps and succeeds |
| GruntMojoProperties.CopyGating | src/main/java/cn/com/cnwidsom/Main.java:116-129 | one command beyond the toolchain is spawned exactly when both directories are set, the output directory exists, the destination exists or can be made, and the copy program can be started |
| GruntMojoProperties.MissingOutputDirFails | src/main/java/cn/com/cnwidsom/Main.java:130-131 | a missing output directory fails after the toolchain steps, with no copy and nothing created |
| GruntMojoProperties.UncreatableCopyToFails | src/main/java/cn/com/cnwidsom/Main.java:120-123 | a missing destination that cannot be made fails after the toolchain steps, with no copy |
| GruntMojoProperties.CopyIntoExistingDirectory | src/main/java/cn/com/cnwidsom/Main.java:119-129 | an existing destination is not created again; with a startable copy program the run succeeds and ends with the copy of the absolute paths |
| GruntMojoProperties.CopyIntoCreatedDirectory | src/main/java/cn/com/cnwidsom/Main.java:120-129 | a missing destination that can be made is created, and the run ends with the copy of the absolute paths |
| GruntMojoProperties.UnixCopyNeedsProgramCpRf | src/main/java/cn/com/cnwidsom/Main.java:167-171 | on a Unix host with no program named `"cp -rf "`, whatever else it can start, a configured copy fails after build |
| GruntMojoProperties.FailureMessageNamesPath | src/main/java/cn/com/cnwidsom/Main.java:84-131 | the message of each failure `execute` throws itself names the configured path: the grunt directory by absolute path for a missing directory or missing markers, the output directory or destination as configured |
| Platform.CopyProgram | src/main/java/cn/com/cnwidsom/Main.java:159-172 | the program every copy asks to start, whatever the paths; on Unix it is not `cp` |
| GruntMojoProperties.WorkingDirectories | src/main/java/cn/com/cnwidsom/Main.java:102-112 | only the copy runs without a working directory, and it is last; every other command runs in the grunt directory |

## Left out

- Spawning processes, draining their output with `waitForStdOut`, and
  `destroy`. A spawn is a command appended to the run. Exit codes are never
  read, so no process outcome is modelled.
- An `IOException` while reading a process's output is not modelled. Only a
  program that `Runtime.exec` cannot start fails a spawn.
- Logging (`getLog().info`, `System.out.println`, `toString`) and the Maven
  mojo framework.
- Real file-system semantics. `exists`, `listFiles`, `mkdirs` and
  `getAbsolutePath` are inputs. Paths are compared as strings.
- After `mkdirs`, the model records only the created directory. The rest of
  the file system is not updated, and `execute` reads nothing more from it.
- `getOSType` is called up to four times. The model calls it once, because
  `os.name` does not change during a run.
- JavaStrings.ToLowerCase: lowers ASCII letters only, in the root locale. For
  the `win` prefix test this is still exact. The only other character whose
  lower case begins with w, i or n is the dotted İ, which lowers to `i`
  followed by the combining dot U+0307. Where İ stands first or third, its
  `i` is not the `w` or `n` required there. Where it stands second, the
  combining dot lands where `n` is required. So a name containing İ in its
  first three characters is Unix-like in Java as in the model.
- Platform.OsTypeOf: assumes root-locale lowering. Java's `toLowerCase()` uses
  the default locale. Under a Turkish or Azeri default locale `I` lowers to
  the dotless ı, so Java would classify `WINDOWS 10` as Unix-like. The model
  classifies it as Windows.
- JavaStrings.EqualsIgnoreCase: its case tables cover the ASCII letters plus
  four non-ASCII characters whose Java case mapping is an ASCII letter: the
  dotless ı, the long ſ, the dotted İ and the Kelvin sign. The model is exact
  whenever one side is ASCII, as both markers are. It is weaker than Java for
  two non-ASCII strings.
