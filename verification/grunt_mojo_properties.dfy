/**
 Properties of `GruntMojo.Execute`, one lemma per behaviour of `execute`:
 the platform choice, each early exit, the order of the toolchain steps, and
 when and how the copy runs.
 */
module GruntMojoProperties {
  import opened Optional
  import opened JavaStrings
  import opened Platform
  import Markers
  import opened GruntMojo

  /** The grunt directory is configured, exists and passes the marker check. */
  predicate Validated(cfg: Config, host: Host)
  {
    && IsNotEmpty(cfg.gruntPath)
    && cfg.gruntPath.value in host.fs.existing
    && Markers.Validate(Listing(host.fs, cfg.gruntPath.value))
  }

  /** Every toolchain program of the host's platform can be started. */
  predicate ToolchainRunnable(os: OsType, programs: set<string>)
  {
    forall step: Step :: StepArgv(os, step)[0] in programs
  }

  /**
   Every command a run spawns is a toolchain step of the host's platform in
   the grunt directory, or the platform's copy of the configured directories.
   */
  lemma SpawnedFromPlatformTables(cfg: Config, host: Host)
    requires host.osName.Some? && IsNotEmpty(cfg.gruntPath)
    ensures var r := Execute(cfg, host);
            var os := OsTypeOf(host.osName.value);
            forall c :: c in r.spawned ==>
              || (exists step: Step :: c == StepCommand(os, step, cfg.gruntPath.value))
              || (CopyConfigured(cfg) &&
                  c == CopyCommand(os, host.fs.absolute(cfg.outputDir.value), host.fs.absolute(cfg.copyTo.value)))
  {
  }

  /** A Windows host name runs everything through `cmd.exe /c`. */
  lemma WindowsRunsCmdExe(cfg: Config, host: Host)
    requires host.osName.Some? && WindowsName(host.osName.value)
    ensures forall c :: c in Execute(cfg, host).spawned ==> |c.argv| >= 2 && c.argv[..2] == ["cmd.exe", "/c"]
  {
    var spawned := Execute(cfg, host).spawned;
    var plan := IntendedPlan(cfg, Windows, host.fs);
    assert OsTypeOf(host.osName.value) == Windows;
    assert spawned <= plan;
    WindowsPlan(cfg, host.fs);
    PrefixMembers(spawned, plan);
  }

  lemma PrefixMembers<T>(a: seq<T>, b: seq<T>)
    requires a <= b
    ensures forall x :: x in a ==> x in b
  {
    forall x | x in a
      ensures x in b
    {
      var i :| 0 <= i < |a| && a[i] == x;
      assert b[i] == x;
    }
  }

  /** Every command of a Windows plan starts with `cmd.exe /c`. */
  lemma WindowsPlan(cfg: Config, fs: FileSystem)
    ensures forall c :: c in IntendedPlan(cfg, Windows, fs) ==> |c.argv| >= 2 && c.argv[..2] == ["cmd.exe", "/c"]
  {
    if IsNotEmpty(cfg.gruntPath) {
      var toolchain := ToolchainPlan(Windows, cfg.autoUpdate, cfg.gruntPath.value);
      var copy := CopyPlan(cfg, Windows, fs);
      assert IntendedPlan(cfg, Windows, fs) == toolchain + copy;
      forall c: Command | c in toolchain + copy
        ensures |c.argv| >= 2 && c.argv[..2] == ["cmd.exe", "/c"]
      {
        if c in copy {
          assert c.argv[..3] == ["cmd.exe", "/c", "xcopy"];
        }
      }
    }
  }

  /** Any other host name runs npm, grunt and the Unix copy directly. */
  lemma OtherNameRunsUnixCommands(cfg: Config, host: Host)
    requires host.osName.Some? && !WindowsName(host.osName.value)
    ensures forall c :: c in Execute(cfg, host).spawned ==> c.argv[0] in {"npm", "grunt", "cp -rf "}
  {
  }

  /** Without a grunt directory the run does nothing and succeeds, whatever the file system holds. */
  lemma SkipWhenUnconfigured(cfg: Config, host: Host)
    requires host.osName.Some? && !IsNotEmpty(cfg.gruntPath)
    ensures Execute(cfg, host) == Run([], None, Success)
  {
  }

  /** A configured grunt directory that does not exist fails before anything is spawned. */
  lemma MissingGruntPathFails(cfg: Config, host: Host)
    requires host.osName.Some? && IsNotEmpty(cfg.gruntPath)
    requires cfg.gruntPath.value !in host.fs.existing
    ensures Execute(cfg, host) == Run([], None, Wrap(GruntPathNotFound(host.fs.absolute(cfg.gruntPath.value))))
  {
  }

  /**
   For an existing grunt directory, the run fails on the markers exactly when
   the marker check rejects the listing, and then spawns nothing.
   */
  lemma MarkerCheckGatesToolchain(cfg: Config, host: Host)
    requires host.osName.Some? && IsNotEmpty(cfg.gruntPath)
    requires cfg.gruntPath.value in host.fs.existing
    ensures var r := Execute(cfg, host);
            var abs := host.fs.absolute(cfg.gruntPath.value);
            && (r.outcome == Wrap(MarkersNotFound(abs)) <==> !Markers.Validate(Listing(host.fs, cfg.gruntPath.value)))
            && (!Markers.Validate(Listing(host.fs, cfg.gruntPath.value)) ==> r.spawned == [] && r.created == None)
  {
  }

  /** The failures after the marker check are the spawn, output and destination failures. */
  lemma CopyOutputCauses(built: Run, cfg: Config, os: OsType, host: Host)
    requires built.outcome.Failure? ==> built.outcome.error.cause.CannotRunProgram?
    requires CopyOutput(built, cfg, os, host).outcome.Failure?
    ensures var cause := CopyOutput(built, cfg, os, host).outcome.error.cause;
            cause.CannotRunProgram? || cause.OutputDirNotFound? || cause.CopyToNotCreated?
  {
  }

  /**
   After the checks pass and the toolchain's programs can be started, the run
   begins with install, update and build when `autoUpdate` holds, and with
   build alone otherwise, all in the grunt directory.
   */
  lemma BuildSequence(cfg: Config, host: Host)
    requires host.osName.Some? && Validated(cfg, host)
    requires ToolchainRunnable(OsTypeOf(host.osName.value), host.programs)
    ensures var r := Execute(cfg, host);
            var os := OsTypeOf(host.osName.value);
            var dir := cfg.gruntPath.value;
            && (cfg.autoUpdate ==>
                  |r.spawned| >= 3 && r.spawned[..3] ==
                    [StepCommand(os, Install, dir), StepCommand(os, Update, dir), StepCommand(os, Build, dir)])
            && (!cfg.autoUpdate ==>
                  |r.spawned| >= 1 && r.spawned[..1] == [StepCommand(os, Build, dir)])
  {
  }

  /**
   A toolchain program that cannot be started ends the run with a spawn
   failure: build is never spawned, so neither is the copy, and nothing is
   created.
   */
  lemma UnrunnableStepStopsRun(cfg: Config, host: Host, step: Step)
    requires host.osName.Some? && Validated(cfg, host)
    requires cfg.autoUpdate || step == Build
    requires StepArgv(OsTypeOf(host.osName.value), step)[0] !in host.programs
    ensures var r := Execute(cfg, host);
            var os := OsTypeOf(host.osName.value);
            && r.outcome.Failure?
            && r.outcome.error.cause.CannotRunProgram?
            && StepCommand(os, Build, cfg.gruntPath.value) !in r.spawned
            && r.created == None
  {
  }

  /** Without both copy directories the run ends after build, successfully. */
  lemma NoCopyWithoutBothDirectories(cfg: Config, host: Host)
    requires host.osName.Some? && Validated(cfg, host)
    requires ToolchainRunnable(OsTypeOf(host.osName.value), host.programs)
    requires !CopyConfigured(cfg)
    ensures Execute(cfg, host) ==
              Run(ToolchainPlan(OsTypeOf(host.osName.value), cfg.autoUpdate, cfg.gruntPath.value), None, Success)
  {
  }

  /**
   The copy is spawned exactly when both directories are configured, the
   output directory exists, the destination exists or `mkdirs` creates it,
   and the copy program can be started.
   */
  lemma CopyGating(cfg: Config, host: Host)
    requires host.osName.Some? && Validated(cfg, host)
    requires ToolchainRunnable(OsTypeOf(host.osName.value), host.programs)
    ensures var r := Execute(cfg, host);
            var os := OsTypeOf(host.osName.value);
            var toolchain := ToolchainPlan(os, cfg.autoUpdate, cfg.gruntPath.value);
            && (r.spawned == toolchain || |r.spawned| == |toolchain| + 1)
            && (|r.spawned| == |toolchain| + 1 <==>
                  && CopyConfigured(cfg)
                  && cfg.outputDir.value in host.fs.existing
                  && (cfg.copyTo.value in host.fs.existing || cfg.copyTo.value in host.fs.creatable)
                  && CopyProgram(os) in host.programs)
  {
  }

  /** A missing output directory fails after build, and no copy is spawned. */
  lemma MissingOutputDirFails(cfg: Config, host: Host)
    requires host.osName.Some? && Validated(cfg, host)
    requires ToolchainRunnable(OsTypeOf(host.osName.value), host.programs)
    requires CopyConfigured(cfg) && cfg.outputDir.value !in host.fs.existing
    ensures Execute(cfg, host) ==
              Run(ToolchainPlan(OsTypeOf(host.osName.value), cfg.autoUpdate, cfg.gruntPath.value), None,
                  Wrap(OutputDirNotFound(cfg.outputDir.value)))
  {
  }

  /** A missing destination that `mkdirs` cannot create fails after build, and no copy is spawned. */
  lemma UncreatableCopyToFails(cfg: Config, host: Host)
    requires host.osName.Some? && Validated(cfg, host)
    requires ToolchainRunnable(OsTypeOf(host.osName.value), host.programs)
    requires CopyConfigured(cfg) && cfg.outputDir.value in host.fs.existing
    requires cfg.copyTo.value !in host.fs.existing && cfg.copyTo.value !in host.fs.creatable
    ensures Execute(cfg, host) ==
              Run(ToolchainPlan(OsTypeOf(host.osName.value), cfg.autoUpdate, cfg.gruntPath.value), None,
                  Wrap(CopyToNotCreated(cfg.copyTo.value)))
  {
  }

  /**
   A missing destination that `mkdirs` can create is created, and the copy is
   then the last command, with the absolute source and destination and no
   working directory.
   */
  lemma CopyIntoCreatedDirectory(cfg: Config, host: Host)
    requires host.osName.Some? && Validated(cfg, host)
    requires ToolchainRunnable(OsTypeOf(host.osName.value), host.programs)
    requires CopyConfigured(cfg) && cfg.outputDir.value in host.fs.existing
    requires cfg.copyTo.value !in host.fs.existing && cfg.copyTo.value in host.fs.creatable
    ensures var r := Execute(cfg, host);
            var os := OsTypeOf(host.osName.value);
            var src := host.fs.absolute(cfg.outputDir.value);
            var dest := host.fs.absolute(cfg.copyTo.value);
            && r.created == cfg.copyTo
            && (CopyProgram(os) in host.programs ==>
                  && r.outcome == Success
                  && r.spawned[|r.spawned| - 1] == Command(CopyArgv(os, src, dest), None))
  {
  }

  /**
   An existing destination is not created again: the copy is the last
   command, and the run succeeds when the copy program can be started.
   */
  lemma CopyIntoExistingDirectory(cfg: Config, host: Host)
    requires host.osName.Some? && Validated(cfg, host)
    requires ToolchainRunnable(OsTypeOf(host.osName.value), host.programs)
    requires CopyConfigured(cfg) && cfg.outputDir.value in host.fs.existing
    requires cfg.copyTo.value in host.fs.existing
    ensures var r := Execute(cfg, host);
            var os := OsTypeOf(host.osName.value);
            var src := host.fs.absolute(cfg.outputDir.value);
            var dest := host.fs.absolute(cfg.copyTo.value);
            && r.created == None
            && (CopyProgram(os) in host.programs ==>
                  && r.outcome == Success
                  && r.spawned[|r.spawned| - 1] == Command(CopyArgv(os, src, dest), None))
  {
  }

  /**
   The Unix copy names the program "cp -rf " (with spaces), so on a host
   that has no program of that name, a configured copy fails after build,
   whether or not the host can start `cp` itself.
   */
  lemma UnixCopyNeedsProgramCpRf(cfg: Config, host: Host)
    requires host.osName.Some? && !WindowsName(host.osName.value) && Validated(cfg, host)
    requires ToolchainRunnable(UnixLike, host.programs)
    requires CopyConfigured(cfg) && cfg.outputDir.value in host.fs.existing && cfg.copyTo.value in host.fs.existing
    requires "cp -rf " !in host.programs
    ensures Execute(cfg, host).outcome == Wrap(CannotRunProgram("cp -rf "))
    ensures Execute(cfg, host).spawned == ToolchainPlan(UnixLike, cfg.autoUpdate, cfg.gruntPath.value)
  {
  }

  /**
   Only the copy runs without a working directory, and when spawned it comes
   last; every other command runs in the grunt directory.
   */
  lemma WorkingDirectories(cfg: Config, host: Host)
    requires host.osName.Some? && IsNotEmpty(cfg.gruntPath)
    ensures var r := Execute(cfg, host);
            forall i :: 0 <= i < |r.spawned| ==>
              (r.spawned[i].workDir == None ==> i == |r.spawned| - 1 && CopyConfigured(cfg)) &&
              (r.spawned[i].workDir != None ==> r.spawned[i].workDir == cfg.gruntPath)
  {
  }

  /**
   A failure that `execute` raises itself carries a message naming the
   configured path it is about: the grunt directory by its absolute path, the
   output and destination directories as configured.
   */
  lemma FailureMessageNamesPath(cfg: Config, host: Host)
    requires Execute(cfg, host).outcome.Failure?
    ensures var cause := Execute(cfg, host).outcome.error.cause;
            && (cause.GruntPathNotFound? || cause.MarkersNotFound? ==>
                  IsNotEmpty(cfg.gruntPath) && Mentions(Message(cause), host.fs.absolute(cfg.gruntPath.value)))
            && (cause.OutputDirNotFound? ==>
                  IsNotEmpty(cfg.outputDir) && Mentions(Message(cause), cfg.outputDir.value))
            && (cause.CopyToNotCreated? ==>
                  IsNotEmpty(cfg.copyTo) && Mentions(Message(cause), cfg.copyTo.value))
  {
    CausePaths(cfg, host);
  }

  /** The path a cause carries is the configured path it is about. */
  predicate CarriesConfiguredPath(cause: Cause, cfg: Config, fs: FileSystem)
  {
    && (cause.GruntPathNotFound? || cause.MarkersNotFound? ==>
          IsNotEmpty(cfg.gruntPath) && cause.absPath == fs.absolute(cfg.gruntPath.value))
    && (cause.OutputDirNotFound? ==> IsNotEmpty(cfg.outputDir) && cause.outputDir == cfg.outputDir.value)
    && (cause.CopyToNotCreated? ==> IsNotEmpty(cfg.copyTo) && cause.copyTo == cfg.copyTo.value)
  }

  /** The path each failure of `execute` carries is the configured one. */
  lemma CausePaths(cfg: Config, host: Host)
    requires Execute(cfg, host).outcome.Failure?
    ensures CarriesConfiguredPath(Execute(cfg, host).outcome.error.cause, cfg, host.fs)
  {
    if host.osName.Some? && IsNotEmpty(cfg.gruntPath) {
      var os := OsTypeOf(host.osName.value);
      assert Execute(cfg, host) == RunGrunt(cfg, os, host);
      RunGruntPaths(cfg, os, host);
    }
  }

  lemma RunGruntPaths(cfg: Config, os: OsType, host: Host)
    requires IsNotEmpty(cfg.gruntPath)
    requires RunGrunt(cfg, os, host).outcome.Failure?
    ensures CarriesConfiguredPath(RunGrunt(cfg, os, host).outcome.error.cause, cfg, host.fs)
  {
    var path := cfg.gruntPath.value;
    if path in host.fs.existing && Markers.Validate(Listing(host.fs, path)) {
      var built := RunToolchain(os, cfg.autoUpdate, path, host.programs);
      assert RunGrunt(cfg, os, host) == CopyOutput(built, cfg, os, host);
      CopyOutputPaths(built, cfg, os, host);
    }
  }

  lemma CopyOutputPaths(built: Run, cfg: Config, os: OsType, host: Host)
    requires built.outcome.Failure? ==> built.outcome.error.cause.CannotRunProgram?
    requires CopyOutput(built, cfg, os, host).outcome.Failure?
    ensures CarriesConfiguredPath(CopyOutput(built, cfg, os, host).outcome.error.cause, cfg, host.fs)
  {
  }
}
