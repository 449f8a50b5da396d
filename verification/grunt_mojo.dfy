/**
 The `build` goal's `execute`: OS detection, the skip when no grunt directory
 is configured, the existence and marker checks, install/update/build, and
 the optional copy of the output directory. Spawning a process is modelled as
 appending its command to the run; the host (the `os.name` property, the file
 system and the programs `Runtime.exec` can start) is an input.
 */
module GruntMojo {
  import opened Optional
  import opened JavaStrings
  import opened Platform
  import Markers

  /** The mojo's parameters; a missing parameter is `None`, and `autoUpdate` defaults to true in the mojo. */
  datatype Config = Config(
    gruntPath: Option<string>,
    outputDir: Option<string>,
    copyTo: Option<string>,
    autoUpdate: bool)

  /**
   What `execute` asks of the file system: `File.exists`, the entry names
   `File.listFiles` sees (absent when it returns null), whether `mkdirs`
   succeeds, and `getAbsolutePath`.
   */
  datatype FileSystem = FileSystem(
    existing: set<string>,
    listings: map<string, seq<string>>,
    creatable: set<string>,
    absolute: string -> string)

  /** The host: the `os.name` system property, the file system, and the program names that can be started. */
  datatype Host = Host(osName: Option<string>, fs: FileSystem, programs: set<string>)

  /** The exception that ended a run, before the top-level `catch` wraps it. */
  datatype Cause =
    | OsNameUnset                          // `os.toLowerCase()` on a null `os.name`
    | GruntPathNotFound(absPath: string)
    | MarkersNotFound(absPath: string)
    | CopyToNotCreated(copyTo: string)
    | OutputDirNotFound(outputDir: string)
    | CannotRunProgram(program: string)    // `Runtime.exec` could not start argv[0]

  /** `MojoFailureException(message, cause)`. */
  datatype MojoFailure = MojoFailure(message: string, cause: Cause)

  datatype Outcome = Success | Failure(error: MojoFailure)

  /**
   One run: the commands spawned, in order; the directory `mkdirs` created,
   if any; and how `execute` returned.
   */
  datatype Run = Run(spawned: seq<Command>, created: Option<string>, outcome: Outcome)

  /** The top-level `catch (Exception ex)`: every failure leaves with an empty message. */
  function Wrap(cause: Cause): (o: Outcome)
    ensures o.Failure? && o.error.message == "" && o.error.cause == cause
  {
    Failure(MojoFailure("", cause))
  }

  /** `t` occurs in `s` starting at position `k`. */
  ghost predicate OccursAt(s: string, t: string, k: int)
  {
    0 <= k <= |s| - |t| && s[k..k + |t|] == t
  }

  /** `t` occurs in `s` as a contiguous piece. */
  ghost predicate Mentions(s: string, t: string)
  {
    exists k :: OccursAt(s, t, k)
  }

  lemma MentionsMiddle(before: string, t: string, after: string)
    ensures Mentions(before + t + after, t)
  {
    assert OccursAt(before + t + after, t, |before|);
  }

  /**
   The message of a `MojoFailureException` thrown by `execute` itself: it
   names the grunt directory by its absolute path, and the copy directories
   as configured.
   */
  function Message(cause: Cause): (msg: string)
    requires !cause.OsNameUnset? && !cause.CannotRunProgram?
    ensures cause.GruntPathNotFound? ==> Mentions(msg, cause.absPath)
    ensures cause.MarkersNotFound? ==>
              Mentions(msg, cause.absPath) && Mentions(msg, Markers.GruntFileName) && Mentions(msg, Markers.GruntFileConfig)
    ensures cause.CopyToNotCreated? ==> Mentions(msg, cause.copyTo)
    ensures cause.OutputDirNotFound? ==> Mentions(msg, cause.outputDir)
  {
    match cause
    case GruntPathNotFound(p) =>
      MentionsMiddle("GruntPath ", p, " is not exists.");
      "GruntPath " + p + " is not exists."
    case MarkersNotFound(p) =>
      var name, config := Markers.GruntFileName, Markers.GruntFileConfig;
      var msg := "Not found " + name + " and " + config + " in " + p + ".";
      MentionsMiddle("Not found ", name, " and " + config + " in " + p + ".");
      assert msg == "Not found " + name + (" and " + config + " in " + p + ".");
      MentionsMiddle("Not found " + name + " and ", config, " in " + p + ".");
      assert msg == ("Not found " + name + " and ") + config + (" in " + p + ".");
      MentionsMiddle("Not found " + name + " and " + config + " in ", p, ".");
      msg
    case CopyToNotCreated(p) =>
      MentionsMiddle("", p, " is not exist.");
      assert "" + p == p;
      p + " is not exist."
    case OutputDirNotFound(p) =>
      MentionsMiddle("", p, " is not exist.");
      assert "" + p == p;
      p + " is not exist."
  }

  /** `f.listFiles(...)` before filtering: the listing, or null. */
  function Listing(fs: FileSystem, path: string): (listing: Option<seq<string>>)
    ensures listing.Some? <==> path in fs.listings
  {
    if path in fs.listings then Some(fs.listings[path]) else None
  }

  /** Every command names a program that can be started. */
  predicate Startable(cmds: seq<Command>, programs: set<string>)
  {
    forall i :: 0 <= i < |cmds| ==> |cmds[i].argv| > 0 && cmds[i].argv[0] in programs
  }

  /**
   `Runtime.exec` followed by draining and `destroy`: after an earlier
   failure nothing happens; otherwise the command is spawned when its program
   can be started, and the run fails without spawning it when it cannot.
   */
  function Spawn(run: Run, cmd: Command, programs: set<string>): (r: Run)
    requires |cmd.argv| > 0
    ensures run.outcome.Failure? ==> r == run
    ensures run.outcome.Success? && cmd.argv[0] in programs ==>
              r == run.(spawned := run.spawned + [cmd])
    ensures run.outcome.Success? && cmd.argv[0] !in programs ==>
              r.spawned == run.spawned && r.created == run.created &&
              r.outcome == Wrap(CannotRunProgram(cmd.argv[0]))
    ensures r.spawned == run.spawned || (r.spawned == run.spawned + [cmd] && cmd.argv[0] in programs)
  {
    if run.outcome.Failure? then run
    else if cmd.argv[0] in programs then run.(spawned := run.spawned + [cmd])
    else run.(outcome := Wrap(CannotRunProgram(cmd.argv[0])))
  }

  /** The run every step of which succeeds: the commands a run spawns when nothing fails. */
  function IntendedPlan(cfg: Config, os: OsType, fs: FileSystem): (plan: seq<Command>)
    ensures !IsNotEmpty(cfg.gruntPath) ==> plan == []
    ensures IsNotEmpty(cfg.gruntPath) ==> |plan| == (if cfg.autoUpdate then 3 else 1) + (if CopyConfigured(cfg) then 1 else 0)
  {
    if !IsNotEmpty(cfg.gruntPath) then []
    else ToolchainPlan(os, cfg.autoUpdate, cfg.gruntPath.value) + CopyPlan(cfg, os, fs)
  }

  /** The copy of the absolute output directory into the absolute destination, when both are configured. */
  function CopyPlan(cfg: Config, os: OsType, fs: FileSystem): (plan: seq<Command>)
    ensures |plan| == (if CopyConfigured(cfg) then 1 else 0)
    ensures forall i :: 0 <= i < |plan| ==> plan[i].workDir == None
  {
    if CopyConfigured(cfg) then [CopyCommand(os, fs.absolute(cfg.outputDir.value), fs.absolute(cfg.copyTo.value))]
    else []
  }

  /** Install and update when `autoUpdate` holds, then build, all in the grunt directory. */
  function ToolchainPlan(os: OsType, autoUpdate: bool, gruntPath: string): (plan: seq<Command>)
    ensures autoUpdate ==> |plan| == 3
    ensures !autoUpdate ==> |plan| == 1
    ensures forall i :: 0 <= i < |plan| ==> plan[i].workDir == Some(gruntPath)
    ensures plan[|plan| - 1] == StepCommand(os, Build, gruntPath)
  {
    (if autoUpdate then [StepCommand(os, Install, gruntPath), StepCommand(os, Update, gruntPath)] else [])
    + [StepCommand(os, Build, gruntPath)]
  }

  /** Both `outputDir` and `copyTo` are non-empty, which is when the copy is attempted. */
  predicate CopyConfigured(cfg: Config)
  {
    IsNotEmpty(cfg.outputDir) && IsNotEmpty(cfg.copyTo)
  }

  /** `execute`. */
  function Execute(cfg: Config, host: Host): (r: Run)
    ensures r.outcome.Failure? ==> r.outcome.error.message == ""
    ensures host.osName.None? ==> r == Run([], None, Wrap(OsNameUnset))
    ensures host.osName.Some? ==> r.spawned <= IntendedPlan(cfg, OsTypeOf(host.osName.value), host.fs)
    ensures host.osName.Some? ==>
              (r.outcome.Success? <==> r.spawned == IntendedPlan(cfg, OsTypeOf(host.osName.value), host.fs))
    ensures r.created.Some? ==> CopyConfigured(cfg) && r.created == cfg.copyTo
    ensures r.created.Some? ==> r.created.value !in host.fs.existing && r.created.value in host.fs.creatable
    ensures Startable(r.spawned, host.programs)
  {
    match host.osName
    case None => Run([], None, Wrap(OsNameUnset))
    case Some(name) =>
      var os := OsTypeOf(name);
      if !IsNotEmpty(cfg.gruntPath) then Run([], None, Success)
      else RunGrunt(cfg, os, host)
  }

  /** The body of `execute` once a grunt directory is configured. */
  function RunGrunt(cfg: Config, os: OsType, host: Host): (r: Run)
    requires IsNotEmpty(cfg.gruntPath)
    ensures r.outcome.Failure? ==> r.outcome.error.message == ""
    ensures r.spawned <= IntendedPlan(cfg, os, host.fs)
    ensures r.outcome.Success? <==> r.spawned == IntendedPlan(cfg, os, host.fs)
    ensures r.created.Some? ==> CopyConfigured(cfg) && r.created == cfg.copyTo
    ensures r.created.Some? ==> r.created.value !in host.fs.existing && r.created.value in host.fs.creatable
    ensures Startable(r.spawned, host.programs)
  {
    var path := cfg.gruntPath.value;
    var fs := host.fs;
    if path !in fs.existing then
      Run([], None, Wrap(GruntPathNotFound(fs.absolute(path))))
    else if !Markers.Validate(Listing(fs, path)) then
      Run([], None, Wrap(MarkersNotFound(fs.absolute(path))))
    else
      BuildAndCopy(cfg, os, host)
  }

  /** The toolchain steps and the copy, once the grunt directory has passed its checks. */
  function BuildAndCopy(cfg: Config, os: OsType, host: Host): (r: Run)
    requires IsNotEmpty(cfg.gruntPath)
    ensures r.outcome.Failure? ==> r.outcome.error.message == ""
    ensures r.spawned <= IntendedPlan(cfg, os, host.fs)
    ensures r.outcome.Success? <==> r.spawned == IntendedPlan(cfg, os, host.fs)
    ensures r.created.Some? ==> CopyConfigured(cfg) && r.created == cfg.copyTo
    ensures r.created.Some? ==> r.created.value !in host.fs.existing && r.created.value in host.fs.creatable
    ensures Startable(r.spawned, host.programs)
  {
    var toolchain := ToolchainPlan(os, cfg.autoUpdate, cfg.gruntPath.value);
    var built := RunToolchain(os, cfg.autoUpdate, cfg.gruntPath.value, host.programs);
    var r := CopyOutput(built, cfg, os, host);
    assert IntendedPlan(cfg, os, host.fs) == toolchain + CopyPlan(cfg, os, host.fs);
    PrefixExtends(built.spawned, toolchain, CopyPlan(cfg, os, host.fs));
    r
  }

  lemma PrefixExtends<T>(a: seq<T>, b: seq<T>, c: seq<T>)
    requires a <= b
    ensures a <= b + c
  {
  }

  /**
   Install, update and build, in that order, stopping at the first program
   that cannot be started.
   */
  function RunToolchain(os: OsType, autoUpdate: bool, gruntPath: string, programs: set<string>): (r: Run)
    ensures r.created == None
    ensures r.outcome.Failure? ==> r.outcome.error.message == "" && r.outcome.error.cause.CannotRunProgram?
    ensures r.spawned <= ToolchainPlan(os, autoUpdate, gruntPath)
    ensures r.outcome.Success? <==> r.spawned == ToolchainPlan(os, autoUpdate, gruntPath)
    ensures Startable(r.spawned, programs)
  {
    var start := Run([], None, Success);
    var updated :=
      if autoUpdate then
        var installed := Spawn(start, StepCommand(os, Install, gruntPath), programs);
        Spawn(installed, StepCommand(os, Update, gruntPath), programs)
      else start;
    Spawn(updated, StepCommand(os, Build, gruntPath), programs)
  }

  /**
   The copy stage after a build: skipped unless both directories are
   configured; otherwise the output directory must exist and the destination
   must exist or be created by `mkdirs` before the copy is spawned.
   */
  function CopyOutput(built: Run, cfg: Config, os: OsType, host: Host): (r: Run)
    ensures built.outcome.Failure? ==> r == built
    ensures built.outcome.Success? && !CopyConfigured(cfg) ==> r == built
    ensures r.spawned == built.spawned || (built.outcome.Success? && r.spawned == built.spawned + CopyPlan(cfg, os, host.fs))
    ensures built.outcome.Success? && r.outcome.Success? ==> r.spawned == built.spawned + CopyPlan(cfg, os, host.fs)
    ensures Startable(built.spawned, host.programs) ==> Startable(r.spawned, host.programs)
    ensures r != built && r.outcome.Failure? ==> r.outcome.error.message == ""
    ensures r.outcome.Failure? ==> r.spawned == built.spawned
    ensures r.created == built.created ||
            (CopyConfigured(cfg) && r.created == cfg.copyTo &&
             cfg.copyTo.value !in host.fs.existing && cfg.copyTo.value in host.fs.creatable)
  {
    if built.outcome.Failure? || !CopyConfigured(cfg) then built
    else
      var fs := host.fs;
      var src := cfg.outputDir.value;
      var dest := cfg.copyTo.value;
      if src !in fs.existing then
        built.(outcome := Wrap(OutputDirNotFound(src)))
      else if dest in fs.existing then
        Spawn(built, CopyCommand(os, fs.absolute(src), fs.absolute(dest)), host.programs)
      else if dest in fs.creatable then
        Spawn(built.(created := Some(dest)), CopyCommand(os, fs.absolute(src), fs.absolute(dest)), host.programs)
      else
        built.(outcome := Wrap(CopyToNotCreated(dest)))
  }
}
