/** `SolidityLanguageServer.setup_runtime_dependencies`: make sure a runnable
    language-server entry point exists on disk and build its launch command.

    The file system is abstract: the set of path strings that exist, those that
    are directories, and the directories that have at least one entry. The
    archive download and the external commands are steps of a `World` that map
    a file system to a new one and report an exit status. */
module Bootstrap {
  import opened Wrappers
  import opened Paths
  import opened Seqs

  type Path = string

  datatype FileSystem = FileSystem(
    paths: set<Path>,      // os.path.exists
    dirs: set<Path>,       // os.path.isdir
    populated: set<Path>)  // directories for which os.listdir is non-empty

  /** What the external step did to the file system, and its exit status
      (for the archive download, non-zero when it raised). */
  datatype Effect = Effect(fs: FileSystem, status: int)

  /** A command for `run_command_with_logging`: an argument vector, or a line
      for the shell (`use_shell=True`). */
  datatype Command = Argv(args: seq<string>) | Shell(line: string)

  /** The external steps, in the order they were started. */
  datatype Action =
    | Fetch(url: string, dest: Path, archiveType: string)   // FileUtils.download_and_extract_archive
    | Exec(command: Command, cwd: Path)                     // run_command_with_logging

  datatype World = World(
    fetch: (FileSystem, string, Path, string) -> Effect,
    run: (FileSystem, Command, Path) -> Effect)

  /** One entry of `runtimeDependencies`. An optional key that the code reads
      with `dict.get` is an `Option`: `None` when the key is absent. */
  datatype Descriptor = Descriptor(
    platformId: string,
    url: string,
    archiveType: string,
    relativeExtractionPath: string,
    serverScript: string,
    legacyRelativeExtractionPaths: Option<seq<string>>,
    npmInstallDirs: Option<seq<string>>,
    compileCommand: Option<string>,
    compileWorkingDirectory: Option<string>)

  /** What the host provides: the platform id, `shutil.which("node")`,
      `shutil.which("npm")`, and the `static/vscode-solidity` directory beside
      the module. */
  datatype Host = Host(
    platformId: string,
    nodePath: Option<Path>,
    npmPath: Option<Path>,
    lsDir: Path)

  /** The raises of `setup_runtime_dependencies`, with the offending path,
      command status or platform id. */
  datatype BootstrapError =
    | NodeNotFound                                  // RuntimeError
    | NpmNotFound                                   // RuntimeError
    | UnsupportedPlatform(platformId: string)       // RuntimeError
    | LsDirNotADirectory(path: Path)                // FileExistsError from os.makedirs
    | FetchFailed(url: string)                      // raised by the archive download
    | MissingExtraction(path: Path)                 // FileNotFoundError
    | MissingInstallDir(path: Path)                 // FileNotFoundError
    | NodeModulesNotADirectory(path: Path)          // NotADirectoryError from os.listdir
    | InstallFailed(path: Path, status: int)        // RuntimeError
    | MissingCompileDir(path: Path)                 // FileNotFoundError
    | CompileFailed(path: Path, status: int)        // RuntimeError
    | EntryPointNotFound(path: Path)                // FileNotFoundError

  /** A result together with the file system and the external steps so far. */
  datatype Stage<+T> = Stage(result: Result<T, BootstrapError>, fs: FileSystem, trace: seq<Action>)

  /** An extraction directory and the server script inside it. */
  datatype Resolved = Resolved(extraction: Path, script: Path)

  // ---------------------------------------------------------------------------
  // Catalog

  function PlatformIds(catalog: seq<Descriptor>): (ids: seq<string>)
    ensures |ids| == |catalog|
    ensures forall i :: 0 <= i < |catalog| ==> ids[i] == catalog[i].platformId
  {
    if catalog == [] then [] else [catalog[0].platformId] + PlatformIds(catalog[1..])
  }

  /** `next(dep for dep in catalog if dep["platformId"] == platformId)`: the index
      of the first descriptor for the platform; none exactly when the platform is
      not listed. */
  function FindFirst(catalog: seq<Descriptor>, platformId: string): (r: Option<nat>)
    ensures r.None? <==> platformId !in PlatformIds(catalog)
    ensures r.Some? ==> r.value < |catalog| && catalog[r.value].platformId == platformId
    ensures r.Some? ==> forall j :: 0 <= j < r.value ==> catalog[j].platformId != platformId
    decreases |catalog|
  {
    if catalog == [] then None
    else if catalog[0].platformId == platformId then Some(0)
    else
      var rest := FindFirst(catalog[1..], platformId);
      assert PlatformIds(catalog) == [catalog[0].platformId] + PlatformIds(catalog[1..]);
      match rest
      case None => None
      case Some(k) => Some(k + 1)
  }

  // ---------------------------------------------------------------------------
  // Path resolution

  function ScriptParts(d: Descriptor): seq<string> {
    Split(d.serverScript, '/')
  }

  /** `[relative_extraction_path, *legacyRelativeExtractionPaths]`. */
  function Candidates(d: Descriptor): (c: seq<string>)
    ensures |c| >= 1 && c[0] == d.relativeExtractionPath
    ensures c[1..] == d.legacyRelativeExtractionPaths.GetOr([])
  {
    [d.relativeExtractionPath] + d.legacyRelativeExtractionPaths.GetOr([])
  }

  function CandidateAt(lsDir: Path, rel: string, parts: seq<string>): Resolved {
    var extraction := Join(lsDir, rel);
    Resolved(extraction, JoinAll(extraction, parts))
  }

  /** The extraction directory and script path of every candidate, in order. */
  function CandidateList(lsDir: Path, rels: seq<string>, parts: seq<string>): (cs: seq<Resolved>)
    ensures |cs| == |rels|
    ensures forall i :: 0 <= i < |rels| ==> cs[i] == CandidateAt(lsDir, rels[i], parts)
    decreases |rels|
  {
    if rels == [] then [] else [CandidateAt(lsDir, rels[0], parts)] + CandidateList(lsDir, rels[1..], parts)
  }

  /** The index of the first candidate whose server script exists. */
  function FirstInstalled(fs: FileSystem, cs: seq<Resolved>): (r: Option<nat>)
    ensures r.Some? ==> r.value < |cs| && cs[r.value].script in fs.paths
    ensures r.Some? ==> forall j :: 0 <= j < r.value ==> cs[j].script !in fs.paths
    ensures r.None? ==> forall j :: 0 <= j < |cs| ==> cs[j].script !in fs.paths
    decreases |cs|
  {
    if cs == [] then None
    else if cs[0].script in fs.paths then Some(0)
    else
      match FirstInstalled(fs, cs[1..])
      case None => None
      case Some(k) => Some(k + 1)
  }

  function CandidatesOf(lsDir: Path, d: Descriptor): (cs: seq<Resolved>)
    ensures |cs| >= 1 && cs[0] == CandidateAt(lsDir, d.relativeExtractionPath, ScriptParts(d))
    ensures |cs| == 1 + |d.legacyRelativeExtractionPaths.GetOr([])|
    ensures forall i :: 1 <= i < |cs| ==>
      cs[i] == CandidateAt(lsDir, d.legacyRelativeExtractionPaths.GetOr([])[i - 1], ScriptParts(d))
  {
    CandidateList(lsDir, Candidates(d), ScriptParts(d))
  }

  /** `resolve_paths()`: the first candidate whose script exists, else the primary one. */
  function ResolvePaths(fs: FileSystem, lsDir: Path, d: Descriptor): (r: Resolved)
    ensures r == CandidatesOf(lsDir, d)[0] || r.script in fs.paths
    ensures r in CandidatesOf(lsDir, d)
  {
    var cs := CandidatesOf(lsDir, d);
    match FirstInstalled(fs, cs)
    case Some(i) => cs[i]
    case None => cs[0]
  }

  // ---------------------------------------------------------------------------
  // The steps

  /** `os.makedirs(ls_dir, exist_ok=True)`. */
  function MakeDirs(fs: FileSystem, dir: Path): (r: Result<FileSystem, BootstrapError>)
    ensures r.Success? ==> dir in r.value.dirs
    ensures dir in fs.dirs ==> r == Success(fs)
    ensures dir in fs.paths && dir !in fs.dirs ==> r == Failure(LsDirNotADirectory(dir))
    ensures dir !in fs.paths && dir !in fs.dirs ==>
      r == Success(FileSystem(fs.paths + {dir}, fs.dirs + {dir}, fs.populated))
  {
    if dir in fs.dirs then Success(fs)
    else if dir in fs.paths then Failure(LsDirNotADirectory(dir))
    else Success(fs.(paths := fs.paths + {dir}, dirs := fs.dirs + {dir}))
  }

  function CheckExtraction(p: Resolved, fs: FileSystem, trace: seq<Action>): Stage<Resolved> {
    if p.extraction !in fs.paths then Stage(Failure(MissingExtraction(p.extraction)), fs, trace)
    else Stage(Success(p), fs, trace)
  }

  /** Preparing the extraction directory: resolve; when the script is missing and the primary
      extraction directory is absent, download the archive; resolve again; the
      extraction directory must then exist. */
  function Prepare(lsDir: Path, d: Descriptor, world: World, fs: FileSystem): (r: Stage<Resolved>)
    ensures r.result.Success? ==> r.result.value.extraction in r.fs.paths
    ensures r.result.Success? ==> r.result.value == ResolvePaths(r.fs, lsDir, d)
    ensures |r.trace| <= 1
    ensures |r.trace| == 1 <==>
      ResolvePaths(fs, lsDir, d).script !in fs.paths && Join(lsDir, d.relativeExtractionPath) !in fs.paths
    ensures |r.trace| == 1 ==> r.trace[0] == Fetch(d.url, lsDir, d.archiveType)
    ensures r.trace == [] ==> r.fs == fs
    ensures |r.trace| == 1 ==>
      var e := world.fetch(fs, d.url, lsDir, d.archiveType);
      r.fs == e.fs && (r.result == Failure(FetchFailed(d.url)) <==> e.status != 0)
    ensures r.result.Failure? ==>
      || (r.result.error == FetchFailed(d.url) && |r.trace| == 1)
      || (r.result.error == MissingExtraction(ResolvePaths(r.fs, lsDir, d).extraction)
          && ResolvePaths(r.fs, lsDir, d).extraction !in r.fs.paths)
  {
    var first := ResolvePaths(fs, lsDir, d);
    if first.script in fs.paths then CheckExtraction(first, fs, [])
    else if Join(lsDir, d.relativeExtractionPath) !in fs.paths then
      var e := world.fetch(fs, d.url, lsDir, d.archiveType);
      var t := [Fetch(d.url, lsDir, d.archiveType)];
      if e.status != 0 then Stage(Failure(FetchFailed(d.url)), e.fs, t)
      else CheckExtraction(ResolvePaths(e.fs, lsDir, d), e.fs, t)
    else CheckExtraction(ResolvePaths(fs, lsDir, d), fs, [])
  }

  function InstallDirs(d: Descriptor): seq<string> {
    d.npmInstallDirs.GetOr([])
  }

  function InstallCommand(npmPath: Path): Command {
    Argv([npmPath, "install"])
  }

  /** `node_modules` of `installPath` is absent or empty, so `npm install` runs there. */
  predicate NeedsInstall(fs: FileSystem, installPath: Path) {
    var nodeModules := Join(installPath, "node_modules");
    nodeModules !in fs.paths || nodeModules !in fs.populated
  }

  /** `node_modules` of `installPath` is a non-empty directory. */
  predicate Installed(fs: FileSystem, installPath: Path) {
    var nodeModules := Join(installPath, "node_modules");
    nodeModules in fs.paths && nodeModules in fs.dirs && nodeModules in fs.populated
  }

  /** One iteration of the loop over `npmInstallDirs`. */
  function InstallStep(world: World, npmPath: Path, extraction: Path, dir: string, fs: FileSystem): Stage<()>
  {
    var installPath := Join(extraction, dir);
    var nodeModules := Join(installPath, "node_modules");
    if installPath !in fs.dirs then Stage(Failure(MissingInstallDir(installPath)), fs, [])
    else if nodeModules in fs.paths && nodeModules !in fs.dirs then
      Stage(Failure(NodeModulesNotADirectory(nodeModules)), fs, [])
    else if nodeModules !in fs.paths || nodeModules !in fs.populated then
      var e := world.run(fs, InstallCommand(npmPath), installPath);
      Stage(if e.status != 0 then Failure(InstallFailed(installPath, e.status)) else Success(()),
            e.fs, [Exec(InstallCommand(npmPath), installPath)])
    else Stage(Success(()), fs, [])
  }

  /** One pass raises when the directory is missing, or when `node_modules` is
      there but is not a directory; it runs `npm install` exactly when
      `node_modules` is absent or empty, leaves the file system the command
      leaves, and raises exactly when the command fails; a pass that runs
      nothing changes nothing. */
  lemma InstallStepSpec(world: World, npmPath: Path, extraction: Path, dir: string, fs: FileSystem)
    ensures var r := InstallStep(world, npmPath, extraction, dir, fs);
      var installPath := Join(extraction, dir);
      && (Join(extraction, dir) !in fs.dirs ==> r == Stage(Failure(MissingInstallDir(installPath)), fs, []))
      && (r.trace != [] <==>
            installPath in fs.dirs && NeedsInstall(fs, installPath)
            && (Join(installPath, "node_modules") in fs.paths ==> Join(installPath, "node_modules") in fs.dirs))
      && (r.trace != [] ==>
            && r.trace == [Exec(InstallCommand(npmPath), installPath)]
            && (r.result.Failure? <==> world.run(fs, InstallCommand(npmPath), installPath).status != 0))
      && (installPath in fs.dirs && Join(installPath, "node_modules") in fs.paths
          && Join(installPath, "node_modules") !in fs.dirs ==>
            r == Stage(Failure(NodeModulesNotADirectory(Join(installPath, "node_modules"))), fs, []))
      && (r.trace != [] ==>
            var e := world.run(fs, InstallCommand(npmPath), installPath);
            && r.fs == e.fs
            && (e.status != 0 ==> r.result == Failure(InstallFailed(installPath, e.status))))
      && (r.trace == [] ==> r.fs == fs)
      && (r.trace == [] && r.result.Success? ==> Installed(fs, installPath))
  {
  }

  /** The whole loop over `dirs`, stopping at the first raise. */
  function InstallDeps(world: World, npmPath: Path, extraction: Path, dirs: seq<string>, fs: FileSystem): Stage<()>
    decreases |dirs|
  {
    if dirs == [] then Stage(Success(()), fs, [])
    else
      var s := InstallStep(world, npmPath, extraction, dirs[0], fs);
      if s.result.Failure? then s
      else
        var rest := InstallDeps(world, npmPath, extraction, dirs[1..], s.fs);
        Stage(rest.result, rest.fs, s.trace + rest.trace)
  }

  /** `compileCommand` is present and truthy. */
  predicate HasCompileCommand(d: Descriptor) {
    d.compileCommand.Some? && d.compileCommand.value != ""
  }

  function CompileDir(d: Descriptor, extraction: Path): Path {
    Join(extraction, d.compileWorkingDirectory.GetOr("."))
  }

  /** The compile step: build the server when its script is still missing. */
  function CompileStep(d: Descriptor, world: World, p: Resolved, fs: FileSystem): (r: Stage<()>)
    ensures r.trace != [] ==> HasCompileCommand(d) && r.trace == [Exec(Shell(d.compileCommand.value), CompileDir(d, p.extraction))]
    ensures r.trace != [] <==>
      p.script !in fs.paths && HasCompileCommand(d) && CompileDir(d, p.extraction) in fs.dirs
    ensures r.trace == [] ==> r.fs == fs
    ensures p.script !in fs.paths && HasCompileCommand(d) && CompileDir(d, p.extraction) !in fs.dirs ==>
      r == Stage(Failure(MissingCompileDir(CompileDir(d, p.extraction))), fs, [])
    ensures r.trace != [] ==>
      var e := world.run(fs, Shell(d.compileCommand.value), CompileDir(d, p.extraction));
      && r.fs == e.fs
      && (r.result.Failure? <==> e.status != 0)
      && (e.status != 0 ==> r.result == Failure(CompileFailed(CompileDir(d, p.extraction), e.status)))
    ensures r.result.Failure? ==>
      || (r.result == Failure(MissingCompileDir(CompileDir(d, p.extraction))) && r.trace == []
          && p.script !in fs.paths && HasCompileCommand(d) && CompileDir(d, p.extraction) !in fs.dirs)
      || (r.trace != [] && r.result.error.CompileFailed? && r.result.error.path == CompileDir(d, p.extraction)
          && r.result.error.status != 0)
  {
    if p.script in fs.paths || !HasCompileCommand(d) then Stage(Success(()), fs, [])
    else
      var compilePath := CompileDir(d, p.extraction);
      if compilePath !in fs.dirs then Stage(Failure(MissingCompileDir(compilePath)), fs, [])
      else
        var command := Shell(d.compileCommand.value);
        var e := world.run(fs, command, compilePath);
        Stage(if e.status != 0 then Failure(CompileFailed(compilePath, e.status)) else Success(()),
              e.fs, [Exec(command, compilePath)])
  }

  /** `f"\"{node}\" \"{script}\" --stdio"`. */
  function LaunchCommand(nodePath: Path, script: Path): string {
    "\"" + nodePath + "\" \"" + script + "\" --stdio"
  }

  /** From a prepared extraction directory to the launch command: the install
      loop, the compile step and the final existence check. */
  function Finish(nodePath: Path, npmPath: Path, d: Descriptor, world: World, p: Resolved,
                  fs: FileSystem, trace: seq<Action>): Stage<string>
  {
    var ins := InstallDeps(world, npmPath, p.extraction, InstallDirs(d), fs);
    if ins.result.Failure? then Stage(Failure(ins.result.error), ins.fs, trace + ins.trace)
    else
      var c := CompileStep(d, world, p, ins.fs);
      var t := trace + ins.trace + c.trace;
      if c.result.Failure? then Stage(Failure(c.result.error), c.fs, t)
      else if p.script !in c.fs.paths then Stage(Failure(EntryPointNotFound(p.script)), c.fs, t)
      else Stage(Success(LaunchCommand(nodePath, p.script)), c.fs, t)
  }

  /** The descriptor chosen for the host's platform. */
  function Selected(catalog: seq<Descriptor>, platformId: string): Descriptor
    requires platformId in PlatformIds(catalog)
  {
    catalog[FindFirst(catalog, platformId).value]
  }

  /** What `setup_runtime_dependencies` returns or raises, the file system it
      leaves and the external steps it starts. */
  function SetupRuntime(host: Host, catalog: seq<Descriptor>, world: World, fs: FileSystem): Stage<string> {
    if host.nodePath.None? then Stage(Failure(NodeNotFound), fs, [])
    else if host.npmPath.None? then Stage(Failure(NpmNotFound), fs, [])
    else if host.platformId !in PlatformIds(catalog) then Stage(Failure(UnsupportedPlatform(host.platformId)), fs, [])
    else SetupFor(host.lsDir, host.nodePath.value, host.npmPath.value, Selected(catalog, host.platformId), world, fs)
  }

  /** The run once Node.js and npm are found and the descriptor `d` is chosen. */
  function SetupFor(lsDir: Path, nodePath: string, npmPath: string, d: Descriptor, world: World, fs: FileSystem): Stage<string> {
    match MakeDirs(fs, lsDir)
    case Failure(e) => Stage(Failure(e), fs, [])
    case Success(fs1) =>
      var prep := Prepare(lsDir, d, world, fs1);
      if prep.result.Failure? then Stage(Failure(prep.result.error), prep.fs, prep.trace)
      else Finish(nodePath, npmPath, d, world, prep.result.value, prep.fs, prep.trace)
  }

  // ---------------------------------------------------------------------------
  // The procedure, step by step

  /** Preparing the extraction directory step by step: resolve, download when
      needed, resolve again. */
  method PrepareExtraction(lsDir: Path, dependency: Descriptor, world: World, fs0: FileSystem)
    returns (result: Result<Resolved, BootstrapError>, fs: FileSystem, trace: seq<Action>)
    ensures Stage(result, fs, trace) == Prepare(lsDir, dependency, world, fs0)
  {
    fs, trace := fs0, [];
    var primaryExtractionPath := Join(lsDir, dependency.relativeExtractionPath);
    var resolved := ResolvePaths(fs, lsDir, dependency);
    var extractionPath, serverScriptPath := resolved.extraction, resolved.script;
    if serverScriptPath !in fs.paths {
      if primaryExtractionPath !in fs.paths {
        trace := trace + [Fetch(dependency.url, lsDir, dependency.archiveType)];
        var e := world.fetch(fs, dependency.url, lsDir, dependency.archiveType);
        fs := e.fs;
        if e.status != 0 {
          return Failure(FetchFailed(dependency.url)), fs, trace;
        }
      }
      resolved := ResolvePaths(fs, lsDir, dependency);
      extractionPath, serverScriptPath := resolved.extraction, resolved.script;
    }
    if extractionPath !in fs.paths {
      return Failure(MissingExtraction(extractionPath)), fs, trace;
    }
    result := Success(resolved);
  }

  /** The loop over `npmInstallDirs`, step by step. */
  method InstallNpmDependencies(world: World, npmPath: Path, extractionPath: Path, dirs: seq<string>, fs0: FileSystem)
    returns (result: Result<(), BootstrapError>, fs: FileSystem, trace: seq<Action>)
    ensures Stage(result, fs, trace) == InstallDeps(world, npmPath, extractionPath, dirs, fs0)
  {
    fs, trace := fs0, [];
    var i := 0;
    while i < |dirs|
      invariant 0 <= i <= |dirs|
      invariant var rest := InstallDeps(world, npmPath, extractionPath, dirs[i..], fs);
        InstallDeps(world, npmPath, extractionPath, dirs, fs0) == Stage(rest.result, rest.fs, trace + rest.trace)
    {
      assert dirs[i..][0] == dirs[i] && dirs[i..][1..] == dirs[i + 1..];
      var stepResult, stepFs, stepTrace := InstallInDir(world, npmPath, extractionPath, dirs[i], fs);
      if stepResult.Failure? {
        assert InstallDeps(world, npmPath, extractionPath, dirs[i..], fs) == Stage(stepResult, stepFs, stepTrace);
        return stepResult, stepFs, trace + stepTrace;
      }
      ghost var rest := InstallDeps(world, npmPath, extractionPath, dirs[i + 1..], stepFs);
      ConcatAssoc(trace, stepTrace, rest.trace);
      fs, trace := stepFs, trace + stepTrace;
      i := i + 1;
    }
    assert dirs[|dirs|..] == [];
    result := Success(());
  }

  /** One pass of the loop body: install in `extraction/dir` unless its
      `node_modules` is already populated. */
  method InstallInDir(world: World, npmPath: Path, extractionPath: Path, dir: string, fs0: FileSystem)
    returns (result: Result<(), BootstrapError>, fs: FileSystem, trace: seq<Action>)
    ensures Stage(result, fs, trace) == InstallStep(world, npmPath, extractionPath, dir, fs0)
  {
    fs, trace := fs0, [];
    var installPath := Join(extractionPath, dir);
    var nodeModulesPath := Join(installPath, "node_modules");
    if installPath !in fs.dirs {
      return Failure(MissingInstallDir(installPath)), fs, trace;
    }
    if nodeModulesPath in fs.paths && nodeModulesPath !in fs.dirs {
      return Failure(NodeModulesNotADirectory(nodeModulesPath)), fs, trace;
    }
    result := Success(());
    if nodeModulesPath !in fs.paths || nodeModulesPath !in fs.populated {
      var command := InstallCommand(npmPath);
      var e := world.run(fs, command, installPath);
      trace := [Exec(command, installPath)];
      fs := e.fs;
      if e.status != 0 {
        result := Failure(InstallFailed(installPath, e.status));
      }
    }
  }

  /** `setup_runtime_dependencies`, reassigning the resolved paths and the file
      system as the source does. */
  method SetupRuntimeDependencies(host: Host, catalog: seq<Descriptor>, world: World, fs0: FileSystem)
    returns (result: Result<string, BootstrapError>, fs: FileSystem, trace: seq<Action>)
    ensures Stage(result, fs, trace) == SetupRuntime(host, catalog, world, fs0)
  {
    fs, trace := fs0, [];
    if host.nodePath.None? {
      return Failure(NodeNotFound), fs, trace;
    }
    var nodePath := host.nodePath.value;
    if host.npmPath.None? {
      return Failure(NpmNotFound), fs, trace;
    }
    var npmPath := host.npmPath.value;
    if host.platformId !in PlatformIds(catalog) {
      return Failure(UnsupportedPlatform(host.platformId)), fs, trace;
    }
    var dependency := Selected(catalog, host.platformId);

    var made := MakeDirs(fs, host.lsDir);
    if made.Failure? {
      return Failure(made.error), fs, trace;
    }
    fs := made.value;

    var prepared;
    prepared, fs, trace := PrepareExtraction(host.lsDir, dependency, world, fs);
    if prepared.Failure? {
      return Failure(prepared.error), fs, trace;
    }
    var extractionPath, serverScriptPath := prepared.value.extraction, prepared.value.script;
    ghost var fsPrepared, tracePrepared := fs, trace;

    var installed, installTrace;
    installed, fs, installTrace := InstallNpmDependencies(world, npmPath, extractionPath, InstallDirs(dependency), fs);
    trace := trace + installTrace;
    if installed.Failure? {
      return Failure(installed.error), fs, trace;
    }
    ghost var fsInstalled, traceInstalled := fs, trace;

    if serverScriptPath !in fs.paths {
      var compileCommand := dependency.compileCommand;
      var compileWorkingDir := dependency.compileWorkingDirectory.GetOr(".");
      if compileCommand.Some? && compileCommand.value != "" {
        var compilePath := Join(extractionPath, compileWorkingDir);
        if compilePath !in fs.dirs {
          return Failure(MissingCompileDir(compilePath)), fs, trace;
        }
        var command := Shell(compileCommand.value);
        trace := trace + [Exec(command, compilePath)];
        var e := world.run(fs, command, compilePath);
        fs := e.fs;
        if e.status != 0 {
          return Failure(CompileFailed(compilePath, e.status)), fs, trace;
        }
      }
    }
    assert CompileStep(dependency, world, prepared.value, fsInstalled).fs == fs;
    assert traceInstalled + CompileStep(dependency, world, prepared.value, fsInstalled).trace == trace;
    if serverScriptPath !in fs.paths {
      return Failure(EntryPointNotFound(serverScriptPath)), fs, trace;
    }
    result := Success(LaunchCommand(nodePath, serverScriptPath));
  }
}
