/** What `setup_runtime_dependencies` guarantees, proved about the model in
    module Bootstrap. */
module BootstrapProperties {
  import opened Wrappers
  import opened Paths
  import opened Seqs
  import opened Bootstrap

  /** The number of archive downloads in a trace. */
  function Fetches(trace: seq<Action>): nat
    decreases |trace|
  {
    if trace == [] then 0 else (if trace[0].Fetch? then 1 else 0) + Fetches(trace[1..])
  }

  lemma {:induction false} FetchesConcat(a: seq<Action>, b: seq<Action>)
    ensures Fetches(a + b) == Fetches(a) + Fetches(b)
    decreases |a|
  {
    if a != [] {
      assert (a + b)[1..] == a[1..] + b;
      FetchesConcat(a[1..], b);
    } else {
      assert a + b == b;
    }
  }

  lemma {:induction false} NoFetches(trace: seq<Action>)
    requires forall k :: 0 <= k < |trace| ==> trace[k].Exec?
    ensures Fetches(trace) == 0
    decreases |trace|
  {
    if trace != [] {
      NoFetches(trace[1..]);
    }
  }

  /** Missing tools are reported before the catalog is consulted: the result
      does not depend on the catalog, and nothing runs. */
  lemma ToolsCheckedFirst(host: Host, catalog: seq<Descriptor>, world: World, fs: FileSystem)
    ensures host.nodePath.None? ==> SetupRuntime(host, catalog, world, fs) == Stage(Failure(NodeNotFound), fs, [])
    ensures host.nodePath.Some? && host.npmPath.None? ==>
      SetupRuntime(host, catalog, world, fs) == Stage(Failure(NpmNotFound), fs, [])
  {
  }

  /** A platform id that no descriptor lists raises before anything is touched. */
  lemma UnlistedPlatformRaises(host: Host, catalog: seq<Descriptor>, world: World, fs: FileSystem)
    requires host.nodePath.Some? && host.npmPath.Some?
    requires forall i :: 0 <= i < |catalog| ==> catalog[i].platformId != host.platformId
    ensures SetupRuntime(host, catalog, world, fs) == Stage(Failure(UnsupportedPlatform(host.platformId)), fs, [])
  {
  }

  /** The first descriptor for the platform is the one used: the run is the run
      with that descriptor alone. */
  lemma {:induction false} FirstMatchSelected(host: Host, catalog: seq<Descriptor>, i: nat, world: World, fs: FileSystem)
    requires i < |catalog| && catalog[i].platformId == host.platformId
    requires forall j :: 0 <= j < i ==> catalog[j].platformId != host.platformId
    ensures SetupRuntime(host, catalog, world, fs) == SetupRuntime(host, [catalog[i]], world, fs)
  {
    var ids := PlatformIds(catalog);
    assert ids[i] == host.platformId;
    assert FindFirst(catalog, host.platformId) == Some(i);
    assert PlatformIds([catalog[i]])[0] == host.platformId;
    assert Selected(catalog, host.platformId) == Selected([catalog[i]], host.platformId);
  }

  /** `resolve_paths` returns the first candidate, in the order
      `[relative_extraction_path, *legacy]`, whose script exists. */
  lemma ResolveFirstExisting(fs: FileSystem, lsDir: Path, d: Descriptor, i: nat)
    requires i < |CandidatesOf(lsDir, d)|
    requires CandidatesOf(lsDir, d)[i].script in fs.paths
    requires forall j :: 0 <= j < i ==> CandidatesOf(lsDir, d)[j].script !in fs.paths
    ensures ResolvePaths(fs, lsDir, d) == CandidatesOf(lsDir, d)[i]
  {
    var cs := CandidatesOf(lsDir, d);
    assert FirstInstalled(fs, cs) == Some(i);
  }

  /** When no candidate's script exists, `resolve_paths` falls back to the primary pair. */
  lemma ResolveDefault(fs: FileSystem, lsDir: Path, d: Descriptor)
    requires forall j :: 0 <= j < |CandidatesOf(lsDir, d)| ==> CandidatesOf(lsDir, d)[j].script !in fs.paths
    ensures ResolvePaths(fs, lsDir, d) == CandidateAt(lsDir, d.relativeExtractionPath, ScriptParts(d))
  {
    assert FirstInstalled(fs, CandidatesOf(lsDir, d)) == None;
  }

  // ---------------------------------------------------------------------------
  // The install loop

  /** The `npm install` command for each entry of the list, in list order. */
  function InstallActions(npmPath: Path, extraction: Path, dirs: seq<string>): (acts: seq<Action>)
    ensures |acts| == |dirs|
    ensures forall j :: 0 <= j < |dirs| ==> acts[j] == Exec(InstallCommand(npmPath), Join(extraction, dirs[j]))
  {
    seq(|dirs|, j requires 0 <= j < |dirs| => Exec(InstallCommand(npmPath), Join(extraction, dirs[j])))
  }

  /** The loop records only `npm install` commands, each in the directory of a
      list entry, in list order, and at most one per entry (a directory listed
      twice can get two). */
  lemma InstallTraceOnlyNpm(world: World, npmPath: Path, extraction: Path, dirs: seq<string>, fs: FileSystem)
    ensures var t := InstallDeps(world, npmPath, extraction, dirs, fs).trace;
      && |t| <= |dirs|
      && (forall k :: 0 <= k < |t| ==> t[k].Exec? && t[k].command == InstallCommand(npmPath))
      && exists idx :: Subsequence(t, InstallActions(npmPath, extraction, dirs), idx)
  {
    var acts := InstallActions(npmPath, extraction, dirs);
    var idx := InstallIndices(world, npmPath, extraction, dirs, fs);
    var t := InstallDeps(world, npmPath, extraction, dirs, fs).trace;
    SubsequenceBound(t, acts, idx);
    forall k | 0 <= k < |t|
      ensures t[k].Exec? && t[k].command == InstallCommand(npmPath)
    {
      assert t[k] == acts[idx[k]];
    }
  }

  /** The positions in the list of the loop's commands. */
  lemma {:induction false} InstallIndices(world: World, npmPath: Path, extraction: Path, dirs: seq<string>, fs: FileSystem)
    returns (idx: seq<nat>)
    ensures Subsequence(InstallDeps(world, npmPath, extraction, dirs, fs).trace, InstallActions(npmPath, extraction, dirs), idx)
    decreases |dirs|
  {
    var acts := InstallActions(npmPath, extraction, dirs);
    if dirs == [] {
      return [];
    }
    var s := InstallStep(world, npmPath, extraction, dirs[0], fs);
    InstallStepSpec(world, npmPath, extraction, dirs[0], fs);
    assert s.trace == [] || s.trace == [acts[0]];
    if s.result.Failure? {
      idx := SubsequenceCons(s.trace, [], acts, []);
      assert s.trace + [] == s.trace;
      return;
    }
    var rest := InstallIndices(world, npmPath, extraction, dirs[1..], s.fs);
    assert InstallActions(npmPath, extraction, dirs[1..]) == acts[1..];
    var t := InstallDeps(world, npmPath, extraction, dirs[1..], s.fs).trace;
    idx := SubsequenceCons(s.trace, t, acts, rest);
  }

  /** The loop raises only the errors of its own checks and commands. */
  lemma {:induction false} InstallErrors(world: World, npmPath: Path, extraction: Path, dirs: seq<string>, fs: FileSystem)
    ensures var r := InstallDeps(world, npmPath, extraction, dirs, fs).result;
      r.Failure? ==> r.error.MissingInstallDir? || r.error.NodeModulesNotADirectory? || r.error.InstallFailed?
    decreases |dirs|
  {
    if dirs != [] {
      var s := InstallStep(world, npmPath, extraction, dirs[0], fs);
      if s.result.Success? {
        InstallErrors(world, npmPath, extraction, dirs[1..], s.fs);
      }
    }
  }

  /** A raise ends the loop: later directories are never looked at, whatever they are. */
  lemma {:induction false} InstallFailureStopsLoop(world: World, npmPath: Path, extraction: Path,
                                                  dirs: seq<string>, later: seq<string>, fs: FileSystem)
    requires InstallDeps(world, npmPath, extraction, dirs, fs).result.Failure?
    ensures InstallDeps(world, npmPath, extraction, dirs + later, fs) == InstallDeps(world, npmPath, extraction, dirs, fs)
    decreases |dirs|
  {
    assert dirs != [];
    ConsAppend(dirs, later);
    var s := InstallStep(world, npmPath, extraction, dirs[0], fs);
    if s.result.Success? {
      InstallFailureStopsLoop(world, npmPath, extraction, dirs[1..], later, s.fs);
    }
  }

  /** The loop over `dirs + later` is the loop over `dirs`, then, if that did not
      raise, the loop over `later` from the state it left. */
  lemma {:induction false} InstallAppend(world: World, npmPath: Path, extraction: Path,
                                        dirs: seq<string>, later: seq<string>, fs: FileSystem)
    requires InstallDeps(world, npmPath, extraction, dirs, fs).result.Success?
    ensures var first := InstallDeps(world, npmPath, extraction, dirs, fs);
      var second := InstallDeps(world, npmPath, extraction, later, first.fs);
      InstallDeps(world, npmPath, extraction, dirs + later, fs) == Stage(second.result, second.fs, first.trace + second.trace)
    decreases |dirs|
  {
    if dirs == [] {
      assert dirs + later == later;
    } else {
      ConsAppend(dirs, later);
      var s := InstallStep(world, npmPath, extraction, dirs[0], fs);
      var first := InstallDeps(world, npmPath, extraction, dirs[1..], s.fs);
      InstallAppend(world, npmPath, extraction, dirs[1..], later, s.fs);
      var second := InstallDeps(world, npmPath, extraction, later, first.fs);
      ConcatAssoc(s.trace, first.trace, second.trace);
    }
  }

  /** When every install directory already has a non-empty `node_modules`
      directory, the loop runs nothing and changes nothing. */
  lemma {:induction false} InstallNothingWhenInstalled(world: World, npmPath: Path, extraction: Path,
                                                      dirs: seq<string>, fs: FileSystem)
    requires forall k :: 0 <= k < |dirs| ==>
      Join(extraction, dirs[k]) in fs.dirs && Installed(fs, Join(extraction, dirs[k]))
    ensures InstallDeps(world, npmPath, extraction, dirs, fs) == Stage(Success(()), fs, [])
    decreases |dirs|
  {
    if dirs != [] {
      assert Join(extraction, dirs[0]) in fs.dirs && Installed(fs, Join(extraction, dirs[0]));
      InstallNothingWhenInstalled(world, npmPath, extraction, dirs[1..], fs);
    }
  }

  // ---------------------------------------------------------------------------
  // The whole procedure

  /** The external steps of a run: at most one download, then `npm install`
      commands, then at most one build command. */
  lemma AtMostOneFetch(host: Host, catalog: seq<Descriptor>, world: World, fs: FileSystem)
    ensures Fetches(SetupRuntime(host, catalog, world, fs).trace) <= 1
  {
    if host.nodePath.Some? && host.npmPath.Some? && host.platformId in PlatformIds(catalog) {
      var d := Selected(catalog, host.platformId);
      if MakeDirs(fs, host.lsDir).Success? {
        var fs1 := MakeDirs(fs, host.lsDir).value;
        var prep := Prepare(host.lsDir, d, world, fs1);
        if prep.result.Success? {
          FinishFetchesNothing(host.nodePath.value, host.npmPath.value, d, world, prep.result.value, prep.fs, prep.trace);
        }
        assert Fetches(prep.trace) <= 1 by {
          if |prep.trace| == 1 {
            assert prep.trace[1..] == [];
          }
        }
      }
    }
  }

  /** After the extraction directory is ready, no further download happens. */
  lemma FinishFetchesNothing(nodePath: Path, npmPath: Path, d: Descriptor, world: World, p: Resolved,
                             fs: FileSystem, trace: seq<Action>)
    ensures Fetches(Finish(nodePath, npmPath, d, world, p, fs, trace).trace) == Fetches(trace)
  {
    var ins := InstallDeps(world, npmPath, p.extraction, InstallDirs(d), fs);
    InstallTraceOnlyNpm(world, npmPath, p.extraction, InstallDirs(d), fs);
    NoFetches(ins.trace);
    FetchesConcat(trace, ins.trace);
    if ins.result.Success? {
      var c := CompileStep(d, world, p, ins.fs);
      NoFetches(c.trace);
      FetchesConcat(trace + ins.trace, c.trace);
    }
  }

  /** The archive is downloaded exactly when, after `os.makedirs`, the resolved
      script is missing and the primary extraction directory is absent. */
  lemma FetchIffMissing(host: Host, catalog: seq<Descriptor>, world: World, fs: FileSystem)
    requires host.nodePath.Some? && host.npmPath.Some? && host.platformId in PlatformIds(catalog)
    requires MakeDirs(fs, host.lsDir).Success?
    ensures var d := Selected(catalog, host.platformId);
      var fs1 := MakeDirs(fs, host.lsDir).value;
      (Fetches(SetupRuntime(host, catalog, world, fs).trace) == 1) ==
      (ResolvePaths(fs1, host.lsDir, d).script !in fs1.paths && Join(host.lsDir, d.relativeExtractionPath) !in fs1.paths)
  {
    var d := Selected(catalog, host.platformId);
    var fs1 := MakeDirs(fs, host.lsDir).value;
    var prep := Prepare(host.lsDir, d, world, fs1);
    assert Fetches(prep.trace) == |prep.trace| by {
      if |prep.trace| == 1 {
        assert prep.trace[1..] == [];
      }
    }
    if prep.result.Success? {
      FinishFetchesNothing(host.nodePath.value, host.npmPath.value, d, world, prep.result.value, prep.fs, prep.trace);
    }
  }

  /** On success the launch command is `"<node>" "<script>" --stdio` for the
      script of one of the candidates, and that script exists. */
  lemma SuccessLaunchesExistingScript(host: Host, catalog: seq<Descriptor>, world: World, fs: FileSystem)
    requires SetupRuntime(host, catalog, world, fs).result.Success?
    ensures host.nodePath.Some? && host.npmPath.Some? && host.platformId in PlatformIds(catalog)
    ensures var r := SetupRuntime(host, catalog, world, fs);
      exists p :: p in CandidatesOf(host.lsDir, Selected(catalog, host.platformId))
        && p.script in r.fs.paths
        && r.result.value == "\"" + host.nodePath.value + "\" \"" + p.script + "\" --stdio"
  {
    var d := Selected(catalog, host.platformId);
    var fs1 := MakeDirs(fs, host.lsDir).value;
    var prep := Prepare(host.lsDir, d, world, fs1);
    assert prep.result.Success?;
    var p := prep.result.value;
    assert p in CandidatesOf(host.lsDir, d);
    var ins := InstallDeps(world, host.npmPath.value, p.extraction, InstallDirs(d), prep.fs);
    assert ins.result.Success?;
    var c := CompileStep(d, world, p, ins.fs);
    assert c.result.Success?;
    var r := SetupRuntime(host, catalog, world, fs);
    assert r.fs == c.fs && r.result == Success(LaunchCommand(host.nodePath.value, p.script));
    assert p.script in r.fs.paths;
  }

  /** The final existence check: a run that ends with `FileNotFoundError` for
      the entry point names the script of one of the candidates, and that
      script is indeed absent once the install and compile steps are done. */
  lemma EntryPointErrorNamesMissingScript(host: Host, catalog: seq<Descriptor>, world: World, fs: FileSystem)
    requires SetupRuntime(host, catalog, world, fs).result.Failure?
    requires SetupRuntime(host, catalog, world, fs).result.error.EntryPointNotFound?
    ensures host.nodePath.Some? && host.npmPath.Some? && host.platformId in PlatformIds(catalog)
    ensures var r := SetupRuntime(host, catalog, world, fs);
      && r.result.error.path !in r.fs.paths
      && exists p :: p in CandidatesOf(host.lsDir, Selected(catalog, host.platformId)) && p.script == r.result.error.path
  {
    var d := Selected(catalog, host.platformId);
    var fs1 := MakeDirs(fs, host.lsDir).value;
    var prep := Prepare(host.lsDir, d, world, fs1);
    assert prep.result.Success?;
    var p := prep.result.value;
    assert p in CandidatesOf(host.lsDir, d);
    var ins := InstallDeps(world, host.npmPath.value, p.extraction, InstallDirs(d), prep.fs);
    InstallErrors(world, host.npmPath.value, p.extraction, InstallDirs(d), prep.fs);
    assert ins.result.Success?;
    var c := CompileStep(d, world, p, ins.fs);
    assert c.result.Success?;
    var r := SetupRuntime(host, catalog, world, fs);
    assert r.fs == c.fs && r.result == Failure(EntryPointNotFound(p.script));
  }

  /** The tree a completed install leaves: the resolved script and its
      extraction directory exist, and every install directory has a non-empty
      `node_modules` directory. */
  predicate CompleteTree(fs: FileSystem, lsDir: Path, d: Descriptor) {
    var p := ResolvePaths(fs, lsDir, d);
    && lsDir in fs.dirs
    && p.script in fs.paths
    && p.extraction in fs.paths
    && forall k :: 0 <= k < |InstallDirs(d)| ==>
         Join(p.extraction, InstallDirs(d)[k]) in fs.dirs && Installed(fs, Join(p.extraction, InstallDirs(d)[k]))
  }

  /** On a complete tree nothing runs and nothing changes: the world is never
      consulted, so a second run returns the same launch command as the first. */
  lemma CompleteTreeRunsNothing(host: Host, catalog: seq<Descriptor>, world: World, fs: FileSystem)
    requires host.nodePath.Some? && host.npmPath.Some? && host.platformId in PlatformIds(catalog)
    requires CompleteTree(fs, host.lsDir, Selected(catalog, host.platformId))
    ensures var p := ResolvePaths(fs, host.lsDir, Selected(catalog, host.platformId));
      SetupRuntime(host, catalog, world, fs) == Stage(Success(LaunchCommand(host.nodePath.value, p.script)), fs, [])
  {
    var d := Selected(catalog, host.platformId);
    var p := ResolvePaths(fs, host.lsDir, d);
    assert Prepare(host.lsDir, d, world, fs) == Stage(Success(p), fs, []);
    InstallNothingWhenInstalled(world, host.npmPath.value, p.extraction, InstallDirs(d), fs);
  }

  lemma CompleteTreeIdempotent(host: Host, catalog: seq<Descriptor>, w1: World, w2: World, fs: FileSystem)
    requires host.nodePath.Some? && host.npmPath.Some? && host.platformId in PlatformIds(catalog)
    requires CompleteTree(fs, host.lsDir, Selected(catalog, host.platformId))
    ensures var r := SetupRuntime(host, catalog, w1, fs);
      r.trace == [] && SetupRuntime(host, catalog, w2, r.fs) == r
  {
    CompleteTreeRunsNothing(host, catalog, w1, fs);
    CompleteTreeRunsNothing(host, catalog, w2, fs);
  }

  /** A script present only under a legacy extraction path is used as it is:
      no download happens, and with its `node_modules` in place nothing runs. */
  lemma LegacyInstallUsed(host: Host, catalog: seq<Descriptor>, world: World, fs: FileSystem, i: nat)
    requires host.nodePath.Some? && host.npmPath.Some? && host.platformId in PlatformIds(catalog)
    requires host.lsDir in fs.dirs
    requires var cs := CandidatesOf(host.lsDir, Selected(catalog, host.platformId));
      && 0 < i < |cs| && cs[i].script in fs.paths
      && forall j :: 0 <= j < i ==> cs[j].script !in fs.paths
    ensures Fetches(SetupRuntime(host, catalog, world, fs).trace) == 0
    ensures CompleteTree(fs, host.lsDir, Selected(catalog, host.platformId)) ==>
      var cs := CandidatesOf(host.lsDir, Selected(catalog, host.platformId));
      SetupRuntime(host, catalog, world, fs) == Stage(Success(LaunchCommand(host.nodePath.value, cs[i].script)), fs, [])
  {
    var d := Selected(catalog, host.platformId);
    ResolveFirstExisting(fs, host.lsDir, d, i);
    FetchIffMissing(host, catalog, world, fs);
    AtMostOneFetch(host, catalog, world, fs);
    if CompleteTree(fs, host.lsDir, d) {
      CompleteTreeRunsNothing(host, catalog, world, fs);
    }
  }

  /** The script existing is not enough for nothing to run: an install
      directory whose `node_modules` is missing still gets `npm install`. */
  lemma InstalledScriptStillRunsNpm(host: Host, catalog: seq<Descriptor>, world: World, fs: FileSystem)
    requires host.nodePath.Some? && host.npmPath.Some? && host.platformId in PlatformIds(catalog)
    requires host.lsDir in fs.dirs
    requires var d := Selected(catalog, host.platformId);
      var p := ResolvePaths(fs, host.lsDir, d);
      && p.script in fs.paths && p.extraction in fs.paths
      && InstallDirs(d) != []
      && Join(p.extraction, InstallDirs(d)[0]) in fs.dirs
      && Join(Join(p.extraction, InstallDirs(d)[0]), "node_modules") !in fs.paths
    ensures var d := Selected(catalog, host.platformId);
      var p := ResolvePaths(fs, host.lsDir, d);
      var t := SetupRuntime(host, catalog, world, fs).trace;
      |t| >= 1 && t[0] == Exec(InstallCommand(host.npmPath.value), Join(p.extraction, InstallDirs(d)[0]))
  {
    var d := Selected(catalog, host.platformId);
    var p := ResolvePaths(fs, host.lsDir, d);
    assert Prepare(host.lsDir, d, world, fs) == Stage(Success(p), fs, []);
    var dirs := InstallDirs(d);
    var s := InstallStep(world, host.npmPath.value, p.extraction, dirs[0], fs);
    assert s.trace == [Exec(InstallCommand(host.npmPath.value), Join(p.extraction, dirs[0]))];
    var ins := InstallDeps(world, host.npmPath.value, p.extraction, dirs, fs);
    assert ins.trace[0] == s.trace[0];
    FinishStartsWithInstall(host.nodePath.value, host.npmPath.value, d, world, p, fs);
  }

  /** Without earlier steps, what `Finish` records begins with the install loop's steps. */
  lemma FinishStartsWithInstall(nodePath: Path, npmPath: Path, d: Descriptor, world: World, p: Resolved, fs: FileSystem)
    ensures InstallDeps(world, npmPath, p.extraction, InstallDirs(d), fs).trace <= Finish(nodePath, npmPath, d, world, p, fs, []).trace
  {
    var ins := InstallDeps(world, npmPath, p.extraction, InstallDirs(d), fs);
    assert [] + ins.trace == ins.trace;
  }
}
