# multilspy's Solidity language server, modelled in Dafny

This project models the core of multilspy's Solidity support.

- **Bootstrap.** `SolidityLanguageServer.setup_runtime_dependencies` makes sure a runnable
  entry point for the VSCode Solidity language server exists on disk:
  - it checks that `node` and `npm` are on the path;
  - it selects the descriptor for the host platform from the runtime-dependency catalog;
  - it creates the `static/vscode-solidity` directory;
  - it resolves the extraction directory and server script, trying the primary extraction path and then the legacy ones;
  - it downloads the archive when nothing usable is there;
  - it runs `npm install` wherever `node_modules` is missing or empty;
  - it runs the optional compile command;
  - it returns the `"<node>" "<script>" --stdio` launch command.
- **Handshake.** `_get_initialize_params` fills the workspace-specific fields into the `initialize` request template.
- **Diagnostics.** The `textDocument/publishDiagnostics` handler logs a count line, then a line per diagnostic for at most the first five.
- **Session.** `start_server` does the following, in this order:
  1. registers the notification handlers;
  2. starts the server process;
  3. sends `initialize` and checks that the reply carries `capabilities`;
  4. sends `initialized` and signals that completions are available;
  5. hands the session to the caller;
  6. requests `shutdown` within 5 seconds, and then always calls `stop`.
- **Configuration.** `MultilspyConfig.from_dict` builds a configuration from a dictionary and
  validates `code_language` against the `Language` enumeration, case-insensitively.
- **Logger.** `MultilspyLogger.log` replaces single quotes with double quotes and
  newlines with spaces before it emits a message.

Files and modules:

- `wrappers.dfy` (`Wrappers`): `Option` and `Result`.
- `seqs.dfy` (`Seqs`): sequence facts the proofs share, and what it means for one sequence to be a subsequence of another.
- `json.dfy` (`Json`): JSON values and `dict.get`.
- `paths.dfy` (`Paths`): `posixpath.join`, `str.split` and `posixpath.basename`.
- `logger.dfy` (`Logger`): the sanitisation and a logger class that keeps its emitted records.
- `config.dfy` (`Config`): the `Language` enumeration and `from_dict`. `from_dict` is a loop method proved against a specification function.
- `bootstrap.dfy` (`Bootstrap`): `setup_runtime_dependencies` in two forms:
  - a specification function over an abstract file system;
  - an imperative method that reassigns the paths and the file system as the source does, and is proved equal to the function.
- `bootstrap_props.dfy` (`BootstrapProperties`): what the bootstrap guarantees.
- `init_params.dfy` (`InitParams`): the `initialize` parameters.
- `diagnostics.dfy` (`Diagnostics`): the diagnostics handler. It is a loop method proved against the function that gives the log lines.
- `session.dfy` (`Session`): the event order of `start_server`, with its raises and its teardown.

The file system is three sets of path strings:

- the paths that exist (`os.path.exists`);
- the directories (`os.path.isdir`);
- the directories with at least one entry (`os.listdir`).

The archive download and the external commands act through a `World` value. Its arrow-typed fields map a file system to a new one and report an exit status. Every run returns the external steps it started as a trace.

A second group of values are parameters:

- the servers' replies;
- the process id;
- `pathlib.Path.as_uri`;
- whether the caller's body raises;
- how `shutdown` ends.

Points where the code's behaviour is easy to misread:

- **Bootstrap is not a no-op once the entry point exists.** The code runs the `npm install` loop, and checks each install directory, even when the script already exists (`BootstrapProperties.InstalledScriptStillRunsNpm`). On a complete tree a run touches nothing (`BootstrapProperties.CompleteTreeRunsNothing`).
- **Cleanup is not guaranteed on every path.** The `yield` is outside the `try`, so a caller body that raises skips both the shutdown request and `stop` (`Session.BodyRaisedSkipsShutdown`). A failure between `server.start()` and the hand-over does not call `stop` either (`Session.RejectedReplyRaises`).
- **No `exit` notification is sent by the code shown.** After `shutdown()` it calls `server.stop()`; what `shutdown()` and `stop()` send is not modelled.
- **A missing severity is a warning.** A diagnostic without a severity gets the default `1`, which indexes `'Warning'`, not `'Error'` (`Diagnostics.MissingSeverityIsWarning`).

## Model

| member | source | states |
|---|---|---|
| Logger.Sanitize | src/multilspy/multilspy_logger.py:42 | same length; every `'` becomes `"`, every newline a space, every other character is kept; the result contains neither `'` nor a newline |
| Logger.SanitizeIdempotent | src/multilspy/multilspy_logger.py:42 | sanitising twice is sanitising once |
| Logger.SanitizeFixesClean | src/multilspy/multilspy_logger.py:42 | a message is left unchanged exactly when it contains no `'` and no newline |
| Logger.SanitizeConcat | src/multilspy/multilspy_logger.py:42 | sanitisation works character by character, so it distributes over concatenation |
| Logger.MultilspyLogger.constructor | src/multilspy/multilspy_logger.py:27-35 | a new logger has emitted nothing, and its invariant (every emitted message is clean) holds |
| Logger.MultilspyLogger.Log | src/multilspy/multilspy_logger.py:37-45 | appends exactly one record, with the given level and the sanitised debug message, to the records emitted so far; the invariant is kept |
| Config.Language.ToString | src/multilspy/multilspy_config.py:26-27 | `str(language)` is the member's value, and looking that value up gives the member back |
| Config.FromValue | src/multilspy/multilspy_config.py:8-24 | `Language(value)`: a member is found exactly when one has that value, and that member's value is the argument |
| Config.ValueInjective | src/multilspy/multilspy_config.py:13-24 | the twelve members have pairwise distinct values |
| Config.Lower | src/multilspy/multilspy_config.py:55 | same length; each character is its lower-case form |
| Config.LowerValue | src/multilspy/multilspy_config.py:13-55 | every member's value is already lower case, so `lower()` leaves it unchanged |
| Config.AsStr | src/multilspy/multilspy_config.py:53-58 | `isinstance(value, str)`: a string is found exactly when the value is a `str` or a `Language` member (a string enum) |
| Config.Coerce | src/multilspy/multilspy_config.py:52-60 | keys other than `code_language` are stored unchanged; a `code_language` that does not raise is stored as a `Language` member |
| Config.Collect | src/multilspy/multilspy_config.py:48-60 | the keyword arguments only hold keys of `env`, and a `code_language` among them is a `Language` member |
| Config.CollectFailureStops | src/multilspy/multilspy_config.py:48-60 | once a field raises, the fields after it do not change the outcome |
| Config.FromDict | src/multilspy/multilspy_config.py:38-62 | the loop over the declared fields builds exactly the configuration, or raises exactly the error, that the specification gives |
| Config.ParseConfigIsExpected | src/multilspy/multilspy_config.py:38-62 | `from_dict` against an independent case split: a missing `code_language` raises the dataclass's missing-argument error; a string or member that names no language raises `ValueError`; another type raises `TypeError`; otherwise the configuration has that language and the flags from `env`, defaulting to `False`/`True` |
| Config.ParseConfigIgnoresOtherKeys | src/multilspy/multilspy_config.py:48-50 | keys that are not fields of the dataclass do not change the result |
| Config.CollectIgnoresOtherKeys | src/multilspy/multilspy_config.py:48-50 | the collected keyword arguments do not depend on keys that are not declared fields |
| Config.LanguageCaseInsensitive | src/multilspy/multilspy_config.py:53-55 | two strings with the same lower-case form either both configure successfully, and then identically, or both raise |
| Config.UpperCaseSolidity | src/multilspy/multilspy_config.py:52-55 | `{"code_language": "SOLIDITY"}` gives Solidity with the default flags |
| Config.UnsupportedLanguageRaises | src/multilspy/multilspy_config.py:54-57 | a string whose lower-case form is no member's value raises `ValueError` naming the string as given |
| Config.NonStringLanguageRaises | src/multilspy/multilspy_config.py:58-59 | a `code_language` that is neither a `str` nor a member raises `TypeError` naming its type |
| Config.MissingLanguageRaises | src/multilspy/multilspy_config.py:48-62 | without `code_language` the constructor call raises |
| Config.FlagsPassThrough | src/multilspy/multilspy_config.py:35-62 | the two flags are passed through unchanged, and default to `False` and `True` |
| Config.LanguageRoundTrip | src/multilspy/multilspy_config.py:13-55 | for every member, `from_dict` given either the member or its `str()` selects that member |
| Config.SelectsLanguage | src/multilspy/multilspy_config.py:53-62 | a `code_language` string that names a member, with no flags, gives that member and the default flags |
| Paths.JoinShape | src/multilspy/language_servers/solidity_language_server/solidity_language_server.py:117-118 | `posixpath.join`: an absolute second part is the result; otherwise the result is the first part, then a single `/` unless the first part is empty or already ends in one, then the second part (the length is fixed accordingly) |
| Paths.Split | src/multilspy/language_servers/solidity_language_server/solidity_language_server.py:89 | `str.split("/")`: at least one part, no part contains the separator, and joining the parts with the separator gives the string back |
| Paths.SplitJoinWith | src/multilspy/language_servers/solidity_language_server/solidity_language_server.py:89 | parts without the separator that are joined and split again come back unchanged |
| Paths.Basename | src/multilspy/language_servers/solidity_language_server/solidity_language_server.py:296 | `posixpath.basename`: the part after the last `/`, a suffix of the path containing no `/`, preceded by a `/` unless it is the whole path |
| Bootstrap.PlatformIds | src/multilspy/language_servers/solidity_language_server/solidity_language_server.py:73 | the supported platforms list the descriptors' ids, in catalog order |
| Bootstrap.FindFirst | src/multilspy/language_servers/solidity_language_server/solidity_language_server.py:78-81 | `next(...)`: none exactly when the platform is unlisted; otherwise the index of the first descriptor with that id |
| Bootstrap.CandidateList | src/multilspy/language_servers/solidity_language_server/solidity_language_server.py:116-118 | one extraction directory and script path per candidate, in order |
| Bootstrap.FirstInstalled | src/multilspy/language_servers/solidity_language_server/solidity_language_server.py:116-120 | the index of the first candidate whose script exists, or none when no script exists |
| Bootstrap.CandidatesOf | src/multilspy/language_servers/solidity_language_server/solidity_language_server.py:114-118 | one candidate per entry: the primary extraction path with the server script under it, then each legacy path with the script under it, in order |
| Bootstrap.ResolvePaths | src/multilspy/language_servers/solidity_language_server/solidity_language_server.py:114-123 | `resolve_paths()` returns one of the candidates: either its script exists or it is the primary one |
| Bootstrap.MakeDirs | src/multilspy/language_servers/solidity_language_server/solidity_language_server.py:84-85 | `os.makedirs(exist_ok=True)`: an existing directory is left as it is; an existing non-directory raises `FileExistsError`; otherwise exactly that one directory is added and nothing else changes |
| Bootstrap.Prepare | src/multilspy/language_servers/solidity_language_server/solidity_language_server.py:125-141 | at most one external step: the archive download, taken exactly when the resolved script is missing and the primary extraction directory is absent; the file system after it is the download's, and the run raises the download error exactly when the download failed; on success the returned pair is what `resolve_paths` gives on the final file system, and its extraction directory exists; the only raises are the download's and the missing extraction directory |
| Bootstrap.InstallStepSpec | src/multilspy/language_servers/solidity_language_server/solidity_language_server.py:144-158 | one loop pass: a missing install directory raises `FileNotFoundError` with that path; an existing `node_modules` that is not a directory raises with that path; `npm install` runs exactly when `node_modules` is absent or empty; a pass that ran it leaves the file system the command left, and raises `InstallFailed` with the path and status exactly when the status is non-zero; a pass that runs nothing changes nothing, and if it also succeeds, `node_modules` is a populated directory |
| Bootstrap.CompileStep | src/multilspy/language_servers/solidity_language_server/solidity_language_server.py:160-173 | the compile command runs through the shell exactly when the script is missing, the command is truthy and its working directory exists; a missing working directory raises; a failing command raises its status; a step that runs nothing changes nothing |
| Bootstrap.PrepareExtraction | src/multilspy/language_servers/solidity_language_server/solidity_language_server.py:125-141 | the step-by-step preparation equals `Prepare` |
| Bootstrap.InstallInDir | src/multilspy/language_servers/solidity_language_server/solidity_language_server.py:144-158 | one pass of the loop body equals `InstallStep` |
| Bootstrap.InstallNpmDependencies | src/multilspy/language_servers/solidity_language_server/solidity_language_server.py:143-158 | the loop over `npmInstallDirs` equals `InstallDeps`: the passes in order, stopping at the first raise |
| Bootstrap.SetupRuntimeDependencies | src/multilspy/language_servers/solidity_language_server/solidity_language_server.py:48-185 | the whole procedure returns, raises, leaves the file system and starts the external steps exactly as `SetupRuntime` says |
| BootstrapProperties.ToolsCheckedFirst | src/multilspy/language_servers/solidity_language_server/solidity_language_server.py:57-63 | a missing `node` (then a missing `npm`) raises before anything else is looked at or changed |
| BootstrapProperties.UnlistedPlatformRaises | src/multilspy/language_servers/solidity_language_server/solidity_language_server.py:72-75 | a platform no descriptor lists raises with that id, changing nothing |
| BootstrapProperties.FirstMatchSelected | src/multilspy/language_servers/solidity_language_server/solidity_language_server.py:78-79 | the run is the run with only the first descriptor for the platform |
| BootstrapProperties.ResolveFirstExisting | src/multilspy/language_servers/solidity_language_server/solidity_language_server.py:116-120 | if candidate i is the first whose script exists, `resolve_paths` returns it |
| BootstrapProperties.ResolveDefault | src/multilspy/language_servers/solidity_language_server/solidity_language_server.py:121-123 | when no candidate's script exists, `resolve_paths` returns the primary extraction path and its script |
| BootstrapProperties.InstallTraceOnlyNpm | src/multilspy/language_servers/solidity_language_server/solidity_language_server.py:144-152 | the install loop starts only `npm install` commands; they form a subsequence of the list's entries (the k-th runs in the directory of the entry at a strictly increasing position), so each list entry gets at most one, in list order; a directory listed twice can get two |
| BootstrapProperties.InstallErrors | src/multilspy/language_servers/solidity_language_server/solidity_language_server.py:147-156 | the loop raises only a missing install directory, a `node_modules` that is not a directory, or a failed `npm install` |
| BootstrapProperties.InstallFailureStopsLoop | src/multilspy/language_servers/solidity_language_server/solidity_language_server.py:154-156 | after a raise, later directories are never looked at |
| BootstrapProperties.InstallAppend | src/multilspy/language_servers/solidity_language_server/solidity_language_server.py:144-158 | the loop over `dirs + later` is the loop over `dirs` followed by the loop over `later` on the resulting file system, with the traces concatenated |
| BootstrapProperties.InstallNothingWhenInstalled | src/multilspy/language_servers/solidity_language_server/solidity_language_server.py:147-158 | when every install directory exists with a populated `node_modules`, the loop succeeds, runs nothing and changes nothing |
| BootstrapProperties.AtMostOneFetch | src/multilspy/language_servers/solidity_language_server/solidity_language_server.py:127-134 | a run downloads the archive at most once |
| BootstrapProperties.FinishFetchesNothing | src/multilspy/language_servers/solidity_language_server/solidity_language_server.py:143-185 | once the extraction directory is prepared, no further download happens |
| BootstrapProperties.FetchIffMissing | src/multilspy/language_servers/solidity_language_server/solidity_language_server.py:125-134 | the archive is downloaded exactly when the first resolution finds no script and the primary extraction directory is absent |
| BootstrapProperties.SuccessLaunchesExistingScript | src/multilspy/language_servers/solidity_language_server/solidity_language_server.py:175-185 | success implies both tools were found and the platform is listed; the command is `"<node>" "<script>" --stdio` for a candidate's script, and that script exists on the resulting file system |
| BootstrapProperties.EntryPointErrorNamesMissingScript | src/multilspy/language_servers/solidity_language_server/solidity_language_server.py:175-176 | the final `FileNotFoundError` names a candidate's script, and that script is absent from the resulting file system |
| BootstrapProperties.CompleteTreeRunsNothing | src/multilspy/language_servers/solidity_language_server/solidity_language_server.py:114-185 | on a complete tree the run succeeds with the resolved script, starts no external step and changes nothing |
| BootstrapProperties.CompleteTreeIdempotent | src/multilspy/language_servers/solidity_language_server/solidity_language_server.py:114-185 | on a complete tree, a second run, against any world, gives the same result as the first |
| BootstrapProperties.LegacyInstallUsed | src/multilspy/language_servers/solidity_language_server/solidity_language_server.py:114-138 | a script found only under a legacy path is used without any download; with its install directories populated, the run launches that script and runs nothing |
| BootstrapProperties.InstalledScriptStillRunsNpm | src/multilspy/language_servers/solidity_language_server/solidity_language_server.py:143-152 | an existing script does not stop the loop: an install directory without `node_modules` still gets `npm install` as the first external step |
| InitParams.FirstFolder | src/multilspy/language_servers/solidity_language_server/solidity_language_server.py:295-296 | `d["workspaceFolders"][0]` with an item assignment: succeeds exactly when the value is a non-empty list whose first entry is a dict, and then gives that dict's fields |
| InitParams.InitializeParams | src/multilspy/language_servers/solidity_language_server/solidity_language_server.py:287-298 | succeeds exactly when `_description` is present, the root has a URI, and `workspaceFolders` holds a non-empty list whose first entry is a dict; raises, in this order of checks, `KeyError` for a missing `_description`, `ValueError` for a root `as_uri` rejects, and `KeyError` for a missing `workspaceFolders` |
| InitParams.InitializeParamsFields | src/multilspy/language_servers/solidity_language_server/solidity_language_server.py:290-294 | `_description` is removed; `processId`, `rootPath` and `rootUri` are the pid, the root and its URI; every other key keeps its value |
| InitParams.InitializeParamsFolders | src/multilspy/language_servers/solidity_language_server/solidity_language_server.py:295-296 | `workspaceFolders` keeps its length, and every folder after the first is unchanged |
| InitParams.InitializeParamsFirstFolder | src/multilspy/language_servers/solidity_language_server/solidity_language_server.py:295-296 | the first folder's `uri` equals `rootUri` and its `name` is the root's basename; its other fields are kept |
| InitParams.GetInitializeParams | src/multilspy/language_servers/solidity_language_server/solidity_language_server.py:282-298 | the step-by-step updates of the loaded template equal `InitializeParams` |
| Diagnostics.SeverityName | src/multilspy/language_servers/solidity_language_server/solidity_language_server.py:321-322 | `['Error', 'Warning', 'Info', 'Hint'][min(severity, 3)]`: 3 and above give `Hint`; 0 to 2 index directly; booleans count as 0/1; -1 to -4 index from the end; below -4 raises `IndexError`; a non-number raises `TypeError` |
| Diagnostics.Describe | src/multilspy/language_servers/solidity_language_server/solidity_language_server.py:319-324 | a diagnostic gives a line exactly when it is a dict whose severity can be named and whose `range`/`start` lookups are dicts; the line carries the `line` (default `?`), the severity name and the `message` (default `Unknown diagnostic`) |
| Diagnostics.DetailsDescribePrefix | src/multilspy/language_servers/solidity_language_server/solidity_language_server.py:319-324 | the detail lines describe a prefix of the diagnostics, in order; a raise happens exactly when the prefix is shorter, and then at the first entry that cannot be described |
| Diagnostics.LogDetails | src/multilspy/language_servers/solidity_language_server/solidity_language_server.py:319-324 | the loop over the first five diagnostics equals `Details` |
| Diagnostics.PublishDiagnostics | src/multilspy/language_servers/solidity_language_server/solidity_language_server.py:312-324 | the handler logs exactly the lines `OnPublishDiagnostics` gives, and raises when it does |
| Diagnostics.LogsOnlyNonEmptyDiagnostics | src/multilspy/language_servers/solidity_language_server/solidity_language_server.py:314-317 | nothing is logged unless the params are a dict containing `uri` and a truthy `diagnostics` |
| Diagnostics.ListLogsCountThenFirstFive | src/multilspy/language_servers/solidity_language_server/solidity_language_server.py:317-324 | a list of diagnostics logs the count line with its length first, followed by at most five detail lines, each describing the entry at its position |
| Diagnostics.WellFormedListLogsExactly | src/multilspy/language_servers/solidity_language_server/solidity_language_server.py:317-324 | when the first five entries can all be described, the handler logs the count line and then exactly `min(n, 5)` detail lines, without raising |
| Diagnostics.MissingSeverityIsWarning | src/multilspy/language_servers/solidity_language_server/solidity_language_server.py:321-322 | a diagnostic without `severity` is logged as `Warning` |
| Diagnostics.SevenDiagnosticsLogFive | src/multilspy/language_servers/solidity_language_server/solidity_language_server.py:318-319 | seven well-formed diagnostics give six lines: the count, with seven, and five details |
| Session.AfterYield | src/multilspy/language_servers/solidity_language_server/solidity_language_server.py:351-358 | after the hand-over, the handshake is never repeated and the base context is left exactly once, at the end |
| Session.ShutdownWarnings | src/multilspy/language_servers/solidity_language_server/solidity_language_server.py:355-356 | at most one warning, for the timeout |
| Session.StartServer | src/multilspy/language_servers/solidity_language_server/solidity_language_server.py:326-358 | the step-by-step run produces exactly the events and outcome of `StartTrace`, given the parameters `_get_initialize_params` builds |
| Session.OpeningEvents | src/multilspy/language_servers/solidity_language_server/solidity_language_server.py:326-332 | every run opens with the three handler registrations, then enters the base context, then starts the process |
| Session.ExitBaseLast | src/multilspy/language_servers/solidity_language_server/solidity_language_server.py:330-358 | whatever raises, the base context is left exactly once, as the last event |
| Session.ParamsFailureStopsBeforeInitialize | src/multilspy/language_servers/solidity_language_server/solidity_language_server.py:332-333 | when the parameters cannot be built, the run raises that error, right after starting the process, without sending `initialize` |
| Session.InitializeSendsParams | src/multilspy/language_servers/solidity_language_server/solidity_language_server.py:333-339 | otherwise the sixth event sends exactly the built parameters |
| Session.RejectedReplyRaises | src/multilspy/language_servers/solidity_language_server/solidity_language_server.py:342-346 | a reply without `capabilities` raises `RuntimeError`; one whose `capabilities` is not a dict raises on `.keys()`; neither sends `initialized`, signals readiness, hands over or stops |
| Session.InitializedExactlyOnce | src/multilspy/language_servers/solidity_language_server/solidity_language_server.py:348-351 | after an accepted reply these happen exactly once each, in this order: `initialized`, the readiness signal, the hand-over |
| Session.TeardownRequestFirst | src/multilspy/language_servers/solidity_language_server/solidity_language_server.py:353-354 | the teardown opens with its only shutdown request |
| Session.TeardownStopLast | src/multilspy/language_servers/solidity_language_server/solidity_language_server.py:357-358 | the teardown's only `stop` comes just before the base context is left |
| Session.ShutdownRequestedOnce | src/multilspy/language_servers/solidity_language_server/solidity_language_server.py:353-354 | when the caller's body returns, `shutdown` is requested exactly once, with the 5-second bound, right after the hand-over |
| Session.StopAfterShutdown | src/multilspy/language_servers/solidity_language_server/solidity_language_server.py:353-358 | when the caller's body returns, `stop` runs exactly once, after the shutdown request, however that ended |
| Session.TimeoutOnlyWarns | src/multilspy/language_servers/solidity_language_server/solidity_language_server.py:353-358 | a timeout only adds the warning and the run succeeds; a shutdown that raises anything else makes that raise the run's outcome |
| Session.BodyRaisedSkipsShutdown | src/multilspy/language_servers/solidity_language_server/solidity_language_server.py:351-358 | a caller body that raises propagates its exception, with no shutdown request and no `stop` |
| Session.StopOnlyAfterShutdownRequest | src/multilspy/language_servers/solidity_language_server/solidity_language_server.py:351-358 | `stop` never happens without an earlier shutdown request |

## Left out

- Process spawning, streaming of the commands' output and the archive download are left out, because they are I/O. Each external step is reduced to its effect on the abstract file system and its exit status. An exception from `subprocess.Popen` shows up as a non-zero status, which the source also turns into the same `RuntimeError`.
- The bootstrap's, session's and handler's informational log messages are not modelled, because they do not affect behaviour. Runs are described by their external steps or events instead. The diagnostics handler's lines are structured records, not the `str()`-formatted text.
- Loading `runtime_dependencies.json` and `initialize_params.json` from disk, and the catalog's `del d["_description"]`, are left out because they are file I/O. The catalog is a parameter. The keys the code reads with `dep[...]` are always present in a `Descriptor`, so a malformed catalog's `KeyError` is not modelled.
- `PlatformUtils.get_platform_id`, `shutil.which`, `os.getpid()` and `pathlib.Path.as_uri` are not part of this model. Their results are parameters.
- `os.makedirs` is modelled for one directory. Creating missing parent directories is left out.
- Paths are plain strings. There is no normalisation, no symbolic links and no permission errors.
- Path handling is modelled for POSIX hosts only: `os.path.join` and `os.path.basename` are `posixpath`'s. On a Windows host they are `ntpath`'s, with backslash separators and drive letters, and that is not modelled.
- Config.Lower: lowers only ASCII `A`–`Z`. Python's `str.lower` also lowers other letters: for instance the Kelvin sign lowers to `k`, so `"Kotlin"` selects Kotlin in Python but raises `ValueError` here. `Config.UnsupportedLanguageRaises` is stated over this lowering.
- Logger.MultilspyLogger.Log: does not model the `logging` handler set-up, the level filtering or the stream output. It keeps the records it would emit. The sanitised error message is computed by the source but then never used, so the model ignores it.
- `window/logMessage` forwarding goes to `_log_window_message` of a base class that is not part of this model. The `$/progress` handler does nothing. Only their registration is modelled.
- The JSON-RPC transport and the base class's `start_server` context are not part of this model: framing, request ids, response correlation, and whatever the base class's context does on entry and exit. Entering and leaving that context are single events.
- Exceptions raised by `server.start()`, by `send.initialize` or by `server.stop()` are not modelled. The reply is a parameter.
- `_setup_project_dependencies` is left out: its only call is commented out, so it is dead code.
- Floating-point JSON numbers are left out. A float `severity` or `line` is not representable.
- Dictionary key order is left out. JSON objects are maps.
- Bootstrap.InstallStep: carries no contract of its own. Its properties are stated by `Bootstrap.InstallStepSpec`.
- Diagnostics.Details: carries no contract of its own. Its properties are stated by `Diagnostics.DetailsDescribePrefix`.
- Bootstrap.SetupRuntime: carries no contract of its own. `Bootstrap.SetupRuntimeDependencies` is proved equal to it, and its properties are stated by the `BootstrapProperties` lemmas.
- Bootstrap.SetupFor: carries no contract of its own. It is the part of `Bootstrap.SetupRuntime` after the tool and platform checks, covered by the same lemmas.
- Bootstrap.Finish: carries no contract of its own. Its properties are stated by `BootstrapProperties.FinishFetchesNothing`, `SuccessLaunchesExistingScript` and `EntryPointErrorNamesMissingScript`.
- Bootstrap.InstallDeps: carries no contract of its own. Its properties are stated by `BootstrapProperties.InstallTraceOnlyNpm`, `InstallErrors`, `InstallFailureStopsLoop`, `InstallAppend` and `InstallNothingWhenInstalled`.
- Bootstrap.LaunchCommand: carries no contract of its own. It is the format string of the launch command, and `BootstrapProperties.SuccessLaunchesExistingScript` states its value.
- Bootstrap.CheckExtraction: carries no contract of its own. Its behaviour is stated by the contract of `Bootstrap.Prepare`.
- Bootstrap.Selected: carries no contract of its own. Its behaviour is stated by `Bootstrap.FindFirst` and `BootstrapProperties.FirstMatchSelected`.
- Bootstrap.CompileDir: carries no contract of its own. It is the compile working directory used in the contract of `Bootstrap.CompileStep`.
- Bootstrap.HasCompileCommand: carries no contract of its own. It is the `if compile_command:` test used in the contract of `Bootstrap.CompileStep`.
- Config.ParseConfig: carries no contract of its own. `Config.FromDict` is proved equal to it, and `Config.ParseConfigIsExpected` ties it to an independent definition.
- Config.Construct: carries no contract of its own. Its behaviour (the required language and the flag defaults) is stated by `Config.ParseConfigIsExpected`, `Config.MissingLanguageRaises` and `Config.FlagsPassThrough`.
- Paths.Join: carries no contract of its own. Its properties are stated by `Paths.JoinShape`.
- Paths.JoinAll: carries no contract of its own. It is `posixpath.join` over several parts, one `Paths.Join` at a time.
- Session.StartTrace: carries no contract of its own. `Session.StartServer` is proved equal to it, and its properties are stated by the other `Session` lemmas.
- Diagnostics.OnPublishDiagnostics: carries no contract of its own. `Diagnostics.PublishDiagnostics` is proved equal to it, and its properties are stated by the other `Diagnostics` lemmas.
- Json.Get: its ensures only spell out `dict.get`. What the handler reads through it is stated by `Diagnostics.Describe` and `Diagnostics.DetailsDescribePrefix`.
- Json.Truthy: carries no contract of its own. It is Python truthiness (the `if diagnostics:` test), used in the contract of `Diagnostics.LogsOnlyNonEmptyDiagnostics`.
- Bootstrap.Candidates: its ensures only spell out `[relative_extraction_path, *legacy]`. The candidates' use is stated by `Bootstrap.CandidatesOf`, `BootstrapProperties.ResolveFirstExisting` and `BootstrapProperties.ResolveDefault`.
- Bootstrap.ScriptParts: carries no contract of its own. It is `serverScript.split("/")`, whose properties are stated by `Paths.Split`.
- Bootstrap.CandidateAt: carries no contract of its own. It is the pair of joins for one candidate, used in the contracts of `Bootstrap.CandidateList` and `Bootstrap.CandidatesOf`.
- Bootstrap.InstallDirs: carries no contract of its own. It is `dependency.get("npmInstallDirs", [])`, used by the `BootstrapProperties` install lemmas.
- Bootstrap.InstallCommand: carries no contract of its own. It is the `[npm_path, "install"]` argument vector, used in the contract of `Bootstrap.InstallStepSpec`.
- Bootstrap.NeedsInstall: carries no contract of its own. It is the `node_modules` absent-or-empty test, used in the contract of `Bootstrap.InstallStepSpec`.
- Bootstrap.Installed: carries no contract of its own. It is "`node_modules` is a populated directory", used in the contracts of `Bootstrap.InstallStepSpec` and `BootstrapProperties.InstallNothingWhenInstalled`.
- BootstrapProperties.InstallActions: its ensures only spell out its definition, one `npm install` per list entry. Its use is stated by `BootstrapProperties.InstallTraceOnlyNpm`.
- Config.Language.Value: carries no contract of its own. It is the enumeration's value table, whose properties are stated by `Config.FromValue`, `Config.ValueInjective` and `Config.Language.ToString`.
- Config.LowerChar: carries no contract of its own. It is the per-character lowering used in the contract of `Config.Lower`.
- Config.TypeName: carries no contract of its own. It is the type named in the `TypeError`, used in the contract of `Config.NonStringLanguageRaises`.
- Logger.ReplaceChar: carries no contract of its own. It is one `str.replace`, and the two replacements together are stated by `Logger.Sanitize`.
- Paths.RFind: a helper of `Paths.Basename`, the `rfind` inside `posixpath.basename`. Its contract says it finds the last occurrence of the character, or -1 when there is none. What the source relies on is stated by `Paths.Basename`.
- Session.Notification.Method: carries no contract of its own. It names the methods the handlers are registered under, whose order is stated by `Session.OpeningEvents`.
- Session.StartTrace: the reply to `initialize` is always a dict. A reply that is not one cannot be represented: for `None` the `in` test raises `TypeError`, and for a list or a string it tests membership of an element instead of a key.
