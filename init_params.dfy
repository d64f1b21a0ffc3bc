/** `_get_initialize_params`: the LSP `initialize` request parameters, built by
    updating a loaded template in place for one workspace root. */
module InitParams {
  import opened Wrappers
  import opened Json
  import opened Paths

  /** The Python exceptions the update can raise. */
  datatype PyException =
    | KeyError(key: Json)        // a key missing from a dict (`del` or `[...]`)
    | ValueError(path: string)   // `as_uri()` of a path that is not absolute
    | TypeError                  // subscript or item assignment on a value that has neither
    | IndexError                 // `[0]` of an empty list or string

  const DESCRIPTION := "_description"
  const PROCESS_ID := "processId"
  const ROOT_PATH := "rootPath"
  const ROOT_URI := "rootUri"
  const WORKSPACE_FOLDERS := "workspaceFolders"
  const URI := "uri"
  const NAME := "name"

  /** What `value[0]` followed by an item assignment on the result does with the
      value stored under `workspaceFolders`: the fields of the first folder, or
      the exception. A JSON object has only string keys, so `[0]` misses. */
  function FirstFolder(value: Json): (r: Result<map<string, Json>, PyException>)
    ensures r.Success? <==> value.JArr? && |value.items| > 0 && value.items[0].JObj?
    ensures r.Success? ==> r.value == value.items[0].fields
  {
    match value
    case JArr(items) =>
      if |items| == 0 then Failure(IndexError)
      else if items[0].JObj? then Success(items[0].fields)
      else Failure(TypeError)
    case JStr(s) => if |s| == 0 then Failure(IndexError) else Failure(TypeError)
    case JObj(_) => Failure(KeyError(JInt(0)))
    case _ => Failure(TypeError)
  }

  /** The keys the update touches are distinct. */
  predicate KeysDistinct() {
    && |{DESCRIPTION, PROCESS_ID, ROOT_PATH, ROOT_URI, WORKSPACE_FOLDERS}| == 5
    && URI != NAME
  }

  /** The template and root for which the update completes. */
  predicate Buildable(template: map<string, Json>, root: string, asUri: string -> Option<string>) {
    && DESCRIPTION in template
    && asUri(root).Some?
    && WORKSPACE_FOLDERS in template
    && FirstFolder(template[WORKSPACE_FOLDERS]).Success?
  }

  /** The parameters `_get_initialize_params` returns, or the exception it raises.
      `pathlib.Path(root).as_uri()` is `asUri` (None where it raises), and
      `os.getpid()` is `pid`. */
  function InitializeParams(template: map<string, Json>, root: string, pid: int, asUri: string -> Option<string>)
    : (r: Result<map<string, Json>, PyException>)
    ensures r.Success? <==> Buildable(template, root, asUri)
    ensures DESCRIPTION !in template ==> r == Failure(KeyError(JStr(DESCRIPTION)))
    ensures DESCRIPTION in template && asUri(root).None? ==> r == Failure(ValueError(root))
    ensures DESCRIPTION in template && asUri(root).Some? && WORKSPACE_FOLDERS !in template ==>
      r == Failure(KeyError(JStr(WORKSPACE_FOLDERS)))
  {
    assert KeysDistinct();
    if DESCRIPTION !in template then Failure(KeyError(JStr(DESCRIPTION)))
    else if asUri(root).None? then Failure(ValueError(root))
    else
      var uri := JStr(asUri(root).value);
      var d := (template - {DESCRIPTION})[PROCESS_ID := JInt(pid)][ROOT_PATH := JStr(root)][ROOT_URI := uri];
      if WORKSPACE_FOLDERS !in d then Failure(KeyError(JStr(WORKSPACE_FOLDERS)))
      else match FirstFolder(d[WORKSPACE_FOLDERS])
        case Failure(e) => Failure(e)
        case Success(folder) =>
          var folders := d[WORKSPACE_FOLDERS].items;
          assert folders == template[WORKSPACE_FOLDERS].items;
          var first := JObj(folder[URI := uri][NAME := JStr(Basename(root))]);
          Success(d[WORKSPACE_FOLDERS := JArr([first] + folders[1..])])
  }

  /** A successful update drops `_description`, sets the process id, the root
      path and its URI, and keeps every other top-level field of the template. */
  lemma InitializeParamsFields(template: map<string, Json>, root: string, pid: int, asUri: string -> Option<string>)
    requires Buildable(template, root, asUri)
    ensures var r := InitializeParams(template, root, pid, asUri).value;
      && r.Keys == template.Keys - {DESCRIPTION} + {PROCESS_ID, ROOT_PATH, ROOT_URI}
      && r[PROCESS_ID] == JInt(pid)
      && r[ROOT_PATH] == JStr(root)
      && r[ROOT_URI] == JStr(asUri(root).value)
      && forall k :: k in template && k !in {DESCRIPTION, PROCESS_ID, ROOT_PATH, ROOT_URI, WORKSPACE_FOLDERS} ==>
           r[k] == template[k]
  {
    assert KeysDistinct();
    var d, items := UpdatedFolders(template, root, pid, asUri);
    assert WORKSPACE_FOLDERS in d;
  }

  /** A successful update keeps the number of workspace folders and every
      folder after the first. */
  lemma InitializeParamsFolders(template: map<string, Json>, root: string, pid: int, asUri: string -> Option<string>)
    requires Buildable(template, root, asUri)
    ensures var r := InitializeParams(template, root, pid, asUri).value;
      var before := template[WORKSPACE_FOLDERS].items;
      && WORKSPACE_FOLDERS in r
      && r[WORKSPACE_FOLDERS].JArr?
      && |r[WORKSPACE_FOLDERS].items| == |before|
      && r[WORKSPACE_FOLDERS].items[1..] == before[1..]
  {
    var d, items := UpdatedFolders(template, root, pid, asUri);
    assert items[1..] == template[WORKSPACE_FOLDERS].items[1..];
  }

  /** A successful update gives the first workspace folder the root's URI and
      base name, and keeps its other fields. */
  lemma InitializeParamsFirstFolder(template: map<string, Json>, root: string, pid: int, asUri: string -> Option<string>)
    requires Buildable(template, root, asUri)
    ensures var r := InitializeParams(template, root, pid, asUri).value;
      var before := template[WORKSPACE_FOLDERS].items[0].fields;
      && WORKSPACE_FOLDERS in r && ROOT_URI in r
      && r[WORKSPACE_FOLDERS].JArr? && |r[WORKSPACE_FOLDERS].items| > 0
      && var first := r[WORKSPACE_FOLDERS].items[0];
      && first.JObj?
      && first.fields.Keys == before.Keys + {URI, NAME}
      && first.fields[URI] == r[ROOT_URI]
      && first.fields[NAME] == JStr(Basename(root))
      && forall k :: k in before && k !in {URI, NAME} ==> first.fields[k] == before[k]
  {
    var d, items := UpdatedFolders(template, root, pid, asUri);
    assert items[0].fields.Keys == template[WORKSPACE_FOLDERS].items[0].fields.Keys + {URI, NAME};
  }

  /** The dict before the folders are written back, and the folders written. */
  lemma UpdatedFolders(template: map<string, Json>, root: string, pid: int, asUri: string -> Option<string>)
    returns (d: map<string, Json>, items: seq<Json>)
    requires Buildable(template, root, asUri)
    ensures d == (template - {DESCRIPTION})[PROCESS_ID := JInt(pid)][ROOT_PATH := JStr(root)][ROOT_URI := JStr(asUri(root).value)]
    ensures var folders := template[WORKSPACE_FOLDERS].items;
      && ROOT_URI in d && d[ROOT_URI] == JStr(asUri(root).value)
      && items == [JObj(folders[0].fields[URI := d[ROOT_URI]][NAME := JStr(Basename(root))])] + folders[1..]
      && InitializeParams(template, root, pid, asUri) == Success(d[WORKSPACE_FOLDERS := JArr(items)])
  {
    assert KeysDistinct();
    var uri := JStr(asUri(root).value);
    d := (template - {DESCRIPTION})[PROCESS_ID := JInt(pid)][ROOT_PATH := JStr(root)][ROOT_URI := uri];
    assert d[WORKSPACE_FOLDERS] == template[WORKSPACE_FOLDERS];
    var folders := template[WORKSPACE_FOLDERS].items;
    items := [JObj(folders[0].fields[URI := uri][NAME := JStr(Basename(root))])] + folders[1..];
  }

  /** The update step by step, as the source performs it on the loaded dict `d`. */
  method GetInitializeParams(template: map<string, Json>, root: string, pid: int, asUri: string -> Option<string>)
    returns (r: Result<map<string, Json>, PyException>)
    ensures r == InitializeParams(template, root, pid, asUri)
  {
    if DESCRIPTION !in template {
      return Failure(KeyError(JStr(DESCRIPTION)));
    }
    var d := template - {DESCRIPTION};
    d := d[PROCESS_ID := JInt(pid)];
    d := d[ROOT_PATH := JStr(root)];
    var uri := asUri(root);
    if uri.None? {
      return Failure(ValueError(root));
    }
    d := d[ROOT_URI := JStr(uri.value)];
    if WORKSPACE_FOLDERS !in d {
      return Failure(KeyError(JStr(WORKSPACE_FOLDERS)));
    }
    var folder := FirstFolder(d[WORKSPACE_FOLDERS]);
    if folder.Failure? {
      return Failure(folder.error);
    }
    var fields := folder.value[URI := JStr(uri.value)];
    fields := fields[NAME := JStr(Basename(root))];
    var folders := d[WORKSPACE_FOLDERS].items;
    d := d[WORKSPACE_FOLDERS := JArr([JObj(fields)] + folders[1..])];
    return Success(d);
  }
}
