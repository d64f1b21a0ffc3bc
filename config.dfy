/** `multilspy_config.py`: the `Language` enum and `MultilspyConfig.from_dict`. */
module Config {
  import opened Wrappers

  /** The members of the `Language` enum, in declaration order. */
  datatype Language =
    | CSharp | Python | Rust | Java | Kotlin | TypeScript
    | JavaScript | Go | Ruby | Dart | Cpp | Solidity
  {
    /** The enum member's value. */
    function Value(): string {
      match this
      case CSharp => "csharp"
      case Python => "python"
      case Rust => "rust"
      case Java => "java"
      case Kotlin => "kotlin"
      case TypeScript => "typescript"
      case JavaScript => "javascript"
      case Go => "go"
      case Ruby => "ruby"
      case Dart => "dart"
      case Cpp => "cpp"
      case Solidity => "solidity"
    }

    /** `Language.__str__`: the value, which looks the member up again. */
    function ToString(): (s: string)
      ensures s == Value()
      ensures FromValue(s) == Some(this)
    {
      Value()
    }
  }

  /** `Language(s)`: the member whose value is `s`, if any (lookup by value). */
  function FromValue(s: string): (r: Option<Language>)
    ensures r.Some? ==> r.value.Value() == s
    ensures r.None? ==> forall l: Language :: l.Value() != s
  {
    if s == "csharp" then Some(CSharp)
    else if s == "python" then Some(Python)
    else if s == "rust" then Some(Rust)
    else if s == "java" then Some(Java)
    else if s == "kotlin" then Some(Kotlin)
    else if s == "typescript" then Some(TypeScript)
    else if s == "javascript" then Some(JavaScript)
    else if s == "go" then Some(Go)
    else if s == "ruby" then Some(Ruby)
    else if s == "dart" then Some(Dart)
    else if s == "cpp" then Some(Cpp)
    else if s == "solidity" then Some(Solidity)
    else None
  }

  /** Distinct members have distinct values, so lookup by value is well defined. */
  lemma ValueInjective(l1: Language, l2: Language)
    ensures l1.Value() == l2.Value() ==> l1 == l2
  {
    var r := FromValue(l1.Value());
  }

  function LowerChar(c: char): char {
    if 'A' <= c <= 'Z' then (c as int + 32) as char else c
  }

  /** `str.lower()` on the ASCII letters. */
  function Lower(s: string): (r: string)
    ensures |r| == |s|
    ensures forall i :: 0 <= i < |s| ==> r[i] == LowerChar(s[i])
    decreases |s|
  {
    if s == [] then [] else [LowerChar(s[0])] + Lower(s[1..])
  }

  /** Enum values are lower case already. */
  lemma LowerValue(l: Language)
    ensures Lower(l.Value()) == l.Value()
  {
    var v := l.Value();
    assert forall i :: 0 <= i < |v| ==> 'a' <= v[i] <= 'z';
    LowerKeepsLowercase(v);
  }

  lemma LowerKeepsLowercase(s: string)
    requires forall i :: 0 <= i < |s| ==> 'a' <= s[i] <= 'z'
    ensures Lower(s) == s
  {
    assert forall i :: 0 <= i < |s| ==> Lower(s)[i] == s[i];
  }

  /** The Python values a caller can put in the `env` dictionary. A `Language`
      member is itself a `str` (the enum derives from `str`). */
  datatype PyValue =
    | PyStr(s: string)
    | PyLanguage(lang: Language)
    | PyBool(b: bool)
    | PyInt(i: int)
    | PyNone
    | PyOther(typeName: string)

  /** `isinstance(v, str)`, and the string it then is. */
  function AsStr(v: PyValue): (r: Option<string>)
    ensures r.Some? <==> v.PyStr? || v.PyLanguage?
  {
    match v
    case PyStr(s) => Some(s)
    case PyLanguage(l) => Some(l.Value())
    case _ => None
  }

  function TypeName(v: PyValue): string {
    match v
    case PyStr(_) => "str"
    case PyLanguage(_) => "Language"
    case PyBool(_) => "bool"
    case PyInt(_) => "int"
    case PyNone => "NoneType"
    case PyOther(t) => t
  }

  /** `MultilspyConfig`. The dataclass does not check the types of its fields, so
      the two flags hold whatever value the caller passed. */
  datatype MultilspyConfig = MultilspyConfig(
    codeLanguage: Language,
    traceLspCommunication: PyValue,
    startIndependentLspProcess: PyValue)

  /** The raises of `from_dict` and of the dataclass constructor it calls. */
  datatype ConfigError =
    | UnsupportedLanguage(value: string)    // ValueError, carries the value as given
    | LanguageTypeError(typeName: string)   // TypeError: neither str nor Language
    | MissingCodeLanguage                   // TypeError: required argument missing

  const CODE_LANGUAGE: string := "code_language"
  const TRACE_LSP_COMMUNICATION: string := "trace_lsp_communication"
  const START_INDEPENDENT_LSP_PROCESS: string := "start_independent_lsp_process"

  /** The dataclass fields, which `inspect.signature(cls).parameters` lists in
      declaration order. */
  const Fields: seq<string> := [CODE_LANGUAGE, TRACE_LSP_COMMUNICATION, START_INDEPENDENT_LSP_PROCESS]

  /** What `from_dict` stores in `kwargs` for one present key. */
  function Coerce(key: string, value: PyValue): (r: Result<PyValue, ConfigError>)
    ensures key != CODE_LANGUAGE ==> r == Success(value)
    ensures key == CODE_LANGUAGE && r.Success? ==> r.value.PyLanguage?
  {
    if key != CODE_LANGUAGE then Success(value)
    else match AsStr(value)
      case None => Failure(LanguageTypeError(TypeName(value)))
      case Some(s) =>
        match FromValue(Lower(s))
        case None => Failure(UnsupportedLanguage(s))
        case Some(l) => Success(PyLanguage(l))
  }

  /** The `kwargs` dictionary after the loop has visited `keys`, or the first raise. */
  function Collect(env: map<string, PyValue>, keys: seq<string>): (r: Result<map<string, PyValue>, ConfigError>)
    ensures r.Success? ==> r.value.Keys <= env.Keys
    ensures r.Success? && CODE_LANGUAGE in r.value ==> r.value[CODE_LANGUAGE].PyLanguage?
    decreases |keys|
  {
    if keys == [] then Success(map[])
    else
      match Collect(env, keys[..|keys| - 1])
      case Failure(e) => Failure(e)
      case Success(kwargs) =>
        var key := keys[|keys| - 1];
        if key !in env then Success(kwargs)
        else
          match Coerce(key, env[key])
          case Failure(e) => Failure(e)
          case Success(v) => Success(kwargs[key := v])
  }

  /** `cls(**kwargs)`: `code_language` is required, the flags have defaults. */
  function Construct(kwargs: map<string, PyValue>): Result<MultilspyConfig, ConfigError>
    requires CODE_LANGUAGE in kwargs ==> kwargs[CODE_LANGUAGE].PyLanguage?
  {
    if CODE_LANGUAGE !in kwargs then Failure(MissingCodeLanguage)
    else Success(MultilspyConfig(
      kwargs[CODE_LANGUAGE].lang,
      if TRACE_LSP_COMMUNICATION in kwargs then kwargs[TRACE_LSP_COMMUNICATION] else PyBool(false),
      if START_INDEPENDENT_LSP_PROCESS in kwargs then kwargs[START_INDEPENDENT_LSP_PROCESS] else PyBool(true)))
  }

  /** What `from_dict(env)` returns or raises. */
  function ParseConfig(env: map<string, PyValue>): Result<MultilspyConfig, ConfigError> {
    match Collect(env, Fields)
    case Failure(e) => Failure(e)
    case Success(kwargs) => Construct(kwargs)
  }

  /** A raise while visiting a prefix of the keys ends the loop: the result is that raise. */
  lemma {:induction false} CollectFailureStops(env: map<string, PyValue>, keys: seq<string>, k: nat)
    requires k <= |keys|
    requires Collect(env, keys[..k]).Failure?
    ensures Collect(env, keys) == Collect(env, keys[..k])
    decreases |keys| - k
  {
    if k < |keys| {
      var longer := keys[..k + 1];
      assert longer[..|longer| - 1] == keys[..k];
      CollectFailureStops(env, keys, k + 1);
    } else {
      assert keys[..k] == keys;
    }
  }

  /** `MultilspyConfig.from_dict(env)`: visits the dataclass fields in order,
      copies each one present in `env` into `kwargs` (a `code_language` string is
      looked up case-insensitively), then constructs the dataclass. */
  method FromDict(env: map<string, PyValue>) returns (r: Result<MultilspyConfig, ConfigError>)
    ensures r == ParseConfig(env)
  {
    var kwargs: map<string, PyValue> := map[];
    var i := 0;
    while i < |Fields|
      invariant 0 <= i <= |Fields|
      invariant Collect(env, Fields[..i]) == Success(kwargs)
    {
      var key := Fields[i];
      assert Fields[..i + 1][..i] == Fields[..i];
      if key in env {
        var value := env[key];
        if key == CODE_LANGUAGE {
          var s := AsStr(value);
          if s.Some? {
            var lang := FromValue(Lower(s.value));
            if lang.None? {
              CollectFailureStops(env, Fields, i + 1);
              return Failure(UnsupportedLanguage(s.value));
            }
            value := PyLanguage(lang.value);
          } else {
            CollectFailureStops(env, Fields, i + 1);
            return Failure(LanguageTypeError(TypeName(value)));
          }
        }
        kwargs := kwargs[key := value];
      }
      i := i + 1;
    }
    assert Fields[..|Fields|] == Fields;
    r := Construct(kwargs);
  }

  /** `from_dict` described directly, without the loop: the reference definition. */
  function Expected(env: map<string, PyValue>): Result<MultilspyConfig, ConfigError> {
    if CODE_LANGUAGE !in env then Failure(MissingCodeLanguage)
    else match AsStr(env[CODE_LANGUAGE])
      case None => Failure(LanguageTypeError(TypeName(env[CODE_LANGUAGE])))
      case Some(s) =>
        match FromValue(Lower(s))
        case None => Failure(UnsupportedLanguage(s))
        case Some(l) =>
          Success(MultilspyConfig(
            l,
            if TRACE_LSP_COMMUNICATION in env then env[TRACE_LSP_COMMUNICATION] else PyBool(false),
            if START_INDEPENDENT_LSP_PROCESS in env then env[START_INDEPENDENT_LSP_PROCESS] else PyBool(true)))
  }

  /** The loop does what the reference definition says, on every input. */
  lemma ParseConfigIsExpected(env: map<string, PyValue>)
    ensures ParseConfig(env) == Expected(env)
  {
    var f1, f2 := [CODE_LANGUAGE], [CODE_LANGUAGE, TRACE_LSP_COMMUNICATION];
    assert f1[..0] == [] && f2[..1] == f1 && Fields[..2] == f2;
    assert Collect(env, []) == Success(map[]);
    assert Collect(env, f1[..0]) == Success(map[]);
    var c1 := Collect(env, f1);
    if CODE_LANGUAGE !in env {
      assert c1 == Success(map[]);
    } else {
      assert c1 == match Coerce(CODE_LANGUAGE, env[CODE_LANGUAGE])
        case Failure(e) => Failure(e)
        case Success(v) => Success(map[CODE_LANGUAGE := v]);
    }
    var c2 := Collect(env, f2);
    var c3 := Collect(env, Fields);
  }

  /** Only the dataclass fields are read: any other key of `env` is ignored. */
  lemma {:induction false} CollectIgnoresOtherKeys(env: map<string, PyValue>, keys: seq<string>, k: string, v: PyValue)
    requires k !in keys
    ensures Collect(env[k := v], keys) == Collect(env, keys)
    decreases |keys|
  {
    if keys != [] {
      CollectIgnoresOtherKeys(env, keys[..|keys| - 1], k, v);
    }
  }

  lemma ParseConfigIgnoresOtherKeys(env: map<string, PyValue>, k: string, v: PyValue)
    requires k !in Fields
    ensures ParseConfig(env[k := v]) == ParseConfig(env)
  {
    CollectIgnoresOtherKeys(env, Fields, k, v);
  }

  /** A string language is matched case-insensitively: two spellings with the
      same lower-case form configure the same language, and `from_dict`
      succeeds on both or on neither. */
  lemma LanguageCaseInsensitive(env: map<string, PyValue>, s: string, t: string)
    requires Lower(s) == Lower(t)
    ensures ParseConfig(env[CODE_LANGUAGE := PyStr(s)]).Success?
        <==> ParseConfig(env[CODE_LANGUAGE := PyStr(t)]).Success?
    ensures ParseConfig(env[CODE_LANGUAGE := PyStr(s)]).Success? ==>
        ParseConfig(env[CODE_LANGUAGE := PyStr(s)]) == ParseConfig(env[CODE_LANGUAGE := PyStr(t)])
  {
    ParseConfigIsExpected(env[CODE_LANGUAGE := PyStr(s)]);
    ParseConfigIsExpected(env[CODE_LANGUAGE := PyStr(t)]);
  }

  /** `from_dict({"code_language": "SOLIDITY"})` selects Solidity with the default flags. */
  lemma UpperCaseSolidity()
    ensures ParseConfig(map[CODE_LANGUAGE := PyStr("SOLIDITY")])
         == Success(MultilspyConfig(Solidity, PyBool(false), PyBool(true)))
  {
    LowerSolidity();
    SelectsLanguage(map[CODE_LANGUAGE := PyStr("SOLIDITY")], Solidity);
  }

  lemma LowerSolidity()
    ensures Lower("SOLIDITY") == "solidity"
  {
    var r := Lower("SOLIDITY");
    assert r[0] == 's' && r[1] == 'o' && r[2] == 'l' && r[3] == 'i';
    assert r[4] == 'd' && r[5] == 'i' && r[6] == 't' && r[7] == 'y';
  }

  /** A string that names no member, in any case, raises `ValueError`, which
      carries the string as given. */
  lemma UnsupportedLanguageRaises(env: map<string, PyValue>, s: string)
    requires forall l: Language :: l.Value() != Lower(s)
    ensures ParseConfig(env[CODE_LANGUAGE := PyStr(s)]) == Failure(UnsupportedLanguage(s))
  {
    ParseConfigIsExpected(env[CODE_LANGUAGE := PyStr(s)]);
  }

  /** A `code_language` that is neither a str nor a Language raises `TypeError`. */
  lemma NonStringLanguageRaises(env: map<string, PyValue>)
    requires CODE_LANGUAGE in env
    requires !env[CODE_LANGUAGE].PyStr? && !env[CODE_LANGUAGE].PyLanguage?
    ensures ParseConfig(env) == Failure(LanguageTypeError(TypeName(env[CODE_LANGUAGE])))
  {
    ParseConfigIsExpected(env);
  }

  /** Without `code_language` the dataclass constructor raises. */
  lemma MissingLanguageRaises(env: map<string, PyValue>)
    requires CODE_LANGUAGE !in env
    ensures ParseConfig(env) == Failure(MissingCodeLanguage)
  {
    ParseConfigIsExpected(env);
  }

  /** On success the flags are passed through unchanged when present and take
      their defaults (False, True) when absent; no type check is made. */
  lemma FlagsPassThrough(env: map<string, PyValue>)
    requires ParseConfig(env).Success?
    ensures var c := ParseConfig(env).value;
      && c.traceLspCommunication == (if TRACE_LSP_COMMUNICATION in env then env[TRACE_LSP_COMMUNICATION] else PyBool(false))
      && c.startIndependentLspProcess == (if START_INDEPENDENT_LSP_PROCESS in env then env[START_INDEPENDENT_LSP_PROCESS] else PyBool(true))
  {
    ParseConfigIsExpected(env);
  }

  /** Round trip: `from_dict({"code_language": str(l)})` and
      `from_dict({"code_language": l})` both configure `l` with the default flags. */
  lemma LanguageRoundTrip(l: Language)
    ensures ParseConfig(map[CODE_LANGUAGE := PyStr(l.ToString())])
         == Success(MultilspyConfig(l, PyBool(false), PyBool(true)))
    ensures ParseConfig(map[CODE_LANGUAGE := PyLanguage(l)])
         == Success(MultilspyConfig(l, PyBool(false), PyBool(true)))
  {
    LowerValue(l);
    assert FromValue(Lower(l.ToString())) == Some(l);
    SelectsLanguage(map[CODE_LANGUAGE := PyStr(l.ToString())], l);
    SelectsLanguage(map[CODE_LANGUAGE := PyLanguage(l)], l);
  }

  /** A `code_language` that names `l`, in any case, with neither flag given,
      selects `l` with the default flags. */
  lemma SelectsLanguage(env: map<string, PyValue>, l: Language)
    requires CODE_LANGUAGE in env && AsStr(env[CODE_LANGUAGE]).Some?
    requires FromValue(Lower(AsStr(env[CODE_LANGUAGE]).value)) == Some(l)
    requires TRACE_LSP_COMMUNICATION !in env && START_INDEPENDENT_LSP_PROCESS !in env
    ensures ParseConfig(env) == Success(MultilspyConfig(l, PyBool(false), PyBool(true)))
  {
    ParseConfigIsExpected(env);
  }
}
