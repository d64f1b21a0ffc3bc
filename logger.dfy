/** `MultilspyLogger.log`: the message is sanitised (every `'` becomes `"`, every
    newline a space) and handed to the Python logging library as one record. */
module Logger {

  /** Levels of Python's `logging` module that the core logs at. */
  const INFO: int := 20
  const WARNING: int := 30
  const ERROR: int := 40

  /** `s.replace(from, to)` for one-character `from` and `to`. */
  function ReplaceChar(s: string, from: char, to: char): (r: string)
    ensures |r| == |s|
    ensures forall i :: 0 <= i < |s| ==> r[i] == (if s[i] == from then to else s[i])
    decreases |s|
  {
    if s == [] then [] else [if s[0] == from then to else s[0]] + ReplaceChar(s[1..], from, to)
  }

  /** A message that the sanitisation leaves alone. */
  predicate Clean(s: string) {
    forall i :: 0 <= i < |s| ==> s[i] != '\'' && s[i] != '\n'
  }

  /** What the sanitisation makes of one character: a single quote becomes a
      double quote, a newline a space, and every other character stays. */
  function SanitizeChar(c: char): char {
    if c == '\'' then '"' else if c == '\n' then ' ' else c
  }

  /** `msg.replace("'", '"').replace("\n", " ")`. */
  function Sanitize(s: string): (r: string)
    ensures |r| == |s|
    ensures Clean(r)
    ensures forall i :: 0 <= i < |s| ==> r[i] == SanitizeChar(s[i])
  {
    ReplaceChar(ReplaceChar(s, '\'', '"'), '\n', ' ')
  }

  /** Sanitising twice is sanitising once. */
  lemma SanitizeIdempotent(s: string)
    ensures Sanitize(Sanitize(s)) == Sanitize(s)
  {
    SanitizeFixesClean(Sanitize(s));
  }

  /** The messages the sanitisation leaves unchanged are exactly the clean ones. */
  lemma SanitizeFixesClean(s: string)
    ensures Sanitize(s) == s <==> Clean(s)
  {
    if Clean(s) {
      assert forall i :: 0 <= i < |s| ==> Sanitize(s)[i] == s[i];
    }
  }

  /** The sanitisation works character by character, so it distributes over concatenation. */
  lemma SanitizeConcat(a: string, b: string)
    ensures Sanitize(a + b) == Sanitize(a) + Sanitize(b)
  {
    var l, r := Sanitize(a + b), Sanitize(a) + Sanitize(b);
    assert |l| == |r|;
    forall i | 0 <= i < |l| ensures l[i] == r[i] {
      if i < |a| {
        assert (a + b)[i] == a[i];
      } else {
        assert (a + b)[i] == b[i - |a|];
      }
    }
  }

  /** One record handed to Python's `logging.Logger.log`. */
  datatype LogRecord = LogRecord(level: int, message: string)

  /** The logger; `records` is what it has handed to the logging library so far. */
  class MultilspyLogger {
    var records: seq<LogRecord>

    /** Every record ever emitted carries a sanitised message. */
    ghost predicate Valid()
      reads this
    {
      forall k :: 0 <= k < |records| ==> Clean(records[k].message)
    }

    constructor ()
      ensures Valid() && records == []
    {
      records := [];
    }

    /** `log(debug_message, level, sanitized_error_message="")`: exactly one record,
        at `level`, carrying the sanitised `debugMessage`. The sanitised error
        message is computed and then dropped. */
    method Log(debugMessage: string, level: int, sanitizedErrorMessage: string := "")
      requires Valid()
      modifies this
      ensures Valid()
      ensures records == old(records) + [LogRecord(level, Sanitize(debugMessage))]
    {
      var message := Sanitize(debugMessage);
      var sanitizedError := Sanitize(sanitizedErrorMessage);
      records := records + [LogRecord(level, message)];
    }
  }
}
