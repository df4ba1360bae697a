/**
 * The console transport: the base transport with a `stderrLevel` option,
 * an `IEDO_LOG` override of the level, and a `log` that writes each
 * message to exactly one of stderr and stdout.
 */
module LoggerConsole {
  import opened Wrappers
  import opened Strings
  import opened JsValues
  import opened JsObjects
  import opened LoggerLevels
  import opened LoggerUtils
  import opened LoggerTransport

  datatype Stream = Stdout | Stderr

  /** One `write` call: the stream and the formatted message. */
  datatype Write = Write(stream: Stream, message: string)

  /** The console transport's `defaults`: the base defaults plus `stderrLevel: 'ERROR'`. */
  function ConsoleDefaults(): Object {
    TransportDefaults()["stderrLevel" := Str("ERROR")]
  }

  /** The getter builds them as `assign(super.defaults, {stderrLevel: 'ERROR'})`. */
  lemma ConsoleDefaultsByAssign()
    ensures ConsoleDefaults() == OverlayAll(TransportDefaults(), [Some(map["stderrLevel" := Str("ERROR")])])
  {
    OverlayProps(TransportDefaults(), map["stderrLevel" := Str("ERROR")]);
  }

  /** `normalizeLevel(stderrLevel ?? levels.NONE)`. */
  function StderrLevel(configured: Object): JsValue {
    var v := Get(configured, "stderrLevel");
    NormalizeLevel(if IsNullish(v) then Num(PosInf) else v)
  }

  /**
   * Whether a message at `name` goes to stderr: the `stderrLevel` option is
   * truthy, `levels[name] >= stderrLevel` and `levels[name] < levels.NONE`.
   */
  predicate UseStderr(stderrLevel: JsValue, name: string) {
    Truthy(stderrLevel) && LessEq(ToNumber(stderrLevel), ValueOf(name)) && Less(ValueOf(name), Some(PosInf))
  }

  /** NONE-level messages never go to stderr. */
  lemma NoneNeverStderr(stderrLevel: JsValue)
    ensures !UseStderr(stderrLevel, "NONE")
  {
    assert Parse("NONE") == Some(NONE);
    assert ValueOf("NONE") == Some(PosInf);
    assert !Less(ValueOf("NONE"), Some(PosInf));
  }

  /** A numeric threshold other than 0 sends every level other than NONE whose value is at least the threshold to stderr. */
  lemma NumericStderr(x: Numeric, name: string)
    requires x != Fin(0)
    ensures UseStderr(Num(x), name) <==>
      Parse(name).Some? && NumLe(x, Value(Parse(name).value)) && Value(Parse(name).value) != PosInf
  {
  }

  /**
   * A `stderrLevel` holding a level's name compares as NaN: nothing goes to
   * stderr.
   */
  lemma NamedStderrLevelNeverStderr(stderrLevel: JsValue, l: Level, name: string)
    requires stderrLevel == Str(Name(l))
    ensures !UseStderr(stderrLevel, name)
  {
    NameIsNaN(l);
  }

  /** Without a non-null `stderrLevel` given, the option is the default name "ERROR". */
  lemma DefaultStderrLevel(given: Option<Object>)
    requires given.None? || !Copies(given.value, "stderrLevel")
    ensures StderrLevel(Configure(ConsoleDefaults(), given)) == Str("ERROR")
  {
    ConfiguredStderrLevel(given);
    ErrorStderrLevel(Configure(ConsoleDefaults(), given));
  }

  /** An "ERROR" option stays "ERROR" once normalised. */
  lemma ErrorStderrLevel(configured: Object)
    requires Get(configured, "stderrLevel") == Str("ERROR")
    ensures StderrLevel(configured) == Str("ERROR")
  {
    ToUpperNoop("ERROR");
  }

  /** The merge keeps the default `stderrLevel` when none is given. */
  lemma ConfiguredStderrLevel(given: Option<Object>)
    requires given.None? || !Copies(given.value, "stderrLevel")
    ensures Get(Configure(ConsoleDefaults(), given), "stderrLevel") == Str("ERROR")
  {
    var defaults := ConsoleDefaults();
    assert "stderrLevel" in defaults && defaults["stderrLevel"] == Str("ERROR");
    ConfigureProps(defaults, given, "stderrLevel");
  }

  /**
   * Hence, without a non-null `stderrLevel` given, every message, errors
   * included, goes to stdout.
   */
  lemma DefaultSendsAllToStdout(given: Option<Object>, name: string)
    requires given.None? || !Copies(given.value, "stderrLevel")
    ensures !UseStderr(StderrLevel(Configure(ConsoleDefaults(), given)), name)
  {
    DefaultStderrLevel(given);
    NamedStderrLevelNeverStderr(StderrLevel(Configure(ConsoleDefaults(), given)), ERROR, name);
  }

  /**
   * The options of a new console transport: the base configuration over the
   * console defaults, then the normalised `stderrLevel`, then the `IEDO_LOG`
   * level when that variable is set.
   */
  function ConsoleOptions(given: Option<Object>, iedoLog: Option<string>): Object {
    var configured := Configure(ConsoleDefaults(), given);
    var withStderr := configured["stderrLevel" := StderrLevel(configured)];
    if iedoLog.Some? && iedoLog.value != "" then withStderr["level" := NormalizeLevel(Str(iedoLog.value))]
    else withStderr
  }

  /** Both thresholds of a new console transport are normalised levels. */
  lemma ConsoleOptionsNormalized(given: Option<Object>, iedoLog: Option<string>)
    ensures var o := ConsoleOptions(given, iedoLog);
      && "level" in o && IsNormalized(o["level"])
      && "stderrLevel" in o && IsNormalized(o["stderrLevel"])
  {
    var configured := Configure(ConsoleDefaults(), given);
    ConfigureProps(ConsoleDefaults(), given, "level");
    var v := Get(configured, "stderrLevel");
    NormalizeIsNormalized(if IsNullish(v) then Num(PosInf) else v);
    if iedoLog.Some? && iedoLog.value != "" {
      NormalizeIsNormalized(Str(iedoLog.value));
    }
  }

  class ConsoleTransport {
    const base: Transport
    /** The writes made so far, in order. */
    var writes: seq<Write>

    ghost predicate Valid()
      reads this, base
    {
      base.Valid() && "stderrLevel" in base.options && IsNormalized(base.options["stderrLevel"])
    }

    /**
     * `new ConsoleTransport(options)` with `IEDO_LOG` as a parameter: the
     * base construction, then the two option rewrites of the console
     * transport, made on the base's options in place.
     */
    constructor (given: Option<Object>, iedoLog: Option<string>)
      ensures Valid() && base.enabled && writes == []
      ensures base.options == ConsoleOptions(given, iedoLog)
    {
      var t := new Transport(ConsoleDefaults(), given);
      t.options := t.options["stderrLevel" := StderrLevel(t.options)];
      if iedoLog.Some? && iedoLog.value != "" {
        t.options := t.options["level" := NormalizeLevel(Str(iedoLog.value))];
      }
      ConsoleOptionsNormalized(given, iedoLog);
      base := t;
      writes := [];
    }

    /** `log(level, ...)`: the formatted message goes to exactly one stream. */
    method Log(name: string, message: string)
      modifies this`writes
      ensures writes == old(writes)
        + [Write(if UseStderr(Get(base.options, "stderrLevel"), name) then Stderr else Stdout, message)]
    {
      var stderrLevel := Get(base.options, "stderrLevel");
      if Truthy(stderrLevel) && LessEq(ToNumber(stderrLevel), ValueOf(name)) && Less(ValueOf(name), Some(PosInf)) {
        writes := writes + [Write(Stderr, message)];
      } else {
        writes := writes + [Write(Stdout, message)];
      }
    }
  }
}
