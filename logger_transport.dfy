/**
 * The base log transport: its options, its enabled flag and the level
 * filter `shouldLog`. Levels stored in the options are JS values: after
 * normalisation either a number or an upper-case name, and a name meets
 * the table's numbers in `<=` as NaN.
 */
module LoggerTransport {
  import opened Wrappers
  import opened Strings
  import opened JsValues
  import opened JsObjects
  import opened LoggerLevels
  import opened LoggerUtils

  /** `os.EOL` on a POSIX host. */
  const EOL: string := "\n"

  /** The `defaults` getter of the base transport. */
  function TransportDefaults(): Object {
    map["level" := Str("NONE"), "formatter" := Null, "contextFormatter" := Null,
        "json" := Bool(false), "encoding" := Str("utf8"), "eol" := Str(EOL)]
  }

  /**
   * The options a transport starts with: the class defaults overlaid by
   * the given options, "utf-8" spelled "utf8", and the level normalised.
   */
  function Configure(defaults: Object, given: Option<Object>): Object {
    var merged := OverlayAll(defaults, [given]);
    var encoded := if Get(merged, "encoding") == Str("utf-8") then merged["encoding" := Str("utf8")] else merged;
    encoded["level" := NormalizeLevel(Get(encoded, "level"))]
  }

  /**
   * The configured options keep every merged key; a given non-null option
   * wins over the default; the level is normalised and "utf-8" becomes "utf8".
   */
  lemma ConfigureProps(defaults: Object, given: Option<Object>, k: string)
    ensures var r := Configure(defaults, given);
      var chosen := if given.Some? && Copies(given.value, k) then Some(given.value[k])
                    else if k in defaults then Some(defaults[k]) else None;
      && "level" in r && IsNormalized(r["level"])
      && (k == "level" ==> r[k] == NormalizeLevel(chosen.GetOr(Undefined)))
      && (k == "encoding" && chosen == Some(Str("utf-8")) ==> k in r && r[k] == Str("utf8"))
      && (k != "level" && !(k == "encoding" && chosen == Some(Str("utf-8"))) ==>
            (k in r <==> chosen.Some?) && (chosen.Some? ==> r[k] == chosen.value))
  {
    var merged := OverlayAll(defaults, [given]);
    OverlayAllLastWins(defaults, [given], k);
    NormalizeIsNormalized(Get(merged, "level"));
    var encoded := if Get(merged, "encoding") == Str("utf-8") then merged["encoding" := Str("utf8")] else merged;
    NormalizeIsNormalized(Get(encoded, "level"));
  }

  /**
   * `shouldLog(name)` on a transport's flag and level option: off when
   * disabled or when the option is the number Infinity; a truthy option
   * must compare `<=` with `levels[name]`; a falsy one lets everything through.
   */
  predicate ShouldLogWith(enabled: bool, level: JsValue, name: string) {
    if !enabled then false
    else if level == Num(PosInf) then false
    else if Truthy(level) then LessEq(ToNumber(level), ValueOf(name))
    else true
  }

  lemma DisabledNeverLogs(level: JsValue, name: string)
    ensures !ShouldLogWith(false, level, name)
  {
  }

  /** The numeric NONE option logs nothing. */
  lemma NumericNoneNeverLogs(enabled: bool, name: string)
    ensures !ShouldLogWith(enabled, Num(PosInf), name)
  {
  }

  /** A non-zero numeric option lets a level through iff the option is at most its value. */
  lemma NumericThreshold(x: Numeric, name: string)
    requires x != Fin(0) && x != PosInf
    ensures ShouldLogWith(true, Num(x), name) <==> Parse(name).Some? && NumLe(x, Value(Parse(name).value))
  {
  }

  /** The numeric option 0 (DEBUG) is falsy, so every level, known or not, gets through. */
  lemma ZeroLogsEverything(name: string)
    ensures ShouldLogWith(true, Num(Fin(0)), name)
  {
  }

  /** With a numeric option, a level that gets through lets every higher level through. */
  lemma NumericMonotone(x: Numeric, a: Level, b: Level)
    requires ShouldLogWith(true, Num(x), Name(a))
    requires NumLe(Value(a), Value(b))
    ensures ShouldLogWith(true, Num(x), Name(b))
  {
    assert Parse(Name(a)) == Some(a) && Parse(Name(b)) == Some(b);
  }

  /**
   * An option holding a level's name, as normalisation leaves it, compares
   * as NaN: the transport logs nothing at any level.
   */
  lemma NamedLevelNeverLogs(l: Level, name: string)
    ensures !ShouldLogWith(true, Str(Name(l)), name)
  {
    NameIsNaN(l);
  }

  /**
   * An option holding a prefixed integer text, such as "0X1" after
   * `IEDO_LOG=0x1` is upper-cased, meets `levels[name]` as that number.
   */
  lemma PrefixedLevelThreshold(t: string, name: string)
    requires RadixOf(t) != 0 && |t| > 2
    requires forall i :: 2 <= i < |t| ==> IsRadixDigit(t[i], RadixOf(t))
    ensures ShouldLogWith(true, Str(t), name) <==>
      Parse(name).Some? && NumLe(Fin(RadixValue(t[2..], RadixOf(t))), Value(Parse(name).value))
  {
    RadixTextValue(t);
    assert ToNumber(Str(t)) == Some(Fin(RadixValue(t[2..], RadixOf(t))));
    assert Truthy(Str(t)) && Str(t) != Num(PosInf);
  }

  class Transport {
    var options: Object
    var enabled: bool

    ghost predicate Valid()
      reads this
    {
      "level" in options && IsNormalized(options["level"])
    }

    /**
     * `new Transport(options)`; `defaults` is the value of the `defaults`
     * getter of the class being constructed.
     */
    constructor (defaults: Object, given: Option<Object>)
      ensures Valid() && enabled
      ensures options == Configure(defaults, given)
    {
      var target := new JsObject(defaults);
      var merged := Assign(target, [given]);
      var opts := merged.props;
      if Get(opts, "encoding") == Str("utf-8") {
        opts := opts["encoding" := Str("utf8")];
      }
      opts := opts["level" := NormalizeLevel(Get(opts, "level"))];
      options := opts;
      enabled := true;
      NormalizeIsNormalized(Get(merged.props, "level"));
      NormalizeIsNormalized(Get(if Get(merged.props, "encoding") == Str("utf-8")
        then merged.props["encoding" := Str("utf8")] else merged.props, "level"));
    }

    method Enable()
      modifies this`enabled
      ensures enabled
    {
      enabled := true;
    }

    method Disable()
      modifies this`enabled
      ensures !enabled
    {
      enabled := false;
    }

    /** The `level` setter: stores the normalised level, nothing else changes. */
    method SetLevel(level: JsValue)
      modifies this`options
      ensures Valid()
      ensures options == old(options)["level" := NormalizeLevel(level)]
    {
      NormalizeIsNormalized(level);
      options := options["level" := NormalizeLevel(level)];
    }

    /** The `level` getter: the option when truthy, else the number Infinity. */
    function Level(): (r: JsValue)
      reads this
      ensures Truthy(Get(options, "level")) ==> r == options["level"]
      ensures !Truthy(Get(options, "level")) ==> r == Num(PosInf)
    {
      if Truthy(Get(options, "level")) then options["level"] else Num(PosInf)
    }

    predicate ShouldLog(name: string)
      reads this
    {
      ShouldLogWith(enabled, Get(options, "level"), name)
    }
  }
}
