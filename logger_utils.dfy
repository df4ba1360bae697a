/** The logger's option merge (`assign`) and level normalisation. */
module LoggerUtils {
  import opened Wrappers
  import opened Strings
  import opened JsValues
  import opened JsObjects

  /**
   * `normalizeLevel`: a non-empty string is upper-cased, a number is kept,
   * anything else becomes the name "NONE".
   */
  function NormalizeLevel(level: JsValue): (r: JsValue)
    ensures level.Str? && level.s != [] ==> r == Str(ToUpper(level.s))
    ensures level.Num? ==> r == level
    ensures !(level.Str? && level.s != []) && !level.Num? ==> r == Str("NONE")
    ensures r.Num? || (r.Str? && r.s != [])
  {
    match level
    case Str(s) => if s != [] then Str(ToUpper(s)) else Str("NONE")
    case Num(_) => level
    case _ => Str("NONE")
  }

  /** Normalising twice is normalising once. */
  lemma NormalizeIdempotent(level: JsValue)
    ensures NormalizeLevel(NormalizeLevel(level)) == NormalizeLevel(level)
  {
    if level.Str? && level.s != [] {
      ToUpperIdempotent(level.s);
    }
  }

  /** A normalised level: a number or a non-empty upper-case text. */
  predicate IsNormalized(level: JsValue) {
    level.Num? || (level.Str? && level.s != [] && ToUpper(level.s) == level.s)
  }

  lemma NormalizeIsNormalized(level: JsValue)
    ensures IsNormalized(NormalizeLevel(level))
    ensures IsNormalized(level) ==> NormalizeLevel(level) == level
  {
    if level.Str? && level.s != [] {
      ToUpperIdempotent(level.s);
    }
  }

  /** The target after merging the sources left to right; None is a falsy source. */
  function OverlayAll(target: Object, sources: seq<Option<Object>>): Object {
    if sources == [] then target
    else
      var init := OverlayAll(target, sources[..|sources| - 1]);
      match sources[|sources| - 1]
      case None => init
      case Some(src) => Overlay(init, src)
  }

  /** The index of the last source that copies a value for `k`. */
  function LastCopier(sources: seq<Option<Object>>, k: string): (r: Option<nat>)
    ensures r.Some? ==> r.value < |sources| && sources[r.value].Some? && Copies(sources[r.value].value, k)
    ensures r.Some? ==> forall j :: r.value < j < |sources| && sources[j].Some? ==> !Copies(sources[j].value, k)
    ensures r.None? ==> forall j :: 0 <= j < |sources| && sources[j].Some? ==> !Copies(sources[j].value, k)
  {
    if sources == [] then None
    else
      var n := |sources| - 1;
      if sources[n].Some? && Copies(sources[n].value, k) then Some(n)
      else LastCopier(sources[..n], k)
  }

  /**
   * A key that no source copies keeps the target's value (or stays absent);
   * a key some source copies holds the value of the last such source.
   */
  lemma {:induction false} OverlayAllLastWins(target: Object, sources: seq<Option<Object>>, k: string)
    ensures var r := OverlayAll(target, sources);
      match LastCopier(sources, k)
      case None => (k in r <==> k in target) && (k in target ==> r[k] == target[k])
      case Some(i) => k in r && r[k] == sources[i].value[k]
  {
    if sources != [] {
      var n := |sources| - 1;
      OverlayAllLastWins(target, sources[..n], k);
      if sources[n].Some? {
        OverlayProps(OverlayAll(target, sources[..n]), sources[n].value);
      }
    }
  }

  /**
   * `assign(target, ...sources)`: a falsy target (null here) yields a fresh
   * empty object; otherwise each truthy source is copied onto the target in
   * order, skipping undefined and null values, and the target is returned.
   */
  method Assign(target: JsObject?, sources: seq<Option<Object>>) returns (r: JsObject)
    modifies if target != null then {target} else {}
    ensures target == null ==> fresh(r) && r.props == map[]
    ensures target != null ==> r == target && r.props == OverlayAll(old(target.props), sources)
  {
    if target == null {
      r := new JsObject(map[]);
      return;
    }
    for i := 0 to |sources|
      invariant target.props == OverlayAll(old(target.props), sources[..i])
    {
      assert sources[..i + 1][..i] == sources[..i];
      match sources[i] {
        case None =>
        case Some(src) =>
          var _ := Extend(target, src);
      }
    }
    assert sources[..|sources|] == sources;
    r := target;
  }
}
