/**
 * Plain JS objects that the modelled code mutates in place, and the
 * merge rule shared by the cluster's `extend` and the logger's `assign`:
 * a source property is copied only when its value is neither undefined
 * nor null.
 */
module JsObjects {
  import opened Wrappers
  import opened JsValues

  /** Whether `src` carries a value for `k` that a merge copies. */
  predicate Copies(src: Object, k: string) {
    k in src && !IsNullish(src[k])
  }

  /** `target` after copying every non-nullish property of `src` onto it. */
  function Overlay(target: Object, src: Object): Object {
    map k | k in target.Keys + src.Keys && (k in target || Copies(src, k)) ::
      if Copies(src, k) then src[k] else target[k]
  }

  /**
   * The merged object has the target's keys and the copied ones; a copied
   * key holds the source's value, any other key the target's.
   */
  lemma OverlayProps(target: Object, src: Object)
    ensures var r := Overlay(target, src);
      && (forall k :: k in r <==> k in target || Copies(src, k))
      && (forall k :: Copies(src, k) ==> r[k] == src[k])
      && (forall k :: k in target && !Copies(src, k) ==> r[k] == target[k])
  {
  }

  /** Overlaying onto the result of an overlay: the later source wins. */
  lemma OverlayTwice(target: Object, a: Object, b: Object, k: string)
    ensures Copies(b, k) ==> Overlay(Overlay(target, a), b)[k] == b[k]
    ensures !Copies(b, k) && Copies(a, k) ==> Overlay(Overlay(target, a), b)[k] == a[k]
  {
    OverlayProps(target, a);
    OverlayProps(Overlay(target, a), b);
  }

  /** Nothing to copy leaves the target as it was. */
  lemma OverlayEmpty(target: Object)
    ensures Overlay(target, map[]) == target
  {
  }

  class JsObject {
    var props: Object

    constructor (props: Object)
      ensures this.props == props
    {
      this.props := props;
    }
  }

  /** `p` is `target` after copying the keys of `done` from `src`. */
  ghost predicate Partial(target: Object, src: Object, done: set<string>, p: Object) {
    && (forall k :: k in p <==> k in target || (k in done && Copies(src, k)))
    && (forall k :: k in p && k in done && Copies(src, k) ==> p[k] == src[k])
    && (forall k :: k in p && !(k in done && Copies(src, k)) ==> k in target && p[k] == target[k])
  }

  /** Copying one more key keeps the partial merge. */
  lemma PartialStep(target: Object, src: Object, done: set<string>, p: Object, k: string)
    requires Partial(target, src, done, p) && k in src
    ensures Partial(target, src, done + {k}, if Copies(src, k) then p[k := src[k]] else p)
  {
  }

  /** Once every key of `src` is done, the partial merge is the overlay. */
  lemma PartialDone(target: Object, src: Object, p: Object)
    requires Partial(target, src, src.Keys, p)
    ensures p == Overlay(target, src)
  {
    OverlayProps(target, src);
    assert p.Keys == Overlay(target, src).Keys;
  }

  /**
   * `extend(target, src)`: copies the non-nullish properties of `src` onto
   * `target` one key at a time and returns the same object.
   */
  method Extend(target: JsObject, src: Object) returns (r: JsObject)
    modifies target
    ensures r == target
    ensures target.props == Overlay(old(target.props), src)
  {
    ghost var initial := target.props;
    var keys := src.Keys;
    ghost var done: set<string> := {};
    while keys != {}
      invariant keys <= src.Keys && done == src.Keys - keys
      invariant Partial(initial, src, done, target.props)
      decreases |keys|
    {
      var k :| k in keys;
      PartialStep(initial, src, done, target.props, k);
      if src[k] != Undefined && src[k] != Null {
        target.props := target.props[k := src[k]];
      }
      keys := keys - {k};
      done := done + {k};
    }
    PartialDone(initial, src, target.props);
    return target;
  }
}
