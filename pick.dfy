/**
 * `pickAssign` (src/utils.ts and src/utils.js): copy the listed keys whose
 * source value is defined onto a target object. A JavaScript object is a
 * map from property names to values; a missing key stands for `undefined`.
 */
module Pick {
  import opened Wrappers

  /** A JavaScript object whose properties are assigned in place. */
  class Record<V> {
    var fields: map<string, V>

    constructor (initial: map<string, V>)
      ensures fields == initial
    {
      fields := initial;
    }
  }

  /** The target after the assignments for the keys of `keys`, in order. */
  function Picked<V>(target: map<string, V>, source: map<string, V>, keys: seq<string>): map<string, V>
  {
    if keys == [] then target
    else
      var t := Picked(target, source, keys[..|keys| - 1]);
      var k := keys[|keys| - 1];
      if k in source then t[k := source[k]] else t
  }

  /**
   * Exactly the listed keys that the source defines take the source's value;
   * every other key of the target keeps its value, and no key appears from
   * nowhere.
   */
  lemma {:induction false} PickedAt<V>(target: map<string, V>, source: map<string, V>, keys: seq<string>, k: string)
    ensures k in Picked(target, source, keys) <==> k in target || (k in keys && k in source)
    ensures k in keys && k in source ==> Picked(target, source, keys)[k] == source[k]
    ensures !(k in keys && k in source) && k in target ==> Picked(target, source, keys)[k] == target[k]
  {
    if keys != [] {
      var init := keys[..|keys| - 1];
      PickedAt(target, source, init, k);
      assert keys == init + [keys[|keys| - 1]];
    }
  }

  /** The order and repetition of the keys do not matter. */
  lemma PickedSameKeys<V>(target: map<string, V>, source: map<string, V>, keys1: seq<string>, keys2: seq<string>)
    requires forall k :: k in keys1 <==> k in keys2
    ensures Picked(target, source, keys1) == Picked(target, source, keys2)
  {
    var p1, p2 := Picked(target, source, keys1), Picked(target, source, keys2);
    forall k
      ensures k in p1 <==> k in p2
      ensures k in p1 ==> p1[k] == p2[k]
    {
      PickedAt(target, source, keys1, k);
      PickedAt(target, source, keys2, k);
    }
  }

  /**
   * `pickAssign(target, source, keys)`: a falsy source (`None`) leaves the
   * target as it was; the target object itself is returned.
   */
  method PickAssign<V>(target: Record<V>, source: Option<map<string, V>>, keys: seq<string>) returns (r: Record<V>)
    modifies target
    ensures r == target
    ensures target.fields == if source.None? then old(target.fields) else Picked(old(target.fields), source.value, keys)
  {
    if source.Some? {
      var src := source.value;
      var i := 0;
      while i < |keys|
        invariant 0 <= i <= |keys|
        invariant target.fields == Picked(old(target.fields), src, keys[..i])
      {
        var key := keys[i];
        assert keys[..i + 1][..i] == keys[..i];
        if key in src {
          target.fields := target.fields[key := src[key]];
        }
        i := i + 1;
      }
      assert keys[..|keys|] == keys;
    }
    r := target;
  }
}
