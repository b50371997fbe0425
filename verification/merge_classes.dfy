/**
 * `mergeClasses(obj1, obj2)`: combine two maps from slot name to CSS class
 * string into a fresh map. Maps are values here, so neither input can be
 * changed by the merge.
 */
module MergeClasses {

  type ClassMap = map<string, string>

  /**
   * The merged map: every key of either input; a key only in `obj1` keeps
   * its value; a key in `obj2` gets `obj2`'s value, prefixed by `obj1`'s value
   * and a space when `obj1` has a non-empty (truthy) value for it.
   */
  function Merged(obj1: ClassMap, obj2: ClassMap): ClassMap {
    map key | key in obj1.Keys + obj2.Keys ::
      if key in obj2 then
        (if key in obj1 && obj1[key] != "" then obj1[key] + " " + obj2[key] else obj2[key])
      else obj1[key]
  }

  /** The two `for ... in` loops: copy `obj1`, then fold in `obj2`. */
  method MergeClasses(obj1: ClassMap, obj2: ClassMap) returns (merged: ClassMap)
    ensures merged == Merged(obj1, obj2)
  {
    merged := map[];
    var keys := obj1.Keys;
    while keys != {}
      invariant keys <= obj1.Keys
      invariant merged.Keys == obj1.Keys - keys
      invariant forall key :: key in merged ==> merged[key] == obj1[key]
      decreases keys
    {
      var key :| key in keys;
      merged := merged[key := obj1[key]];
      keys := keys - {key};
    }
    keys := obj2.Keys;
    while keys != {}
      invariant keys <= obj2.Keys
      invariant merged.Keys == obj1.Keys + (obj2.Keys - keys)
      invariant forall key :: key in merged && key !in keys ==> merged[key] == Merged(obj1, obj2)[key]
      invariant forall key :: key in merged && key in keys ==> merged[key] == obj1[key]
      decreases keys
    {
      var key :| key in keys;
      var previous := if key in merged then merged[key] else "";
      merged := merged[key := if previous != "" then previous + " " + obj2[key] else obj2[key]];
      keys := keys - {key};
    }
  }

  /** The result's keys are the union of both inputs' keys. */
  lemma MergedKeys(obj1: ClassMap, obj2: ClassMap)
    ensures Merged(obj1, obj2).Keys == obj1.Keys + obj2.Keys
  {
  }

  /** Each key gets its value according to where it occurs and whether `obj1`'s value is empty. */
  lemma MergedValues(obj1: ClassMap, obj2: ClassMap, key: string)
    ensures key in obj1 && key !in obj2 ==> Merged(obj1, obj2)[key] == obj1[key]
    ensures key !in obj1 && key in obj2 ==> Merged(obj1, obj2)[key] == obj2[key]
    ensures key in obj1 && key in obj2 && obj1[key] != "" ==> Merged(obj1, obj2)[key] == obj1[key] + " " + obj2[key]
    ensures key in obj1 && key in obj2 && obj1[key] == "" ==> Merged(obj1, obj2)[key] == obj2[key]
  {
  }

  /** Nothing is lost: the merged value for a key starts with `obj1`'s value and ends with `obj2`'s. */
  lemma MergedKeepsBoth(obj1: ClassMap, obj2: ClassMap, key: string)
    requires key in obj1 || key in obj2
    ensures key in obj1 ==> obj1[key] <= Merged(obj1, obj2)[key]
    ensures key in obj2 ==>
      var m := Merged(obj1, obj2)[key];
      |obj2[key]| <= |m| && m[|m| - |obj2[key]|..] == obj2[key]
  {
    var m := Merged(obj1, obj2)[key];
    if key in obj1 && key in obj2 && obj1[key] != "" {
      assert m == obj1[key] + " " + obj2[key];
      assert m[|m| - |obj2[key]|..] == obj2[key];
    }
  }

  /** Merging with an empty map in either position gives back the other map. */
  lemma {:induction false} MergedIdentity(obj: ClassMap)
    ensures Merged(obj, map[]) == obj
    ensures Merged(map[], obj) == obj
  {
    assert Merged(obj, map[]).Keys == obj.Keys;
    assert Merged(map[], obj).Keys == obj.Keys;
  }
}
