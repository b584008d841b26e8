/**
 * `find_base_level`, which both entry points define identically: the base level of a
 * slide is the largest file of its folder.
 */
module SourceImage {
  import opened Wrappers

  /** A file of a slide folder: its resolved path and its size in bytes. */
  datatype Level = Level(path: string, size: nat)

  /**
   * Level `i` is the base level: its size is positive and at least every other size,
   * and every level listed before it is strictly smaller.
   */
  predicate IsBaseLevel(levels: seq<Level>, i: int) {
    && 0 <= i < |levels|
    && levels[i].size > 0
    && (forall j :: 0 <= j < |levels| ==> levels[j].size <= levels[i].size)
    && (forall j :: 0 <= j < i ==> levels[j].size < levels[i].size)
  }

  /**
   * A running maximum that only moves on a strictly larger size: the first largest
   * file, or None when no file has a positive size.
   */
  method FindBaseLevel(levels: seq<Level>) returns (r: Option<string>)
    ensures r.None? <==> forall j :: 0 <= j < |levels| ==> levels[j].size == 0
    ensures r.Some? ==> exists i :: IsBaseLevel(levels, i) && r.value == levels[i].path
  {
    r := None;
    var largestSize := 0;
    ghost var best := -1;
    for i := 0 to |levels|
      invariant r.None? <==> best == -1
      invariant best == -1 ==> largestSize == 0 && forall j :: 0 <= j < i ==> levels[j].size == 0
      invariant best != -1 ==> 0 <= best < i && r == Some(levels[best].path) && largestSize == levels[best].size
      invariant best != -1 ==> levels[best].size > 0
      invariant forall j :: 0 <= j < i ==> levels[j].size <= largestSize
      invariant best != -1 ==> forall j :: 0 <= j < best ==> levels[j].size < largestSize
    {
      var levelSize := levels[i].size;
      if levelSize > largestSize {
        largestSize := levelSize;
        r := Some(levels[i].path);
        best := i;
      }
    }
    if best != -1 {
      assert IsBaseLevel(levels, best);
    }
  }

  /** At most one level is the base level. */
  lemma BaseLevelUnique(levels: seq<Level>, i: int, j: int)
    requires IsBaseLevel(levels, i) && IsBaseLevel(levels, j)
    ensures i == j
  {
  }
}
