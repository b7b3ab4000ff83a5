/** Rows keyed by an auto-increment id, and `ORDER BY id` over them. */
module Tables {

  predicate Increasing(s: seq<int>) {
    forall i, j | 0 <= i < j < |s| :: s[i] < s[j]
  }

  /** The ids of `keys` within `[lo, hi)`, in ascending order. */
  function Ascending(keys: set<int>, lo: int, hi: int): (r: seq<int>)
    ensures Increasing(r)
    ensures forall x :: x in r <==> x in keys && lo <= x < hi
    decreases hi - lo
  {
    if lo >= hi then []
    else
      var rest := Ascending(keys, lo + 1, hi);
      assert forall k | 0 <= k < |rest| :: rest[k] in rest;
      if lo in keys then [lo] + rest else rest
  }
}
