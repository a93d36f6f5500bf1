/**
  `Array.prototype.filter` and the facts about it that the search boxes rely
  on, and the first-match search behind `find_one` and `Array.prototype.find`.
*/
module Lists {
  import opened Wrappers

  /** The position of the first element that passes, if any does. */
  function FirstIndex<T>(xs: seq<T>, p: T -> bool): (r: Option<nat>)
    ensures r.Some? ==> r.value < |xs| && p(xs[r.value]) && forall j :: 0 <= j < r.value ==> !p(xs[j])
    ensures r.None? ==> forall j :: 0 <= j < |xs| ==> !p(xs[j])
  {
    if xs == [] then None
    else if p(xs[0]) then Some(0)
    else match FirstIndex(xs[1..], p)
      case Some(i) => Some(i + 1)
      case None => None
  }

  function Filter<T(!new)>(xs: seq<T>, p: T -> bool): (r: seq<T>)
    ensures |r| <= |xs|
    ensures forall x :: x in r <==> x in xs && p(x)
  {
    if xs == [] then []
    else if p(xs[0]) then [xs[0]] + Filter(xs[1..], p)
    else Filter(xs[1..], p)
  }

  /** Filtering a concatenation filters each part and keeps them in order. */
  lemma {:induction false} FilterAppend<T(!new)>(xs: seq<T>, ys: seq<T>, p: T -> bool)
    ensures Filter(xs + ys, p) == Filter(xs, p) + Filter(ys, p)
  {
    if xs == [] {
      assert xs + ys == ys;
    } else {
      assert (xs + ys)[0] == xs[0] && (xs + ys)[1..] == xs[1..] + ys;
      FilterAppend(xs[1..], ys, p);
    }
  }

  /** A single element is kept exactly when it passes. */
  lemma FilterSingleton<T(!new)>(x: T, p: T -> bool)
    ensures Filter([x], p) == if p(x) then [x] else []
  {
    assert [x][1..] == [];
  }

  /** The positions whose element passes. */
  function Passing<T>(xs: seq<T>, p: T -> bool): (r: set<int>)
    ensures forall i :: i in r <==> 0 <= i < |xs| && p(xs[i])
  {
    set i | 0 <= i < |xs| && p(xs[i])
  }

  /** The positions passing in a list are those passing before its last element, and its last when that passes. */
  lemma PassingLast<T>(xs: seq<T>, p: T -> bool)
    requires xs != []
    ensures Passing(xs, p) == Passing(xs[..|xs| - 1], p) + (if p(xs[|xs| - 1]) then {|xs| - 1} else {})
    ensures |xs| - 1 !in Passing(xs[..|xs| - 1], p)
  {
    var n := |xs| - 1;
    forall i | 0 <= i < n ensures xs[..n][i] == xs[i] { }
  }

  /** The filter keeps one element for each position whose element passes. */
  lemma {:induction false} FilterCount<T(!new)>(xs: seq<T>, p: T -> bool)
    ensures |Filter(xs, p)| == |Passing(xs, p)|
  {
    if xs != [] {
      var n := |xs| - 1;
      FilterCount(xs[..n], p);
      assert xs[..n] + [xs[n]] == xs;
      FilterAppend(xs[..n], [xs[n]], p);
      FilterSingleton(xs[n], p);
      PassingLast(xs, p);
    }
  }

  /** The filter's length is the size of any set holding exactly the passing positions. */
  lemma FilterCountOf<T(!new)>(xs: seq<T>, p: T -> bool, positions: set<int>)
    requires forall i :: i in positions <==> 0 <= i < |xs| && p(xs[i])
    ensures |Filter(xs, p)| == |positions|
  {
    FilterCount(xs, p);
    assert Passing(xs, p) == positions;
  }

  /** The filter returns the whole list exactly when every element passes. */
  lemma {:induction false} FilterKeepsAll<T(!new)>(xs: seq<T>, p: T -> bool)
    ensures Filter(xs, p) == xs <==> forall i :: 0 <= i < |xs| ==> p(xs[i])
  {
    if xs != [] {
      FilterKeepsAll(xs[1..], p);
      if Filter(xs, p) == xs && !p(xs[0]) {
        assert |Filter(xs[1..], p)| <= |xs| - 1;
      }
      if forall i :: 0 <= i < |xs| ==> p(xs[i]) {
        assert forall i :: 0 <= i < |xs[1..]| ==> p(xs[1..][i]) by {
          forall i | 0 <= i < |xs[1..]| ensures p(xs[1..][i]) { assert xs[1..][i] == xs[i + 1]; }
        }
      }
    }
  }

  /** Concatenation regroups freely. */
  lemma AppendAssoc<T>(x: seq<T>, y: seq<T>, z: seq<T>)
    ensures (x + y) + z == x + (y + z)
  {
  }
}
