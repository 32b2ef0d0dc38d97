/** The array operations the reducers and pages use: `findIndex`, `filter`,
    `filter` by position, and the destructuring swap of two positions. */
module Lists {

  /** `s.findIndex(p)`: the first position satisfying `p`, or -1. */
  function FindIndex<T>(s: seq<T>, p: T -> bool): (r: int)
    ensures -1 <= r < |s|
    ensures r == -1 <==> forall i :: 0 <= i < |s| ==> !p(s[i])
    ensures 0 <= r ==> p(s[r]) && forall i :: 0 <= i < r ==> !p(s[i])
  {
    if |s| == 0 then -1
    else if p(s[0]) then 0
    else
      var k := FindIndex(s[1..], p);
      if k == -1 then -1 else k + 1
  }

  /** Two tests that agree on every element find the same position. */
  lemma FindIndexAgrees<T>(s: seq<T>, p: T -> bool, q: T -> bool)
    requires forall i :: 0 <= i < |s| ==> p(s[i]) == q(s[i])
    ensures FindIndex(s, p) == FindIndex(s, q)
  {
  }

  /** `s.filter(keep)` */
  function Filter<T>(s: seq<T>, keep: T -> bool): (r: seq<T>)
    ensures |r| <= |s|
    ensures forall i :: 0 <= i < |r| ==> r[i] in s && keep(r[i])
    ensures forall i :: 0 <= i < |s| && keep(s[i]) ==> s[i] in r
  {
    if |s| == 0 then []
    else (if keep(s[0]) then [s[0]] else []) + Filter(s[1..], keep)
  }

  /** Filtering keeps the relative order: it distributes over concatenation. */
  lemma {:induction false} FilterConcat<T>(a: seq<T>, b: seq<T>, keep: T -> bool)
    ensures Filter(a + b, keep) == Filter(a, keep) + Filter(b, keep)
  {
    if |a| == 0 {
      assert a + b == b;
    } else {
      assert (a + b)[1..] == a[1..] + b;
      FilterConcat(a[1..], b, keep);
    }
  }

  /** Filtering a list in which every element is kept changes nothing. */
  lemma {:induction false} FilterKeepsAll<T>(s: seq<T>, keep: T -> bool)
    requires forall i :: 0 <= i < |s| ==> keep(s[i])
    ensures Filter(s, keep) == s
  {
    if |s| > 0 {
      FilterKeepsAll(s[1..], keep);
    }
  }

  /** `s.filter((_, i) => i !== index)`: position `index` goes, the rest keep
      their order; an index outside the list removes nothing. */
  function RemoveAt<T>(s: seq<T>, index: int): (r: seq<T>)
    ensures 0 <= index < |s| ==> |r| == |s| - 1
    ensures 0 <= index < |s| ==> forall j :: 0 <= j < index ==> r[j] == s[j]
    ensures 0 <= index < |s| ==> forall j :: index <= j < |r| ==> r[j] == s[j + 1]
    ensures !(0 <= index < |s|) ==> r == s
  {
    if 0 <= index < |s| then s[..index] + s[index + 1..] else s
  }

  /** Putting the removed element back at its position restores the list. */
  lemma RemoveAtReinsert<T>(s: seq<T>, index: int)
    requires 0 <= index < |s|
    ensures RemoveAt(s, index)[..index] + [s[index]] + RemoveAt(s, index)[index..] == s
  {
    var r := RemoveAt(s, index);
    assert r[..index] == s[..index];
    assert r[index..] == s[index + 1..];
    assert s == s[..index] + [s[index]] + s[index + 1..];
  }

  /** `[s[i], s[j]] = [s[j], s[i]]` on a copy of `s`. */
  function Swapped<T>(s: seq<T>, i: int, j: int): (r: seq<T>)
    requires 0 <= i < |s| && 0 <= j < |s|
    ensures |r| == |s|
    ensures r[i] == s[j] && r[j] == s[i]
    ensures forall k :: 0 <= k < |s| && k != i && k != j ==> r[k] == s[k]
    ensures multiset(r) == multiset(s)
  {
    s[i := s[j]][j := s[i]]
  }

  /** Copies `s` into a fresh array and swaps positions `i` and `j` there,
      as the spread copy and destructuring assignment do. */
  method SwapCopy<T>(s: seq<T>, i: int, j: int) returns (r: seq<T>)
    requires 0 <= i < |s| && 0 <= j < |s|
    ensures r == Swapped(s, i, j)
  {
    var a := new T[|s|](k requires 0 <= k < |s| => s[k]);
    a[i], a[j] := a[j], a[i];
    r := a[..];
  }
}
