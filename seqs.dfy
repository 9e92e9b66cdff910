/** The array operations the reducers and the screens are built from:
    `filter`, `filter(...).length`, `findIndex`/`find`, and replacing or patching
    the first element whose `id` matches. */
module Seqs {

  /** `r` is an order-preserving sub-list of `s` (some elements of `s` dropped, none reordered). */
  ghost predicate Sublist<T>(r: seq<T>, s: seq<T>)
    decreases |s|
  {
    if r == [] then true
    else if s == [] then false
    else (r[0] == s[0] && Sublist(r[1..], s[1..])) || Sublist(r, s[1..])
  }

  /** The number of elements of `s` satisfying `p`. */
  function Count<T>(s: seq<T>, p: T -> bool): (n: nat)
    ensures n <= |s|
  {
    if s == [] then 0 else (if p(s[0]) then 1 else 0) + Count(s[1..], p)
  }

  /** `s.filter(p)`: exactly the elements satisfying `p`, in their original order. */
  function Filter<T>(s: seq<T>, p: T -> bool): (r: seq<T>)
    ensures |r| == Count(s, p)
    ensures Sublist(r, s)
    ensures forall i :: 0 <= i < |r| ==> r[i] in s && p(r[i])
    ensures forall i :: 0 <= i < |s| && p(s[i]) ==> s[i] in r
  {
    if s == [] then []
    else if p(s[0]) then
      var t := Filter(s[1..], p);
      assert ([s[0]] + t)[1..] == t;
      [s[0]] + t
    else Filter(s[1..], p)
  }

  /** Filtering with a predicate every element satisfies gives the list back unchanged. */
  lemma {:induction false} FilterKeepsAll<T>(s: seq<T>, p: T -> bool)
    requires forall i :: 0 <= i < |s| ==> p(s[i])
    ensures Filter(s, p) == s
  {
    if s != [] {
      FilterKeepsAll(s[1..], p);
      assert [s[0]] + s[1..] == s;
    }
  }

  /** `filter` distributes over concatenation. */
  lemma {:induction false} FilterAppend<T>(s: seq<T>, t: seq<T>, p: T -> bool)
    ensures Filter(s + t, p) == Filter(s, p) + Filter(t, p)
  {
    if s != [] {
      assert (s + t)[1..] == s[1..] + t;
      FilterAppend(s[1..], t, p);
    } else {
      assert s + t == t;
    }
  }

  /** `filter` only looks at the predicate's values on the list's own elements: two predicates
      that agree there select the same sub-list. */
  lemma {:induction false} FilterExt<T>(s: seq<T>, p: T -> bool, q: T -> bool)
    requires forall i :: 0 <= i < |s| ==> p(s[i]) == q(s[i])
    ensures Filter(s, p) == Filter(s, q)
  {
    if s != [] {
      FilterExt(s[1..], p, q);
    }
  }

  /** Counts of pairwise exclusive properties add up to at most the length of the list. */
  lemma {:induction false} CountExclusive<T>(s: seq<T>, p: T -> bool, q: T -> bool, r: T -> bool)
    requires forall i :: 0 <= i < |s| ==> !(p(s[i]) && q(s[i]))
    requires forall i :: 0 <= i < |s| ==> !(p(s[i]) && r(s[i]))
    requires forall i :: 0 <= i < |s| ==> !(q(s[i]) && r(s[i]))
    ensures Count(s, p) + Count(s, q) + Count(s, r) <= |s|
  {
    if s != [] {
      CountExclusive(s[1..], p, q, r);
    }
  }

  /** `s.findIndex(x => key(x) === id)`: the first matching position, or -1 when none matches. */
  function FindIndex<T>(s: seq<T>, key: T -> string, id: string): (r: int)
    ensures -1 <= r < |s|
    ensures r == -1 <==> forall j :: 0 <= j < |s| ==> key(s[j]) != id
    ensures r >= 0 ==> key(s[r]) == id && forall j :: 0 <= j < r ==> key(s[j]) != id
  {
    if s == [] then -1
    else if key(s[0]) == id then 0
    else
      var r := FindIndex(s[1..], key, id);
      if r == -1 then -1 else r + 1
  }

  /** Reference definition: apply `f` to the first element whose key is `id`; without a match nothing changes. */
  function UpdateFirst<T>(s: seq<T>, key: T -> string, id: string, f: T -> T): (r: seq<T>)
    ensures |r| == |s|
  {
    if s == [] then []
    else if key(s[0]) == id then [f(s[0])] + s[1..]
    else [s[0]] + UpdateFirst(s[1..], key, id, f)
  }

  /** Replace the first element whose key equals that of `x` by `x` (the `updateX` reducers). */
  function ReplaceFirst<T>(s: seq<T>, key: T -> string, x: T): (r: seq<T>)
    ensures |r| == |s|
  {
    UpdateFirst(s, key, key(x), _ => x)
  }

  /** Updating the first match is what `findIndex` followed by one indexed assignment does:
      the length is kept, only the position `findIndex` returns changes, and with no match
      the list is unchanged. */
  lemma {:induction false} UpdateFirstAtFindIndex<T>(s: seq<T>, key: T -> string, id: string, f: T -> T)
    ensures var i := FindIndex(s, key, id);
            UpdateFirst(s, key, id, f) == if i == -1 then s else s[i := f(s[i])]
  {
    if s != [] && key(s[0]) != id {
      UpdateFirstAtFindIndex(s[1..], key, id, f);
      var i := FindIndex(s[1..], key, id);
      if i != -1 {
        assert [s[0]] + s[1..][i := f(s[1..][i])] == s[i + 1 := f(s[i + 1])];
      } else {
        assert [s[0]] + s[1..] == s;
      }
    }
  }

  /** The `updateX` reducers: same length; without a matching id nothing changes; otherwise the
      first match becomes `x` and every other position keeps its element. */
  lemma ReplaceFirstSpec<T>(s: seq<T>, key: T -> string, x: T)
    ensures |ReplaceFirst(s, key, x)| == |s|
    ensures FindIndex(s, key, key(x)) == -1 ==> ReplaceFirst(s, key, x) == s
    ensures var i := FindIndex(s, key, key(x));
            i != -1 ==> ReplaceFirst(s, key, x)[i] == x &&
                        forall j :: 0 <= j < |s| && j != i ==> ReplaceFirst(s, key, x)[j] == s[j]
  {
    UpdateFirstAtFindIndex(s, key, key(x), _ => x);
  }

  /** Replacing the first match twice with the same element is the same as replacing it once. */
  lemma ReplaceFirstIdempotent<T>(s: seq<T>, key: T -> string, x: T)
    ensures ReplaceFirst(ReplaceFirst(s, key, x), key, x) == ReplaceFirst(s, key, x)
  {
    ReplaceFirstSpec(s, key, x);
    var t := ReplaceFirst(s, key, x);
    ReplaceFirstSpec(t, key, x);
    var i := FindIndex(s, key, key(x));
    if i != -1 {
      var k := FindIndex(t, key, key(x));
      assert key(t[i]) == key(x);
      assert k == i by {
        assert forall j :: 0 <= j < i ==> t[j] == s[j];
      }
    }
  }
}
