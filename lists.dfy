/** Lookup by key in an insertion-ordered list (the `has`/`get`/`set` of a
    JavaScript `Map`, whose iteration order is insertion order) and sums. */
module Lists {
  import opened Wrappers

  /** Position of the first occurrence of `x`, if any. */
  function IndexOf(xs: seq<string>, x: string): (r: Option<nat>)
    ensures r.None? <==> x !in xs
    ensures r.Some? ==> r.value < |xs| && xs[r.value] == x && x !in xs[..r.value]
  {
    if xs == [] then None
    else if xs[0] == x then Some(0)
    else match IndexOf(xs[1..], x)
      case None => None
      case Some(i) =>
        assert xs[..i + 1] == [xs[0]] + xs[1..][..i];
        Some(i + 1)
  }

  /** In a list without repetitions an element is found where it stands. */
  lemma IndexOfDistinct(xs: seq<string>, i: nat)
    requires i < |xs|
    requires forall j, k :: 0 <= j < k < |xs| ==> xs[j] != xs[k]
    ensures IndexOf(xs, xs[i]) == Some(i)
  {
  }

  lemma IndexOfAppend(xs: seq<string>, y: string, x: string)
    requires y !in xs
    ensures IndexOf(xs + [y], x) == if x == y then Some(|xs|) else IndexOf(xs, x)
  {
    var ys := xs + [y];
    var r := IndexOf(ys, x);
    if x == y {
      assert ys[|xs|] == y;
    } else if x in xs {
      var s := IndexOf(xs, x).value;
      assert ys[s] == x;
    }
  }

  /** The distinct non-empty entries of `ks`, in the order each is first seen. */
  function FirstSeen(ks: seq<string>): (r: seq<string>)
    ensures forall i, j :: 0 <= i < j < |r| ==> r[i] != r[j]
  {
    if ks == [] then []
    else
      var seen := FirstSeen(ks[..|ks| - 1]);
      var k := ks[|ks| - 1];
      if k == "" || k in seen then seen else seen + [k]
  }

  /** An entry is listed exactly when it is non-empty and occurs. */
  lemma {:induction false} FirstSeenMembers(ks: seq<string>, k: string)
    ensures k in FirstSeen(ks) <==> k != "" && k in ks
  {
    if ks != [] {
      var prefix := ks[..|ks| - 1];
      FirstSeenMembers(prefix, k);
      assert ks == prefix + [ks[|ks| - 1]];
    }
  }

  /** Sum of a list of integers. */
  function Total(ns: seq<int>): int {
    if ns == [] then 0 else ns[0] + Total(ns[1..])
  }

  lemma {:induction false} TotalAppend(ns: seq<int>, n: int)
    ensures Total(ns + [n]) == Total(ns) + n
  {
    if ns == [] {
      assert ns + [n] == [n];
    } else {
      assert (ns + [n])[1..] == ns[1..] + [n];
      TotalAppend(ns[1..], n);
    }
  }

  lemma {:induction false} TotalUpdate(ns: seq<int>, i: nat, n: int)
    requires i < |ns|
    ensures Total(ns[i := n]) == Total(ns) - ns[i] + n
  {
    if i > 0 {
      assert ns[i := n][1..] == ns[1..][i - 1 := n];
      TotalUpdate(ns[1..], i - 1, n);
    }
  }

  lemma AppendAssoc<T>(x: seq<T>, y: seq<T>, z: seq<T>)
    ensures x + (y + z) == (x + y) + z
  {
  }

  lemma SplitLast<T>(s: seq<T>)
    requires s != []
    ensures s == s[..|s| - 1] + [s[|s| - 1]]
  {
  }
}
