/** Small value types and the sequence helpers that model a Python dict's key order. */
module Common {

  /** An optional value: a dialog that may be cancelled, a key that may be absent. */
  datatype Option<T> = None | Some(value: T)

  /** No key occurs twice. */
  predicate Distinct<T(==)>(s: seq<T>)
  {
    forall i, j :: 0 <= i < j < |s| ==> s[i] != s[j]
  }

  /** The key order after `pop(x)` / `del d[x]`: `x` is gone, the others keep their order. */
  function Without(s: seq<string>, x: string): (r: seq<string>)
    ensures forall y :: y in r <==> y in s && y != x
    ensures |r| <= |s|
    ensures Distinct(s) ==> Distinct(r)
    ensures x !in s ==> r == s
    ensures Distinct(s) && x in s ==> |r| == |s| - 1
  {
    if s == [] then []
    else
      var rest := Without(s[1..], x);
      assert Distinct(s) ==> s[0] !in s[1..] && Distinct(s[1..]);
      assert s == [s[0]] + s[1..];
      if s[0] == x then rest else [s[0]] + rest
  }

  /** The key order after `d[k] = v`: an existing key keeps its place, a new one goes last. */
  function AfterAssign(s: seq<string>, k: string): (r: seq<string>)
    ensures forall y :: y in r <==> y in s || y == k
    ensures Distinct(s) ==> Distinct(r)
    ensures k in s ==> r == s
    ensures k !in s ==> |r| == |s| + 1 && r[..|s|] == s && r[|s|] == k
  {
    if k in s then s else s + [k]
  }

  /** Removing a key from two runs of keys removes it from each run and keeps the runs
      in order: the remaining keys keep their relative order. */
  lemma {:induction false} WithoutAppend(a: seq<string>, b: seq<string>, x: string)
    ensures Without(a + b, x) == Without(a, x) + Without(b, x)
  {
    if a == [] {
      assert a + b == b;
    } else {
      assert (a + b)[0] == a[0];
      assert (a + b)[1..] == a[1..] + b;
      WithoutAppend(a[1..], b, x);
    }
  }
}
