/** Python's ordering of `str` values (code point by code point, a proper
    prefix first) and `sorted(keys)` over a set of distinct keys. */
module Ordering {

  /** `a < b` on Python strings. */
  predicate Below(a: string, b: string) {
    if a == [] then b != []
    else if b == [] then false
    else if a[0] != b[0] then a[0] < b[0]
    else Below(a[1..], b[1..])
  }

  lemma {:induction false} BelowIrreflexive(a: string)
    ensures !Below(a, a)
  {
    if a != [] { BelowIrreflexive(a[1..]); }
  }

  lemma {:induction false} BelowTransitive(a: string, b: string, c: string)
    requires Below(a, b) && Below(b, c)
    ensures Below(a, c)
  {
    if a != [] && b != [] && c != [] && a[0] == b[0] && b[0] == c[0] {
      BelowTransitive(a[1..], b[1..], c[1..]);
    }
  }

  lemma {:induction false} BelowTotal(a: string, b: string)
    requires a != b
    ensures Below(a, b) || Below(b, a)
  {
    if a != [] && b != [] && a[0] == b[0] {
      assert a == [a[0]] + a[1..] && b == [b[0]] + b[1..];
      BelowTotal(a[1..], b[1..]);
    }
  }

  /** Strictly ascending, hence free of duplicates. */
  predicate Ascending(ks: seq<string>) {
    forall i, j :: 0 <= i < j < |ks| ==> Below(ks[i], ks[j])
  }

  lemma AscendingDistinct(ks: seq<string>)
    requires Ascending(ks)
    ensures forall i, j :: 0 <= i < j < |ks| ==> ks[i] != ks[j]
  {
    forall i, j | 0 <= i < j < |ks| ensures ks[i] != ks[j] {
      BelowIrreflexive(ks[i]);
    }
  }

  /** Every non-empty finite set of strings has a least element. */
  lemma {:induction false} LeastExists(s: set<string>)
    requires s != {}
    ensures exists m :: m in s && forall x :: x in s ==> !Below(x, m)
  {
    var y :| y in s;
    if s == {y} {
      BelowIrreflexive(y);
    } else {
      LeastExists(s - {y});
      var m :| m in s - {y} && forall x :: x in s - {y} ==> !Below(x, m);
      if Below(y, m) {
        forall x | x in s ensures !Below(x, y) {
          if x == y { BelowIrreflexive(y); }
          else if Below(x, y) { BelowTransitive(x, y, m); }
        }
      } else {
        assert forall x :: x in s ==> !Below(x, m);
      }
    }
  }

  /** `sorted(keys)`: each key once, in ascending order. */
  method SortedKeys(keys: set<string>) returns (r: seq<string>)
    ensures Ascending(r)
    ensures forall k :: k in r <==> k in keys
    ensures |r| == |keys|
  {
    r := [];
    var rest := keys;
    while rest != {}
      invariant |r| + |rest| == |keys|
      invariant Ascending(r)
      invariant forall k :: k in keys <==> k in r || k in rest
      invariant forall k :: k in rest ==> k !in r
      invariant forall i, k :: 0 <= i < |r| && k in rest ==> Below(r[i], k)
      decreases rest
    {
      LeastExists(rest);
      var m :| m in rest && forall x :: x in rest ==> !Below(x, m);
      forall k | k in rest - {m} ensures Below(m, k) {
        BelowTotal(m, k);
      }
      r := r + [m];
      rest := rest - {m};
    }
  }
}
