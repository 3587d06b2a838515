/** The part of `json.dumps(d, sort_keys=True)` the system relies on for a
    flat string-to-string object: the serialised text is a function of the
    object's items taken in ascending key order (Python compares strings by
    code point). The rendering of that item list is left uninterpreted. */
module Json {

  /** The uninterpreted rendering of an ordered item list. */
  type Dumps = seq<(string, string)> -> string

  /** Python's `a < b` on strings: code-point lexicographic order. */
  predicate LexLess(a: string, b: string)
    decreases |a|
  {
    |b| > 0 && (|a| == 0 || a[0] < b[0] || (a[0] == b[0] && LexLess(a[1..], b[1..])))
  }

  lemma {:induction false} LexIrreflexive(a: string)
    ensures !LexLess(a, a)
    decreases |a|
  {
    if |a| > 0 { LexIrreflexive(a[1..]); }
  }

  lemma {:induction false} LexAsymmetric(a: string, b: string)
    requires LexLess(a, b)
    ensures !LexLess(b, a)
    decreases |a|
  {
    if |a| > 0 && a[0] == b[0] { LexAsymmetric(a[1..], b[1..]); }
  }

  lemma {:induction false} LexTransitive(a: string, b: string, c: string)
    requires LexLess(a, b) && LexLess(b, c)
    ensures LexLess(a, c)
    decreases |a|
  {
    if |a| > 0 && a[0] == b[0] && b[0] == c[0] { LexTransitive(a[1..], b[1..], c[1..]); }
  }

  lemma {:induction false} LexTotal(a: string, b: string)
    requires a != b
    ensures LexLess(a, b) || LexLess(b, a)
    decreases |a|
  {
    if |a| > 0 && |b| > 0 && a[0] == b[0] {
      assert a == [a[0]] + a[1..] && b == [b[0]] + b[1..];
      LexTotal(a[1..], b[1..]);
    }
  }

  /** `k` is the smallest key of `s`. */
  predicate IsLeast(k: string, s: set<string>) {
    k in s && forall j :: j in s && j != k ==> LexLess(k, j)
  }

  lemma {:induction false} LeastExists(s: set<string>)
    requires s != {}
    ensures exists k :: IsLeast(k, s)
    decreases |s|
  {
    var x :| x in s;
    if s != {x} {
      var rest := s - {x};
      LeastExists(rest);
      var m :| IsLeast(m, rest);
      LexTotal(x, m);
      if LexLess(x, m) {
        forall j | j in s && j != x ensures LexLess(x, j) {
          if j != m { LexTransitive(x, m, j); }
        }
        assert IsLeast(x, s);
      } else {
        assert IsLeast(m, s);
      }
    } else {
      assert IsLeast(x, s);
    }
  }

  lemma LeastUnique(s: set<string>)
    ensures forall a, b :: IsLeast(a, s) && IsLeast(b, s) ==> a == b
  {
    forall a, b | IsLeast(a, s) && IsLeast(b, s) ensures a == b {
      if a != b { LexAsymmetric(a, b); }
    }
  }

  /** The keys of `s` in ascending order. */
  function SortedKeys(s: set<string>): (r: seq<string>)
    ensures |r| == |s|
    ensures forall k :: k in s <==> k in r
    ensures forall i, j :: 0 <= i < j < |r| ==> LexLess(r[i], r[j])
    decreases |s|
  {
    if s == {} then []
    else
      LeastExists(s);
      LeastUnique(s);
      var k :| IsLeast(k, s);
      var rest := SortedKeys(s - {k});
      assert forall i :: 0 <= i < |rest| ==> rest[i] in s - {k};
      [k] + rest
  }

  /** The items of `d` for the keys `ks`, in the order of `ks`. */
  function ItemsOf(d: map<string, string>, ks: seq<string>): (r: seq<(string, string)>)
    requires forall k :: k in ks ==> k in d
    ensures |r| == |ks|
    ensures forall i :: 0 <= i < |r| ==> r[i] == (ks[i], d[ks[i]])
  {
    if ks == [] then [] else [(ks[0], d[ks[0]])] + ItemsOf(d, ks[1..])
  }

  /** The items of `d` in ascending key order, as `sort_keys=True` emits them. */
  function SortedItems(d: map<string, string>): (r: seq<(string, string)>)
    ensures |r| == |d|
    ensures forall i :: 0 <= i < |r| ==> r[i].0 in d && r[i].1 == d[r[i].0]
    ensures forall i, j :: 0 <= i < j < |r| ==> LexLess(r[i].0, r[j].0)
  {
    var ks := SortedKeys(d.Keys);
    assert |d.Keys| == |d|;
    ItemsOf(d, ks)
  }

  /** Every key of `d` appears in its sorted item list. */
  lemma SortedItemsComplete(d: map<string, string>, k: string)
    requires k in d
    ensures exists i :: 0 <= i < |SortedItems(d)| && SortedItems(d)[i].0 == k
  {
    var ks := SortedKeys(d.Keys);
    assert k in ks;
    var i :| 0 <= i < |ks| && ks[i] == k;
    assert SortedItems(d)[i].0 == k;
  }

  /** Two objects with the same items serialise to the same item list, and
      an object is recoverable from its sorted item list. */
  lemma SortedItemsInjective(d1: map<string, string>, d2: map<string, string>)
    requires SortedItems(d1) == SortedItems(d2)
    ensures d1 == d2
  {
    var r := SortedItems(d1);
    forall k | k in d1 ensures k in d2 && d1[k] == d2[k] {
      SortedItemsComplete(d1, k);
      var i :| 0 <= i < |r| && r[i].0 == k;
    }
    forall k | k in d2 ensures k in d1 {
      SortedItemsComplete(d2, k);
      var i :| 0 <= i < |r| && r[i].0 == k;
    }
  }
}
