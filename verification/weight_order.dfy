/** `sorted(normalized.items(), key=lambda x: -x[1])`, used by
    `interpolate_styles` for the signature moves and the blend display:
    the items by descending weight, items of equal weight in their original
    order (Python's sort is stable). */
module WeightOrder {

  /** The items of a `{author_id: weight}` dict, in insertion order. */
  type Items = seq<(string, real)>

  /** Puts x after every item at least as heavy as x. */
  function Insert(x: (string, real), s: Items): (r: Items)
    ensures |r| == |s| + 1
    ensures forall y :: y in r <==> y == x || y in s
  {
    if |s| == 0 then [x]
    else if x.1 > s[0].1 then [x] + s
    else
      assert s == [s[0]] + s[1..];
      [s[0]] + Insert(x, s[1..])
  }

  /** Insertion sort by descending weight, inserting the items in order:
      as many items as the input, and exactly the input's items. */
  function SortByWeight(items: Items): (sorted: Items)
    ensures |sorted| == |items|
    ensures forall y :: y in sorted <==> y in items
  {
    if |items| == 0 then []
    else
      var n := |items| - 1;
      assert items == items[..n] + [items[n]];
      Insert(items[n], SortByWeight(items[..n]))
  }

  predicate Descending(s: Items)
  {
    forall i, j :: 0 <= i < j < |s| ==> s[i].1 >= s[j].1
  }

  /** The items of weight w, in order. */
  function WithWeight(s: Items, w: real): Items
  {
    if |s| == 0 then []
    else (if s[0].1 == w then [s[0]] else []) + WithWeight(s[1..], w)
  }

  lemma {:induction false} InsertDescending(x: (string, real), s: Items)
    requires Descending(s)
    ensures Descending(Insert(x, s))
    ensures |s| > 0 ==> Insert(x, s)[0] == (if x.1 > s[0].1 then x else s[0])
    decreases |s|
  {
    if |s| > 0 && x.1 <= s[0].1 {
      InsertDescending(x, s[1..]);
      var r := Insert(x, s[1..]);
      assert forall k :: 0 <= k < |r| ==> r[k].1 <= s[0].1 by {
        InsertMultiset(x, s[1..]);
        forall k | 0 <= k < |r|
          ensures r[k].1 <= s[0].1
        {
          assert r[k] in multiset(r);
          if r[k] != x {
            assert r[k] in multiset(s[1..]);
            var m :| 0 <= m < |s[1..]| && s[1..][m] == r[k];
            assert s[m + 1] == r[k];
          }
        }
      }
    }
  }

  lemma {:induction false} InsertMultiset(x: (string, real), s: Items)
    ensures multiset(Insert(x, s)) == multiset(s) + multiset{x}
    decreases |s|
  {
    if |s| > 0 && x.1 <= s[0].1 {
      InsertMultiset(x, s[1..]);
      assert s == [s[0]] + s[1..];
    }
  }

  /** The result is sorted by descending weight. */
  lemma {:induction false} SortDescending(items: Items)
    ensures Descending(SortByWeight(items))
    decreases |items|
  {
    if |items| > 0 {
      SortDescending(items[..|items| - 1]);
      InsertDescending(items[|items| - 1], SortByWeight(items[..|items| - 1]));
    }
  }

  /** The result is a permutation of the items. */
  lemma {:induction false} SortPermutation(items: Items)
    ensures multiset(SortByWeight(items)) == multiset(items)
    decreases |items|
  {
    if |items| > 0 {
      var n := |items| - 1;
      SortPermutation(items[..n]);
      InsertMultiset(items[n], SortByWeight(items[..n]));
      assert items == items[..n] + [items[n]];
    }
  }

  lemma {:induction false} WithWeightAppend(a: Items, b: Items, w: real)
    ensures WithWeight(a + b, w) == WithWeight(a, w) + WithWeight(b, w)
    decreases |a|
  {
    if |a| > 0 {
      WithWeightAppend(a[1..], b, w);
      assert (a + b)[0] == a[0] && (a + b)[1..] == a[1..] + b;
    } else {
      assert a + b == b;
    }
  }

  lemma {:induction false} WithWeightNone(s: Items, w: real)
    requires forall k :: 0 <= k < |s| ==> s[k].1 < w
    ensures WithWeight(s, w) == []
    decreases |s|
  {
    if |s| > 0 {
      WithWeightNone(s[1..], w);
    }
  }

  /** Inserting into a descending sequence puts x after every item of its own weight. */
  lemma {:induction false} InsertWithWeight(x: (string, real), s: Items, w: real)
    requires Descending(s)
    ensures WithWeight(Insert(x, s), w) == WithWeight(s, w) + (if x.1 == w then [x] else [])
    decreases |s|
  {
    if |s| == 0 {
    } else if x.1 > s[0].1 {
      assert ([x] + s)[1..] == s;
      if x.1 == w {
        WithWeightNone(s, w);
      }
    } else {
      assert ([s[0]] + Insert(x, s[1..]))[1..] == Insert(x, s[1..]);
      InsertWithWeight(x, s[1..], w);
    }
  }

  /** The sort is stable: the items of any one weight keep their order. */
  lemma {:induction false} SortStable(items: Items, w: real)
    ensures WithWeight(SortByWeight(items), w) == WithWeight(items, w)
    decreases |items|
  {
    if |items| > 0 {
      var n := |items| - 1;
      SortStable(items[..n], w);
      SortDescending(items[..n]);
      InsertWithWeight(items[n], SortByWeight(items[..n]), w);
      assert items == items[..n] + [items[n]];
      WithWeightAppend(items[..n], [items[n]], w);
    }
  }
}
