/**
 * `sorted(pitch_groups.items(), key=lambda x: x[1]['freq'])` in
 * `create_professional_doc` (Sanne/main.py). Python's `sorted` is stable, so
 * groups of equal frequency keep the dictionary's insertion order; the model
 * is a stable insertion sort, and `StableSortIsUnique` shows that every
 * stable sort by frequency gives the same result.
 */
module FreqSort {
  import opened PitchGroups

  /** One `(pitch_name, data)` pair of `pitch_groups.items()`. */
  datatype Item = Item(name: string, group: Group)

  function Freq(it: Item): real {
    it.group.freq
  }

  ghost predicate SortedByFreq(s: seq<Item>) {
    forall i, j :: 0 <= i < j < |s| ==> Freq(s[i]) <= Freq(s[j])
  }

  /** The items of `s` whose frequency is `f`, in their order in `s`. */
  function WithFreq(s: seq<Item>, f: real): (r: seq<Item>)
    ensures forall it :: it in r ==> it in s && Freq(it) == f
  {
    if s == [] then []
    else if Freq(s[0]) == f then [s[0]] + WithFreq(s[1..], f)
    else WithFreq(s[1..], f)
  }

  /** Places `x` in front of the first item that is not cheaper than it. */
  function Insert(x: Item, t: seq<Item>): (r: seq<Item>)
    ensures multiset(r) == multiset(t) + multiset{x}
  {
    if t == [] || Freq(x) <= Freq(t[0]) then [x] + t
    else
      assert t == [t[0]] + t[1..];
      [t[0]] + Insert(x, t[1..])
  }

  /** Inserting keeps every item at or above a lower bound that `x` and all of `t` meet. */
  lemma {:induction false} InsertBounded(x: Item, t: seq<Item>, lo: real)
    requires lo <= Freq(x)
    requires forall k :: 0 <= k < |t| ==> lo <= Freq(t[k])
    ensures forall k :: 0 <= k < |Insert(x, t)| ==> lo <= Freq(Insert(x, t)[k])
  {
    if t != [] && Freq(x) > Freq(t[0]) {
      InsertBounded(x, t[1..], lo);
    }
  }

  lemma {:induction false} InsertSorted(x: Item, t: seq<Item>)
    requires SortedByFreq(t)
    ensures SortedByFreq(Insert(x, t))
  {
    if t != [] && Freq(x) > Freq(t[0]) {
      InsertSorted(x, t[1..]);
      InsertBounded(x, t[1..], Freq(t[0]));
      var rest := Insert(x, t[1..]);
      var r := [t[0]] + rest;
      assert forall i, j :: 0 < i < j < |r| ==> r[i] == rest[i - 1] && r[j] == rest[j - 1];
    }
  }

  /** The sort: a permutation of its input, ordered by non-decreasing frequency. */
  function SortByFreq(s: seq<Item>): (r: seq<Item>)
    ensures multiset(r) == multiset(s)
    ensures SortedByFreq(r)
  {
    if s == [] then []
    else
      assert s == [s[0]] + s[1..];
      InsertSorted(s[0], SortByFreq(s[1..]));
      Insert(s[0], SortByFreq(s[1..]))
  }

  lemma {:induction false} InsertWithFreq(x: Item, t: seq<Item>, f: real)
    ensures WithFreq(Insert(x, t), f) == if Freq(x) == f then [x] + WithFreq(t, f) else WithFreq(t, f)
  {
    if t == [] || Freq(x) <= Freq(t[0]) {
      assert ([x] + t)[1..] == t;
    } else {
      InsertWithFreq(x, t[1..], f);
      assert ([t[0]] + Insert(x, t[1..]))[1..] == Insert(x, t[1..]);
    }
  }

  /** Stability: among items of one frequency, the sort keeps the input order. */
  lemma {:induction false} SortIsStable(s: seq<Item>, f: real)
    ensures WithFreq(SortByFreq(s), f) == WithFreq(s, f)
  {
    if s != [] {
      SortIsStable(s[1..], f);
      InsertWithFreq(s[0], SortByFreq(s[1..]), f);
    }
  }

  /**
   * A sequence sorted by frequency is determined by its items at each
   * frequency: any stable sort by frequency agrees with `SortByFreq`.
   */
  lemma {:induction false} SortedDeterminedByFreqClasses(r: seq<Item>, q: seq<Item>)
    requires SortedByFreq(r) && SortedByFreq(q)
    requires forall f :: WithFreq(r, f) == WithFreq(q, f)
    ensures r == q
    decreases |r|
  {
    if r == [] || q == [] {
      HeadClassNonEmpty(r);
      HeadClassNonEmpty(q);
    } else {
      var m, n := Freq(r[0]), Freq(q[0]);
      assert q[0] in WithFreq(q, n);
      assert q[0] in WithFreq(r, n);
      assert r[0] in WithFreq(r, m);
      assert r[0] in WithFreq(q, m);
      InFront(r, q[0]);
      InFront(q, r[0]);
      assert m == n;
      assert WithFreq(r, m)[0] == r[0];
      assert WithFreq(q, m)[0] == q[0];
      assert r[0] == q[0];
      forall f ensures WithFreq(r[1..], f) == WithFreq(q[1..], f) {
        assert WithFreq(r, f) == WithFreq(q, f);
        if f == m {
          assert WithFreq(r, f) == [r[0]] + WithFreq(r[1..], f);
          assert WithFreq(q, f) == [q[0]] + WithFreq(q[1..], f);
          assert ([r[0]] + WithFreq(r[1..], f))[1..] == WithFreq(r[1..], f);
          assert ([q[0]] + WithFreq(q[1..], f))[1..] == WithFreq(q[1..], f);
        } else {
          assert WithFreq(r, f) == WithFreq(r[1..], f);
          assert WithFreq(q, f) == WithFreq(q[1..], f);
        }
      }
      SortedDeterminedByFreqClasses(r[1..], q[1..]);
      assert r == [r[0]] + r[1..] && q == [q[0]] + q[1..];
    }
  }

  lemma HeadClassNonEmpty(s: seq<Item>)
    ensures s != [] ==> WithFreq(s, Freq(s[0])) != []
  {
  }

  /** In a sorted sequence nothing is cheaper than the head. */
  lemma InFront(s: seq<Item>, it: Item)
    requires SortedByFreq(s) && it in s
    ensures Freq(s[0]) <= Freq(it)
  {
    var k :| 0 <= k < |s| && s[k] == it;
    if k > 0 { assert Freq(s[0]) <= Freq(s[k]); }
  }

  /** Hence any sorted, stable arrangement of `s` is `SortByFreq(s)`. */
  lemma StableSortIsUnique(s: seq<Item>, r: seq<Item>)
    requires SortedByFreq(r)
    requires forall f :: WithFreq(r, f) == WithFreq(s, f)
    ensures r == SortByFreq(s)
  {
    forall f ensures WithFreq(r, f) == WithFreq(SortByFreq(s), f) {
      SortIsStable(s, f);
    }
    SortedDeterminedByFreqClasses(r, SortByFreq(s));
  }

  /** Items of equal frequency appear in increasing `rank`. */
  ghost predicate TiesRanked(s: seq<Item>, rank: Item -> int) {
    forall i, j :: 0 <= i < j < |s| && Freq(s[i]) == Freq(s[j]) ==> rank(s[i]) < rank(s[j])
  }

  /** Putting `h` in front keeps ties ranked when `h` ranks below its equal-frequency successors. */
  lemma ConsTiesRanked(h: Item, rest: seq<Item>, rank: Item -> int)
    requires TiesRanked(rest, rank)
    requires forall it :: it in rest && Freq(it) == Freq(h) ==> rank(h) < rank(it)
    ensures TiesRanked([h] + rest, rank)
  {
    var r := [h] + rest;
    forall i, j | 0 <= i < j < |r| && Freq(r[i]) == Freq(r[j]) ensures rank(r[i]) < rank(r[j]) {
      if i == 0 {
        assert r[j] == rest[j - 1] && r[j] in rest;
      } else {
        assert r[i] == rest[i - 1] && r[j] == rest[j - 1];
      }
    }
  }

  lemma TailTiesRanked(t: seq<Item>, rank: Item -> int)
    requires t != [] && TiesRanked(t, rank)
    ensures TiesRanked(t[1..], rank)
  {
    forall i, j | 0 <= i < j < |t[1..]| && Freq(t[1..][i]) == Freq(t[1..][j])
      ensures rank(t[1..][i]) < rank(t[1..][j])
    {
      assert t[1..][i] == t[i + 1] && t[1..][j] == t[j + 1];
    }
  }

  /** Every item of `Insert(x, t)` is `x` or an item of `t`. */
  lemma InsertElements(x: Item, t: seq<Item>)
    ensures forall it :: it in Insert(x, t) ==> it == x || it in t
  {
    forall it | it in Insert(x, t) ensures it == x || it in t {
      assert it in multiset(Insert(x, t));
    }
  }

  lemma {:induction false} InsertTiesRanked(x: Item, t: seq<Item>, rank: Item -> int)
    requires TiesRanked(t, rank)
    requires forall it :: it in t && Freq(it) == Freq(x) ==> rank(x) < rank(it)
    ensures TiesRanked(Insert(x, t), rank)
  {
    if t == [] || Freq(x) <= Freq(t[0]) {
      ConsTiesRanked(x, t, rank);
    } else {
      TailTiesRanked(t, rank);
      assert forall it :: it in t[1..] ==> it in t;
      InsertTiesRanked(x, t[1..], rank);
      var rest := Insert(x, t[1..]);
      InsertElements(x, t[1..]);
      forall it | it in rest && Freq(it) == Freq(t[0]) ensures rank(t[0]) < rank(it) {
        var k :| 0 <= k < |t[1..]| && t[1..][k] == it;
        assert t[k + 1] == it;
      }
      ConsTiesRanked(t[0], rest, rank);
    }
  }

  /** If the input is ordered by `rank`, equal-frequency items stay ordered by it after sorting. */
  lemma {:induction false} SortKeepsTieRank(s: seq<Item>, rank: Item -> int)
    requires forall i, j :: 0 <= i < j < |s| ==> rank(s[i]) < rank(s[j])
    ensures TiesRanked(SortByFreq(s), rank)
  {
    if s != [] {
      var t := SortByFreq(s[1..]);
      SortKeepsTieRank(s[1..], rank) by {
        forall i, j | 0 <= i < j < |s[1..]| ensures rank(s[1..][i]) < rank(s[1..][j]) {
          assert s[1..][i] == s[i + 1] && s[1..][j] == s[j + 1];
        }
      }
      forall it | it in t && Freq(it) == Freq(s[0]) ensures rank(s[0]) < rank(it) {
        assert it in multiset(t);
        var k :| 0 <= k < |s[1..]| && s[1..][k] == it;
        assert s[k + 1] == it;
      }
      InsertTiesRanked(s[0], t, rank);
    }
  }
}
