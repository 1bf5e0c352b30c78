/** Python's stable `sorted`, as insertion of each element before its equals. */
module StableSort {
  datatype Ranked<T> = Ranked(rank: int, item: T)

  function Insert<T>(x: Ranked<T>, s: seq<Ranked<T>>): (r: seq<Ranked<T>>)
    ensures |r| == |s| + 1
  {
    if s == [] || x.rank <= s[0].rank then [x] + s else [s[0]] + Insert(x, s[1..])
  }

  function Sort<T>(q: seq<Ranked<T>>): (r: seq<Ranked<T>>)
    ensures |r| == |q|
  {
    if q == [] then [] else Insert(q[0], Sort(q[1..]))
  }

  function Items<T>(q: seq<Ranked<T>>): (r: seq<T>)
    ensures |r| == |q| && forall i :: 0 <= i < |q| ==> r[i] == q[i].item
  {
    seq(|q|, i requires 0 <= i < |q| => q[i].item)
  }

  ghost predicate Sorted<T>(s: seq<Ranked<T>>) {
    forall i, j :: 0 <= i < j < |s| ==> s[i].rank <= s[j].rank
  }

  /** How many elements rank strictly below `r`. */
  ghost function Below<T>(s: seq<Ranked<T>>, r: int): nat {
    if s == [] then 0 else (if s[0].rank < r then 1 else 0) + Below(s[1..], r)
  }

  /** How many elements rank at most `r`. */
  ghost function AtMost<T>(s: seq<Ranked<T>>, r: int): nat {
    Below(s, r + 1)
  }

  /** The place element `i` deserves in a stable ascending order: after every
      earlier element ranked no higher and every later one ranked lower. */
  ghost function Place<T>(q: seq<Ranked<T>>, i: nat): nat
    requires i < |q|
  {
    AtMost(q[..i], q[i].rank) + Below(q[i + 1..], q[i].rank)
  }

  lemma {:induction false} BelowConcat<T>(a: seq<Ranked<T>>, b: seq<Ranked<T>>, r: int)
    ensures Below(a + b, r) == Below(a, r) + Below(b, r)
  {
    if a == [] {
      assert a + b == b;
    } else {
      BelowConcat(a[1..], b, r);
      assert (a + b)[1..] == a[1..] + b;
    }
  }

  lemma {:induction false} BelowBound<T>(s: seq<Ranked<T>>, r: int)
    ensures Below(s, r) <= |s|
  {
    if s != [] { BelowBound(s[1..], r); }
  }

  lemma {:induction false} BelowSorted<T>(s: seq<Ranked<T>>, r: int, m: nat)
    requires Sorted(s) && m < |s|
    ensures m < Below(s, r) <==> s[m].rank < r
  {
    if s[0].rank >= r {
      BelowNone(s, r);
    } else if m > 0 {
      BelowSorted(s[1..], r, m - 1);
    }
  }

  lemma {:induction false} BelowNone<T>(s: seq<Ranked<T>>, r: int)
    requires forall i :: 0 <= i < |s| ==> s[i].rank >= r
    ensures Below(s, r) == 0
  {
    if s != [] { BelowNone(s[1..], r); }
  }

  /** Insertion into a sorted list cuts it where the smaller elements end. */
  lemma {:induction false} InsertCuts<T>(x: Ranked<T>, s: seq<Ranked<T>>)
    requires Sorted(s)
    ensures Below(s, x.rank) <= |s|
    ensures Insert(x, s) == s[..Below(s, x.rank)] + [x] + s[Below(s, x.rank)..]
  {
    BelowBound(s, x.rank);
    if s == [] {
    } else if x.rank <= s[0].rank {
      BelowNone(s, x.rank);
    } else {
      InsertCuts(x, s[1..]);
    }
  }

  lemma {:induction false} InsertPermutes<T>(x: Ranked<T>, s: seq<Ranked<T>>)
    ensures multiset(Insert(x, s)) == multiset(s) + multiset{x}
  {
    if s != [] && x.rank > s[0].rank {
      InsertPermutes(x, s[1..]);
      assert s == [s[0]] + s[1..];
    }
  }

  lemma {:induction false} InsertSorted<T>(x: Ranked<T>, s: seq<Ranked<T>>)
    requires Sorted(s)
    ensures Sorted(Insert(x, s))
  {
    if s != [] && x.rank > s[0].rank {
      var t := Insert(x, s[1..]);
      InsertSorted(x, s[1..]);
      InsertPermutes(x, s[1..]);
      forall i | 0 <= i < |t| ensures s[0].rank <= t[i].rank {
        assert t[i] in multiset(t);
        if t[i] != x { assert t[i] in s[1..]; }
      }
    }
  }

  /** Where the elements of a sorted list end up after an insertion. */
  lemma {:induction false} InsertShifts<T>(x: Ranked<T>, s: seq<Ranked<T>>, m: nat)
    requires Sorted(s) && m < |s|
    ensures Insert(x, s)[m + if x.rank <= s[m].rank then 1 else 0] == s[m]
  {
    InsertPermutes(x, s);
    if x.rank > s[0].rank && m > 0 {
      InsertShifts(x, s[1..], m - 1);
    }
  }

  lemma {:induction false} SortSorts<T>(q: seq<Ranked<T>>)
    ensures Sorted(Sort(q))
    ensures multiset(Sort(q)) == multiset(q)
  {
    if q != [] {
      SortSorts(q[1..]);
      InsertSorted(q[0], Sort(q[1..]));
      InsertPermutes(q[0], Sort(q[1..]));
      assert q == [q[0]] + q[1..];
    }
  }

  lemma {:induction false} BelowInsert<T>(x: Ranked<T>, s: seq<Ranked<T>>, r: int)
    ensures Below(Insert(x, s), r) == Below(s, r) + if x.rank < r then 1 else 0
  {
    if s == [] || x.rank <= s[0].rank {
      assert ([x] + s)[1..] == s;
    } else {
      BelowInsert(x, s[1..], r);
      assert Insert(x, s)[1..] == Insert(x, s[1..]);
    }
  }

  lemma {:induction false} BelowSort<T>(q: seq<Ranked<T>>, r: int)
    ensures Below(Sort(q), r) == Below(q, r)
  {
    if q != [] {
      BelowSort(q[1..], r);
      BelowInsert(q[0], Sort(q[1..]), r);
    }
  }

  lemma PlaceAfterHead<T>(q: seq<Ranked<T>>, i: nat)
    requires 0 < i < |q|
    ensures Place(q, i) == Place(q[1..], i - 1) + if q[0].rank <= q[i].rank then 1 else 0
  {
    assert q[..i] == [q[0]] + q[1..][..i - 1];
    assert q[1..][i..] == q[i + 1..];
    BelowConcat([q[0]], q[1..][..i - 1], q[i].rank + 1);
    assert [q[0]][1..] == [];
  }

  lemma PlaceOfHead<T>(q: seq<Ranked<T>>)
    requires q != []
    ensures Place(q, 0) == Below(q[1..], q[0].rank)
  {
    assert q[..0] == [];
  }

  /** Sorting is exactly the stable order: every element lands in its place. */
  lemma {:induction false} SortPlaces<T>(q: seq<Ranked<T>>, i: nat)
    requires i < |q|
    ensures Place(q, i) < |q| && Sort(q)[Place(q, i)] == q[i]
  {
    hide Place;
    hide Below;
    hide Insert;
    var t := Sort(q[1..]);
    SortSorts(q[1..]);
    if i == 0 {
      InsertCuts(q[0], t);
      BelowSort(q[1..], q[0].rank);
      PlaceOfHead(q);
    } else {
      PlaceAfterHead(q, i);
      SortPlaces(q[1..], i - 1);
      InsertShifts(q[0], t, Place(q[1..], i - 1));
    }
  }

  /** Distinct positions deserve distinct places. */
  lemma PlacesDiffer<T>(q: seq<Ranked<T>>, i: nat, j: nat)
    requires i < j < |q|
    ensures Place(q, i) < Place(q, j) <==> q[i].rank <= q[j].rank
    ensures Place(q, i) != Place(q, j)
  {
    var a, b, c := q[..i], q[i + 1..j], q[j + 1..];
    assert q[..j] == a + [q[i]] + b && q[i + 1..] == b + [q[j]] + c;
    BelowParts(a, q[i], b, q[j].rank + 1);
    BelowParts(b, q[j], c, q[i].rank);
    if q[i].rank <= q[j].rank {
      BelowMonotone(a, q[i].rank + 1, q[j].rank + 1);
      BelowMonotone(b, q[i].rank, q[j].rank + 1);
      BelowMonotone(c, q[i].rank, q[j].rank);
    } else {
      BelowMonotone(a, q[j].rank + 1, q[i].rank + 1);
      BelowMonotone(b, q[j].rank + 1, q[i].rank);
      BelowMonotone(c, q[j].rank, q[i].rank);
    }
  }

  lemma BelowParts<T>(a: seq<Ranked<T>>, x: Ranked<T>, b: seq<Ranked<T>>, r: int)
    ensures Below(a + [x] + b, r) == Below(a, r) + (if x.rank < r then 1 else 0) + Below(b, r)
  {
    BelowConcat(a + [x], b, r);
    BelowConcat(a, [x], r);
    assert [x][1..] == [];
  }

  lemma {:induction false} BelowMonotone<T>(s: seq<Ranked<T>>, low: int, high: int)
    requires low <= high
    ensures Below(s, low) <= Below(s, high)
  {
    if s != [] { BelowMonotone(s[1..], low, high); }
  }

  lemma {:induction false} InsertKeepsItems<T>(x: Ranked<T>, s: seq<Ranked<T>>)
    ensures multiset(Items(Insert(x, s))) == multiset(Items(s)) + multiset{x.item}
  {
    if s == [] || x.rank <= s[0].rank {
      assert Items([x] + s) == [x.item] + Items(s);
    } else {
      InsertKeepsItems(x, s[1..]);
      assert Items(Insert(x, s)) == [s[0].item] + Items(Insert(x, s[1..]));
      assert Items(s) == [s[0].item] + Items(s[1..]);
    }
  }

  /** Sorting neither loses nor repeats an item. */
  lemma {:induction false} SortKeepsItems<T>(q: seq<Ranked<T>>)
    ensures multiset(Items(Sort(q))) == multiset(Items(q))
  {
    if q != [] {
      SortKeepsItems(q[1..]);
      InsertKeepsItems(q[0], Sort(q[1..]));
      assert Items(q) == [q[0].item] + Items(q[1..]);
    }
  }

  // ---- Sorting a queue whose head goes to the back ----------------------------

  /** Insertion after the equals instead of before them. */
  function InsertLast<T>(y: Ranked<T>, s: seq<Ranked<T>>): seq<Ranked<T>> {
    if s == [] || y.rank < s[0].rank then [y] + s else [s[0]] + InsertLast(y, s[1..])
  }

  lemma {:induction false} InsertsCommute<T>(x: Ranked<T>, y: Ranked<T>, s: seq<Ranked<T>>)
    ensures Insert(x, InsertLast(y, s)) == InsertLast(y, Insert(x, s))
  {
    if s != [] {
      InsertsCommute(x, y, s[1..]);
      assert ([y] + s)[1..] == s && ([x] + s)[1..] == s;
      assert ([s[0]] + InsertLast(y, s[1..]))[1..] == InsertLast(y, s[1..]);
      assert ([s[0]] + Insert(x, s[1..]))[1..] == Insert(x, s[1..]);
    }
  }

  lemma {:induction false} SortPush<T>(q: seq<Ranked<T>>, y: Ranked<T>)
    ensures Sort(q + [y]) == InsertLast(y, Sort(q))
  {
    if q == [] {
      assert q + [y] == [y] && [y][1..] == [];
    } else {
      assert (q + [y])[0] == q[0] && (q + [y])[1..] == q[1..] + [y];
      SortPush(q[1..], y);
      InsertsCommute(q[0], y, Sort(q[1..]));
    }
  }

  /** One rank lower but behind its equals is the same place. */
  lemma {:induction false} SamePlace<T>(r: int, item: T, s: seq<Ranked<T>>)
    ensures |InsertLast(Ranked(r - 1, item), s)| == |s| + 1
    ensures Items(Insert(Ranked(r, item), s)) == Items(InsertLast(Ranked(r - 1, item), s))
  {
    var x, y := Ranked(r, item), Ranked(r - 1, item);
    if s == [] || r <= s[0].rank {
      assert Items([x] + s) == Items([y] + s);
    } else {
      SamePlace(r, item, s[1..]);
      assert Items(Insert(x, s)) == [s[0].item] + Items(Insert(x, s[1..]));
      assert Items(InsertLast(y, s)) == [s[0].item] + Items(InsertLast(y, s[1..]));
    }
  }

  /** Moving the head to the back one rank lower does not change the order of the items. */
  lemma RotationKeepsOrder<T>(x: Ranked<T>, rest: seq<Ranked<T>>)
    ensures Items(Sort([x] + rest)) == Items(Sort(rest + [Ranked(x.rank - 1, x.item)]))
  {
    assert ([x] + rest)[1..] == rest;
    SortPush(rest, Ranked(x.rank - 1, x.item));
    SamePlace(x.rank, x.item, Sort(rest));
  }

  /** An element ranked no higher than any other comes out first. */
  lemma LeastComesFirst<T>(x: Ranked<T>, rest: seq<Ranked<T>>)
    requires forall y | y in rest :: x.rank <= y.rank
    ensures Items(Sort([x] + rest)) == [x.item] + Items(Sort(rest))
  {
    assert ([x] + rest)[1..] == rest;
    SortSorts(rest);
    if rest != [] {
      assert Sort(rest)[0] in multiset(Sort(rest));
      assert Sort(rest)[0] in rest;
    }
    assert Sort([x] + rest) == [x] + Sort(rest);
  }
}
