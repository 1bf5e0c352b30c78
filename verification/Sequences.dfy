/** Facts about finite sequences that the schedulers' queues rely on: duplicate
    freedom, order-preserving removal, and sums of a weight over the elements. */
module Sequences {

  datatype Option<+T> = None | Some(value: T)

  ghost predicate NoDup<T>(s: seq<T>) {
    forall i, j :: 0 <= i < j < |s| ==> s[i] != s[j]
  }

  function Elements<T>(s: seq<T>): set<T> {
    set x | x in s
  }

  /** `s` without the elements of `gone`; what stays keeps its order. */
  function Minus<T(==)>(s: seq<T>, gone: set<T>): (r: seq<T>)
    ensures forall x | x in r :: x in s && x !in gone
    ensures forall x | x in s && x !in gone :: x in r
    ensures NoDup(s) ==> NoDup(r)
    ensures |r| <= |s|
  {
    if s == [] then []
    else if s[0] in gone then Minus(s[1..], gone)
    else [s[0]] + Minus(s[1..], gone)
  }

  lemma {:induction false} MinusDisjoint<T>(s: seq<T>, gone: set<T>)
    requires forall x | x in s :: x !in gone
    ensures Minus(s, gone) == s
  {
    if s != [] {
      MinusDisjoint(s[1..], gone);
    }
  }

  lemma {:induction false} MinusAll<T>(s: seq<T>, gone: set<T>)
    requires forall x | x in s :: x in gone
    ensures Minus(s, gone) == []
  {
    if s != [] {
      MinusAll(s[1..], gone);
    }
  }

  lemma {:induction false} MinusTwice<T>(s: seq<T>, first: set<T>, second: set<T>)
    ensures Minus(Minus(s, first), second) == Minus(s, first + second)
  {
    if s != [] {
      MinusTwice(s[1..], first, second);
      if s[0] !in first {
        var rest := Minus(s[1..], first);
        assert ([s[0]] + rest)[1..] == rest;
      }
    }
  }

  /** Relative order survives removal: whatever precedes in the result preceded before. */
  lemma {:induction false} MinusKeepsOrder<T>(s: seq<T>, gone: set<T>, i: nat, j: nat) returns (p: nat, q: nat)
    requires i < j < |Minus(s, gone)|
    ensures p < q < |s| && s[p] == Minus(s, gone)[i] && s[q] == Minus(s, gone)[j]
  {
    if s[0] in gone {
      p, q := MinusKeepsOrder(s[1..], gone, i, j);
      p, q := p + 1, q + 1;
    } else if i == 0 {
      var tail := Minus(s[1..], gone);
      assert Minus(s, gone)[j] == tail[j - 1];
      assert tail[j - 1] in s[1..];
      q :| 0 <= q < |s[1..]| && s[1..][q] == tail[j - 1];
      p, q := 0, q + 1;
    } else {
      p, q := MinusKeepsOrder(s[1..], gone, i - 1, j - 1);
      p, q := p + 1, q + 1;
    }
  }

  lemma NoDupConcat<T>(s: seq<T>, t: seq<T>)
    requires NoDup(s) && NoDup(t) && forall x | x in s :: x !in t
    ensures NoDup(s + t)
  {
    forall i, j | 0 <= i < j < |s + t| ensures (s + t)[i] != (s + t)[j] {
      if i < |s| <= j { assert s[i] in s && t[j - |s|] in t; }
    }
  }

  lemma {:induction false} NoDupCardinality<T>(s: seq<T>)
    requires NoDup(s)
    ensures |Elements(s)| == |s|
  {
    if s != [] {
      NoDupCardinality(s[1..]);
      assert Elements(s) == {s[0]} + Elements(s[1..]);
    } else {
      assert Elements(s) == {};
    }
  }

  lemma {:induction false} NoDupCounts<T>(s: seq<T>)
    ensures NoDup(s) <==> forall x | x in s :: multiset(s)[x] == 1
  {
    if s != [] {
      var t := s[1..];
      assert s == [s[0]] + t;
      NoDupCounts(t);
      assert forall x | x in t :: x in s;
      if NoDup(s) {
        assert s[0] !in t;
        forall x | x in s ensures multiset(s)[x] == 1 {
          if x != s[0] { assert x in t; }
        }
      }
      if forall x | x in s :: multiset(s)[x] == 1 {
        assert s[0] !in t;
        forall x | x in t ensures multiset(t)[x] == 1 { assert x != s[0]; }
        assert NoDup(t);
        forall i, j | 0 <= i < j < |s| ensures s[i] != s[j] {
          assert s[j] == t[j - 1];
          if i > 0 { assert s[i] == t[i - 1]; }
        }
      }
    }
  }

  lemma NoDupPermutes<T>(s: seq<T>, t: seq<T>)
    requires multiset(s) == multiset(t) && NoDup(t)
    ensures NoDup(s) && Elements(s) == Elements(t)
  {
    NoDupCounts(s);
    NoDupCounts(t);
    forall x ensures x in s <==> x in t {
      assert x in s <==> x in multiset(s);
      assert x in t <==> x in multiset(t);
    }
  }

  /** The total weight of a sequence. */
  ghost function Sum<T>(s: seq<T>, weight: T -> nat): nat {
    if s == [] then 0 else weight(s[0]) + Sum(s[1..], weight)
  }

  lemma {:induction false} SumConcat<T>(a: seq<T>, b: seq<T>, weight: T -> nat)
    ensures Sum(a + b, weight) == Sum(a, weight) + Sum(b, weight)
  {
    if a == [] {
      assert a + b == b;
    } else {
      SumConcat(a[1..], b, weight);
      assert (a + b)[1..] == a[1..] + b;
    }
  }

  lemma SumHead<T>(s: seq<T>, weight: T -> nat)
    requires s != []
    ensures Sum(s, weight) == weight(s[0]) + Sum(s[1..], weight)
  {
  }

  lemma SumPush<T>(s: seq<T>, x: T, weight: T -> nat)
    ensures Sum(s + [x], weight) == Sum(s, weight) + weight(x)
  {
    SumConcat(s, [x], weight);
    assert [x][1..] == [];
  }

  lemma SumSplit<T>(s: seq<T>, i: nat, weight: T -> nat)
    requires i < |s|
    ensures Sum(s, weight) == Sum(s[..i], weight) + weight(s[i]) + Sum(s[i + 1..], weight)
  {
    assert s == s[..i] + s[i..];
    SumConcat(s[..i], s[i..], weight);
    assert s[i..][1..] == s[i + 1..];
  }

  lemma SumUpdate<T>(s: seq<T>, i: nat, x: T, weight: T -> nat)
    requires i < |s|
    ensures Sum(s[i := x], weight) + weight(s[i]) == Sum(s, weight) + weight(x)
  {
    var u := s[i := x];
    SumSplit(s, i, weight);
    SumSplit(u, i, weight);
    assert u[..i] == s[..i] && u[i + 1..] == s[i + 1..];
  }

  lemma SumRemove<T>(s: seq<T>, i: nat, weight: T -> nat)
    requires i < |s|
    ensures Sum(s[..i] + s[i + 1..], weight) + weight(s[i]) == Sum(s, weight)
  {
    SumSplit(s, i, weight);
    SumConcat(s[..i], s[i + 1..], weight);
  }

  lemma {:induction false} SumZero<T>(s: seq<T>, weight: T -> nat)
    ensures Sum(s, weight) == 0 <==> forall i :: 0 <= i < |s| ==> weight(s[i]) == 0
  {
    if s != [] {
      SumZero(s[1..], weight);
      assert forall i :: 0 <= i < |s[1..]| ==> s[1..][i] == s[i + 1];
      if Sum(s, weight) == 0 {
        forall i | 0 <= i < |s| ensures weight(s[i]) == 0 {
          if i > 0 { assert s[i] == s[1..][i - 1]; }
        }
      }
    }
  }

  lemma {:induction false} SumFull<T>(s: seq<T>, weight: T -> nat)
    requires forall x :: weight(x) <= 1
    ensures Sum(s, weight) <= |s|
    ensures Sum(s, weight) == |s| <==> forall i :: 0 <= i < |s| ==> weight(s[i]) == 1
  {
    if s != [] {
      SumFull(s[1..], weight);
      assert forall i :: 0 <= i < |s[1..]| ==> s[1..][i] == s[i + 1];
      if Sum(s, weight) == |s| {
        forall i | 0 <= i < |s| ensures weight(s[i]) == 1 {
          if i > 0 { assert s[i] == s[1..][i - 1]; }
        }
      }
    }
  }
}
