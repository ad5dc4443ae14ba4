/** Python's sorted() on strings: lexicographic order by code point. */
module Sorting {
  import opened Prelude

  predicate Leq(a: string, b: string) {
    a == [] || (b != [] && (a[0] < b[0] || (a[0] == b[0] && Leq(a[1..], b[1..]))))
  }

  lemma {:induction false} LeqIsTotal(a: string, b: string)
    ensures Leq(a, b) || Leq(b, a)
  {
    if a != [] && b != [] && a[0] == b[0] {
      LeqIsTotal(a[1..], b[1..]);
    }
  }

  lemma {:induction false} LeqIsAntisymmetric(a: string, b: string)
    requires Leq(a, b) && Leq(b, a)
    ensures a == b
  {
    if a != [] {
      LeqIsAntisymmetric(a[1..], b[1..]);
      assert a == [a[0]] + a[1..] && b == [b[0]] + b[1..];
    }
  }

  lemma {:induction false} LeqIsTransitive(a: string, b: string, c: string)
    requires Leq(a, b) && Leq(b, c)
    ensures Leq(a, c)
  {
    if a != [] && a[0] == b[0] == c[0] {
      LeqIsTransitive(a[1..], b[1..], c[1..]);
    }
  }

  lemma {:induction false} LeastExists(xs: set<string>) returns (least: string)
    requires xs != {}
    ensures least in xs && forall y :: y in xs ==> Leq(least, y)
  {
    least :| least in xs;
    var rest := xs - {least};
    if rest != {} {
      var other := LeastExists(rest);
      LeqIsTotal(least, other);
      if Leq(other, least) {
        LeqIsTotal(other, other);
        least := other;
      } else {
        forall y | y in xs ensures Leq(least, y) {
          LeqIsTotal(y, y);
          if y != least {
            LeqIsTransitive(least, other, y);
          }
        }
      }
    } else {
      LeqIsTotal(least, least);
      assert xs == {least};
    }
  }

  predicate IsLeast(x: string, xs: set<string>) {
    x in xs && forall y :: y in xs ==> Leq(x, y)
  }

  lemma LeastIsUnique(xs: set<string>)
    requires xs != {}
    ensures exists x :: IsLeast(x, xs)
    ensures forall x, y :: IsLeast(x, xs) && IsLeast(y, xs) ==> x == y
  {
    var least := LeastExists(xs);
    assert IsLeast(least, xs);
    forall x, y | IsLeast(x, xs) && IsLeast(y, xs) ensures x == y {
      LeqIsAntisymmetric(x, y);
    }
  }

  function Least(xs: set<string>): (least: string)
    requires xs != {}
    ensures IsLeast(least, xs)
  {
    LeastIsUnique(xs);
    var x :| x in xs && IsLeast(x, xs);
    x
  }

  /** sorted() of a set. */
  function SortedSet(xs: set<string>): seq<string> {
    if xs == {} then []
    else
      var x := Least(xs);
      [x] + SortedSet(xs - {x})
  }

  lemma SortedSetMember(xs: set<string>, i: nat)
    requires i < |SortedSet(xs)|
    ensures SortedSet(xs)[i] in xs
  {
    SortedSetElements(xs);
    assert SortedSet(xs)[i] in Elements(SortedSet(xs));
  }

  lemma {:induction false} SortedSetElements(xs: set<string>)
    ensures |SortedSet(xs)| == |xs| && Elements(SortedSet(xs)) == xs
  {
    if xs != {} {
      var x := Least(xs);
      var rest := SortedSet(xs - {x});
      SortedSetElements(xs - {x});
      assert Elements([x] + rest) == {x} + Elements(rest);
    }
  }

  ghost predicate Sorted(s: seq<string>) {
    forall i, j :: 0 <= i < j < |s| ==> Leq(s[i], s[j])
  }

  lemma {:induction false} SortedSetIsSorted(xs: set<string>)
    ensures Sorted(SortedSet(xs))
  {
    var s := SortedSet(xs);
    SortedSetElements(xs);
    if s != [] {
      SortedSetIsSorted(xs - {s[0]});
      assert s[1..] == SortedSet(xs - {s[0]});
      forall i, j | 0 <= i < j < |s| ensures Leq(s[i], s[j]) {
        if i == 0 {
          assert s[j] in Elements(s);
        } else {
          assert s[i] == s[1..][i - 1] && s[j] == s[1..][j - 1];
        }
      }
    }
  }

  /** sorted() of a list, by insertion. */
  function Insert(x: string, s: seq<string>): seq<string> {
    if s == [] || Leq(x, s[0]) then [x] + s else [s[0]] + Insert(x, s[1..])
  }

  function SortedSeq(s: seq<string>): seq<string> {
    if s == [] then [] else Insert(s[0], SortedSeq(s[1..]))
  }

  lemma {:induction false} InsertKeepsOrder(x: string, s: seq<string>)
    requires Sorted(s)
    ensures Sorted(Insert(x, s)) && multiset(Insert(x, s)) == multiset(s) + multiset{x}
  {
    if s == [] {
    } else if Leq(x, s[0]) {
      forall j | 0 <= j < |s| ensures Leq(x, s[j]) {
        if j > 0 {
          LeqIsTransitive(x, s[0], s[j]);
        }
      }
    } else {
      LeqIsTotal(x, s[0]);
      InsertKeepsOrder(x, s[1..]);
      assert s == [s[0]] + s[1..];
      FirstStaysFirst(x, s, Insert(x, s[1..]));
    }
  }

  lemma FirstStaysFirst(x: string, s: seq<string>, rest: seq<string>)
    requires s != [] && Sorted(s) && Sorted(rest) && Leq(s[0], x) && multiset(rest) == multiset(s[1..]) + multiset{x}
    ensures Sorted([s[0]] + rest)
  {
    forall j | 0 <= j < |rest| ensures Leq(s[0], rest[j]) {
      assert rest[j] in multiset(rest);
      assert rest[j] == x || rest[j] in s[1..];
    }
  }

  lemma {:induction false} SortedSeqSorts(s: seq<string>)
    ensures Sorted(SortedSeq(s)) && multiset(SortedSeq(s)) == multiset(s)
  {
    if s != [] {
      SortedSeqSorts(s[1..]);
      InsertKeepsOrder(s[0], SortedSeq(s[1..]));
      assert s == [s[0]] + s[1..];
    }
  }

  lemma HeadsAgree(s: seq<string>, t: seq<string>)
    requires Sorted(s) && Sorted(t) && multiset(s) == multiset(t) && s != [] && t != []
    ensures s[0] == t[0]
  {
    assert s[0] in multiset(t) && t[0] in multiset(s);
    var i :| 0 <= i < |t| && t[i] == s[0];
    var j :| 0 <= j < |s| && s[j] == t[0];
    LeqIsTotal(s[0], s[0]);
    LeqIsAntisymmetric(s[0], t[0]);
  }

  lemma TailMultiset(s: seq<string>)
    requires s != []
    ensures multiset(s[1..]) == multiset(s) - multiset{s[0]}
  {
    assert s == [s[0]] + s[1..];
  }

  lemma {:induction false} SortedIsUnique(s: seq<string>, t: seq<string>)
    requires Sorted(s) && Sorted(t) && multiset(s) == multiset(t)
    ensures s == t
  {
    assert |s| == |multiset(s)| == |multiset(t)| == |t|;
    if s != [] {
      HeadsAgree(s, t);
      TailMultiset(s);
      TailMultiset(t);
      SortedIsUnique(s[1..], t[1..]);
      assert s == [s[0]] + s[1..] && t == [t[0]] + t[1..];
    }
  }

  lemma {:induction false} DistinctCountsOnce<T(!new)>(s: seq<T>)
    requires Distinct(s)
    ensures multiset(s) == multiset(Elements(s))
  {
    if s != [] {
      var init, last := s[..|s| - 1], s[|s| - 1];
      DistinctCountsOnce(init);
      assert s == init + [last];
      assert Elements(s) == Elements(init) + {last} && last !in init;
    }
  }

  /** Sorting a list equals sorting a set exactly when the list holds each element of the set once. */
  lemma SortingAgrees(s: seq<string>, xs: set<string>)
    ensures SortedSeq(s) == SortedSet(xs) <==> Distinct(s) && Elements(s) == xs
  {
    SortedSeqSorts(s);
    SortedSetIsSorted(xs);
    SortedSetElements(xs);
    var t := SortedSet(xs);
    CountFindsRepetition(t);
    DistinctCountsOnce(t);
    if Distinct(s) && Elements(s) == xs {
      DistinctCountsOnce(s);
      SortedIsUnique(SortedSeq(s), t);
    }
    if SortedSeq(s) == t {
      assert multiset(s) == multiset(t);
      assert forall x :: x in s <==> x in multiset(s);
      assert forall x :: x in t <==> x in multiset(t);
      assert Elements(s) == Elements(t);
      assert |s| == |multiset(s)| == |t|;
      CountFindsRepetition(s);
    }
  }
}
