/** Text as the repository compares it: Python's order on `str`, and sorting by it. */
module Texts {
  /** `a <= b` on texts: the first differing character decides, a prefix comes first. */
  predicate Le(a: string, b: string) {
    a == [] || (b != [] && (a[0] < b[0] || (a[0] == b[0] && Le(a[1..], b[1..]))))
  }

  /** The texts are equal up to where the first one ends, or up to a place where it has the
      smaller character. */
  ghost predicate Precedes(a: string, b: string) {
    a <= b || exists i :: DiffersAt(a, b, i) && a[i] < b[i]
  }

  ghost predicate DiffersAt(a: string, b: string, i: int)
    ensures DiffersAt(a, b, i) ==> 0 <= i < |a| && i < |b|
  {
    0 <= i < |a| && i < |b| && forall j :: 0 <= j < i ==> a[j] == b[j]
  }

  /** The order is the one of the characters. */
  lemma {:induction false} LeMeans(a: string, b: string)
    ensures Le(a, b) <==> Precedes(a, b)
  {
    if a != [] && b != [] {
      if a[0] == b[0] {
        LeMeans(a[1..], b[1..]);
        TailPrecedes(a, b);
      } else {
        assert DiffersAt(a, b, 0);
      }
    }
  }

  lemma TailPrecedes(a: string, b: string)
    requires a != [] && b != [] && a[0] == b[0]
    ensures Precedes(a, b) <==> Precedes(a[1..], b[1..])
  {
    assert a == [a[0]] + a[1..] && b == [b[0]] + b[1..];
    if i :| DiffersAt(a, b, i) && a[i] < b[i] {
      assert DiffersAt(a[1..], b[1..], i - 1);
    }
    if i :| DiffersAt(a[1..], b[1..], i) && a[1..][i] < b[1..][i] {
      assert DiffersAt(a, b, i + 1);
    }
  }

  lemma {:induction false} LeTotal(a: string, b: string)
    ensures Le(a, b) || Le(b, a)
  {
    if a != [] && b != [] && a[0] == b[0] {
      LeTotal(a[1..], b[1..]);
    }
  }

  lemma {:induction false} LeAntisymmetric(a: string, b: string)
    requires Le(a, b) && Le(b, a)
    ensures a == b
  {
    if a != [] {
      LeAntisymmetric(a[1..], b[1..]);
      assert a == [a[0]] + a[1..] && b == [b[0]] + b[1..];
    }
  }

  lemma {:induction false} LeTransitive(a: string, b: string, c: string)
    requires Le(a, b) && Le(b, c)
    ensures Le(a, c)
  {
    if a != [] && a[0] == b[0] && b[0] == c[0] {
      LeTransitive(a[1..], b[1..], c[1..]);
    }
  }

  ghost predicate Sorted(s: seq<string>) {
    forall i, j :: 0 <= i < j < |s| ==> Le(s[i], s[j])
  }

  function Insert(x: string, s: seq<string>): (r: seq<string>)
    ensures multiset(r) == multiset(s) + multiset{x}
  {
    if s == [] then [x]
    else if Le(x, s[0]) then [x] + s
    else
      assert s == [s[0]] + s[1..];
      [s[0]] + Insert(x, s[1..])
  }

  lemma {:induction false} InsertSorted(x: string, s: seq<string>)
    requires Sorted(s)
    ensures Sorted(Insert(x, s))
  {
    if s == [] {
    } else if Le(x, s[0]) {
      forall j | 0 <= j < |s| ensures Le(x, s[j]) {
        if j > 0 { LeTransitive(x, s[0], s[j]); }
      }
    } else {
      LeTotal(x, s[0]);
      InsertSorted(x, s[1..]);
      var t := Insert(x, s[1..]);
      forall j | 0 <= j < |t| ensures Le(s[0], t[j]) {
        assert t[j] in multiset(t);
        assert t[j] == x || t[j] in s[1..];
      }
    }
  }

  /** `sorted(s)`: the same texts, in order. */
  function Sort(s: seq<string>): (r: seq<string>)
    ensures multiset(r) == multiset(s)
    ensures |r| == |s|
  {
    if s == [] then [] else
      assert s == [s[0]] + s[1..];
      assert |multiset(Insert(s[0], Sort(s[1..])))| == |s|;
      Insert(s[0], Sort(s[1..]))
  }

  lemma {:induction false} SortSorted(s: seq<string>)
    ensures Sorted(Sort(s))
  {
    if s != [] {
      SortSorted(s[1..]);
      InsertSorted(s[0], Sort(s[1..]));
    }
  }

  lemma {:induction false} LeastExists(s: set<string>)
    requires s != {}
    ensures exists x :: x in s && forall y :: y in s ==> Le(x, y)
  {
    var x :| x in s;
    var rest := s - {x};
    LeTotal(x, x);
    if rest == {} {
      assert s == {x};
    } else {
      LeastExists(rest);
      var l :| l in rest && forall y :: y in rest ==> Le(l, y);
      LeTotal(x, l);
      var least := if Le(x, l) then x else l;
      forall y | y in s ensures Le(least, y) {
        if y != x && Le(x, l) { LeTransitive(x, l, y); }
      }
      assert least in s;
    }
  }

  /** The first text of a non-empty set. */
  function LeastOf(s: set<string>): (x: string)
    requires s != {}
    ensures x in s && forall y :: y in s ==> Le(x, y)
  {
    LeastExists(s);
    assert forall x, y :: x in s && y in s && Le(x, y) && Le(y, x) ==> x == y by {
      forall x, y | x in s && y in s && Le(x, y) && Le(y, x) ensures x == y {
        LeAntisymmetric(x, y);
      }
    }
    var x :| x in s && forall y :: y in s ==> Le(x, y);
    x
  }

  /** `sorted(s)` for a set of texts. */
  function SortedSet(s: set<string>): (r: seq<string>)
    ensures forall x :: x in r <==> x in s
    ensures forall i, j :: 0 <= i < j < |r| ==> r[i] != r[j]
  {
    if s == {} then [] else var x := LeastOf(s); [x] + SortedSet(s - {x})
  }

  lemma {:induction false} SortedSetSorted(s: set<string>)
    ensures Sorted(SortedSet(s))
  {
    if s != {} {
      SortedSetSorted(s - {LeastOf(s)});
      var rest := SortedSet(s - {LeastOf(s)});
      forall j | 0 <= j < |rest| ensures Le(LeastOf(s), rest[j]) {
        assert rest[j] in rest;
      }
    }
  }
}
