/** Python's ordering of str values (lexicographic by code point) and
    `sorted(list(some_set))` over strings. */
module StrOrder {

  /** Python's a < b on str. */
  predicate Below(a: string, b: string)
    decreases |a|
  {
    if |a| == 0 then |b| > 0
    else if |b| == 0 then false
    else if a[0] != b[0] then a[0] < b[0]
    else Below(a[1..], b[1..])
  }

  lemma {:induction false} BelowIrreflexive(a: string)
    ensures !Below(a, a)
    decreases |a|
  {
    if |a| > 0 {
      BelowIrreflexive(a[1..]);
    }
  }

  lemma {:induction false} BelowTransitive(a: string, b: string, c: string)
    requires Below(a, b) && Below(b, c)
    ensures Below(a, c)
    decreases |a|
  {
    if |a| > 0 && |b| > 0 && |c| > 0 && a[0] == b[0] && b[0] == c[0] {
      BelowTransitive(a[1..], b[1..], c[1..]);
    }
  }

  lemma {:induction false} BelowTotal(a: string, b: string)
    ensures a == b || Below(a, b) || Below(b, a)
    decreases |a|
  {
    if |a| > 0 && |b| > 0 && a[0] == b[0] {
      BelowTotal(a[1..], b[1..]);
      if a[1..] == b[1..] {
        assert a == [a[0]] + a[1..] && b == [b[0]] + b[1..];
      }
    }
  }

  lemma BelowAsymmetric(a: string, b: string)
    requires Below(a, b)
    ensures !Below(b, a)
  {
    if Below(b, a) {
      BelowTransitive(a, b, a);
      BelowIrreflexive(a);
    }
  }

  /** Sorted with no duplicates. */
  predicate StrictlyAscending(s: seq<string>) {
    forall i, j :: 0 <= i < j < |s| ==> Below(s[i], s[j])
  }

  /** A set of strings has exactly one strictly ascending listing. */
  lemma {:induction false} AscendingUnique(a: seq<string>, b: seq<string>)
    requires StrictlyAscending(a) && StrictlyAscending(b)
    requires forall x :: x in a <==> x in b
    ensures a == b
    decreases |a|
  {
    if |a| > 0 {
      assert a[0] in b;
    }
    if |b| > 0 {
      assert b[0] in a;
    }
    if |a| > 0 && |b| > 0 {
      if a[0] != b[0] {
        var i :| 0 <= i < |a| && a[i] == b[0];
        var j :| 0 <= j < |b| && b[j] == a[0];
        assert i != 0 && j != 0;
        assert Below(a[0], a[i]) && Below(b[0], b[j]);
        BelowAsymmetric(a[0], b[0]);
        assert false;
      }
      forall x ensures x in a[1..] <==> x in b[1..] {
        if x in a[1..] {
          var i :| 1 <= i < |a| && a[i] == x;
          assert x != a[0] by { BelowIrreflexive(x); }
          assert x in b;
          var j :| 0 <= j < |b| && b[j] == x;
          assert j != 0;
          assert b[1..][j - 1] == x;
        }
        if x in b[1..] {
          var j :| 1 <= j < |b| && b[j] == x;
          assert x != b[0] by { BelowIrreflexive(x); }
          assert x in a;
          var i :| 0 <= i < |a| && a[i] == x;
          assert i != 0;
          assert a[1..][i - 1] == x;
        }
      }
      AscendingUnique(a[1..], b[1..]);
      assert a == [a[0]] + a[1..] && b == [b[0]] + b[1..];
    }
  }

  /** m is below every other element of s. */
  predicate IsLeast(m: string, s: set<string>) {
    m in s && forall y :: y in s && y != m ==> Below(m, y)
  }

  /** A non-empty set of strings has a least element. */
  lemma {:induction false} LeastExists(s: set<string>)
    requires s != {}
    ensures exists m :: IsLeast(m, s)
    decreases |s|
  {
    var x :| x in s;
    if s == {x} {
      assert IsLeast(x, s);
    } else {
      var rest := s - {x};
      LeastExists(rest);
      var least :| IsLeast(least, rest);
      BelowTotal(x, least);
      if Below(x, least) {
        forall y | y in s && y != x
          ensures Below(x, y)
        {
          if y != least {
            assert y in rest;
            BelowTransitive(x, least, y);
          }
        }
        assert IsLeast(x, s);
      } else {
        assert IsLeast(least, s);
      }
    }
  }

  /** The ascending listing of a set of strings, least element first. */
  ghost function Ascending(s: set<string>): (r: seq<string>)
    ensures StrictlyAscending(r)
    ensures forall x :: x in r <==> x in s
    decreases |s|
  {
    if s == {} then []
    else
      LeastExists(s);
      var m :| IsLeast(m, s);
      AscendingCons(m, s, Ascending(s - {m}))
  }

  /** Putting the least element before an ascending listing of the others. */
  ghost function AscendingCons(m: string, s: set<string>, rest: seq<string>): (r: seq<string>)
    requires IsLeast(m, s)
    requires StrictlyAscending(rest) && forall x :: x in rest <==> x in s - {m}
    ensures r == [m] + rest
    ensures StrictlyAscending(r)
    ensures forall x :: x in r <==> x in s
  {
    assert forall j :: 0 <= j < |rest| ==> rest[j] in s - {m};
    [m] + rest
  }

  /** sorted(list(s)): the elements of the set in ascending order. */
  method SortedList(s: set<string>) returns (r: seq<string>)
    ensures r == Ascending(s)
  {
    r := [];
    var rest := s;
    while rest != {}
      invariant rest <= s
      invariant forall x :: x in r ==> x in s && x !in rest
      invariant forall x :: x in s ==> x in r || x in rest
      invariant StrictlyAscending(r)
      invariant forall x, y :: x in r && y in rest ==> Below(x, y)
      decreases |rest|
    {
      var m :| m in rest;
      var scan := rest - {m};
      while scan != {}
        invariant scan <= rest && m in rest && m !in scan
        invariant forall y :: y in rest && y !in scan ==> y == m || Below(m, y)
        decreases |scan|
      {
        var y :| y in scan;
        if Below(y, m) {
          forall z | z in rest && z !in scan && z != m
            ensures Below(y, z)
          {
            BelowTransitive(y, m, z);
          }
          m := y;
        } else {
          BelowTotal(m, y);
        }
        scan := scan - {y};
      }
      r := r + [m];
      rest := rest - {m};
    }
    AscendingUnique(r, Ascending(s));
  }
}
