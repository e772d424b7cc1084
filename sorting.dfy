/** The date ordering applied to a merchant group before its cadence is
    checked. The source calls Python's built-in stable list sort keyed on
    the date; it is modelled here as a stable insertion sort, and the
    lemmas show that the result is ordered by day, is a permutation of the
    input, keeps charges of the same day in their input order, and is the
    only sequence with these properties. */
module DateSort {

  /** A charge of a group once its date is known: absolute amount and day. */
  datatype Charge = Charge(amount: real, day: int)

  predicate SortedByDay(cs: seq<Charge>)
  {
    forall i, j :: 0 <= i < j < |cs| ==> cs[i].day <= cs[j].day
  }

  /** Inserts x after every charge whose day is not later than x's. */
  function InsertByDay(cs: seq<Charge>, x: Charge): (r: seq<Charge>)
    ensures multiset(r) == multiset(cs) + multiset{x}
  {
    if cs == [] then [x]
    else if cs[|cs| - 1].day > x.day then
      assert cs == cs[..|cs| - 1] + [cs[|cs| - 1]];
      InsertByDay(cs[..|cs| - 1], x) + [cs[|cs| - 1]]
    else cs + [x]
  }

  function SortByDay(cs: seq<Charge>): seq<Charge>
  {
    if cs == [] then [] else InsertByDay(SortByDay(cs[..|cs| - 1]), cs[|cs| - 1])
  }

  /** The charges of day d, in the order they appear in cs. */
  function OnDay(cs: seq<Charge>, d: int): seq<Charge>
  {
    if cs == [] then []
    else OnDay(cs[..|cs| - 1], d) + (if cs[|cs| - 1].day == d then [cs[|cs| - 1]] else [])
  }

  lemma {:induction false} InsertByDaySorted(cs: seq<Charge>, x: Charge)
    requires SortedByDay(cs)
    ensures SortedByDay(InsertByDay(cs, x))
  {
    if cs != [] && cs[|cs| - 1].day > x.day {
      var p := cs[..|cs| - 1];
      var last := cs[|cs| - 1];
      InsertByDaySorted(p, x);
      var q := InsertByDay(p, x);
      forall i | 0 <= i < |q| ensures q[i].day <= last.day {
        assert q[i] in multiset(p) + multiset{x};
        if q[i] != x {
          var k :| 0 <= k < |p| && p[k] == q[i];
          assert cs[k] == p[k];
        }
      }
      var r := q + [last];
      forall i, j | 0 <= i < j < |r| ensures r[i].day <= r[j].day {
        if j < |q| {
          assert r[i] == q[i] && r[j] == q[j];
        }
      }
    }
  }

  /** The sort orders by day and is a permutation of its input. */
  lemma {:induction false} SortByDayCorrect(cs: seq<Charge>)
    ensures SortedByDay(SortByDay(cs))
    ensures multiset(SortByDay(cs)) == multiset(cs)
    ensures |SortByDay(cs)| == |cs|
  {
    if cs != [] {
      var p := cs[..|cs| - 1];
      SortByDayCorrect(p);
      InsertByDaySorted(SortByDay(p), cs[|cs| - 1]);
      assert cs == p + [cs[|cs| - 1]];
      assert |multiset(SortByDay(cs))| == |multiset(cs)|;
    }
  }

  lemma {:induction false} OnDayConcat(a: seq<Charge>, b: seq<Charge>, d: int)
    ensures OnDay(a + b, d) == OnDay(a, d) + OnDay(b, d)
  {
    if b != [] {
      assert (a + b)[..|a + b| - 1] == a + b[..|b| - 1];
      OnDayConcat(a, b[..|b| - 1], d);
    } else {
      assert a + b == a;
    }
  }

  lemma {:induction false} OnDayMembers(cs: seq<Charge>, d: int, y: Charge)
    requires y in OnDay(cs, d)
    ensures y in cs && y.day == d
  {
    var p := cs[..|cs| - 1];
    if y in OnDay(p, d) {
      OnDayMembers(p, d, y);
      assert p <= cs;
    }
  }

  lemma {:induction false} InsertByDayOnDay(cs: seq<Charge>, x: Charge, d: int)
    ensures OnDay(InsertByDay(cs, x), d) == OnDay(cs, d) + OnDay([x], d)
  {
    assert [x][..0] == [];
    if cs == [] {
    } else if cs[|cs| - 1].day > x.day {
      var p := cs[..|cs| - 1];
      var last := cs[|cs| - 1];
      InsertByDayOnDay(p, x, d);
      OnDayConcat(InsertByDay(p, x), [last], d);
      assert [last][..0] == [];
    } else {
      OnDayConcat(cs, [x], d);
    }
  }

  /** Stability: charges of the same day keep their input order. */
  lemma {:induction false} SortByDayStable(cs: seq<Charge>, d: int)
    ensures OnDay(SortByDay(cs), d) == OnDay(cs, d)
  {
    if cs != [] {
      var p := cs[..|cs| - 1];
      var x := cs[|cs| - 1];
      SortByDayStable(p, d);
      InsertByDayOnDay(SortByDay(p), x, d);
      assert [x][..0] == [];
    }
  }

  lemma {:induction false} OnDayOfLast(cs: seq<Charge>)
    requires cs != []
    ensures OnDay(cs, cs[|cs| - 1].day) != []
  {
  }

  /** Dropping the last charge drops the last charge of its day. */
  lemma OnDayDropLast(cs: seq<Charge>, d: int)
    requires cs != []
    ensures var o := OnDay(cs, d);
      OnDay(cs[..|cs| - 1], d) == if cs[|cs| - 1].day == d then o[..|o| - 1] else o
  {
  }

  /** In a day-ordered sequence no charge is later than the last one. */
  lemma SortedLastLatest(cs: seq<Charge>, y: Charge)
    requires SortedByDay(cs) && y in cs
    ensures y.day <= cs[|cs| - 1].day
  {
    var i :| 0 <= i < |cs| && cs[i] == y;
    if i < |cs| - 1 {
      assert cs[i].day <= cs[|cs| - 1].day;
    }
  }

  /** The charges on the last charge's day end with that charge. */
  lemma OnDayEndsWithLast(cs: seq<Charge>)
    requires cs != []
    ensures var o := OnDay(cs, cs[|cs| - 1].day); o != [] && o[|o| - 1] == cs[|cs| - 1]
  {
  }

  /** Two day-ordered non-empty sequences with the same charges on every
      day end with the same charge. */
  lemma SortedLastEqual(a: seq<Charge>, b: seq<Charge>)
    requires a != [] && b != []
    requires SortedByDay(a) && SortedByDay(b)
    requires forall d :: OnDay(a, d) == OnDay(b, d)
    ensures a[|a| - 1] == b[|b| - 1]
  {
    var x, y := a[|a| - 1], b[|b| - 1];
    OnDayEndsWithLast(a);
    OnDayEndsWithLast(b);
    var oa, ob := OnDay(a, x.day), OnDay(b, y.day);
    assert OnDay(b, x.day) == oa;
    OnDayMembers(b, x.day, oa[|oa| - 1]);
    SortedLastLatest(b, oa[|oa| - 1]);
    assert OnDay(a, y.day) == ob;
    OnDayMembers(a, y.day, ob[|ob| - 1]);
    SortedLastLatest(a, ob[|ob| - 1]);
    assert x.day == y.day;
  }

  /** Two day-ordered sequences with the same charges on every day, in the
      same order, are equal: any stable sort by day gives SortByDay. */
  lemma {:induction false} SortedUnique(a: seq<Charge>, b: seq<Charge>)
    requires SortedByDay(a) && SortedByDay(b)
    requires forall d :: OnDay(a, d) == OnDay(b, d)
    ensures a == b
    decreases |a|
  {
    if a == [] || b == [] {
      // the non-empty one has a non-empty day, which the other lacks
      if b != [] {
        OnDayOfLast(b);
      } else if a != [] {
        OnDayOfLast(a);
      }
    } else {
      var a', b' := a[..|a| - 1], b[..|b| - 1];
      SortedLastEqual(a, b);
      forall d ensures OnDay(a', d) == OnDay(b', d) {
        OnDayDropLast(a, d);
        OnDayDropLast(b, d);
      }
      SortedUnique(a', b');
      assert a == a' + [a[|a| - 1]] && b == b' + [b[|b| - 1]];
    }
  }
}
