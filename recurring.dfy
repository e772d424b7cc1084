/** Recurring-bill detection (detect_recurring_bills). Transactions whose
    absolute amount is below 5 are dropped; the rest are grouped by display
    name in first-occurrence order; a group of two or more becomes a monthly
    bill when every gap between consecutive charges, in date order, lies in
    25..35 days and the spread of its amounts is under 30% of their mean.

    The specification is the function Detect; the method
    DetectRecurringBills performs the source's loops and is proved to
    compute it. The lemmas state what Detect promises. */
module RecurringBills {
  import opened Wrappers
  import opened Transactions
  import opened BillClassifier
  import opened DateSort

  const MinBillAmount: real := 5.0
  const MinGapDays: int := 25
  const MaxGapDays: int := 35
  /** A group is rejected unless (max - min) / mean is below this. */
  const MaxSpreadRatio: real := 0.3
  const RiseFactor: real := 1.1
  const FallFactor: real := 0.9

  /** A kept charge as stored in its name group: its absolute amount and
      its date, which may be missing. */
  datatype Entry = Entry(amount: real, date: Option<int>)

  datatype Frequency = Monthly

  datatype Trend = Stable | Increasing | Decreasing

  datatype Bill = Bill(
    merchant: string,
    amount: real,
    frequency: Frequency,
    billType: BillType,
    lastPaid: int,
    transactionCount: nat,
    amountTrend: Trend,
    amountHistory: seq<real>)

  /** Sorting or parsing the dates of a group failed: one is missing. */
  datatype DetectError = MissingDate

  // ---------------------------------------------------------------------
  // Reading a transaction

  /** The grouping key: the name, or "Unknown" when the record has none. */
  function GroupKey(t: Transaction): string
  {
    if t.name.Some? then t.name.value else "Unknown"
  }

  /** The absolute amount; a missing amount counts as 0. */
  function AbsAmount(t: Transaction): (r: real)
    ensures r >= 0.0
    ensures t.amount.Some? ==> r == t.amount.value || r == -t.amount.value
    ensures t.amount.None? ==> r == 0.0
  {
    var a := if t.amount.Some? then t.amount.value else 0.0;
    if a < 0.0 then -a else a
  }

  /** A transaction that takes part in grouping. */
  predicate Kept(t: Transaction)
  {
    AbsAmount(t) >= MinBillAmount
  }

  // ---------------------------------------------------------------------
  // Grouping

  /** The names of kept transactions, each once, in first-occurrence order. */
  function GroupNames(ts: seq<Transaction>): seq<string>
  {
    if ts == [] then []
    else
      var p := GroupNames(ts[..|ts| - 1]);
      var t := ts[|ts| - 1];
      if Kept(t) && GroupKey(t) !in p then p + [GroupKey(t)] else p
  }

  /** The kept charges named n, in input order. */
  function GroupOf(ts: seq<Transaction>, n: string): seq<Entry>
  {
    if ts == [] then []
    else
      var t := ts[|ts| - 1];
      GroupOf(ts[..|ts| - 1], n) + (if Kept(t) && GroupKey(t) == n then [Entry(AbsAmount(t), t.date)] else [])
  }

  /** Each name is listed once. */
  lemma {:induction false} GroupNamesDistinct(ts: seq<Transaction>)
    ensures forall i, j :: 0 <= i < j < |GroupNames(ts)| ==> GroupNames(ts)[i] != GroupNames(ts)[j]
  {
    if ts != [] {
      var p := ts[..|ts| - 1];
      GroupNamesDistinct(p);
      var names, pn := GroupNames(ts), GroupNames(p);
      if names != pn {
        var key := GroupKey(ts[|ts| - 1]);
        assert names == pn + [key] && key !in pn;
        forall i, j | 0 <= i < j < |names| ensures names[i] != names[j] {
          if j == |pn| {
            assert names[i] == pn[i] && pn[i] in pn;
          } else {
            assert names[i] == pn[i] && names[j] == pn[j];
          }
        }
      }
    }
  }

  /** A group holds only charges of at least the minimum bill amount, and
      it is non-empty exactly when its name is listed. */
  lemma {:induction false} GroupOfFacts(ts: seq<Transaction>, n: string)
    ensures forall k :: 0 <= k < |GroupOf(ts, n)| ==> GroupOf(ts, n)[k].amount >= MinBillAmount
    ensures GroupOf(ts, n) != [] <==> n in GroupNames(ts)
  {
    if ts != [] {
      GroupOfFacts(ts[..|ts| - 1], n);
    }
  }

  /** A kept transaction's name is among the group names. */
  lemma {:induction false} KeptInNames(ts: seq<Transaction>, j: nat)
    requires j < |ts| && Kept(ts[j])
    ensures GroupKey(ts[j]) in GroupNames(ts)
  {
    var p := ts[..|ts| - 1];
    if j < |ts| - 1 {
      KeptInNames(p, j);
    }
  }

  lemma NoKeptOutsideNames(ts: seq<Transaction>, n: string)
    requires n !in GroupNames(ts)
    ensures forall j :: 0 <= j < |ts| ==> !(Kept(ts[j]) && GroupKey(ts[j]) == n)
  {
    forall j | 0 <= j < |ts| && Kept(ts[j]) ensures GroupKey(ts[j]) != n {
      KeptInNames(ts, j);
    }
  }

  /** The position of the first kept transaction named n. */
  function FirstKept(ts: seq<Transaction>, n: string): (k: nat)
    requires n in GroupNames(ts)
    ensures k < |ts| && Kept(ts[k]) && GroupKey(ts[k]) == n
    ensures forall j :: 0 <= j < k ==> !(Kept(ts[j]) && GroupKey(ts[j]) == n)
  {
    var p := ts[..|ts| - 1];
    if n in GroupNames(p) then FirstKept(p, n)
    else NoKeptOutsideNames(p, n); |ts| - 1
  }

  /** The names are listed in order of their first kept transaction. */
  predicate ByFirstOccurrence(ts: seq<Transaction>, names: seq<string>)
  {
    forall i, j :: 0 <= i < j < |names| ==>
      names[i] in GroupNames(ts) && names[j] in GroupNames(ts) &&
      FirstKept(ts, names[i]) < FirstKept(ts, names[j])
  }

  /** Group names appear in first-occurrence order (the order of Python's
      dict insertion). */
  lemma {:induction false} GroupNamesByFirstOccurrence(ts: seq<Transaction>)
    ensures ByFirstOccurrence(ts, GroupNames(ts))
  {
    if ts != [] {
      var p := ts[..|ts| - 1];
      GroupNamesByFirstOccurrence(p);
      var names, pn := GroupNames(ts), GroupNames(p);
      forall m | m in pn ensures m in names && FirstKept(ts, m) == FirstKept(p, m) < |p| {
      }
      if names != pn {
        assert names == pn + [names[|names| - 1]];
        assert FirstKept(ts, names[|names| - 1]) == |p|;
      }
    }
  }

  predicate AllDated(g: seq<Entry>)
  {
    forall k :: 0 <= k < |g| ==> g[k].date.Some?
  }

  function ToCharges(g: seq<Entry>): seq<Charge>
    requires AllDated(g)
  {
    seq(|g|, k requires 0 <= k < |g| => Charge(g[k].amount, g[k].date.value))
  }

  function Amounts(cs: seq<Charge>): seq<real>
  {
    seq(|cs|, k requires 0 <= k < |cs| => cs[k].amount)
  }

  function Days(cs: seq<Charge>): seq<int>
  {
    seq(|cs|, k requires 0 <= k < |cs| => cs[k].day)
  }

  // ---------------------------------------------------------------------
  // Arithmetic over amount lists (Python's sum, max, min)

  function Sum(s: seq<real>): real
  {
    if s == [] then 0.0 else Sum(s[..|s| - 1]) + s[|s| - 1]
  }

  function Max(s: seq<real>): (r: real)
    requires s != []
    ensures r in s
    ensures forall k :: 0 <= k < |s| ==> s[k] <= r
  {
    if |s| == 1 then s[0]
    else
      var m := Max(s[..|s| - 1]);
      if s[|s| - 1] > m then s[|s| - 1] else m
  }

  function Min(s: seq<real>): (r: real)
    requires s != []
    ensures r in s
    ensures forall k :: 0 <= k < |s| ==> r <= s[k]
  {
    if |s| == 1 then s[0]
    else
      var m := Min(s[..|s| - 1]);
      if s[|s| - 1] < m then s[|s| - 1] else m
  }

  function MaxDay(s: seq<int>): (r: int)
    requires s != []
    ensures r in s
    ensures forall k :: 0 <= k < |s| ==> s[k] <= r
  {
    if |s| == 1 then s[0]
    else
      var m := MaxDay(s[..|s| - 1]);
      if s[|s| - 1] > m then s[|s| - 1] else m
  }

  function Mean(s: seq<real>): real
    requires s != []
  {
    Sum(s) / (|s| as real)
  }

  lemma {:induction false} SumBounds(s: seq<real>, lo: real, hi: real)
    requires forall k :: 0 <= k < |s| ==> lo <= s[k] <= hi
    ensures lo * (|s| as real) <= Sum(s) <= hi * (|s| as real)
  {
    if s != [] {
      SumBounds(s[..|s| - 1], lo, hi);
    }
  }

  lemma DivideBounds(x: real, n: real, lo: real, hi: real)
    requires n > 0.0
    requires lo * n <= x <= hi * n
    ensures lo <= x / n <= hi
  {
    var m := x / n;
    assert m * n == x;
  }

  /** The mean lies between the least and the greatest amount. */
  lemma MeanBounds(s: seq<real>)
    requires s != []
    ensures Min(s) <= Mean(s) <= Max(s)
  {
    SumBounds(s, Min(s), Max(s));
    DivideBounds(Sum(s), |s| as real, Min(s), Max(s));
  }

  // ---------------------------------------------------------------------
  // Trend

  /** The trend label of a chronological amount history: with three or
      more amounts, the mean of the last two is compared with 110% and 90%
      of the mean of the others. */
  function AmountTrend(amounts: seq<real>): Trend
  {
    if |amounts| < 3 then Stable
    else
      var recentAvg := Mean(amounts[|amounts| - 2..]);
      var olderAvg := Mean(amounts[..|amounts| - 2]);
      if recentAvg > olderAvg * RiseFactor then Increasing
      else if recentAvg < olderAvg * FallFactor then Decreasing
      else Stable
  }

  /** The two means of the trend rule, as the source computes them. */
  lemma TrendMeans(amounts: seq<real>)
    requires |amounts| >= 3
    ensures Mean(amounts[|amounts| - 2..]) == Sum(amounts[|amounts| - 2..]) / 2.0
    ensures Mean(amounts[..|amounts| - 2]) == Sum(amounts[..|amounts| - 2]) / ((|amounts| - 2) as real)
  {
  }

  lemma {:induction false} SumConstant(s: seq<real>, c: real)
    requires forall k :: 0 <= k < |s| ==> s[k] == c
    ensures Sum(s) == c * (|s| as real)
  {
    if s != [] {
      SumConstant(s[..|s| - 1], c);
    }
  }

  /** A history whose amounts never change is stable. */
  lemma ConstantHistoryStable(amounts: seq<real>)
    requires forall k :: 0 <= k < |amounts| ==> amounts[k] == amounts[0]
    requires forall k :: 0 <= k < |amounts| ==> amounts[k] > 0.0
    ensures AmountTrend(amounts) == Stable
  {
    if |amounts| >= 3 {
      var n, c := |amounts|, amounts[0];
      var recent, older := amounts[n - 2..], amounts[..n - 2];
      assert forall k :: 0 <= k < |recent| ==> recent[k] == amounts[n - 2 + k];
      assert forall k :: 0 <= k < |older| ==> older[k] == amounts[k];
      SumConstant(recent, c);
      SumConstant(older, c);
      DivideBounds(Sum(older), (n - 2) as real, c, c);
      assert Sum(recent) / 2.0 == c;
      assert Sum(older) / ((n - 2) as real) == c;
    }
  }

  /** With positive amounts, "increasing" means the recent mean is above the
      older one and "decreasing" that it is below. */
  lemma TrendDirection(amounts: seq<real>)
    requires |amounts| >= 3
    requires forall k :: 0 <= k < |amounts| ==> amounts[k] > 0.0
    ensures var recent, older := Mean(amounts[|amounts| - 2..]), Mean(amounts[..|amounts| - 2]);
      && (AmountTrend(amounts) == Increasing ==> recent > older)
      && (AmountTrend(amounts) == Decreasing ==> recent < older)
  {
    var older := amounts[..|amounts| - 2];
    SumBounds(older, 0.0, Max(older));
    assert Sum(older) >= 0.0;
  }

  // ---------------------------------------------------------------------
  // One group

  /** The group's charges in date order. */
  function Chronological(g: seq<Entry>): (r: seq<Charge>)
    requires AllDated(g)
    ensures |r| == |g|
  {
    SortByDayCorrect(ToCharges(g));
    SortByDay(ToCharges(g))
  }

  predicate IsMonthly(days: seq<int>)
  {
    forall i :: 1 <= i < |days| ==> MinGapDays <= days[i] - days[i - 1] <= MaxGapDays
  }

  /** The chronological list has the group's length, and every amount in
      it is one of the group's, so at least the minimum bill amount. */
  lemma ChronologicalFacts(g: seq<Entry>)
    requires AllDated(g)
    requires forall k :: 0 <= k < |g| ==> g[k].amount >= MinBillAmount
    ensures |Chronological(g)| == |g|
    ensures SortedByDay(Chronological(g))
    ensures forall k :: 0 <= k < |g| ==> Chronological(g)[k].amount >= MinBillAmount
  {
    var cs := ToCharges(g);
    SortByDayCorrect(cs);
    var s := Chronological(g);
    forall k | 0 <= k < |g| ensures s[k].amount >= MinBillAmount {
      assert s[k] in multiset(cs);
      var i :| 0 <= i < |cs| && cs[i] == s[k];
    }
  }

  /** The amount variance of the source: the greatest amount less the
      least. */
  function AmountVariance(amounts: seq<real>): real
    requires amounts != []
  {
    Max(amounts) - Min(amounts)
  }

  /** The amount variance relative to an average amount. */
  function VarianceRatio(amounts: seq<real>, avg: real): real
    requires amounts != [] && avg != 0.0
  {
    AmountVariance(amounts) / avg
  }

  /** The amount-stability test: the spread of the amounts, relative to
      their mean, is below the tolerance. Every amount of a group is at
      least the minimum bill amount, so the mean is never 0 there
      (BillAmounts). */
  predicate StableAmounts(amounts: seq<real>)
  {
    amounts != [] && Mean(amounts) != 0.0 &&
    VarianceRatio(amounts, Mean(amounts)) < MaxSpreadRatio
  }

  /** The record of an accepted group, from its chronological days and
      amounts and its size. */
  function MakeBill(name: string, days: seq<int>, amounts: seq<real>, count: nat): Bill
    requires days != [] && amounts != []
  {
    var avg := Mean(amounts);
    Bill(name, avg, Monthly, ClassifyBillType(name, avg), MaxDay(days), count, AmountTrend(amounts), amounts)
  }

  /** The bill built for a group of at least two dated charges, or None when
      the group fails the cadence or the amount-stability test. */
  function GroupBill(name: string, g: seq<Entry>): (r: Option<Bill>)
    requires |g| >= 2 && AllDated(g)
    ensures r.Some? ==> r.value.merchant == name
  {
    var sorted := Chronological(g);
    var days, amounts := Days(sorted), Amounts(sorted);
    if IsMonthly(days) && StableAmounts(amounts) then Some(MakeBill(name, days, amounts, |g|))
    else None
  }

  // ---------------------------------------------------------------------
  // What one accepted group yields

  /** The charge of a group with the given position reappears, with the
      same day, in the chronological list. */
  lemma ChronologicalDay(g: seq<Entry>, k: nat)
    requires AllDated(g) && k < |g|
    ensures exists j :: 0 <= j < |Chronological(g)| && Chronological(g)[j].day == g[k].date.value
  {
    var cs := ToCharges(g);
    SortByDayCorrect(cs);
    assert cs[k] in multiset(Chronological(g));
  }

  /** And each charge of the chronological list comes from the group. */
  lemma ChronologicalSource(g: seq<Entry>, j: nat)
    requires AllDated(g) && j < |Chronological(g)|
    ensures exists k :: 0 <= k < |g| && g[k].date == Some(Chronological(g)[j].day)
  {
    var cs := ToCharges(g);
    SortByDayCorrect(cs);
    assert Chronological(g)[j] in multiset(cs);
    var k :| 0 <= k < |cs| && cs[k] == Chronological(g)[j];
  }

  /** The record of an accepted group: its count equals the history length
      (at least 2), the history is the group's amounts in date order, the
      dates are monthly, the amounts stable, and the amount, type and trend
      are derived from the history. */
  lemma BillRecord(name: string, g: seq<Entry>, b: Bill)
    requires |g| >= 2 && AllDated(g)
    requires forall k :: 0 <= k < |g| ==> g[k].amount >= MinBillAmount
    requires GroupBill(name, g) == Some(b)
    ensures b.merchant == name && b.frequency == Monthly
    ensures b.transactionCount == |b.amountHistory| == |g| >= 2
    ensures b.amountHistory == Amounts(Chronological(g))
    ensures IsMonthly(Days(Chronological(g)))
    ensures StableAmounts(b.amountHistory)
    ensures b.amount == Mean(b.amountHistory)
    ensures b.billType == ClassifyBillType(name, b.amount)
    ensures b.amountTrend == AmountTrend(b.amountHistory)
    ensures b.lastPaid == MaxDay(Days(Chronological(g)))
  {
    ChronologicalFacts(g);
  }

  /** The amounts of a reported bill: every entry of the history is at
      least the minimum bill amount, the amount lies between the least and
      the greatest entry, and the spread is under 30% of the amount. */
  lemma BillAmounts(name: string, g: seq<Entry>, b: Bill)
    requires |g| >= 2 && AllDated(g)
    requires forall k :: 0 <= k < |g| ==> g[k].amount >= MinBillAmount
    requires GroupBill(name, g) == Some(b)
    ensures forall k :: 0 <= k < |b.amountHistory| ==> b.amountHistory[k] >= MinBillAmount
    ensures Min(b.amountHistory) <= b.amount <= Max(b.amountHistory)
    ensures VarianceRatio(b.amountHistory, b.amount) < MaxSpreadRatio
  {
    BillHistory(name, g, b);
    ChronologicalFacts(g);
    HistoryAtLeast(Chronological(g));
    MeanBounds(b.amountHistory);
  }

  /** The amount fields alone of BillRecord. */
  lemma BillHistory(name: string, g: seq<Entry>, b: Bill)
    requires |g| >= 2 && AllDated(g)
    requires GroupBill(name, g) == Some(b)
    ensures b.amountHistory == Amounts(Chronological(g))
    ensures StableAmounts(b.amountHistory) && b.amount == Mean(b.amountHistory)
  {
  }

  lemma HistoryAtLeast(cs: seq<Charge>)
    requires forall k :: 0 <= k < |cs| ==> cs[k].amount >= MinBillAmount
    ensures forall k :: 0 <= k < |Amounts(cs)| ==> Amounts(cs)[k] >= MinBillAmount
  {
  }

  /** The last-paid day of a reported bill is the latest date of its group,
      one of the group's own dates, and the date of the last history entry. */
  lemma BillLastPaid(name: string, g: seq<Entry>, b: Bill)
    requires |g| >= 2 && AllDated(g)
    requires forall k :: 0 <= k < |g| ==> g[k].amount >= MinBillAmount
    requires GroupBill(name, g) == Some(b)
    ensures forall k :: 0 <= k < |g| ==> g[k].date.value <= b.lastPaid
    ensures exists k :: 0 <= k < |g| && g[k].date == Some(b.lastPaid)
    ensures |Chronological(g)| == |g| && b.lastPaid == Chronological(g)[|g| - 1].day
  {
    BillRecord(name, g, b);
    ChronologicalFacts(g);
    var days := Days(Chronological(g));
    forall k | 0 <= k < |g| ensures g[k].date.value <= b.lastPaid {
      ChronologicalDay(g, k);
    }
    var j :| 0 <= j < |days| && days[j] == b.lastPaid;
    ChronologicalSource(g, j);
    assert days[j] <= days[|g| - 1];
  }

  // ---------------------------------------------------------------------
  // The whole batch

  /** A group whose dates can be sorted: fewer than two charges are never
      sorted, so only larger groups need every date. */
  predicate GroupDated(ts: seq<Transaction>, n: string)
  {
    |GroupOf(ts, n)| < 2 || AllDated(GroupOf(ts, n))
  }

  /** The bill emitted for name n, if any. */
  function BillOf(ts: seq<Transaction>, n: string): (r: Option<Bill>)
    ensures r.Some? ==> r.value.merchant == n
  {
    var g := GroupOf(ts, n);
    if |g| < 2 || !AllDated(g) then None else GroupBill(n, g)
  }

  lemma BillOfSmall(ts: seq<Transaction>, n: string)
    requires |GroupOf(ts, n)| < 2
    ensures GroupDated(ts, n) && BillsOf(ts)(n) == None
  {
  }

  lemma BillOfGroup(ts: seq<Transaction>, n: string)
    requires |GroupOf(ts, n)| >= 2 && AllDated(GroupOf(ts, n))
    ensures GroupDated(ts, n) && BillsOf(ts)(n) == GroupBill(n, GroupOf(ts, n))
  {
  }

  /** BillOf for a fixed batch, as a function of the name. */
  function BillsOf(ts: seq<Transaction>): string -> Option<Bill>
  {
    n => BillOf(ts, n)
  }

  /** A bill function whose bills carry the name they were asked for. */
  ghost predicate Labelled(billOf: string -> Option<Bill>)
  {
    forall m :: billOf(m).Some? ==> billOf(m).value.merchant == m
  }

  lemma BillsOfLabelled(ts: seq<Transaction>)
    ensures Labelled(BillsOf(ts))
  {
    forall m ensures BillsOf(ts)(m).Some? ==> BillsOf(ts)(m).value.merchant == m {
      assert BillsOf(ts)(m) == BillOf(ts, m);
    }
  }

  /** Zero or one bill as a list. */
  function BillSeq(o: Option<Bill>): (r: seq<Bill>)
    ensures |r| <= 1 && (r != [] <==> o.Some?)
    ensures o.Some? ==> r[0] == o.value
  {
    match o
    case Some(b) => [b]
    case None => []
  }

  /** The bills of the names, in name order. */
  function EmitBills(names: seq<string>, billOf: string -> Option<Bill>): seq<Bill>
  {
    if names == [] then []
    else EmitBills(names[..|names| - 1], billOf) + BillSeq(billOf(names[|names| - 1]))
  }

  /** One more name, at most one more bill. */
  lemma EmitBillsStep(names: seq<string>, billOf: string -> Option<Bill>, k: nat)
    requires k < |names|
    ensures EmitBills(names[..k + 1], billOf) == EmitBills(names[..k], billOf) + BillSeq(billOf(names[k]))
  {
    assert names[..k + 1][..k] == names[..k];
  }

  /** The result of detect_recurring_bills: the error when some group of two
      or more kept charges has a missing date, else the bills in group
      order. */
  function Detect(ts: seq<Transaction>): Result<seq<Bill>, DetectError>
  {
    if exists n :: n in GroupNames(ts) && !GroupDated(ts, n) then Err(MissingDate)
    else Ok(EmitBills(GroupNames(ts), BillsOf(ts)))
  }

  /** The two outcomes of Detect, as the procedure reaches them. */
  lemma DetectErr(ts: seq<Transaction>, n: string)
    requires n in GroupNames(ts) && !GroupDated(ts, n)
    ensures Detect(ts) == Err(MissingDate)
  {
  }

  lemma DetectOk(ts: seq<Transaction>, bills: seq<Bill>)
    requires forall j :: 0 <= j < |GroupNames(ts)| ==> GroupDated(ts, GroupNames(ts)[j])
    requires bills == EmitBills(GroupNames(ts), BillsOf(ts))
    ensures Detect(ts) == Ok(bills)
  {
  }

  // ---------------------------------------------------------------------
  // Emitting bills for a list of names

  lemma {:induction false} EmitBillsCongruent(names: seq<string>, f1: string -> Option<Bill>, f2: string -> Option<Bill>)
    requires forall n :: n in names ==> f1(n) == f2(n)
    ensures EmitBills(names, f1) == EmitBills(names, f2)
  {
    if names != [] {
      EmitBillsCongruent(names[..|names| - 1], f1, f2);
    }
  }

  /** The bill for name n in a bill list, the last one if there are several. */
  function LookupBill(bills: seq<Bill>, n: string): Option<Bill>
  {
    if bills == [] then None
    else if bills[|bills| - 1].merchant == n then Some(bills[|bills| - 1])
    else LookupBill(bills[..|bills| - 1], n)
  }

  lemma LookupBillAppend(bills: seq<Bill>, o: Option<Bill>, n: string)
    ensures LookupBill(bills + BillSeq(o), n) ==
      if o.Some? && o.value.merchant == n then o else LookupBill(bills, n)
  {
    if o.None? {
      assert bills + BillSeq(o) == bills;
    } else {
      assert (bills + BillSeq(o))[..|bills|] == bills;
    }
  }

  lemma {:induction false} EmitBillsLookup(names: seq<string>, billOf: string -> Option<Bill>, n: string)
    requires forall i, j :: 0 <= i < j < |names| ==> names[i] != names[j]
    requires Labelled(billOf)
    ensures LookupBill(EmitBills(names, billOf), n) == if n in names then billOf(n) else None
  {
    if names != [] {
      var prev, last := names[..|names| - 1], names[|names| - 1];
      EmitBillsLookup(prev, billOf, n);
      LookupBillAppend(EmitBills(prev, billOf), billOf(last), n);
      assert n in names <==> n in prev || n == last;
      assert n == last ==> n !in prev;
    }
  }

  lemma {:induction false} EmitBillsOrigin(names: seq<string>, billOf: string -> Option<Bill>, b: Bill)
    requires Labelled(billOf)
    requires b in EmitBills(names, billOf)
    ensures b.merchant in names && billOf(b.merchant) == Some(b)
  {
    var prev, last := names[..|names| - 1], names[|names| - 1];
    if b in EmitBills(prev, billOf) {
      EmitBillsOrigin(prev, billOf, b);
    } else {
      assert b in BillSeq(billOf(last));
    }
  }

  /** The merchants of a bill list. */
  function Merchants(bills: seq<Bill>): (r: seq<string>)
    ensures |r| == |bills| && forall i :: 0 <= i < |r| ==> r[i] == bills[i].merchant
  {
    seq(|bills|, i requires 0 <= i < |bills| => bills[i].merchant)
  }

  /** A name whose first kept transaction comes after those of all listed
      names may be appended to a list in first-occurrence order. */
  lemma OrderedAppend(ts: seq<Transaction>, ns: seq<string>, last: string)
    requires ByFirstOccurrence(ts, ns)
    requires ns != [] ==> last in GroupNames(ts)
    requires forall i :: 0 <= i < |ns| ==> ns[i] in GroupNames(ts) && FirstKept(ts, ns[i]) < FirstKept(ts, last)
    ensures ByFirstOccurrence(ts, ns + [last])
  {
    var ms := ns + [last];
    forall i, j | 0 <= i < j < |ms|
      ensures ms[i] in GroupNames(ts) && ms[j] in GroupNames(ts) && FirstKept(ts, ms[i]) < FirstKept(ts, ms[j])
    {
      if j == |ns| {
        assert ms[j] == last && ms[i] == ns[i];
      } else {
        assert ms[i] == ns[i] && ms[j] == ns[j];
      }
    }
  }

  /** Bills come out in the order of their names: names listed by first
      occurrence give merchants listed by first occurrence. */
  lemma {:induction false} EmitBillsOrdered(ts: seq<Transaction>, names: seq<string>, billOf: string -> Option<Bill>)
    requires Labelled(billOf)
    requires ByFirstOccurrence(ts, names)
    ensures ByFirstOccurrence(ts, Merchants(EmitBills(names, billOf)))
  {
    if names != [] {
      var prev, last := names[..|names| - 1], names[|names| - 1];
      EmitBillsOrdered(ts, prev, billOf);
      var before := EmitBills(prev, billOf);
      var mb := Merchants(before);
      if billOf(last).Some? {
        if prev != [] {
          assert names[0] in GroupNames(ts) && last in GroupNames(ts);
        }
        forall i | 0 <= i < |mb|
          ensures mb[i] in GroupNames(ts) && FirstKept(ts, mb[i]) < FirstKept(ts, last)
        {
          EmitBillsOrigin(prev, billOf, before[i]);
          var p :| 0 <= p < |prev| && prev[p] == before[i].merchant;
          assert names[p] == prev[p];
        }
        OrderedAppend(ts, mb, last);
        assert Merchants(EmitBills(names, billOf)) == mb + [last];
      } else {
        assert EmitBills(names, billOf) == before;
      }
    }
  }

  // ---------------------------------------------------------------------
  // What Detect promises

  /** No transactions, no bills. */
  lemma DetectEmpty()
    ensures Detect([]) == Ok([])
  {
  }

  /** Deleting a transaction that the amount filter drops changes no group. */
  lemma {:induction false} GroupsIgnoreSmall(ts: seq<Transaction>, i: nat)
    requires i < |ts| && !Kept(ts[i])
    ensures GroupNames(ts[..i] + ts[i + 1..]) == GroupNames(ts)
    ensures forall n :: GroupOf(ts[..i] + ts[i + 1..], n) == GroupOf(ts, n)
  {
    var del := ts[..i] + ts[i + 1..];
    var p := ts[..|ts| - 1];
    if i == |ts| - 1 {
      assert del == p;
    } else {
      GroupsIgnoreSmall(p, i);
      assert del[..|del| - 1] == p[..i] + p[i + 1..];
      assert del[|del| - 1] == ts[|ts| - 1];
    }
  }

  /** A charge under the minimum bill amount (a missing amount counts as
      0) never contributes: removing it leaves the result unchanged. */
  lemma DetectIgnoresSmallCharge(ts: seq<Transaction>, i: nat)
    requires i < |ts| && !Kept(ts[i])
    ensures Detect(ts[..i] + ts[i + 1..]) == Detect(ts)
  {
    var del := ts[..i] + ts[i + 1..];
    GroupsIgnoreSmall(ts, i);
    forall n ensures GroupDated(del, n) == GroupDated(ts, n) && BillsOf(del)(n) == BillsOf(ts)(n) {
      assert GroupOf(del, n) == GroupOf(ts, n);
    }
    if exists n :: n in GroupNames(ts) && !GroupDated(ts, n) {
      var n :| n in GroupNames(ts) && !GroupDated(ts, n);
      assert n in GroupNames(del) && !GroupDated(del, n);
    } else {
      EmitBillsCongruent(GroupNames(ts), BillsOf(del), BillsOf(ts));
    }
  }

  /** The bill reported for a name is the one its own group yields: it
      depends on that group's transactions only. */
  lemma DetectLookup(ts: seq<Transaction>, n: string)
    requires Detect(ts).Ok?
    ensures GroupDated(ts, n)
    ensures LookupBill(Detect(ts).value, n) == BillOf(ts, n)
  {
    BillsOfLabelled(ts);
    GroupNamesDistinct(ts);
    GroupOfFacts(ts, n);
    EmitBillsLookup(GroupNames(ts), BillsOf(ts), n);
  }

  /** Group independence: two inputs with the same kept charges under name
      n report the same bill (or none) for n, whatever else they hold. */
  lemma GroupIndependence(ts1: seq<Transaction>, ts2: seq<Transaction>, n: string)
    requires Detect(ts1).Ok? && Detect(ts2).Ok?
    requires GroupOf(ts1, n) == GroupOf(ts2, n)
    ensures LookupBill(Detect(ts1).value, n) == LookupBill(Detect(ts2).value, n)
  {
    DetectLookup(ts1, n);
    DetectLookup(ts2, n);
  }

  /** A group is reported exactly when it has at least two charges, every
      gap between consecutive dates is 25 to 35 days, and its amounts are
      stable. */
  lemma DetectEmitsIff(ts: seq<Transaction>, n: string)
    requires Detect(ts).Ok?
    ensures GroupDated(ts, n)
    ensures var g := GroupOf(ts, n);
      LookupBill(Detect(ts).value, n).Some? <==>
        |g| >= 2 && IsMonthly(Days(Chronological(g))) &&
        StableAmounts(Amounts(Chronological(g)))
  {
    DetectLookup(ts, n);
  }

  /** One gap outside 25..35 days rejects the whole group. */
  lemma OneBadGapRejects(ts: seq<Transaction>, n: string, i: nat)
    requires Detect(ts).Ok?
    requires |GroupOf(ts, n)| >= 2 && AllDated(GroupOf(ts, n))
    requires var days := Days(Chronological(GroupOf(ts, n)));
      1 <= i < |days| && !(MinGapDays <= days[i] - days[i - 1] <= MaxGapDays)
    ensures LookupBill(Detect(ts).value, n) == None
  {
    DetectLookup(ts, n);
  }

  /** Every bill reported comes from its own name group. */
  lemma DetectedBillOrigin(ts: seq<Transaction>, b: Bill)
    requires Detect(ts).Ok? && b in Detect(ts).value
    ensures b.merchant in GroupNames(ts) && |GroupOf(ts, b.merchant)| >= 2
    ensures AllDated(GroupOf(ts, b.merchant))
    ensures GroupBill(b.merchant, GroupOf(ts, b.merchant)) == Some(b)
  {
    BillsOfLabelled(ts);
    EmitBillsOrigin(GroupNames(ts), BillsOf(ts), b);
    assert BillOf(ts, b.merchant) == Some(b);
  }

  /** Every reported bill keeps the promises of its record: a count equal
      to the history length and at least 2, history entries of at least 5,
      a mean amount between the history's extremes with spread ratio below
      0.3, and last paid the latest date of its group. */
  lemma DetectedBillFacts(ts: seq<Transaction>, b: Bill)
    requires Detect(ts).Ok? && b in Detect(ts).value
    ensures b.transactionCount == |b.amountHistory| >= 2
    ensures forall k :: 0 <= k < |b.amountHistory| ==> b.amountHistory[k] >= MinBillAmount
    ensures Min(b.amountHistory) <= b.amount <= Max(b.amountHistory)
    ensures VarianceRatio(b.amountHistory, b.amount) < MaxSpreadRatio
    ensures AllDated(GroupOf(ts, b.merchant))
    ensures forall k :: 0 <= k < |GroupOf(ts, b.merchant)| ==> GroupOf(ts, b.merchant)[k].date.value <= b.lastPaid
    ensures exists k :: 0 <= k < |GroupOf(ts, b.merchant)| && GroupOf(ts, b.merchant)[k].date == Some(b.lastPaid)
  {
    DetectedBillOrigin(ts, b);
    GroupOfFacts(ts, b.merchant);
    GroupBillFacts(b.merchant, GroupOf(ts, b.merchant), b);
  }

  /** The promises of DetectedBillFacts for the bill of one group. */
  lemma GroupBillFacts(name: string, g: seq<Entry>, b: Bill)
    requires |g| >= 2 && AllDated(g)
    requires forall k :: 0 <= k < |g| ==> g[k].amount >= MinBillAmount
    requires GroupBill(name, g) == Some(b)
    ensures b.transactionCount == |b.amountHistory| >= 2
    ensures forall k :: 0 <= k < |b.amountHistory| ==> b.amountHistory[k] >= MinBillAmount
    ensures Min(b.amountHistory) <= b.amount <= Max(b.amountHistory)
    ensures VarianceRatio(b.amountHistory, b.amount) < MaxSpreadRatio
    ensures forall k :: 0 <= k < |g| ==> g[k].date.value <= b.lastPaid
    ensures exists k :: 0 <= k < |g| && g[k].date == Some(b.lastPaid)
  {
    BillRecord(name, g, b);
    BillAmounts(name, g, b);
    BillLastPaid(name, g, b);
  }

  /** Reported merchants are pairwise distinct and ordered by the first
      occurrence of their name among the kept transactions (the insertion
      order of the grouping dictionary). */
  lemma DetectOrdered(ts: seq<Transaction>)
    requires Detect(ts).Ok?
    ensures ByFirstOccurrence(ts, Merchants(Detect(ts).value))
  {
    GroupNamesByFirstOccurrence(ts);
    BillsOfLabelled(ts);
    EmitBillsOrdered(ts, GroupNames(ts), BillsOf(ts));
  }

  /** Hence no merchant is reported twice. */
  lemma DetectDistinct(ts: seq<Transaction>)
    requires Detect(ts).Ok?
    ensures var bills := Detect(ts).value;
      forall i, j :: 0 <= i < j < |bills| ==> bills[i].merchant != bills[j].merchant
  {
    DetectOrdered(ts);
    var ms := Merchants(Detect(ts).value);
    assert forall i, j :: 0 <= i < j < |ms| ==> ms[i] != ms[j];
  }

  // ---------------------------------------------------------------------
  // The procedure

  /** The cadence scan: a flag cleared, and the scan stopped, at the first
      gap outside 25..35 days. */
  method ScanGaps(dates: seq<int>) returns (isMonthly: bool)
    ensures isMonthly == IsMonthly(dates)
  {
    isMonthly := true;
    if |dates| >= 2 {
      var i := 1;
      while i < |dates|
        invariant 1 <= i <= |dates|
        invariant isMonthly
        invariant forall p :: 1 <= p < i ==> MinGapDays <= dates[p] - dates[p - 1] <= MaxGapDays
      {
        var daysDiff := dates[i] - dates[i - 1];
        if !(MinGapDays <= daysDiff <= MaxGapDays) {
          isMonthly := false;
          break;
        }
        i := i + 1;
      }
    }
  }

  /** The amount-stability test of one group: the spread of its amounts
      against their average; the average is returned for the record. */
  method AmountCheck(amounts: seq<real>) returns (stable: bool, avgAmount: real)
    requires amounts != []
    requires forall k :: 0 <= k < |amounts| ==> amounts[k] >= MinBillAmount
    ensures stable == StableAmounts(amounts)
    ensures avgAmount == Mean(amounts)
  {
    var amountVariance := if |amounts| > 0 then AmountVariance(amounts) else 0.0;
    avgAmount := Sum(amounts) / (|amounts| as real);
    MeanBounds(amounts);
    stable := amountVariance / avgAmount < MaxSpreadRatio;
  }

  /** The trend of one group: the average of its last two amounts against
      the average of the earlier ones, when there are at least three. */
  method TrendOf(amounts: seq<real>) returns (amountTrend: Trend)
    ensures amountTrend == AmountTrend(amounts)
  {
    amountTrend := Stable;
    if |amounts| >= 3 {
      TrendMeans(amounts);
      var recentAvg := Sum(amounts[|amounts| - 2..]) / 2.0;
      var olderAvg := Sum(amounts[..|amounts| - 2]) / ((|amounts| - 2) as real);
      if recentAvg > olderAvg * RiseFactor {
        amountTrend := Increasing;
      } else if recentAvg < olderAvg * FallFactor {
        amountTrend := Decreasing;
      }
    }
  }

  /** The body of the per-group loop once the group is known to have two or
      more dated charges: sort, scan the gaps, test the spread, build the
      record. */
  method BuildBill(name: string, list: seq<Entry>) returns (bill: Option<Bill>)
    requires |list| >= 2 && AllDated(list)
    requires forall k :: 0 <= k < |list| ==> list[k].amount >= MinBillAmount
    ensures bill == GroupBill(name, list)
  {
    var sorted := Chronological(list);
    ChronologicalFacts(list);
    var dates := Days(sorted);
    var amounts := Amounts(sorted);

    var isMonthly := ScanGaps(dates);
    if !isMonthly {
      assert GroupBill(name, list) == None;
      return None;
    }

    var stable, avgAmount := AmountCheck(amounts);
    if !stable {
      return None;
    }
    var billType := ClassifyBillType(name, avgAmount);
    var amountTrend := TrendOf(amounts);
    bill := Some(Bill(name, avgAmount, Monthly, billType, MaxDay(dates), |list|, amountTrend, amounts));
  }

  /** The first loop: drop small charges and fill the name groups,
      remembering the order in which names first appear. */
  method GroupByName(transactions: seq<Transaction>) returns (groups: map<string, seq<Entry>>, order: seq<string>)
    ensures order == GroupNames(transactions)
    ensures forall n :: n in groups <==> n in order
    ensures forall n :: n in groups ==> groups[n] == GroupOf(transactions, n)
  {
    groups, order := map[], [];
    for i := 0 to |transactions|
      invariant order == GroupNames(transactions[..i])
      invariant forall n :: n in groups <==> n in order
      invariant forall n :: n in groups ==> groups[n] == GroupOf(transactions[..i], n)
    {
      assert transactions[..i + 1][..i] == transactions[..i];
      var t := transactions[i];
      var name := GroupKey(t);
      var amount := AbsAmount(t);
      if amount < MinBillAmount {
        continue;
      }
      var entry := Entry(amount, t.date);
      GroupOfFacts(transactions[..i], name);
      if name in groups {
        groups := groups[name := groups[name] + [entry]];
      } else {
        groups := groups[name := [entry]];
        order := order + [name];
      }
    }
    assert transactions[..|transactions|] == transactions;
  }

  /** One pass of the per-group loop: skip a group of fewer than two
      charges, fail on a missing date (sorting raises), else test and build
      the bill. */
  method ProcessGroup(ts: seq<Transaction>, name: string, list: seq<Entry>) returns (outcome: Result<Option<Bill>, DetectError>)
    requires list == GroupOf(ts, name)
    ensures outcome.Err? <==> !GroupDated(ts, name)
    ensures outcome.Ok? ==> outcome.value == BillsOf(ts)(name)
  {
    if |list| < 2 {
      BillOfSmall(ts, name);
      return Ok(None);
    }
    if !AllDated(list) {
      return Err(MissingDate);
    }
    GroupOfFacts(ts, name);
    var bill := BuildBill(name, list);
    BillOfGroup(ts, name);
    return Ok(bill);
  }

  /** detect_recurring_bills. */
  method DetectRecurringBills(transactions: seq<Transaction>) returns (r: Result<seq<Bill>, DetectError>)
    ensures r == Detect(transactions)
  {
    if |transactions| == 0 {
      DetectEmpty();
      return Ok([]);
    }

    var groups, order := GroupByName(transactions);
    ghost var billOf := BillsOf(transactions);

    var bills: seq<Bill> := [];
    for k := 0 to |order|
      invariant forall j {:trigger GroupDated(transactions, order[j])} :: 0 <= j < k ==> GroupDated(transactions, order[j])
      invariant bills == EmitBills(order[..k], billOf)
    {
      EmitBillsStep(order, billOf, k);
      var name := order[k];
      assert name in order;
      var outcome := ProcessGroup(transactions, name, groups[name]);
      if outcome.Err? {
        DetectErr(transactions, name);
        return Err(MissingDate);
      }
      if outcome.value.Some? {
        bills := bills + [outcome.value.value];
      }
      assert forall j {:trigger GroupDated(transactions, order[j])} :: 0 <= j < k + 1 ==> GroupDated(transactions, order[j]);
    }
    assert order[..|order|] == order;
    DetectOk(transactions, bills);
    return Ok(bills);
  }
}
