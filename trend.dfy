/** Weight trend analyzer: `calculate_weekly_weight_changes`. Adjacent entries of
    the day-ordered history give daily rates of change; these are grouped into
    periods that start whenever a rate is dated 6 or more days after the start of
    the current period; each period gives one weekly rate; the current rate is an
    exponentially weighted mean of the weekly rates (newest weighs most) and the
    trend is the difference of the last two. */
module Trend {
  import opened Base
  import opened Entries
  import opened Measurements

  const DECAY_FACTOR: real := 0.85
  /** A new period starts once a rate is dated this many days after the period's start. */
  const NEW_PERIOD_DAYS: int := 6

  /** A daily rate of change in kg/day, dated by the later of its two entries. */
  datatype DailyChange = DailyChange(day: int, rate: real)

  /** The three values callers unpack: the weekly series, the current rate and the
      trend; rate and trend are absent when they are not computed. */
  datatype TrendResult = TrendResult(weekly: seq<real>, currentRate: Option<real>, trend: Option<real>)

  // ---------------------------------------------------------------------------
  // Daily changes

  /** The daily changes of the pairs (s[k-1], s[k]) with k < i, skipping pairs
      taken on the same day. */
  function DailyChangesUpTo(s: seq<WeightEntry>, i: nat): seq<DailyChange>
    requires i <= |s|
  {
    if i < 2 then
      []
    else
      var prev := s[i - 2];
      var curr := s[i - 1];
      var days := curr.day - prev.day;
      DailyChangesUpTo(s, i - 1) +
        (if days == 0 then []
         else [DailyChange(curr.day, (curr.weightLb * LB_TO_KG - prev.weightLb * LB_TO_KG) / days as real)])
  }

  /** The daily changes of a history: on a day-ordered history they are dated
      strictly increasingly, one per adjacent pair with a positive day gap, so there
      are fewer of them than entries. */
  function DailyChanges(s: seq<WeightEntry>): (r: seq<DailyChange>)
    ensures SortedByDay(s) ==> IncreasingDays(r) && |r| == PositiveGapsUpTo(s, |s|)
    ensures SortedByDay(s) && s != [] ==> |r| <= |s| - 1
  {
    if SortedByDay(s) && s != [] then
      DailyChangesShape(s, |s|);
      GapsBound(s, |s|);
      DailyChangesUpTo(s, |s|)
    else if SortedByDay(s) then
      DailyChangesShape(s, |s|);
      DailyChangesUpTo(s, |s|)
    else
      DailyChangesUpTo(s, |s|)
  }

  /** The number of adjacent pairs among the first i entries whose day gap is positive. */
  function PositiveGapsUpTo(s: seq<WeightEntry>, i: nat): nat
    requires i <= |s|
  {
    if i < 2 then 0
    else PositiveGapsUpTo(s, i - 1) + (if s[i - 1].day > s[i - 2].day then 1 else 0)
  }

  predicate IncreasingDays(d: seq<DailyChange>) {
    forall a, b :: 0 <= a < b < |d| ==> d[a].day < d[b].day
  }

  /** On a day-ordered history the daily changes are dated strictly increasingly,
      never beyond the last entry considered, and there is one per positive gap. */
  lemma {:induction false} DailyChangesShape(s: seq<WeightEntry>, i: nat)
    requires i <= |s| && SortedByDay(s)
    ensures IncreasingDays(DailyChangesUpTo(s, i))
    ensures i > 0 ==> forall a :: 0 <= a < |DailyChangesUpTo(s, i)| ==> DailyChangesUpTo(s, i)[a].day <= s[i - 1].day
    ensures |DailyChangesUpTo(s, i)| == PositiveGapsUpTo(s, i)
  {
    if i >= 2 {
      DailyChangesShape(s, i - 1);
      var d := DailyChangesUpTo(s, i - 1);
      assert s[i - 2].day <= s[i - 1].day;
      if s[i - 1].day != s[i - 2].day {
        var c := DailyChange(s[i - 1].day, (s[i - 1].weightLb * LB_TO_KG - s[i - 2].weightLb * LB_TO_KG) / (s[i - 1].day - s[i - 2].day) as real);
        assert DailyChangesUpTo(s, i) == d + [c];
        forall a | 0 <= a < |d| ensures d[a].day < c.day {
        }
      } else {
        assert DailyChangesUpTo(s, i) == d;
        forall a | 0 <= a < |d| ensures d[a].day <= s[i - 1].day {
        }
      }
    }
  }

  /** On a day-ordered history there are no daily changes exactly when all entries
      seen so far share the first entry's day. */
  lemma {:induction false} DailyChangesEmptyIff(s: seq<WeightEntry>, i: nat)
    requires 0 < i <= |s| && SortedByDay(s)
    ensures DailyChangesUpTo(s, i) == [] <==> forall k :: 0 <= k < i ==> s[k].day == s[0].day
  {
    if i >= 2 {
      DailyChangesEmptyIff(s, i - 1);
      assert s[0].day <= s[i - 2].day <= s[i - 1].day;
    }
  }

  // ---------------------------------------------------------------------------
  // Grouping into periods

  /** The loop state of the grouping: the finished periods, the current one and
      the day the current one started on. */
  datatype Grouping = Grouping(periods: seq<seq<DailyChange>>, week: seq<DailyChange>, start: int)

  function GroupStep(g: Grouping, c: DailyChange): Grouping {
    if c.day - g.start >= NEW_PERIOD_DAYS then
      Grouping(if g.week != [] then g.periods + [g.week] else g.periods, [c], c.day)
    else
      Grouping(g.periods, g.week + [c], g.start)
  }

  /** The grouping after the first k daily changes. */
  function GroupUpTo(daily: seq<DailyChange>, k: nat): Grouping
    requires 0 < |daily| && k <= |daily|
  {
    if k == 0 then Grouping([], [], daily[0].day)
    else GroupStep(GroupUpTo(daily, k - 1), daily[k - 1])
  }

  /** All periods, the last (possibly short) one flushed. */
  function Periods(daily: seq<DailyChange>): seq<seq<DailyChange>> {
    if daily == [] then []
    else
      var g := GroupUpTo(daily, |daily|);
      if g.week != [] then g.periods + [g.week] else g.periods
  }

  /** A period: non-empty, dated increasingly, its last rate fewer than 6 days
      after its first. */
  predicate IsPeriod(p: seq<DailyChange>) {
    p != [] && IncreasingDays(p) && p[|p| - 1].day - p[0].day < NEW_PERIOD_DAYS
  }

  /** `(current_week[-1][0] - current_week[0][0]).days + 1` */
  function PeriodDays(p: seq<DailyChange>): int
    requires p != []
  {
    p[|p| - 1].day - p[0].day + 1
  }

  function Concat(ps: seq<seq<DailyChange>>): seq<DailyChange> {
    if ps == [] then [] else Concat(ps[..|ps| - 1]) + ps[|ps| - 1]
  }

  /** The day a period starts on. */
  function StartDay(p: seq<DailyChange>): int {
    if p == [] then 0 else p[0].day
  }

  /** Every member is a period, and each period starts at least 6 days after any
      earlier one started. */
  predicate WellSpaced(ps: seq<seq<DailyChange>>) {
    && (forall j :: 0 <= j < |ps| ==> IsPeriod(ps[j]))
    && (forall i, j :: 0 <= i < j < |ps| ==> StartDay(ps[j]) - StartDay(ps[i]) >= NEW_PERIOD_DAYS)
  }

  lemma PeriodDaysBounds(p: seq<DailyChange>)
    requires IsPeriod(p)
    ensures 1 <= PeriodDays(p) <= NEW_PERIOD_DAYS
  {
    assert |p| == 1 || p[0].day < p[|p| - 1].day;
  }

  lemma ConcatAppend(ps: seq<seq<DailyChange>>, p: seq<DailyChange>)
    ensures Concat(ps + [p]) == Concat(ps) + p
  {
    assert (ps + [p])[..|ps|] == ps;
  }

  /** The grouping state once some daily changes, the last of them `last`, have
      been seen: the current week is a period that started on `start` and ends
      with `last`, the finished periods are well spaced, and the current week
      started at least 6 days after every finished one. */
  predicate GroupState(g: Grouping, last: DailyChange) {
    && IsPeriod(g.week) && g.week[0].day == g.start && g.week[|g.week| - 1] == last
    && WellSpaced(g.periods)
    && (forall j :: 0 <= j < |g.periods| ==> g.start - StartDay(g.periods[j]) >= NEW_PERIOD_DAYS)
  }

  lemma ResetStep(g: Grouping, last: DailyChange, c: DailyChange)
    requires GroupState(g, last) && last.day < c.day && c.day - g.start >= NEW_PERIOD_DAYS
    ensures GroupState(GroupStep(g, c), c)
    ensures |GroupStep(g, c).periods| == |g.periods| + 1
  {
    var ps := g.periods + [g.week];
    assert forall j :: 0 <= j < |g.periods| ==> ps[j] == g.periods[j];
    assert ps[|g.periods|] == g.week;
  }

  lemma AppendStep(g: Grouping, last: DailyChange, c: DailyChange)
    requires GroupState(g, last) && last.day < c.day && c.day - g.start < NEW_PERIOD_DAYS
    ensures GroupState(GroupStep(g, c), c)
    ensures GroupStep(g, c).periods == g.periods
  {
    var w := g.week + [c];
    forall a, b | 0 <= a < b < |w| ensures w[a].day < w[b].day {
      if b == |w| - 1 {
        assert w[a].day <= g.week[|g.week| - 1].day;
      } else {
        assert w[a] == g.week[a] && w[b] == g.week[b];
      }
    }
    assert w[0] == g.week[0];
  }

  lemma {:induction false} GroupInvariant(daily: seq<DailyChange>, k: nat)
    requires 0 < k <= |daily| && IncreasingDays(daily)
    ensures GroupState(GroupUpTo(daily, k), daily[k - 1])
    ensures |GroupUpTo(daily, k).periods| < k
  {
    if k == 1 {
      var g := GroupUpTo(daily, 1);
      assert g == Grouping([], [daily[0]], daily[0].day);
    } else {
      GroupInvariant(daily, k - 1);
      var g := GroupUpTo(daily, k - 1);
      if daily[k - 1].day - g.start >= NEW_PERIOD_DAYS {
        ResetStep(g, daily[k - 2], daily[k - 1]);
      } else {
        AppendStep(g, daily[k - 2], daily[k - 1]);
      }
    }
  }

  /** The finished periods followed by the current week are the daily changes seen. */
  lemma {:induction false} GroupConcat(daily: seq<DailyChange>, k: nat)
    requires 0 < |daily| && k <= |daily|
    ensures Concat(GroupUpTo(daily, k).periods) + GroupUpTo(daily, k).week == daily[..k]
  {
    if k > 0 {
      GroupConcat(daily, k - 1);
      var g := GroupUpTo(daily, k - 1);
      var c := daily[k - 1];
      assert daily[..k] == daily[..k - 1] + [c];
      if c.day - g.start >= NEW_PERIOD_DAYS && g.week != [] {
        ConcatAppend(g.periods, g.week);
      }
    }
  }

  /** The last grouping state has a non-empty current week, which the flush closes. */
  lemma PeriodsFlushLast(daily: seq<DailyChange>)
    requires daily != [] && IncreasingDays(daily)
    ensures var g := GroupUpTo(daily, |daily|);
      && GroupState(g, daily[|daily| - 1])
      && |g.periods| < |daily|
      && Periods(daily) == g.periods + [g.week]
  {
    GroupInvariant(daily, |daily|);
  }

  lemma PeriodsConcat(daily: seq<DailyChange>)
    requires daily != [] && IncreasingDays(daily)
    ensures Concat(Periods(daily)) == daily
  {
    PeriodsFlushLast(daily);
    GroupConcat(daily, |daily|);
    var g := GroupUpTo(daily, |daily|);
    assert daily[..|daily|] == daily;
    ConcatAppend(g.periods, g.week);
  }

  lemma PeriodsWellSpaced(daily: seq<DailyChange>)
    requires daily != [] && IncreasingDays(daily)
    ensures WellSpaced(Periods(daily))
  {
    PeriodsFlushLast(daily);
    var g := GroupUpTo(daily, |daily|);
    var ps := g.periods + [g.week];
    assert forall j :: 0 <= j < |g.periods| ==> ps[j] == g.periods[j];
    assert ps[|g.periods|] == g.week;
  }

  /** The periods partition the daily changes, in order; each is a period of 1 to
      6 days; and each starts at least 6 days after the previous one started. */
  lemma PeriodsPartition(daily: seq<DailyChange>)
    requires daily != [] && IncreasingDays(daily)
    ensures Periods(daily) != [] && |Periods(daily)| <= |daily|
    ensures Concat(Periods(daily)) == daily
    ensures WellSpaced(Periods(daily))
    ensures forall j :: 0 <= j < |Periods(daily)| ==>
              IsPeriod(Periods(daily)[j]) && 1 <= PeriodDays(Periods(daily)[j]) <= NEW_PERIOD_DAYS
  {
    PeriodsFlushLast(daily);
    PeriodsConcat(daily);
    PeriodsWellSpaced(daily);
    var ps := Periods(daily);
    forall j | 0 <= j < |ps| ensures 1 <= PeriodDays(ps[j]) <= NEW_PERIOD_DAYS {
      PeriodDaysBounds(ps[j]);
    }
  }

  // ---------------------------------------------------------------------------
  // Weekly rates

  function Rates(p: seq<DailyChange>): (r: seq<real>)
    ensures |r| == |p|
  {
    if p == [] then [] else [p[0].rate] + Rates(p[1..])
  }

  /** A period's mean daily rate scaled by `7 / period_days`. */
  function WeeklyAverage(p: seq<DailyChange>): real
    requires IsPeriod(p)
  {
    Mean(Rates(p)) * (7.0 / PeriodDays(p) as real)
  }

  function WeeklyAverages(ps: seq<seq<DailyChange>>): (r: seq<real>)
    requires forall j :: 0 <= j < |ps| ==> IsPeriod(ps[j])
    ensures |r| == |ps|
  {
    if ps == [] then []
    else WeeklyAverages(ps[..|ps| - 1]) + [WeeklyAverage(ps[|ps| - 1])]
  }

  lemma WeeklyAveragesAppend(ps: seq<seq<DailyChange>>, p: seq<DailyChange>)
    requires forall j :: 0 <= j < |ps| ==> IsPeriod(ps[j])
    requires IsPeriod(p)
    ensures forall j :: 0 <= j < |ps + [p]| ==> IsPeriod((ps + [p])[j])
    ensures WeeklyAverages(ps + [p]) == WeeklyAverages(ps) + [WeeklyAverage(p)]
  {
    assert (ps + [p])[..|ps|] == ps;
  }

  /** The weekly series: one weekly rate per period of the daily changes. */
  function WeeklySeries(daily: seq<DailyChange>): (r: seq<real>)
    requires daily != [] && IncreasingDays(daily)
  {
    PeriodsPartition(daily);
    WeeklyAverages(Periods(daily))
  }

  // ---------------------------------------------------------------------------
  // Current rate: exponentially weighted mean

  function Pow(b: real, k: nat): real {
    if k == 0 then 1.0 else b * Pow(b, k - 1)
  }

  lemma {:induction false} DecayPowBounds(k: nat)
    ensures 0.0 < Pow(DECAY_FACTOR, k) <= 1.0
  {
    if k > 0 {
      DecayPowBounds(k - 1);
    }
  }

  /** A later power of the decay factor is strictly smaller. */
  lemma {:induction false} DecayPowDecreasing(k: nat, m: nat)
    requires k < m
    ensures Pow(DECAY_FACTOR, m) < Pow(DECAY_FACTOR, k)
  {
    DecayPowBounds(m - 1);
    if k < m - 1 {
      DecayPowDecreasing(k, m - 1);
    }
  }

  /** `[0.85 ** i for i in range(n)]` */
  function DecayPowers(n: nat): (r: seq<real>)
    ensures |r| == n
  {
    seq(n, i requires 0 <= i < n => Pow(DECAY_FACTOR, i))
  }

  function Reversed(s: seq<real>): (r: seq<real>)
    ensures |r| == |s|
  {
    seq(|s|, i requires 0 <= i < |s| => s[|s| - 1 - i])
  }

  /** The decay powers reversed: the newest (last) week gets 0.85^0. */
  function DecayWeights(n: nat): (r: seq<real>)
    ensures |r| == n
  {
    Reversed(DecayPowers(n))
  }

  /** `[w / total for w in ws]` */
  function DivideAll(ws: seq<real>, total: real): (r: seq<real>)
    requires total != 0.0
    ensures |r| == |ws|
    ensures forall i :: 0 <= i < |ws| ==> r[i] == ws[i] / total
  {
    if ws == [] then [] else [ws[0] / total] + DivideAll(ws[1..], total)
  }

  /** `sum(c * w for c, w in zip(cs, ws))` */
  function Dot(cs: seq<real>, ws: seq<real>): real
    requires |cs| == |ws|
  {
    if cs == [] then 0.0 else cs[0] * ws[0] + Dot(cs[1..], ws[1..])
  }

  function NormalizedWeights(n: nat): (r: seq<real>)
    requires n > 0
    ensures |r| == n
  {
    DecayWeightsPositive(n);
    DivideAll(DecayWeights(n), Sum(DecayWeights(n)))
  }

  function CurrentRate(weekly: seq<real>): real
    requires |weekly| > 0
  {
    Dot(weekly, NormalizedWeights(|weekly|))
  }

  lemma {:induction false} SumPositive(ws: seq<real>)
    requires |ws| > 0 && forall i :: 0 <= i < |ws| ==> ws[i] > 0.0
    ensures Sum(ws) > 0.0
  {
    if |ws| > 1 {
      SumPositive(ws[1..]);
    }
  }

  lemma DecayWeightsPositive(n: nat)
    requires n > 0
    ensures forall i :: 0 <= i < n ==> DecayWeights(n)[i] > 0.0
    ensures Sum(DecayWeights(n)) > 0.0
  {
    forall i | 0 <= i < n ensures DecayWeights(n)[i] > 0.0 {
      DecayPowBounds(n - 1 - i);
    }
    SumPositive(DecayWeights(n));
  }

  lemma DivPositive(x: real, t: real)
    requires x > 0.0 && t > 0.0
    ensures x / t > 0.0
  {
  }

  lemma DivStrictMono(x: real, y: real, t: real)
    requires x < y && t > 0.0
    ensures x / t < y / t
  {
    assert y / t - x / t == (y - x) / t;
  }

  lemma {:induction false} SumDivideAll(ws: seq<real>, total: real)
    requires total != 0.0
    ensures Sum(DivideAll(ws, total)) == Sum(ws) / total
  {
    if ws != [] {
      SumDivideAll(ws[1..], total);
      assert DivideAll(ws, total)[1..] == DivideAll(ws[1..], total);
    }
  }

  /** A weighted sum with non-negative weights lies between lo and hi times the
      total weight when every value lies between lo and hi. */
  lemma DotBounds(cs: seq<real>, ws: seq<real>, lo: real, hi: real)
    requires |cs| == |ws|
    requires forall i :: 0 <= i < |ws| ==> ws[i] >= 0.0
    requires forall i :: 0 <= i < |cs| ==> lo <= cs[i] <= hi
    ensures lo * Sum(ws) <= Dot(cs, ws) <= hi * Sum(ws)
  {
    DotLowerBound(cs, ws, lo);
    DotUpperBound(cs, ws, hi);
  }

  lemma {:induction false} DotLowerBound(cs: seq<real>, ws: seq<real>, lo: real)
    requires |cs| == |ws|
    requires forall i :: 0 <= i < |ws| ==> ws[i] >= 0.0
    requires forall i :: 0 <= i < |cs| ==> lo <= cs[i]
    ensures lo * Sum(ws) <= Dot(cs, ws)
    decreases |cs|
  {
    if cs != [] {
      TailBounds(cs, ws, lo);
      DotLowerBound(cs[1..], ws[1..], lo);
      DotUnfold(cs, ws);
      LowerStep(cs[0], ws[0], lo, Dot(cs[1..], ws[1..]), Sum(ws[1..]), Dot(cs, ws), Sum(ws));
    }
  }

  lemma {:induction false} DotUpperBound(cs: seq<real>, ws: seq<real>, hi: real)
    requires |cs| == |ws|
    requires forall i :: 0 <= i < |ws| ==> ws[i] >= 0.0
    requires forall i :: 0 <= i < |cs| ==> cs[i] <= hi
    ensures Dot(cs, ws) <= hi * Sum(ws)
    decreases |cs|
  {
    if cs != [] {
      TailBoundsAbove(cs, ws, hi);
      DotUpperBound(cs[1..], ws[1..], hi);
      DotUnfold(cs, ws);
      UpperStep(cs[0], ws[0], hi, Dot(cs[1..], ws[1..]), Sum(ws[1..]), Dot(cs, ws), Sum(ws));
    }
  }

  lemma TailBounds(cs: seq<real>, ws: seq<real>, lo: real)
    requires |cs| == |ws| > 0
    requires forall i :: 0 <= i < |ws| ==> ws[i] >= 0.0
    requires forall i :: 0 <= i < |cs| ==> lo <= cs[i]
    ensures ws[0] >= 0.0 && lo <= cs[0]
    ensures forall i :: 0 <= i < |ws[1..]| ==> ws[1..][i] >= 0.0
    ensures forall i :: 0 <= i < |cs[1..]| ==> lo <= cs[1..][i]
  {
    forall i | 0 <= i < |ws[1..]| ensures ws[1..][i] >= 0.0 && lo <= cs[1..][i] {
      assert ws[1..][i] == ws[i + 1] && cs[1..][i] == cs[i + 1];
    }
  }

  lemma TailBoundsAbove(cs: seq<real>, ws: seq<real>, hi: real)
    requires |cs| == |ws| > 0
    requires forall i :: 0 <= i < |ws| ==> ws[i] >= 0.0
    requires forall i :: 0 <= i < |cs| ==> cs[i] <= hi
    ensures ws[0] >= 0.0 && cs[0] <= hi
    ensures forall i :: 0 <= i < |ws[1..]| ==> ws[1..][i] >= 0.0
    ensures forall i :: 0 <= i < |cs[1..]| ==> cs[1..][i] <= hi
  {
    forall i | 0 <= i < |ws[1..]| ensures ws[1..][i] >= 0.0 && cs[1..][i] <= hi {
      assert ws[1..][i] == ws[i + 1] && cs[1..][i] == cs[i + 1];
    }
  }

  lemma DotUnfold(cs: seq<real>, ws: seq<real>)
    requires |cs| == |ws| > 0
    ensures Dot(cs, ws) == cs[0] * ws[0] + Dot(cs[1..], ws[1..])
    ensures Sum(ws) == ws[0] + Sum(ws[1..])
  {
  }

  /** Adding a term `c * w`, with `w >= 0` and `c >= lo`, to a sum at least `lo * t` keeps it at least `lo` times the new total. */
  lemma LowerStep(c: real, w: real, lo: real, d: real, t: real, dot: real, total: real)
    requires w >= 0.0 && lo <= c && lo * t <= d
    requires dot == c * w + d && total == w + t
    ensures lo * total <= dot
  {
    MulLeftMono(lo, c, w);
    assert lo * (w + t) == w * lo + lo * t;
    assert c * w == w * c;
  }

  lemma UpperStep(c: real, w: real, hi: real, d: real, t: real, dot: real, total: real)
    requires w >= 0.0 && c <= hi && d <= hi * t
    requires dot == c * w + d && total == w + t
    ensures dot <= hi * total
  {
    MulLeftMono(c, hi, w);
    assert hi * (w + t) == w * hi + hi * t;
    assert c * w == w * c;
  }

  function SeqMin(s: seq<real>): (m: real)
    requires |s| > 0
    ensures m in s && forall i :: 0 <= i < |s| ==> m <= s[i]
  {
    if |s| == 1 then s[0] else Min(s[0], SeqMin(s[1..]))
  }

  function SeqMax(s: seq<real>): (m: real)
    requires |s| > 0
    ensures m in s && forall i :: 0 <= i < |s| ==> s[i] <= m
  {
    if |s| == 1 then s[0] else Max(s[0], SeqMax(s[1..]))
  }

  lemma DecayWeightAt(n: nat, i: nat)
    requires i < n
    ensures DecayWeights(n)[i] == Pow(DECAY_FACTOR, n - 1 - i)
  {
  }

  lemma NormalizedWeightAt(n: nat, i: nat)
    requires i < n
    ensures Sum(DecayWeights(n)) > 0.0
    ensures NormalizedWeights(n)[i] == DecayWeights(n)[i] / Sum(DecayWeights(n))
  {
    DecayWeightsPositive(n);
  }

  lemma NormalizedWeightsSumToOne(n: nat)
    requires n > 0
    ensures Sum(NormalizedWeights(n)) == 1.0
  {
    var ws := DecayWeights(n);
    DecayWeightsPositive(n);
    var total := Sum(ws);
    SumDivideAll(ws, total);
    assert NormalizedWeights(n) == DivideAll(ws, total);
    DivSelf(total);
  }

  lemma DivSelf(x: real)
    requires x > 0.0
    ensures x / x == 1.0
  {
  }

  /** The normalised weights are positive, sum to 1, and strictly increase towards
      the newest week, which therefore weighs most. */
  lemma NormalizedWeightsShape(n: nat)
    requires n > 0
    ensures Sum(NormalizedWeights(n)) == 1.0
    ensures forall i :: 0 <= i < n ==> NormalizedWeights(n)[i] > 0.0
    ensures forall i, j :: 0 <= i < j < n ==> NormalizedWeights(n)[i] < NormalizedWeights(n)[j]
  {
    NormalizedWeightsSumToOne(n);
    var ws := DecayWeights(n);
    DecayWeightsPositive(n);
    var r := NormalizedWeights(n);
    forall i | 0 <= i < n ensures r[i] > 0.0 {
      NormalizedWeightAt(n, i);
      DivPositive(ws[i], Sum(ws));
    }
    forall i, j | 0 <= i < j < n ensures r[i] < r[j] {
      NormalizedWeightAt(n, i);
      NormalizedWeightAt(n, j);
      DecayWeightAt(n, i);
      DecayWeightAt(n, j);
      DecayPowDecreasing(n - 1 - j, n - 1 - i);
      DivStrictMono(ws[i], ws[j], Sum(ws));
    }
  }

  /** The current rate is a convex combination of the weekly rates, so it lies
      between the smallest and the largest of them. */
  lemma CurrentRateWithinSeries(weekly: seq<real>)
    requires |weekly| > 0
    ensures SeqMin(weekly) <= CurrentRate(weekly) <= SeqMax(weekly)
  {
    var n := |weekly|;
    NormalizedWeightsShape(n);
    DotBounds(weekly, NormalizedWeights(n), SeqMin(weekly), SeqMax(weekly));
  }

  // ---------------------------------------------------------------------------
  // The weekly series

  /** `calculate_weekly_weight_changes`, with its three results; see
      `RawWeeklyWeightChanges` for the shape the source actually returns. */
  function WeeklyWeightChanges(entries: seq<WeightEntry>): (r: TrendResult)
    ensures |entries| < 2 ==> r == TrendResult([], None, None)
    ensures r.currentRate.Some? ==> r.weekly != [] && r.currentRate.value == CurrentRate(r.weekly)
    ensures r.currentRate.None? ==> r.weekly == [] && r.trend.None?
  {
    if |entries| < 2 then
      TrendResult([], None, None)
    else
      var sorted := SortByDay(entries);
      var daily := DailyChanges(sorted);
      if daily == [] then
        TrendResult([], None, None)
      else
        DailyChangesShape(sorted, |sorted|);
        var weekly := WeeklySeries(daily);
        if weekly == [] then
          TrendResult([], None, None)
        else
          TrendResult(weekly, Some(CurrentRate(weekly)),
                      if |weekly| >= 2 then Some(weekly[|weekly| - 1] - weekly[|weekly| - 2]) else None)
  }

  /** All entries of a history fall on its first entry's day exactly when all
      entries of its sorted copy fall on that copy's first day. */
  lemma SameDaySorted(entries: seq<WeightEntry>)
    requires entries != []
    ensures (forall i :: 0 <= i < |entries| ==> entries[i].day == entries[0].day) ==>
      (forall k :: 0 <= k < |SortByDay(entries)| ==> SortByDay(entries)[k].day == SortByDay(entries)[0].day)
    ensures (forall k :: 0 <= k < |SortByDay(entries)| ==> SortByDay(entries)[k].day == SortByDay(entries)[0].day) ==>
      (forall i :: 0 <= i < |entries| ==> entries[i].day == entries[0].day)
  {
    var sorted := SortByDay(entries);
    SortByDaySameEntries(entries);
    assert sorted[0] in entries;
    assert entries[0] in sorted;
    if forall i :: 0 <= i < |entries| ==> entries[i].day == entries[0].day {
      forall k | 0 <= k < |sorted| ensures sorted[k].day == entries[0].day {
        assert sorted[k] in entries;
        var i :| 0 <= i < |entries| && entries[i] == sorted[k];
      }
      assert sorted[0].day == entries[0].day;
    }
    if forall k :: 0 <= k < |sorted| ==> sorted[k].day == sorted[0].day {
      forall i | 0 <= i < |entries| ensures entries[i].day == sorted[0].day {
        assert entries[i] in sorted;
        var k :| 0 <= k < |sorted| && sorted[k] == entries[i];
      }
      assert entries[0].day == sorted[0].day;
    }
  }

  /** At least one daily change gives at least one weekly rate. */
  lemma WeeklySeriesNonEmpty(daily: seq<DailyChange>)
    requires daily != [] && IncreasingDays(daily)
    ensures WeeklySeries(daily) != []
  {
    PeriodsPartition(daily);
  }

  /** No rate (and an empty series, and no trend) exactly when there are fewer
      than two entries or all entries fall on one day. */
  lemma NoRateIff(entries: seq<WeightEntry>)
    ensures var t := WeeklyWeightChanges(entries);
      && (t.currentRate.None? <==> |entries| < 2 || forall i :: 0 <= i < |entries| ==> entries[i].day == entries[0].day)
      && (t.currentRate.None? <==> t.weekly == [])
      && (t.currentRate.None? ==> t.trend.None?)
  {
    if |entries| >= 2 {
      var sorted := SortByDay(entries);
      SameDaySorted(entries);
      DailyChangesEmptyIff(sorted, |sorted|);
      var daily := DailyChanges(sorted);
      if daily != [] {
        DailyChangesShape(sorted, |sorted|);
        WeeklySeriesNonEmpty(daily);
        assert WeeklyWeightChanges(entries).weekly == WeeklySeries(daily);
      }
    }
  }

  /** The series has at most one weekly rate per adjacent pair of the ordered
      history with a positive day gap. */
  lemma SeriesLengthBound(entries: seq<WeightEntry>)
    requires |entries| >= 2
    ensures |WeeklyWeightChanges(entries).weekly| <= PositiveGapsUpTo(SortByDay(entries), |entries|)
    ensures PositiveGapsUpTo(SortByDay(entries), |entries|) <= |entries| - 1
  {
    var sorted := SortByDay(entries);
    DailyChangesShape(sorted, |sorted|);
    GapsBound(sorted, |sorted|);
    var daily := DailyChanges(sorted);
    if daily != [] {
      PeriodsPartition(daily);
    }
  }

  lemma {:induction false} GapsBound(s: seq<WeightEntry>, i: nat)
    requires 0 < i <= |s|
    ensures PositiveGapsUpTo(s, i) <= i - 1
  {
    if i >= 2 {
      GapsBound(s, i - 1);
    }
  }

  /** The current rate lies between the smallest and largest weekly rate. */
  lemma RateWithinSeries(entries: seq<WeightEntry>)
    requires WeeklyWeightChanges(entries).currentRate.Some?
    ensures var t := WeeklyWeightChanges(entries);
      |t.weekly| > 0 && SeqMin(t.weekly) <= t.currentRate.value <= SeqMax(t.weekly)
  {
    var t := WeeklyWeightChanges(entries);
    NoRateIff(entries);
    CurrentRateWithinSeries(t.weekly);
  }

  /** There is a trend exactly when the series has at least two weekly rates, and
      it is the last rate minus the one before. */
  lemma TrendIsLastDifference(entries: seq<WeightEntry>)
    ensures var t := WeeklyWeightChanges(entries);
      && (t.trend.Some? <==> |t.weekly| >= 2)
      && (t.trend.Some? ==> t.trend.value == t.weekly[|t.weekly| - 1] - t.weekly[|t.weekly| - 2])
  {
  }

  // ---------------------------------------------------------------------------
  // The return shape as written

  /** What the source returns: a 2-tuple `([], None)` on its early exits, a 3-tuple
      otherwise. */
  datatype RawTrend =
    | TwoValues(weekly: seq<real>, rate: Option<real>)
    | ThreeValues(weekly: seq<real>, rate: Option<real>, trend: Option<real>)

  function RawWeeklyWeightChanges(entries: seq<WeightEntry>): RawTrend {
    var t := WeeklyWeightChanges(entries);
    if t.currentRate.None? then TwoValues([], None) else ThreeValues(t.weekly, t.currentRate, t.trend)
  }

  /** The callers' `weekly_changes, current_rate, trend = ...`: unpacking the
      2-tuple raises. So every caller fails, as written, exactly on histories with
      fewer than two entries or with all entries on one day. */
  function UnpackedWeeklyChanges(entries: seq<WeightEntry>): (r: Result<TrendResult>)
    ensures r.Err? <==> |entries| < 2 || forall i :: 0 <= i < |entries| ==> entries[i].day == entries[0].day
    ensures r.Err? ==> r.error == TooFewValuesToUnpack
    ensures r.Ok? ==> r.value == WeeklyWeightChanges(entries)
  {
    NoRateIff(entries);
    match RawWeeklyWeightChanges(entries)
    case TwoValues(_, _) => Err(TooFewValuesToUnpack)
    case ThreeValues(w, rate, trend) => Ok(TrendResult(w, rate, trend))
  }

  // ---------------------------------------------------------------------------
  // The imperative computation

  /** The loop over adjacent entries: the change in kilograms over the day gap,
      skipping pairs taken on the same day. */
  method ComputeDailyChanges(sorted: seq<WeightEntry>) returns (daily: seq<DailyChange>)
    ensures daily == DailyChanges(sorted)
  {
    daily := [];
    if sorted == [] {
      return;
    }
    var i := 1;
    while i < |sorted|
      invariant 1 <= i <= |sorted|
      invariant daily == DailyChangesUpTo(sorted, i)
    {
      var prev, curr := sorted[i - 1], sorted[i];
      var days := curr.day - prev.day;
      if days != 0 {
        var prevKg := prev.weightLb * LB_TO_KG;
        var currKg := curr.weightLb * LB_TO_KG;
        daily := daily + [DailyChange(curr.day, (currKg - prevKg) / days as real)];
      }
      i := i + 1;
    }
  }

  /** The current week is a period once a daily change has been seen. */
  lemma GroupWeekIsPeriod(daily: seq<DailyChange>, k: nat)
    requires 0 < k <= |daily| && IncreasingDays(daily)
    ensures IsPeriod(GroupUpTo(daily, k).week)
  {
    GroupInvariant(daily, k);
  }

  /** A period's weekly rate: its mean daily rate times `7 / period_days`. */
  method ComputeWeeklyRate(week: seq<DailyChange>) returns (rate: real)
    requires IsPeriod(week)
    ensures rate == WeeklyAverage(week)
  {
    var periodDays := week[|week| - 1].day - week[0].day + 1;
    var average := Mean(Rates(week));
    rate := average * (7.0 / periodDays as real);
  }

  /** The grouping loop and the final flush: one weekly rate per period. */
  method ComputeWeeklySeries(daily: seq<DailyChange>) returns (weekly: seq<real>)
    requires daily != [] && IncreasingDays(daily)
    ensures weekly == WeeklySeries(daily)
  {
    weekly := [];
    var week: seq<DailyChange> := [];
    var weekStart := daily[0].day;
    ghost var periods: seq<seq<DailyChange>> := [];
    var k := 0;
    while k < |daily|
      invariant 0 <= k <= |daily|
      invariant GroupUpTo(daily, k) == Grouping(periods, week, weekStart)
      invariant forall j :: 0 <= j < |periods| ==> IsPeriod(periods[j])
      invariant weekly == WeeklyAverages(periods)
    {
      ghost var g := GroupUpTo(daily, k);
      var c := daily[k];
      if c.day - weekStart >= NEW_PERIOD_DAYS {
        if week != [] {
          GroupWeekIsPeriod(daily, k);
          var rate := ComputeWeeklyRate(week);
          WeeklyAveragesAppend(periods, week);
          weekly := weekly + [rate];
          periods := periods + [week];
        }
        week := [];
        weekStart := c.day;
      }
      week := week + [c];
      assert GroupUpTo(daily, k + 1) == GroupStep(g, c);
      k := k + 1;
    }
    weekly := FlushLastWeek(daily, weekly, week, weekStart, periods);
  }

  /** After the grouping loop: the current week is closed as the last period.
      The source guards this flush with `if current_week:`; after at least one
      daily change the current week is never empty, so the guard always holds. */
  method FlushLastWeek(daily: seq<DailyChange>, weekly: seq<real>, week: seq<DailyChange>, weekStart: int,
                       ghost periods: seq<seq<DailyChange>>) returns (series: seq<real>)
    requires daily != [] && IncreasingDays(daily)
    requires GroupUpTo(daily, |daily|) == Grouping(periods, week, weekStart)
    requires forall j :: 0 <= j < |periods| ==> IsPeriod(periods[j])
    requires weekly == WeeklyAverages(periods)
    ensures series == WeeklySeries(daily)
  {
    GroupWeekIsPeriod(daily, |daily|);
    assert week != [];
    var rate := ComputeWeeklyRate(week);
    WeeklyAveragesAppend(periods, week);
    series := weekly + [rate];
    assert periods + [week] == Periods(daily);
  }

  /** Reverses a buffer in place (`list.reverse()`). */
  method ReverseInPlace(a: array<real>)
    modifies a
    ensures a[..] == Reversed(old(a[..]))
  {
    ghost var orig := a[..];
    var n := a.Length;
    var lo, hi := 0, n - 1;
    while lo < hi
      invariant 0 <= lo <= n && lo + hi == n - 1
      invariant forall j :: 0 <= j < lo ==> a[j] == orig[n - 1 - j] && a[n - 1 - j] == orig[j]
      invariant forall j :: lo <= j <= hi ==> a[j] == orig[j]
    {
      a[lo], a[hi] := a[hi], a[lo];
      lo, hi := lo + 1, hi - 1;
    }
  }

  /** `[0.85 ** i for i in range(n)]`, then reversed in place. */
  method ComputeDecayWeights(n: nat) returns (w: seq<real>)
    ensures w == DecayWeights(n)
  {
    var weights := new real[n](j requires 0 <= j < n => Pow(DECAY_FACTOR, j));
    assert weights[..] == DecayPowers(n);
    ReverseInPlace(weights);
    w := weights[..];
  }

  /** `calculate_weekly_weight_changes`, returning all three values on every path. */
  method ComputeWeeklyWeightChanges(entries: seq<WeightEntry>) returns (r: TrendResult)
    ensures r == WeeklyWeightChanges(entries)
  {
    if |entries| < 2 {
      return TrendResult([], None, None);
    }
    var sorted := SortByDay(entries);
    var daily := ComputeDailyChanges(sorted);
    if daily == [] {
      return TrendResult([], None, None);
    }
    DailyChangesShape(sorted, |sorted|);
    var weekly := ComputeWeeklySeries(daily);
    if weekly == [] {
      return TrendResult([], None, None);
    }
    var n := |weekly|;
    var weights := ComputeDecayWeights(n);
    DecayWeightsPositive(n);
    var total := Sum(weights);
    var normalized := DivideAll(weights, total);
    var currentRate := Dot(weekly, normalized);
    assert weekly == WeeklyWeightChanges(entries).weekly;
    var trend: Option<real> := None;
    if n >= 2 {
      var recent := weekly[n - 2..];
      trend := Some(recent[1] - recent[0]);
    }
    r := TrendResult(weekly, Some(currentRate), trend);
  }
}
