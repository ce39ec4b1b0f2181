/** The engine's inputs: the user profile it reads and the weight entries of the
    user's history, plus the ordering by date that every computation relies on
    (the source's `sorted(weight_entries, key=lambda x: x.date)`). */
module Entries {
  import opened Base

  /** A weight measurement: the calendar day it was taken (a day number) and the
      weight in pounds, the unit the store keeps. */
  datatype WeightEntry = WeightEntry(day: int, weightLb: real)

  /** The profile attributes the engine reads. `intensity` and `preferredUnit` are
      not columns of the stored user and may be absent: where the source reads them
      with `getattr` they default to 'moderate' and 'lbs'. */
  datatype Profile = Profile(
    weightLb: real,
    heightIn: real,
    age: int,
    gender: string,
    activityLevel: string,
    goal: string,
    intensity: Option<string>,
    preferredUnit: Option<string>)

  /** `getattr(user, 'intensity', 'moderate')` */
  function Intensity(p: Profile): string {
    p.intensity.GetOr("moderate")
  }

  /** `getattr(user, 'preferred_unit', 'lbs')` */
  function PreferredUnit(p: Profile): string {
    p.preferredUnit.GetOr("lbs")
  }

  predicate SortedByDay(s: seq<WeightEntry>) {
    forall i, j :: 0 <= i < j < |s| ==> s[i].day <= s[j].day
  }

  /** Inserts `e` into a day-ordered sequence before the first entry that is not
      earlier than it, so that `e` precedes entries of the same day that came after
      it in the input. */
  function InsertByDay(e: WeightEntry, s: seq<WeightEntry>): (r: seq<WeightEntry>)
    ensures |r| == |s| + 1
    ensures multiset(r) == multiset(s) + multiset{e}
    ensures r[0] == e || (s != [] && r[0] == s[0])
  {
    if s == [] || e.day <= s[0].day then
      [e] + s
    else
      assert s == [s[0]] + s[1..];
      [s[0]] + InsertByDay(e, s[1..])
  }

  lemma {:induction false} InsertByDaySorted(e: WeightEntry, s: seq<WeightEntry>)
    requires SortedByDay(s)
    ensures SortedByDay(InsertByDay(e, s))
  {
    if s != [] && e.day > s[0].day {
      TailSorted(s);
      InsertByDaySorted(e, s[1..]);
      var rest := InsertByDay(e, s[1..]);
      assert s[0].day <= rest[0].day by {
        if rest[0] != e {
          assert rest[0] == s[1];
        }
      }
      var r := [s[0]] + rest;
      assert r == InsertByDay(e, s);
      forall i, j | 0 <= i < j < |r| ensures r[i].day <= r[j].day {
        assert r[j] == rest[j - 1];
        if i == 0 {
          assert j == 1 || rest[0].day <= rest[j - 1].day;
        } else {
          assert r[i] == rest[i - 1];
        }
      }
    }
  }

  /** Python's `sorted(entries, key=lambda x: x.date)`: a stable sort by day. */
  function SortByDay(s: seq<WeightEntry>): (r: seq<WeightEntry>)
    ensures |r| == |s|
    ensures multiset(r) == multiset(s)
    ensures SortedByDay(r)
  {
    if s == [] then
      []
    else
      assert s == [s[0]] + s[1..];
      InsertByDaySorted(s[0], SortByDay(s[1..]));
      InsertByDay(s[0], SortByDay(s[1..]))
  }

  /** Sorting an already day-ordered history (what the engine's caller passes in)
      leaves it unchanged. */
  lemma {:induction false} SortByDayOfSorted(s: seq<WeightEntry>)
    requires SortedByDay(s)
    ensures SortByDay(s) == s
  {
    if s != [] {
      assert SortedByDay(s[1..]);
      SortByDayOfSorted(s[1..]);
      assert s == [s[0]] + s[1..];
    }
  }

  /** Every entry of the history occurs in its sorted copy and vice versa. */
  lemma SortByDaySameEntries(s: seq<WeightEntry>)
    ensures forall e :: e in SortByDay(s) <==> e in s
  {
    var r := SortByDay(s);
    forall e ensures e in r <==> e in s {
      assert e in r <==> e in multiset(r);
      assert e in s <==> e in multiset(s);
    }
  }

  /** The first sorted entry is the earliest one of the history. */
  lemma SortByDayFirstIsEarliest(s: seq<WeightEntry>)
    requires |s| > 0
    ensures SortByDay(s)[0] in s
    ensures forall i :: 0 <= i < |s| ==> SortByDay(s)[0].day <= s[i].day
  {
    var r := SortByDay(s);
    SortByDaySameEntries(s);
    assert r[0] in r;
    forall i | 0 <= i < |s| ensures r[0].day <= s[i].day {
      assert s[i] in r;
      var k :| 0 <= k < |r| && r[k] == s[i];
      assert k == 0 || r[0].day <= r[k].day;
    }
  }

  /** The entries taken at most `days` days before `today`, in their order (the
      source's `date >= now - timedelta(...)` query filters and the
      `(now - e.date).days <= N` comprehension). */
  function EntriesWithin(s: seq<WeightEntry>, today: int, days: int): (r: seq<WeightEntry>)
    ensures |r| <= |s|
    ensures forall e :: e in r <==> e in s && today - e.day <= days
    ensures SortedByDay(s) ==> SortedByDay(r)
  {
    if s == [] then []
    else
      var rest := EntriesWithin(s[1..], today, days);
      assert forall e :: e in s <==> e == s[0] || e in s[1..];
      TailSorted(s);
      if today - s[0].day <= days then
        ConsSorted(s, rest);
        [s[0]] + rest
      else rest
  }

  lemma TailSorted(s: seq<WeightEntry>)
    requires s != []
    ensures SortedByDay(s) ==> SortedByDay(s[1..])
  {
    if SortedByDay(s) {
      forall i, j | 0 <= i < j < |s| - 1 ensures s[1..][i].day <= s[1..][j].day {
        assert s[1..][i] == s[i + 1] && s[1..][j] == s[j + 1];
      }
    }
  }

  /** The head of a day-ordered sequence followed by a day-ordered selection of its tail is day-ordered. */
  lemma ConsSorted(s: seq<WeightEntry>, rest: seq<WeightEntry>)
    requires s != [] && forall e :: e in rest ==> e in s[1..]
    requires SortedByDay(s[1..]) ==> SortedByDay(rest)
    ensures SortedByDay(s) ==> SortedByDay([s[0]] + rest)
  {
    if SortedByDay(s) {
      TailSorted(s);
      var r := [s[0]] + rest;
      forall i, j | 0 <= i < j < |r| ensures r[i].day <= r[j].day {
        assert r[j] == rest[j - 1];
        if i == 0 {
          assert rest[j - 1] in s[1..];
          var k :| 0 <= k < |s| - 1 && s[1..][k] == rest[j - 1];
          assert s[k + 1] == rest[j - 1];
        } else {
          assert r[i] == rest[i - 1];
        }
      }
    }
  }
}
