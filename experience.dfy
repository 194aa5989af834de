/**
  The experience estimator of CVController (calculateExperienceYears).

  The text is searched twice. The date pattern yields, left to right, a start
  year and an end token (a four-digit year or one of the words present,
  current, now); the experience pattern yields the number in the first
  "N years of experience" statement. Both searches are taken as inputs here:
  a sequence of DateMatch values and an optional number. The current year is
  an input too.
*/
module ExperienceEstimator {
  import opened Wrappers
  import opened PhpMath

  /** A year as four decimal digits capture it. */
  type FourDigits = y: int | 0 <= y <= 9999

  /** The second capture of the date pattern: a year, or a word that stands for the current year. */
  datatype EndToken = Year(year: FourDigits) | Present | Current | Now

  /** One match of the date pattern. */
  datatype DateMatch = DateMatch(start: FourDigits, end: EndToken)

  /** (start year, end year). The source keys a period by the string "start-end", which is one-to-one on digit years. */
  type Period = (int, int)

  const MaxYears := 50
  /** How far an explicit statement may lie from the date-range total and still replace it. */
  const Tolerance := 2

  function Abs(x: int): int {
    if x < 0 then -x else x
  }

  /** The end year of a match: the words present, current and now stand for the current year. */
  function EndYear(e: EndToken, currentYear: int): (r: int)
    ensures e.Year? ==> r == e.year
    ensures !e.Year? ==> r == currentYear
  {
    match e
    case Year(y) => y
    case Present => currentYear
    case Current => currentYear
    case Now => currentYear
  }

  function PeriodOf(m: DateMatch, currentYear: int): Period {
    (m.start, EndYear(m.end, currentYear))
  }

  /** A period the estimator keeps: neither year in the future, and the start not after the end. */
  predicate Admissible(p: Period, currentYear: int) {
    !(p.0 > currentYear || p.1 > currentYear || p.0 > p.1)
  }

  function Span(p: Period): int {
    p.1 - p.0
  }

  predicate Distinct(d: seq<Period>) {
    forall a, b :: 0 <= a < b < |d| ==> d[a] != d[b]
  }

  /**
    The list of processed periods after the given matches: each admissible
    period once, in the order first seen.
  */
  function DistinctPeriods(ms: seq<DateMatch>, currentYear: int): (d: seq<Period>)
    ensures Distinct(d)
    ensures forall k :: 0 <= k < |d| ==> Admissible(d[k], currentYear)
    decreases |ms|
  {
    if ms == [] then []
    else
      var kept := DistinctPeriods(ms[..|ms| - 1], currentYear);
      var p := PeriodOf(ms[|ms| - 1], currentYear);
      if Admissible(p, currentYear) && p !in kept then kept + [p] else kept
  }

  /** The summed spans of a list of periods. */
  function SpanSum(d: seq<Period>): int
    decreases |d|
  {
    if d == [] then 0 else SpanSum(d[..|d| - 1]) + Span(d[|d| - 1])
  }

  /** The date-range total: what the loop of calculateExperienceYears accumulates. It is never negative. */
  function DateTotal(ms: seq<DateMatch>, currentYear: int): (r: int)
    ensures r >= 0
  {
    var d := DistinctPeriods(ms, currentYear);
    SpanSumNonNegative(d, currentYear);
    SpanSum(d)
  }

  /**
    The reconciliation step. The result is one of the two signals; a positive
    explicit figure replaces the date-range total when that total is 0 or lies
    within two years of it, and in no other case.
  */
  function Reconcile(dateTotal: int, explicitYears: int): (r: int)
    ensures r == dateTotal || r == explicitYears
    ensures explicitYears <= 0 ==> r == dateTotal
    ensures explicitYears > 0 && dateTotal == 0 ==> r == explicitYears
    ensures explicitYears > 0 && Abs(explicitYears - dateTotal) <= Tolerance ==> r == explicitYears
    ensures dateTotal != 0 && Abs(explicitYears - dateTotal) > Tolerance ==> r == dateTotal
  {
    if explicitYears > 0 && (dateTotal == 0 || Abs(explicitYears - dateTotal) <= Tolerance) then explicitYears
    else dateTotal
  }

  /** The final bound: values inside [0, 50] pass unchanged, others go to the nearer end. */
  function Clamp(x: int): (r: int)
    ensures 0 <= r <= MaxYears
    ensures 0 <= x <= MaxYears ==> r == x
    ensures x < 0 ==> r == 0
    ensures x > MaxYears ==> r == MaxYears
  {
    Max(0, Min(x, MaxYears))
  }

  /** The estimate for the given matches, first explicit statement (if any) and current year. */
  function ExperienceYears(ms: seq<DateMatch>, explicit: Option<nat>, currentYear: int): (r: int)
    ensures 0 <= r <= MaxYears
  {
    Clamp(Reconcile(DateTotal(ms, currentYear), explicit.GetOr(0)))
  }

  /** calculateExperienceYears, with the two pattern searches and date('Y') taken as inputs. */
  method CalculateExperienceYears(matches: seq<DateMatch>, explicit: Option<nat>, currentYear: int)
    returns (years: int)
    ensures years == ExperienceYears(matches, explicit, currentYear)
    ensures 0 <= years <= MaxYears
  {
    var totalYears := 0;
    var processedPeriods: seq<Period> := [];
    for i := 0 to |matches|
      invariant processedPeriods == DistinctPeriods(matches[..i], currentYear)
      invariant totalYears == SpanSum(processedPeriods)
    {
      assert matches[..i + 1][..i] == matches[..i];
      var startYear := matches[i].start;
      var endYear := match matches[i].end
        case Present => currentYear
        case Current => currentYear
        case Now => currentYear
        case Year(y) => y;
      if startYear > currentYear || endYear > currentYear || startYear > endYear {
        continue;
      }
      var period := (startYear, endYear);
      if period !in processedPeriods {
        processedPeriods := processedPeriods + [period];
        totalYears := totalYears + (endYear - startYear);
      }
    }
    assert matches[..|matches|] == matches;

    var explicitYears := match explicit
      case Some(n) => n
      case None => 0;
    if explicitYears > 0 && (totalYears == 0 || Abs(explicitYears - totalYears) <= Tolerance) {
      totalYears := explicitYears;
    }
    years := Max(0, Min(totalYears, MaxYears));
  }

  // ---------------------------------------------------------------------------
  // The date-range total is the sum over the SET of admissible periods.

  /** The admissible periods named by the matches, as a set. */
  ghost function AdmissiblePeriods(ms: seq<DateMatch>, currentYear: int): set<Period> {
    set i | 0 <= i < |ms| && Admissible(PeriodOf(ms[i], currentYear), currentYear) :: PeriodOf(ms[i], currentYear)
  }

  /** The summed spans of a set of periods. */
  ghost function SetSpanSum(s: set<Period>): int
    decreases |s|
  {
    if s == {} then 0 else var p :| p in s; Span(p) + SetSpanSum(s - {p})
  }

  /** Any element may be taken out first. */
  lemma {:induction false} SetSpanSumRemove(s: set<Period>, q: Period)
    requires q in s
    ensures SetSpanSum(s) == Span(q) + SetSpanSum(s - {q})
    decreases |s|
  {
    var p :| p in s && SetSpanSum(s) == Span(p) + SetSpanSum(s - {p});
    if p != q {
      SetSpanSumRemove(s - {p}, q);
      SetSpanSumRemove(s - {q}, p);
      assert s - {p} - {q} == s - {q} - {p};
    }
  }

  /** Over a list without repeats, summing the list and summing its set agree. */
  lemma {:induction false} SpanSumIsSetSpanSum(d: seq<Period>)
    requires Distinct(d)
    ensures SpanSum(d) == SetSpanSum(set x | x in d)
    decreases |d|
  {
    if d != [] {
      var init := d[..|d| - 1];
      var last := d[|d| - 1];
      assert Distinct(init);
      SpanSumIsSetSpanSum(init);
      var whole := set x | x in d;
      assert last in whole;
      SetSpanSumRemove(whole, last);
      assert whole - {last} == set x | x in init by {
        forall x | x in whole - {last}
          ensures x in init
        {
          var k :| 0 <= k < |d| && d[k] == x;
          assert k < |d| - 1;
          assert init[k] == x;
        }
      }
    }
  }

  /** The processed periods are exactly the admissible periods of the matches. */
  lemma {:induction false} DistinctPeriodsAreAdmissiblePeriods(ms: seq<DateMatch>, currentYear: int)
    ensures (set x | x in DistinctPeriods(ms, currentYear)) == AdmissiblePeriods(ms, currentYear)
    decreases |ms|
  {
    if ms != [] {
      var init := ms[..|ms| - 1];
      DistinctPeriodsAreAdmissiblePeriods(init, currentYear);
      var last := PeriodOf(ms[|ms| - 1], currentYear);
      var extra: set<Period> := if Admissible(last, currentYear) then {last} else {};
      assert AdmissiblePeriods(ms, currentYear) == AdmissiblePeriods(init, currentYear) + extra by {
        forall i | 0 <= i < |init|
          ensures init[i] == ms[i]
        {
        }
        forall x | x in AdmissiblePeriods(ms, currentYear)
          ensures x in AdmissiblePeriods(init, currentYear) + extra
        {
          var i :| 0 <= i < |ms| && Admissible(PeriodOf(ms[i], currentYear), currentYear) && x == PeriodOf(ms[i], currentYear);
          if i < |init| {
            assert init[i] == ms[i];
          }
        }
      }
    }
  }

  /**
    Every distinct admissible period adds its span exactly once, whatever the
    order of the matches and however often a period is repeated.
  */
  lemma DateTotalIsSetSum(ms: seq<DateMatch>, currentYear: int)
    ensures DateTotal(ms, currentYear) == SetSpanSum(AdmissiblePeriods(ms, currentYear))
  {
    SpanSumIsSetSpanSum(DistinctPeriods(ms, currentYear));
    DistinctPeriodsAreAdmissiblePeriods(ms, currentYear);
  }

  /** Spans of admissible periods are never negative, so neither is their sum. */
  lemma {:induction false} SpanSumNonNegative(d: seq<Period>, currentYear: int)
    requires forall k :: 0 <= k < |d| ==> Admissible(d[k], currentYear)
    ensures SpanSum(d) >= 0
    decreases |d|
  {
    if d != [] {
      SpanSumNonNegative(d[..|d| - 1], currentYear);
    }
  }

  /** Two match lists that name the same admissible periods give the same total. */
  lemma DateTotalDependsOnPeriodsOnly(ms1: seq<DateMatch>, ms2: seq<DateMatch>, currentYear: int)
    requires AdmissiblePeriods(ms1, currentYear) == AdmissiblePeriods(ms2, currentYear)
    ensures DateTotal(ms1, currentYear) == DateTotal(ms2, currentYear)
  {
    DateTotalIsSetSum(ms1, currentYear);
    DateTotalIsSetSum(ms2, currentYear);
  }

  /** Repeating every range of a CV does not change the total. */
  lemma DateTotalOfRepeatedRanges(ms: seq<DateMatch>, currentYear: int)
    ensures DateTotal(ms + ms, currentYear) == DateTotal(ms, currentYear)
  {
    assert AdmissiblePeriods(ms + ms, currentYear) == AdmissiblePeriods(ms, currentYear) by {
      forall x | x in AdmissiblePeriods(ms + ms, currentYear)
        ensures x in AdmissiblePeriods(ms, currentYear)
      {
        var i :| 0 <= i < |ms + ms| && Admissible(PeriodOf((ms + ms)[i], currentYear), currentYear)
          && x == PeriodOf((ms + ms)[i], currentYear);
        var j := if i < |ms| then i else i - |ms|;
        assert (ms + ms)[i] == ms[j];
      }
      forall x | x in AdmissiblePeriods(ms, currentYear)
        ensures x in AdmissiblePeriods(ms + ms, currentYear)
      {
        var i :| 0 <= i < |ms| && Admissible(PeriodOf(ms[i], currentYear), currentYear)
          && x == PeriodOf(ms[i], currentYear);
        assert (ms + ms)[i] == ms[i];
      }
    }
    DateTotalDependsOnPeriodsOnly(ms + ms, ms, currentYear);
  }

  /** A future or inverted range adds nothing. */
  lemma DateTotalSkipsInadmissible(ms: seq<DateMatch>, m: DateMatch, currentYear: int)
    requires !Admissible(PeriodOf(m, currentYear), currentYear)
    ensures DateTotal(ms + [m], currentYear) == DateTotal(ms, currentYear)
  {
  }

  /** A new admissible range adds its span; one already seen adds nothing. */
  lemma DateTotalAddsNewRange(ms: seq<DateMatch>, m: DateMatch, currentYear: int)
    requires Admissible(PeriodOf(m, currentYear), currentYear)
    ensures PeriodOf(m, currentYear) in AdmissiblePeriods(ms, currentYear) ==>
      DateTotal(ms + [m], currentYear) == DateTotal(ms, currentYear)
    ensures PeriodOf(m, currentYear) !in AdmissiblePeriods(ms, currentYear) ==>
      DateTotal(ms + [m], currentYear) == DateTotal(ms, currentYear) + Span(PeriodOf(m, currentYear))
  {
    assert (ms + [m])[..|ms|] == ms;
    DistinctPeriodsAreAdmissiblePeriods(ms, currentYear);
  }

  // ---------------------------------------------------------------------------
  // The estimate as a whole.

  /** With no date range and no explicit statement the estimate is 0. */
  lemma NoSignalsNoExperience(currentYear: int)
    ensures ExperienceYears([], None, currentYear) == 0
  {
  }

  /** A figure of 0, or no statement at all, leaves the clamped date-range total. */
  lemma ZeroStatementIgnored(ms: seq<DateMatch>, currentYear: int)
    ensures ExperienceYears(ms, Some(0), currentYear) == ExperienceYears(ms, None, currentYear)
    ensures ExperienceYears(ms, None, currentYear) == Min(DateTotal(ms, currentYear), MaxYears)
  {
  }

  /** "2018-2020" gives 2 years, also when the range appears twice. */
  lemma ExampleSingleRange(currentYear: int)
    requires currentYear >= 2020
    ensures ExperienceYears([DateMatch(2018, Year(2020))], None, currentYear) == 2
    ensures ExperienceYears([DateMatch(2018, Year(2020)), DateMatch(2018, Year(2020))], None, currentYear) == 2
  {
    var m := [DateMatch(2018, Year(2020))];
    assert DistinctPeriods(m, currentYear) == [(2018, 2020)];
    assert [(2018, 2020)][..0] == [];
    assert DateTotal(m, currentYear) == 2;
    assert m + m == [DateMatch(2018, Year(2020)), DateMatch(2018, Year(2020))];
    DateTotalOfRepeatedRanges(m, currentYear);
  }

  /** "2018-present" in 2024 gives 6 years. */
  lemma ExampleOpenRange()
    ensures ExperienceYears([DateMatch(2018, Present)], None, 2024) == 6
  {
  }

  /** "2015-present" in 2024 with "5 years of experience": 9 and 5 are more than two apart, so 9 stands. */
  lemma ExampleStatementTooFarOff()
    ensures ExperienceYears([DateMatch(2015, Present)], Some(5), 2024) == 9
  {
  }

  /** "3+ years of experience" alone gives 3. */
  lemma ExampleStatementOnly(currentYear: int)
    ensures ExperienceYears([], Some(3), currentYear) == 3
  {
  }

  /** "2025-2020" is inverted and contributes nothing, whatever the current year. */
  lemma ExampleInvertedRange(currentYear: int)
    ensures ExperienceYears([DateMatch(2025, Year(2020))], None, currentYear) == 0
  {
  }
}
