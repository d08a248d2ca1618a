/**
 * The coefficient resolvers: one total function per rating factor, each a
 * table lookup with a conservative default when the table has no entry.
 */
module Coefficients {
  import opened Options
  import opened Tables

  /** Python's `int()` on a number: truncation toward zero. */
  function Truncate(x: real): (r: int)
    ensures 0.0 <= x ==> 0 <= r && r as real <= x < r as real + 1.0
    ensures x < 0.0 ==> r <= 0 && r as real - 1.0 < x <= r as real
  {
    if x >= 0.0 then x.Floor else -((-x).Floor)
  }

  // ---------------------------------------------------------------------------
  // Holder category (KO), territory (KT) and period (KC): lookups with a default
  // ---------------------------------------------------------------------------

  /** Holder-category coefficient; an unknown category costs 1. */
  function KoCoef(category: string): (r: real)
    ensures category in KoTable ==> r == KoTable[category]
    ensures category !in KoTable ==> r == 1.0
    ensures 1.0 <= r <= 3.16
  {
    if category in KoTable then KoTable[category] else 1.0
  }

  /** Territorial coefficient; an unknown city costs 1.5, inside the range of the known ones. */
  function KtCoef(city: string): (r: real)
    ensures city in KtTable ==> r == KtTable[city]
    ensures city !in KtTable ==> r == 1.5
    ensures 1.08 <= r <= 1.8
  {
    if city in KtTable then KtTable[city] else 1.5
  }

  /** Period coefficient; a period outside the table costs 1, the full-year rate. */
  function KcCoef(period: int): (r: real)
    ensures period in KcTable <==> 3 <= period <= 12
    ensures period in KcTable ==> r == KcTable[period]
    ensures period !in KcTable ==> r == 1.0
    ensures 0.5 <= r <= 1.0
  {
    if period in KcTable then KcTable[period] else 1.0
  }

  /** A longer policy never costs less per the period table. */
  lemma KcLongerPeriod(p1: int, p2: int)
    requires 3 <= p1 <= p2 <= 12
    ensures KcCoef(p1) <= KcCoef(p2)
  {
  }

  // ---------------------------------------------------------------------------
  // Bonus-malus (KBM): exact pair match, worst case otherwise
  // ---------------------------------------------------------------------------

  /** The shape of one line of the bonus-malus table: within [0.46, 3.92], rising, ending in 3.92. */
  ghost predicate KbmLine(r: seq<real>) {
    && |r| > 0
    && (forall i :: 0 <= i < |r| ==> 0.46 <= r[i] <= 3.92)
    && (forall i, j :: 0 <= i <= j < |r| ==> r[i] <= r[j])
    && r[|r| - 1] == 3.92
  }

  lemma KbmLinesEarly(period: int)
    requires 1 <= period <= 4
    ensures KbmLine(KbmRow(period))
  {
    // One branch per table line, so that the solver unfolds one line at a time.
    if period == 1 {
      assert KbmRow(1) == [1.76, 3.92];
    } else if period == 2 {
      assert KbmRow(2) == [1.17, 2.25, 3.92];
    } else if period == 3 {
      assert KbmRow(3) == [1.0, 2.25, 3.92];
    } else {
      assert KbmRow(4) == [0.91, 1.76, 2.25, 3.92];
    }
  }

  lemma KbmLinesMiddle(period: int)
    requires 5 <= period <= 8
    ensures KbmLine(KbmRow(period))
  {
    // One branch per table line, so that the solver unfolds one line at a time.
    if period == 5 {
      assert KbmRow(5) == [0.83, 1.17, 2.25, 3.92];
    } else if period == 6 {
      assert KbmRow(6) == [0.78, 1.0, 1.76, 3.92];
    } else if period == 7 {
      assert KbmRow(7) == [0.74, 1.0, 1.76, 3.92];
    } else {
      assert KbmRow(8) == [0.68, 0.91, 1.76, 3.92];
    }
  }

  lemma KbmLinesLate(period: int)
    requires 9 <= period <= 12
    ensures KbmLine(KbmRow(period))
  {
    // One branch per table line, so that the solver unfolds one line at a time.
    if period == 9 {
      assert KbmRow(9) == [0.63, 0.91, 1.76, 2.25, 3.92];
    } else if period == 10 {
      assert KbmRow(10) == [0.57, 0.83, 1.76, 2.25, 3.92];
    } else if period == 11 {
      assert KbmRow(11) == [0.52, 0.83, 1.76, 2.25, 3.92];
    } else {
      assert KbmRow(12) == [0.46, 0.78, 1.76, 2.25, 3.92];
    }
  }

  /** Every line of the bonus-malus table lies in [0.46, 3.92], grows with the
      accident count and ends in the worst case 3.92. */
  lemma KbmRowShape(period: int)
    ensures forall i :: 0 <= i < |KbmRow(period)| ==> 0.46 <= KbmRow(period)[i] <= 3.92
    ensures forall i, j :: 0 <= i <= j < |KbmRow(period)| ==> KbmRow(period)[i] <= KbmRow(period)[j]
    ensures 1 <= period <= 12 <==> |KbmRow(period)| > 0
    ensures 1 <= period <= 12 ==> KbmRow(period)[|KbmRow(period)| - 1] == 3.92
  {
    // One branch per group of lines, each proved by its own lemma, so no proof unfolds the whole table.
    if 1 <= period <= 4 {
      KbmLinesEarly(period);
    } else if 5 <= period <= 8 {
      KbmLinesMiddle(period);
    } else if 9 <= period <= 12 {
      KbmLinesLate(period);
    }
  }

  /** Membership in the bonus-malus table. */
  lemma KbmTableKeys(period: int, accidents: int)
    ensures (period, accidents) in KbmTable() <==> 1 <= period <= 12 && 0 <= accidents < |KbmRow(period)|
    ensures (period, accidents) in KbmTable() ==> KbmTable()[(period, accidents)] == KbmRow(period)[accidents]
  {
  }

  /**
   * Bonus-malus coefficient for `accidents` accidents over `period` years:
   * the table cell for exactly that pair, else the worst case 3.92. Since
   * 3.92 is also the largest cell, the result always lies in [0.46, 3.92].
   */
  function KbmCoef(period: int, accidents: int): (r: real)
    ensures (period, accidents) in KbmTable() ==> r == KbmTable()[(period, accidents)]
    ensures (period, accidents) !in KbmTable() ==> r == 3.92
    ensures 0.46 <= r <= 3.92
  {
    KbmTableKeys(period, accidents);
    KbmRowShape(period);
    if (period, accidents) in KbmTable() then KbmTable()[(period, accidents)] else 3.92
  }

  /** There is no nearest-cell fallback: pairs just outside the table get the worst case. */
  lemma KbmNoNearestCell()
    ensures KbmCoef(1, 2) == 3.92 && KbmCoef(13, 0) == 3.92 && KbmCoef(0, 0) == 3.92
  {
    KbmTableKeys(1, 2);
    KbmTableKeys(13, 0);
    KbmTableKeys(0, 0);
  }

  /** Pairs inside the table get their own cell. */
  lemma KbmExactCells()
    ensures KbmCoef(3, 0) == 1.0 && KbmCoef(12, 0) == 0.46
  {
    assert KbmRow(3)[0] == 1.0;
    KbmTableKeys(3, 0);
    assert KbmRow(12)[0] == 0.46;
    KbmTableKeys(12, 0);
  }

  /** More accidents over the same period never lower the coefficient. */
  lemma KbmMoreAccidents(period: int, a1: int, a2: int)
    requires 0 <= a1 <= a2
    ensures KbmCoef(period, a1) <= KbmCoef(period, a2)
  {
    KbmTableKeys(period, a1);
    KbmTableKeys(period, a2);
    KbmRowShape(period);
  }

  /** Line `period + 1` of the bonus-malus table is at least as long as line `period` and pointwise no higher. */
  ghost predicate KbmLineBelow(period: int) {
    && |KbmRow(period)| <= |KbmRow(period + 1)|
    && forall a :: 0 <= a < |KbmRow(period)| ==> KbmRow(period + 1)[a] <= KbmRow(period)[a]
  }

  lemma KbmDescendFirst(period: int)
    requires 1 <= period <= 3
    ensures KbmLineBelow(period)
  {
    // One branch per table line, so that the solver unfolds one line at a time.
    if period == 1 {} else if period == 2 {} else {}
  }

  lemma KbmDescendSecond(period: int)
    requires 4 <= period <= 6
    ensures KbmLineBelow(period)
  {
    // One branch per table line, so that the solver unfolds one line at a time.
    if period == 4 {} else if period == 5 {} else {}
  }

  lemma KbmDescendThird(period: int)
    requires 7 <= period <= 9
    ensures KbmLineBelow(period)
  {
    // One branch per table line, so that the solver unfolds one line at a time.
    if period == 7 {} else if period == 8 {} else {}
  }

  lemma KbmDescendFourth(period: int)
    requires 10 <= period <= 11
    ensures KbmLineBelow(period)
  {
    // One branch per table line, so that the solver unfolds one line at a time.
    if period == 10 {} else {}
  }

  /** Each line of the bonus-malus table is pointwise no higher than the line before it. */
  lemma KbmRowsDescend(period: int)
    requires 1 <= period < 12
    ensures |KbmRow(period)| <= |KbmRow(period + 1)|
    ensures forall a :: 0 <= a < |KbmRow(period)| ==> KbmRow(period + 1)[a] <= KbmRow(period)[a]
  {
    // One branch per group of lines, each proved by its own lemma, so no proof unfolds the whole table.
    if period <= 3 {
      KbmDescendFirst(period);
    } else if period <= 6 {
      KbmDescendSecond(period);
    } else if period <= 9 {
      KbmDescendThird(period);
    } else {
      KbmDescendFourth(period);
    }
  }

  /** Lengthening a valid history period by one year never raises the coefficient. */
  lemma KbmNextPeriod(period: int, accidents: int)
    requires 1 <= period < 12 && 0 <= accidents
    ensures KbmCoef(period + 1, accidents) <= KbmCoef(period, accidents)
  {
    KbmTableKeys(period, accidents);
    KbmTableKeys(period + 1, accidents);
    KbmRowsDescend(period);
    KbmRowShape(period + 1);
  }

  /** The same number of accidents over a longer observation period never raises the coefficient. */
  lemma {:induction false} KbmLongerHistory(p1: int, p2: int, accidents: int)
    requires 1 <= p1 <= p2 <= 12 && 0 <= accidents
    ensures KbmCoef(p2, accidents) <= KbmCoef(p1, accidents)
    decreases p2 - p1
  {
    if p1 < p2 {
      KbmLongerHistory(p1, p2 - 1, accidents);
      KbmNextPeriod(p2 - 1, accidents);
    }
  }

  // ---------------------------------------------------------------------------
  // Experience and age (KBS): scan of half-open age bands
  // ---------------------------------------------------------------------------

  /** `int(min(experience, 20))`: whole years of experience, capped at 20. */
  function ClampExperience(experience: real): (k: int)
    ensures experience >= 20.0 ==> k == 20
    ensures 0.0 <= experience < 20.0 ==> 0 <= k < 20 && k as real <= experience < k as real + 1.0
    ensures experience < 0.0 ==> k <= 0 && k as real - 1.0 < experience <= k as real
  {
    Truncate(if experience < 20.0 then experience else 20.0)
  }

  /** A row applies to whole experience `years` and `age` inside its half-open range. */
  predicate Matches(row: KbsRow, years: int, age: int) {
    row.experience == years && row.minAge <= age < row.maxAge
  }

  /** The coefficient of the first row that applies, scanning in table order. */
  function FirstMatch(rows: seq<KbsRow>, years: int, age: int): (r: Option<real>)
    ensures r.None? <==> forall i :: 0 <= i < |rows| ==> !Matches(rows[i], years, age)
    ensures r.Some? ==> exists i :: 0 <= i < |rows| && Matches(rows[i], years, age) && rows[i].coef == r.value &&
                                   (forall j :: 0 <= j < i ==> !Matches(rows[j], years, age))
    decreases |rows|
  {
    if rows == [] then None
    else if Matches(rows[0], years, age) then Some(rows[0].coef)
    else
      var r := FirstMatch(rows[1..], years, age);
      assert forall i :: 1 <= i < |rows| ==> rows[i] == rows[1..][i - 1];
      r
  }

  /** Band lists are non-empty half-open ranges in strictly increasing, non-overlapping order. */
  ghost predicate Banded(bands: seq<Band>) {
    && (forall i :: 0 <= i < |bands| ==> bands[i].minAge < bands[i].maxAge)
    && (forall i, j :: 0 <= i < j < |bands| ==> bands[i].maxAge <= bands[j].minAge)
  }

  /** A band list that is `Banded`, within ages 18..150, with coefficients in [0.83, 2.27]. */
  ghost predicate TableBands(bands: seq<Band>) {
    && Banded(bands)
    && (forall i :: 0 <= i < |bands| ==> 18 <= bands[i].minAge && bands[i].maxAge <= 150)
    && (forall i :: 0 <= i < |bands| ==> 0.83 <= bands[i].coef <= 2.27)
  }

  lemma TableBandsNovice(years: int)
    requires 0 <= years <= 1
    ensures TableBands(KbsBands(years))
  {
    // One branch per table line, so that the solver unfolds one line at a time.
    if years == 0 {} else {}
  }

  lemma TableBandsShort(years: int)
    requires 2 <= years <= 4
    ensures TableBands(KbsBands(years))
  {
    // One branch per table line, so that the solver unfolds one line at a time.
    if years == 2 {} else {}
  }

  lemma TableBandsMiddle(years: int)
    requires 5 <= years <= 9
    ensures TableBands(KbsBands(years))
  {
    // One branch per table line, so that the solver unfolds one line at a time.
    if years <= 6 {} else {}
  }

  lemma TableBandsLong(years: int)
    requires 10 <= years <= 20
    ensures TableBands(KbsBands(years))
  {
    // One branch per table line, so that the solver unfolds one line at a time.
    if years <= 14 {} else {}
  }

  /** The band list of every experience year has the shape `TableBands` describes. */
  lemma KbsBandsShape(years: int)
    ensures TableBands(KbsBands(years))
  {
    // One branch per group of lines, each proved by its own lemma, so no proof unfolds the whole table.
    if years < 0 || years > 20 {
    } else if years <= 1 {
      TableBandsNovice(years);
    } else if years <= 4 {
      TableBandsShort(years);
    } else if years <= 9 {
      TableBandsMiddle(years);
    } else {
      TableBandsLong(years);
    }
  }

  /** Within each experience year the age bands are non-empty, disjoint and increasing. */
  lemma KbsBandsBanded(years: int)
    ensures Banded(KbsBands(years))
  {
    KbsBandsShape(years);
  }

  /** Every age band of the table lies within ages 18..149. */
  lemma KbsBandsAges(years: int)
    ensures forall b :: b in KbsBands(years) ==> 18 <= b.minAge && b.maxAge <= 150
  {
    KbsBandsShape(years);
  }

  /** Every experience/age coefficient lies between 0.83 and 2.27. */
  lemma KbsBandsRange(years: int)
    ensures forall b :: b in KbsBands(years) ==> 0.83 <= b.coef <= 2.27
  {
    KbsBandsShape(years);
  }

  /** A row belongs to the rows of one year exactly when it carries that year and one of its bands. */
  lemma RowsContent(years: int, bands: seq<Band>, row: KbsRow)
    ensures row in Rows(years, bands) <==> row.experience == years && Band(row.minAge, row.maxAge, row.coef) in bands
  {
    var rows := Rows(years, bands);
    if row.experience == years && Band(row.minAge, row.maxAge, row.coef) in bands {
      var i :| 0 <= i < |bands| && bands[i] == Band(row.minAge, row.maxAge, row.coef);
      assert rows[i] == row;
    }
  }

  lemma {:induction false} KbsRowsFromContent(from: nat, row: KbsRow)
    ensures row in KbsRowsFrom(from) <==>
      from <= row.experience <= 20 && Band(row.minAge, row.maxAge, row.coef) in KbsBands(row.experience)
    decreases 21 - from
  {
    if from <= 20 {
      RowsContent(from, KbsBands(from), row);
      KbsRowsFromContent(from + 1, row);
    }
  }

  /** The table holds exactly the bands of each year 0..20 tagged with that year. */
  lemma KbsTableContent(row: KbsRow)
    ensures row in KbsTable() <==>
      0 <= row.experience <= 20 && Band(row.minAge, row.maxAge, row.coef) in KbsBands(row.experience)
  {
    KbsRowsFromContent(0, row);
  }

  /** For any experience and age at most one row of the table applies. */
  lemma KbsAtMostOneMatch(years: int, age: int, r1: KbsRow, r2: KbsRow)
    requires r1 in KbsTable() && Matches(r1, years, age)
    requires r2 in KbsTable() && Matches(r2, years, age)
    ensures r1 == r2
  {
    KbsTableContent(r1);
    KbsTableContent(r2);
    var bands := KbsBands(years);
    KbsBandsBanded(years);
    var i :| 0 <= i < |bands| && bands[i] == Band(r1.minAge, r1.maxAge, r1.coef);
    var j :| 0 <= j < |bands| && bands[j] == Band(r2.minAge, r2.maxAge, r2.coef);
    assert i == j;
  }

  /**
   * Experience/age coefficient: the coefficient of the row for the capped
   * whole years of experience whose age range holds `age`, else 1.5. At most
   * one row applies, so the scan order does not matter.
   */
  function KbsCoef(experience: real, age: int): (r: real)
    ensures forall row :: row in KbsTable() && Matches(row, ClampExperience(experience), age) ==> r == row.coef
    ensures (forall row :: row in KbsTable() ==> !Matches(row, ClampExperience(experience), age)) ==> r == 1.5
    ensures 0.83 <= r <= 2.27
  {
    var years := ClampExperience(experience);
    var m := FirstMatch(KbsTable(), years, age);
    match m
    case Some(c) =>
      assert forall row :: row in KbsTable() && Matches(row, years, age) ==> row.coef == c by {
        forall row | row in KbsTable() && Matches(row, years, age)
          ensures row.coef == c
        {
          var i :| 0 <= i < |KbsTable()| && Matches(KbsTable()[i], years, age) && KbsTable()[i].coef == c;
          KbsAtMostOneMatch(years, age, row, KbsTable()[i]);
        }
      }
      assert 0.83 <= c <= 2.27 by {
        var i :| 0 <= i < |KbsTable()| && Matches(KbsTable()[i], years, age) && KbsTable()[i].coef == c;
        var row := KbsTable()[i];
        KbsTableContent(row);
        KbsBandsRange(row.experience);
      }
      c
    case None =>
      1.5
  }

  /** The coefficient read off the band list of the capped experience year. */
  lemma KbsByBand(experience: real, age: int, b: Band)
    requires b in KbsBands(ClampExperience(experience)) && b.minAge <= age < b.maxAge
    ensures KbsCoef(experience, age) == b.coef
  {
    var row := KbsRow(ClampExperience(experience), b.minAge, b.maxAge, b.coef);
    KbsTableContent(row);
  }

  /** With no band of the capped experience year holding `age`, the default 1.5 applies. */
  lemma KbsNoBand(experience: real, age: int)
    requires forall b :: b in KbsBands(ClampExperience(experience)) ==> !(b.minAge <= age < b.maxAge)
    ensures KbsCoef(experience, age) == 1.5
  {
    var years := ClampExperience(experience);
    forall row | row in KbsTable()
      ensures !Matches(row, years, age)
    {
      KbsTableContent(row);
    }
  }

  /** Experience of 20 years or more is rated exactly as 20 years. */
  lemma KbsCapsAtTwenty(experience: real, age: int)
    requires experience >= 20.0
    ensures KbsCoef(experience, age) == KbsCoef(20.0, age)
  {
  }

  /** Fractional experience is rated by its whole years. */
  lemma KbsWholeYears(experience: real, age: int)
    requires 0.0 <= experience
    ensures KbsCoef(experience, age) == KbsCoef(experience.Floor as real, age)
  {
  }

  /** Ages outside 18..149 have no row at any experience: the default 1.5 applies. */
  lemma KbsAgeOutOfTable(experience: real, age: int)
    requires age < 18 || age >= 150
    ensures KbsCoef(experience, age) == 1.5
  {
    KbsBandsAges(ClampExperience(experience));
    KbsNoBand(experience, age);
  }

  /** Seven to nine years of experience have no row below age 22: the default 1.5 applies. */
  lemma KbsSevenToNineYoung(experience: real, age: int)
    requires 7.0 <= experience < 10.0 && age < 22
    ensures KbsCoef(experience, age) == 1.5
  {
    var years := ClampExperience(experience);
    assert 7 <= years <= 9;
    forall b | b in KbsBands(years)
      ensures !(b.minAge <= age < b.maxAge)
    {
    }
    KbsNoBand(experience, age);
  }

  /** Ten to fourteen years of experience have no row below age 25: the default 1.5 applies. */
  lemma KbsTenToFourteenYoung(experience: real, age: int)
    requires 10.0 <= experience < 15.0 && age < 25
    ensures KbsCoef(experience, age) == 1.5
  {
    var years := ClampExperience(experience);
    assert 10 <= years <= 14;
    forall b | b in KbsBands(years)
      ensures !(b.minAge <= age < b.maxAge)
    {
    }
    KbsNoBand(experience, age);
  }

  /** Fifteen or more years of experience have no row below age 30: the default 1.5 applies. */
  lemma KbsFifteenPlusYoung(experience: real, age: int)
    requires 15.0 <= experience && age < 30
    ensures KbsCoef(experience, age) == 1.5
  {
    var years := ClampExperience(experience);
    assert 15 <= years <= 20;
    forall b | b in KbsBands(years)
      ensures !(b.minAge <= age < b.maxAge)
    {
    }
    KbsNoBand(experience, age);
  }

  // ---------------------------------------------------------------------------
  // Engine power (KM): ascending threshold scan
  // ---------------------------------------------------------------------------

  /** The power thresholds are the keys of the power table in ascending order. */
  lemma KmThresholdsSorted()
    ensures forall t :: t in KmTable <==> t in KmThresholds
    ensures forall i, j :: 0 <= i < j < |KmThresholds| ==> KmThresholds[i] < KmThresholds[j]
    ensures forall t :: t in KmTable ==> 0.6 <= KmTable[t] <= 1.4
  {
  }

  /** The first key of `keys` that is at least `power`. */
  function FirstAtLeast(keys: seq<int>, power: real): (r: Option<int>)
    ensures r.None? <==> forall i :: 0 <= i < |keys| ==> keys[i] as real < power
    ensures r.Some? ==> exists i :: 0 <= i < |keys| && keys[i] == r.value && power <= keys[i] as real &&
                                   (forall j :: 0 <= j < i ==> keys[j] as real < power)
    decreases |keys|
  {
    if keys == [] then None
    else if power <= keys[0] as real then Some(keys[0])
    else
      var r := FirstAtLeast(keys[1..], power);
      assert forall i :: 1 <= i < |keys| ==> keys[i] == keys[1..][i - 1];
      r
  }

  /** `t` is the smallest power threshold not below `power`. */
  ghost predicate LeastThreshold(t: int, power: real) {
    t in KmTable && power <= t as real && forall u :: u in KmTable && power <= u as real ==> t <= u
  }

  /**
   * Power coefficient: the value of the smallest threshold at least `power`,
   * and 1.6 above the largest threshold 150.
   */
  function KmCoef(power: real): (r: real)
    ensures forall t :: LeastThreshold(t, power) ==> r == KmTable[t]
    ensures power <= 150.0 <==> exists t :: LeastThreshold(t, power)
    ensures power > 150.0 ==> r == 1.6
    ensures 0.6 <= r <= 1.6
  {
    KmThresholdsSorted();
    match FirstAtLeast(KmThresholds, power)
    case Some(t) =>
      assert LeastThreshold(t, power) by {
        var i :| 0 <= i < |KmThresholds| && KmThresholds[i] == t && power <= t as real &&
          forall j :: 0 <= j < i ==> KmThresholds[j] as real < power;
        forall u | u in KmTable && power <= u as real
          ensures t <= u
        {
          var k :| 0 <= k < |KmThresholds| && KmThresholds[k] == u;
          assert !(k < i);
        }
      }
      assert forall t' :: LeastThreshold(t', power) ==> t' == t;
      KmTable[t]
    case None =>
      assert KmThresholds[4] == 150;
      if power > 150.0 then 1.6 else 1.0
  }

  /** A power above threshold `i - 1` and at most threshold `i` is rated by threshold `i`. */
  lemma KmBracket(i: nat, power: real)
    requires i < |KmThresholds|
    requires i > 0 ==> KmThresholds[i - 1] as real < power
    requires power <= KmThresholds[i] as real
    ensures KmCoef(power) == KmTable[KmThresholds[i]]
  {
    KmThresholdsSorted();
    var t := KmThresholds[i];
    forall u | u in KmTable && power <= u as real
      ensures t <= u
    {
      var k :| 0 <= k < |KmThresholds| && KmThresholds[k] == u;
      assert !(k < i);
    }
    assert LeastThreshold(t, power);
  }

  /** Each bracket of the power table, boundaries included in the lower bracket. */
  lemma KmBrackets(power: real)
    ensures power <= 50.0 ==> KmCoef(power) == 0.6
    ensures 50.0 < power <= 70.0 ==> KmCoef(power) == 1.0
    ensures 70.0 < power <= 100.0 ==> KmCoef(power) == 1.1
    ensures 100.0 < power <= 120.0 ==> KmCoef(power) == 1.2
    ensures 120.0 < power <= 150.0 ==> KmCoef(power) == 1.4
    ensures 150.0 < power ==> KmCoef(power) == 1.6
  {
    if power <= 50.0 { KmBracket(0, power); }
    else if power <= 70.0 { KmBracket(1, power); }
    else if power <= 100.0 { KmBracket(2, power); }
    else if power <= 120.0 { KmBracket(3, power); }
    else if power <= 150.0 { KmBracket(4, power); }
  }

  /** More power never costs less. */
  lemma KmMonotone(p1: real, p2: real)
    requires p1 <= p2
    ensures KmCoef(p1) <= KmCoef(p2)
  {
    KmBrackets(p1);
    KmBrackets(p2);
  }
}
