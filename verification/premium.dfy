/**
 * The premium formula: the base tariff times the six coefficients, truncated
 * to whole roubles, once for the minimum and once for the maximum tariff.
 */
module Pricing {
  import opened Coefficients

  /** The base tariffs bounding the quoted range. */
  const TariffMin: int := 1646
  const TariffMax: int := 3535

  /** The computed cost range together with the six coefficients it was computed from. */
  datatype Quote = Quote(summaMin: int, summaMax: int, ko: real, kt: real, kbs: real, kc: real, kbm: real, km: real)

  /** The six coefficients are positive, as every table value and default is. */
  predicate PositiveFactors(ko: real, kt: real, kbs: real, kc: real, kbm: real, km: real) {
    ko > 0.0 && kt > 0.0 && kbs > 0.0 && kc > 0.0 && kbm > 0.0 && km > 0.0
  }

  /** The product of the six coefficients, in the formula's order. */
  function Factor(ko: real, kt: real, kbs: real, kc: real, kbm: real, km: real): (f: real)
    ensures PositiveFactors(ko, kt, kbs, kc, kbm, km) ==> f > 0.0
  {
    var a := ko * km;
    var b := a * kc;
    var c := b * kbs;
    var d := c * kbm;
    assert PositiveFactors(ko, kt, kbs, kc, kbm, km) ==> a > 0.0 && b > 0.0 && c > 0.0 && d > 0.0;
    d * kt
  }

  /**
   * `int(tariff * ko * km * kc * kbs * kbm * kt)`: the whole number of
   * roubles of a non-negative cost, fractions dropped.
   */
  function Cost(tariff: int, factor: real): (r: int)
    ensures 0 <= tariff && 0.0 <= factor ==> 0 <= r && r as real <= tariff as real * factor < r as real + 1.0
  {
    Truncate(tariff as real * factor)
  }

  /** The quote for six coefficients: the cost at both tariffs, with the coefficients echoed. */
  function QuoteOf(ko: real, kt: real, kbs: real, kc: real, kbm: real, km: real): (q: Quote)
    ensures q.ko == ko && q.kt == kt && q.kbs == kbs && q.kc == kc && q.kbm == kbm && q.km == km
    ensures PositiveFactors(ko, kt, kbs, kc, kbm, km) ==>
      var f := Factor(ko, kt, kbs, kc, kbm, km);
      && q.summaMin as real <= TariffMin as real * f < q.summaMin as real + 1.0
      && q.summaMax as real <= TariffMax as real * f < q.summaMax as real + 1.0
  {
    var f := Factor(ko, kt, kbs, kc, kbm, km);
    Quote(Cost(TariffMin, f), Cost(TariffMax, f), ko, kt, kbs, kc, kbm, km)
  }

  /** With positive coefficients the quoted range is a non-empty range of non-negative sums. */
  lemma QuoteOrdered(ko: real, kt: real, kbs: real, kc: real, kbm: real, km: real)
    requires PositiveFactors(ko, kt, kbs, kc, kbm, km)
    ensures 0 <= QuoteOf(ko, kt, kbs, kc, kbm, km).summaMin <= QuoteOf(ko, kt, kbs, kc, kbm, km).summaMax
  {
    var f := Factor(ko, kt, kbs, kc, kbm, km);
    var q := QuoteOf(ko, kt, kbs, kc, kbm, km);
    assert TariffMin as real * f <= TariffMax as real * f;
    assert q.summaMin as real < q.summaMax as real + 1.0;
  }

  /** The table coefficients of an individual holder in an unrated city with a ten-month policy. */
  lemma UnknownCityLookups()
    ensures KoCoef("Физическое лицо") == 3.16 && KtCoef("Тверь") == 1.5 && KcCoef(10) == 1.0
  {
    assert KoCoef("Физическое лицо") == 3.16;
    assert "Тверь" !in Tables.KtTable;
    assert KcCoef(10) == 1.0;
  }

  /** The scanned coefficients of 5 years at 30, no accidents in 3 years and 105 hp. */
  lemma UnknownCityScans()
    ensures KbsCoef(5.0, 30) == 1.04 && KbmCoef(3, 0) == 1.0 && KmCoef(105.0) == 1.2
  {
    KbsByBand(5.0, 30, Tables.Band(30, 35, 1.04));
    KbmExactCells();
    KmBrackets(105.0);
  }

  /** Individual holder, unknown city, 105 hp, 5 years at 30, ten months, clean three-year history. */
  lemma ScenarioIndividualUnknownCity()
    ensures QuoteOf(KoCoef("Физическое лицо"), KtCoef("Тверь"), KbsCoef(5.0, 30), KcCoef(10),
                    KbmCoef(3, 0), KmCoef(105.0))
         == Quote(9736, 20911, 3.16, 1.5, 1.04, 1.0, 1.0, 1.2)
  {
    UnknownCityLookups();
    UnknownCityScans();
    var f := Factor(3.16, 1.5, 1.04, 1.0, 1.0, 1.2);
    assert f == 5.91552;
    assert Cost(TariffMin, f) == 9736 by { assert 1646.0 * f == 9736.94592; }
    assert Cost(TariffMax, f) == 20911 by { assert 3535.0 * f == 20911.3632; }
  }
}
