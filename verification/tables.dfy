/**
 * The six static coefficient tables of the premium calculator: territory (KT),
 * policy period (KC), driver experience and age (KBS), holder category (KO),
 * accident history (KBM) and engine power (KM).
 */
module Tables {

  /** Territorial coefficient by city of registration. */
  const KtTable: map<string, real> := map[
    "Москва" := 1.8, "Санкт-Петербург" := 1.64, "Воронеж" := 1.35,
    "Ростов-на-Дону" := 1.56, "Уфа" := 1.56, "Смоленск" := 1.16,
    "Брянск" := 1.4, "Калининград" := 1.08, "Казань" := 1.7,
    "Нижний Новгород" := 1.56, "Омск" := 1.42, "Пермь" := 1.7,
    "Волгоград" := 1.21, "Краснодар" := 1.56, "Новосибирск" := 1.56,
    "Челябинск" := 1.77, "Саратов" := 1.42, "Томск" := 1.48,
    "Владивосток" := 1.36, "Рязань" := 1.32
  ]

  /** Period coefficient by policy length in months. */
  const KcTable: map<int, real> := map[
    3 := 0.5, 4 := 0.6, 5 := 0.65, 6 := 0.7,
    7 := 0.8, 8 := 0.9, 9 := 0.95, 10 := 1.0,
    11 := 1.0, 12 := 1.0
  ]

  /** A half-open age range `[minAge, maxAge)` with its coefficient. */
  datatype Band = Band(minAge: int, maxAge: int, coef: real)

  /** One key/value pair of the experience/age table: `(experience, minAge, maxAge) -> coef`. */
  datatype KbsRow = KbsRow(experience: int, minAge: int, maxAge: int, coef: real)

  /**
   * The age bands of the experience/age table for one whole year of
   * experience. The table repeats one band list for every year of a
   * bracket (3-4, 5-6, 7-9, 10-14 and 15-20 years); years outside 0..20
   * have no rows.
   */
  function KbsBands(experience: int): seq<Band> {
    if experience == 0 then
      [Band(18, 22, 2.27), Band(22, 25, 1.88), Band(25, 30, 1.72), Band(30, 35, 1.56),
       Band(35, 40, 1.54), Band(40, 50, 1.50), Band(50, 60, 1.46), Band(60, 150, 1.43)]
    else if experience == 1 then
      [Band(18, 22, 1.92), Band(22, 25, 1.72), Band(25, 30, 1.60), Band(30, 35, 1.50),
       Band(35, 40, 1.47), Band(40, 50, 1.44), Band(50, 60, 1.40), Band(60, 150, 1.36)]
    else if experience == 2 then
      [Band(18, 22, 1.84), Band(22, 25, 1.71), Band(25, 30, 1.54), Band(30, 35, 1.48),
       Band(35, 40, 1.46), Band(40, 50, 1.43), Band(50, 60, 1.39), Band(60, 150, 1.35)]
    else if 3 <= experience <= 4 then
      [Band(18, 22, 1.65), Band(22, 25, 1.13), Band(25, 30, 1.09), Band(30, 35, 1.05),
       Band(35, 40, 1.00), Band(40, 50, 0.96), Band(50, 60, 0.93), Band(60, 150, 0.91)]
    else if 5 <= experience <= 6 then
      [Band(18, 22, 1.62), Band(22, 25, 1.10), Band(25, 30, 1.08), Band(30, 35, 1.04),
       Band(35, 40, 0.97), Band(40, 50, 0.95), Band(50, 60, 0.92), Band(60, 150, 0.90)]
    else if 7 <= experience <= 9 then
      [Band(22, 25, 1.09), Band(25, 30, 1.07), Band(30, 35, 1.01),
       Band(35, 40, 0.95), Band(40, 50, 0.94), Band(50, 60, 0.91), Band(60, 150, 0.89)]
    else if 10 <= experience <= 14 then
      [Band(25, 30, 1.02), Band(30, 35, 0.97), Band(35, 40, 0.94),
       Band(40, 50, 0.93), Band(50, 60, 0.90), Band(60, 150, 0.88)]
    else if 15 <= experience <= 20 then
      [Band(30, 35, 0.95), Band(35, 40, 0.93), Band(40, 50, 0.91),
       Band(50, 60, 0.86), Band(60, 150, 0.83)]
    else
      []
  }

  /** The rows of one experience year, in band order. */
  function Rows(experience: int, bands: seq<Band>): seq<KbsRow> {
    seq(|bands|, i requires 0 <= i < |bands| =>
      KbsRow(experience, bands[i].minAge, bands[i].maxAge, bands[i].coef))
  }

  /** The rows of experience years `from` through 20, in the table's order. */
  function KbsRowsFrom(from: nat): seq<KbsRow>
    decreases 21 - from
  {
    if from > 20 then [] else Rows(from, KbsBands(from)) + KbsRowsFrom(from + 1)
  }

  /** The whole experience/age table, as the sequence of its entries in declaration order. */
  function KbsTable(): seq<KbsRow> {
    KbsRowsFrom(0)
  }

  /** Holder-category coefficient. */
  const KoTable: map<string, real> := map[
    "Физическое лицо" := 3.16,
    "Юридическое лицо" := 1.97,
    "Ограниченная страховка" := 1.0
  ]

  /**
   * The bonus-malus coefficients for one accident-history period (in years),
   * indexed by the number of accidents; one table line per period.
   */
  function KbmRow(period: int): seq<real> {
    match period
    case 1 => [1.76, 3.92]
    case 2 => [1.17, 2.25, 3.92]
    case 3 => [1.0, 2.25, 3.92]
    case 4 => [0.91, 1.76, 2.25, 3.92]
    case 5 => [0.83, 1.17, 2.25, 3.92]
    case 6 => [0.78, 1.0, 1.76, 3.92]
    case 7 => [0.74, 1.0, 1.76, 3.92]
    case 8 => [0.68, 0.91, 1.76, 3.92]
    case 9 => [0.63, 0.91, 1.76, 2.25, 3.92]
    case 10 => [0.57, 0.83, 1.76, 2.25, 3.92]
    case 11 => [0.52, 0.83, 1.76, 2.25, 3.92]
    case 12 => [0.46, 0.78, 1.76, 2.25, 3.92]
    case _ => []
  }

  /** The bonus-malus table keyed by `(period, accidents)`. */
  function KbmTable(): map<(int, int), real> {
    map period, accidents | 1 <= period <= 12 && 0 <= accidents < |KbmRow(period)|
      :: (period, accidents) := KbmRow(period)[accidents]
  }

  /** Power coefficient by power threshold (horsepower). */
  const KmTable: map<int, real> := map[50 := 0.6, 70 := 1.0, 100 := 1.1, 120 := 1.2, 150 := 1.4]

  /** The thresholds of the power table in ascending order. */
  const KmThresholds: seq<int> := [50, 70, 100, 120, 150]
}
