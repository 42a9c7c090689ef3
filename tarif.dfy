/**
 * The premium calculator of the senior-health offer: the published table of
 * base costs ("primes pures"), the margin and expense rates, and the
 * gross-up formula that turns a base cost into a commercial premium.
 * Amounts are euros per year, held as exact decimals.
 */
module Tarif {
  import opened Wrappers

  /** Base cost per age: (high medical density, low medical density). */
  const PrimesPures: map<int, (real, real)> := map[
    65 := (22.58, 32.08),   66 := (24.73, 32.08),   67 := (28.00, 32.08),
    68 := (32.70, 34.41),   69 := (38.50, 40.43),   70 := (45.88, 49.39),
    71 := (53.56, 61.09),   72 := (63.22, 75.76),   73 := (77.47, 96.00),
    74 := (95.06, 118.04),  75 := (116.10, 137.53), 76 := (140.11, 158.64),
    77 := (167.02, 178.29), 78 := (196.99, 197.83), 79 := (229.68, 229.68),
    80 := (261.17, 270.58), 81 := (296.53, 322.34), 82 := (337.22, 380.01),
    83 := (384.89, 448.16), 84 := (439.86, 535.27), 85 := (506.18, 631.85),
    86 := (598.53, 729.04), 87 := (699.62, 835.34), 88 := (798.15, 961.34),
    89 := (902.44, 1094.13), 90 := (1013.60, 1226.23), 91 := (1130.73, 1361.76),
    92 := (1252.75, 1497.89), 93 := (1380.25, 1636.81), 94 := (1513.21, 1778.48)
  ]

  /** Margin rate per density label. */
  const TauxMarge: map<string, real> := map["forte" := 0.18, "faible" := 0.20]

  /** Share of the commercial premium that covers management and distribution. */
  const TauxFrais: real := 0.15

  /** First and last age of the table. */
  const AgeMin: int := 65
  const AgeMax: int := 94

  /** The triple the calculator returns, in the source's order. */
  datatype Quote = Quote(primePure: real, chargements: real, primeCom: real)

  /** The two dictionary lookups that can raise `KeyError`. */
  datatype KeyError = AgeInconnu(age: int) | DensiteInconnue(densite: string)

  /** The two density labels the margin table knows. */
  predicate IsDensite(densite: string) {
    densite == "forte" || densite == "faible"
  }

  /**
   * `calcul_prime_commerciale`: look the base cost up in the column the
   * density picks, look the margin up, gross up for margin and expenses.
   * The age lookup comes first, so an unknown age is reported even when the
   * density is unknown too; a density other than "forte" reads column 1 and
   * then fails at the margin lookup.
   */
  function CalculPrimeCommerciale(age: int, densite: string): (r: Result<Quote, KeyError>)
    ensures !(AgeMin <= age <= AgeMax) ==> r == Err(AgeInconnu(age))
    ensures AgeMin <= age <= AgeMax && !IsDensite(densite) ==> r == Err(DensiteInconnue(densite))
    ensures r.Ok? <==> AgeMin <= age <= AgeMax && IsDensite(densite)
    ensures r.Ok? ==> 0.0 < r.value.primePure < r.value.primeCom && 0.0 < r.value.chargements
    ensures r.Ok? ==> r.value.primePure + r.value.chargements == r.value.primeCom
  {
    TableDomain(age);
    var idx := if densite == "forte" then 0 else 1;
    if age !in PrimesPures then Err(AgeInconnu(age))
    else
      var primePure := if idx == 0 then PrimesPures[age].0 else PrimesPures[age].1;
      if densite !in TauxMarge then Err(DensiteInconnue(densite))
      else
        TablePositive(age);
        var tauxMarge := TauxMarge[densite];
        var primeCom := primePure * (1.0 + tauxMarge) / (1.0 - TauxFrais);
        Ok(Quote(primePure, primeCom - primePure, primeCom))
  }

  /** The table is defined on exactly the ages 65 to 94, with no gap. */
  lemma TableDomain(age: int)
    ensures age in PrimesPures <==> AgeMin <= age <= AgeMax
  {
    if AgeMin <= age <= AgeMax {
      assert age == 65 || age == 66 || age == 67 || age == 68 || age == 69 || age == 70
          || age == 71 || age == 72 || age == 73 || age == 74 || age == 75 || age == 76
          || age == 77 || age == 78 || age == 79 || age == 80 || age == 81 || age == 82
          || age == 83 || age == 84 || age == 85 || age == 86 || age == 87 || age == 88
          || age == 89 || age == 90 || age == 91 || age == 92 || age == 93 || age == 94;
    }
  }

  /** Every base cost of the table is positive. */
  lemma TablePositive(age: int)
    requires age in PrimesPures
    ensures 0.0 < PrimesPures[age].0 && 0.0 < PrimesPures[age].1
  {
    TableDomain(age);
  }

  /** From one age to the next, the high-density cost rises and the low-density cost does not fall. */
  lemma TableStep(age: int)
    requires AgeMin <= age < AgeMax
    ensures age in PrimesPures && age + 1 in PrimesPures
    ensures PrimesPures[age].0 < PrimesPures[age + 1].0
    ensures PrimesPures[age].1 <= PrimesPures[age + 1].1
  {
    TableDomain(age);
    TableDomain(age + 1);
  }

  /** Each column is ordered by age: strictly for high density, weakly for low density. */
  lemma {:induction false} TableMonotone(a: int, b: int)
    requires a in PrimesPures && b in PrimesPures && a <= b
    ensures a < b ==> PrimesPures[a].0 < PrimesPures[b].0
    ensures PrimesPures[a].1 <= PrimesPures[b].1
    decreases b - a
  {
    if a < b {
      TableDomain(a);
      TableDomain(b);
      TableStep(a);
      TableMonotone(a + 1, b);
    }
  }

  /** Low density never costs less than high density; the two coincide at age 79 only. */
  lemma LowDensityAtLeastHigh(age: int)
    requires age in PrimesPures
    ensures PrimesPures[age].0 <= PrimesPures[age].1
    ensures PrimesPures[age].0 == PrimesPures[age].1 <==> age == 79
  {
    TableDomain(age);
  }

  /** "forte" reads column 0 with an 18% margin, "faible" column 1 with a 20% margin. */
  lemma DensiteSelection(age: int, densite: string)
    requires age in PrimesPures && IsDensite(densite)
    ensures CalculPrimeCommerciale(age, densite).Ok?
    ensures densite == "forte" ==> CalculPrimeCommerciale(age, densite).value.primePure == PrimesPures[age].0
    ensures densite == "faible" ==> CalculPrimeCommerciale(age, densite).value.primePure == PrimesPures[age].1
    ensures TauxMarge[densite] == (if densite == "forte" then 0.18 else 0.20)
  {
    TableDomain(age);
  }

  /**
   * The published formula: commercial premium = base cost x (1 + margin rate)
   * / (1 - expense rate), with 18% or 20% margin and 15% expenses.
   */
  lemma FormulePublique(age: int, densite: string)
    requires CalculPrimeCommerciale(age, densite).Ok?
    ensures var q := CalculPrimeCommerciale(age, densite).value;
      q.primeCom * (1.0 - 0.15) == q.primePure * (1.0 + (if densite == "forte" then 0.18 else 0.20))
  {
  }

  /** At high density the premium is 118/85 of the base cost and the loadings 33/85 of it. */
  lemma ForteClosedForm(age: int)
    requires age in PrimesPures
    ensures CalculPrimeCommerciale(age, "forte")
      == Ok(Quote(PrimesPures[age].0, PrimesPures[age].0 * 33.0 / 85.0, PrimesPures[age].0 * 118.0 / 85.0))
  {
    TableDomain(age);
  }

  /** At low density the premium is 24/17 of the base cost and the loadings 7/17 of it. */
  lemma FaibleClosedForm(age: int)
    requires age in PrimesPures
    ensures CalculPrimeCommerciale(age, "faible")
      == Ok(Quote(PrimesPures[age].1, PrimesPures[age].1 * 7.0 / 17.0, PrimesPures[age].1 * 24.0 / 17.0))
  {
    TableDomain(age);
  }

  /** For a fixed density, the premium and its loadings do not decrease with age. */
  lemma PrimeComMonotone(a: int, b: int, densite: string)
    requires AgeMin <= a <= b <= AgeMax && IsDensite(densite)
    ensures CalculPrimeCommerciale(a, densite).Ok? && CalculPrimeCommerciale(b, densite).Ok?
    ensures CalculPrimeCommerciale(a, densite).value.primeCom <= CalculPrimeCommerciale(b, densite).value.primeCom
    ensures CalculPrimeCommerciale(a, densite).value.chargements <= CalculPrimeCommerciale(b, densite).value.chargements
  {
    TableDomain(a);
    TableDomain(b);
    TableMonotone(a, b);
    if densite == "forte" {
      ForteClosedForm(a);
      ForteClosedForm(b);
    } else {
      FaibleClosedForm(a);
      FaibleClosedForm(b);
    }
  }

  /** Ages just outside the table are refused, not clamped. */
  lemma OutOfRangeExamples()
    ensures CalculPrimeCommerciale(64, "forte") == Err(AgeInconnu(64))
    ensures CalculPrimeCommerciale(95, "forte") == Err(AgeInconnu(95))
    ensures CalculPrimeCommerciale(95, "inconnue") == Err(AgeInconnu(95))
    ensures CalculPrimeCommerciale(70, "urbaine") == Err(DensiteInconnue("urbaine"))
  {
  }

  /** Two worked quotes: age 65 at high density and age 94 at low density. */
  lemma WorkedExamples()
    ensures CalculPrimeCommerciale(65, "forte").Ok?
    ensures var q := CalculPrimeCommerciale(65, "forte").value;
      q.primePure == 22.58 && 31.34 < q.primeCom < 31.35 && 8.76 < q.chargements < 8.77
    ensures CalculPrimeCommerciale(94, "faible").Ok?
    ensures var q := CalculPrimeCommerciale(94, "faible").value;
      q.primePure == 1778.48 && 2510.79 < q.primeCom < 2510.80 && 732.31 < q.chargements < 732.32
  {
  }
}
