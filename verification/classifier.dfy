/**
 Percentile-based BMI classification for children aged 4 and 5
 (`classificar_imc_infantil` and `gerar_descricao_imc`).
 */
module Classifier {
  import opened Results

  /** The three cut-points (5th, 85th and 95th percentile) of one cohort. */
  datatype Percentiles = Percentiles(p5: real, p85: real, p95: real)

  /** Strictly increasing cut-points: the four bands they delimit are non-empty. */
  predicate Ordered(p: Percentiles) {
    p.p5 < p.p85 < p.p95
  }

  /** The cohorts the reference table covers: ages 4 and 5, sex codes "M" and "F". */
  predicate SupportedCohort(age: int, sex: string) {
    (age == 4 || age == 5) && (sex == "M" || sex == "F")
  }

  /** The reference table, keyed by age and then by sex code. */
  const Table: map<int, map<string, Percentiles>> := map[
    4 := map["M" := Percentiles(14.0, 16.0, 17.0), "F" := Percentiles(13.8, 15.8, 16.8)],
    5 := map["M" := Percentiles(14.5, 16.5, 17.5), "F" := Percentiles(14.3, 16.3, 17.3)]
  ]

  /** Looks up the cut-points of a cohort; a missing key is a lookup failure. */
  function Thresholds(age: int, sex: string): (r: Result<Percentiles>)
    ensures r.Ok? <==> SupportedCohort(age, sex)
    ensures r.Ok? ==> Ordered(r.value)
    ensures r.Err? ==> r.error == UnsupportedCohort(age, sex)
  {
    if age in Table && sex in Table[age] then Ok(Table[age][sex])
    else Err(UnsupportedCohort(age, sex))
  }

  /** The four classification bands, from lightest to heaviest. */
  datatype Category = Underweight | Normal | Overweight | Obese

  /** Position of a band in the order Underweight < Normal < Overweight < Obese. */
  function Rank(c: Category): nat {
    match c
    case Underweight => 0
    case Normal => 1
    case Overweight => 2
    case Obese => 3
  }

  /** The text the application shows and stores for a band. */
  function Label(c: Category): string {
    match c
    case Underweight => "Abaixo do peso"
    case Normal => "Peso normal"
    case Overweight => "Sobrepeso"
    case Obese => "Obesidade"
  }

  /** Inverse of Label: the band a text names, if any. */
  function ParseLabel(s: string): (r: Option<Category>)
    ensures r.Some? ==> Label(r.value) == s
    ensures r.None? ==> forall c :: Label(c) != s
  {
    if s == Label(Underweight) then Some(Underweight)
    else if s == Label(Normal) then Some(Normal)
    else if s == Label(Overweight) then Some(Overweight)
    else if s == Label(Obese) then Some(Obese)
    else None
  }

  /**
   The half-open interval of each band, closed at its lower end:
   [-inf, p5), [p5, p85), [p85, p95), [p95, +inf).
   */
  predicate InBand(c: Category, bmi: real, p: Percentiles) {
    match c
    case Underweight => bmi < p.p5
    case Normal => p.p5 <= bmi < p.p85
    case Overweight => p.p85 <= bmi < p.p95
    case Obese => p.p95 <= bmi
  }

  /** The decision chain of the classifier, for given cut-points. */
  function Band(bmi: real, p: Percentiles): (c: Category)
    ensures Ordered(p) ==> InBand(c, bmi, p)
  {
    if bmi < p.p5 then Underweight
    else if p.p5 <= bmi < p.p85 then Normal
    else if p.p85 <= bmi < p.p95 then Overweight
    else Obese
  }

  /** Classifies a BMI for a cohort; fails for a cohort outside the table. */
  function Classify(bmi: real, age: int, sex: string): (r: Result<Category>)
    ensures r.Ok? <==> SupportedCohort(age, sex)
    ensures r.Err? ==> r.error == UnsupportedCohort(age, sex)
    ensures r.Ok? ==> InBand(r.value, bmi, Thresholds(age, sex).value)
  {
    var p :- Thresholds(age, sex);
    Ok(Band(bmi, p))
  }

  /** For ordered cut-points exactly one band holds a BMI: the one Band picks. */
  lemma BandsPartition(bmi: real, p: Percentiles, c: Category)
    requires Ordered(p)
    ensures InBand(c, bmi, p) <==> c == Band(bmi, p)
  {
  }

  /** For a supported cohort, Classify yields exactly the band whose interval holds the BMI. */
  lemma ClassifyIsBand(bmi: real, age: int, sex: string, c: Category)
    requires SupportedCohort(age, sex)
    ensures Classify(bmi, age, sex) == Ok(c) <==> InBand(c, bmi, Thresholds(age, sex).value)
  {
    BandsPartition(bmi, Thresholds(age, sex).value, c);
  }

  /** Every band is closed at its lower bound, and only a BMI below p5 is underweight. */
  lemma LowerBoundsInclusive(bmi: real, age: int, sex: string)
    requires SupportedCohort(age, sex)
    ensures var p := Thresholds(age, sex).value;
      && Classify(p.p5, age, sex) == Ok(Normal)
      && Classify(p.p85, age, sex) == Ok(Overweight)
      && Classify(p.p95, age, sex) == Ok(Obese)
      && (Classify(bmi, age, sex) == Ok(Underweight) <==> bmi < p.p5)
      && (Classify(bmi, age, sex) == Ok(Obese) <==> p.p95 <= bmi)
  {
  }

  /** A larger BMI in the same cohort never lands in a lighter band. */
  lemma ClassifyMonotone(bmi1: real, bmi2: real, age: int, sex: string)
    requires SupportedCohort(age, sex)
    requires bmi1 <= bmi2
    ensures Classify(bmi1, age, sex).Ok? && Classify(bmi2, age, sex).Ok?
    ensures Rank(Classify(bmi1, age, sex).value) <= Rank(Classify(bmi2, age, sex).value)
  {
  }

  /** Worked cases: the p5 boundary of boys aged 4, the p95 boundary of girls aged 5, an age outside the table. */
  lemma ClassifyExamples()
    ensures Classify(14.0, 4, "M") == Ok(Normal)
    ensures Classify(13.99, 4, "M") == Ok(Underweight)
    ensures Classify(17.3, 5, "F") == Ok(Obese)
    ensures Classify(16.0, 6, "M") == Err(UnsupportedCohort(6, "M"))
  {
  }

  /** The recommendation text shown for each band. */
  function Recommendation(c: Category): string {
    match c
    case Underweight => "A criança está abaixo do peso ideal. Recomenda-se acompanhamento nutricional."
    case Normal => "A criança está no peso ideal. Parabéns!"
    case Overweight => "A criança está com sobrepeso. Recomenda-se atenção à alimentação e prática de atividades físicas."
    case Obese => "A criança está com obesidade. Recomenda-se acompanhamento médico e nutricional."
  }

  /** Maps a classification text to its recommendation; any other text falls through to the obesity one. */
  function Describe(classification: string): (r: string)
    ensures forall c :: classification == Label(c) ==> r == Recommendation(c)
    ensures (forall c :: classification != Label(c)) ==> r == Recommendation(Obese)
    ensures r == Recommendation(if ParseLabel(classification).Some? then ParseLabel(classification).value else Obese)
  {
    if classification == Label(Underweight) then Recommendation(Underweight)
    else if classification == Label(Normal) then Recommendation(Normal)
    else if classification == Label(Overweight) then Recommendation(Overweight)
    else Recommendation(Obese)
  }

  /** Different bands have different labels. */
  lemma LabelInjective(c1: Category, c2: Category)
    requires c1 != c2
    ensures Label(c1) != Label(c2)
  {
    // Labels of equal length differ in their first letter.
    assert |Label(c1)| != |Label(c2)| || Label(c1)[0] != Label(c2)[0];
  }

  /** The four recommendation texts are pairwise different (they differ in length). */
  lemma RecommendationsDistinct(c1: Category, c2: Category)
    requires c1 != c2
    ensures |Recommendation(c1)| != |Recommendation(c2)|
  {
    RecommendationLengths();
  }

  /** The four classification labels are described by four different recommendations. */
  lemma DescriptionsDistinct(c1: Category, c2: Category)
    requires c1 != c2
    ensures Describe(Label(c1)) != Describe(Label(c2))
  {
    var d1, d2 := Describe(Label(c1)), Describe(Label(c2));
    assert d1 == Recommendation(c1);
    assert d2 == Recommendation(c2);
    RecommendationsDistinct(c1, c2);
    assert |d1| != |d2|;
  }

  /** The length of a recommendation, as established by RecommendationLengths. */
  function RecommendationLength(c: Category): nat {
    match c
    case Underweight => 77
    case Normal => 39
    case Overweight => 97
    case Obese => 79
  }

  /** The recommendation texts have four different lengths. */
  lemma RecommendationLengths()
    ensures forall c :: |Recommendation(c)| == RecommendationLength(c)
  {
  }

  /** Round trip between a band and its label. */
  lemma LabelRoundTrip(c: Category, s: string)
    ensures ParseLabel(Label(c)) == Some(c)
    ensures ParseLabel(s) == Some(c) <==> Label(c) == s
  {
  }
}
