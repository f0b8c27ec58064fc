/** Body Mass Index computation and the input guard that precedes it (`calcular_imc`). */
module Measurement {
  import opened Results

  /** bmi is weight (kg) divided by the square of height (m). */
  predicate IsBmiOf(bmi: real, weight: real, height: real) {
    bmi * (height * height) == weight
  }

  /** BMI = weight (kg) / height (m) squared; a zero height is a division by zero. */
  function ComputeBmi(weight: real, height: real): (bmi: real)
    requires height != 0.0
    ensures IsBmiOf(bmi, weight, height)
    ensures weight > 0.0 ==> bmi > 0.0
  {
    weight / (height * height)
  }

  /** The submission guard: non-positive height or weight is rejected before any BMI is computed. */
  function CheckedBmi(weight: real, height: real): (r: Result<real>)
    ensures r.Ok? <==> height > 0.0 && weight > 0.0
    ensures r.Err? ==> r.error == InvalidMeasurement
    ensures r.Ok? ==> r.value > 0.0 && IsBmiOf(r.value, weight, height)
  {
    if height <= 0.0 || weight <= 0.0 then Err(InvalidMeasurement)
    else Ok(ComputeBmi(weight, height))
  }

  /** The square of a positive height is positive. */
  lemma SquarePositive(x: real)
    requires x > 0.0
    ensures x * x > 0.0
  {
  }

  /** At a fixed height, a heavier child has a BMI at least as large. */
  lemma BmiMonotoneInWeight(w1: real, w2: real, height: real)
    requires height > 0.0
    requires w1 <= w2
    ensures ComputeBmi(w1, height) <= ComputeBmi(w2, height)
  {
    SquarePositive(height);
    assert w1 / (height * height) <= w2 / (height * height);
  }

  /** At a fixed positive weight, a taller child has a BMI no larger. */
  lemma BmiAntitoneInHeight(weight: real, h1: real, h2: real)
    requires weight > 0.0
    requires 0.0 < h1 <= h2
    ensures ComputeBmi(weight, h2) <= ComputeBmi(weight, h1)
  {
    assert h1 * h1 <= h2 * h2;
    var b1, b2 := ComputeBmi(weight, h1), ComputeBmi(weight, h2);
    assert b2 * (h2 * h2) == b1 * (h1 * h1);
    assert b2 * (h1 * h1) <= b2 * (h2 * h2);
  }

  /** The scenarios of a 1 m tall child weighing 14.0 kg and 17.3 kg. */
  lemma BmiExamples()
    ensures ComputeBmi(14.0, 1.0) == 14.0
    ensures ComputeBmi(17.3, 1.0) == 17.3
    ensures CheckedBmi(14.0, 0.0) == Err(InvalidMeasurement)
  {
  }
}
