/**
 * The BMI ("IMC", índice de massa corporal) assessment of the form:
 * the validation of the three inputs, the formula, and the six-band
 * classification with its Portuguese labels.
 */
module Imc {
  import opened Text

  /** The six categories, from lowest to highest BMI. */
  datatype Category =
    | Underweight   // abaixo do peso
    | Normal        // com peso normal
    | Overweight    // com sobrepeso
    | ObesityI      // com obesidade grau I
    | ObesityII     // com obesidade grau II
    | ObesityIII    // com obesidade grau III

  /** Position of a category in the ascending order of the bands. */
  function Rank(c: Category): (n: nat)
    ensures n < 6
  {
    match c
    case Underweight => 0
    case Normal => 1
    case Overweight => 2
    case ObesityI => 3
    case ObesityII => 4
    case ObesityIII => 5
  }

  /** The five cut points between consecutive bands, in ascending order. */
  const Cuts: seq<real> := [18.5, 25.0, 30.0, 35.0, 40.0]

  /** The table of bands: category of rank k covers [Cuts[k-1], Cuts[k]),
      the lowest band being unbounded below and the highest unbounded above. */
  predicate InBand(c: Category, imc: real)
  {
    (Rank(c) == 0 || Cuts[Rank(c) - 1] <= imc) && (Rank(c) == 5 || imc < Cuts[Rank(c)])
  }

  /** The text the result sentence uses for each category; the three
      obesity grades, and only they, share the stem "com obesidade grau ". */
  function Label(c: Category): (text: string)
    ensures Rank(c) >= 3 <==> |text| >= 19 && text[..19] == "com obesidade grau "
  {
    match c
    case Underweight => "abaixo do peso"
    case Normal => "com peso normal"
    case Overweight => "com sobrepeso"
    case ObesityI => "com obesidade grau I"
    case ObesityII => "com obesidade grau II"
    case ObesityIII => "com obesidade grau III"
  }

  /** The chained conditional of the result handler: the first threshold
      the value is below decides. Every value falls in the band of the
      category returned. */
  function Classify(imc: real): (c: Category)
    ensures InBand(c, imc)
  {
    if imc < 18.5 then Underweight
    else if imc < 25.0 then Normal
    else if imc < 30.0 then Overweight
    else if imc < 35.0 then ObesityI
    else if imc < 40.0 then ObesityII
    else ObesityIII
  }

  /** The bands do not overlap: a category whose band holds the value is
      the category the classifier returns. */
  lemma BandIsUnique(c: Category, imc: real)
    requires InBand(c, imc)
    ensures Classify(imc) == c
  {
  }

  /** A larger BMI never lands in a lower category. */
  lemma ClassifyMonotone(a: real, b: real)
    requires a <= b
    ensures Rank(Classify(a)) <= Rank(Classify(b))
  {
  }

  /** Each cut point belongs to the band above it; just below 18.5 is
      underweight. */
  lemma ClassifyBoundaries(eps: real)
    requires 0.0 < eps
    ensures Classify(18.5 - eps) == Underweight
    ensures Classify(18.5) == Normal
    ensures Classify(25.0) == Overweight
    ensures Classify(30.0) == ObesityI
    ensures Classify(35.0) == ObesityII
    ensures Classify(40.0) == ObesityIII
  {
  }

  /** Different categories are reported with different texts. */
  lemma LabelsDistinct(c: Category, d: Category)
    requires c != d
    ensures Label(c) != Label(d)
  {
  }

  /** Weight in kilograms over the square of the height in metres, the
      height being entered in centimetres. Over the reals this is
      weight * 10000 / height_cm². */
  function Bmi(weightKg: real, heightCm: real): (imc: real)
    requires heightCm != 0.0
    ensures imc * heightCm * heightCm == weightKg * 10000.0
    ensures weightKg > 0.0 ==> imc > 0.0
  {
    var heightM := heightCm / 100.0;
    assert heightCm == heightM * 100.0;
    assert heightM * heightM != 0.0;
    weightKg / (heightM * heightM)
  }

  /** The result of checking the inputs; the first failed check wins. */
  datatype Validation = NameMissing | HeightMissing | WeightMissing | Ok

  /** The guard clauses of the result handler, in their order: a name that
      strips to nothing, then a zero height, then a zero weight. */
  function Validate(name: string, heightCm: real, weightKg: real): (v: Validation)
    ensures v == NameMissing <==> AllSpace(name)
    ensures v == HeightMissing <==> !AllSpace(name) && heightCm == 0.0
    ensures v == WeightMissing <==> !AllSpace(name) && heightCm != 0.0 && weightKg == 0.0
    ensures v == Ok ==> heightCm != 0.0 && weightKg != 0.0
  {
    if Strip(name) == [] then NameMissing
    else if heightCm == 0.0 then HeightMissing
    else if weightKg == 0.0 then WeightMissing
    else Ok
  }

  /** A blank name is reported whatever the height and weight are. */
  lemma NameCheckedFirst(name: string, heightCm: real, weightKg: real)
    requires AllSpace(name)
    ensures Validate(name, heightCm, weightKg) == NameMissing
  {
  }

  /** With a valid name and a zero height, the height is reported even when
      the weight is zero too. */
  lemma HeightCheckedBeforeWeight(name: string, weightKg: real)
    requires !AllSpace(name)
    ensures Validate(name, 0.0, weightKg) == HeightMissing
  {
  }

  /** Validation passes exactly when the name has a non-space character and
      both numbers are non-zero, and then the formula's divisor is non-zero
      over the reals. */
  lemma ValidateOk(name: string, heightCm: real, weightKg: real)
    ensures Validate(name, heightCm, weightKg) == Ok
        <==> !AllSpace(name) && heightCm != 0.0 && weightKg != 0.0
    ensures Validate(name, heightCm, weightKg) == Ok ==> heightCm / 100.0 != 0.0
  {
  }

  /** The message shown in place of the result for each failed check:
      every one is a request that starts "Por favor, ". */
  function ErrorText(v: Validation): (text: string)
    requires v != Ok
    ensures |text| > 11 && text[..11] == "Por favor, "
  {
    match v
    case NameMissing => "Por favor, digite seu nome."
    case HeightMissing => "Por favor, insira sua altura (cm)."
    case WeightMissing => "Por favor, insira seu peso (kg)."
  }

  /** Each failed check has its own message, so the user can tell which
      field is missing. */
  lemma ErrorTextsDistinct(v: Validation, w: Validation)
    requires v != Ok && w != Ok && v != w
    ensures ErrorText(v) != ErrorText(w)
  {
  }

  /** The worked example of the page and two more: 70 kg at 170 cm is a
      normal weight, 100 kg at 150 cm is obesity grade III, 45 kg at 170 cm
      is underweight. */
  lemma Examples()
    ensures Classify(Bmi(70.0, 170.0)) == Normal
    ensures Classify(Bmi(100.0, 150.0)) == ObesityIII
    ensures Classify(Bmi(45.0, 170.0)) == Underweight
  {
  }
}
