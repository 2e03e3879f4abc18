/**
 * The two handlers that run when "Calcular IMC" is pressed: the one that
 * writes the result text and the one that draws the comparison chart.
 * Each reads the same three inputs and repeats the checks and the formula.
 */
module Handlers {
  import opened Text
  import opened Imc

  /** What the result region shows: one of the three messages, or the
      computed BMI with its category and the category's text (the sentence
      around them is only formatting). */
  datatype Response =
    | Message(text: string)
    | Assessment(imc: real, category: Category, categoryText: string)

  /** One bar of the chart: its caption and its height. */
  datatype Bar = Bar(caption: string, value: real)

  /** The numbers handed to the plotting library: the bars, left to right,
      and the range of the y axis. */
  datatype Chart = Chart(bars: seq<Bar>, yLow: real, yHigh: real)

  datatype Option<T> = None | Some(value: T)

  /** The reference value drawn beside the user's BMI. */
  const IdealImc: real := 24.9

  /** The result handler: the guard clauses, the formula and the
      classification. A message is shown exactly when a check fails, and
      then it is that check's message; otherwise the BMI satisfies the
      formula and lies in the band of its category. */
  function Resultado(name: string, heightCm: real, weightKg: real): (r: Response)
    ensures r.Assessment? <==> Validate(name, heightCm, weightKg) == Ok
    ensures r.Message? ==> r.text == ErrorText(Validate(name, heightCm, weightKg))
    ensures r.Assessment? ==> heightCm != 0.0 && r.imc == Bmi(weightKg, heightCm)
    ensures r.Assessment? ==> InBand(r.category, r.imc) && r.categoryText == Label(r.category)
  {
    match Validate(name, heightCm, weightKg)
    case Ok =>
      var imc := Bmi(weightKg, heightCm);
      var category := Classify(imc);
      Assessment(imc, category, Label(category))
    case failed => Message(ErrorText(failed))
  }

  /** Upper end of the y axis: 40, raised to BMI + 10 when that is larger,
      so that the user's bar always fits with room above it. */
  function YMax(imc: real): (top: real)
    ensures top >= 40.0 && top >= imc + 10.0
    ensures top == 40.0 || top == imc + 10.0
  {
    if 40.0 >= imc + 10.0 then 40.0 else imc + 10.0
  }

  /** The chart handler. No chart unless the name is set and neither number
      is zero; otherwise the ideal bar and then the user's bar, with the
      y axis running from 0 to YMax. */
  function GraficoImc(name: string, heightCm: real, weightKg: real): (g: Option<Chart>)
    ensures g.Some? <==> !AllSpace(name) && heightCm != 0.0 && weightKg != 0.0
    ensures g.Some? ==> (
      && |g.value.bars| == 2
      && g.value.bars[0] == Bar("IMC ideal", IdealImc)
      && g.value.bars[1].caption == "Seu IMC"
      && heightCm != 0.0 && g.value.bars[1].value == Bmi(weightKg, heightCm))
    ensures g.Some? ==> (
      && g.value.yLow == 0.0
      && g.value.yHigh >= 40.0
      && g.value.yHigh >= g.value.bars[1].value + 10.0
      && g.value.yHigh == YMax(g.value.bars[1].value))
  {
    if Strip(name) == [] || heightCm == 0.0 || weightKg == 0.0 then None
    else
      var imc := Bmi(weightKg, heightCm);
      Some(Chart([Bar("IMC ideal", IdealImc), Bar("Seu IMC", imc)], 0.0, YMax(imc)))
  }

  /** The reference value drawn beside the user's BMI is itself a normal
      weight, just below the overweight cut. */
  lemma IdealImcIsNormal()
    ensures Classify(IdealImc) == Normal
    ensures IdealImc < 25.0
  {
  }

  /** Both bars fit below the top of the y axis. */
  lemma BarsFit(name: string, heightCm: real, weightKg: real)
    requires GraficoImc(name, heightCm, weightKg).Some?
    ensures var c := GraficoImc(name, heightCm, weightKg).value;
      forall i :: 0 <= i < |c.bars| ==> c.bars[i].value < c.yHigh
  {
  }

  /** The two handlers agree: the chart is drawn exactly when the result
      handler reaches the computation, and the user's bar is the BMI the
      result text reports. */
  lemma HandlersAgree(name: string, heightCm: real, weightKg: real)
    ensures GraficoImc(name, heightCm, weightKg).Some?
        <==> Resultado(name, heightCm, weightKg).Assessment?
    ensures GraficoImc(name, heightCm, weightKg).Some? ==>
      GraficoImc(name, heightCm, weightKg).value.bars[1].value
        == Resultado(name, heightCm, weightKg).imc
  {
  }

  /** When any check fails there is no chart, whichever message is shown. */
  lemma NoChartOnMessage(name: string, heightCm: real, weightKg: real)
    requires Resultado(name, heightCm, weightKg).Message?
    ensures GraficoImc(name, heightCm, weightKg) == None
  {
  }

  /** 100 kg at 150 cm: grade III obesity, and the y axis is stretched to
      BMI + 10 because the BMI is above 30. */
  lemma TallBarExample()
    ensures var g := GraficoImc("Maria", 150.0, 100.0);
      g.Some? && g.value.yHigh == g.value.bars[1].value + 10.0
      && Resultado("Maria", 150.0, 100.0).category == ObesityIII
  {
  }
}
