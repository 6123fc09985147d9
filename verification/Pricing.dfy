// What a model call costs, in whole nano-dollars.
module Pricing {
  import opened Wrappers

  datatype Rate = Rate(inputPerMTok: nat, outputPerMTok: nat)

  const PRICING: map<string, Rate> := map[
    "claude-haiku-4-5" := Rate(1, 5),
    "claude-sonnet-4-6" := Rate(3, 15),
    "claude-opus-4-8" := Rate(5, 25)]

  datatype Usage = Usage(input: nat, output: nat, cacheWrite: nat, cacheRead: nat)

  function Add(u: Usage, v: Usage): Usage {
    Usage(u.input + v.input, u.output + v.output, u.cacheWrite + v.cacheWrite, u.cacheRead + v.cacheRead)
  }

  // Writing the cache costs a quarter more than input, reading it a tenth of input.
  function Unrounded(rate: Rate, u: Usage): real {
    var inputNano := (rate.inputPerMTok * 1000) as real;
    var outputNano := (rate.outputPerMTok * 1000) as real;
    u.input as real * inputNano + u.output as real * outputNano
    + u.cacheWrite as real * (inputNano * 1.25) + u.cacheRead as real * (inputNano * 0.1)
  }

  function Round(x: real): int {
    (x + 0.5).Floor
  }

  // A model without a price has no cost: pricing its usage throws.
  function CostNanoUsd(model: string, u: Usage): Option<int> {
    if model in PRICING then Some(Round(Unrounded(PRICING[model], u))) else None
  }

  // Prices per token are whole numbers of nano-dollars, in every column.
  function Whole(rate: Rate, u: Usage): nat {
    rate.inputPerMTok * (1000 * u.input + 1250 * u.cacheWrite + 100 * u.cacheRead) + rate.outputPerMTok * 1000 * u.output
  }

  lemma UnroundedIsWhole(rate: Rate, u: Usage)
    ensures Unrounded(rate, u) == Whole(rate, u) as real
  {
    var i, o := rate.inputPerMTok as real, rate.outputPerMTok as real;
    var a, b, c, d := u.input as real, u.output as real, u.cacheWrite as real, u.cacheRead as real;
    assert (rate.inputPerMTok * 1000) as real == i * 1000.0;
    assert (rate.outputPerMTok * 1000) as real == o * 1000.0;
    var columns := 1000 * u.input + 1250 * u.cacheWrite + 100 * u.cacheRead;
    assert columns as real == 1000.0 * a + 1250.0 * c + 100.0 * d;
    assert (rate.inputPerMTok * columns) as real == i * (1000.0 * a + 1250.0 * c + 100.0 * d);
    assert (rate.outputPerMTok * 1000 * u.output) as real == o * 1000.0 * b;
    assert i * (1000.0 * a + 1250.0 * c + 100.0 * d) == a * (i * 1000.0) + c * (i * 1000.0 * 1.25) + d * (i * 1000.0 * 0.1);
  }

  lemma RoundWhole(n: int)
    ensures Round(n as real) == n
  {
  }

  // Rounding never acts.
  lemma PriceIsExact(model: string, u: Usage)
    requires model in PRICING
    ensures CostNanoUsd(model, u) == Some(Whole(PRICING[model], u))
    ensures Unrounded(PRICING[model], u) == CostNanoUsd(model, u).value as real
  {
    hide Unrounded, Whole, Round;
    UnroundedIsWhole(PRICING[model], u);
    RoundWhole(Whole(PRICING[model], u));
  }

  // A call costs the sum of its parts, however its usage is split.
  lemma PriceIsAdditive(model: string, u: Usage, v: Usage)
    requires model in PRICING
    ensures CostNanoUsd(model, Add(u, v)) == Some(CostNanoUsd(model, u).value + CostNanoUsd(model, v).value)
  {
    PriceIsExact(model, u);
    PriceIsExact(model, v);
    PriceIsExact(model, Add(u, v));
    WholeIsAdditive(PRICING[model], u, v);
    hide Whole, CostNanoUsd;
  }

  lemma Distribute(k: nat, a: nat, b: nat)
    ensures k * (a + b) == k * a + k * b
  {
  }

  lemma WholeIsAdditive(rate: Rate, u: Usage, v: Usage)
    ensures Whole(rate, Add(u, v)) == Whole(rate, u) + Whole(rate, v)
  {
    var a := 1000 * u.input + 1250 * u.cacheWrite + 100 * u.cacheRead;
    var b := 1000 * v.input + 1250 * v.cacheWrite + 100 * v.cacheRead;
    Distribute(rate.inputPerMTok, a, b);
    Distribute(rate.outputPerMTok * 1000, u.output, v.output);
  }

  // Any usage at all costs at least a hundred nano-dollars.
  lemma UsageIsNeverFree(model: string, u: Usage)
    requires model in PRICING
    ensures CostNanoUsd(model, u) == Some(0) <==> u == Usage(0, 0, 0, 0)
    ensures CostNanoUsd(model, u).value != 0 ==> CostNanoUsd(model, u).value >= 100
  {
    PriceIsExact(model, u);
    var rate := PRICING[model];
    var columns := 1000 * u.input + 1250 * u.cacheWrite + 100 * u.cacheRead;
    assert columns > 0 ==> columns >= 100;
    assert rate.inputPerMTok * columns >= columns;
    assert rate.outputPerMTok * 1000 * u.output >= 1000 * u.output;
  }
}
