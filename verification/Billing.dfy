/** Tiered token pricing. */
module Billing {
  import opened Options

  /** Dollars per million tokens in the three context bands. */
  datatype Rates = Rates(low: real, mid: real, high: real)

  /** A missing tier rate falls back to the band below; fallback, when set, replaces the base rate. */
  function Effective(base: real, above128: real, above200: real, fallback: real): Rates {
    var low := if fallback > 0.0 then fallback else base;
    var mid := if above128 <= 0.0 then low else above128;
    Rates(low, mid, if above200 <= 0.0 then mid else above200)
  }

  function Min(a: real, b: real): real {
    if a <= b then a else b
  }

  function Max(a: real, b: real): real {
    if a >= b then a else b
  }

  /** How many of the tokens lie between lo and hi. */
  function Width(tokens: real, lo: real, hi: real): real {
    Max(0.0, Min(tokens, hi) - lo)
  }

  /** How many of the tokens lie beyond k. */
  function Over(tokens: real, k: real): real {
    Max(0.0, tokens - k)
  }

  /** Tokens at a rate per million. */
  function At(tokens: real, rate: real): real {
    tokens / 1000000.0 * rate
  }

  function Sum(x: real, y: real, z: real, r: Rates): real {
    At(x, r.low) + At(y, r.mid) + At(z, r.high)
  }

  /** Band width times rate, summed over the bands: up to 128k, up to 200k, beyond. */
  function Bands(tokens: real, r: Rates): real {
    Sum(Width(tokens, 0.0, 128000.0), Width(tokens, 128000.0, 200000.0), Over(tokens, 200000.0), r)
  }

  /** The code's way: fill the bands one after the other. */
  method Tiered(tokens: real, base: real, above128: real, above200: real, fallback: real) returns (cost: real)
    ensures cost == Bands(tokens, Effective(base, above128, above200, fallback))
  {
    if tokens <= 0.0 {
      return 0.0;
    }
    var r := Effective(base, above128, above200, fallback);
    cost := 0.0;
    var remaining := tokens;
    if remaining > 128000.0 {
      cost := cost + At(128000.0, r.low);
      remaining := remaining - 128000.0;
    } else {
      cost := cost + At(remaining, r.low);
      return;
    }
    if remaining > 200000.0 - 128000.0 {
      cost := cost + At(200000.0 - 128000.0, r.mid);
      remaining := remaining - (200000.0 - 128000.0);
    } else {
      cost := cost + At(remaining, r.mid);
      return;
    }
    cost := cost + At(remaining, r.high);
  }

  /** A million tokens cost the rate. */
  lemma MillionTokens(rate: real)
    ensures At(1000000.0, rate) == rate && At(0.0, rate) == 0.0
  {
  }

  lemma BandPrices(tokens: real, r: Rates)
    ensures tokens <= 0.0 ==> Bands(tokens, r) == 0.0
    ensures 0.0 <= tokens <= 128000.0 ==> Bands(tokens, r) == At(tokens, r.low)
    ensures 128000.0 <= tokens <= 200000.0 ==> Bands(tokens, r) == At(128000.0, r.low) + At(tokens - 128000.0, r.mid)
    ensures 200000.0 <= tokens ==>
      Bands(tokens, r) == At(128000.0, r.low) + At(72000.0, r.mid) + At(tokens - 200000.0, r.high)
  {
    WidthsAre(tokens);
    SumParts(Width(tokens, 0.0, 128000.0), Width(tokens, 128000.0, 200000.0), Over(tokens, 200000.0), tokens, r);
  }

  lemma WidthsAre(t: real)
    ensures Width(t, 0.0, 128000.0) == if t <= 0.0 then 0.0 else if t <= 128000.0 then t else 128000.0
    ensures Width(t, 128000.0, 200000.0)
      == if t <= 128000.0 then 0.0 else if t <= 200000.0 then t - 128000.0 else 72000.0
    ensures Over(t, 200000.0) == if t <= 200000.0 then 0.0 else t - 200000.0
  {
  }

  lemma SumParts(x: real, y: real, z: real, t: real, r: Rates)
    requires x == if t <= 0.0 then 0.0 else if t <= 128000.0 then t else 128000.0
    requires y == if t <= 128000.0 then 0.0 else if t <= 200000.0 then t - 128000.0 else 72000.0
    requires z == if t <= 200000.0 then 0.0 else t - 200000.0
    ensures t <= 0.0 ==> Sum(x, y, z, r) == 0.0
    ensures 0.0 <= t <= 128000.0 ==> Sum(x, y, z, r) == At(t, r.low)
    ensures 128000.0 <= t <= 200000.0 ==> Sum(x, y, z, r) == At(128000.0, r.low) + At(t - 128000.0, r.mid)
    ensures 200000.0 <= t ==> Sum(x, y, z, r) == At(128000.0, r.low) + At(72000.0, r.mid) + At(t - 200000.0, r.high)
  {
    NothingAt(r.low);
    NothingAt(r.mid);
    NothingAt(r.high);
    if t <= 0.0 {
      assert x == y == z == 0.0;
    } else if t <= 128000.0 {
      assert x == t && y == z == 0.0;
    } else if t <= 200000.0 {
      assert x == 128000.0 && y == t - 128000.0 && z == 0.0;
    } else {
      assert x == 128000.0 && y == 72000.0 && z == t - 200000.0;
    }
  }

  lemma NothingAt(rate: real)
    ensures At(0.0, rate) == 0.0
  {
  }

  /** The rates of the bands: the base rate, or the fallback where one is set, up to 128000 tokens, the next rate
      up to 200000, the last beyond; a rate that is not set is that of the band below. */
  lemma RatesAre(base: real, above128: real, above200: real, fallback: real)
    ensures var r := Effective(base, above128, above200, fallback);
      && (fallback > 0.0 ==> r.low == fallback) && (fallback <= 0.0 ==> r.low == base)
      && (above128 > 0.0 ==> r.mid == above128) && (above128 <= 0.0 ==> r.mid == r.low)
      && (above200 > 0.0 ==> r.high == above200) && (above200 <= 0.0 ==> r.high == r.mid)
  {
  }

  // ---- Arithmetic of one band.

  lemma AtGrows(x: real, y: real, c: real)
    requires c >= 0.0 && x <= y
    ensures At(x, c) <= At(y, c)
  {
  }

  lemma AtDearer(x: real, c: real, d: real)
    requires x >= 0.0 && c <= d
    ensures At(x, c) <= At(x, d)
  {
  }

  lemma AtSplit(x: real, y: real, c: real)
    ensures At(x + y, c) == At(x, c) + At(y, c)
  {
  }

  lemma AtMargin(x: real, c: real, d: real)
    ensures At(x, c - d) == At(x, c) - At(x, d)
  {
  }

  // ---- The price as a function of the tokens.

  lemma WidthsGrow(t: real, u: real)
    requires t <= u
    ensures Width(t, 0.0, 128000.0) <= Width(u, 0.0, 128000.0)
    ensures Width(t, 128000.0, 200000.0) <= Width(u, 128000.0, 200000.0)
    ensures Over(t, 200000.0) <= Over(u, 200000.0)
  {
  }

  lemma SumGrows(x: real, y: real, z: real, x': real, y': real, z': real, r: Rates)
    requires r.low >= 0.0 && r.mid >= 0.0 && r.high >= 0.0 && x <= x' && y <= y' && z <= z'
    ensures Sum(x, y, z, r) <= Sum(x', y', z', r)
  {
    AtGrows(x, x', r.low);
    AtGrows(y, y', r.mid);
    AtGrows(z, z', r.high);
  }

  /** More tokens never cost less. */
  lemma Monotone(t: real, u: real, r: Rates)
    requires r.low >= 0.0 && r.mid >= 0.0 && r.high >= 0.0 && t <= u
    ensures Bands(t, r) <= Bands(u, r)
  {
    WidthsGrow(t, u);
    SumGrows(Width(t, 0.0, 128000.0), Width(t, 128000.0, 200000.0), Over(t, 200000.0),
             Width(u, 0.0, 128000.0), Width(u, 128000.0, 200000.0), Over(u, 200000.0), r);
  }

  lemma WidthsSplit(t: real)
    requires t >= 0.0
    ensures Width(t, 0.0, 128000.0) + Width(t, 128000.0, 200000.0) + Over(t, 200000.0) == t
    ensures Width(t, 0.0, 128000.0) >= 0.0 && Width(t, 128000.0, 200000.0) >= 0.0 && Over(t, 200000.0) >= 0.0
  {
  }

  lemma SumBetween(x: real, y: real, z: real, r: Rates, lo: real, hi: real)
    requires x >= 0.0 && y >= 0.0 && z >= 0.0
    requires lo <= r.low <= hi && lo <= r.mid <= hi && lo <= r.high <= hi
    ensures At(x + y + z, lo) <= Sum(x, y, z, r) <= At(x + y + z, hi)
  {
    SumFlat(x, y, z, lo);
    SumFlat(x, y, z, hi);
    AtDearer(x, lo, r.low);
    AtDearer(y, lo, r.mid);
    AtDearer(z, lo, r.high);
    AtDearer(x, r.low, hi);
    AtDearer(y, r.mid, hi);
    AtDearer(z, r.high, hi);
  }

  lemma SumFlat(x: real, y: real, z: real, c: real)
    ensures At(x + y + z, c) == At(x, c) + At(y, c) + At(z, c)
  {
    AtSplit(x + y, z, c);
    AtSplit(x, y, c);
  }

  /** The price lies between the lowest and the highest rate times the tokens. */
  lemma Between(t: real, r: Rates, lo: real, hi: real)
    requires t >= 0.0 && lo <= r.low <= hi && lo <= r.mid <= hi && lo <= r.high <= hi
    ensures At(t, lo) <= Bands(t, r) <= At(t, hi)
  {
    WidthsSplit(t);
    SumBetween(Width(t, 0.0, 128000.0), Width(t, 128000.0, 200000.0), Over(t, 200000.0), r, lo, hi);
  }

  // ---- Splitting a request.

  /** The price as surcharges on top of the base rate: the tokens beyond each threshold pay the step. */
  function Steps(t: real, a: real, b: real, r: Rates): real {
    At(t, r.low) + At(a, r.mid - r.low) + At(b, r.high - r.mid)
  }

  lemma SumAsSteps(x: real, y: real, z: real, r: Rates)
    ensures Sum(x, y, z, r) == Steps(x + y + z, y + z, z, r)
  {
    SumFlat(x, y, z, r.low);
    AtSplit(y, z, r.mid - r.low);
    AtMargin(y, r.mid, r.low);
    AtMargin(z, r.mid, r.low);
    AtMargin(z, r.high, r.mid);
  }

  lemma BandsAsSteps(t: real, r: Rates)
    requires t >= 0.0
    ensures Bands(t, r) == Steps(t, Over(t, 128000.0), Over(t, 200000.0), r)
  {
    WidthsSplit(t);
    assert Width(t, 128000.0, 200000.0) + Over(t, 200000.0) == Over(t, 128000.0);
    SumAsSteps(Width(t, 0.0, 128000.0), Width(t, 128000.0, 200000.0), Over(t, 200000.0), r);
  }

  /** By how much more tokens lie beyond k in one request than in two. */
  function Gap(a: real, b: real, k: real): real {
    Over(a + b, k) - Over(a, k) - Over(b, k)
  }

  lemma StepsGap(t: real, a: real, b: real, t': real, a': real, b': real, c: real, d: real, r: Rates)
    ensures Steps(t + t', c, d, r) - Steps(t, a, b, r) - Steps(t', a', b', r)
         == At(c - a - a', r.mid - r.low) + At(d - b - b', r.high - r.mid)
  {
    AtSplit(t, t', r.low);
    AtSplit(a, a', r.mid - r.low);
    AtSplit(b, b', r.high - r.mid);
    AtSplit(c - a - a', a + a', r.mid - r.low);
    AtSplit(d - b - b', b + b', r.high - r.mid);
  }

  lemma SplitSteps(a: real, b: real, r: Rates)
    ensures Steps(a + b, Over(a + b, 128000.0), Over(a + b, 200000.0), r)
         - Steps(a, Over(a, 128000.0), Over(a, 200000.0), r) - Steps(b, Over(b, 128000.0), Over(b, 200000.0), r)
         == At(Gap(a, b, 128000.0), r.mid - r.low) + At(Gap(a, b, 200000.0), r.high - r.mid)
  {
    StepsGap(a, Over(a, 128000.0), Over(a, 200000.0), b, Over(b, 128000.0), Over(b, 200000.0),
             Over(a + b, 128000.0), Over(a + b, 200000.0), r);
  }

  /** What one request costs beyond two: the gaps at the steps of the rate card. */
  lemma SplitSaving(a: real, b: real, r: Rates)
    requires a >= 0.0 && b >= 0.0
    ensures Bands(a + b, r) - Bands(a, r) - Bands(b, r)
         == At(Gap(a, b, 128000.0), r.mid - r.low) + At(Gap(a, b, 200000.0), r.high - r.mid)
  {
    SplitSteps(a, b, r);
    BandsAsSteps(a, r);
    BandsAsSteps(b, r);
    BandsAsSteps(a + b, r);
  }

  /** The gaps are not negative, and relative to its threshold the later one is not the larger. */
  lemma Gaps(a: real, b: real)
    requires a >= 0.0 && b >= 0.0
    ensures 0.0 <= Gap(a, b, 200000.0) && 0.0 <= Gap(a, b, 128000.0)
    ensures 16.0 * Gap(a, b, 200000.0) <= 25.0 * Gap(a, b, 128000.0)
  {
  }

  /** The first step of the rate card does not go down, and beyond both thresholds the second takes back
      no more than the first has added. */
  predicate Progressive(r: Rates) {
    r.low <= r.mid && 128000.0 * (r.mid - r.low) + 200000.0 * (r.high - r.mid) >= 0.0
  }

  lemma GapsCost(g: real, h: real, p: real, q: real)
    requires 0.0 <= g && 0.0 <= h && 16.0 * h <= 25.0 * g && p >= 0.0 && 16.0 * p + 25.0 * q >= 0.0
    ensures At(g, p) + At(h, q) >= 0.0
  {
    AtGrows(0.0, g, p);
    if q >= 0.0 {
      AtGrows(0.0, h, q);
    } else {
      AtGrows(16.0 * h, 25.0 * g, -q);
      AtGrows(0.0, g, 16.0 * p + 25.0 * q);
      Sixteen(g, h, p, q);
    }
  }

  lemma Sixteen(g: real, h: real, p: real, q: real)
    ensures At(16.0 * h, -q) == -16.0 * At(h, q) && At(25.0 * g, -q) == -25.0 * At(g, q)
    ensures At(g, 16.0 * p + 25.0 * q) == 16.0 * At(g, p) + 25.0 * At(g, q)
  {
  }

  ghost predicate SplitNoDearer(a: real, b: real, r: Rates) {
    Bands(a, r) + Bands(b, r) <= Bands(a + b, r)
  }

  lemma ProgressiveSuffices(a: real, b: real, r: Rates)
    requires a >= 0.0 && b >= 0.0 && Progressive(r)
    ensures SplitNoDearer(a, b, r)
  {
    SplitSaving(a, b, r);
    Gaps(a, b);
    GapsCost(Gap(a, b, 128000.0), Gap(a, b, 200000.0), r.mid - r.low, r.high - r.mid);
  }

  lemma Strict(x: real, c: real, d: real)
    requires x > 0.0 && c < d
    ensures At(x, c) < At(x, d)
  {
  }

  /** Where the first step is down, splitting off the excess is dearer. */
  lemma FallingRatesSplit(extra: real, r: Rates)
    requires 0.0 < extra <= 72000.0 && r.mid < r.low
    ensures Bands(128000.0 + extra, r) < Bands(128000.0, r) + Bands(extra, r)
  {
    Strict(extra, r.mid, r.low);
  }

  lemma WideGaps(a: real, b: real)
    requires a >= 200000.0 && b >= 200000.0
    ensures Gap(a, b, 128000.0) == 128000.0 && Gap(a, b, 200000.0) == 200000.0
  {
  }

  lemma WideCost(p: real, q: real)
    requires 128000.0 * p + 200000.0 * q < 0.0
    ensures At(128000.0, p) + At(200000.0, q) < 0.0
  {
  }

  /** Where the second step takes back more than the first has added, so is splitting a request into two
      that both reach the upper threshold. */
  lemma LateDiscountSplit(a: real, b: real, r: Rates)
    requires a >= 200000.0 && b >= 200000.0 && 128000.0 * (r.mid - r.low) + 200000.0 * (r.high - r.mid) < 0.0
    ensures !SplitNoDearer(a, b, r)
  {
    SplitSaving(a, b, r);
    WideGaps(a, b);
    WideCost(r.mid - r.low, r.high - r.mid);
  }

  /** One long request costs at least as much as the same tokens in two, wherever the cut is, exactly for
      progressive rate cards. */
  lemma SuperadditiveIff(r: Rates)
    ensures (forall a, b :: a >= 0.0 && b >= 0.0 ==> SplitNoDearer(a, b, r)) <==> Progressive(r)
  {
    if Progressive(r) {
      forall a, b | a >= 0.0 && b >= 0.0 ensures SplitNoDearer(a, b, r) {
        ProgressiveSuffices(a, b, r);
      }
    } else if r.mid < r.low {
      FallingRatesSplit(1.0, r);
      assert !SplitNoDearer(128000.0, 1.0, r);
    } else {
      LateDiscountSplit(200000.0, 200000.0, r);
    }
  }

  /** In particular when rates do not fall from band to band. */
  lemma Superadditive(a: real, b: real, r: Rates)
    requires a >= 0.0 && b >= 0.0 && r.low <= r.mid <= r.high
    ensures Bands(a, r) + Bands(b, r) <= Bands(a + b, r)
  {
    ProgressiveSuffices(a, b, r);
  }

  // ---- A whole request.

  datatype ModelCost = ModelCost(
    input: real, inputAbove128: real, inputAbove200: real, cacheRead: real, cacheWrite: real,
    output: real, outputAbove128: real, outputAbove200: real, reasoning: real, image: real)

  /** Token counts; cached and reasoning are present when the upstream reports details. */
  datatype Usage = Usage(prompt: int, completion: int, cached: Option<int>, reasoning: Option<int>, images: int)

  function InputRates(mc: ModelCost): Rates {
    Effective(mc.input, mc.inputAbove128, mc.inputAbove200, if mc.cacheWrite > 0.0 then mc.cacheWrite else mc.input)
  }

  function OutputRates(mc: ModelCost): Rates {
    Effective(mc.output, mc.outputAbove128, mc.outputAbove200, mc.output)
  }

  function Capped(part: Option<int>, whole: int): real {
    if part.None? then 0.0 else if part.value > whole then whole as real else part.value as real
  }

  /** Uncached tokens in bands, cached ones at the read rate. */
  function Served(uncached: real, cached: real, r: Rates, cacheRead: real): real {
    Bands(uncached, r) + At(cached, cacheRead)
  }

  function InputCost(mc: ModelCost, u: Usage): real {
    var cached := Capped(u.cached, u.prompt);
    Served(u.prompt as real - cached, cached, InputRates(mc), mc.cacheRead)
  }

  function OutputCost(mc: ModelCost, u: Usage): real {
    var reasoning := Capped(u.reasoning, u.completion);
    var plain := Bands(u.completion as real - reasoning, OutputRates(mc));
    if reasoning > 0.0 then plain + At(reasoning, if mc.reasoning <= 0.0 then mc.output else mc.reasoning) else plain
  }

  function ImageCost(mc: ModelCost, u: Usage): real {
    if mc.image > 0.0 then u.images as real * mc.image else 0.0
  }

  function RequestCost(mc: ModelCost, u: Usage): real {
    InputCost(mc, u) + OutputCost(mc, u) + ImageCost(mc, u)
  }

  /** The prompt's price: what is not cached in bands, at the cache-write price where there is one, what is cached
      at the cache-read price; no more counts as cached than there is. */
  lemma InputIs(mc: ModelCost, u: Usage, cached: real)
    requires cached ==
      if u.cached.None? then 0.0 else if u.cached.value >= u.prompt then u.prompt as real else u.cached.value as real
    ensures var base := if mc.cacheWrite > 0.0 then mc.cacheWrite else mc.input;
      InputCost(mc, u)
        == Served(u.prompt as real - cached, cached, Effective(mc.input, mc.inputAbove128, mc.inputAbove200, base),
                  mc.cacheRead)
  {
    assert cached == Capped(u.cached, u.prompt);
  }

  lemma ServedIs(uncached: real, cached: real, r: Rates, cacheRead: real)
    ensures Served(uncached, cached, r, cacheRead) == Bands(uncached, r) + At(cached, cacheRead)
  {
  }

  /** The completion's price: plain output in bands, reasoning at its own price, or the output price if it has none. */
  lemma OutputIs(mc: ModelCost, u: Usage, thought: real)
    requires thought == if u.reasoning.None? then 0.0
      else if u.reasoning.value >= u.completion then u.completion as real else u.reasoning.value as real
    ensures var plain := Bands(u.completion as real - thought,
                               Effective(mc.output, mc.outputAbove128, mc.outputAbove200, mc.output));
      OutputCost(mc, u) ==
        if thought > 0.0 then plain + At(thought, if mc.reasoning > 0.0 then mc.reasoning else mc.output) else plain
  {
    assert thought == Capped(u.reasoning, u.completion);
  }

  method RealCost(mc: ModelCost, u: Usage) returns (cost: real)
    ensures cost == RequestCost(mc, u)
    ensures cost == InputCost(mc, u) + OutputCost(mc, u) + if mc.image > 0.0 then u.images as real * mc.image else 0.0
  {
    cost := PromptCost(mc, u);
    var output := CompletionCost(mc, u);
    cost := cost + output;
    if mc.image > 0.0 {
      cost := cost + ImageCost(mc, u);
    }
  }

  method PromptCost(mc: ModelCost, u: Usage) returns (cost: real)
    ensures cost == InputCost(mc, u)
  {
    var cached := Capped(u.cached, u.prompt);
    var inputRate := if mc.cacheWrite > 0.0 then mc.cacheWrite else mc.input;
    cost := Tiered(u.prompt as real - cached, mc.input, mc.inputAbove128, mc.inputAbove200, inputRate);
    cost := cost + At(cached, mc.cacheRead);
  }

  method CompletionCost(mc: ModelCost, u: Usage) returns (cost: real)
    ensures cost == OutputCost(mc, u)
  {
    var reasoning := Capped(u.reasoning, u.completion);
    cost := Tiered(u.completion as real - reasoning, mc.output, mc.outputAbove128, mc.outputAbove200, mc.output);
    if reasoning > 0.0 {
      var rate := if mc.reasoning <= 0.0 then mc.output else mc.reasoning;
      cost := cost + At(reasoning, rate);
    }
  }

  // ---- Response-cache hits.

  /** The usage that a response-cache hit is billed with: the whole prompt as cache-served. */
  function HitUsage(u: Usage): Usage {
    u.(cached := Some(u.prompt))
  }

  /** What the uncached tokens cost beyond the cache-read rate. */
  function Margins(r: Rates, c: real): Rates {
    Rates(r.low - c, r.mid - c, r.high - c)
  }

  lemma SumMargins(x: real, y: real, z: real, r: Rates, c: real)
    ensures Sum(x, y, z, Margins(r, c)) == Sum(x, y, z, r) - At(x + y + z, c)
  {
    SumFlat(x, y, z, c);
    AtMargin(x, r.low, c);
    AtMargin(y, r.mid, c);
    AtMargin(z, r.high, c);
  }

  lemma BandsMargins(t: real, r: Rates, c: real)
    requires t >= 0.0
    ensures Bands(t, Margins(r, c)) == Bands(t, r) - At(t, c)
  {
    WidthsSplit(t);
    SumMargins(Width(t, 0.0, 128000.0), Width(t, 128000.0, 200000.0), Over(t, 200000.0), r, c);
  }

  lemma NoTokens(r: Rates)
    ensures Bands(0.0, r) == 0.0
  {
  }

  function Uncached(u: Usage): real {
    u.prompt as real - Capped(u.cached, u.prompt)
  }

  /** What it saves to have all tokens cached. */
  lemma ServedSaving(uncached: real, cached: real, r: Rates, cacheRead: real)
    requires uncached >= 0.0
    ensures Served(uncached, cached, r, cacheRead) - Served(0.0, uncached + cached, r, cacheRead)
      == Bands(uncached, Margins(r, cacheRead))
  {
    NoTokens(r);
    BandsMargins(uncached, r, cacheRead);
    AtSplit(uncached, cached, cacheRead);
  }

  lemma InputSaving(mc: ModelCost, u: Usage)
    requires u.prompt >= 0
    ensures Uncached(u) >= 0.0
    ensures InputCost(mc, u) - InputCost(mc, HitUsage(u)) == Bands(Uncached(u), Margins(InputRates(mc), mc.cacheRead))
  {
    ServedSaving(Uncached(u), Capped(u.cached, u.prompt), InputRates(mc), mc.cacheRead);
  }

  /** The exact saving of a cache hit. */
  lemma HitSaving(mc: ModelCost, u: Usage)
    requires u.prompt >= 0
    ensures Uncached(u) >= 0.0
    ensures RequestCost(mc, u) - RequestCost(mc, HitUsage(u))
      == Bands(Uncached(u), Margins(InputRates(mc), mc.cacheRead))
  {
    InputSaving(mc, u);
    OtherCostsKept(mc, u);
  }

  lemma OtherCostsKept(mc: ModelCost, u: Usage)
    ensures OutputCost(mc, HitUsage(u)) == OutputCost(mc, u) && ImageCost(mc, HitUsage(u)) == ImageCost(mc, u)
  {
  }

  /** The margins never add up to a loss: none in the first band, none over the first two together,
      none per token beyond. */
  predicate NoLoss(s: Rates) {
    s.low >= 0.0 && 128000.0 * s.low + 72000.0 * s.mid >= 0.0 && s.high >= 0.0
  }

  lemma SumNoLoss(x: real, y: real, z: real, s: Rates)
    requires NoLoss(s) && 0.0 <= x && 0.0 <= y <= 72000.0 && 0.0 <= z && (y == 0.0 || x == 128000.0)
    ensures Sum(x, y, z, s) >= 0.0
  {
    AtGrows(0.0, x, s.low);
    AtGrows(0.0, z, s.high);
    if s.mid >= 0.0 {
      AtGrows(0.0, y, s.mid);
    } else {
      AtGrows(y, 72000.0, -s.mid);
      AtMargin(y, 0.0, s.mid);
    }
  }

  lemma NoLossSuffices(t: real, s: Rates)
    requires NoLoss(s) && t >= 0.0
    ensures Bands(t, s) >= 0.0
  {
    WidthsSplit(t);
    assert Width(t, 128000.0, 200000.0) <= 72000.0;
    assert Width(t, 128000.0, 200000.0) == 0.0 || Width(t, 0.0, 128000.0) == 128000.0;
    SumNoLoss(Width(t, 0.0, 128000.0), Width(t, 128000.0, 200000.0), Over(t, 200000.0), s);
  }

  lemma LossWhenNot(s: Rates) returns (t: nat)
    requires !NoLoss(s)
    ensures Bands(t as real, s) < 0.0
  {
    if s.low < 0.0 {
      t := 128000;
    } else if 128000.0 * s.low + 72000.0 * s.mid < 0.0 {
      t := 200000;
    } else {
      var n := Outweighs(128000.0 * s.low + 72000.0 * s.mid, -s.high);
      t := 200000 + n;
      assert t as real == 200000.0 + n as real;
      LastBand(n as real, s);
    }
  }

  lemma LastBand(n: real, s: Rates)
    requires n > 0.0 && 128000.0 * s.low + 72000.0 * s.mid < n * -s.high
    ensures Bands(200000.0 + n, s) < 0.0
  {
    var t := 200000.0 + n;
    assert Width(t, 0.0, 128000.0) == 128000.0 && Width(t, 128000.0, 200000.0) == 72000.0 && Over(t, 200000.0) == n;
  }

  lemma Outweighs(k: real, step: real) returns (n: nat)
    requires k >= 0.0 && step > 0.0
    ensures n > 0 && k < n as real * step
  {
    var q := k / step;
    n := q.Floor + 1;
    Stretch(q, n as real, step);
  }

  lemma Stretch(x: real, y: real, step: real)
    requires x < y && step > 0.0
    ensures x * step < y * step
  {
  }

  ghost predicate NeverDearer(mc: ModelCost, u: Usage) {
    RequestCost(mc, HitUsage(u)) <= RequestCost(mc, u)
  }

  lemma HitNotDearer(mc: ModelCost, u: Usage)
    requires u.prompt >= 0 && NoLoss(Margins(InputRates(mc), mc.cacheRead))
    ensures NeverDearer(mc, u)
  {
    HitSaving(mc, u);
    NoLossSuffices(Uncached(u), Margins(InputRates(mc), mc.cacheRead));
  }

  /** A prompt with no tokens reported as cached for which a hit is dearer. */
  lemma HitDearer(mc: ModelCost) returns (u: Usage)
    requires !NoLoss(Margins(InputRates(mc), mc.cacheRead))
    ensures u.prompt >= 0 && !NeverDearer(mc, u)
  {
    var t := LossWhenNot(Margins(InputRates(mc), mc.cacheRead));
    u := Usage(t, 0, None, None, 0);
    HitSaving(mc, u);
  }

  /** A cache hit never costs more than the request it saves, whatever the usage, exactly when the
      margins over the cache-read rate never add up to a loss. */
  lemma CacheHitNotDearerIff(mc: ModelCost)
    ensures (forall u: Usage :: u.prompt >= 0 ==> NeverDearer(mc, u))
       <==> NoLoss(Margins(InputRates(mc), mc.cacheRead))
  {
    if NoLoss(Margins(InputRates(mc), mc.cacheRead)) {
      forall u: Usage | u.prompt >= 0
        ensures NeverDearer(mc, u)
      {
        HitNotDearer(mc, u);
      }
    } else {
      var u := HitDearer(mc);
    }
  }

  /** In particular when the cache-read rate is at most every effective input rate. */
  lemma CheapReadsNeverDearer(mc: ModelCost, u: Usage)
    requires u.prompt >= 0
    requires var r := InputRates(mc); mc.cacheRead <= r.low && mc.cacheRead <= r.mid && mc.cacheRead <= r.high
    ensures RequestCost(mc, HitUsage(u)) <= RequestCost(mc, u)
  {
    HitNotDearer(mc, u);
  }

  // ---- What the customer pays.

  /** A factor, where there is one. */
  function Times(cost: real, factor: Option<real>): real {
    if factor.Some? then cost * factor.value else cost
  }

  /** markup: the calculator's, if one is configured. plan: the ratio of the token's plan, if known. */
  function BilledCost(cost: real, markup: Option<real>, plan: Option<real>): real {
    Times(Times(cost, markup), if plan.Some? && plan.value > 0.0 then plan else None)
  }

  /** The cost times the markup, and times the plan's ratio if that is positive. */
  lemma BilledIs(cost: real, markup: real, plan: real)
    ensures BilledCost(cost, None, None) == cost && BilledCost(cost, Some(markup), None) == cost * markup
    ensures BilledCost(cost, None, Some(plan)) == if plan > 0.0 then cost * plan else cost
    ensures BilledCost(cost, Some(markup), Some(plan)) == if plan > 0.0 then cost * markup * plan else cost * markup
  {
  }

  /** Billing keeps the order of costs, so a cheaper hit is also billed no higher. */
  lemma HitBilledNoHigher(mc: ModelCost, u: Usage, markup: Option<real>, plan: Option<real>)
    requires u.prompt >= 0 && NoLoss(Margins(InputRates(mc), mc.cacheRead))
    requires markup.Some? ==> markup.value >= 0.0
    ensures BilledCost(RequestCost(mc, HitUsage(u)), markup, plan) <= BilledCost(RequestCost(mc, u), markup, plan)
  {
    HitNotDearer(mc, u);
    BilledMonotone(RequestCost(mc, HitUsage(u)), RequestCost(mc, u), markup, plan);
  }

  lemma BilledMonotone(x: real, y: real, markup: Option<real>, plan: Option<real>)
    requires x <= y && (markup.Some? ==> markup.value >= 0.0)
    ensures BilledCost(x, markup, plan) <= BilledCost(y, markup, plan)
  {
    TimesMonotone(x, y, markup);
    TimesMonotone(Times(x, markup), Times(y, markup), if plan.Some? && plan.value > 0.0 then plan else None);
  }

  lemma TimesMonotone(x: real, y: real, factor: Option<real>)
    requires x <= y && (factor.Some? ==> factor.value >= 0.0)
    ensures Times(x, factor) <= Times(y, factor)
  {
    if factor.Some? {
      Scale(x, y, factor.value);
    }
  }

  lemma Scale(x: real, y: real, c: real)
    requires x <= y && c >= 0.0
    ensures x * c <= y * c
  {
  }
}
