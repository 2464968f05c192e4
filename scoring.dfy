/**
 * The scoring engine of the unit evaluator: a unit's initial, current and cap
 * values on seven stat channels, plus a role, become offense, defense, core,
 * stat-fullness, growth and cap-approach sub-scores in [0, 1], a composite
 * total in [0, 100] and a letter rank A..D.
 *
 * Arithmetic is over exact reals. The square root used for the core score is
 * a parameter of the engine (see IsSqrt), and rounding to n decimal places is
 * Floor(x * 10^n + 1/2) / 10^n.
 */
module Scoring {

  /** The seven stat channels. */
  datatype Stat = HP | POW | SKL | SPD | LCK | DEF | RES

  /** The channels in the engine's iteration order. */
  const STATS: seq<Stat> := [HP, POW, SKL, SPD, LCK, DEF, RES]

  /** The channels as a set, the key set of every per-channel result. */
  const AllStats: set<Stat> := {HP, POW, SKL, SPD, LCK, DEF, RES}

  /** The dictionary key of a channel. */
  function Key(k: Stat): string
  {
    match k
    case HP => "HP"
    case POW => "POW"
    case SKL => "SKL"
    case SPD => "SPD"
    case LCK => "LCK"
    case DEF => "DEF"
    case RES => "RES"
  }

  /** Position of a channel in STATS. */
  function Index(k: Stat): (i: nat)
    ensures i < |STATS| && STATS[i] == k
  {
    match k
    case HP => 0
    case POW => 1
    case SKL => 2
    case SPD => 3
    case LCK => 4
    case DEF => 5
    case RES => 6
  }

  lemma IndexOfStats(i: nat)
    requires i < |STATS|
    ensures Index(STATS[i]) == i
  {
  }

  lemma AllStatsComplete()
    ensures forall k: Stat :: k in AllStats
  {
    forall k: Stat ensures k in AllStats {
      assert STATS[Index(k)] == k;
    }
  }

  /** A per-channel value table (a dictionary keyed by channel). */
  type Channels = map<Stat, real>

  /** Every channel has an entry; looking up a missing one is an error. */
  ghost predicate Covers(m: Channels)
  {
    forall k: Stat :: k in m
  }

  /** Every entry lies in [0, 1]. */
  ghost predicate InUnit(m: Channels)
  {
    forall k :: k in m ==> 0.0 <= m[k] <= 1.0
  }

  /**
   * The engine's input. The display-only name and level are not part of it.
   * The role is the raw string; only "physical" selects the physical profile.
   */
  datatype UnitInput = UnitInput(role: string, init: Channels, cur: Channels, cap: Channels)
  {
    ghost predicate Complete()
    {
      Covers(init) && Covers(cur) && Covers(cap)
    }
  }

  function Max(a: real, b: real): real { if a < b then b else a }

  function Min(a: real, b: real): real { if a < b then a else b }

  /** max(lo, min(hi, x)). */
  function Clip(x: real, lo: real, hi: real): (r: real)
    ensures lo <= hi ==> lo <= r <= hi
    ensures lo <= x <= hi ==> r == x
    ensures x < lo ==> r == lo
    ensures lo <= hi < x ==> r == hi
  {
    Max(lo, Min(hi, x))
  }

  lemma ClipMonotone(x: real, y: real, lo: real, hi: real)
    requires x <= y
    ensures Clip(x, lo, hi) <= Clip(y, lo, hi)
  {
  }

  /** a / b, or the default when b is zero. */
  function SafeDiv(a: real, b: real, default: real): (r: real)
    ensures b == 0.0 ==> r == default
    ensures b != 0.0 ==> r * b == a
  {
    if b != 0.0 then a / b else default
  }

  /** 0 <= x <= 1 and 0 <= c give 0 <= x * c <= c. */
  lemma MulUnit(x: real, c: real)
    requires 0.0 <= x <= 1.0 && 0.0 <= c
    ensures 0.0 <= x * c <= c
  {
    assert (1.0 - x) * c >= 0.0;
  }

  lemma MulMonotone(a: real, b: real, c: real)
    requires a <= b && 0.0 <= c
    ensures a * c <= b * c
  {
    assert (b - a) * c >= 0.0;
  }

  lemma ProductMonotone(a: real, a': real, b: real, b': real)
    requires 0.0 <= a <= a' && 0.0 <= b <= b'
    ensures a * b <= a' * b'
  {
    MulMonotone(a, a', b);
    MulMonotone(b, b', a');
    assert a * b <= a' * b <= a' * b';
  }

  lemma DivMonotone(a: real, b: real, c: real)
    requires a <= b && 0.0 < c
    ensures a / c <= b / c
  {
    assert b / c - a / c == (b - a) / c;
  }

  lemma DivUnit(a: real, c: real)
    requires 0.0 <= a <= c && 0.0 < c
    ensures 0.0 <= a / c <= 1.0
  {
    DivMonotone(a, c, c);
    DivMonotone(0.0, a, c);
  }

  // ---------------------------------------------------------------------
  // Step 1: normalisation by cap

  /** The share of the cap reached on one channel, clipped to [0, 1]; 0 for a zero cap. */
  function CapShare(cur: real, cap: real): (x: real)
    ensures 0.0 <= x <= 1.0
    ensures cap == 0.0 ==> x == 0.0
  {
    Clip(SafeDiv(cur, cap, 0.0), 0.0, 1.0)
  }

  /** Within range the clip never bites: the share is the plain quotient. */
  lemma CapShareExact(cur: real, cap: real)
    requires 0.0 < cap && 0.0 <= cur <= cap
    ensures CapShare(cur, cap) == cur / cap
  {
    DivUnit(cur, cap);
  }

  /** Raising the current value never lowers the share when the cap is not negative. */
  lemma CapShareMonotone(cur: real, cur': real, cap: real)
    requires cur <= cur' && 0.0 <= cap
    ensures CapShare(cur, cap) <= CapShare(cur', cap)
  {
    if cap != 0.0 {
      DivMonotone(cur, cur', cap);
      ClipMonotone(cur / cap, cur' / cap, 0.0, 1.0);
    }
  }

  /** x_cap: every channel's share of its cap. */
  function NormByCap(cur: Channels, cap: Channels): (x: Channels)
    requires Covers(cur) && Covers(cap)
    ensures x.Keys == AllStats && Covers(x) && InUnit(x)
    ensures forall k :: x[k] == CapShare(cur[k], cap[k])
    ensures forall k :: cap[k] == 0.0 ==> x[k] == 0.0
  {
    AllStatsComplete();
    var x := map k | k in AllStats :: CapShare(cur[k], cap[k]);
    assert forall k :: x[k] == CapShare(cur[k], cap[k]) && 0.0 <= x[k] <= 1.0 by {
      forall k ensures x[k] == CapShare(cur[k], cap[k]) && 0.0 <= x[k] <= 1.0 {
        assert x[k] == CapShare(cur[k], cap[k]);
      }
    }
    x
  }

  // ---------------------------------------------------------------------
  // Step 2: growth ratio

  /** The share of the headroom cap - init gained so far; 0 without headroom. */
  function ChannelGrowth(init: real, cur: real, cap: real): (g: real)
    ensures 0.0 <= g <= 1.0
    ensures cap - init <= 0.0 ==> g == 0.0
  {
    var denom := cap - init;
    if denom <= 0.0 then 0.0 else Clip((cur - init) / denom, 0.0, 1.0)
  }

  /** Within range the clip never bites: the growth share is the plain quotient. */
  lemma ChannelGrowthExact(init: real, cur: real, cap: real)
    requires init < cap && init <= cur <= cap
    ensures ChannelGrowth(init, cur, cap) == (cur - init) / (cap - init)
  {
    DivUnit(cur - init, cap - init);
  }

  /** Raising the current value never lowers the growth share. */
  lemma ChannelGrowthMonotone(init: real, cur: real, cur': real, cap: real)
    requires cur <= cur'
    ensures ChannelGrowth(init, cur, cap) <= ChannelGrowth(init, cur', cap)
  {
    var denom := cap - init;
    if denom > 0.0 {
      DivMonotone(cur - init, cur' - init, denom);
      ClipMonotone((cur - init) / denom, (cur' - init) / denom, 0.0, 1.0);
    }
  }

  /** g: every channel's growth share. */
  function Growth(init: Channels, cur: Channels, cap: Channels): (g: Channels)
    requires Covers(init) && Covers(cur) && Covers(cap)
    ensures g.Keys == AllStats && Covers(g) && InUnit(g)
    ensures forall k :: g[k] == ChannelGrowth(init[k], cur[k], cap[k])
    ensures forall k :: cap[k] - init[k] <= 0.0 ==> g[k] == 0.0
  {
    AllStatsComplete();
    var g := map k | k in AllStats :: ChannelGrowth(init[k], cur[k], cap[k]);
    assert forall k :: g[k] == ChannelGrowth(init[k], cur[k], cap[k]) && 0.0 <= g[k] <= 1.0 by {
      forall k ensures g[k] == ChannelGrowth(init[k], cur[k], cap[k]) && 0.0 <= g[k] <= 1.0 {
        assert g[k] == ChannelGrowth(init[k], cur[k], cap[k]);
      }
    }
    g
  }

  /** _growth_ratio: the growth map built one channel at a time, in STATS order. */
  method GrowthRatio(init: Channels, cur: Channels, cap: Channels) returns (out: Channels)
    requires Covers(init) && Covers(cur) && Covers(cap)
    ensures out == Growth(init, cur, cap)
  {
    out := map[];
    for i := 0 to |STATS|
      invariant forall k :: k in out <==> Index(k) < i
      invariant forall k :: k in out ==> out[k] == ChannelGrowth(init[k], cur[k], cap[k])
    {
      var k := STATS[i];
      IndexOfStats(i);
      var denom := cap[k] - init[k];
      var share: real;
      if denom <= 0.0 {
        share := 0.0;
      } else {
        share := Clip((cur[k] - init[k]) / denom, 0.0, 1.0);
      }
      assert share == ChannelGrowth(init[k], cur[k], cap[k]);
      out := out[k := share];
    }
    SameChannels(out, Growth(init, cur, cap));
  }

  /** Two tables with the same keys and the same entries are equal. */
  lemma SameChannels(a: Channels, b: Channels)
    requires forall k :: k in a && k in b && a[k] == b[k]
    ensures a == b
  {
    assert a.Keys == b.Keys;
  }

  // ---------------------------------------------------------------------
  // Step 3: weight profiles and the weighted mean

  /** A weight table: channel and weight, in the table's own order. */
  type Weights = seq<(Stat, real)>

  ghost predicate NonNegative(w: Weights)
  {
    forall i :: 0 <= i < |w| ==> 0.0 <= w[i].1
  }

  /** sum(w.values()) */
  function WeightSum(w: Weights): real
  {
    if w == [] then 0.0 else w[0].1 + WeightSum(w[1..])
  }

  /** sum(vec[k] * w[k] for k in w) */
  function Dot(vec: Channels, w: Weights): real
    requires Covers(vec)
  {
    if w == [] then 0.0 else vec[w[0].0] * w[0].1 + Dot(vec, w[1..])
  }

  function WeightedMean(vec: Channels, w: Weights): real
    requires Covers(vec)
  {
    SafeDiv(Dot(vec, w), WeightSum(w), 0.0)
  }

  lemma {:induction false} WeightSumNonNegative(w: Weights)
    requires NonNegative(w)
    ensures 0.0 <= WeightSum(w)
  {
    if w != [] {
      assert NonNegative(w[1..]) by {
        forall i | 0 <= i < |w[1..]| ensures 0.0 <= w[1..][i].1 {
          assert w[1..][i] == w[i + 1];
        }
      }
      WeightSumNonNegative(w[1..]);
    }
  }

  /** With entries in [0, 1] and non-negative weights the numerator lies between 0 and the weight sum. */
  lemma {:induction false} DotBounds(vec: Channels, w: Weights)
    requires Covers(vec) && InUnit(vec) && NonNegative(w)
    ensures 0.0 <= Dot(vec, w) <= WeightSum(w)
  {
    if w != [] {
      assert NonNegative(w[1..]) by {
        forall i | 0 <= i < |w[1..]| ensures 0.0 <= w[1..][i].1 {
          assert w[1..][i] == w[i + 1];
        }
      }
      DotBounds(vec, w[1..]);
      var x, c := vec[w[0].0], w[0].1;
      MulUnit(x, c);
      assert Dot(vec, w) == x * c + Dot(vec, w[1..]);
      assert WeightSum(w) == c + WeightSum(w[1..]);
    }
  }

  /** A weighted mean of [0, 1] values with non-negative weights lies in [0, 1]. */
  lemma WeightedMeanInUnit(vec: Channels, w: Weights)
    requires Covers(vec) && InUnit(vec) && NonNegative(w)
    ensures 0.0 <= WeightedMean(vec, w) <= 1.0
  {
    DotBounds(vec, w);
    var den := WeightSum(w);
    if den != 0.0 {
      DivUnit(Dot(vec, w), den);
    }
  }

  /** Pointwise larger values give a larger numerator. */
  lemma {:induction false} DotMonotone(vec: Channels, vec': Channels, w: Weights)
    requires Covers(vec) && Covers(vec') && NonNegative(w)
    requires forall k :: vec[k] <= vec'[k]
    ensures Dot(vec, w) <= Dot(vec', w)
  {
    if w != [] {
      assert NonNegative(w[1..]) by {
        forall i | 0 <= i < |w[1..]| ensures 0.0 <= w[1..][i].1 {
          assert w[1..][i] == w[i + 1];
        }
      }
      DotMonotone(vec, vec', w[1..]);
      MulMonotone(vec[w[0].0], vec'[w[0].0], w[0].1);
    }
  }

  lemma WeightedMeanMonotone(vec: Channels, vec': Channels, w: Weights)
    requires Covers(vec) && Covers(vec') && NonNegative(w)
    requires forall k :: vec[k] <= vec'[k]
    ensures WeightedMean(vec, w) <= WeightedMean(vec', w)
  {
    DotMonotone(vec, vec', w);
    WeightSumNonNegative(w);
    if WeightSum(w) != 0.0 {
      DivMonotone(Dot(vec, w), Dot(vec', w), WeightSum(w));
    }
  }

  /** The offense, defense and growth weight tables of one role. */
  datatype Profile = Profile(offense: Weights, defense: Weights, growth: Weights)

  const Physical: Profile := Profile(
    [(POW, 0.50), (SKL, 0.25), (SPD, 0.20), (LCK, 0.05)],
    [(HP, 0.40), (DEF, 0.40), (RES, 0.15), (SPD, 0.05)],
    [(POW, 0.30), (SKL, 0.20), (SPD, 0.20), (HP, 0.15), (DEF, 0.10), (RES, 0.05)])

  const Magical: Profile := Profile(
    [(POW, 0.50), (SKL, 0.20), (SPD, 0.20), (LCK, 0.10)],
    [(HP, 0.35), (RES, 0.40), (DEF, 0.20), (SPD, 0.05)],
    [(POW, 0.30), (SKL, 0.15), (SPD, 0.20), (HP, 0.15), (RES, 0.15), (DEF, 0.05)])

  /** Every weight is non-negative and every table sums to 1. */
  ghost predicate Normalised(p: Profile)
  {
    && NonNegative(p.offense) && WeightSum(p.offense) == 1.0
    && NonNegative(p.defense) && WeightSum(p.defense) == 1.0
    && NonNegative(p.growth) && WeightSum(p.growth) == 1.0
  }

  /** "physical" selects the physical tables; every other role string the magical ones. */
  function ProfileFor(role: string): (p: Profile)
    ensures p == Physical <==> role == "physical"
    ensures role != "physical" ==> p == Magical
    ensures Normalised(p)
  {
    ProfilesNormalised();
    if role == "physical" then Physical else Magical
  }

  lemma WeightSumStep(w: Weights, i: nat)
    requires i < |w|
    ensures WeightSum(w[i..]) == w[i].1 + WeightSum(w[i + 1..])
  {
    assert w[i..][1..] == w[i + 1..];
  }

  /** A four-entry table sums to the sum of its weights. */
  lemma WeightSumOfFour(w: Weights)
    requires |w| == 4
    ensures WeightSum(w) == w[0].1 + w[1].1 + w[2].1 + w[3].1
  {
    WeightSumStep(w, 3);
    WeightSumStep(w, 2);
    WeightSumStep(w, 1);
    WeightSumStep(w, 0);
    assert w[0..] == w;
  }

  /** A six-entry table sums to the sum of its weights. */
  lemma WeightSumOfSix(w: Weights)
    requires |w| == 6
    ensures WeightSum(w) == w[0].1 + w[1].1 + w[2].1 + w[3].1 + w[4].1 + w[5].1
  {
    WeightSumStep(w, 5);
    WeightSumStep(w, 4);
    WeightSumStep(w, 3);
    WeightSumStep(w, 2);
    WeightSumStep(w, 1);
    WeightSumStep(w, 0);
    assert w[0..] == w;
  }

  /** Every weight of a four- or six-entry table is non-negative when its listed weights are. */
  lemma TableNormalised(w: Weights)
    requires |w| == 4 || |w| == 6
    requires forall i :: 0 <= i < |w| ==> 0.0 <= w[i].1
    requires |w| == 4 ==> w[0].1 + w[1].1 + w[2].1 + w[3].1 == 1.0
    requires |w| == 6 ==> w[0].1 + w[1].1 + w[2].1 + w[3].1 + w[4].1 + w[5].1 == 1.0
    ensures NonNegative(w) && WeightSum(w) == 1.0
  {
    if |w| == 4 {
      WeightSumOfFour(w);
    } else {
      WeightSumOfSix(w);
    }
  }

  /** Both profiles' tables are normalised, so no weighted mean divides by zero. */
  lemma ProfilesNormalised()
    ensures Normalised(Physical) && Normalised(Magical)
    ensures Physical != Magical
  {
    PhysicalNormalised();
    MagicalNormalised();
    assert Physical.offense[1] != Magical.offense[1];
  }

  lemma PhysicalNormalised()
    ensures Normalised(Physical)
  {
    TableNormalised(Physical.offense);
    TableNormalised(Physical.defense);
    TableNormalised(Physical.growth);
  }

  lemma MagicalNormalised()
    ensures Normalised(Magical)
  {
    TableNormalised(Magical.offense);
    TableNormalised(Magical.defense);
    TableNormalised(Magical.growth);
  }

  // ---------------------------------------------------------------------
  // Step 4 and 5: derived scores and composite

  /** sum(vec[k] for k in ks) */
  function SumOver(vec: Channels, ks: seq<Stat>): real
    requires Covers(vec)
  {
    if ks == [] then 0.0 else vec[ks[0]] + SumOver(vec, ks[1..])
  }

  lemma {:induction false} SumOverBounds(vec: Channels, ks: seq<Stat>)
    requires Covers(vec) && InUnit(vec)
    ensures 0.0 <= SumOver(vec, ks) <= |ks| as real
  {
    if ks != [] {
      SumOverBounds(vec, ks[1..]);
    }
  }

  lemma {:induction false} SumOverMonotone(vec: Channels, vec': Channels, ks: seq<Stat>)
    requires Covers(vec) && Covers(vec')
    requires forall k :: vec[k] <= vec'[k]
    ensures SumOver(vec, ks) <= SumOver(vec', ks)
  {
    if ks != [] {
      SumOverMonotone(vec, vec', ks[1..]);
    }
  }

  /** S: the plain mean over all seven channels. */
  function StatMean(vec: Channels): real
    requires Covers(vec)
  {
    SumOver(vec, STATS) / |STATS| as real
  }

  lemma StatMeanInUnit(vec: Channels)
    requires Covers(vec) && InUnit(vec)
    ensures 0.0 <= StatMean(vec) <= 1.0
  {
    SumOverBounds(vec, STATS);
    DivUnit(SumOver(vec, STATS), 7.0);
  }

  lemma StatMeanMonotone(vec: Channels, vec': Channels)
    requires Covers(vec) && Covers(vec')
    requires forall k :: vec[k] <= vec'[k]
    ensures StatMean(vec) <= StatMean(vec')
  {
    SumOverMonotone(vec, vec', STATS);
    DivMonotone(SumOver(vec, STATS), SumOver(vec', STATS), 7.0);
  }

  /** The floor that keeps a zero factor from collapsing the core score. */
  const Epsilon: real := 0.000001

  /**
   * The square root the engine uses: non-negative with its square equal to
   * its argument on the non-negative reals.
   */
  ghost predicate IsSqrt(sqrt: real -> real)
  {
    forall x :: 0.0 <= x ==> 0.0 <= sqrt(x) && sqrt(x) * sqrt(x) == x
  }

  /** Non-negative numbers compare like their squares. */
  lemma SquareOrder(a: real, b: real)
    requires 0.0 <= a && 0.0 <= b && a * a <= b * b
    ensures a <= b
  {
    if a > b {
      assert a * a - b * b == (a - b) * (a + b);
      MulPositive(a - b, a + b);
    }
  }

  /** A product of positive factors is positive (the instance nonlinear steps need). */
  lemma MulPositive(x: real, y: real)
    requires 0.0 < x && 0.0 < y
    ensures 0.0 < x * y
  {
  }

  lemma SqrtMonotone(sqrt: real -> real, x: real, y: real)
    requires IsSqrt(sqrt) && 0.0 <= x <= y
    ensures sqrt(x) <= sqrt(y)
  {
    SquareOrder(sqrt(x), sqrt(y));
  }

  /** The product under the root of K: offense times defense, each floored at Epsilon. */
  function FlooredProduct(o: real, d: real): (p: real)
    ensures 0.0 < p
    ensures o <= 1.0 && d <= 1.0 ==> p <= 1.0
  {
    PositiveProduct(Max(Epsilon, o), Max(Epsilon, d));
    Max(Epsilon, o) * Max(Epsilon, d)
  }

  lemma PositiveProduct(a: real, b: real)
    requires 0.0 < a && 0.0 < b
    ensures 0.0 < a * b
    ensures a <= 1.0 && b <= 1.0 ==> a * b <= 1.0
  {
    assert 0.0 < a * b;
    if a <= 1.0 && b <= 1.0 {
      ProductMonotone(a, 1.0, b, 1.0);
    }
  }

  lemma FlooredProductMonotone(o: real, o': real, d: real, d': real)
    requires o <= o' && d <= d'
    ensures FlooredProduct(o, d) <= FlooredProduct(o', d')
  {
    ProductMonotone(Max(Epsilon, o), Max(Epsilon, o'), Max(Epsilon, d), Max(Epsilon, d'));
  }

  /** K: the geometric mean of offense and defense, each floored at Epsilon. */
  function Core(o: real, d: real, sqrt: real -> real): real
  {
    sqrt(FlooredProduct(o, d))
  }

  /** With offense and defense at most 1 the core lies in [0, 1]. */
  lemma CoreInUnit(o: real, d: real, sqrt: real -> real)
    requires IsSqrt(sqrt) && o <= 1.0 && d <= 1.0
    ensures 0.0 <= Core(o, d, sqrt) <= 1.0
  {
    SqrtMonotone(sqrt, FlooredProduct(o, d), 1.0);
    SquareOrder(sqrt(1.0), 1.0);
  }

  lemma CoreMonotone(o: real, o': real, d: real, d': real, sqrt: real -> real)
    requires IsSqrt(sqrt) && o <= o' && d <= d'
    ensures Core(o, d, sqrt) <= Core(o', d', sqrt)
  {
    FlooredProductMonotone(o, o', d, d');
    SqrtMonotone(sqrt, FlooredProduct(o, d), FlooredProduct(o', d'));
  }

  /** The composite weights of K, S, G and C. */
  const WK: real := 0.45
  const WS: real := 0.20
  const WG: real := 0.20
  const WC: real := 0.15

  /** T01: the weighted composite clipped to [0, 1]. */
  function Composite(k: real, s: real, g: real, c: real): (t: real)
    ensures 0.0 <= t <= 1.0
  {
    Clip(WK * k + WS * s + WG * g + WC * c, 0.0, 1.0)
  }

  /** The composite weights sum to 1, so with unit inputs the clip never bites. */
  lemma CompositeUnclipped(k: real, s: real, g: real, c: real)
    requires 0.0 <= k <= 1.0 && 0.0 <= s <= 1.0 && 0.0 <= g <= 1.0 && 0.0 <= c <= 1.0
    ensures Composite(k, s, g, c) == WK * k + WS * s + WG * g + WC * c
  {
  }

  lemma CompositeMonotone(k: real, k': real, s: real, s': real, g: real, g': real, c: real, c': real)
    requires k <= k' && s <= s' && g <= g' && c <= c'
    ensures Composite(k, s, g, c) <= Composite(k', s', g', c')
  {
    ClipMonotone(WK * k + WS * s + WG * g + WC * c, WK * k' + WS * s' + WG * g' + WC * c', 0.0, 1.0);
  }

  // ---------------------------------------------------------------------
  // Rounding and rank

  function Pow10(n: nat): (p: nat)
    ensures 1 <= p
  {
    if n == 0 then 1 else 10 * Pow10(n - 1)
  }

  /** 10^places as a real. */
  function Scale(places: nat): (s: real)
    ensures 1.0 <= s
  {
    Pow10(places) as real
  }

  /** x in units of the last kept place, rounded half up to a whole number. */
  function Units(x: real, places: nat): int
  {
    (x * Scale(places) + 0.5).Floor
  }

  /** round(x, places), rounding halves upwards. */
  function Round(x: real, places: nat): real
  {
    Units(x, places) as real / Scale(places)
  }

  /** The rounded value is within half a unit of the last place. */
  lemma RoundClose(x: real, places: nat)
    ensures x * Scale(places) - 0.5 < Round(x, places) * Scale(places) <= x * Scale(places) + 0.5
  {
    DivCancel(Units(x, places) as real, Scale(places));
  }

  lemma DivCancel(a: real, c: real)
    requires c != 0.0
    ensures (a / c) * c == a && (a * c) / c == a
  {
  }

  lemma RoundMonotone(x: real, y: real, places: nat)
    requires x <= y
    ensures Round(x, places) <= Round(y, places)
  {
    MulMonotone(x, y, Scale(places));
    FloorMonotone(x * Scale(places) + 0.5, y * Scale(places) + 0.5);
    assert Units(x, places) <= Units(y, places);
    DivMonotone(Units(x, places) as real, Units(y, places) as real, Scale(places));
  }

  lemma FloorMonotone(x: real, y: real)
    requires x <= y
    ensures x.Floor <= y.Floor
  {
  }

  lemma FloorBelow(y: real, n: int)
    requires y < n as real + 1.0
    ensures y.Floor <= n
  {
  }

  lemma WholeScale(m: nat, places: nat)
    ensures (m * Pow10(places)) as real == m as real * Scale(places)
  {
  }

  lemma UnitsWithin(x: real, places: nat, m: nat)
    requires 0.0 <= x <= m as real
    ensures 0 <= Units(x, places) <= m * Pow10(places)
  {
    MulMonotone(x, m as real, Scale(places));
    MulMonotone(0.0, x, Scale(places));
    WholeScale(m, places);
    FloorBelow(x * Scale(places) + 0.5, m * Pow10(places));
    FloorMonotone(0.0, x * Scale(places) + 0.5);
  }

  /** Rounding keeps a value in [0, m] for a whole number m. */
  lemma RoundWithin(x: real, places: nat, m: nat)
    requires 0.0 <= x <= m as real
    ensures 0.0 <= Round(x, places) <= m as real
  {
    UnitsWithin(x, places, m);
    WholeScale(m, places);
    assert Units(x, places) as real <= m as real * Scale(places);
    DivMonotone(Units(x, places) as real, m as real * Scale(places), Scale(places));
    DivMonotone(0.0, Units(x, places) as real, Scale(places));
    DivCancel(m as real, Scale(places));
  }

  datatype Rank = A | B | C | D

  /** The letter rank of a 0..100 total, with inclusive lower bounds 80, 60, 40. */
  function RankOf(total: real): (r: Rank)
    ensures r == A <==> total >= 80.0
    ensures r == B <==> 60.0 <= total < 80.0
    ensures r == C <==> 40.0 <= total < 60.0
    ensures r == D <==> total < 40.0
  {
    if total >= 80.0 then A
    else if total >= 60.0 then B
    else if total >= 40.0 then C
    else D
  }

  /** A is the best rank, D the worst. */
  function Grade(r: Rank): nat
  {
    match r
    case A => 3
    case B => 2
    case C => 1
    case D => 0
  }

  lemma RankMonotone(t: real, t': real)
    requires t <= t'
    ensures Grade(RankOf(t)) <= Grade(RankOf(t'))
  {
  }

  // ---------------------------------------------------------------------
  // The engine

  /** The score map: O, D, K, S, G, C and the 0..100 total. */
  datatype Scores = Scores(offense: real, defense: real, core: real, sum: real,
                           growth: real, capApproach: real, total: real)
  {
    /** Every sub-score in [0, 1] and the total in [0, 100]. */
    predicate InRange()
    {
      && 0.0 <= offense <= 1.0 && 0.0 <= defense <= 1.0 && 0.0 <= core <= 1.0
      && 0.0 <= sum <= 1.0 && 0.0 <= growth <= 1.0 && 0.0 <= capApproach <= 1.0
      && 0.0 <= total <= 100.0
    }
  }

  /**
   * O, D, K, S, G and C from the normalised stats x, the growth shares g and
   * a role's weight tables, before output rounding; total is T01 * 100.
   */
  function Derive(x: Channels, g: Channels, p: Profile, sqrt: real -> real): (r: Scores)
    requires Covers(x) && InUnit(x) && Covers(g) && InUnit(g)
    requires Normalised(p) && IsSqrt(sqrt)
    ensures r.InRange()
    ensures r.capApproach == r.sum
  {
    var o := WeightedMean(x, p.offense);
    var d := WeightedMean(x, p.defense);
    WeightedMeanInUnit(x, p.offense);
    WeightedMeanInUnit(x, p.defense);
    WeightedMeanInUnit(g, p.growth);
    StatMeanInUnit(x);
    CoreInUnit(o, d, sqrt);
    var k := Core(o, d, sqrt);
    var s := StatMean(x);
    var gr := WeightedMean(g, p.growth);
    var c := s;
    var t01 := Composite(k, s, gr, c);
    Scores(o, d, k, s, gr, c, t01 * 100.0)
  }

  /** The unrounded scores of a unit: the role enters only through its weight tables. */
  function RawScores(u: UnitInput, sqrt: real -> real): (r: Scores)
    requires u.Complete() && IsSqrt(sqrt)
    ensures r.InRange()
    ensures r.capApproach == r.sum
  {
    Derive(NormByCap(u.cur, u.cap), Growth(u.init, u.cur, u.cap), ProfileFor(u.role), sqrt)
  }

  /** The sub-scores rounded to 4 places and the total to 2. */
  function Rounded(r: Scores): Scores
  {
    Scores(Round(r.offense, 4), Round(r.defense, 4), Round(r.core, 4), Round(r.sum, 4),
           Round(r.growth, 4), Round(r.capApproach, 4), Round(r.total, 2))
  }

  /** Rounding keeps every field in its range. */
  lemma RoundedInRange(r: Scores)
    requires r.InRange()
    ensures Rounded(r).InRange()
  {
    RoundWithin(r.offense, 4, 1);
    RoundWithin(r.defense, 4, 1);
    RoundWithin(r.core, 4, 1);
    RoundWithin(r.sum, 4, 1);
    RoundWithin(r.growth, 4, 1);
    RoundWithin(r.capApproach, 4, 1);
    RoundWithin(r.total, 2, 100);
  }

  /** compute_scores: the rounded score map and the rank of the rounded total. */
  function ComputeScores(u: UnitInput, sqrt: real -> real): (res: (Scores, Rank))
    requires u.Complete() && IsSqrt(sqrt)
    ensures res.0.InRange()
    ensures res.0.capApproach == res.0.sum
    ensures res.1 == A <==> res.0.total >= 80.0
    ensures res.1 == B <==> 60.0 <= res.0.total < 80.0
    ensures res.1 == C <==> 40.0 <= res.0.total < 60.0
    ensures res.1 == D <==> res.0.total < 40.0
  {
    var raw := RawScores(u, sqrt);
    RoundedInRange(raw);
    var scores := Rounded(raw);
    (scores, RankOf(scores.total))
  }

  // ---------------------------------------------------------------------
  // Properties of the engine

  /** Every field of one score map is at most the same field of another. */
  ghost predicate Dominated(s: Scores, s': Scores)
  {
    && s.offense <= s'.offense && s.defense <= s'.defense && s.core <= s'.core
    && s.sum <= s'.sum && s.growth <= s'.growth && s.capApproach <= s'.capApproach
    && s.total <= s'.total
  }

  /** Raising one current value, with a non-negative cap, never lowers that channel's share or growth. */
  lemma RaisingCurrentPointwise(init: Channels, cur: Channels, cap: Channels, k: Stat, v: real)
    requires Covers(init) && Covers(cur) && Covers(cap)
    requires 0.0 <= cap[k] && cur[k] <= v
    ensures forall j :: NormByCap(cur, cap)[j] <= NormByCap(cur[k := v], cap)[j]
    ensures forall j :: Growth(init, cur, cap)[j] <= Growth(init, cur[k := v], cap)[j]
  {
    RaisingCurrentShares(cur, cap, k, v);
    RaisingCurrentGrowth(init, cur, cap, k, v);
  }

  lemma RaisingCurrentShares(cur: Channels, cap: Channels, k: Stat, v: real)
    requires Covers(cur) && Covers(cap)
    requires 0.0 <= cap[k] && cur[k] <= v
    ensures forall j :: NormByCap(cur, cap)[j] <= NormByCap(cur[k := v], cap)[j]
  {
    var cur' := cur[k := v];
    forall j ensures NormByCap(cur, cap)[j] <= NormByCap(cur', cap)[j] {
      if j == k {
        CapShareMonotone(cur[j], cur'[j], cap[j]);
      }
    }
  }

  lemma RaisingCurrentGrowth(init: Channels, cur: Channels, cap: Channels, k: Stat, v: real)
    requires Covers(init) && Covers(cur) && Covers(cap)
    requires cur[k] <= v
    ensures forall j :: Growth(init, cur, cap)[j] <= Growth(init, cur[k := v], cap)[j]
  {
    var cur' := cur[k := v];
    forall j ensures Growth(init, cur, cap)[j] <= Growth(init, cur', cap)[j] {
      ChannelGrowthMonotone(init[j], cur[j], cur'[j], cap[j]);
    }
  }

  lemma RawScoresMonotone(u: UnitInput, k: Stat, v: real, sqrt: real -> real)
    requires u.Complete() && IsSqrt(sqrt)
    requires 0.0 <= u.cap[k] && u.cur[k] <= v
    ensures Dominated(RawScores(u, sqrt), RawScores(u.(cur := u.cur[k := v]), sqrt))
  {
    var u' := u.(cur := u.cur[k := v]);
    RaisingCurrentPointwise(u.init, u.cur, u.cap, k, v);
    var x, x' := NormByCap(u.cur, u.cap), NormByCap(u'.cur, u'.cap);
    var g, g' := Growth(u.init, u.cur, u.cap), Growth(u'.init, u'.cur, u'.cap);
    var p := ProfileFor(u.role);
    WeightedMeanMonotone(x, x', p.offense);
    WeightedMeanMonotone(x, x', p.defense);
    WeightedMeanMonotone(g, g', p.growth);
    StatMeanMonotone(x, x');
    CoreMonotone(WeightedMean(x, p.offense), WeightedMean(x', p.offense),
                 WeightedMean(x, p.defense), WeightedMean(x', p.defense), sqrt);
    CompositeMonotone(Core(WeightedMean(x, p.offense), WeightedMean(x, p.defense), sqrt),
                      Core(WeightedMean(x', p.offense), WeightedMean(x', p.defense), sqrt),
                      StatMean(x), StatMean(x'), WeightedMean(g, p.growth), WeightedMean(g', p.growth),
                      StatMean(x), StatMean(x'));
  }

  lemma RoundedMonotone(s: Scores, s': Scores)
    requires Dominated(s, s')
    ensures Dominated(Rounded(s), Rounded(s'))
  {
    RoundMonotone(s.offense, s'.offense, 4);
    RoundMonotone(s.defense, s'.defense, 4);
    RoundMonotone(s.core, s'.core, 4);
    RoundMonotone(s.sum, s'.sum, 4);
    RoundMonotone(s.growth, s'.growth, 4);
    RoundMonotone(s.capApproach, s'.capApproach, 4);
    RoundMonotone(s.total, s'.total, 2);
  }

  /**
   * Monotonicity: raising one channel's current value, when its cap is not
   * negative, lowers no score and never worsens the rank, for either role.
   */
  lemma RaisingCurrentNeverLowersScores(u: UnitInput, k: Stat, v: real, sqrt: real -> real)
    requires u.Complete() && IsSqrt(sqrt)
    requires 0.0 <= u.cap[k] && u.cur[k] <= v
    ensures Dominated(ComputeScores(u, sqrt).0, ComputeScores(u.(cur := u.cur[k := v]), sqrt).0)
    ensures Grade(ComputeScores(u, sqrt).1) <= Grade(ComputeScores(u.(cur := u.cur[k := v]), sqrt).1)
  {
    var u' := u.(cur := u.cur[k := v]);
    RawScoresMonotone(u, k, v, sqrt);
    RoundedMonotone(RawScores(u, sqrt), RawScores(u', sqrt));
    RankMonotone(ComputeScores(u, sqrt).0.total, ComputeScores(u', sqrt).0.total);
  }

  ghost predicate AllZero(vec: Channels)
  {
    forall k :: k in vec ==> vec[k] == 0.0
  }

  lemma {:induction false} DotOfZeros(vec: Channels, w: Weights)
    requires Covers(vec) && AllZero(vec)
    ensures Dot(vec, w) == 0.0
  {
    if w != [] {
      DotOfZeros(vec, w[1..]);
    }
  }

  lemma {:induction false} SumOverZeros(vec: Channels, ks: seq<Stat>)
    requires Covers(vec) && AllZero(vec)
    ensures SumOver(vec, ks) == 0.0
  {
    if ks != [] {
      SumOverZeros(vec, ks[1..]);
    }
  }

  /** A weighted mean of zeros is zero. */
  lemma WeightedMeanOfZeros(vec: Channels, w: Weights)
    requires Covers(vec) && AllZero(vec)
    ensures WeightedMean(vec, w) == 0.0
  {
    DotOfZeros(vec, w);
  }

  /** Growth floor: when no channel has headroom above its initial value, G is 0 whatever the current values. */
  lemma NoHeadroomNoGrowth(u: UnitInput, sqrt: real -> real)
    requires u.Complete() && IsSqrt(sqrt)
    requires forall k :: u.cap[k] <= u.init[k]
    ensures ComputeScores(u, sqrt).0.growth == 0.0
  {
    var g := Growth(u.init, u.cur, u.cap);
    assert AllZero(g);
    WeightedMeanOfZeros(g, ProfileFor(u.role).growth);
    ScoresUnfold(u, sqrt);
    RoundZero(4);
  }

  lemma RoundZero(places: nat)
    ensures Round(0.0, places) == 0.0
  {
    assert Units(0.0, places) == 0;
  }

  /** How the output is assembled from the intermediate values. */
  lemma ScoresUnfold(u: UnitInput, sqrt: real -> real)
    requires u.Complete() && IsSqrt(sqrt)
    ensures var x := NormByCap(u.cur, u.cap);
      var p := ProfileFor(u.role);
      var raw := RawScores(u, sqrt);
      && raw.offense == WeightedMean(x, p.offense)
      && raw.defense == WeightedMean(x, p.defense)
      && raw.core == Core(raw.offense, raw.defense, sqrt)
      && raw.sum == StatMean(x)
      && raw.growth == WeightedMean(Growth(u.init, u.cur, u.cap), p.growth)
      && raw.capApproach == raw.sum
      && raw.total == Composite(raw.core, raw.sum, raw.growth, raw.capApproach) * 100.0
    ensures ComputeScores(u, sqrt).0 == Rounded(RawScores(u, sqrt))
    ensures ComputeScores(u, sqrt).1 == RankOf(Rounded(RawScores(u, sqrt)).total)
  {
  }

  /** The root of Epsilon squared is Epsilon. */
  lemma SqrtOfFloor(sqrt: real -> real)
    requires IsSqrt(sqrt)
    ensures sqrt(Epsilon * Epsilon) == Epsilon
  {
    SquareOrder(sqrt(Epsilon * Epsilon), Epsilon);
    SquareOrder(Epsilon, sqrt(Epsilon * Epsilon));
  }

  lemma ScaleValues()
    ensures Scale(2) == 100.0 && Scale(4) == 10000.0
  {
    assert Pow10(2) == 100;
    assert Pow10(4) == 10000;
  }

  /**
   * Degenerate input: with every cap 0 and no negative initial value, every
   * sub-score rounds to 0, the total is 0 and the rank is D.
   */
  lemma AllCapsZero(u: UnitInput, sqrt: real -> real)
    requires u.Complete() && IsSqrt(sqrt)
    requires forall k :: u.cap[k] == 0.0 && 0.0 <= u.init[k]
    ensures var s := ComputeScores(u, sqrt).0;
      s.offense == 0.0 && s.defense == 0.0 && s.core == 0.0 && s.sum == 0.0
      && s.growth == 0.0 && s.capApproach == 0.0 && s.total == 0.0
    ensures ComputeScores(u, sqrt).1 == D
  {
    AllCapsZeroRaw(u, sqrt);
    ScoresUnfold(u, sqrt);
    RoundZero(4);
    RoundsToZero(Epsilon, 4);
    RoundsToZero(WK * Epsilon * 100.0, 2);
  }

  /** Before rounding: every share is zero, the core sits at its floor Epsilon. */
  lemma AllCapsZeroRaw(u: UnitInput, sqrt: real -> real)
    requires u.Complete() && IsSqrt(sqrt)
    requires forall k :: u.cap[k] == 0.0 && 0.0 <= u.init[k]
    ensures var raw := RawScores(u, sqrt);
      raw.offense == 0.0 && raw.defense == 0.0 && raw.sum == 0.0 && raw.growth == 0.0
      && raw.capApproach == 0.0 && raw.core == Epsilon && raw.total == WK * Epsilon * 100.0
  {
    AllCapsZeroShares(u, sqrt);
    ScoresUnfold(u, sqrt);
    var raw := RawScores(u, sqrt);
    SqrtOfFloor(sqrt);
    assert FlooredProduct(0.0, 0.0) == Epsilon * Epsilon;
  }

  lemma AllCapsZeroShares(u: UnitInput, sqrt: real -> real)
    requires u.Complete() && IsSqrt(sqrt)
    requires forall k :: u.cap[k] == 0.0 && 0.0 <= u.init[k]
    ensures var raw := RawScores(u, sqrt);
      raw.offense == 0.0 && raw.defense == 0.0 && raw.sum == 0.0 && raw.growth == 0.0
  {
    assert AllZero(NormByCap(u.cur, u.cap));
    assert AllZero(Growth(u.init, u.cur, u.cap));
    ZeroSharesZeroScores(u, sqrt);
  }

  /** All-zero shares and growth give zero offense, defense, S and G. */
  lemma ZeroSharesZeroScores(u: UnitInput, sqrt: real -> real)
    requires u.Complete() && IsSqrt(sqrt)
    requires AllZero(NormByCap(u.cur, u.cap)) && AllZero(Growth(u.init, u.cur, u.cap))
    ensures var raw := RawScores(u, sqrt);
      raw.offense == 0.0 && raw.defense == 0.0 && raw.sum == 0.0 && raw.growth == 0.0
  {
    var x := NormByCap(u.cur, u.cap);
    var p := ProfileFor(u.role);
    WeightedMeanOfZeros(x, p.offense);
    WeightedMeanOfZeros(x, p.defense);
    SumOverZeros(x, STATS);
    WeightedMeanOfZeros(Growth(u.init, u.cur, u.cap), p.growth);
    ScoresUnfold(u, sqrt);
  }

  lemma RoundsToZero(t: real, places: nat)
    requires 0.0 <= t
    requires (places == 2 && t < 0.005) || (places == 4 && t < 0.00005)
    ensures Round(t, places) == 0.0
  {
    ScaleValues();
    var y := t * Scale(places) + 0.5;
    if places == 2 {
      assert t * Scale(places) == t * 100.0;
    } else {
      assert t * Scale(places) == t * 10000.0;
    }
    assert 0.0 <= y < 1.0;
    assert y.Floor == 0;
  }

  /**
   * The role selects only the weight tables: S and C do not depend on it, and
   * every role other than "physical" scores exactly as "magical".
   */
  lemma RoleOnlySelectsWeights(u: UnitInput, role: string, sqrt: real -> real)
    requires u.Complete() && IsSqrt(sqrt)
    ensures ComputeScores(u.(role := role), sqrt).0.sum == ComputeScores(u, sqrt).0.sum
    ensures ComputeScores(u.(role := role), sqrt).0.capApproach == ComputeScores(u, sqrt).0.capApproach
    ensures role != "physical" ==>
      ComputeScores(u.(role := role), sqrt) == ComputeScores(u.(role := "magical"), sqrt)
  {
    ScoresUnfold(u, sqrt);
    ScoresUnfold(u.(role := role), sqrt);
    if role != "physical" {
      assert ProfileFor(role) == ProfileFor("magical");
      ScoresUnfold(u.(role := "magical"), sqrt);
    }
  }

  // ---------------------------------------------------------------------
  // A worked example

  lemma DotStep(vec: Channels, w: Weights, i: nat)
    requires Covers(vec) && i < |w|
    ensures Dot(vec, w[i..]) == vec[w[i].0] * w[i].1 + Dot(vec, w[i + 1..])
  {
    assert w[i..][1..] == w[i + 1..];
  }

  lemma DotOfFour(vec: Channels, w: Weights)
    requires Covers(vec) && |w| == 4
    ensures Dot(vec, w) == vec[w[0].0] * w[0].1 + vec[w[1].0] * w[1].1 + vec[w[2].0] * w[2].1
                           + vec[w[3].0] * w[3].1
  {
    DotStep(vec, w, 3);
    DotStep(vec, w, 2);
    DotStep(vec, w, 1);
    DotStep(vec, w, 0);
    assert w[0..] == w;
  }

  lemma DotOfSix(vec: Channels, w: Weights)
    requires Covers(vec) && |w| == 6
    ensures Dot(vec, w) == vec[w[0].0] * w[0].1 + vec[w[1].0] * w[1].1 + vec[w[2].0] * w[2].1
                           + vec[w[3].0] * w[3].1 + vec[w[4].0] * w[4].1 + vec[w[5].0] * w[5].1
  {
    DotStep(vec, w, 5);
    DotStep(vec, w, 4);
    DotStep(vec, w, 3);
    DotStep(vec, w, 2);
    DotStep(vec, w, 1);
    DotStep(vec, w, 0);
    assert w[0..] == w;
  }

  const ExampleInit: Channels :=
    map[HP := 18.0, POW := 6.0, SKL := 5.0, SPD := 6.0, LCK := 3.0, DEF := 5.0, RES := 1.0]
  const ExampleCur: Channels :=
    map[HP := 24.0, POW := 9.0, SKL := 9.0, SPD := 10.0, LCK := 5.0, DEF := 8.0, RES := 3.0]
  const ExampleCap: Channels :=
    map[HP := 40.0, POW := 17.0, SKL := 17.0, SPD := 18.0, LCK := 20.0, DEF := 16.0, RES := 12.0]

  lemma ExampleComplete()
    ensures Covers(ExampleInit) && Covers(ExampleCur) && Covers(ExampleCap)
  {
    forall k: Stat ensures k in ExampleInit && k in ExampleCur && k in ExampleCap {
      match k
      case HP => case POW => case SKL => case SPD => case LCK => case DEF => case RES =>
    }
  }

  /** The example's capacity shares x, channel by channel. */
  lemma ExampleShares()
    ensures Covers(ExampleCur) && Covers(ExampleCap)
    ensures var x := NormByCap(ExampleCur, ExampleCap);
      && x[HP] == 0.6 && x[POW] == 9.0 / 17.0 && x[SKL] == 9.0 / 17.0 && x[SPD] == 10.0 / 18.0
      && x[LCK] == 0.25 && x[DEF] == 0.5 && x[RES] == 0.25
  {
    ExampleComplete();
    ExampleShare(HP, 24.0, 40.0);
    ExampleShare(POW, 9.0, 17.0);
    ExampleShare(SKL, 9.0, 17.0);
    ExampleShare(SPD, 10.0, 18.0);
    ExampleShare(LCK, 5.0, 20.0);
    ExampleShare(DEF, 8.0, 16.0);
    ExampleShare(RES, 3.0, 12.0);
  }

  lemma ExampleShare(k: Stat, c: real, p: real)
    requires Covers(ExampleCur) && Covers(ExampleCap)
    requires ExampleCur[k] == c && ExampleCap[k] == p && 0.0 <= c <= p && 0.0 < p
    ensures NormByCap(ExampleCur, ExampleCap)[k] == c / p
  {
    CapShareExact(c, p);
  }

  /** The example's growth shares g, channel by channel. */
  lemma ExampleGrowth()
    ensures Covers(ExampleInit) && Covers(ExampleCur) && Covers(ExampleCap)
    ensures var g := Growth(ExampleInit, ExampleCur, ExampleCap);
      && g[HP] == 6.0 / 22.0 && g[POW] == 3.0 / 11.0 && g[SKL] == 4.0 / 12.0 && g[SPD] == 4.0 / 12.0
      && g[LCK] == 2.0 / 17.0 && g[DEF] == 3.0 / 11.0 && g[RES] == 2.0 / 11.0
  {
    ExampleComplete();
    ExampleGrowthOf(HP, 18.0, 24.0, 40.0);
    ExampleGrowthOf(POW, 6.0, 9.0, 17.0);
    ExampleGrowthOf(SKL, 5.0, 9.0, 17.0);
    ExampleGrowthOf(SPD, 6.0, 10.0, 18.0);
    ExampleGrowthOf(LCK, 3.0, 5.0, 20.0);
    ExampleGrowthOf(DEF, 5.0, 8.0, 16.0);
    ExampleGrowthOf(RES, 1.0, 3.0, 12.0);
  }

  lemma ExampleGrowthOf(k: Stat, i: real, c: real, p: real)
    requires Covers(ExampleInit) && Covers(ExampleCur) && Covers(ExampleCap)
    requires ExampleInit[k] == i && ExampleCur[k] == c && ExampleCap[k] == p && i < p && i <= c <= p
    ensures Growth(ExampleInit, ExampleCur, ExampleCap)[k] == (c - i) / (p - i)
  {
    ChannelGrowthExact(i, c, p);
  }

  /** The example unit, with the physical role. */
  const Example: UnitInput := UnitInput("physical", ExampleInit, ExampleCur, ExampleCap)

  /** With weights summing to 1 the weighted mean is the weighted sum. */
  lemma MeanOfNormalised(vec: Channels, w: Weights)
    requires Covers(vec) && WeightSum(w) == 1.0
    ensures WeightedMean(vec, w) == Dot(vec, w)
  {
    DivCancel(Dot(vec, w), WeightSum(w));
    assert Dot(vec, w) * WeightSum(w) == Dot(vec, w);
  }

  lemma PhysicalOffenseSum(vec: Channels)
    requires Covers(vec)
    ensures Dot(vec, Physical.offense) == vec[POW] * 0.50 + vec[SKL] * 0.25 + vec[SPD] * 0.20 + vec[LCK] * 0.05
  {
    var w := Physical.offense;
    DotOfFour(vec, w);
    assert vec[POW] * w[0].1 == vec[POW] * 0.50;
    assert vec[SKL] * w[1].1 == vec[SKL] * 0.25;
    assert vec[SPD] * w[2].1 == vec[SPD] * 0.20;
    assert vec[LCK] * w[3].1 == vec[LCK] * 0.05;
  }

  lemma PhysicalDefenseSum(vec: Channels)
    requires Covers(vec)
    ensures Dot(vec, Physical.defense) == vec[HP] * 0.40 + vec[DEF] * 0.40 + vec[RES] * 0.15 + vec[SPD] * 0.05
  {
    var w := Physical.defense;
    DotOfFour(vec, w);
    assert vec[HP] * w[0].1 == vec[HP] * 0.40;
    assert vec[DEF] * w[1].1 == vec[DEF] * 0.40;
    assert vec[RES] * w[2].1 == vec[RES] * 0.15;
    assert vec[SPD] * w[3].1 == vec[SPD] * 0.05;
  }

  lemma PhysicalGrowthSum(vec: Channels)
    requires Covers(vec)
    ensures Dot(vec, Physical.growth) == vec[POW] * 0.30 + vec[SKL] * 0.20 + vec[SPD] * 0.20
                                         + vec[HP] * 0.15 + vec[DEF] * 0.10 + vec[RES] * 0.05
  {
    var w := Physical.growth;
    DotOfSix(vec, w);
    assert vec[POW] * w[0].1 == vec[POW] * 0.30;
    assert vec[SKL] * w[1].1 == vec[SKL] * 0.20;
    assert vec[SPD] * w[2].1 == vec[SPD] * 0.20;
    assert vec[HP] * w[3].1 == vec[HP] * 0.15;
    assert vec[DEF] * w[4].1 == vec[DEF] * 0.10;
    assert vec[RES] * w[5].1 == vec[RES] * 0.05;
  }

  lemma ExampleOffenseDefense(sqrt: real -> real)
    requires IsSqrt(sqrt)
    ensures Example.Complete()
    ensures var raw := RawScores(Example, sqrt);
      raw.offense == 6373.0 / 12240.0 && raw.defense == 1819.0 / 3600.0
  {
    ExampleComplete();
    ExampleShares();
    var x := NormByCap(ExampleCur, ExampleCap);
    ProfilesNormalised();
    assert ProfileFor(Example.role) == Physical;
    PhysicalOffenseSum(x);
    PhysicalDefenseSum(x);
    MeanOfNormalised(x, Physical.offense);
    MeanOfNormalised(x, Physical.defense);
    ScoresUnfold(Example, sqrt);
  }

  lemma SumOverStats(vec: Channels)
    requires Covers(vec)
    ensures SumOver(vec, STATS) == vec[HP] + vec[POW] + vec[SKL] + vec[SPD] + vec[LCK] + vec[DEF] + vec[RES]
  {
    var ks := STATS;
    assert SumOver(vec, ks[6..]) == vec[RES] by { assert ks[6..][1..] == []; }
    assert SumOver(vec, ks[5..]) == vec[DEF] + SumOver(vec, ks[6..]) by { assert ks[5..][1..] == ks[6..]; }
    assert SumOver(vec, ks[4..]) == vec[LCK] + SumOver(vec, ks[5..]) by { assert ks[4..][1..] == ks[5..]; }
    assert SumOver(vec, ks[3..]) == vec[SPD] + SumOver(vec, ks[4..]) by { assert ks[3..][1..] == ks[4..]; }
    assert SumOver(vec, ks[2..]) == vec[SKL] + SumOver(vec, ks[3..]) by { assert ks[2..][1..] == ks[3..]; }
    assert SumOver(vec, ks[1..]) == vec[POW] + SumOver(vec, ks[2..]) by { assert ks[1..][1..] == ks[2..]; }
  }

  lemma ExampleSum(sqrt: real -> real)
    requires IsSqrt(sqrt)
    ensures Example.Complete()
    ensures RawScores(Example, sqrt).sum == 2459.0 / 5355.0
  {
    ExampleComplete();
    ExampleShares();
    var x := NormByCap(ExampleCur, ExampleCap);
    SumOverStats(x);
    assert |STATS| as real == 7.0;
    ScoresUnfold(Example, sqrt);
  }

  lemma ExampleGrowthScore(sqrt: real -> real)
    requires IsSqrt(sqrt)
    ensures Example.Complete()
    ensures RawScores(Example, sqrt).growth == 193.0 / 660.0
  {
    ExampleComplete();
    ExampleGrowth();
    var g := Growth(ExampleInit, ExampleCur, ExampleCap);
    ProfilesNormalised();
    assert ProfileFor(Example.role) == Physical;
    PhysicalGrowthSum(g);
    MeanOfNormalised(g, Physical.growth);
    ScoresUnfold(Example, sqrt);
  }

  /** The example's core lies between 0.5129 and 0.51295. */
  lemma ExampleCore(sqrt: real -> real)
    requires IsSqrt(sqrt)
    ensures 0.5129 <= Core(6373.0 / 12240.0, 1819.0 / 3600.0, sqrt) <= 0.51295
  {
    var p := FlooredProduct(6373.0 / 12240.0, 1819.0 / 3600.0);
    assert p == (6373.0 / 12240.0) * (1819.0 / 3600.0);
    SquareOrder(0.5129, sqrt(p));
    SquareOrder(sqrt(p), 0.51295);
  }

  /** Any total in [45, 45.004] is reported as exactly 45.00. */
  lemma RoundsToFortyFive(t: real)
    requires 45.0 <= t <= 45.004
    ensures Round(t, 2) == 45.0
  {
    ScaleValues();
    assert t * Scale(2) == t * 100.0;
    var y := t * Scale(2) + 0.5;
    assert 4500.0 <= y < 4501.0;
    assert Units(t, 2) == 4500;
  }

  /** The worked example scores exactly 45.00 points and ranks C. */
  lemma ExampleRanksC(sqrt: real -> real)
    requires IsSqrt(sqrt)
    ensures Example.Complete()
    ensures ComputeScores(Example, sqrt).0.total == 45.0
    ensures ComputeScores(Example, sqrt).1 == C
  {
    ExampleOffenseDefense(sqrt);
    ExampleSum(sqrt);
    ExampleGrowthScore(sqrt);
    ExampleCore(sqrt);
    ScoresUnfold(Example, sqrt);
    var raw := RawScores(Example, sqrt);
    CompositeUnclipped(raw.core, raw.sum, raw.growth, raw.capApproach);
    RoundsToFortyFive(raw.total);
  }
}
