/**
 * The ratio rule that turns the number of players present into the factor
 * applied to a creature's health and base weapon damage.
 * Single-precision floats are modelled as reals (no rounding).
 */
module Multiplier {

  /** The tunables of the module, read from the configuration by the host. */
  datatype Settings = Settings(
    enable: bool,          // scaling on at all
    instanceOnly: bool,    // restrict to dungeon and raid maps
    baselinePlayers: nat,  // party size the content is built for (uint32)
    minMultiplier: real,   // lower bound of the factor; 0 or less means 1/baseline
    allowAboveBase: bool)  // may the factor exceed 1.0

  /** The defaults declared on the settings struct. */
  const DefaultSettings := Settings(true, true, 5, 0.0, false)

  /** Player count as it enters the ratio: an empty map counts as one player. */
  function AtLeastOne(n: nat): (m: nat)
    ensures m >= 1 && m >= n
    ensures n >= 1 ==> m == n
    ensures n == 0 ==> m == 1
  {
    if n >= 1 then n else 1
  }

  /** The baseline used as divisor: a configured 0 is read as 1. */
  function Base(s: Settings): (b: nat)
    ensures b >= 1
    ensures s.baselinePlayers >= 1 ==> b == s.baselinePlayers
  {
    if s.baselinePlayers != 0 then s.baselinePlayers else 1
  }

  /** The lower clamp: MinMultiplier when positive, otherwise one player's share of the baseline. */
  function MinMul(s: Settings): (m: real)
    ensures m > 0.0
    ensures s.minMultiplier > 0.0 ==> m == s.minMultiplier
    ensures s.minMultiplier <= 0.0 ==> m * (Base(s) as real) == 1.0
  {
    if s.minMultiplier > 0.0 then s.minMultiplier else 1.0 / (Base(s) as real)
  }

  /** The unclamped ratio players/baseline, with the player count read as at least one. */
  function Ratio(s: Settings, n: nat): (q: real)
    ensures q > 0.0
    ensures q * (Base(s) as real) == AtLeastOne(n) as real
  {
    (AtLeastOne(n) as real) / (Base(s) as real)
  }

  /**
   * The multiplier for `playerCount` players: the ratio players/baseline,
   * capped at 1.0 unless AllowAboveBase is set, then raised to MinMul.
   */
  function ComputeMultiplier(s: Settings, playerCount: nat): (r: real)
    // never zero or negative, never below the lower clamp
    ensures r >= MinMul(s) > 0.0
    // without AllowAboveBase the cap 1.0 holds unless the lower clamp is itself above it
    ensures !s.allowAboveBase ==> r <= 1.0 || r == MinMul(s)
    // the result is the lower clamp, the cap, or exactly the ratio
    ensures r == MinMul(s) || (!s.allowAboveBase && r == 1.0) || r == Ratio(s, playerCount)
    // it is at least the ratio, unless the cap cut the ratio down
    ensures (!s.allowAboveBase && r >= 1.0) || r >= Ratio(s, playerCount)
    // and at most the ratio, unless the lower clamp raised it
    ensures r == MinMul(s) || r <= Ratio(s, playerCount)
  {
    var ratio := Ratio(s, playerCount);
    var minMul := MinMul(s);
    var capped := if !s.allowAboveBase && ratio > 1.0 then 1.0 else ratio;
    if capped < minMul then minMul else capped
  }

  lemma DivideMonotone(x: real, y: real, d: real)
    requires 0.0 < d && x <= y
    ensures x / d <= y / d
  {
    assert x / d * d == x && y / d * d == y;
  }

  /** More players never give a smaller multiplier, whatever the settings. */
  lemma MultiplierMonotone(s: Settings, p: nat, q: nat)
    requires p <= q
    ensures ComputeMultiplier(s, p) <= ComputeMultiplier(s, q)
  {
    DivideMonotone(AtLeastOne(p) as real, AtLeastOne(q) as real, Base(s) as real);
  }

  /**
   * Without AllowAboveBase and with a lower clamp of at most 1.0, the
   * multiplier lies in [MinMul, 1.0] and is exactly 1.0 from the baseline on.
   */
  lemma MultiplierAtOrAboveBaseline(s: Settings, p: nat)
    requires !s.allowAboveBase && MinMul(s) <= 1.0 && p >= Base(s)
    ensures ComputeMultiplier(s, p) == 1.0
  {
    var base := Base(s) as real;
    assert AtLeastOne(p) as real >= base;
    DivideMonotone(base, AtLeastOne(p) as real, base);
  }

  /** Below the baseline, with the automatic lower clamp, the multiplier is exactly players/baseline. */
  lemma MultiplierBelowBaseline(s: Settings, p: nat)
    requires s.minMultiplier <= 0.0 && p <= Base(s)
    ensures ComputeMultiplier(s, p) * (Base(s) as real) == AtLeastOne(p) as real
  {
    var base := Base(s) as real;
    DivideMonotone(1.0, AtLeastOne(p) as real, base);
    DivideMonotone(AtLeastOne(p) as real, base, base);
  }

  /** With AllowAboveBase and the automatic clamp the multiplier is the plain ratio, also above 1.0. */
  lemma MultiplierAboveBaseAllowed(s: Settings, p: nat)
    requires s.allowAboveBase && s.minMultiplier <= 0.0
    ensures ComputeMultiplier(s, p) * (Base(s) as real) == AtLeastOne(p) as real
  {
    DivideMonotone(1.0, AtLeastOne(p) as real, Base(s) as real);
  }

  /** A baseline of 0 behaves exactly like a baseline of 1. */
  lemma BaselineZeroIsOne(s: Settings, p: nat)
    requires s.baselinePlayers == 0
    ensures ComputeMultiplier(s, p) == ComputeMultiplier(s.(baselinePlayers := 1), p)
  {
  }

  /** No player at all is scaled like a single player, whatever the settings. */
  lemma NoPlayersCountAsOne(s: Settings)
    ensures ComputeMultiplier(s, 0) == ComputeMultiplier(s, 1)
  {
  }

  /** The defaults (baseline 5, automatic clamp, no scaling above 1.0) on a few party sizes. */
  lemma DefaultScenarios()
    ensures ComputeMultiplier(DefaultSettings, 0) == 0.2
    ensures ComputeMultiplier(DefaultSettings, 1) == 0.2
    ensures ComputeMultiplier(DefaultSettings, 3) == 0.6
    ensures ComputeMultiplier(DefaultSettings, 5) == 1.0
    ensures ComputeMultiplier(DefaultSettings, 10) == 1.0
  {
  }
}
