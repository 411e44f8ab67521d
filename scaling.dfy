/**
 * The per-creature apply/revert state machine as pure functions: a ledger
 * entry (the saved record, if any) together with the creature's stats goes to
 * a new entry. The imperative ledger in module Autobalance is proved against
 * these functions.
 */
module Scaling {
  import opened Common

  /** Weapon-attack channels whose base damage is scaled: BASE_ATTACK (0) and OFF_ATTACK (1). */
  const Channels: nat := 2

  /** The stats scaling reads and writes. Damage values are the host's floats, as reals. */
  datatype CreatureStats = CreatureStats(maxHealth: nat, health: nat, baseMin: seq<real>, baseMax: seq<real>)
  {
    predicate WellFormed() {
      |baseMin| == Channels && |baseMax| == Channels
    }
  }

  /** One ledger record: the stats saved before scaling and whether scaling was applied. */
  datatype SavedStats = SavedStats(maxHealth: nat, baseMin: seq<real>, baseMax: seq<real>, applied: bool)
  {
    predicate WellFormed() {
      |baseMin| == Channels && |baseMax| == Channels
    }
  }

  /** The value-initialised record the ledger inserts for a creature it has not seen. */
  const EmptyRecord := SavedStats(0, [0.0, 0.0], [0.0, 0.0], false)

  /** One creature's ledger record, if it has one, and its current stats. */
  datatype Entry = Entry(record: Option<SavedStats>, stats: CreatureStats)
  {
    predicate WellFormed() {
      stats.WellFormed() && (record.Some? ==> record.value.WellFormed())
    }
  }

  /** The cast of a non-negative float to uint32 (its upper bound is not modelled). */
  function Truncate(x: real): nat
    requires x >= 0.0
  {
    x.Floor
  }

  /**
   * The cast rounds toward zero: the largest whole number not above `x`.
   * Kept out of Truncate's own contract so that callers do not carry the
   * non-linear facts about every scaled product.
   */
  lemma TruncateRoundsDown(x: real)
    requires x >= 0.0
    ensures Truncate(x) as real <= x < Truncate(x) as real + 1.0
    ensures x < 1.0 ==> Truncate(x) == 0
  {
  }

  /** A channel's damage range is scaled only when both ends are positive. */
  predicate ChannelScaled(lo: real, hi: real) {
    lo > 0.0 && hi > 0.0
  }

  /** One end `v` of the range [lo, hi] after scaling by `mult`. */
  function ScaleDamage(v: real, lo: real, hi: real, mult: real): real {
    if ChannelScaled(lo, hi) then v * mult else v
  }

  /** The record written by a successful apply: the stats it is about to overwrite. */
  function Snapshot(st: CreatureStats): SavedStats {
    SavedStats(st.maxHealth, st.baseMin, st.baseMax, true)
  }

  /** Max health after scaling: the truncated product. */
  function ScaledMaxHealth(st: CreatureStats, mult: real): nat
    requires mult >= 0.0
  {
    Truncate(st.maxHealth as real * mult)
  }

  /** Health after scaling: the truncated product, but no more than the new maximum. */
  function ScaledHealth(st: CreatureStats, mult: real): (h: nat)
    requires mult >= 0.0
    ensures h <= ScaledMaxHealth(st, mult)
  {
    var newCur := Truncate(st.health as real * mult);
    if newCur > ScaledMaxHealth(st, mult) then ScaledMaxHealth(st, mult) else newCur
  }

  /** The minimum (`low` true) or maximum ends of all channels after scaling. */
  function ScaledEnds(mins: seq<real>, maxs: seq<real>, mult: real, low: bool): (r: seq<real>)
    requires |mins| == Channels && |maxs| == Channels
    ensures |r| == Channels
  {
    seq(Channels, k requires 0 <= k < Channels =>
      ScaleDamage(if low then mins[k] else maxs[k], mins[k], maxs[k], mult))
  }

  /** The stats after scaling by `mult`. */
  function Scaled(st: CreatureStats, mult: real): (r: CreatureStats)
    requires st.WellFormed() && mult >= 0.0
    ensures r.WellFormed() && r.health <= r.maxHealth
  {
    CreatureStats(
      ScaledMaxHealth(st, mult),
      ScaledHealth(st, mult),
      ScaledEnds(st.baseMin, st.baseMax, mult, true),
      ScaledEnds(st.baseMin, st.baseMax, mult, false))
  }

  /** The stats after restoring record `rec`: current health is clamped to the restored maximum. */
  function Restored(st: CreatureStats, rec: SavedStats): (r: CreatureStats)
    ensures r.health <= r.maxHealth
    ensures r.health <= st.health
  {
    CreatureStats(rec.maxHealth, if st.health > rec.maxHealth then rec.maxHealth else st.health, rec.baseMin, rec.baseMax)
  }

  /** ApplyScaling on a present creature. */
  function ApplyStep(e: Entry, mult: real): (r: Entry)
    requires e.WellFormed() && mult >= 0.0
    ensures r.WellFormed()
  {
    if mult == 1.0 then e
    else if e.record.Some? && e.record.value.applied then e
    else Entry(Some(Snapshot(e.stats)), Scaled(e.stats, mult))
  }

  /** RevertScaling on a present creature. */
  function RevertStep(e: Entry): (r: Entry)
    requires e.WellFormed()
    ensures r.WellFormed()
  {
    if e.record.None? || !e.record.value.applied then e
    else Entry(None, Restored(e.stats, e.record.value))
  }

  /** An entry whose record, if any, is applied: what the ledger holds between calls. */
  predicate Settled(e: Entry) {
    e.WellFormed() && (e.record.Some? ==> e.record.value.applied)
  }

  /** The snapshotted fields of two stats agree. */
  predicate SameBase(a: CreatureStats, b: CreatureStats) {
    a.maxHealth == b.maxHealth && a.baseMin == b.baseMin && a.baseMax == b.baseMax
  }

  /** Record `rec` holds the snapshotted fields of `st`. */
  predicate SavedFrom(rec: SavedStats, st: CreatureStats) {
    rec.maxHealth == st.maxHealth && rec.baseMin == st.baseMin && rec.baseMax == st.baseMax
  }

  /**
   * `st` carries the original `orig` scaled by `mult`, a real scaling (not by
   * 1.0): max health and both damage ranges are what an apply computes.
   */
  predicate ScaledBy(st: CreatureStats, orig: CreatureStats, mult: real) {
    && orig.WellFormed() && mult >= 0.0 && mult != 1.0
    && st.maxHealth == ScaledMaxHealth(orig, mult)
    && st.baseMin == ScaledEnds(orig.baseMin, orig.baseMax, mult, true)
    && st.baseMax == ScaledEnds(orig.baseMin, orig.baseMax, mult, false)
  }

  // ---------------------------------------------------------------------------
  // Properties of one step

  /** A multiplier of exactly 1.0 changes nothing: no record is created, no stat touched. */
  lemma ApplyAtUnityIsNoOp(e: Entry)
    requires e.WellFormed()
    ensures ApplyStep(e, 1.0) == e
  {
  }

  /**
   * A successful apply (multiplier not 1.0, no applied record) saves the
   * pre-apply max health and all four damage values in an applied record, sets
   * max health to trunc(old max * mult) and health to
   * min(trunc(old health * mult), new max).
   */
  lemma ApplyScalesHealth(e: Entry, mult: real)
    requires e.WellFormed() && mult >= 0.0 && mult != 1.0
    requires e.record.None? || !e.record.value.applied
    ensures var r := ApplyStep(e, mult);
      && r.record == Some(SavedStats(e.stats.maxHealth, e.stats.baseMin, e.stats.baseMax, true))
      && r.stats.maxHealth == Truncate(e.stats.maxHealth as real * mult)
      && r.stats.health == (if Truncate(e.stats.health as real * mult) > r.stats.maxHealth
                            then r.stats.maxHealth else Truncate(e.stats.health as real * mult))
      && r.stats.health <= r.stats.maxHealth
  {
  }

  /** A channel is multiplied when both ends of its range are positive and left alone otherwise. */
  lemma ApplyScalesDamage(e: Entry, mult: real, k: nat)
    requires e.WellFormed() && mult >= 0.0 && mult != 1.0 && k < Channels
    requires e.record.None? || !e.record.value.applied
    ensures var r := ApplyStep(e, mult);
      var lo, hi := e.stats.baseMin[k], e.stats.baseMax[k];
      && (ChannelScaled(lo, hi) ==> r.stats.baseMin[k] == lo * mult && r.stats.baseMax[k] == hi * mult)
      && (!ChannelScaled(lo, hi) ==> r.stats.baseMin[k] == lo && r.stats.baseMax[k] == hi)
  {
  }

  /** Scaling starts from the saved original, never from an already scaled value. */
  lemma ApplyScalesFromSnapshot(e: Entry, mult: real)
    requires e.WellFormed() && mult >= 0.0 && mult != 1.0
    requires e.record.None? || !e.record.value.applied
    ensures var r := ApplyStep(e, mult);
      r.record.Some? && r.stats == Scaled(CreatureStats(r.record.value.maxHealth, e.stats.health,
                                                        r.record.value.baseMin, r.record.value.baseMax), mult)
  {
  }

  /** An applied record blocks every further apply, whatever the multiplier. */
  lemma ApplyWhenAppliedIsNoOp(e: Entry, mult: real)
    requires e.WellFormed() && mult >= 0.0
    requires e.record.Some? && e.record.value.applied
    ensures ApplyStep(e, mult) == e
  {
  }

  /** Two applies with no revert between them equal one apply. */
  lemma ApplyIdempotent(e: Entry, mult: real, again: real)
    requires e.WellFormed() && mult >= 0.0 && again >= 0.0
    ensures ApplyStep(ApplyStep(e, mult), mult) == ApplyStep(e, mult)
    ensures mult != 1.0 ==> ApplyStep(ApplyStep(e, mult), again) == ApplyStep(e, mult)
  {
  }

  /** Truncating a value scaled by at most 1.0 never gives more than the value. */
  lemma TruncateShrinks(v: nat, mult: real)
    requires 0.0 <= mult <= 1.0
    ensures Truncate(v as real * mult) <= v
  {
    var x := v as real;
    assert x * mult <= x * 1.0;
    TruncateRoundsDown(x * mult);
  }

  /** A multiplier of at most 1.0 never raises health or max health (so uint32 values stay in range). */
  lemma ApplyBelowUnityNeverRaises(e: Entry, mult: real)
    requires e.WellFormed() && 0.0 <= mult <= 1.0
    ensures ApplyStep(e, mult).stats.maxHealth <= e.stats.maxHealth
    ensures ApplyStep(e, mult).stats.health <= e.stats.health
  {
    if mult != 1.0 && (e.record.None? || !e.record.value.applied) {
      var st := e.stats;
      TruncateShrinks(st.maxHealth, mult);
      TruncateShrinks(st.health, mult);
      assert ApplyStep(e, mult).stats == Scaled(st, mult);
      assert ScaledHealth(st, mult) <= Truncate(st.health as real * mult);
    }
  }

  /** Revert with no record, or with a record not yet applied, leaves everything as it is. */
  lemma RevertWithoutAppliedIsNoOp(e: Entry)
    requires e.WellFormed()
    requires e.record.None? || !e.record.value.applied
    ensures RevertStep(e) == e
  {
  }

  /**
   * Revert of an applied record restores max health and the four damage
   * values, clamps health to the restored maximum and erases the record.
   */
  lemma RevertRestores(e: Entry)
    requires e.WellFormed() && e.record.Some? && e.record.value.applied
    ensures var r := RevertStep(e);
      && r.record.None?
      && r.stats.maxHealth == e.record.value.maxHealth
      && r.stats.baseMin == e.record.value.baseMin && r.stats.baseMax == e.record.value.baseMax
      && r.stats.health == (if e.stats.health > e.record.value.maxHealth then e.record.value.maxHealth else e.stats.health)
  {
  }

  /**
   * Round trip: revert after apply gives back max health and all four damage
   * values exactly, health at most max health, and no record.
   */
  lemma ApplyRevertRoundTrip(st: CreatureStats, mult: real)
    requires st.WellFormed() && mult >= 0.0 && mult != 1.0
    ensures var r := RevertStep(ApplyStep(Entry(None, st), mult));
      && r.record.None?
      && SameBase(r.stats, st)
      && r.stats.health <= r.stats.maxHealth
  {
  }

  /** Every step keeps the ledger invariant "every stored record is applied". */
  lemma StepsKeepSettled(e: Entry, mult: real)
    requires Settled(e) && mult >= 0.0
    ensures Settled(ApplyStep(e, mult)) && Settled(RevertStep(e))
    ensures RevertStep(e).record.None?
  {
  }

  /** Example: 1000 health scaled by 0.2 becomes 200, and revert brings back 1000. */
  lemma ThousandHealthScenario(health: nat)
    requires health <= 1000
    ensures var st := CreatureStats(1000, health, [0.0, 0.0], [0.0, 0.0]);
      var a := ApplyStep(Entry(None, st), 0.2);
      && a.stats.maxHealth == 200 && a.stats.health <= 200
      && RevertStep(a).stats.maxHealth == 1000
  {
  }
}
