/**
 * The host creature and the scaling ledger as mutable objects. The ledger's
 * map of saved records is updated in place by ApplyScaling and RevertScaling,
 * which also write the creature's health and base weapon damage; both are
 * proved against the pure steps of module Scaling.
 */
module Autobalance {
  import opened Common
  import opened Players
  import opened Scaling

  /** The host's object type tag: only TypeUnit (a creature) is ever scaled. */
  datatype TypeId = TypeUnit | TypePlayer | TypeOther

  /**
   * A host unit. When its type is TypeUnit it is a creature and the same
   * object serves as the creature.
   */
  class Creature {
    const typeId: TypeId
    var currentMap: Option<GameMap>
    var maxHealth: nat
    var health: nat
    const baseMin: array<real>  // per channel: minimum base weapon damage
    const baseMax: array<real>  // per channel: maximum base weapon damage

    ghost predicate Valid()
      reads this
    {
      baseMin.Length == Channels && baseMax.Length == Channels && baseMin != baseMax
    }

    /** The stats scaling reads and writes. */
    function Stats(): CreatureStats
      reads this, baseMin, baseMax
    {
      CreatureStats(maxHealth, health, baseMin[..], baseMax[..])
    }

    constructor (typeId: TypeId, currentMap: Option<GameMap>, st: CreatureStats)
      requires st.WellFormed()
      ensures Valid() && fresh(baseMin) && fresh(baseMax)
      ensures this.typeId == typeId && this.currentMap == currentMap && Stats() == st
    {
      this.typeId := typeId;
      this.currentMap := currentMap;
      maxHealth, health := st.maxHealth, st.health;
      baseMin := new real[Channels] (k requires 0 <= k < Channels => st.baseMin[k]);
      baseMax := new real[Channels] (k requires 0 <= k < Channels => st.baseMax[k]);
    }

    /**
     * Scales max health and health by `mult`, truncating, and keeps health at
     * most the new maximum.
     */
    method ScaleHealth(mult: real)
      requires mult >= 0.0
      modifies this`maxHealth, this`health
      ensures maxHealth == ScaledMaxHealth(old(Stats()), mult)
      ensures health == ScaledHealth(old(Stats()), mult)
    {
      var newMax := Truncate(maxHealth as real * mult);
      maxHealth := newMax;
      var newCur := Truncate(health as real * mult);
      if newCur > newMax {
        newCur := newMax;
      }
      health := newCur;
    }

    /**
     * Scales the base weapon damage by `mult`, channel by channel; a channel
     * is scaled only when both ends of its range are positive.
     */
    method ScaleBaseDamage(mult: real)
      requires Valid()
      modifies baseMin, baseMax
      ensures baseMin[..] == ScaledEnds(old(baseMin[..]), old(baseMax[..]), mult, true)
      ensures baseMax[..] == ScaledEnds(old(baseMin[..]), old(baseMax[..]), mult, false)
    {
      ghost var mins, maxs := baseMin[..], baseMax[..];
      for i := 0 to Channels
        invariant forall k :: 0 <= k < i ==>
          baseMin[k] == ScaleDamage(mins[k], mins[k], maxs[k], mult) &&
          baseMax[k] == ScaleDamage(maxs[k], mins[k], maxs[k], mult)
        invariant forall k :: i <= k < Channels ==> baseMin[k] == mins[k] && baseMax[k] == maxs[k]
      {
        var minD, maxD := baseMin[i], baseMax[i];
        if minD > 0.0 && maxD > 0.0 {
          baseMin[i] := minD * mult;
          baseMax[i] := maxD * mult;
        }
      }
    }
  }

  /** The process-wide map from creature to its saved stats. */
  class Ledger {
    var saved: map<Creature, SavedStats>

    /** Between calls every stored record is applied and holds both channels. */
    ghost predicate Valid()
      reads this
    {
      forall c :: c in saved ==> saved[c].applied && saved[c].WellFormed()
    }

    /** The record of `c`, if it has one. */
    function Record(c: Creature): Option<SavedStats>
      reads this
    {
      if c in saved then Some(saved[c]) else None
    }

    constructor ()
      ensures Valid() && saved == map[]
    {
      saved := map[];
    }

    /**
     * Scales `c` by `mult` once: saves its stats, scales max health, health
     * and the damage ranges, and marks the record applied. A null creature, a
     * multiplier of exactly 1.0 or an applied record make it return at once.
     */
    method ApplyScaling(c: Creature?, mult: real)
      requires Valid() && mult >= 0.0
      requires c != null ==> c.Valid()
      modifies this, if c != null then {c, c.baseMin, c.baseMax} else {}
      ensures Valid()
      ensures c == null ==> saved == old(saved)
      ensures c != null ==> Entry(Record(c), c.Stats()) == ApplyStep(old(Entry(Record(c), c.Stats())), mult)
      ensures c != null ==> saved - {c} == old(saved) - {c} && c.currentMap == old(c.currentMap)
    {
      if c == null || mult == 1.0 {
        return;
      }
      // operator[] finds the record or inserts a value-initialised one; every
      // change to `slot` is stored back, as through the reference
      var slot := if c in saved then saved[c] else EmptyRecord;
      assert this as object != c as object;
      saved := saved[c := slot];
      if slot.applied {
        return;
      }
      ghost var pre := Entry(Record(c), c.Stats());

      // save the original values
      slot := SavedStats(c.maxHealth, [c.baseMin[0], c.baseMin[1]], [c.baseMax[0], c.baseMax[1]], slot.applied);
      saved := saved[c := slot];
      assert slot == Snapshot(pre.stats).(applied := false);

      c.ScaleHealth(mult);
      c.ScaleBaseDamage(mult);

      slot := slot.(applied := true);
      saved := saved[c := slot];
      assert c.Stats() == Scaled(pre.stats, mult);
    }

    /**
     * Undoes an applied scaling of `c`: restores max health and the damage
     * ranges, clamps health to the restored maximum and erases the record.
     * Without an applied record it does nothing.
     */
    method RevertScaling(c: Creature?)
      requires Valid()
      requires c != null ==> c.Valid()
      modifies this, if c != null then {c, c.baseMin, c.baseMax} else {}
      ensures Valid()
      ensures c == null ==> saved == old(saved)
      ensures c != null ==> Entry(Record(c), c.Stats()) == RevertStep(old(Entry(Record(c), c.Stats())))
      ensures c != null ==> saved - {c} == old(saved) - {c} && c.currentMap == old(c.currentMap)
    {
      if c == null {
        return;
      }
      if c !in saved || !saved[c].applied {
        return;
      }
      var st := saved[c];

      c.maxHealth := st.maxHealth;
      if c.health > st.maxHealth {
        c.health := st.maxHealth;
      }

      c.baseMin[0] := st.baseMin[0];
      c.baseMax[0] := st.baseMax[0];
      c.baseMin[1] := st.baseMin[1];
      c.baseMax[1] := st.baseMax[1];

      saved := saved - {c};
      assert c.baseMin[..] == st.baseMin && c.baseMax[..] == st.baseMax;
    }
  }
}
