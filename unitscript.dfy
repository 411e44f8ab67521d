/**
 * The unit script: the host's combat-enter, evade and death notifications,
 * the eligibility gate in front of ApplyScaling, and what a whole sequence of
 * such notifications does to one creature.
 */
module UnitScript {
  import opened Common
  import opened Multiplier
  import opened Players
  import opened Scaling
  import opened Autobalance

  /** Only creatures are scaled, only when enabled, and with InstanceOnly only on dungeon or raid maps. */
  predicate Eligible(s: Settings, typeId: TypeId, m: Option<GameMap>) {
    typeId == TypeUnit && s.enable && (!s.instanceOnly || IsInstanceMap(m))
  }

  /** The multiplier combat-enter hands to ApplyScaling, or None when the gate turns the creature away. */
  function CombatMultiplier(s: Settings, typeId: TypeId, m: Option<GameMap>): (r: Option<real>)
    ensures r.Some? <==> Eligible(s, typeId, m)
    ensures r.Some? ==> r.value >= MinMul(s) > 0.0
    ensures r.Some? && !s.allowAboveBase && MinMul(s) <= 1.0 ==> r.value <= 1.0
  {
    if Eligible(s, typeId, m) then Some(ComputeMultiplier(s, RelevantPlayers(m))) else None
  }

  /** With InstanceOnly set, a creature on an open-world map, or on no map, is never scaled. */
  lemma OpenWorldNeverScaled(s: Settings, typeId: TypeId, m: Option<GameMap>)
    requires s.instanceOnly && (m.None? || (!m.value.dungeon && !m.value.raid))
    ensures CombatMultiplier(s, typeId, m) == None
  {
  }

  /** Combat-enter: passes the gate, counts the players, computes the multiplier and applies it. */
  method OnUnitEnterCombat(s: Settings, ledger: Ledger, unit: Creature?)
    requires ledger.Valid()
    requires unit != null ==> unit.Valid()
    modifies ledger, if unit != null then {unit, unit.baseMin, unit.baseMax} else {}
    ensures ledger.Valid()
    ensures unit == null ==> ledger.saved == old(ledger.saved)
    ensures unit != null ==>
      var pre := old(Entry(ledger.Record(unit), unit.Stats()));
      var mult := CombatMultiplier(s, unit.typeId, old(unit.currentMap));
      Entry(ledger.Record(unit), unit.Stats()) == (if mult.Some? then ApplyStep(pre, mult.value) else pre)
    ensures unit != null ==> ledger.saved - {unit} == old(ledger.saved) - {unit}
    ensures unit != null ==> unit.currentMap == old(unit.currentMap)
  {
    if unit == null || unit.typeId != TypeUnit {
      return;
    }
    if !s.enable {
      return;
    }
    var c := unit;
    var m := c.currentMap;
    if s.instanceOnly && !IsInstanceMap(m) {
      return;
    }
    var n := CountRelevantPlayers(m);
    var mult := ComputeMultiplier(s, n);
    ledger.ApplyScaling(c, mult);
  }

  /** Evade: a creature's scaling is reverted. */
  method OnUnitEnterEvadeMode(ledger: Ledger, unit: Creature?)
    requires ledger.Valid()
    requires unit != null ==> unit.Valid()
    modifies ledger, if unit != null then {unit, unit.baseMin, unit.baseMax} else {}
    ensures ledger.Valid()
    ensures unit == null ==> ledger.saved == old(ledger.saved)
    ensures unit != null ==>
      var pre := old(Entry(ledger.Record(unit), unit.Stats()));
      Entry(ledger.Record(unit), unit.Stats()) == (if unit.typeId == TypeUnit then RevertStep(pre) else pre)
    ensures unit != null ==> ledger.saved - {unit} == old(ledger.saved) - {unit}
    ensures unit != null ==> unit.currentMap == old(unit.currentMap)
  {
    if unit != null && unit.typeId == TypeUnit {
      ledger.RevertScaling(unit);
    }
  }

  /** Death: a creature's scaling is reverted, exactly as on evade. */
  method OnUnitDeath(ledger: Ledger, unit: Creature?)
    requires ledger.Valid()
    requires unit != null ==> unit.Valid()
    modifies ledger, if unit != null then {unit, unit.baseMin, unit.baseMax} else {}
    ensures ledger.Valid()
    ensures unit == null ==> ledger.saved == old(ledger.saved)
    ensures unit != null ==>
      var pre := old(Entry(ledger.Record(unit), unit.Stats()));
      Entry(ledger.Record(unit), unit.Stats()) == (if unit.typeId == TypeUnit then RevertStep(pre) else pre)
    ensures unit != null ==> ledger.saved - {unit} == old(ledger.saved) - {unit}
    ensures unit != null ==> unit.currentMap == old(unit.currentMap)
  {
    if unit != null && unit.typeId == TypeUnit {
      ledger.RevertScaling(unit);
    }
  }

  // ---------------------------------------------------------------------------
  // One eligible creature through a sequence of notifications

  /**
   * What can happen to an eligible creature: it enters combat with a given
   * number of players present, evades, dies, or loses health to the host.
   */
  datatype Event = EnterCombat(players: nat) | Evade | Death | HostDamage(amount: nat)

  /** The effect of one event on the creature's ledger entry and stats. */
  function Step(s: Settings, e: Entry, ev: Event): (r: Entry)
    requires e.WellFormed()
    ensures r.WellFormed()
  {
    match ev
    case EnterCombat(n) => ApplyStep(e, ComputeMultiplier(s, n))
    case Evade => RevertStep(e)
    case Death => RevertStep(e)
    case HostDamage(a) => e.(stats := e.stats.(health := if a >= e.stats.health then 0 else e.stats.health - a))
  }

  /** The entry after a whole sequence of events. */
  function Run(s: Settings, e: Entry, evs: seq<Event>): (r: Entry)
    requires e.WellFormed()
    ensures r.WellFormed()
    decreases |evs|
  {
    if evs == [] then e else Run(s, Step(s, e, evs[0]), evs[1..])
  }

  /**
   * The ledger's promise about a creature whose unscaled stats are `orig`:
   * without a record its max health and damage are the originals; with one,
   * the record is applied and holds the originals, and the stats are the
   * originals scaled by some multiplier other than 1.0; health never exceeds max.
   */
  ghost predicate Tracks(orig: CreatureStats, e: Entry) {
    && e.WellFormed()
    && e.stats.health <= e.stats.maxHealth
    && (e.record.None? ==> SameBase(e.stats, orig))
    && (e.record.Some? ==> e.record.value.applied && SavedFrom(e.record.value, orig))
    && (e.record.Some? ==> exists m :: ScaledBy(e.stats, orig, m))
  }

  lemma StepTracks(s: Settings, orig: CreatureStats, e: Entry, ev: Event)
    requires Tracks(orig, e)
    ensures Tracks(orig, Step(s, e, ev))
  {
    match ev
    case EnterCombat(n) =>
      var mult := ComputeMultiplier(s, n);
      if e.record.None? && mult != 1.0 {
        assert ScaledBy(Step(s, e, ev).stats, orig, mult);
      }
    case HostDamage(a) =>
      if e.record.Some? {
        var m :| ScaledBy(e.stats, orig, m);
        assert ScaledBy(Step(s, e, ev).stats, orig, m);
      }
    case _ =>
  }

  /** Every sequence of events keeps Tracks: the saved values are always the unscaled originals. */
  lemma {:induction false} RunTracks(s: Settings, orig: CreatureStats, e: Entry, evs: seq<Event>)
    requires Tracks(orig, e)
    ensures Tracks(orig, Run(s, e, evs))
    decreases |evs|
  {
    if evs != [] {
      StepTracks(s, orig, e, evs[0]);
      RunTracks(s, orig, Step(s, e, evs[0]), evs[1..]);
    }
  }

  /** Running a sequence and then one more event is that event after the run. */
  lemma {:induction false} RunSnoc(s: Settings, e: Entry, evs: seq<Event>, last: Event)
    requires e.WellFormed()
    ensures Run(s, e, evs + [last]) == Step(s, Run(s, e, evs), last)
    decreases |evs|
  {
    if evs == [] {
      assert evs + [last] == [last];
      assert [last][1..] == [];
    } else {
      assert (evs + [last])[0] == evs[0];
      assert (evs + [last])[1..] == evs[1..] + [last];
      RunSnoc(s, Step(s, e, evs[0]), evs[1..], last);
    }
  }

  /**
   * However many times an unscaled creature enters combat, takes damage,
   * evades or dies, once the last event is an evade or a death it has no
   * record, its max health and base damage are exactly the originals (no
   * compounding across cycles), and its health is at most its max health.
   */
  lemma LifecycleRestoresOriginals(s: Settings, orig: CreatureStats, evs: seq<Event>, last: Event)
    requires orig.WellFormed() && orig.health <= orig.maxHealth
    requires last == Evade || last == Death
    ensures var r := Run(s, Entry(None, orig), evs + [last]);
      r.record.None? && SameBase(r.stats, orig) && r.stats.health <= r.stats.maxHealth
  {
    RunTracks(s, orig, Entry(None, orig), evs);
    RunSnoc(s, Entry(None, orig), evs, last);
    StepTracks(s, orig, Run(s, Entry(None, orig), evs), last);
  }

  /**
   * Between events a record exists exactly while a scaling is outstanding: with
   * a record the creature is scaled from its originals by a multiplier other
   * than 1.0, and without one it has its original max health and damage.
   */
  lemma RecordMeansApplied(s: Settings, orig: CreatureStats, evs: seq<Event>)
    requires orig.WellFormed() && orig.health <= orig.maxHealth
    ensures var r := Run(s, Entry(None, orig), evs);
      && (r.record.Some? ==> r.record.value.applied && SavedFrom(r.record.value, orig))
      && (r.record.Some? ==> exists m :: ScaledBy(r.stats, orig, m))
      && (r.record.None? ==> SameBase(r.stats, orig))
  {
    RunTracks(s, orig, Entry(None, orig), evs);
  }
}
