# Fortis autobalance: a Dafny model

This project models the per-creature difficulty scaler of `src/FortisAutobalance.cpp`.
When a creature enters combat on an eligible map, the scaler counts the players
present, turns that count into a multiplier, and scales the creature's max
health, current health and base weapon damage once. It saves the original
values in a process-wide ledger keyed by creature. On evade or death it
restores them and forgets the creature.

Modules:

- `Multiplier` (multiplier.dfy): the `Settings` struct and `ComputeMultiplier`, over reals.
- `Players` (players.dfy): the host map as a value, `IsInstanceMap`, and `CountRelevantPlayers` as a loop proved against a recursive count.
- `Scaling` (scaling.dfy): the apply/revert state machine for one creature as pure functions (`ApplyStep`, `RevertStep`) and the lemmas about it.
- `Autobalance` (autobalance.dfy): the host creature as a class with `maxHealth`, `health` and the arrays `baseMin`/`baseMax`, and the ledger as a class whose `saved: map<Creature, SavedStats>` is updated in place by `ApplyScaling` and `RevertScaling`. Both methods are proved against the pure steps.
- `UnitScript` (unitscript.dfy): the eligibility gate and the combat-enter, evade and death handlers. It also gives the effect of any sequence of such events on one creature, with the theorem that the saved values are always the unscaled originals.

Modelling choices:

- Single-precision floats are reals. `uint32(float(x) * mult)` is `Truncate`, the floor of a non-negative real.
- Host calls are inputs. `GetMap` is the creature's `currentMap` field. `GetPlayers` is the map's list of player references (a missing source is `None`). `IsGameMaster`, `IsDungeon` and `IsRaid` are flags on those values.
- The host setters `SetMaxHealth`, `SetHealth` and `SetBaseWeaponDamage` are plain field and array writes.
- A unit whose type is `TYPEID_UNIT` is its own creature, so `ToCreature` is the identity.
- `ApplyScaling` keeps the record it is filling in a local `slot` and writes it into the map three times: at the `operator[]` insert, after the snapshot is taken, and once more when it is marked applied. Nothing reads the ledger in between, so this cannot be told apart from writing each field through the reference.

## Model

| member | source | states |
|---|---|---|
| Multiplier.AtLeastOne | src/FortisAutobalance.cpp:60 | the player count used in the ratio is at least 1 and at least the real count; a positive count is kept as it is and a count of 0 becomes exactly 1 |
| Multiplier.Base | src/FortisAutobalance.cpp:59 | the divisor is at least 1, and it equals BaselinePlayers whenever that is non-zero |
| Multiplier.MinMul | src/FortisAutobalance.cpp:62 | the lower clamp is positive; it is MinMultiplier when that is positive, otherwise exactly 1/base |
| Multiplier.Ratio | src/FortisAutobalance.cpp:60 | the unclamped ratio is positive and times the baseline gives exactly max(players, 1) |
| Multiplier.ComputeMultiplier | src/FortisAutobalance.cpp:57-68 | the result is at least the positive lower clamp, so it is never zero or negative; without AllowAboveBase it is at most 1.0 unless the clamp is above 1.0; it is at least the ratio unless the cap cut it down, and at most the ratio unless the clamp raised it, so it is exactly the ratio clamped to [MinMul, 1.0] (or to [MinMul, ∞) with AllowAboveBase) |
| Multiplier.MultiplierMonotone | src/FortisAutobalance.cpp:57-68 | for any settings, more players never give a smaller multiplier |
| Multiplier.MultiplierAtOrAboveBaseline | src/FortisAutobalance.cpp:63-66 | without AllowAboveBase and with a clamp of at most 1.0, any count at or above the baseline gives exactly 1.0 |
| Multiplier.MultiplierBelowBaseline | src/FortisAutobalance.cpp:60-66 | with the automatic clamp, a count at or below the baseline gives exactly max(players,1)/base |
| Multiplier.MultiplierAboveBaseAllowed | src/FortisAutobalance.cpp:60-66 | with AllowAboveBase and the automatic clamp, the multiplier is exactly the ratio, above 1.0 as well |
| Multiplier.BaselineZeroIsOne | src/FortisAutobalance.cpp:59 | a baseline of 0 gives the same multiplier as a baseline of 1 for every player count |
| Multiplier.NoPlayersCountAsOne | src/FortisAutobalance.cpp:60 | for any settings, a map with no counted player gets the same multiplier as a map with one |
| Multiplier.DefaultScenarios | src/FortisAutobalance.cpp:56-68 | with the struct's defaults (baseline 5, clamp 0, no scaling above 1.0): 0 or 1 player gives 0.2, 3 give 0.6, 5 and 10 give 1.0 |
| Players.IsInstanceMap | src/FortisAutobalance.cpp:35-38 | a missing map is never an instance; a present map is one exactly when it is a dungeon or a raid |
| Players.CountNonGm | src/FortisAutobalance.cpp:44-52 | the number of counted players never exceeds the number of references on the map |
| Players.CountAppend | src/FortisAutobalance.cpp:44-52 | the count of a list split in two is the sum of the counts of the two parts |
| Players.CountIgnoresNonCounting | src/FortisAutobalance.cpp:46-50 | removing a game master or an empty reference from the list leaves the count unchanged |
| Players.CountAllPlayers | src/FortisAutobalance.cpp:44-52 | on a map where every reference is a present non-GM player, every reference is counted |
| Players.CountRelevantPlayers | src/FortisAutobalance.cpp:40-54 | the loop returns exactly the number of present non-GM players (0 for a missing map), at most the number of references |
| Scaling.TruncateRoundsDown | src/FortisAutobalance.cpp:87 | the uint32 cast of a non-negative product is the largest whole number not above it |
| Scaling.ScaledHealth | src/FortisAutobalance.cpp:89-90 | scaled current health never exceeds the scaled max health |
| Scaling.Scaled | src/FortisAutobalance.cpp:86-104 | after scaling both damage channels are present and health is at most max health |
| Scaling.Restored | src/FortisAutobalance.cpp:123-125 | after restoring, health is at most the restored max health and never above the health before |
| Scaling.ApplyStep | src/FortisAutobalance.cpp:70-106 | an apply keeps the entry well formed (two channels in the stats and in any record) |
| Scaling.RevertStep | src/FortisAutobalance.cpp:114-134 | a revert keeps the entry well formed |
| Scaling.ApplyAtUnityIsNoOp | src/FortisAutobalance.cpp:72-73 | a multiplier of exactly 1.0 creates no record and touches no stat |
| Scaling.ApplyScalesHealth | src/FortisAutobalance.cpp:80-91 | a successful apply stores an applied record with the pre-apply max health and all four damage values; new max = trunc(old max * mult); health = min(trunc(old health * mult), new max), so health <= max health |
| Scaling.ApplyScalesDamage | src/FortisAutobalance.cpp:94-104 | a channel's min and max are both multiplied when both are positive; otherwise the channel is unchanged |
| Scaling.ApplyScalesFromSnapshot | src/FortisAutobalance.cpp:80-106 | the scaled stats are computed from the values just saved in the record |
| Scaling.ApplyWhenAppliedIsNoOp | src/FortisAutobalance.cpp:75-77 | with an applied record, an apply with any multiplier changes nothing |
| Scaling.ApplyIdempotent | src/FortisAutobalance.cpp:75-77 | two applies with the same multiplier equal one; after an apply with a multiplier other than 1.0, any further apply changes nothing |
| Scaling.TruncateShrinks | src/FortisAutobalance.cpp:87 | truncating a value scaled by at most 1.0 never gives more than the value |
| Scaling.ApplyBelowUnityNeverRaises | src/FortisAutobalance.cpp:86-91 | with a multiplier of at most 1.0, apply never raises max health or health, so both stay within their original uint32 range |
| Scaling.RevertWithoutAppliedIsNoOp | src/FortisAutobalance.cpp:116-119 | revert with no record, or with a record not marked applied, leaves the record and the stats unchanged |
| Scaling.RevertRestores | src/FortisAutobalance.cpp:121-134 | revert of an applied record restores max health and the four damage values from the record, lowers health to the restored max only if it is above it, and erases the record |
| Scaling.ApplyRevertRoundTrip | src/FortisAutobalance.cpp:80-134 | for any multiplier other than 1.0, revert after apply gives back max health and all four damage values exactly, health <= max health, and no record |
| Scaling.StepsKeepSettled | src/FortisAutobalance.cpp:75-134 | apply and revert keep the invariant that a stored record is applied; a revert on such an entry always leaves no record |
| Scaling.ThousandHealthScenario | src/FortisAutobalance.cpp:86-125 | 1000 max health scaled by 0.2 becomes 200 with health at most 200, and revert brings max health back to 1000 |
| Autobalance.Creature.ScaleHealth | src/FortisAutobalance.cpp:86-91 | max health becomes the truncated product; health becomes the truncated product capped at the new max |
| Autobalance.Creature.ScaleBaseDamage | src/FortisAutobalance.cpp:93-104 | the loop over the two channels leaves each array equal to the scaled ends: multiplied where both ends were positive, unchanged elsewhere |
| Autobalance.Ledger.constructor | src/FortisAutobalance.cpp:33 | the ledger starts empty and satisfies its invariant |
| Autobalance.Ledger.ApplyScaling | src/FortisAutobalance.cpp:70-112 | keeps the ledger invariant (every record applied); with a null creature nothing changes; otherwise the creature's record and stats become ApplyStep of the old ones, and no other record and no other field changes |
| Autobalance.Ledger.RevertScaling | src/FortisAutobalance.cpp:114-138 | keeps the ledger invariant; with a null creature nothing changes; otherwise the creature's record and stats become RevertStep of the old ones, and no other record changes |
| UnitScript.CombatMultiplier | src/FortisAutobalance.cpp:146-161 | a multiplier is produced exactly for eligible creatures (type unit, Enable set, and an instance map when InstanceOnly is set); it is at least the positive lower clamp, and at most 1.0 without AllowAboveBase when the clamp is at most 1.0 |
| UnitScript.OpenWorldNeverScaled | src/FortisAutobalance.cpp:156-158 | with InstanceOnly set, a creature on an open-world map or on no map gets no multiplier |
| UnitScript.OnUnitEnterCombat | src/FortisAutobalance.cpp:146-164 | keeps the ledger invariant; an ineligible or null unit changes nothing; an eligible one gets ApplyStep with the multiplier for the players counted on its map; other records and the unit's map are unchanged |
| UnitScript.OnUnitEnterEvadeMode | src/FortisAutobalance.cpp:166-170 | keeps the ledger invariant; a creature's entry becomes RevertStep of the old one; other unit types change nothing; other records and the unit's map are unchanged |
| UnitScript.OnUnitDeath | src/FortisAutobalance.cpp:172-176 | the same as evade: a creature's entry becomes RevertStep of the old one; other unit types change nothing; other records and the unit's map are unchanged |
| UnitScript.Step | src/FortisAutobalance.cpp:146-176 | one combat-enter, evade, death or host-damage event keeps the entry well formed |
| UnitScript.Run | src/FortisAutobalance.cpp:146-176 | any sequence of events keeps the entry well formed |
| UnitScript.StepTracks | src/FortisAutobalance.cpp:70-138 | each event keeps Tracks: with no record, max health and damage are the originals; a stored record is applied, holds the originals, and the stats are the originals scaled by some multiplier other than 1.0; health <= max health |
| UnitScript.RunTracks | src/FortisAutobalance.cpp:70-138 | every sequence of events keeps Tracks |
| UnitScript.RunSnoc | src/FortisAutobalance.cpp:146-176 | a run followed by one more event equals that event applied to the run's result |
| UnitScript.LifecycleRestoresOriginals | src/FortisAutobalance.cpp:70-176 | from an unscaled creature, any sequence of events ending in evade or death leaves no record, exactly the original max health and damage values, and health <= max health; repeated cycles do not compound |
| UnitScript.RecordMeansApplied | src/FortisAutobalance.cpp:70-176 | after any sequence of events, a stored record is applied, holds the originals, and comes with max health and damage scaled from the originals by a multiplier other than 1.0; without a record the creature has its original max health and damage |

## Left out

- Logging (`LOG_INFO`, src/FortisAutobalance.cpp:109-111, 136-137, 196, 202) is telemetry and has no effect on behaviour.
- Configuration loading (`OnAfterConfigLoad`, lines 184-197) and script registration (lines 199-209) are host plumbing. `Settings` is an input value, with the struct's defaults as `DefaultSettings`. The `uint32` cast of a negative configured baseline is therefore not modelled.
- Single-precision rounding in `float(...) / float(base)` and `float(...) * mult` is not modelled; reals are exact.
- Autobalance.Ledger.ApplyScaling: requires a non-negative multiplier, because C++ leaves the cast of a negative float to `uint32` undefined. Its only caller passes `ComputeMultiplier`, which is always positive.
- Autobalance.Creature.ScaleHealth: health values are unbounded naturals. A product above the `uint32` range is undefined behaviour in C++ and is not modelled. With a multiplier of at most 1.0, the default, `ApplyBelowUnityNeverRaises` shows no value grows.
- Host setter internals are not part of this model. If the host's `SetMaxHealth` clamps current health, or raises a max health of 0 to 1, the model does not show it. Line 89 therefore reads the health as it was before line 88.
- `UpdateDamagePhysical` (lines 102, 131-132) asks the host to recompute derived damage from the base values. It has no effect on the modelled state and is left out.
- `ToCreature` is modelled as the identity on units of type `TYPEID_UNIT`. The null check on line 154 therefore never fires in the model.
- Concurrency is left out. The source relies on single-threaded host dispatch and takes no locks.
- `src/FortisAutobalance.cpp` has no damage-interception path, no additive per-extra-player model, no inverse "player strength" multiplier and no ledger cleanup when a creature despawns, so the model has none either. A creature that disappears without an evade or death notification keeps its record.
