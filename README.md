# Mindustry unit, turret ammo, memory cell and item drop, in Dafny

This project models four pieces of Mindustry's game core and proves properties of them.

- **The unit entity** (`UnitComp`). This covers:
  - the per-team, per-kind live counts kept by `add` and `remove`, including the rollback when a unit goes over the cap;
  - re-synchronising a unit with its kind (`setType`, `set`);
  - controller ownership and the repair of an invalid controller;
  - the death pipeline: `kill`, then `killed`, then the once-only `destroy`;
  - the authority-gated steps of a tick (`update`);
  - the logic sensor queries (`sense`, `senseObject`).
- **The item turret's ammo store** (`ItemTurret.ItemTurretBuild`). This is an ordered list of (item, amount) entries with a running `totalAmmo`. The model covers the capacity queries and the versioned save format, which drops entries that are no longer valid ammo.
- **The logic memory cell** (`MemoryBlock.MemoryBuild`). This is a fixed-size array of doubles with a length-prefixed write and a tolerant read.
- **The legacy item drop** (`InputHandler.dropItem`). It splits an accepted amount into one to eight batches and hands over the remainder with the last one. The model also covers `isPlacing` and `canShoot`.

How the Java is represented:

- Each stateful Java object is a Dafny `class`: `Units.Unit`, `Units.GameState`, `ItemTurrets.ItemTurretBuild`, `MemoryBlocks.MemoryBuild`, `Input.InputHandler` and `Input.ItemStack`.
  - Methods modify only the fields they name.
  - Each method is specified against a pure function of the old state.
  - The loops carry invariants.
- Remote invocations (`Call.*`), `Events.fire`, and calls into code that is not part of this model are appended to logs instead of being executed. That code includes the kind's hooks, abilities, weapons, the controller's decision step and block `handleStack`.
- The execution context is passed in as parameters: `net.client()`, `state.rules.*`, `isLocal()`, the cap and the tile/floor queries.
- Save streams are sequences of typed words (byte, short, int, double).
  - Writing keeps the low bits, as Java's narrowing does.
  - Reading a short or an int sign-extends.
  - Reading from an exhausted stream, or hitting a word of the wrong kind, is a read failure.
- Floating-point values are mathematical reals. Memory cells are opaque 64-bit patterns.

In these places the code behaves differently from what a reader would expect, and the model follows the code:

- **Replicas still issue some remote invocations.** A non-authoritative tick (a replica, `net.client()`) would be expected never to issue a remote invocation and never to change the counts. The code's `update` does not check `net.client()` before three things:
  - the unsupported-environment `unitCapDeath` together with its count decrement (`core/src/mindustry/entities/comp/UnitComp.java:372-374`);
  - the falling `unitDestroy` (`core/src/mindustry/entities/comp/UnitComp.java:430-432`);
  - the core `unitDespawn` (`core/src/mindustry/entities/comp/UnitComp.java:471-473`).

  Only the blocked-tile kill and the controller step are gated. `Units.Unit.Update` states exactly this.
- **`add` and `remove` are guarded.** The generated entity code runs `add`/`remove` only when the unit is not yet added or is still added, respectively. That guard comes from the generic entity component, which is not part of this model. It is modelled by the `added` field, and `isValid()` is modelled as `!dead && added`.
- **A capped unit is counted down twice.** Each (team, kind) count would be expected to go down exactly once when a unit leaves the world. In the code, an `add` that passes the cap already rolls the count back (`core/src/mindustry/entities/comp/UnitComp.java:331-334`), and the same unit's later `remove` decrements it again (`core/src/mindustry/entities/comp/UnitComp.java:339-342`). `Units.CappedAddThenRemove` proves that the count then ends one below where it started.
- **Grounded and flying thresholds.** `isGrounded()` and `isFlying()` are elevation thresholds (below 0.001; at least 0.09). They come from the elevation component, which is not part of this model.

## Model

| member | source | states |
|---|---|---|
| Units.GameState.UpdateCount | core/src/mindustry/entities/comp/UnitComp.java:328 | the (team, kind) count changes by exactly `delta` and no other count changes |
| Units.CountUpdated | core/src/mindustry/entities/comp/UnitComp.java:289-291 | counts are kept per (team, kind): moving one pair's count by `delta` moves that pair's reading by exactly `delta` and leaves every other team's and kind's reading unchanged; a pair never counted reads 0 |
| Units.Unit.Add | core/src/mindustry/entities/comp/UnitComp.java:327-336 | adding raises the count by one; when that passes the cap and the unit is neither core-spawned, dead nor in the editor, `unitCapDeath` is requested and the net change is zero; nothing else in the count table changes; a second add does nothing |
| Units.Unit.Remove | core/src/mindustry/entities/comp/UnitComp.java:339-342 | removing an added unit lowers its count by exactly one and notifies the controller once; removing a removed unit does nothing |
| Units.CappedAddThenRemove | core/src/mindustry/entities/comp/UnitComp.java:327-342 | an add that hits the cap followed by that unit's removal leaves the count one below where it started; otherwise the pair leaves it unchanged |
| Units.Unit.SetController | core/src/mindustry/entities/comp/UnitComp.java:246-249 | the given controller becomes the unit's controller and is parented to this unit |
| Units.Unit.ResetController | core/src/mindustry/entities/comp/UnitComp.java:256-258 | the controller is a fresh one from the kind's factory, parented to this unit |
| Units.Unit.SetType | core/src/mindustry/entities/comp/UnitComp.java:297-310 | afterwards health cap, drag, armor, hit size and hovering are the kind's; a controller exists, and an existing one is kept; the mount count equals the kind's weapon count and the ability count equals the kind's ability count; mounts and abilities are rebuilt only when their counts differed |
| Units.Unit.Set | core/src/mindustry/entities/comp/UnitComp.java:261-266 | the kind is re-synchronised only when it differs: then health cap, drag, armor, hit size and hovering become the kind's, and mounts and abilities are rebuilt when their counts differ from the kind's; otherwise every derived field is unchanged. The given controller is always attached to the unit |
| Units.Unit.Heal | core/src/mindustry/entities/comp/UnitComp.java:354-358 | the heal flag is raised exactly when a damaged unit gets a positive amount, and is never lowered |
| Units.Unit.Kill | core/src/mindustry/entities/comp/UnitComp.java:587-592 | `unitDeath` is requested once, unless the unit is already dead or this is a client |
| Units.Unit.Killed | core/src/mindustry/entities/comp/UnitComp.java:574-583 | afterwards the unit is dead, its health is at most zero (the lower of old health and zero), and it records whether a local player caused it. A non-flying unit that was added is destroyed at once, with the full destroy post-state: count -1, the destroy events, the death volley on its mounts, and the explosion, shot, ability-death and removal hooks in order. A non-flying unit that was not added, and any flying unit, keeps its count, mounts and logs |
| Units.Unit.AnnounceDeath | core/src/mindustry/entities/comp/UnitComp.java:485-505 | a destruction logs one explosion hook, damaging unless core-spawned, and publishes exactly the death events of the carried stack |
| Units.Unit.Destroy | core/src/mindustry/entities/comp/UnitComp.java:482-537 | destroying a unit that is not added changes nothing; otherwise it logs the explosion, exactly one destroy event plus a suicide bomb iff explosiveness exceeds 7 and a local player caused it, the death volley, crash damage for a flying kind that was not core-spawned, the ability death hooks, and exactly one removal |
| Units.DestroyTwice | core/src/mindustry/entities/comp/UnitComp.java:482-536 | two destroys of an added unit lower the count by exactly one and publish the destroy events once |
| Units.DeathEvents | core/src/mindustry/entities/comp/UnitComp.java:485-505 | the first event is the destroy event; a suicide bomb is among them iff explosiveness is above 7 and a local player caused the death |
| Units.Explosiveness | core/src/mindustry/entities/comp/UnitComp.java:485 | the wreck's explosiveness is the base 2 for an empty stack, at least 2 for a non-negative load and at most 2 for a stack with no positive amount |
| Units.HarmlessLoadNeverBombs | core/src/mindustry/entities/comp/UnitComp.java:485-505 | a unit whose stack has no positive amount of a non-explosive item publishes only the destroy event, never the suicide bomb |
| Units.FiredOnDeath | core/src/mindustry/entities/comp/UnitComp.java:507-513 | mounts that fire on death are reloaded to 0 and set shooting; every other mount is unchanged; weapons and count are kept |
| Units.Unit.FireDeathVolley | core/src/mindustry/entities/comp/UnitComp.java:507-513 | the mounts become `FiredOnDeath` of the old mounts and one weapon update is logged per firing mount, in order |
| Units.DeathShotsOnlyFiring | core/src/mindustry/entities/comp/UnitComp.java:507-513 | the volley shoots exactly the mounts that fire on death: every such mount is shot, and only such mounts, each at most once, in increasing mount order |
| Units.Unit.AbilitiesDie | core/src/mindustry/entities/comp/UnitComp.java:530-534 | every ability's death hook runs once, in index order |
| Units.FreshMounts | core/src/mindustry/entities/comp/UnitComp.java:306 | one mount per weapon of the kind, each holding that weapon |
| Units.Unit.StepHealPulse | core/src/mindustry/entities/comp/UnitComp.java:365-369 | the heal pulse timer is re-armed to 1 when healed and run out, then decays by delta/20; the heal flag is cleared |
| Units.Unit.StepResupply | core/src/mindustry/entities/comp/UnitComp.java:377-385 | under the ammo rule a short unit accumulates time; a resupply is requested only once the time passes 10, and the timer then resets to 0; otherwise nothing changes |
| Units.Unit.UpdateAbilities | core/src/mindustry/entities/comp/UnitComp.java:387-391 | every ability updates once, in index order |
| Units.Unit.StepFalling | core/src/mindustry/entities/comp/UnitComp.java:405-433 | a dead or health-less unit gets drag 0.01 and falls by fallSpeed*delta; `unitDestroy` is requested once it is grounded or its health is at or below minus its maximum; a living unit is untouched |
| Units.Unit.UpdateStatus | core/src/mindustry/entities/comp/UnitComp.java:363-391 | the kind hook, heal pulse, environment check (one `unitCapDeath` and count -1 for a living unit in an unsupported environment) and resupply of one tick |
| Units.Unit.UpdateMotion | core/src/mindustry/entities/comp/UnitComp.java:393-457 | floor drag, falling, and the blocked-tile rule: boost to elevation 1 when the kind can, else request the unit's death only with authority and for a living unit |
| Units.Unit.UpdateControl | core/src/mindustry/entities/comp/UnitComp.java:460-473 | the controller step is logged iff not a client and alive; an invalid controller is replaced by the kind's default; a core-spawned, non-player, living unit requests its despawn |
| Units.Unit.Update | core/src/mindustry/entities/comp/UnitComp.java:361-474 | the whole post-state of a tick: timers, drag, elevation, count table, controller, and the exact call and hook logs in order; the controller step appears iff not a client and alive |
| Units.Unit.Sense | core/src/mindustry/entities/comp/UnitComp.java:163-195 | every numeric sensor answers a number and every other sensor NaN; `ammo` is the capacity when the ammo rule is off; `dead` reads 1 iff the unit is not valid and 0 iff it is; `payloadCount` is 0 without payload capability and the payload count with it |
| Units.SensedMineSentinel | core/src/mindustry/entities/comp/UnitComp.java:182-183 | `mineX` and `mineY` read -1 when the unit is not mining and the mined tile's coordinates when it is |
| Units.SensedControlCodes | core/src/mindustry/entities/comp/UnitComp.java:185-190 | `controlled` reads 0 for an invalid unit, otherwise 1, 2 or 3 for processor, player or formation control and 0 for any other controller; `commanded` reads 1 iff the unit is valid and under formation control |
| Units.Unit.SenseObject | core/src/mindustry/entities/comp/UnitComp.java:198-210 | every unknown sensor answers the no-object marker and every object sensor answers something else; `type` is the kind; `name` is the controlling player's name, and null iff no player controls the unit; `firstItem` is null iff the stack is empty, else the item; `controller` is null for an invalid unit, the processor building (or null) under logic control, the leader (or null) under formation control, and otherwise the unit itself, including when it has no controller; `payloadType` is null without payloads or with none carried, else the top payload's unit kind or block |
| Units.Unit.SenseContent | core/src/mindustry/entities/comp/UnitComp.java:213-216 | sensing an item kind gives a number iff it is the carried item, and that number is the carried amount |
| Units.Unit.CanShoot | core/src/mindustry/entities/comp/UnitComp.java:226-229 | a unit that can shoot is not disarmed; boosting prevents shooting; disarming and boosting are the only things that prevent it |
| Units.Unit.CanDrown | core/src/mindustry/entities/comp/UnitComp.java:220-222 | a unit that can drown is grounded, not flying, not hovering, and of a kind that can drown; conversely every unit below the grounded elevation that does not hover and whose kind can drown can drown |
| Units.BoostingUnitCannotShoot | core/src/mindustry/entities/comp/UnitComp.java:179-229 | a unit whose `boosting` sensor reads 1 cannot shoot |
| Units.CommandedMatchesControlled | core/src/mindustry/entities/comp/UnitComp.java:185-190 | `commanded` reads 1 exactly when `controlled` reads the formation code |
| Units.DeadUnitsAreUncontrolled | core/src/mindustry/entities/comp/UnitComp.java:174-202 | a unit that senses as dead reads 0 for `controlled` and `commanded` and has a null controller object |
| Units.PlayerControlCode | core/src/mindustry/entities/comp/UnitComp.java:564-566 | `isPlayer()` holds exactly when a valid unit's `controlled` sensor reads the player code 2, and exactly when its `name` sensor answers a name |
| Content.ItemById | core/src/mindustry/world/blocks/defense/turrets/ItemTurret.java:189 | looking up an item id succeeds iff the id is within the registry, and gives the registered item with that id |
| Streams.ReadUB | core/src/mindustry/world/blocks/defense/turrets/ItemTurret.java:187 | an unsigned byte read succeeds iff the next word is a byte; it gives a value in 0..255 and consumes one word |
| Streams.ReadS | core/src/mindustry/world/blocks/defense/turrets/ItemTurret.java:190 | a short read succeeds iff the next word is a short; it gives a signed 16-bit value and consumes one word |
| Streams.ReadI | core/src/mindustry/world/blocks/logic/MemoryBlock.java:63 | an int read succeeds iff the next word is an int; it gives a signed 32-bit value and consumes one word |
| Streams.ReadD | core/src/mindustry/world/blocks/logic/MemoryBlock.java:65 | a double read succeeds iff the next word is a double and consumes one word |
| Streams.ByteRoundTrip | core/src/mindustry/world/blocks/defense/turrets/ItemTurret.java:174-187 | a byte written then read gives back the value iff it lies in 0..255 |
| Streams.ShortRoundTrip | core/src/mindustry/world/blocks/defense/turrets/ItemTurret.java:177-190 | a short written then read gives back the value iff it fits in 16 signed bits |
| Streams.IntRoundTrip | core/src/mindustry/world/blocks/logic/MemoryBlock.java:53-63 | an int written then read gives back the value iff it fits in 32 signed bits |
| MemoryBlocks.MemoryBuild.constructor | core/src/mindustry/world/blocks/logic/MemoryBlock.java:33 | a new cell has exactly the requested capacity, every value zero |
| MemoryBlocks.MemoryBuild.CanPickup | core/src/mindustry/world/blocks/logic/MemoryBlock.java:37-39 | a memory cell can never be picked up |
| MemoryBlocks.MemoryBuild.Write | core/src/mindustry/world/blocks/logic/MemoryBlock.java:50-57 | the output is the array length followed by every cell in index order |
| MemoryBlocks.MemoryBuild.Read | core/src/mindustry/world/blocks/logic/MemoryBlock.java:60-68 | the array becomes the stored values overlaid on the old contents, and the rest of the stream is whatever follows the stored values; a short stream is a read failure |
| MemoryBlocks.Doubles | core/src/mindustry/world/blocks/logic/MemoryBlock.java:54-56 | one double word per cell, in order |
| MemoryBlocks.TakeDoubles | core/src/mindustry/world/blocks/logic/MemoryBlock.java:64-65 | it never yields more values than there are words, and a successful read of n values yields exactly n |
| MemoryBlocks.Overlay | core/src/mindustry/world/blocks/logic/MemoryBlock.java:63-67 | the length equals the capacity; indices below the stored count take the stored values; all other indices keep their old values, so nothing is written at or beyond the capacity |
| MemoryBlocks.TakeWrittenDoubles | core/src/mindustry/world/blocks/logic/MemoryBlock.java:54-65 | reading back as many doubles as were written gives back those cells and the untouched tail |
| MemoryBlocks.ReadConsumesStoredCount | core/src/mindustry/world/blocks/logic/MemoryBlock.java:63-67 | reading a written image consumes exactly the stored count of values, whatever the capacity, and leaves the tail |
| MemoryBlocks.WriteReadRoundTrip | core/src/mindustry/world/blocks/logic/MemoryBlock.java:50-67 | writing, then reading into a cell of the same capacity, reproduces the array exactly |
| ItemTurrets.IndexOf | core/src/mindustry/world/blocks/defense/turrets/ItemTurret.java:146-150 | the index of the first entry of the item, or the list length when there is none |
| ItemTurrets.Swap | core/src/mindustry/world/blocks/defense/turrets/ItemTurret.java:152 | exchanges two positions and leaves every other position alone |
| ItemTurrets.TruncDiv | core/src/mindustry/world/blocks/defense/turrets/ItemTurret.java:118 | Java's int cast of a quotient rounds toward zero: for a non-negative dividend the quotient times the divisor is the largest multiple not above it, and for a negative dividend the smallest multiple not below it |
| ItemTurrets.SwapSum | core/src/mindustry/world/blocks/defense/turrets/ItemTurret.java:152 | a swap changes neither the total nor any item's amount |
| ItemTurrets.HandledSum | core/src/mindustry/world/blocks/defense/turrets/ItemTurret.java:143-158 | handling one ammo item raises the sum of entry amounts by the multiplier |
| ItemTurrets.HandledAmounts | core/src/mindustry/world/blocks/defense/turrets/ItemTurret.java:143-158 | handling raises that item's amount by the multiplier and leaves every other item's amount unchanged |
| ItemTurrets.HandledShape | core/src/mindustry/world/blocks/defense/turrets/ItemTurret.java:146-158 | afterwards the item is in the last entry and items stay unique; an existing entry gains the multiplier, only its position and the last change, and no entry is added; a new item adds exactly one entry at the end |
| ItemTurrets.HandledKeepsValid | core/src/mindustry/world/blocks/defense/turrets/ItemTurret.java:143-158 | handling an ammo item adds its multiplier to the sum, keeps every entry among the ammo kinds and keeps items unique |
| ItemTurrets.HandledTimesAmounts | core/src/mindustry/world/blocks/defense/turrets/ItemTurret.java:122-126 | n handlings raise the total and that item's amount by n times the multiplier, touch no other item, and keep items unique |
| ItemTurrets.ItemTurretBuild.HandleItem | core/src/mindustry/world/blocks/defense/turrets/ItemTurret.java:135-159 | pyratite fires the flame-ammo event; a non-ammo item leaves the entries and total unchanged; an ammo item raises the total by its multiplier and updates the entries as `Handled` does; `totalAmmo` stays the sum of amounts and items stay unique |
| ItemTurrets.ItemTurretBuild.HandleStack | core/src/mindustry/world/blocks/defense/turrets/ItemTurret.java:122-126 | the same as `amount` successive item handlings (none for a negative amount), including the events |
| ItemTurrets.ItemTurretBuild.AcceptItem | core/src/mindustry/world/blocks/defense/turrets/ItemTurret.java:161-164 | an accepted item is ammo and one more multiplier fits under `maxAmmo`; one item is accepted exactly when the stack query takes the whole of a one-item stack |
| ItemTurrets.ItemTurretBuild.AcceptStack | core/src/mindustry/world/blocks/defense/turrets/ItemTurret.java:113-119 | a non-ammo item is refused; otherwise at most `amount` items are taken; when the turret is not over-full, they fit under `maxAmmo` and one more would either exceed `amount` or not fit; when it is over-full, the answer is zero or negative, the amount that brings the total back to just at or above `maxAmmo`, unless `amount` is smaller still |
| ItemTurrets.ItemTurretBuild.RemoveStack | core/src/mindustry/world/blocks/defense/turrets/ItemTurret.java:130-132 | nothing can ever be taken out |
| ItemTurrets.EntryWords | core/src/mindustry/world/blocks/defense/turrets/ItemTurret.java:175-179 | two words per entry: the item id and the amount |
| ItemTurrets.ItemTurretBuild.Write | core/src/mindustry/world/blocks/defense/turrets/ItemTurret.java:172-180 | the output is the entry count as a byte followed by each entry's id and amount as shorts |
| ItemTurrets.ReadEntry | core/src/mindustry/world/blocks/defense/turrets/ItemTurret.java:189-196 | a kept entry has a registered item that is ammo for the turret, and reading an entry always consumes input |
| ItemTurrets.ReadKeepsOnlyAmmo | core/src/mindustry/world/blocks/defense/turrets/ItemTurret.java:188-197 | every entry a load keeps, over any number of stored entries, has a registered item that is ammo for the turret |
| ItemTurrets.ItemTurretBuild.Keep | core/src/mindustry/world/blocks/defense/turrets/ItemTurret.java:194-195 | keeping a loaded entry appends it and keeps `totalAmmo` equal to the sum of amounts |
| ItemTurrets.ItemTurretBuild.Read | core/src/mindustry/world/blocks/defense/turrets/ItemTurret.java:183-198 | the list and total are replaced by what the stream holds: ids as unsigned bytes before revision 2 and as shorts from it on; entries whose item is unknown or not ammo are dropped; `totalAmmo` is the sum of the kept amounts |
| ItemTurrets.ReadWrittenEntries | core/src/mindustry/world/blocks/defense/turrets/ItemTurret.java:175-196 | reading the written entries of valid ammo gives them back and leaves the tail |
| ItemTurrets.AmmoRoundTrip | core/src/mindustry/world/blocks/defense/turrets/ItemTurret.java:172-198 | writing, then reading at the current revision, restores the list when it has fewer than 256 entries, every item is registered ammo, and every amount fits in a short |
| ItemTurrets.DroppedEntryIgnored | core/src/mindustry/world/blocks/defense/turrets/ItemTurret.java:192-196 | an entry whose item is unknown or not ammo is consumed and contributes nothing |
| Input.Batches | core/src/io/anuke/mindustry/input/InputHandler.java:123 | the number of batches lies in 1..8 and never exceeds the accepted amount |
| Input.BatchSize | core/src/io/anuke/mindustry/input/InputHandler.java:124 | each batch hands over at least one item |
| Input.BatchesCoverAccepted | core/src/io/anuke/mindustry/input/InputHandler.java:123-124 | the batches together hand over at most the accepted amount, and what they leave over is less than the number of batches |
| Input.DeliveredBeforeLast | core/src/io/anuke/mindustry/input/InputHandler.java:127-145 | before the last batch, exactly n times the batch size has been handed over and nothing has been cleared |
| Input.LastBatch | core/src/io/anuke/mindustry/input/InputHandler.java:136-150 | the last batch hands over one batch plus the remainder, and clears the inventory iff the whole stack was accepted |
| Input.EffectsArePositive | core/src/io/anuke/mindustry/input/InputHandler.java:136-140 | every hand-over in the drop is of a positive amount |
| Input.DropDeliversAccepted | core/src/io/anuke/mindustry/input/InputHandler.java:125-151 | with the callbacks run in schedule order, the amounts handed over add up to exactly the accepted amount, every hand-over is positive, and the inventory is cleared once if the whole stack was accepted and never otherwise |
| Input.InputHandler.IsPlacing | core/src/io/anuke/mindustry/input/InputHandler.java:83-85 | placing iff a recipe is selected |
| Input.InputHandler.CanShoot | core/src/io/anuke/mindustry/input/InputHandler.java:96-98 | shooting is only allowed when not placing and not dropping an item |
| Input.InputHandler.RunBatch | core/src/io/anuke/mindustry/input/InputHandler.java:128-151 | one batch takes its share off the stack and hands it over; the last batch also moves the remainder, clears the inventory when asked and ends the transfer |
| Input.InputHandler.DropItem | core/src/io/anuke/mindustry/input/InputHandler.java:112-153 | nothing happens for a non-positive accepted amount or during a transfer; otherwise the stack loses exactly the accepted amount, the hand-overs and clearing are exactly those of the batched schedule, and `transferring` is false again |

## Left out

- Units.Unit.Update: it does not model these parts of the tick:
  - spawn-zone knockback, floor damage and the building `unitOn` hook;
  - fall smoke and thruster effects, which are random cosmetic effects.

  Whether the tile is impassable, the floor's drag multiplier and whether the environment is supported are passed in as parameters.
- Units.Unit.Destroy: the explosion's flammability, power and damage formulas, the scorch, shake and sound, and the wreck decals are left out. The model only logs the explosion with its damaging flag. `isLocal()` is a parameter.
- Units.Unit.FireDeathVolley: whatever the weapon's own `update` does to a mount is not modelled; it is logged as a hook.
- Units.Unit.Add: the cap is a parameter, because `Units.getCap` is not part of this model.
- Units.GameState.UpdateCount: any clamping inside the team data, and 32-bit overflow of the counts, are not modelled. The team data code is not part of this model.
- UnitComp's movement, aiming and rotation physics are float numerics and outside the modelled core:
  - `movePref`, `moveAt`, `approach`, `rotateMove`, `aimLook`, `lookAt`;
  - `speed`, `realSpeed`, `prefRotation`.
- These UnitComp helpers are out of scope because they are rendering, UI or plain accessors:
  - `clipSize`, `physicSize`, `bounds`, `icon`, `draw`, `display`;
  - `canLand`, `inRange`, `hasWeapons`, `range`, `isCounted`, `itemCapacity`, `pathType`, `isAI`, `isImmune`;
  - `getControllerName`, `getPlayer`, `eachGroup`, `unloaded`, `landed`, `afterSync`, `afterRead`.
- Units.Unit.SetController: the controller is a value re-bound to the unit. Whatever `controller.unit(self())` does inside a player or AI controller is not modelled, because that code is not part of this model.
- Ability copying: `Ability::copy` is modelled as a value copy.
- Remote-call transport, network ordering and the effect of each logged call are not modelled.
- ItemTurrets.ItemTurretBuild.Read: `super.read` and `super.write` of the base turret are not part of this model. The 32-bit overflow of `totalAmmo` is not modelled. The ammo multiplier is a positive integer.
- MemoryBlocks.MemoryBuild.Write: `super.write` and `super.read` of the base building are not part of this model. The configuration UI is left out.
- Input.InputHandler.DropItem: the timers and transfer animations are replaced by running the callbacks in schedule order. The target block's `acceptStack` result is passed in as `accepted`. `getStackOffset` and the transfer coordinates are left out.
- Input.InputHandler.CanShoot: `ui.hasMouse()` and `onConfigurable()` are parameters.
- `mouseAngle` and `remove` of `InputHandler` are out of scope: they are input plumbing.
- `validPlace`, `validBreak`, `placeBlock` and `breakBlock` of `InputHandler` are out of scope: they are thin wrappers over world lookups that are not part of this model.
