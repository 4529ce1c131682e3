# FPDev weapon firing, modelled in Dafny

This project models the weapon-firing core of the FPDev game: the weapon
configuration `UWeaponMechanic`, and the fire controller inside
`AFPDevCharacter`. The controller turns Fire presses into shot tokens on a
queue. It drains one token per open drain gate, and each drain fires the
weapon's whole spread pattern. The project states this behaviour and proves
it.

- `Wrappers.dfy`: `Option`, which stands for a pointer that may be null.
- `WeaponMechanic.dfy` (module `Mechanic`): the class `WeaponMechanic`, with
  its fields, its three constructors, the guarded `ChangePattern` and the
  clamping `Modify*` methods. Each method's postcondition gives the complete
  new abstract value, `Params()`, as an update of the old one. So every field
  that is not named stays unchanged.
- `Spread.dfy` (module `Spread`): the cell loop and the pure maps inside
  `FireWeapon`:
  - index → (column, row), using C++ truncating `/` and `%`;
  - (column, row) → target offset, as coefficients of Forward, Up and Right;
  - the list of spawns for a whole pattern, and the loop `SpawnPattern` that
    is proved to build it.
- `FPDevCharacter.dfy` (module `Character`): pure step functions over
  `FireState`, which holds the queue, two timers and the held flag:
  - `OnFireNext`, `FireWeaponStep`, `TickStep`, `Toggle`, `Run`;
  - the class `FPDevCharacter`, whose firing methods (`OnFire`,
    `FirePressed`, `FireReleased`, `FireWeapon`, `Tick`) are proved to follow
    these functions exactly, while `BeginPlay` and `SetWeaponFunction` state
    their new fields directly;
  - lemmas about the step functions.

Engine inputs are modelled as follows:
- whether `FP_Gun` and `ProjectileClass` are set: the boolean fields
  `HasGun` and `HasProjectileClass`;
- whether `GetWorld()` returns a world: a parameter;
- the results of `GetSpreadHeight()` and `GetSpreadCellDim()`: parameters;
- each `SpawnActor` call: one `Spawn(cell, offset)` entry in a returned log.

Timers and delays are `real` seconds.

The preconditions are only those that the C++ itself depends on:
- `WeaponFunction` must not be null on the branches that dereference it.
  In `OnFire` that is when a gun is attached. In `FireWeapon` it is when the
  queue is non-empty. In `Tick` it is also when the trigger is held.
- `SpreadWidth` must not be zero when a drain would map a true cell. C++
  integer division by zero is undefined.
- A negative width is accepted by `ChangePattern`. It is mapped with C++
  truncating division.
- A zero width is accepted by `ChangePattern` too (`ZeroWidthPatternAccepted`).
  The source does not guard the drain that follows, so a zero width with a
  true cell is a reachable state where C++ behaviour is undefined. The model
  keeps `ChangePattern` as written and excludes only that drain.

The lemmas that assume a non-negative `FireDelay` or `MultiplierDelay`
cover every mechanic the class builds. The constructors establish
`NonNegativeDelays`, and every mutating method keeps it.

On these points the code is easy to misread; the model does exactly what the
code does:
- The trigger cooldown is strict: `TimeSinceFire > FireDelay`, not `>=`.
- A press toggles `TriggerHeld`, and so does a release. A press does not set
  the flag to true.
- A draining tick advances neither timer. Only the closed-gate branch adds
  `DeltaTime`.
- With the gate open but no projectile class or no world, nothing changes.
  No token is removed and no timer advances. The token is not removed
  unconditionally.
- The grid height is whatever `GetSpreadHeight()` reports. It is not assumed
  to be `ceil(len / width)`. The cell size is not assumed to equal
  `SpreadArea`.

## Model

| member | source | states |
|---|---|---|
| `Mechanic.DefaultPattern` | Source/FPDev/WeaponMechanic.cpp:9-10 | the default pattern has `DefaultWidth` (3) cells; cell 1 is true and every other cell is false |
| `Mechanic.AtLeastOne` | Source/FPDev/WeaponMechanic.cpp:44-50 | the multiplier clamp gives a value of at least 1; it gives back its input exactly when the input is at least 1 (so it is idempotent); it gives 1 below that |
| `Mechanic.NonNegative` | Source/FPDev/WeaponMechanic.cpp:53-83 | the delay/depth/area clamp gives a value of at least 0; it gives back its input exactly when the input is non-negative; it gives 0 for a negative input |
| `Mechanic.WeaponMechanic.constructor` | Source/FPDev/WeaponMechanic.cpp:7-12 | ShotMultiplier 1, MultiplierDelay 0.05, FireDelay 0.2, SpreadWidth 3, SpreadDepth 100, SpreadArea 4, the default pattern, and a pattern length equal to SpreadWidth |
| `Mechanic.WeaponMechanic.WithMultiplier` | Source/FPDev/WeaponMechanic.cpp:14-19 | the multiplier is stored verbatim, with no clamp; the other fields are the defaults |
| `Mechanic.WeaponMechanic.WithPattern` | Source/FPDev/WeaponMechanic.cpp:21-25 | multiplier, pattern and width are stored verbatim, with no clamp and no width check; the timing, depth and area are the defaults |
| `Mechanic.WeaponMechanic.ChangePattern` | Source/FPDev/WeaponMechanic.cpp:33-42 | returns true iff `width <= |newPattern|`; on success only width and pattern are replaced; on failure nothing changes |
| `Mechanic.WeaponMechanic.ModifyShotMultiplier` | Source/FPDev/WeaponMechanic.cpp:44-50 | ShotMultiplier becomes `AtLeastOne(m)`; every other field is unchanged |
| `Mechanic.WeaponMechanic.ModifyFireDelay` | Source/FPDev/WeaponMechanic.cpp:53-59 | FireDelay becomes `NonNegative(d)`; every other field is unchanged |
| `Mechanic.WeaponMechanic.ModifyShotMultiplierDelay` | Source/FPDev/WeaponMechanic.cpp:61-67 | MultiplierDelay becomes `NonNegative(d)`; every other field is unchanged |
| `Mechanic.WeaponMechanic.ModifySpreadDepth` | Source/FPDev/WeaponMechanic.cpp:69-75 | SpreadDepth becomes `NonNegative(v)`; every other field is unchanged |
| `Mechanic.WeaponMechanic.ModifySpreadArea` | Source/FPDev/WeaponMechanic.cpp:77-83 | SpreadArea becomes `NonNegative(v)`; every other field is unchanged |
| `Spread.SpawnPattern` | Source/FPDev/FPDevCharacter.cpp:147-173 | the counter loop over the pattern logs exactly `PatternSpawns`: one entry per true cell, in order, each aimed at its cell's offset |
| `Spread.Column` | Source/FPDev/FPDevCharacter.cpp:152 | the column of cell `i` is C++ `i % w`; for `i >= 0` the remainder is taken by the absolute width and lies between 0 and that width, exclusive |
| `Spread.Row` | Source/FPDev/FPDevCharacter.cpp:153 | the row of cell `i` is C++ `i / w`, truncated toward zero; `row * w + column == i`, so the grid position gives the index back; rows are non-negative for a positive width |
| `Spread.CellOffset` | Source/FPDev/FPDevCharacter.cpp:152-159 | the target offset is `depth` along Forward, and the centre of the cell measured from the grid centre along Up and Right: `(row + 1/2 - H/2)·c` and `(column + 1/2 - W/2)·c`; `OffsetCentred` proves the grid is centred for a positive width |
| `Spread.GridInjective` | Source/FPDev/FPDevCharacter.cpp:152-153 | two cells with the same column and the same row are the same cell |
| `Spread.SpawnCount` | Source/FPDev/FPDevCharacter.cpp:147-173 | the number of spawns equals the number of true cells in the pattern |
| `Spread.SpawnsAreActive` | Source/FPDev/FPDevCharacter.cpp:149-168 | every spawn is a true cell of the pattern, aimed at `CellOffset` of that cell |
| `Spread.SpawnsAscending` | Source/FPDev/FPDevCharacter.cpp:147-173 | spawns go in strictly ascending cell index order |
| `Spread.SpawnsCoverActive` | Source/FPDev/FPDevCharacter.cpp:147-173 | every true cell of the pattern is spawned |
| `Spread.OffsetCentred` | Source/FPDev/FPDevCharacter.cpp:140-159 | for a positive width the grid is centred on the aim line: mirrored columns (`c1 + c2 == W - 1`) get opposite Right coefficients; mirrored rows (`r1 + r2 == H - 1`) get opposite Up coefficients. A negative width, which `ChangePattern` accepts, fires off-centre |
| `Spread.NegativeWidthOffCentre` | Source/FPDev/FPDevCharacter.cpp:141-159 | with width -2, the two cells of the first row are not mirrored about the aim line: their Right coefficients sum to 4, not 0 |
| `Spread.DefaultPatternSpawns` | Source/FPDev/FPDevCharacter.cpp:140-159 | the default pattern (`DefaultPattern()`, width `DefaultWidth`) fires exactly one projectile, cell 1, at offset `(depth, (1 - H)·c/2, 0)`. It is straight ahead horizontally. For a non-zero cell size it is also straight ahead vertically iff `H == 1`; for a zero cell size it always is |
| `Character.Tokens` | Source/FPDev/FPDevCharacter.cpp:193-195 | one pull enqueues `max(ShotMultiplier, 0)` tokens |
| `Character.FPDevCharacter.BeginPlay` | Source/FPDev/FPDevCharacter.cpp:64-73 | a fresh default mechanic, an empty queue, both timers 0, and TriggerHeld false |
| `Character.FPDevCharacter.SetWeaponFunction` | Source/FPDev/FPDevCharacter.cpp:269-271 | the given mechanic (possibly null) becomes the active one; nothing else changes |
| `Character.FPDevCharacter.ToggleTrigger` | Source/FPDev/ShipPawn.h:73-75 | TriggerHeld is negated; nothing else changes |
| `Character.FPDevCharacter.OnFire` | Source/FPDev/FPDevCharacter.cpp:188-199 | the new state is `OnFireNext`: with a gun and `TimeSinceFire > FireDelay`, the multiplier's tokens are appended and TimeSinceFire is reset to 0; otherwise nothing changes |
| `Character.FPDevCharacter.FirePressed` | Source/FPDev/FPDevCharacter.cpp:85-86 | a press is `OnFire` followed by the toggle |
| `Character.FPDevCharacter.FireReleased` | Source/FPDev/FPDevCharacter.cpp:87 | a release only toggles TriggerHeld |
| `Character.FPDevCharacter.FireWeapon` | Source/FPDev/FPDevCharacter.cpp:103-185 | the new state and the spawn log are `FireWeaponStep` of the old state, the mechanic and the engine inputs |
| `Character.FPDevCharacter.Tick` | Source/FPDev/FPDevCharacter.cpp:238-242 | the new state and the spawn log are `TickStep`: `FireWeapon` runs first, then `OnFire` runs iff TriggerHeld and FullAutomatic |
| `Character.FirstPullAfterBeginPlayDropped` | Source/FPDev/FPDevCharacter.cpp:192 | with a non-negative FireDelay, a pull straight after `BeginPlay` is dropped, because the cooldown test is strict |
| `Character.OnFireEnqueues` | Source/FPDev/FPDevCharacter.cpp:188-199 | an accepted pull grows the queue by exactly `max(ShotMultiplier, 0)` behind the old tokens, zeroes TimeSinceFire and leaves the other fields unchanged; a rejected pull changes nothing |
| `Character.SecondPullDropped` | Source/FPDev/FPDevCharacter.cpp:192-196 | a second pull straight after an accepted one is a no-op |
| `Character.PressBindingsCommute` | Source/FPDev/FPDevCharacter.cpp:85-86 | `OnFire` and the toggle commute, so the order of the two press bindings does not matter |
| `Character.PressReleaseKeepsQueue` | Source/FPDev/FPDevCharacter.cpp:85-87 | a press followed by a release restores TriggerHeld and never removes or reorders a queued token |
| `Character.FireWeaponOutcomes` | Source/FPDev/FPDevCharacter.cpp:103-185 | closed gate: both timers gain `dt`, the queue is unchanged, nothing spawns; drain: exactly the front token goes, TimeSinceBulletSpawn becomes 0, TimeSinceFire is unchanged, and the spawns are exactly the pattern's spawns (one per true cell) whatever the queue length; open gate without a class or a world: nothing changes |
| `Character.ExactDelayDoesNotDrain` | Source/FPDev/FPDevCharacter.cpp:104 | when TimeSinceBulletSpawn equals MultiplierDelay, the gate stays closed and the timers accumulate |
| `Character.TickIsFifo` | Source/FPDev/FPDevCharacter.cpp:238-242 | a tick removes at most one token, the front; the rest keep their order, and re-triggered tokens go behind them |
| `Character.NoBackToBackDrains` | Source/FPDev/FPDevCharacter.cpp:176-177 | with a non-negative MultiplierDelay, the tick right after a drain cannot drain |
| `Character.QueueDrainsCompletely` | Source/FPDev/FPDevCharacter.cpp:103-185 | with no re-trigger, frames of at least `eps` and `n` such frames longer than MultiplierDelay (frames may be much shorter than the delay), the gate reopens within `n` closed ticks after each drain; `b + 1 + (n + 1)·(|queue| - 1)` ticks, where the timer already holds `n - b` frames, empty the queue, and the log is `Repeat(PatternSpawns(…), |queue|)`: one full copy of the pattern's spawns per queued token, so its length is `|queue|` times the pattern's true count |
| `Character.DrainsAll` | Source/FPDev/FPDevCharacter.cpp:103-185 | the induction behind `QueueDrainsCompletely`: under the drain budget `OnBudget`, the run ends with an empty queue and logs `Repeat(PatternSpawns(…), |queue|)` |
| `Character.BudgetKept` | Source/FPDev/FPDevCharacter.cpp:103-183 | one `FireWeapon` tick of length at least `eps` keeps the drain budget with one tick fewer: a drain restarts the inter-shot timer with `n` closed ticks of slack, a closed gate on a non-empty queue uses one of them up |
| `Character.TimerAdvances` | Source/FPDev/FPDevCharacter.cpp:104-182 | while the gate stays closed on a non-empty queue, the inter-shot timer has not passed the delay, so the front token still has slack (`b > 0`), and a frame of at least `eps` adds one frame's worth to the timer |
| `Character.LogAfterTick` | Source/FPDev/FPDevCharacter.cpp:103-185 | one tick in front of a run that fires the rest of the queue fires one pattern per token of the whole queue and ends with an empty queue |
| `Character.ReleasedQueueStillFires` | Source/FPDev/FPDevCharacter.cpp:87 | releasing a held trigger (the toggle) keeps the queue; after it, `(n + 1)·|queue|` ticks of at least `eps` each, with `n` such frames longer than MultiplierDelay, fire every queued token: the log is `Repeat(PatternSpawns(…), |queue|)`, one full copy of the pattern per token; releasing never flushes the queue |
| `Character.ZeroWidthPatternAccepted` | Source/FPDev/WeaponMechanic.cpp:34 | `ChangePattern([true], 0)` succeeds and leaves a pattern that cannot be mapped to the grid: the next drain would evaluate `i % 0` at FPDevCharacter.cpp:152 |

## Left out

- Engine construction and plumbing is not modelled: components, camera,
  mesh, input binding, `AttachWeapon` and `ChangeWeaponMechanicClass`. These
  are Unreal object lifetime and foreign calls. `FP_Gun` and
  `ProjectileClass` are only their presence flags.
- Sound and animation playback inside a drain is not modelled. They are
  external side effects and have no effect on the fire state.
- Spatial maths is not modelled: the control rotation, the muzzle location,
  the basis vectors, `Normalize`, `ToOrientationRotator` and `SpawnActor`.
  The model stops at the un-normalised offset coefficients and an abstract
  spawn log. A spawn that the engine refuses because of a collision is still
  logged.
- The movement and look helpers, health, damage, and the health check at
  the start of `Tick` are not modelled. They are unrelated to firing.
- Floating point is not modelled. Times, delays, depth and area are `real`,
  so there is no rounding, NaN or `float`→`double` effect. `int32` overflow
  of the multiplier and of the widths is not modelled either.
- The bodies of `GetSpreadHeight` and `GetSpreadCellDim` are not part of
  this model, so the height and the cell size are parameters.
- No constructor in the modelled code sets `FullAutomatic`, so the
  constructors promise nothing about it.
- `ShipPawn.h` declares the ship's own firing but has no bodies. Only its
  `ToggleTrigger` is used, as the meaning of the toggle.
