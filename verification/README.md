# GGJ 2023 game logic in Dafny

This project models four game-logic components of the GGJ 2023 Unity game.
It proves properties of each model.

- **Charge attack** (`PlayerAttackController`). A state machine that goes idle, charging, attacking, idle.
  - Pressing the attack button starts a charge.
  - Releasing it picks an attack profile by how long the button was held.
  - While the attack runs, every frame does three things:
    - damages the enemies the overlap query reports;
    - reflects the bullets near the player;
    - steps a rush movement towards a rush point.
  - When the attack time has run out, the next frame restores movement and damage-taking.
  - While charging, the player moves slower and is drained by periodic self-damage.
- **Projectile registry** (`ProjectileManager`). A list of live bullets with four operations:
  - append on create;
  - remove on destroy;
  - destroy-all;
  - area reflection, which hands bullets to a new owner and turns them away from the centre.
- **Interactable dispatch** (`PlayerController`).
  - A list of interactables in range, kept up to date by enter and exit events.
  - On the button event it interacts with the first door in range if there is one.
  - Otherwise it interacts with every non-null entry, last-entered first.
- **Turret** (`TurretEnemy`).
  - A cooldown timer that fires a volley and resets.
  - Three volley shapes: six spread bolts, four cardinal bolts, or one bolt aimed at the player, leading the target when the shot is fast.

Each component is a Dafny class whose fields are the fields the component changes. The engine's static flags (`PlayerMovementController.CanMove`, `PlayerHealth.canTakeDamage`, `Globals.MoveMultiplier`) and the static bullet list become fields as well.

`PlayerAttackController` and `Bullet` have a `State()` snapshot of their fields. `PlayerController`, `ProjectileManager` and `TurretEnemy` state their fields directly. Each class's methods are proved against pure transition functions:

- `PlayerAttack.Pressed`, `Started` and `Ticked`;
- `Projectiles.ReflectOne`;
- `Interaction.Dispatch`;
- `Turret.TimerTick` and `Turret.Volley`.

The properties are proved as lemmas about those functions. The charge-attack controller also keeps an invariant (`PlayerAttack.Inv`). Its constructor establishes it, and `OnMoveChanged`, `Update` and `OnAttackPressed` preserve it.

Calls into code outside the core are recorded as a trace rather than performed:

- damage, hit cooldown and sound cues go to the controller's `effects`;
- `Interact` calls go to the player controller's `interactions`;
- `SpawnBullet` calls go to the turret's `shots`;
- engine `Destroy` calls go to the registry's `destroyed`.

Engine queries become parameters:

| Engine query | Parameter |
|---|---|
| `Time.time`, `Time.deltaTime` | `now`, `dt` |
| colliders from `Physics.OverlapSphere` | `collisions` |
| the rush raycast's hit point | `hit` |
| `PlayerController.CanAttack` | `canAttack` |
| the player's position and velocity | `player`, `playerVelocity` |
| the turret's planar distance to the player | `distance` |
| `Random.Range(0, 3)` | `choice` |

Coordinates and times are `real`. No square root or trigonometry is used:

- distances are compared through squared distances;
- a vector is normalised with its inverse length, which the caller supplies (`Geometry.IsInverseLength`);
- turret angles are kept as rational multiples of π.

## Model

| member | source | states |
|---|---|---|
| Geometry.WithinRangeIsDistanceBound | Assets/Scripts/Projectiles/ProjectileManager.cs:62 | the squared-distance range test holds exactly when the true distance is at most the range, in both directions |
| Geometry.NormalizedIsUnitAlong | Assets/Scripts/Player/PlayerAttackController.cs:168 | a normalised non-zero vector has unit length and points the same way as the original |
| ListOps.RemoveFirstAbsent | Assets/Scripts/Projectiles/ProjectileManager.cs:40 | `List.Remove` of an element that is not listed leaves the list unchanged |
| ListOps.RemoveFirstCutsFirstOccurrence | Assets/Scripts/Projectiles/ProjectileManager.cs:40 | `List.Remove` of a listed element cuts out exactly its first occurrence, keeping the order of the rest |
| ListOps.RemoveFirstMultiset | Assets/Scripts/Player/PlayerController.cs:40 | `List.Remove` takes away one copy of the element and nothing else |
| Projectiles.ReflectLeavesIneligibleAlone | Assets/Scripts/Projectiles/ProjectileManager.cs:62-63 | a bullet out of range, or already owned by the new owner, is left exactly as it was |
| Projectiles.ReflectedBulletTurnsAway | Assets/Scripts/Projectiles/ProjectileManager.cs:62-70 | a reflected bullet gets the new owner and becomes friendly; it faces horizontally away from the centre along `position - center` with y zeroed; position, speed and damage are unchanged |
| Projectiles.ReflectBoundaryInclusive | Assets/Scripts/Projectiles/ProjectileManager.cs:62 | a bullet at exactly `range` from the centre is reflected |
| Projectiles.ReflectIdempotent | Assets/Scripts/Projectiles/ProjectileManager.cs:62-70 | reflecting twice for the same owner gives the same result as reflecting once |
| Projectiles.ReflectAllIdempotent | Assets/Scripts/Projectiles/ProjectileManager.cs:55-74 | a second pass over the whole list for the same owner changes nothing |
| Projectiles.ReflectPingPong | Assets/Scripts/Projectiles/ProjectileManager.cs:55-74 | two attackers whose areas both cover a bullet take it from each other on every reflection |
| Projectiles.Bullet.Launch | Assets/Scripts/Projectiles/ProjectileManager.cs:32-33 | a new bullet is placed at the owner's position, belongs to the owner, is unfriendly, and faces along the launch direction on the ground plane |
| Projectiles.Bullet.ChangeOwner | Assets/Scripts/Projectiles/ProjectileManager.cs:69 | only the owner changes |
| Projectiles.ProjectileManager.constructor | Assets/Scripts/Projectiles/ProjectileManager.cs:18-22 | `Awake` starts with an empty bullet list |
| Projectiles.ProjectileManager.InstantiateProjectile | Assets/Scripts/Projectiles/ProjectileManager.cs:30-36 | exactly one bullet, the fresh one, is appended at the end of the list |
| Projectiles.ProjectileManager.CreateProjectile | Assets/Scripts/Projectiles/ProjectileManager.cs:24-27 | the same as `InstantiateProjectile`, with default speed 2 and damage 1 |
| Projectiles.ProjectileManager.DestroyBullet | Assets/Scripts/Projectiles/ProjectileManager.cs:38-42 | the list loses the bullet's first occurrence; the bullet is destroyed even when it was not listed |
| Projectiles.ProjectileManager.DespawnAllBullets | Assets/Scripts/Projectiles/ProjectileManager.cs:45-52 | every listed bullet is destroyed, last to first, and the list ends empty |
| Projectiles.ProjectileManager.ReflectAllProjectiles | Assets/Scripts/Projectiles/ProjectileManager.cs:55-74 | the list's length and order are unchanged; every listed bullet ends as `ReflectOne` of its earlier state, so the list's states are `ReflectAll` of the earlier ones |
| Interaction.FirstDoor | Assets/Scripts/Player/PlayerController.cs:53-54 | returns the index of the first door in list order, or none when no entry is a door |
| Interaction.NonNullMultiset | Assets/Scripts/Player/PlayerController.cs:66-67 | skipping null entries keeps every other entry as often as it is listed |
| Interaction.NonNullReverse | Assets/Scripts/Player/PlayerController.cs:63-68 | walking the list backwards and skipping nulls is the reverse of the non-null entries |
| Interaction.DispatchWithoutEntries | Assets/Scripts/Player/PlayerController.cs:48-49 | with no list, or an empty one, the button makes no `Interact` call |
| Interaction.DispatchDoorFirst | Assets/Scripts/Player/PlayerController.cs:53-60 | with a door in range, exactly one `Interact` call is made, on the first door |
| Interaction.DispatchWithoutDoor | Assets/Scripts/Player/PlayerController.cs:63-68 | with no door in range, every non-null entry is interacted with as often as it is listed, from the last to the first |
| Interaction.PlayerController.constructor | Assets/Scripts/Player/PlayerController.cs:11 | the in-range list starts as null and no call has been made |
| Interaction.PlayerController.OnEnterInteractRange | Assets/Scripts/Player/PlayerController.cs:29-36 | the list is created if it is null, then the entry is appended |
| Interaction.PlayerController.OnExitInteractRange | Assets/Scripts/Player/PlayerController.cs:38-41 | the first occurrence of the entry is removed |
| Interaction.PlayerController.OnInteractPressed | Assets/Scripts/Player/PlayerController.cs:46-69 | the calls made are `Dispatch` of the list, press and release alike; the list is unchanged |
| Turret.SpreadAnglesInDegrees | Assets/Scripts/Enemies/TurretEnemy.cs:63-67 | spread bolt i flies at 30° + 60°·i, inside (0°, 360°) |
| Turret.SpreadEvenlySpaced | Assets/Scripts/Enemies/TurretEnemy.cs:66 | neighbouring spread bolts are 60° apart, including across the wrap from the last to the first |
| Turret.CardinalAnglesInDegrees | Assets/Scripts/Enemies/TurretEnemy.cs:77-81 | cardinal bolt i flies at 90°·i |
| Turret.AimLeadsOnlyShortShots | Assets/Scripts/Enemies/TurretEnemy.cs:98-110 | the aim point leads the player by velocity × travel time exactly when the travel time is below 2; otherwise it is the player's position |
| Turret.NoLeadAtTravelTimeTwo | Assets/Scripts/Enemies/TurretEnemy.cs:105 | the bound is strict: at distance 20 and speed 10 there is no lead |
| Turret.VolleyShape | Assets/Scripts/Enemies/TurretEnemy.cs:56-122 | a volley is 6, 4 or 1 bolts of the turret, from its position, at its speed; each pattern bolt flies at its angle; the aimed bolt flies along aim point minus turret position |
| Turret.QuietUntilCooldownPassed | Assets/Scripts/Enemies/TurretEnemy.cs:33-54 | from a full timer, nothing fires while the elapsed time has not passed the cooldown, and the timer is the cooldown minus the elapsed time |
| Turret.FirstVolleyOnceCooldownPassed | Assets/Scripts/Enemies/TurretEnemy.cs:47-53 | the first volley comes on the first tick that takes the elapsed time strictly past the cooldown, and the timer is reset to the cooldown |
| Turret.TurretEnemy.Start | Assets/Scripts/Enemies/TurretEnemy.cs:24-30 | the timer starts at the cooldown; the attack type is drawn once from 0..2 |
| Turret.TurretEnemy.Update | Assets/Scripts/Enemies/TurretEnemy.cs:33-54 | the timer counts down by `dt`; when it drops below zero, one volley fires and the timer resets; the timer invariant is kept |
| Turret.TurretEnemy.DoAttack | Assets/Scripts/Enemies/TurretEnemy.cs:56-122 | the spawned bolts are exactly `Volley` of the turret's shape |
| PlayerAttack.FirstMatchFrom | Assets/Scripts/Player/PlayerAttackController.cs:271-280 | finds the first profile whose inclusive window contains the held time, or none when no window does |
| PlayerAttack.SelectProfile | Assets/Scripts/Player/PlayerAttackController.cs:265-284 | no profile is selected exactly when the held time is below the first profile's minimum; otherwise a valid index is selected |
| PlayerAttack.SelectsFirstMatch | Assets/Scripts/Player/PlayerAttackController.cs:271-280 | first match wins: the selection is the smallest index whose window contains the held time |
| PlayerAttack.FallsBackToLast | Assets/Scripts/Player/PlayerAttackController.cs:282-284 | when no window contains the held time, the last profile is selected |
| PlayerAttack.GapAndBoundarySelection | Assets/Scripts/Player/PlayerAttackController.cs:268-284 | a hold in a gap between windows selects the last profile; a hold on a shared boundary selects the earlier profile; a hold that is too short selects none |
| PlayerAttack.FindProfile | Assets/Scripts/Player/PlayerAttackController.cs:271-284 | the loop with early return and the fallback selects `SelectProfile` |
| PlayerAttack.StrikeHitsEveryOverlap | Assets/Scripts/Player/PlayerAttackController.cs:113-115 | each time an enemy is among the colliders, it is damaged once and its hit cooldown is started once |
| PlayerAttack.CollisionHitsOnce | Assets/Scripts/Player/PlayerAttackController.cs:196-218 | one collider damages enemy e and starts its cooldown once if it is e, and not at all otherwise |
| PlayerAttack.StrikeTouchesOnlyOverlaps | Assets/Scripts/Player/PlayerAttackController.cs:196-218 | a strike only damages and cools down enemies among the colliders, with the profile's damage and cooldown |
| PlayerAttack.RushStepApproaches | Assets/Scripts/Player/PlayerAttackController.cs:122-131 | a rush step never increases the distance to the rush point; a step that moves ends strictly closer |
| PlayerAttack.RushStepCanPassRushPoint | Assets/Scripts/Player/PlayerAttackController.cs:125-130 | the step is not clamped: from any position, rushing towards a point d ahead, a step longer than d and shorter than 2d is taken and ends past the rush point |
| PlayerAttack.AsWrittenInvertsImmunity | Assets/Scripts/Player/PlayerAttackController.cs:158-183 | `DoAttack` as written differs from the corrected one only in damage-taking: it copies the immunity flag, the corrected one negates it |
| PlayerAttack.ImmunityInvertedAsWritten | Assets/Scripts/Player/PlayerAttackController.cs:164 | as written, a profile with immunity leaves the player damageable and one without makes the player immune |
| PlayerAttack.ReleaseWithoutPressIgnored | Assets/Scripts/Player/PlayerAttackController.cs:246-248 | a release with no press before it changes nothing |
| PlayerAttack.OnlyPressIsGated | Assets/Scripts/Player/PlayerAttackController.cs:243-248 | a press while attacking is not allowed changes nothing; a release does the same whether or not attacking is allowed, and ends the charge |
| PlayerAttack.PressStartsCharge | Assets/Scripts/Player/PlayerAttackController.cs:252-261 | an allowed press records the start time, fills the drain timer and stops movement; no attack starts or stops |
| PlayerAttack.ReleaseTooEarly | Assets/Scripts/Player/PlayerAttackController.cs:262-269 | a release held for less than the first minimum only ends the charge and stops movement |
| PlayerAttack.ReleaseStartsSelectedProfile | Assets/Scripts/Player/PlayerAttackController.cs:262-285 | a long enough release starts the selected profile: its time, damage-taking by its immunity, rushing exactly for rush profiles with move input, a rush faces along the normalised ground-plane input, the rush point at the ray hit or `rushDistance` ahead, and the matching sound cue |
| PlayerAttack.ChargeTickDrains | Assets/Scripts/Player/PlayerAttackController.cs:84-98 | while charging, the multiplier is the charge multiplier; when the drain timer drops below zero, the player takes the tick damage and the timer is refilled; otherwise the timer counts down; when not charging, the multiplier is 1; a tick without a drain deals no self-damage |
| PlayerAttack.StrikeTick | Assets/Scripts/Player/PlayerAttackController.cs:110-134 | a tick with attack time left counts it down by `dt`, strikes every collider, and keeps the player from steering, without moving them farther from the rush point |
| PlayerAttack.AttackOverTick | Assets/Scripts/Player/PlayerAttackController.cs:135-144 | once the time has run out, the next tick ends the attack and the rush, and restores movement and damage-taking; it strikes nothing |
| PlayerAttack.IdleTick | Assets/Scripts/Player/PlayerAttackController.cs:100-107 | outside an attack, a tick lets the player move, even while charging; it strikes nothing and starts nothing |
| PlayerAttack.RushNeverRecedes | Assets/Scripts/Player/PlayerAttackController.cs:122-131 | no tick moves the player farther from the rush point, or moves the rush point |
| PlayerAttack.AttackEndsInTime | Assets/Scripts/Player/PlayerAttackController.cs:110-144 | an attack with at most n·dt left is over after n + 1 ticks, whatever the colliders |
| PlayerAttack.StaysIdle | Assets/Scripts/Player/PlayerAttackController.cs:78-146 | ticks alone never start an attack |
| PlayerAttack.StartedKeepsInv | Assets/Scripts/Player/PlayerAttackController.cs:158-175 | starting a profile keeps the controller invariant |
| PlayerAttack.PressedKeepsInv | Assets/Scripts/Player/PlayerAttackController.cs:240-288 | every press or release keeps the controller invariant |
| PlayerAttack.TickedKeepsInv | Assets/Scripts/Player/PlayerAttackController.cs:78-146 | every tick keeps the controller invariant |
| PlayerAttack.PlayerAttackController.constructor | Assets/Scripts/Player/PlayerAttackController.cs:40-63 | a fresh controller is idle, not charging, not rushing, and holds the all-zero profile; the invariant holds |
| PlayerAttack.PlayerAttackController.OnMoveChanged | Assets/Scripts/Player/PlayerAttackController.cs:290-293 | only the move input changes |
| PlayerAttack.PlayerAttackController.Update | Assets/Scripts/Player/PlayerAttackController.cs:78-146 | the new state is `Ticked`, and the invariant is kept; while an attack with time left runs, every listed bullet is reflected around the player for the player; the bullet list is unchanged |
| PlayerAttack.PlayerAttackController.Charge | Assets/Scripts/Player/PlayerAttackController.cs:84-98 | the new state is `ChargeTick` |
| PlayerAttack.PlayerAttackController.Strike | Assets/Scripts/Player/PlayerAttackController.cs:110-134 | every collider is struck, bullets are reflected, the time counts down and the rush steps |
| PlayerAttack.PlayerAttackController.HitAll | Assets/Scripts/Player/PlayerAttackController.cs:113-115 | the effects gain `StrikeEffects` of the colliders, in order |
| PlayerAttack.PlayerAttackController.DoAttack | Assets/Scripts/Player/PlayerAttackController.cs:158-183 | the new state is `Started` |
| PlayerAttack.PlayerAttackController.AimRush | Assets/Scripts/Player/PlayerAttackController.cs:166-179 | faces the player along the normalised input; aims at the ray hit, or `rushDistance` ahead; sets the rush speed |
| PlayerAttack.PlayerAttackController.OnAttackCollision | Assets/Scripts/Player/PlayerAttackController.cs:196-218 | an enemy collider is damaged and put on hit cooldown; anything else is ignored |
| PlayerAttack.PlayerAttackController.OnAttackPressed | Assets/Scripts/Player/PlayerAttackController.cs:240-288 | the new state is `Pressed`, and the invariant is kept |

Some comments and fields in the source suggest behaviour the code does not have. The model follows the code in every item below except the last, immunity:

- **Charge window upper bound.** At the upper end the loop skips a profile only when `endTime > chargeTimeMax` (PlayerAttackController.cs:275). The window is therefore inclusive at both ends (`PlayerAttack.InWindow`).
- **Fallback to the last profile.** The comment at PlayerAttackController.cs:282 speaks of holds "beyond the max". The fallback also catches a hold that falls in a gap between two windows (`PlayerAttack.GapAndBoundarySelection`).
- **Rush overshoot.** The comment at PlayerAttackController.cs:124 says to move until the rush point is reached. The code only refuses a step that does not end strictly closer, so a step may pass the point (`PlayerAttack.RushStepCanPassRushPoint`).
- **Hit cooldown.** `AttackData.enemyHitCooldown` (PlayerAttackController.cs:27) is passed on to `StartHitCooldown`, but the controller damages every reported enemy on every tick (`PlayerAttack.StrikeHitsEveryOverlap`). Whether `EnemyBase` ignores the damage is not part of this model.
- **`canReflect`.** `AttackData.canReflect` (PlayerAttackController.cs:28) is never read: every running attack reflects.
- **Immunity.** Line 164 copies `hasImmunity` into `canTakeDamage`. Here the model does not follow the code: the controller applies the corrected rule (see "## Findings").

## Left out

- Physics and engine queries are inputs to the model rather than modelled code:
  - `Physics.OverlapSphere` (the colliders of a tick);
  - `Physics.Raycast` (the rush hit point, already limited to `rushDistance`);
  - the player's `Rigidbody` velocity;
  - `Time.time` and `Time.deltaTime`;
  - `Random.Range`.
- Not modelled:
  - setting `Rigidbody.isKinematic`;
  - the turret-head rotation (TurretEnemy.cs:41-44);
  - particles (`TryCleanParticles`, `VFXManager.CreateVFX`, particle scale), including the division by `attackInfo[0].attackRadius` at PlayerAttackController.cs:192;
  - logging and editor gizmos.
- Sound cues are recorded as `Sound` effects only.
- Trigonometry and square roots are not computed:
  - turret angles stay symbolic (`Turret.ShotDirection.Angle`);
  - `.normalized` takes the inverse length as a caller-supplied argument;
  - the turret's `Vector2.Distance` is the parameter `distance`, tied to the squared planar distance.
- Floating-point rounding and overflow are not modelled: all arithmetic is on unbounded reals.
- `Bullet.LaunchBullet`, `Bullet.GetOwner`, `Bullet.ChangeOwner`, `Bullet.SpawnBullet`, `EnemyBase.DoDamage`, `EnemyBase.StartHitCooldown`, `PlayerHealth.DoDamage` and `Interact` are not part of this model.
  - `Projectiles.Bullet.Launch` assumes a launched bullet faces its direction on the ground plane and is unfriendly.
  - `Projectiles.Bullet.ChangeOwner` assumes the call only changes the owner.
  - `Projectiles.Bullet.GetOwner` assumes the call returns the owner last set by `LaunchBullet` or `ChangeOwner`.
  - The other calls appear as trace entries.
- Turret bolts spawned by `TurretEnemy.DoAttack` are recorded as `Shot` values rather than bullet objects. TurretEnemy.cs:56-122 makes no `ProjectileManager` call. The model assumes that `Bullet.SpawnBullet`, whose body is not part of this model, does not register the bullet either, so turret bolts are not in the registry's list.
- Projectiles.ReflectAllProjectiles stores the horizontal vector away from the centre unnormalised, where ProjectileManager.cs:68 assigns `newDirection.normalized`; only its direction matters to the properties.
- Projectiles.ReflectedBulletTurnsAway: for a bullet directly above or below the centre the horizontal vector is zero. Its "faces away" clause (`Dot >= 0`) then holds only vacuously, and the facing the engine would give such a bullet is not modelled.
- The player's position changes in this model only through the rush step; other movement belongs to `PlayerMovementController`, which is not part of this model.
- PlayerAttack.RushSpeed: when the attack time is 0, the float quotient `rushDistance / attackTime` is not finite. The model uses 0 instead, which is never used: such an attack ends on the next tick without a rush step.
- Turret.LeadTime: when the bullet speed is 0, the float quotient is infinite or NaN and fails the `< 2` test. The model gives no lead, which is the same outcome.
- Interaction.PlayerController.OnExitInteractRange requires the list to exist; the source would throw a null-reference exception otherwise.
- PlayerAttack.PlayerAttackController.constructor requires at least one attack profile; the source would throw an index exception on the first release otherwise.
- PlayerAttack.PlayerAttackController.DoAttack drops the unused `index` parameter of the source.
- PlayerAttack.PlayerAttackController.DoAttack sets damage-taking by the corrected rule (`!hasImmunity`), not the rule written at line 164 (`hasImmunity`). The as-written transition is `PlayerAttack.StartedAsWritten`, and `PlayerAttack.AsWrittenInvertsImmunity` states how it differs.
- PlayerAttack.PlayerAttackController.OnAttackPressed inherits the corrected immunity rule through `DoAttack`.
- PlayerAttack.ReleaseStartsSelectedProfile states `canTakeDamage == !hasImmunity`, the corrected rule, not the line-164 rule. `PlayerAttack.Inv`, `PlayerAttack.StartedKeepsInv`, `PlayerAttack.PressedKeepsInv` and `PlayerAttack.TickedKeepsInv` are proved about the corrected controller. With the rule as written, the invariant's damage-taking clause would hold with `hasImmunity` in place of `!hasImmunity`.
- Interaction.PlayerController.OnInteractPressed assumes `Interact` does not change the in-range list, for example by calling `OnEnterInteractRange` or `OnExitInteractRange`. The source loop (PlayerController.cs:63-68) re-reads the list at every index; an `Interact` that removes entries is not modelled.
- PlayerAttack.Inv, and the controller's `Valid()` built on it, assume `PlayerAttackController` is the only code that writes `PlayerHealth.canTakeDamage`, `PlayerMovementController.CanMove` and `Globals.MoveMultiplier`. In particular, the model assumes `PlayerHealth.DoDamage`, called on each RAM drain tick (PlayerAttackController.cs:93), leaves `canTakeDamage` alone. `PlayerHealth` is not part of this model, so the invariant's claims that the player cannot move and has the profile's damage-taking for the whole attack depend on this assumption. The same holds for "for the whole attack" in the immunity finding.
- PlayerAttack.PlayerAttackController.Update takes the player's identity as `config.self`, standing in for `gameObject`.
- Static events (`InputDelegator`) and singletons (`ProjectileManager._instance`) are replaced by direct method calls on the objects.

## Findings

| source | as written | input that shows it | evidently intended | confidence | as-written member | corrected member |
|---|---|---|---|---|---|---|
| Assets/Scripts/Player/PlayerAttackController.cs:164 | `PlayerHealth.canTakeDamage = attackData.hasImmunity`: the player can take damage exactly when the profile grants immunity | a profile with `hasImmunity = true` (documented at line 29 as "immunity to damage while using") leaves the player damageable for the whole attack, given the `PlayerAttack.Inv` assumption under "## Left out" | `canTakeDamage = !hasImmunity` | not executed | PlayerAttack.AsWrittenInvertsImmunity | PlayerAttack.ReleaseStartsSelectedProfile |
