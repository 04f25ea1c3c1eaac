/**
 * `PlayerAttackController`: the charge attack. Pressing the attack button
 * starts a charge; releasing it picks an attack profile by how long the
 * button was held; while the attack runs, each tick damages the enemies the
 * physics query reports, reflects nearby bullets and steps a rush movement;
 * when the attack time runs out, movement and damage-taking are restored.
 * While charging, the player is drained by periodic self-damage and moves
 * slower.
 */
module PlayerAttack {

  import opened Geometry
  import opened Options
  import opened Projectiles

  /** One attack profile, as configured in the editor. */
  datatype AttackData = AttackData(
    name: string,
    chargeTimeMin: real,
    chargeTimeMax: real,
    attackRadius: real,
    attackTime: real,
    attackDamage: int,
    enemyHitCooldown: real,
    canReflect: bool,
    hasImmunity: bool,
    isRushAttack: bool,
    rushDistance: real)

  /** The all-zero profile a fresh controller holds before its first attack. */
  const NoAttack := AttackData("", 0.0, 0.0, 0.0, 0.0, 0, 0.0, false, false, false, 0.0)

  // Profile selection
  //==========================================================================//

  /** The held time lies in the profile's window; both ends are inclusive. */
  predicate InWindow(d: AttackData, held: real) {
    d.chargeTimeMin <= held <= d.chargeTimeMax
  }

  /** The first profile at or after `from` whose window contains `held`. */
  function FirstMatchFrom(profiles: seq<AttackData>, held: real, from: nat): (r: Option<nat>)
    requires from <= |profiles|
    ensures r.Some? ==>
      && from <= r.value < |profiles| && InWindow(profiles[r.value], held)
      && forall j :: from <= j < r.value ==> !InWindow(profiles[j], held)
    ensures r.None? ==> forall j :: from <= j < |profiles| ==> !InWindow(profiles[j], held)
    decreases |profiles| - from
  {
    if from == |profiles| then None
    else if InWindow(profiles[from], held) then Some(from)
    else FirstMatchFrom(profiles, held, from + 1)
  }

  /**
   * The profile a release after `held` seconds starts: none when `held` is
   * below the first profile's minimum, else the first profile whose window
   * contains `held`, else the last profile.
   */
  function SelectProfile(profiles: seq<AttackData>, held: real): (r: Option<nat>)
    requires |profiles| > 0
    ensures r.None? <==> held < profiles[0].chargeTimeMin
    ensures r.Some? ==> r.value < |profiles|
  {
    if held < profiles[0].chargeTimeMin then None
    else match FirstMatchFrom(profiles, held, 0)
      case Some(i) => Some(i)
      case None => Some(|profiles| - 1)
  }

  /** First match wins: the selected profile is the smallest index whose window contains `held`. */
  lemma SelectsFirstMatch(profiles: seq<AttackData>, held: real, i: nat)
    requires |profiles| > 0 && profiles[0].chargeTimeMin <= held
    requires i < |profiles| && InWindow(profiles[i], held)
    requires forall j :: 0 <= j < i ==> !InWindow(profiles[j], held)
    ensures SelectProfile(profiles, held) == Some(i)
  {
    var r := FirstMatchFrom(profiles, held, 0);
    assert r.Some?;
    assert r.value == i;
  }

  /** When no window contains `held` (past the last maximum or in a gap), the last profile is used. */
  lemma FallsBackToLast(profiles: seq<AttackData>, held: real)
    requires |profiles| > 0 && profiles[0].chargeTimeMin <= held
    requires forall j :: 0 <= j < |profiles| ==> !InWindow(profiles[j], held)
    ensures SelectProfile(profiles, held) == Some(|profiles| - 1)
  {
  }

  /** Three profiles with a gap between the first two windows. */
  function GappedProfiles(): seq<AttackData>
  {
    [NoAttack.(name := "light", chargeTimeMin := 0.2, chargeTimeMax := 0.5),
     NoAttack.(name := "heavy", chargeTimeMin := 0.8, chargeTimeMax := 1.5),
     NoAttack.(name := "rush", chargeTimeMin := 1.5, chargeTimeMax := 3.0)]
  }

  /**
   * A hold that falls in the gap between two windows starts the last
   * profile, not a neighbouring one; a hold at a shared boundary goes to
   * the earlier profile, whose upper end is inclusive.
   */
  lemma GapAndBoundarySelection()
    ensures SelectProfile(GappedProfiles(), 0.6) == Some(2)
    ensures SelectProfile(GappedProfiles(), 1.5) == Some(1)
    ensures SelectProfile(GappedProfiles(), 0.1) == None
  {
    FallsBackToLast(GappedProfiles(), 0.6);
    SelectsFirstMatch(GappedProfiles(), 1.5, 1);
  }

  /** The profile search of a release: the loop with early return, then the fallback. */
  method FindProfile(attackInfo: seq<AttackData>, endTime: real) returns (index: nat)
    requires |attackInfo| > 0 && attackInfo[0].chargeTimeMin <= endTime
    ensures SelectProfile(attackInfo, endTime) == Some(index)
  {
    for i := 0 to |attackInfo|
      invariant forall j :: 0 <= j < i ==> !InWindow(attackInfo[j], endTime)
    {
      var attackData := attackInfo[i];
      if endTime < attackData.chargeTimeMin || endTime > attackData.chargeTimeMax {
        continue;
      }
      SelectsFirstMatch(attackInfo, endTime, i);
      return i;
    }
    FallsBackToLast(attackInfo, endTime);
    index := |attackInfo| - 1;
  }

  // Hits
  //==========================================================================//

  /** What a collider reported by the overlap query is. */
  datatype Collider =
    | EnemyCollider(enemy: nat)  // an `EnemyBase`
    | BulletCollider             // a `Bullet`; reflection is done by the registry instead
    | OtherHittable              // some other `ICanBeHit`
    | NotHittable                // no `ICanBeHit` component

  datatype Sfx = Charging | Attack | AttackCharged

  /** The calls the controller makes into code outside it, in order. */
  datatype Effect =
    | SelfDamage(amount: int, flag: bool)         // `PlayerHealth.DoDamage` and its second argument
    | EnemyDamage(enemy: nat, amount: int)        // `EnemyBase.DoDamage`
    | EnemyHitCooldown(enemy: nat, cooldown: real) // `EnemyBase.StartHitCooldown`
    | Sound(cue: Sfx)                             // `SFXController.PlaySound`

  /** `OnAttackCollision`: an enemy is damaged and put on hit cooldown; anything else is ignored. */
  function CollisionEffects(c: Collider, data: AttackData): seq<Effect>
  {
    match c
    case EnemyCollider(e) => [EnemyDamage(e, data.attackDamage), EnemyHitCooldown(e, data.enemyHitCooldown)]
    case _ => []
  }

  /** The effects of one strike tick: `OnAttackCollision` on every collider, in order. */
  function StrikeEffects(cs: seq<Collider>, data: AttackData): seq<Effect>
  {
    if cs == [] then []
    else StrikeEffects(cs[..|cs| - 1], data) + CollisionEffects(cs[|cs| - 1], data)
  }

  /**
   * Each time an enemy appears among the colliders it is damaged once and
   * its hit cooldown is started once: nothing here skips an enemy whose
   * cooldown is still running.
   */
  lemma {:induction false} StrikeHitsEveryOverlap(cs: seq<Collider>, data: AttackData, e: nat)
    ensures multiset(StrikeEffects(cs, data))[EnemyDamage(e, data.attackDamage)] == multiset(cs)[EnemyCollider(e)]
    ensures multiset(StrikeEffects(cs, data))[EnemyHitCooldown(e, data.enemyHitCooldown)] == multiset(cs)[EnemyCollider(e)]
  {
    if cs != [] {
      var init, last := cs[..|cs| - 1], cs[|cs| - 1];
      assert multiset(cs) == multiset(init) + multiset{last} by {
        assert cs == init + [last];
      }
      assert multiset(StrikeEffects(cs, data)) == multiset(StrikeEffects(init, data)) + multiset(CollisionEffects(last, data));
      StrikeHitsEveryOverlap(init, data, e);
      CollisionHitsOnce(last, data, e);
    }
  }

  /** One collider damages and cools down enemy `e` once if it is `e`, and not at all otherwise. */
  lemma CollisionHitsOnce(c: Collider, data: AttackData, e: nat)
    ensures multiset(CollisionEffects(c, data))[EnemyDamage(e, data.attackDamage)] == multiset{c}[EnemyCollider(e)]
    ensures multiset(CollisionEffects(c, data))[EnemyHitCooldown(e, data.enemyHitCooldown)] == multiset{c}[EnemyCollider(e)]
  {
    if c == EnemyCollider(e) {
      assert multiset(CollisionEffects(c, data)) == multiset{EnemyDamage(e, data.attackDamage), EnemyHitCooldown(e, data.enemyHitCooldown)};
    } else if c.EnemyCollider? {
      assert multiset(CollisionEffects(c, data)) == multiset{EnemyDamage(c.enemy, data.attackDamage), EnemyHitCooldown(c.enemy, data.enemyHitCooldown)};
    }
  }

  /** A strike affects only enemies among the colliders, with the profile's damage and cooldown. */
  lemma {:induction false} StrikeTouchesOnlyOverlaps(cs: seq<Collider>, data: AttackData)
    ensures forall x :: x in StrikeEffects(cs, data) ==>
      || (x.EnemyDamage? && x.amount == data.attackDamage && EnemyCollider(x.enemy) in cs)
      || (x.EnemyHitCooldown? && x.cooldown == data.enemyHitCooldown && EnemyCollider(x.enemy) in cs)
  {
    if cs != [] {
      var init := cs[..|cs| - 1];
      StrikeTouchesOnlyOverlaps(init, data);
      assert cs == init + [cs[|cs| - 1]];
    }
  }

  // Rush movement
  //==========================================================================//

  /**
   * One rush step: advance along `forward` by `rushSpeed * dt`, but only if
   * that ends strictly closer to the rush point.
   */
  function RushStep(position: Vec3, forward: Vec3, rushPoint: Vec3, rushSpeed: real, dt: real): Vec3
  {
    var newPos := Add(position, Scale(rushSpeed * dt, forward));
    if SqrDistance(rushPoint, newPos) < SqrDistance(rushPoint, position) then newPos else position
  }

  /** A rush step never increases the distance to the rush point, and a step that moves ends strictly closer. */
  lemma RushStepApproaches(position: Vec3, forward: Vec3, rushPoint: Vec3, rushSpeed: real, dt: real)
    ensures var r := RushStep(position, forward, rushPoint, rushSpeed, dt);
      && SqrDistance(rushPoint, r) <= SqrDistance(rushPoint, position)
      && (r != position ==> SqrDistance(rushPoint, r) < SqrDistance(rushPoint, position))
  {
  }

  /**
   * The step is not clamped at the rush point: facing along x towards a
   * point `d` ahead, a step longer than `d` but shorter than `2d` lands
   * closer than it started, so it is taken and ends past the rush point.
   */
  lemma RushStepCanPassRushPoint(position: Vec3, d: real, step: real)
    requires 0.0 < d < step < 2.0 * d
    ensures var rushPoint := Add(position, Vec3(d, 0.0, 0.0));
      var r := RushStep(position, Vec3(1.0, 0.0, 0.0), rushPoint, step, 1.0);
      r == Add(position, Vec3(step, 0.0, 0.0)) && r.x > rushPoint.x
  {
    var rushPoint := Add(position, Vec3(d, 0.0, 0.0));
    var newPos := Add(position, Scale(step * 1.0, Vec3(1.0, 0.0, 0.0)));
    assert newPos == Add(position, Vec3(step, 0.0, 0.0));
    assert Sub(rushPoint, newPos) == Vec3(d - step, 0.0, 0.0);
    assert Sub(rushPoint, position) == Vec3(d, 0.0, 0.0);
    ProductOfPositives(step, 2.0 * d - step);
    assert (d - step) * (d - step) == d * d - step * (2.0 * d - step);
    assert SqrDistance(rushPoint, newPos) == (d - step) * (d - step);
    assert SqrDistance(rushPoint, position) == d * d;
    assert SqrDistance(rushPoint, newPos) < SqrDistance(rushPoint, position);
  }

  /** Where a rush aims: `rushDistance` ahead, unless the ray hit something first. */
  function RushTarget(position: Vec3, forward: Vec3, rushDistance: real, hit: Option<Vec3>): Vec3
  {
    match hit
    case Some(p) => p
    case None => Add(position, Scale(rushDistance, forward))
  }

  /**
   * `rushDistance / attackTime`. For a zero attack time the float quotient
   * is not finite; it is never used then, since the attack ends on the next
   * tick without a rush step, and 0 stands in for it.
   */
  function RushSpeed(data: AttackData): real
  {
    if data.attackTime == 0.0 then 0.0 else data.rushDistance / data.attackTime
  }

  /** The move input is long enough to rush (squared magnitude above 0.001). */
  predicate RushInput(input: Vec2) {
    SqrMagnitude2(input) > 0.001
  }

  /** `invLen` is 1 / |input| whenever the input is long enough to rush along. */
  predicate InverseInputLength(input: Vec2, invLen: real) {
    RushInput(input) ==> IsInverseLength(Ground(input), invLen)
  }

  // Damage immunity
  //==========================================================================//

  /** Whether the player can take damage during an attack, as line 164 sets it: the profile's flag copied. */
  function DamageableAsWritten(data: AttackData): bool {
    data.hasImmunity
  }

  /** A profile that promises immunity leaves the player damageable as written, and vice versa. */
  lemma ImmunityInvertedAsWritten()
    ensures DamageableAsWritten(NoAttack.(hasImmunity := true))
    ensures !DamageableAsWritten(NoAttack.(hasImmunity := false))
  {
  }

  /** Whether the player can take damage during an attack: exactly when the profile grants no immunity. */
  function DamageableDuringAttack(data: AttackData): bool {
    !data.hasImmunity
  }

  // Controller state and its transitions
  //==========================================================================//

  /** The serialised settings of a controller, and the player's own identity. */
  datatype AttackConfig = AttackConfig(
    attackInfo: seq<AttackData>,
    ramDrainInterval: real,
    ramDrainTickDamage: int,
    chargeMoveMultiplier: real,
    self: OwnerId)

  /**
   * Every field the controller changes, including the shared flags
   * `canMove` (`PlayerMovementController.CanMove`), `canTakeDamage`
   * (`PlayerHealth.canTakeDamage`) and `moveMultiplier`
   * (`Globals.MoveMultiplier`), and the player's transform.
   */
  datatype AttackState = AttackState(
    inputData: Vec2,
    isRushing: bool,
    pressStartTime: real,
    isPressed: bool,
    attackTimeLeft: real,
    isAttacking: bool,
    currentAttack: AttackData,
    rushPoint: Vec3,
    rushSpeed: real,
    ramDrainTimer: real,
    position: Vec3,
    forward: Vec3,
    canMove: bool,
    canTakeDamage: bool,
    moveMultiplier: real,
    effects: seq<Effect>)

  /**
   * The controller invariant: there is a profile to select; a rush only runs
   * during an attack, along a unit facing; a running attack is one of the
   * profiles, has no more time left than the profile lasts, keeps the player
   * from steering and sets damage-taking by the profile's immunity; a
   * running charge never has more drain time left than the interval.
   */
  ghost predicate Inv(cfg: AttackConfig, s: AttackState) {
    && |cfg.attackInfo| > 0
    && (s.isRushing ==> s.isAttacking && SqrMagnitude(s.forward) == 1.0)
    && (s.isAttacking ==>
          && s.currentAttack in cfg.attackInfo
          && s.attackTimeLeft <= s.currentAttack.attackTime
          && !s.canMove
          && s.canTakeDamage == DamageableDuringAttack(s.currentAttack))
    && (s.isPressed ==> s.ramDrainTimer <= cfg.ramDrainInterval)
  }

  /** `DoAttack`: the state once profile `data` starts. */
  function Started(s: AttackState, data: AttackData, hit: Option<Vec3>, invLen: real): AttackState
    requires InverseInputLength(s.inputData, invLen)
  {
    var rushing := data.isRushAttack && RushInput(s.inputData);
    var begun := s.(isAttacking := true, attackTimeLeft := data.attackTime, currentAttack := data,
                    canTakeDamage := DamageableDuringAttack(data), isRushing := rushing);
    if rushing then
      var facing := Normalized(Ground(s.inputData), invLen);
      begun.(forward := facing, rushPoint := RushTarget(s.position, facing, data.rushDistance, hit),
             rushSpeed := RushSpeed(data), effects := s.effects + [Sound(AttackCharged)])
    else
      begun.(effects := s.effects + [Sound(Attack)])
  }

  /**
   * `DoAttack` exactly as line 164 writes it: as `Started`, except that
   * damage-taking copies the profile's immunity flag.
   */
  function StartedAsWritten(s: AttackState, data: AttackData, hit: Option<Vec3>, invLen: real): AttackState
    requires InverseInputLength(s.inputData, invLen)
  {
    Started(s, data, hit, invLen).(canTakeDamage := DamageableAsWritten(data))
  }

  /**
   * The two differ only in damage-taking, and oppositely: as written, an
   * attack whose profile promises immunity leaves the player damageable,
   * and one without immunity makes the player immune.
   */
  lemma AsWrittenInvertsImmunity(s: AttackState, data: AttackData, hit: Option<Vec3>, invLen: real)
    requires InverseInputLength(s.inputData, invLen)
    ensures StartedAsWritten(s, data, hit, invLen).canTakeDamage == data.hasImmunity
    ensures Started(s, data, hit, invLen).canTakeDamage == !data.hasImmunity
    ensures StartedAsWritten(s, data, hit, invLen)
         == Started(s, data, hit, invLen).(canTakeDamage := !Started(s, data, hit, invLen).canTakeDamage)
  {
  }

  /** `OnAttackPressed`: the state after a press (`isPressed`) or a release at time `now`. */
  function Pressed(cfg: AttackConfig, s: AttackState, isPressed: bool, canAttack: bool, now: real,
                   hit: Option<Vec3>, invLen: real): AttackState
    requires |cfg.attackInfo| > 0 && InverseInputLength(s.inputData, invLen)
  {
    if !canAttack && isPressed then s
    else if !s.isPressed && !isPressed then s
    else if isPressed then
      s.(isPressed := true, effects := s.effects + [Sound(Charging)], canMove := false,
         pressStartTime := now, ramDrainTimer := cfg.ramDrainInterval)
    else
      var released := s.(isPressed := false, canMove := false);
      match SelectProfile(cfg.attackInfo, now - s.pressStartTime)
      case None => released
      case Some(i) => Started(released, cfg.attackInfo[i], hit, invLen)
  }

  /** The charging part of `Update`: move multiplier and RAM drain. */
  function ChargeTick(cfg: AttackConfig, s: AttackState, dt: real): AttackState
  {
    if s.isPressed then
      if s.ramDrainTimer - dt < 0.0 then
        s.(moveMultiplier := cfg.chargeMoveMultiplier, ramDrainTimer := cfg.ramDrainInterval,
           effects := s.effects + [SelfDamage(cfg.ramDrainTickDamage, false)])
      else
        s.(moveMultiplier := cfg.chargeMoveMultiplier, ramDrainTimer := s.ramDrainTimer - dt)
    else s.(moveMultiplier := 1.0)
  }

  /**
   * `Update` with frame time `dt` and the colliders the overlap query
   * reports; the bullet reflection it also performs is stated on the method.
   */
  function Ticked(cfg: AttackConfig, s: AttackState, dt: real, collisions: seq<Collider>): AttackState
  {
    var c := ChargeTick(cfg, s, dt);
    if !c.isAttacking then c.(canMove := true)
    else if c.attackTimeLeft > 0.0 then
      c.(canMove := false,
         effects := c.effects + StrikeEffects(collisions, c.currentAttack),
         attackTimeLeft := c.attackTimeLeft - dt,
         position := if c.isRushing then RushStep(c.position, c.forward, c.rushPoint, c.rushSpeed, dt) else c.position)
    else c.(isAttacking := false, isRushing := false, canTakeDamage := true, canMove := true)
  }

  // Properties of the transitions
  //==========================================================================//

  /** A release with no press before it is ignored, whether or not attacking is allowed. */
  lemma ReleaseWithoutPressIgnored(cfg: AttackConfig, s: AttackState, canAttack: bool, now: real,
                                   hit: Option<Vec3>, invLen: real)
    requires |cfg.attackInfo| > 0 && InverseInputLength(s.inputData, invLen) && !s.isPressed
    ensures Pressed(cfg, s, false, canAttack, now, hit, invLen) == s
  {
  }

  /** A press is ignored while attacking is not allowed; a release is handled regardless. */
  lemma OnlyPressIsGated(cfg: AttackConfig, s: AttackState, now: real, hit: Option<Vec3>, invLen: real)
    requires |cfg.attackInfo| > 0 && InverseInputLength(s.inputData, invLen)
    ensures Pressed(cfg, s, true, false, now, hit, invLen) == s
    ensures s.isPressed ==> !Pressed(cfg, s, false, false, now, hit, invLen).isPressed
    ensures Pressed(cfg, s, false, false, now, hit, invLen) == Pressed(cfg, s, false, true, now, hit, invLen)
  {
  }

  /** An allowed press starts a charge at `now` with a full drain timer; no attack starts or stops. */
  lemma PressStartsCharge(cfg: AttackConfig, s: AttackState, now: real, hit: Option<Vec3>, invLen: real)
    requires |cfg.attackInfo| > 0 && InverseInputLength(s.inputData, invLen)
    ensures var r := Pressed(cfg, s, true, true, now, hit, invLen);
      && r.isPressed && r.pressStartTime == now && r.ramDrainTimer == cfg.ramDrainInterval && !r.canMove
      && r.isAttacking == s.isAttacking && r.currentAttack == s.currentAttack && r.attackTimeLeft == s.attackTimeLeft
  {
  }

  /** A release held for less than the first profile's minimum ends the charge and starts no attack. */
  lemma ReleaseTooEarly(cfg: AttackConfig, s: AttackState, canAttack: bool, now: real,
                        hit: Option<Vec3>, invLen: real)
    requires |cfg.attackInfo| > 0 && InverseInputLength(s.inputData, invLen)
    requires s.isPressed && now - s.pressStartTime < cfg.attackInfo[0].chargeTimeMin
    ensures Pressed(cfg, s, false, canAttack, now, hit, invLen) == s.(isPressed := false, canMove := false)
  {
  }

  /**
   * A release held long enough starts the selected profile: the attack runs
   * for the profile's time, sets damage-taking by its immunity, and rushes
   * exactly when the profile is a rush attack and there is move input; a
   * rush faces along the input and aims at the ray hit or `rushDistance` ahead.
   */
  lemma ReleaseStartsSelectedProfile(cfg: AttackConfig, s: AttackState, canAttack: bool, now: real,
                                     hit: Option<Vec3>, invLen: real)
    requires |cfg.attackInfo| > 0 && InverseInputLength(s.inputData, invLen)
    requires s.isPressed && cfg.attackInfo[0].chargeTimeMin <= now - s.pressStartTime
    ensures var i := SelectProfile(cfg.attackInfo, now - s.pressStartTime).value;
      var data := cfg.attackInfo[i];
      var r := Pressed(cfg, s, false, canAttack, now, hit, invLen);
      && !r.isPressed && r.isAttacking && r.currentAttack == data && r.attackTimeLeft == data.attackTime
      && r.canTakeDamage == !data.hasImmunity && !r.canMove
      && r.isRushing == (data.isRushAttack && SqrMagnitude2(s.inputData) > 0.001)
      && (r.isRushing ==>
            && SqrMagnitude(r.forward) == 1.0 && r.forward.y == 0.0
            && r.forward == Normalized(Ground(s.inputData), invLen)
            && (hit.Some? ==> r.rushPoint == hit.value)
            && (hit.None? ==> r.rushPoint == Add(s.position, Scale(data.rushDistance, r.forward))))
      && r.effects == s.effects + [Sound(if r.isRushing then AttackCharged else Attack)]
  {
  }

  /**
   * While charging the move multiplier is the charge multiplier, otherwise 1;
   * a drain tick deals damage and refills the timer, and no other tick deals
   * self-damage.
   */
  lemma ChargeTickDrains(cfg: AttackConfig, s: AttackState, dt: real, collisions: seq<Collider>)
    ensures var r := Ticked(cfg, s, dt, collisions);
      && r.moveMultiplier == (if s.isPressed then cfg.chargeMoveMultiplier else 1.0)
      && (s.isPressed && s.ramDrainTimer - dt < 0.0 ==>
            r.ramDrainTimer == cfg.ramDrainInterval
            && r.effects[..|s.effects| + 1] == s.effects + [SelfDamage(cfg.ramDrainTickDamage, false)])
      && (s.isPressed && s.ramDrainTimer - dt >= 0.0 ==> r.ramDrainTimer == s.ramDrainTimer - dt)
      && (!s.isPressed ==> r.ramDrainTimer == s.ramDrainTimer)
      && |s.effects| <= |r.effects|
      && (!(s.isPressed && s.ramDrainTimer - dt < 0.0) ==> SelfDamage(cfg.ramDrainTickDamage, false) !in r.effects[|s.effects|..])
  {
    if s.isAttacking && s.attackTimeLeft > 0.0 {
      StrikeTouchesOnlyOverlaps(collisions, s.currentAttack);
      if !(s.isPressed && s.ramDrainTimer - dt < 0.0) {
        var r := Ticked(cfg, s, dt, collisions);
        assert r.effects[|s.effects|..] == StrikeEffects(collisions, s.currentAttack);
      }
    }
  }

  /**
   * A tick of a running attack with time left counts the time down by `dt`,
   * strikes every collider, keeps the player from steering, and never moves
   * the player farther from the rush point.
   */
  lemma StrikeTick(cfg: AttackConfig, s: AttackState, dt: real, collisions: seq<Collider>)
    requires s.isAttacking && s.attackTimeLeft > 0.0
    ensures var r := Ticked(cfg, s, dt, collisions);
      && r.isAttacking && r.attackTimeLeft == s.attackTimeLeft - dt && !r.canMove
      && r.currentAttack == s.currentAttack && r.rushPoint == s.rushPoint
      && r.effects == ChargeTick(cfg, s, dt).effects + StrikeEffects(collisions, s.currentAttack)
      && SqrDistance(r.rushPoint, r.position) <= SqrDistance(s.rushPoint, s.position)
  {
    RushStepApproaches(s.position, s.forward, s.rushPoint, s.rushSpeed, dt);
  }

  /**
   * The tick after the attack time has run out ends the attack, strikes
   * nothing, and restores movement and damage-taking.
   */
  lemma AttackOverTick(cfg: AttackConfig, s: AttackState, dt: real, collisions: seq<Collider>)
    requires s.isAttacking && s.attackTimeLeft <= 0.0
    ensures var r := Ticked(cfg, s, dt, collisions);
      && !r.isAttacking && !r.isRushing && r.canTakeDamage && r.canMove && r.position == s.position
      && r.effects == ChargeTick(cfg, s, dt).effects
  {
  }

  /** Outside an attack a tick lets the player move, even while charging, strikes nothing and starts nothing. */
  lemma IdleTick(cfg: AttackConfig, s: AttackState, dt: real, collisions: seq<Collider>)
    requires !s.isAttacking
    ensures var r := Ticked(cfg, s, dt, collisions);
      && !r.isAttacking && r.canMove && r.position == s.position && r.isPressed == s.isPressed
      && r.effects == ChargeTick(cfg, s, dt).effects
  {
  }

  /** No tick ever moves the player farther from the rush point. */
  lemma RushNeverRecedes(cfg: AttackConfig, s: AttackState, dt: real, collisions: seq<Collider>)
    ensures var r := Ticked(cfg, s, dt, collisions);
      r.rushPoint == s.rushPoint && SqrDistance(r.rushPoint, r.position) <= SqrDistance(s.rushPoint, s.position)
  {
    RushStepApproaches(s.position, s.forward, s.rushPoint, s.rushSpeed, dt);
  }

  /** The state after one tick per entry of `frames`, each entry the colliders of that frame. */
  function RunTicks(cfg: AttackConfig, s: AttackState, dt: real, frames: seq<seq<Collider>>): AttackState
    decreases |frames|
  {
    if frames == [] then s else RunTicks(cfg, Ticked(cfg, s, dt, frames[0]), dt, frames[1..])
  }

  /**
   * An attack ends on time: with a positive frame time, an attack with at
   * most n·dt left is over after n + 1 ticks, whatever the colliders.
   */
  lemma {:induction false} AttackEndsInTime(cfg: AttackConfig, s: AttackState, dt: real, frames: seq<seq<Collider>>)
    requires 0.0 < dt && |frames| > 0 && s.attackTimeLeft <= ((|frames| - 1) as real) * dt
    ensures !RunTicks(cfg, s, dt, frames).isAttacking
    decreases |frames|
  {
    var r := Ticked(cfg, s, dt, frames[0]);
    if !s.isAttacking || s.attackTimeLeft <= 0.0 {
      StaysIdle(cfg, r, dt, frames[1..]);
    } else {
      assert |frames| > 1;
      assert ((|frames| - 2) as real) * dt == ((|frames| - 1) as real) * dt - dt;
      AttackEndsInTime(cfg, r, dt, frames[1..]);
    }
  }

  /** Ticks alone never start an attack. */
  lemma {:induction false} StaysIdle(cfg: AttackConfig, s: AttackState, dt: real, frames: seq<seq<Collider>>)
    requires !s.isAttacking
    ensures !RunTicks(cfg, s, dt, frames).isAttacking
    decreases |frames|
  {
    if frames != [] {
      StaysIdle(cfg, Ticked(cfg, s, dt, frames[0]), dt, frames[1..]);
    }
  }

  /** A started attack satisfies the invariant. */
  lemma StartedKeepsInv(cfg: AttackConfig, s: AttackState, i: nat, hit: Option<Vec3>, invLen: real)
    requires Inv(cfg, s) && i < |cfg.attackInfo| && InverseInputLength(s.inputData, invLen)
    requires !s.canMove
    ensures Inv(cfg, Started(s, cfg.attackInfo[i], hit, invLen))
  {
  }

  /** Every press or release keeps the invariant. */
  lemma PressedKeepsInv(cfg: AttackConfig, s: AttackState, isPressed: bool, canAttack: bool, now: real,
                        hit: Option<Vec3>, invLen: real)
    requires Inv(cfg, s) && InverseInputLength(s.inputData, invLen)
    ensures Inv(cfg, Pressed(cfg, s, isPressed, canAttack, now, hit, invLen))
  {
    if s.isPressed && !isPressed {
      var released := s.(isPressed := false, canMove := false);
      match SelectProfile(cfg.attackInfo, now - s.pressStartTime)
      case None =>
      case Some(i) => StartedKeepsInv(cfg, released, i, hit, invLen);
    }
  }

  /** Every tick with a non-negative frame time keeps the invariant. */
  lemma TickedKeepsInv(cfg: AttackConfig, s: AttackState, dt: real, collisions: seq<Collider>)
    requires Inv(cfg, s) && 0.0 <= dt
    ensures Inv(cfg, Ticked(cfg, s, dt, collisions))
  {
  }

  // The component
  //==========================================================================//

  class PlayerAttackController {
    const config: AttackConfig

    var inputData: Vec2
    var isRushing: bool
    var pressStartTime: real
    var isPressed: bool
    var attackTimeLeft: real
    var isAttacking: bool
    var currentAttack: AttackData
    var rushPoint: Vec3
    var rushSpeed: real
    var ramDrainTimer: real
    var position: Vec3
    var forward: Vec3
    var canMove: bool
    var canTakeDamage: bool
    var moveMultiplier: real
    var effects: seq<Effect>

    function State(): AttackState
      reads this
    {
      AttackState(inputData, isRushing, pressStartTime, isPressed, attackTimeLeft, isAttacking,
                  currentAttack, rushPoint, rushSpeed, ramDrainTimer, position, forward,
                  canMove, canTakeDamage, moveMultiplier, effects)
    }

    ghost predicate Valid()
      reads this
    {
      Inv(config, State())
    }

    /**
     * A controller at rest at `position`, facing `forward`. `canTakeDamage`
     * and `moveMultiplier` are the shared flags' values at that moment;
     * `CanMove` starts true.
     */
    constructor (config: AttackConfig, position: Vec3, forward: Vec3, canTakeDamage: bool, moveMultiplier: real)
      requires |config.attackInfo| > 0
      ensures Valid() && this.config == config
      ensures State() == AttackState(Vec2(0.0, 0.0), false, 0.0, false, 0.0, false, NoAttack,
                                     Vec3(0.0, 0.0, 0.0), 0.0, 0.0, position, forward,
                                     true, canTakeDamage, moveMultiplier, [])
    {
      this.config := config;
      inputData := Vec2(0.0, 0.0);
      isRushing := false;
      pressStartTime := 0.0;
      isPressed := false;
      attackTimeLeft := 0.0;
      isAttacking := false;
      currentAttack := NoAttack;
      rushPoint := Vec3(0.0, 0.0, 0.0);
      rushSpeed := 0.0;
      ramDrainTimer := 0.0;
      this.position := position;
      this.forward := forward;
      canMove := true;
      this.canTakeDamage := canTakeDamage;
      this.moveMultiplier := moveMultiplier;
      effects := [];
    }

    /** `OnMoveChanged`: records the move input. */
    method OnMoveChanged(x: real, y: real)
      requires Valid()
      modifies this
      ensures Valid() && State() == old(State()).(inputData := Vec2(x, y))
    {
      inputData := Vec2(x, y);
    }

    /**
     * `Update` for a frame of `dt` seconds. `collisions` is what the overlap
     * query around the player reports; `pm` is the projectile registry.
     */
    method Update(dt: real, collisions: seq<Collider>, pm: ProjectileManager)
      requires Valid() && 0.0 <= dt
      modifies this, set b | b in pm.bulletList
      ensures Valid() && State() == Ticked(config, old(State()), dt, collisions)
      ensures pm.bulletList == old(pm.bulletList)
      ensures forall b :: b in pm.bulletList ==>
        b.State() == if old(isAttacking) && old(attackTimeLeft) > 0.0
                     then ReflectOne(old(b.State()), old(position), old(currentAttack.attackRadius), config.self)
                     else old(b.State())
    {
      ghost var s0 := State();
      TickedKeepsInv(config, s0, dt, collisions);
      Charge(dt);
      if !isAttacking {
        canMove := true;
        return;
      }
      if attackTimeLeft > 0.0 {
        Strike(dt, collisions, pm);
      } else {
        isAttacking := false;
        isRushing := false;
        canTakeDamage := true;
        canMove := true;
      }
    }

    /** The charge part of `Update`: the move slowdown and the drain while the button is held. */
    method Charge(dt: real)
      modifies this
      ensures State() == ChargeTick(config, old(State()), dt)
    {
      if isPressed {
        moveMultiplier := config.chargeMoveMultiplier;
        ramDrainTimer := ramDrainTimer - dt;
        if ramDrainTimer < 0.0 {
          effects := effects + [SelfDamage(config.ramDrainTickDamage, false)];
          ramDrainTimer := config.ramDrainInterval;
        }
      } else {
        moveMultiplier := 1.0;
      }
    }

    /** The strike part of `Update`: hits, reflection, the timer and the rush step. */
    method Strike(dt: real, collisions: seq<Collider>, pm: ProjectileManager)
      modifies this, set b | b in pm.bulletList
      ensures State() == old(State()).(canMove := false,
                                       effects := old(effects) + StrikeEffects(collisions, old(currentAttack)),
                                       attackTimeLeft := old(attackTimeLeft) - dt,
                                       position := if old(isRushing)
                                                   then RushStep(old(position), old(forward), old(rushPoint), old(rushSpeed), dt)
                                                   else old(position))
      ensures pm.bulletList == old(pm.bulletList)
      ensures forall b :: b in pm.bulletList ==>
        b.State() == ReflectOne(old(b.State()), old(position), old(currentAttack.attackRadius), config.self)
    {
      canMove := false;
      HitAll(collisions);
      pm.ReflectAllProjectiles(position, currentAttack.attackRadius, config.self);

      attackTimeLeft := attackTimeLeft - dt;
      if isRushing {
        position := RushStep(position, forward, rushPoint, rushSpeed, dt);
      }
    }

    /** `DoAttack`: starts profile `data`; `hit` is the rush raycast's hit point, `invLen` 1 / |move input|. */
    method DoAttack(data: AttackData, hit: Option<Vec3>, invLen: real)
      requires InverseInputLength(inputData, invLen)
      modifies this
      ensures State() == Started(old(State()), data, hit, invLen)
    {
      isAttacking := true;
      attackTimeLeft := data.attackTime;
      currentAttack := data;
      canTakeDamage := DamageableDuringAttack(data);
      isRushing := data.isRushAttack && SqrMagnitude2(inputData) > 0.001;
      if isRushing {
        AimRush(data.rushDistance, RushSpeed(data), hit, invLen);
      } else {
        effects := effects + [Sound(Attack)];
      }
    }

    /** The rush set-up of `DoAttack`: face the move input and pick the rush point. */
    method AimRush(rushDistance: real, speed: real, hit: Option<Vec3>, invLen: real)
      requires IsInverseLength(Ground(inputData), invLen)
      modifies this
      ensures var facing := Normalized(Ground(old(inputData)), invLen);
        State() == old(State()).(forward := facing, rushPoint := RushTarget(old(position), facing, rushDistance, hit),
                                 rushSpeed := speed, effects := old(effects) + [Sound(AttackCharged)])
    {
      forward := Normalized(Ground(inputData), invLen);
      rushPoint := Add(position, Scale(rushDistance, forward));
      rushSpeed := speed;
      if hit.Some? {
        rushPoint := hit.value;
      }
      effects := effects + [Sound(AttackCharged)];
    }

    /** The overlap loop of a strike: `OnAttackCollision` on every collider, in order. */
    method HitAll(collisions: seq<Collider>)
      modifies this
      ensures State() == old(State()).(effects := old(effects) + StrikeEffects(collisions, currentAttack))
    {
      for k := 0 to |collisions|
        invariant State() == old(State()).(effects := old(effects) + StrikeEffects(collisions[..k], currentAttack))
      {
        assert collisions[..k + 1][..k] == collisions[..k];
        OnAttackCollision(collisions[k], currentAttack);
      }
      assert collisions[..|collisions|] == collisions;
    }

    /** `OnAttackCollision`: the calls one collider of a strike causes. */
    method OnAttackCollision(collider: Collider, data: AttackData)
      modifies this
      ensures State() == old(State()).(effects := old(effects) + CollisionEffects(collider, data))
    {
      match collider {
        case EnemyCollider(e) =>
          effects := effects + [EnemyDamage(e, data.attackDamage), EnemyHitCooldown(e, data.enemyHitCooldown)];
        case BulletCollider =>
        case _ =>
          return;
      }
    }

    /**
     * `OnAttackPressed`: a press (`isPressed`) or release at time `now`.
     * `canAttack` is `PlayerController.CanAttack`; `hit` and `invLen` serve
     * a rush the release may start.
     */
    method OnAttackPressed(isPressed: bool, canAttack: bool, now: real, hit: Option<Vec3>, invLen: real)
      requires Valid() && InverseInputLength(inputData, invLen)
      modifies this
      ensures Valid() && State() == Pressed(config, old(State()), isPressed, canAttack, now, hit, invLen)
    {
      ghost var s0 := State();
      PressedKeepsInv(config, s0, isPressed, canAttack, now, hit, invLen);

      if !canAttack && isPressed {
        return;
      }
      if !this.isPressed && !isPressed {
        return;
      }

      this.isPressed := isPressed;

      if isPressed {
        effects := effects + [Sound(Charging)];
        canMove := false;
        pressStartTime := now;
        ramDrainTimer := config.ramDrainInterval;
        assert State() == s0.(isPressed := true, effects := s0.effects + [Sound(Charging)], canMove := false,
                              pressStartTime := now, ramDrainTimer := config.ramDrainInterval);
      } else {
        canMove := false;
        ghost var released := State();
        assert released == s0.(isPressed := false, canMove := false);
        var endTime := now - pressStartTime;

        if endTime < config.attackInfo[0].chargeTimeMin {
          return;
        }

        var index := FindProfile(config.attackInfo, endTime);
        DoAttack(config.attackInfo[index], hit, invLen);
        assert State() == Started(released, config.attackInfo[index], hit, invLen);
      }
    }
  }
}
