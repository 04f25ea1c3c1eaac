/**
 * `TurretEnemy`: a cooldown timer that fires a volley whenever it runs out,
 * and the three volley shapes a turret can be given at start.
 */
module Turret {

  import opened Geometry
  import opened Options
  import Projectiles

  datatype AttackType = SpreadPattern | CardinalPattern | AtPlayer

  /** The enum value that `Random.Range(0, 3)` (0, 1 or 2) is cast to. */
  function AttackTypeOf(choice: int): AttackType
    requires 0 <= choice < 3
  {
    if choice == 0 then SpreadPattern else if choice == 1 then CardinalPattern else AtPlayer
  }

  /**
   * A direction handed to `SpawnBullet`: the unit vector (cos θ, sin θ) of
   * the angle θ = piTimes·π, kept symbolic, or a planar vector.
   */
  datatype ShotDirection = Angle(piTimes: real) | Toward(v: Vec2)

  /** One `SpawnBullet` call: owner, spawn point, direction, speed. */
  datatype Shot = Shot(owner: Projectiles.OwnerId, origin: Vec3, direction: ShotDirection, speed: real)

  /** Angle of bolt `i` of the spread volley, in units of π: (2π/6)·i + π/6. */
  function SpreadAngle(i: nat): real { (2.0 / 6.0) * (i as real) + 1.0 / 6.0 }

  /** Angle of bolt `i` of the cardinal volley, in units of π: i·(π/2). */
  function CardinalAngle(i: nat): real { (i as real) * (1.0 / 2.0) }

  function Degrees(piTimes: real): real { piTimes * 180.0 }

  /** The spread bolts point at 30°, 90°, ..., 330°: 60° apart, the first 30° off the x axis. */
  lemma SpreadAnglesInDegrees(i: nat)
    requires i < 6
    ensures Degrees(SpreadAngle(i)) == 30.0 + 60.0 * (i as real)
    ensures 0.0 < Degrees(SpreadAngle(i)) < 360.0
  {
  }

  /** Neighbouring spread bolts are 60° apart, also across the wrap from the last to the first. */
  lemma SpreadEvenlySpaced(i: nat)
    requires i < 5
    ensures Degrees(SpreadAngle(i + 1)) - Degrees(SpreadAngle(i)) == 60.0
    ensures Degrees(SpreadAngle(0)) + 360.0 - Degrees(SpreadAngle(5)) == 60.0
  {
  }

  /** The cardinal bolts point at 0°, 90°, 180° and 270°. */
  lemma CardinalAnglesInDegrees(i: nat)
    requires i < 4
    ensures Degrees(CardinalAngle(i)) == 90.0 * (i as real)
  {
  }

  /**
   * The lead time used for aiming, if any: `distance / bulletSpeed` when it
   * is below 2. A zero speed gives an infinite or undefined float quotient,
   * which fails the `< 2.0` test, so there is no lead.
   */
  function LeadTime(distance: real, bulletSpeed: real): Option<real>
  {
    if bulletSpeed == 0.0 then None
    else if distance / bulletSpeed < 2.0 then Some(distance / bulletSpeed)
    else None
  }

  /** Where the at-player bolt is aimed, on the ground plane. */
  function AimPoint(player: Vec2, velocity: Vec2, distance: real, bulletSpeed: real): Vec2
  {
    match LeadTime(distance, bulletSpeed)
    case Some(t) => Add2(player, Scale2(t, velocity))
    case None => player
  }

  /**
   * The target is led by its velocity times the travel time exactly when
   * the travel time is below 2; otherwise the bolt aims at where it is now.
   */
  lemma AimLeadsOnlyShortShots(player: Vec2, velocity: Vec2, distance: real, bulletSpeed: real)
    requires bulletSpeed != 0.0
    ensures distance / bulletSpeed < 2.0 ==>
      AimPoint(player, velocity, distance, bulletSpeed) == Add2(player, Scale2(distance / bulletSpeed, velocity))
    ensures distance / bulletSpeed >= 2.0 ==> AimPoint(player, velocity, distance, bulletSpeed) == player
  {
  }

  /** The boundary is strict: distance 20 at speed 10 is a travel time of exactly 2, so no lead. */
  lemma NoLeadAtTravelTimeTwo(player: Vec2, velocity: Vec2)
    ensures AimPoint(player, velocity, 20.0, 10.0) == player
  {
  }

  /** One volley of the given shape, fired by `owner` from `origin`. */
  function Volley(attackType: AttackType, owner: Projectiles.OwnerId, origin: Vec3,
                  player: Vec3, velocity: Vec3, distance: real, bulletSpeed: real): seq<Shot>
  {
    match attackType
    case SpreadPattern =>
      seq(6, i requires 0 <= i < 6 => Shot(owner, origin, Angle(SpreadAngle(i)), bulletSpeed))
    case CardinalPattern =>
      seq(4, i requires 0 <= i < 4 => Shot(owner, origin, Angle(CardinalAngle(i)), bulletSpeed))
    case AtPlayer =>
      var aim := AimPoint(Planar(player), Planar(velocity), distance, bulletSpeed);
      [Shot(owner, origin, Toward(Sub2(aim, Planar(origin))), bulletSpeed)]
  }

  /**
   * Volley sizes: 6 spread bolts, 4 cardinal bolts, 1 aimed bolt; every bolt
   * belongs to the turret, starts at its position and flies at its speed;
   * bolt k of a pattern flies at that pattern's k-th angle, and the aimed
   * bolt along the unnormalised ground-plane vector from the turret to the
   * aim point.
   */
  lemma VolleyShape(attackType: AttackType, owner: Projectiles.OwnerId, origin: Vec3,
                    player: Vec3, velocity: Vec3, distance: real, bulletSpeed: real)
    ensures var v := Volley(attackType, owner, origin, player, velocity, distance, bulletSpeed);
      && |v| == (match attackType case SpreadPattern => 6 case CardinalPattern => 4 case AtPlayer => 1)
      && (forall k :: 0 <= k < |v| ==> v[k].owner == owner && v[k].origin == origin && v[k].speed == bulletSpeed)
      && (attackType == SpreadPattern ==> forall k :: 0 <= k < |v| ==> v[k].direction == Angle(SpreadAngle(k)))
      && (attackType == CardinalPattern ==> forall k :: 0 <= k < |v| ==> v[k].direction == Angle(CardinalAngle(k)))
      && (attackType == AtPlayer ==>
            v[0].direction == Toward(Sub2(AimPoint(Planar(player), Planar(velocity), distance, bulletSpeed), Planar(origin))))
  {
  }

  /** One tick of the attack timer: the timer after the tick, and whether a volley fires. */
  datatype TimerStep = TimerStep(timer: real, fire: bool)

  function TimerTick(timer: real, dt: real, cooldown: real): TimerStep
  {
    var t := timer - dt;
    if t < 0.0 then TimerStep(cooldown, true) else TimerStep(t, false)
  }

  /** The timer after `n` ticks of length `dt`, and how many volleys fired meanwhile. */
  datatype Countdown = Countdown(timer: real, volleys: nat)

  function TimerAfter(timer: real, dt: real, cooldown: real, n: nat): Countdown
  {
    if n == 0 then Countdown(timer, 0)
    else
      var before := TimerAfter(timer, dt, cooldown, n - 1);
      var step := TimerTick(before.timer, dt, cooldown);
      Countdown(step.timer, before.volleys + if step.fire then 1 else 0)
  }

  /** From a fresh timer, nothing fires while the elapsed time n·dt has not passed the cooldown. */
  lemma {:induction false} QuietUntilCooldownPassed(dt: real, cooldown: real, n: nat)
    requires 0.0 <= dt && (n as real) * dt <= cooldown
    ensures TimerAfter(cooldown, dt, cooldown, n) == Countdown(cooldown - (n as real) * dt, 0)
  {
    if n > 0 {
      var m := (n - 1) as real;
      assert n as real == m + 1.0;
      assert (m + 1.0) * dt == m * dt + dt;
      assert m * dt <= cooldown;
      QuietUntilCooldownPassed(dt, cooldown, n - 1);
    }
  }

  /**
   * The first volley comes on the first tick at which the elapsed time
   * strictly exceeds the cooldown, and the timer is then reset to it.
   */
  lemma FirstVolleyOnceCooldownPassed(dt: real, cooldown: real, n: nat)
    requires 0.0 <= dt && (n as real) * dt <= cooldown < ((n + 1) as real) * dt
    ensures TimerAfter(cooldown, dt, cooldown, n + 1) == Countdown(cooldown, 1)
  {
    QuietUntilCooldownPassed(dt, cooldown, n);
    assert ((n + 1) as real) * dt == (n as real) * dt + dt;
  }

  class TurretEnemy {
    const attackType: AttackType
    const attackCooldown: real
    const bulletSpeed: real
    const self: Projectiles.OwnerId
    const position: Vec3
    var attackTimer: real
    var shots: seq<Shot>

    /** The timer never exceeds the cooldown and is negative only when the cooldown itself is. */
    ghost predicate Valid()
      reads this
    {
      attackTimer <= attackCooldown && (0.0 <= attackTimer || attackTimer == attackCooldown)
    }

    /** `Start`: the timer starts full and the volley shape is drawn once, by `choice`. */
    constructor Start(choice: int, self: Projectiles.OwnerId, position: Vec3,
                      attackCooldown: real := 2.0, bulletSpeed: real := 10.0)
      requires 0 <= choice < 3
      ensures Valid()
      ensures this.attackType == AttackTypeOf(choice) && this.self == self && this.position == position
      ensures this.attackCooldown == attackCooldown && this.bulletSpeed == bulletSpeed
      ensures attackTimer == attackCooldown && shots == []
    {
      this.attackType := AttackTypeOf(choice);
      this.attackCooldown := attackCooldown;
      this.bulletSpeed := bulletSpeed;
      this.self := self;
      this.position := position;
      attackTimer := attackCooldown;
      shots := [];
    }

    /**
     * `Update`: counts the timer down by `dt`; when it drops below zero one
     * volley fires and the timer is reset. `distance` is the ground-plane
     * distance from the turret to the player.
     */
    method Update(dt: real, player: Vec3, playerVelocity: Vec3, distance: real)
      requires Valid() && 0.0 <= dt
      requires 0.0 <= distance && distance * distance == SqrMagnitude2(Sub2(Planar(player), Planar(position)))
      modifies this
      ensures Valid()
      ensures var step := TimerTick(old(attackTimer), dt, attackCooldown);
        && attackTimer == step.timer
        && shots == old(shots) +
             if step.fire then Volley(attackType, self, position, player, playerVelocity, distance, bulletSpeed) else []
    {
      attackTimer := attackTimer - dt;
      if attackTimer < 0.0 {
        DoAttack(player, playerVelocity, distance);
        attackTimer := attackCooldown;
      }
    }

    /** Fires one volley of the turret's shape. */
    method DoAttack(player: Vec3, playerVelocity: Vec3, distance: real)
      requires 0.0 <= distance && distance * distance == SqrMagnitude2(Sub2(Planar(player), Planar(position)))
      modifies this`shots
      ensures shots == old(shots) + Volley(attackType, self, position, player, playerVelocity, distance, bulletSpeed)
    {
      if attackType == SpreadPattern {
        for i := 0 to 6
          invariant shots == old(shots) + seq(i, j requires 0 <= j < i => Shot(self, position, Angle(SpreadAngle(j)), bulletSpeed))
        {
          shots := shots + [Shot(self, position, Angle(SpreadAngle(i)), bulletSpeed)];
        }
      } else if attackType == CardinalPattern {
        for i := 0 to 4
          invariant shots == old(shots) + seq(i, j requires 0 <= j < i => Shot(self, position, Angle(CardinalAngle(j)), bulletSpeed))
        {
          shots := shots + [Shot(self, position, Angle(CardinalAngle(i)), bulletSpeed)];
        }
      } else {
        var player2 := Planar(player);
        var thisPos := Planar(position);
        var vel2 := Planar(playerVelocity);
        var aimPoint: Vec2;
        if bulletSpeed != 0.0 && distance / bulletSpeed < 2.0 {
          var travelTime := distance / bulletSpeed;
          aimPoint := Add2(player2, Scale2(travelTime, vel2));
        } else {
          aimPoint := player2;
        }
        shots := shots + [Shot(self, position, Toward(Sub2(aimPoint, thisPos)), bulletSpeed)];
      }
    }
  }
}
