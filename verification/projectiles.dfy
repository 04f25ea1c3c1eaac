/**
 * The projectile registry: the list of live bullets that `ProjectileManager`
 * keeps, with creation, destruction, tear-down and area reflection.
 */
module Projectiles {

  import opened Geometry
  import opened ListOps

  /** Identity of the game object that owns a bullet (the player, a turret, ...). */
  type OwnerId = nat

  /** Everything about one bullet that the registry reads or writes. */
  datatype BulletState = BulletState(
    position: Vec3,
    forward: Vec3,   // facing, before the engine normalises it
    owner: OwnerId,
    isFriendly: bool,
    speed: real,
    damage: int)

  /**
   * The horizontal vector from `center` to `p`: `p - center` with y set to 0.
   * The engine normalises it when it becomes the bullet's facing.
   */
  function AwayFrom(center: Vec3, p: Vec3): Vec3 {
    Vec3(p.x - center.x, 0.0, p.z - center.z)
  }

  /** The bullet lies within `range` of `center` (inclusive) and belongs to someone else. */
  predicate Reflectable(b: BulletState, center: Vec3, range: real, newOwner: OwnerId) {
    WithinRange(b.position, center, range) && b.owner != newOwner
  }

  /** What one pass of `ReflectAllProjectiles` does to one bullet. */
  function ReflectOne(b: BulletState, center: Vec3, range: real, newOwner: OwnerId): BulletState {
    if Reflectable(b, center, range, newOwner) then
      b.(forward := AwayFrom(center, b.position), owner := newOwner, isFriendly := true)
    else b
  }

  /** A bullet that is out of range, or already owned by `newOwner`, is left exactly as it was. */
  lemma ReflectLeavesIneligibleAlone(b: BulletState, center: Vec3, range: real, newOwner: OwnerId)
    requires !WithinRange(b.position, center, range) || b.owner == newOwner
    ensures ReflectOne(b, center, range, newOwner) == b
  {
  }

  /**
   * A reflected bullet belongs to `newOwner`, is friendly, and faces
   * horizontally away from the centre; its position, speed and damage stay.
   */
  lemma ReflectedBulletTurnsAway(b: BulletState, center: Vec3, range: real, newOwner: OwnerId)
    requires Reflectable(b, center, range, newOwner)
    ensures var r := ReflectOne(b, center, range, newOwner);
      && r.owner == newOwner && r.isFriendly
      && r.position == b.position && r.speed == b.speed && r.damage == b.damage
      && r.forward.y == 0.0
      && r.forward.x == b.position.x - center.x && r.forward.z == b.position.z - center.z
      && Dot(r.forward, Sub(b.position, center)) >= 0.0
  {
  }

  /** The range test is inclusive: a bullet at exactly `range` from the centre is reflected. */
  lemma ReflectBoundaryInclusive(b: BulletState, center: Vec3, range: real, newOwner: OwnerId)
    requires 0.0 <= range && SqrDistance(b.position, center) == range * range
    requires b.owner != newOwner
    ensures ReflectOne(b, center, range, newOwner).owner == newOwner
  {
  }

  /** Reflecting again for the same owner changes nothing: the first pass made the owner `newOwner`. */
  lemma ReflectIdempotent(b: BulletState, center: Vec3, range: real, newOwner: OwnerId)
    ensures var once := ReflectOne(b, center, range, newOwner);
      ReflectOne(once, center, range, newOwner) == once
  {
  }

  /** One pass of `ReflectAllProjectiles` over the states of the listed bullets, in list order. */
  function ReflectAll(bs: seq<BulletState>, center: Vec3, range: real, newOwner: OwnerId): seq<BulletState>
  {
    seq(|bs|, i requires 0 <= i < |bs| => ReflectOne(bs[i], center, range, newOwner))
  }

  /**
   * Reflecting the whole list twice for the same owner gives the list that
   * one pass gives: the second pass finds every reflected bullet owned by
   * `newOwner` and every other bullet still ineligible.
   */
  lemma ReflectAllIdempotent(bs: seq<BulletState>, center: Vec3, range: real, newOwner: OwnerId)
    ensures var once := ReflectAll(bs, center, range, newOwner);
      ReflectAll(once, center, range, newOwner) == once
  {
    var once := ReflectAll(bs, center, range, newOwner);
    forall i | 0 <= i < |bs|
      ensures ReflectOne(once[i], center, range, newOwner) == once[i]
    {
      ReflectIdempotent(bs[i], center, range, newOwner);
    }
  }

  /**
   * Two attackers whose areas both cover a bullet take it from each other
   * in turn: every reflection by the other side changes the owner again.
   */
  lemma ReflectPingPong(b: BulletState, center1: Vec3, center2: Vec3, range: real, a1: OwnerId, a2: OwnerId)
    requires a1 != a2 && b.owner != a1
    requires WithinRange(b.position, center1, range) && WithinRange(b.position, center2, range)
    ensures var r1 := ReflectOne(b, center1, range, a1);
      var r2 := ReflectOne(r1, center2, range, a2);
      r1.owner == a1 && r2.owner == a2 && ReflectOne(r2, center1, range, a1).owner == a1
  {
  }

  /** A bullet object; its owner and facing change in place when it is reflected. */
  class Bullet {
    var position: Vec3
    var forward: Vec3
    var owner: OwnerId
    var isFriendly: bool
    var speed: real
    var damage: int

    function State(): BulletState
      reads this
    {
      BulletState(position, forward, owner, isFriendly, speed, damage)
    }

    /** A bullet placed at its owner's position and launched along `dir` on the ground plane. */
    constructor Launch(owner: OwnerId, position: Vec3, dir: Vec2, speed: real, damage: int)
      ensures State() == BulletState(position, Ground(dir), owner, false, speed, damage)
    {
      this.position := position;
      this.forward := Ground(dir);
      this.owner := owner;
      this.isFriendly := false;
      this.speed := speed;
      this.damage := damage;
    }

    function GetOwner(): OwnerId
      reads this
    {
      owner
    }

    method ChangeOwner(newOwner: OwnerId)
      modifies this
      ensures State() == old(State()).(owner := newOwner)
    {
      owner := newOwner;
    }
  }

  /** The states of the bullets of a list, in list order. */
  function States(bs: seq<Bullet>): seq<BulletState>
    reads set b | b in bs
  {
    seq(|bs|, i requires 0 <= i < |bs| reads set b | b in bs => bs[i].State())
  }

  /** The registry. `destroyed` records, in order, the bullets handed to the engine's `Destroy`. */
  class ProjectileManager {
    var bulletList: seq<Bullet>
    var destroyed: seq<Bullet>

    /** `Awake`: a fresh, empty list. */
    constructor ()
      ensures bulletList == [] && destroyed == []
    {
      bulletList := [];
      destroyed := [];
    }

    /** Spawns a bullet at the owner's position, launches it and appends it to the list. */
    method InstantiateProjectile(owner: OwnerId, ownerPosition: Vec3, dir: Vec2, speed: real := 2.0, damage: int := 1)
      returns (bullet: Bullet)
      modifies this
      ensures fresh(bullet)
      ensures bullet.State() == BulletState(ownerPosition, Ground(dir), owner, false, speed, damage)
      ensures bulletList == old(bulletList) + [bullet] && destroyed == old(destroyed)
    {
      bullet := new Bullet.Launch(owner, ownerPosition, dir, speed, damage);
      bulletList := bulletList + [bullet];
    }

    /** The public entry point; forwards to the single registry instance. */
    method CreateProjectile(owner: OwnerId, ownerPosition: Vec3, dir: Vec2, speed: real := 2.0, damage: int := 1)
      returns (bullet: Bullet)
      modifies this
      ensures fresh(bullet)
      ensures bullet.State() == BulletState(ownerPosition, Ground(dir), owner, false, speed, damage)
      ensures bulletList == old(bulletList) + [bullet] && destroyed == old(destroyed)
    {
      bullet := InstantiateProjectile(owner, ownerPosition, dir, speed, damage);
    }

    /** Removes the first occurrence of `bullet` from the list and destroys it. */
    method DestroyBullet(bullet: Bullet)
      modifies this
      ensures bulletList == RemoveFirst(old(bulletList), bullet)
      ensures destroyed == old(destroyed) + [bullet]
    {
      bulletList := RemoveFirst(bulletList, bullet);
      destroyed := destroyed + [bullet];
    }

    /** Scene clean-up: destroys every bullet, last to first, then empties the list. */
    method DespawnAllBullets()
      modifies this
      ensures bulletList == []
      ensures destroyed == old(destroyed) + Reverse(old(bulletList))
    {
      var i := |bulletList| - 1;
      while i >= 0
        invariant -1 <= i < |bulletList|
        invariant bulletList == old(bulletList)
        invariant destroyed == old(destroyed) + Reverse(bulletList)[..|bulletList| - 1 - i]
      {
        ReversePrefixGrows(bulletList, |bulletList| - 1 - i);
        destroyed := destroyed + [bulletList[i]];
        i := i - 1;
      }
      assert Reverse(bulletList)[..|bulletList|] == Reverse(bulletList);
      bulletList := [];
    }

    /**
     * Reflects every listed bullet within `range` of `position` whose owner is
     * not `newOwner`. The list itself is not changed, and each listed bullet
     * ends in the state ReflectOne gives for its state before the call.
     */
    method ReflectAllProjectiles(position: Vec3, range: real, newOwner: OwnerId)
      modifies set b | b in bulletList
      ensures bulletList == old(bulletList)
      ensures forall b :: b in bulletList ==> b.State() == ReflectOne(old(b.State()), position, range, newOwner)
      ensures States(bulletList) == ReflectAll(old(States(bulletList)), position, range, newOwner)
    {
      var i := 0;
      while i < |bulletList|
        invariant 0 <= i <= |bulletList|
        invariant forall b :: b in bulletList ==>
          b.State() == if b in bulletList[..i] then ReflectOne(old(b.State()), position, range, newOwner) else old(b.State())
      {
        var bullet := bulletList[i];
        if WithinRange(bullet.position, position, range) && bullet.GetOwner() != newOwner {
          bullet.forward := AwayFrom(position, bullet.position);
          bullet.ChangeOwner(newOwner);
          bullet.isFriendly := true;
        }
        assert bulletList[..i + 1] == bulletList[..i] + [bullet];
        i := i + 1;
      }
      assert bulletList[..i] == bulletList;
      forall k | 0 <= k < |bulletList|
        ensures States(bulletList)[k] == ReflectAll(old(States(bulletList)), position, range, newOwner)[k]
      {
        assert bulletList[k] in bulletList;
      }
    }
  }
}
