/**
 * The shooter's entities as values: one record per object in the world list,
 * with a kind-specific part. Sizes and weapon constants are those of the
 * JavaScript classes (Bullet, HitEffect, PowerUp, GreenShip, UfoShip,
 * TwinBossLeft, TwinBossRight).
 */
module Entities {
  import opened Geometry

  /** `Bullet.owner`: decides travel direction and who it can hit. */
  datatype Owner = PlayerOwned | EnemyOwned

  /** `PowerUp.type`: 'heart', 'rapid' or 'triple'. */
  datatype PowerType = Heart | Rapid | Triple

  /** A boss's `moveDir`. */
  datatype Dir = Left | Right

  /** The two ordinary enemy classes. */
  datatype EnemyModel = GreenShip | UfoShip

  /** The two halves of the stage-5 boss. */
  datatype BossSide = TwinLeft | TwinRight

  /**
   * The kind tag with the fields that only that kind carries:
   * 'BULLET', 'ENEMY', 'BOSS', 'ITEM' and 'HIT'.
   */
  datatype Body =
    | Bullet(owner: Owner)
    | Enemy(model: EnemyModel, canShoot: bool, lastShotTime: int)
    | Boss(side: BossSide, hp: int, maxHp: int, canShoot: bool, lastShotTime: int, moveDir: Dir, moveStep: int)
    | Item(power: PowerType)
    | Hit

  /** An object of the world list: position, size, the `alive` flag and its kind. */
  datatype Entity = Entity(x: int, y: int, width: int, height: int, alive: bool, body: Body) {
    /** `Entity.getRect`. */
    function GetRect(): (r: Rect)
      ensures r.left == x && r.top == y
      ensures r.right - r.left == width && r.bottom - r.top == height
    {
      Rect(y, x, y + height, x + width)
    }

    predicate IsPlayerBullet() { body.Bullet? && body.owner == PlayerOwned }
    predicate IsEnemyBullet() { body.Bullet? && body.owner == EnemyOwned }
    predicate IsEnemy() { body.Enemy? }
    predicate IsBoss() { body.Boss? }
    predicate IsItem() { body.Item? }

    /** Kinds that have a `fire` method: ordinary enemies and boss halves. */
    predicate IsShooter() { body.Enemy? || body.Boss? }
  }

  /** An entity's rectangle is well formed whenever its size is not negative. */
  lemma RectWellFormed(e: Entity)
    requires e.width >= 0 && e.height >= 0
    ensures WellFormed(e.GetRect())
    ensures Contains(e.GetRect(), e.x, e.y)
  {
  }

  /** Two entities of the same kind (and, for bullets, the same owner). */
  predicate SameKind(a: Entity, b: Entity) {
    && a.IsPlayerBullet() == b.IsPlayerBullet()
    && a.IsEnemyBullet() == b.IsEnemyBullet()
    && a.IsEnemy() == b.IsEnemy()
    && a.IsBoss() == b.IsBoss()
    && a.IsItem() == b.IsItem()
  }

  // ----- constructors of the JavaScript classes -----

  /** `new PlayerLaser(x, y)`. */
  function PlayerLaser(x: int, y: int): Entity {
    Entity(x, y, 9, 33, true, Bullet(PlayerOwned))
  }

  /** `new EnemyLaser(x, y)`. */
  function EnemyLaser(x: int, y: int): Entity {
    Entity(x, y, 9, 33, true, Bullet(EnemyOwned))
  }

  /** `new HitEffect(x, y, img)`. */
  function HitEffectAt(x: int, y: int): Entity {
    Entity(x, y, 98, 98, true, Hit)
  }

  /** `new PowerUp(x, y, type)`. */
  function PowerUpAt(x: int, y: int, power: PowerType): Entity {
    Entity(x, y, 30, 30, true, Item(power))
  }

  /** `spawnGreenShip(x)`: y defaults to 0 and `lastShotTime` is the spawn time. */
  function GreenShipAt(x: int, now: int): Entity {
    Entity(x, 0, 98, 50, true, Enemy(GreenShip, true, now))
  }

  /** `spawnUfoShip(x)`. */
  function UfoShipAt(x: int, now: int): Entity {
    Entity(x, 0, 91, 91, true, Enemy(UfoShip, true, now))
  }

  /** `new TwinBossLeft(x, 0)` / `new TwinBossRight(x, 0)`: 20 hp, patrol step 50, each starting towards its outer edge. */
  function TwinBossAt(side: BossSide, x: int, now: int): Entity {
    var dir := if side == TwinLeft then Left else Right;
    Entity(x, 0, 256, 256, true, Boss(side, 20, 20, true, now, dir, 50))
  }

  // ----- enemy and boss weapons -----

  /** The fixed fire interval in milliseconds: 3000 (green ship), 4000 (UFO), 1200 (each boss half). */
  function FireInterval(b: Body): int
    requires b.Enemy? || b.Boss?
  {
    if b.Boss? then 1200 else if b.model == GreenShip then 3000 else 4000
  }

  /** The gate at the top of every `fire`: `canShoot` and the interval has elapsed since the last shot. */
  predicate ReadyToFire(e: Entity, now: int)
    requires e.IsShooter()
  {
    e.body.canShoot && now - e.body.lastShotTime >= FireInterval(e.body)
  }

  /** The enemy lasers one `fire` pushes, at the kind's fixed offsets from the shooter. */
  function Volley(e: Entity): seq<Entity>
    requires e.IsShooter()
  {
    match e.body
    case Enemy(GreenShip, _, _) => [EnemyLaser(e.x + 45, e.y + 30)]
    case Enemy(UfoShip, _, _) => [EnemyLaser(e.x + 50, e.y + 10)]
    case Boss(_, _, _, _, _, _, _) =>
      var centerX, baseY := e.x + 128, e.y + 236;
      [EnemyLaser(centerX, baseY), EnemyLaser(centerX - 25, baseY), EnemyLaser(centerX + 25, baseY)]
  }

  /** The shooter after a `fire` call together with the lasers it pushed. */
  datatype Shot = Shot(shooter: Entity, shots: seq<Entity>)

  /**
   * `GreenShip.fire`, `UfoShip.fire`, `TwinBoss*.fire`: when the gate is open,
   * one laser (three for a boss) and `lastShotTime` becomes now; otherwise
   * nothing at all. The `alive` flag is not consulted.
   */
  function Fire(e: Entity, now: int): (r: Shot)
    requires e.IsShooter()
    ensures r.shooter.IsShooter()
    ensures |r.shots| == if !ReadyToFire(e, now) then 0 else if e.IsBoss() then 3 else 1
    ensures forall s :: s in r.shots ==> s.IsEnemyBullet() && s.alive
    ensures !ReadyToFire(e, now) ==> r.shooter == e
    ensures ReadyToFire(e, now) ==> r.shooter.body.lastShotTime == now
    ensures r.shooter == e.(body := r.shooter.body)
    ensures r.shooter.body == e.body.(lastShotTime := r.shooter.body.lastShotTime)
  {
    if ReadyToFire(e, now) then Shot(e.(body := e.body.(lastShotTime := now)), Volley(e))
    else Shot(e, [])
  }

  /**
   * The rate limit: after a shot at time t, no call before t + interval fires
   * again, and one at t + interval or later does.
   */
  lemma FireRateLimited(e: Entity, t: int, later: int)
    requires e.IsShooter() && ReadyToFire(e, t)
    ensures var s := Fire(e, t).shooter;
      s.IsShooter() && (Fire(s, later).shots == [] <==> later - t < FireInterval(e.body))
  {
    var s := Fire(e, t).shooter;
    assert s.body.canShoot && s.body.lastShotTime == t;
    assert FireInterval(s.body) == FireInterval(e.body);
  }

  // ----- boss hit points and patrol -----

  /**
   * `BossBase.damage` (amount 1) and the special attack's blow (amount 10):
   * hp drops by exactly the amount, and a boss whose hp reaches 0 or less is dead.
   */
  function Damaged(e: Entity, amount: int): (r: Entity)
    requires e.IsBoss()
    ensures r.IsBoss() && r.body.hp == e.body.hp - amount
    ensures r.alive <==> e.alive && r.body.hp > 0
    ensures r == e.(alive := r.alive, body := e.body.(hp := r.body.hp))
  {
    var hp := e.body.hp - amount;
    e.(body := e.body.(hp := hp), alive := e.alive && hp > 0)
  }

  /**
   * The 300 ms patrol timer of a twin boss, one tick. The left half patrols
   * between the left edge and the middle of the canvas, the right half between
   * the middle and the right edge; each either moves one step in its direction
   * or, when that step would leave its half, turns around. A dead boss's timer
   * has stopped. `canvas.width / 2` is compared exactly by doubling the other side.
   */
  function PatrolStep(e: Entity, canvasWidth: int): Entity
    requires e.IsBoss()
  {
    if !e.alive then e
    else
      var b := e.body;
      var step := b.moveStep;
      match b.side
      case TwinLeft =>
        if b.moveDir == Left && e.x - step > 0 then e.(x := e.x - step)
        else if b.moveDir == Left then e.(body := b.(moveDir := Right))
        else if 2 * (e.x + e.width + step) < canvasWidth then e.(x := e.x + step)
        else e.(body := b.(moveDir := Left))
      case TwinRight =>
        if b.moveDir == Right && e.x + e.width + step < canvasWidth then e.(x := e.x + step)
        else if b.moveDir == Right then e.(body := b.(moveDir := Left))
        else if 2 * (e.x - step) > canvasWidth then e.(x := e.x - step)
        else e.(body := b.(moveDir := Right))
  }

  /** The half of the canvas a twin boss patrols, inner edge on the middle line. */
  predicate InPatrolZone(e: Entity, canvasWidth: int)
    requires e.IsBoss()
  {
    match e.body.side
    case TwinLeft => 2 * (e.x + e.width) <= canvasWidth
    case TwinRight => canvasWidth <= 2 * e.x
  }

  /**
   * The two-state direction machine: each tick of a live boss either moves it
   * exactly one step in its current direction or flips the direction in
   * place, never both; its zone is kept, and a move towards the outer edge
   * never crosses it.
   */
  lemma PatrolStepMovesOrTurns(e: Entity, canvasWidth: int)
    requires e.IsBoss() && e.alive && e.body.moveStep > 0
    ensures var r := PatrolStep(e, canvasWidth);
      && r.IsBoss() && r.alive && r.y == e.y && r.body.hp == e.body.hp
      && (|| (r.body.moveDir == e.body.moveDir && r.x == (if e.body.moveDir == Left then e.x - e.body.moveStep else e.x + e.body.moveStep))
          || (r.x == e.x && r.body.moveDir != e.body.moveDir))
      && (InPatrolZone(e, canvasWidth) ==> InPatrolZone(r, canvasWidth))
      && (e.body.side == TwinLeft && r.x < e.x ==> 0 < r.x)
      && (e.body.side == TwinRight && r.x > e.x ==> r.x + r.width < canvasWidth)
  {
  }

  /** Bosses in their zones never overlap by more than the shared middle line. */
  lemma TwinsKeepApart(left: Entity, right: Entity, canvasWidth: int)
    requires left.IsBoss() && left.body.side == TwinLeft && InPatrolZone(left, canvasWidth)
    requires right.IsBoss() && right.body.side == TwinRight && InPatrolZone(right, canvasWidth)
    ensures left.x + left.width <= right.x
  {
  }
}
