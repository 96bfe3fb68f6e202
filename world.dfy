/**
 * The shooter's global state as one object: the world list `objects`, the
 * hero and its two escorts, the stage with its enemy counter, and the game-over
 * events raised so far. The methods are the bus handlers that `bindEvents`
 * registers, the hero's special attack, the spawn timers and the per-tick
 * `updateWorld`.
 */
module Shooter {
  import opened Common
  import opened Geometry
  import opened Entities
  import opened ObjectList
  import opened Ships
  import opened Stage
  import opened Collisions

  /** The game-over events: GAME_WIN and GAME_LOSE. */
  datatype Signal = Win | Lose

  /**
   * The power-up rolls: the n-th roll of the game either drops nothing or a
   * power-up of the given type (`Math.random() < 0.2` or `< 0.5`, then
   * `dropRandomPowerUp`'s own draw).
   */
  type Dice = nat -> Option<PowerType>

  /** `dropRandomPowerUp(x, y)` when the roll says so. */
  function DropAt(roll: Option<PowerType>, x: int, y: int): (r: seq<Entity>)
    ensures |r| <= 1
    ensures forall e :: e in r ==> e.IsItem() && e.alive && e.x == x && e.y == y
  {
    if roll.Some? then [PowerUpAt(x, y, roll.value)] else []
  }

  /** On the first n positions every entity keeps its kind and no dead one comes back. */
  predicate Evolved(before: seq<Entity>, after: seq<Entity>, n: nat) {
    && n <= |before| && n <= |after|
    && forall k :: 0 <= k < n ==> SameKind(before[k], after[k]) && (after[k].alive ==> before[k].alive)
  }

  lemma EvolvedTrans(a: seq<Entity>, b: seq<Entity>, c: seq<Entity>, n: nat, m: nat)
    requires Evolved(a, b, n) && Evolved(b, c, m) && n <= m
    ensures Evolved(a, c, n)
  {
  }

  /** Entities kept on the first n positions of two lists keep their kinds and do not come back. */
  lemma KeptEvolved(o: seq<Entity>, s: seq<Entity>, n: nat)
    requires n <= |o| && n <= |s| && KeptAll(o[..n], s[..n])
    ensures Evolved(o, s, n)
  {
    forall k | 0 <= k < n
      ensures SameKind(o[k], s[k]) && (s[k].alive ==> o[k].alive)
    {
      assert Kept(o[..n][k], s[..n][k]);
    }
  }

  /** What HIT_ENEMY and the scan append for the enemy e: maybe a power-up where it was, then a hit effect there. */
  function EnemyHitTail(e: Entity, roll: Option<PowerType>): (r: seq<Entity>)
    ensures forall x :: x in r ==> x.IsItem() || x.body.Hit?
  {
    DropAt(roll, e.x, e.y) + [HitEffectAt(e.x, e.y)]
  }

  /** What HIT_ENEMY_BOSS and the scan append for the struck boss: a power-up at its centre if it died, then a hit effect 80 px above it. */
  function BossHitTail(boss: Entity, roll: Option<PowerType>): (r: seq<Entity>)
    ensures forall x :: x in r ==> x.IsItem() || x.body.Hit?
  {
    (if boss.alive then [] else DropAt(roll, boss.x + boss.width / 2, boss.y + boss.height / 2)) + [HitEffectAt(boss.x, boss.y - 80)]
  }

  /** Cutting a list at n after two updates below n and an append: the head takes the updates, the tail the appended entities. */
  lemma CutAfterUpdates(s: seq<Entity>, i: nat, j: nat, u: Entity, v: Entity, t: seq<Entity>, n: nat)
    requires i < n && j < n && n <= |s|
    ensures (s[i := u][j := v] + t)[..n] == s[..n][i := u][j := v]
    ensures (s[i := u][j := v] + t)[n..] == s[n..] + t
  {
  }

  /**
   * The GAME_LOSE events of k blows to a hero that had hp hit points: one for
   * every blow that leaves 0 hp or less, since the handlers do not ask
   * whether the hero was already dead.
   */
  function Losses(hp: int, k: nat): (r: seq<Signal>)
    ensures forall s :: s in r ==> s == Lose
    ensures |r| == Min(k, Max(0, k - hp + 1))
  {
    if k == 0 then [] else Losses(hp, k - 1) + (if hp - k <= 0 then [Lose] else [])
  }

  /** The special charge the laser scan earns between p and q: 10 per enemy hit, 5 per boss hit and 20 more per boss brought down. */
  function LaserCharge(p: seq<Entity>, q: seq<Entity>): nat
    requires |p| == |q|
  {
    5 * Dropped(p, q, Lasers) + 5 * Dropped(p, q, Enemies) + 20 * Dropped(p, q, Bosses)
  }

  /** The counters the player-laser handlers move: `enemyCounter.dead`, kill count, power-up rolls, score, special charge, game-over events. */
  datatype Tallies = Tallies(dead: nat, kills: nat, draws: nat, score: nat, charge: int, signals: seq<Signal>)

  /** The counters after HIT_ENEMY: one more enemy down, killed and rolled for, 100 points, 10 charge, GAME_WIN on a clear stage. */
  function AfterEnemyHit(c: Tallies, cleared: bool): (r: Tallies)
    ensures r.dead == c.dead + 1 && r.kills == c.kills + 1 && r.draws == c.draws + 1 && r.score == c.score + 100
    ensures r.charge == ChargeAfterGain(c.charge, 10)
    ensures r.signals == c.signals + (if cleared then [Win] else [])
  {
    Tallies(c.dead + 1, c.kills + 1, c.draws + 1, c.score + 100, ChargeAfterGain(c.charge, 10), c.signals + (if cleared then [Win] else []))
  }

  /**
   * The counters after HIT_ENEMY_BOSS left the boss as boss: 100 points and
   * 5 charge; if the boss is dead, also one more down, killed and rolled for,
   * 20 more charge and GAME_WIN on a clear stage.
   */
  function AfterBossHit(c: Tallies, boss: Entity, cleared: bool): (r: Tallies)
    ensures r.score == c.score + 100
    ensures boss.alive ==> r == c.(score := c.score + 100, charge := ChargeAfterGain(c.charge, 5))
    ensures !boss.alive ==>
      && r.dead == c.dead + 1 && r.kills == c.kills + 1 && r.draws == c.draws + 1
      && r.charge == ChargeAfterGain(ChargeAfterGain(c.charge, 5), 20)
      && r.signals == c.signals + (if cleared then [Win] else [])
  {
    if boss.alive then c.(score := c.score + 100, charge := ChargeAfterGain(c.charge, 5))
    else Tallies(c.dead + 1, c.kills + 1, c.draws + 1, c.score + 100, ChargeAfterGain(ChargeAfterGain(c.charge, 5), 20), c.signals + (if cleared then [Win] else []))
  }

  /** The laser scan's counters once it has taken the entities p it started on to q, from the counters c0 it started with. */
  function LaserTallied(c0: Tallies, p: seq<Entity>, q: seq<Entity>, cleared: bool): Tallies
    requires |p| == |q|
  {
    var foes := FoesDowned(p, q);
    Tallies(c0.dead + foes, c0.kills + foes, c0.draws + foes, c0.score + 100 * Dropped(p, q, Lasers),
      ChargeAfterGain(c0.charge, LaserCharge(p, q)), c0.signals + (if foes > 0 && cleared then [Win] else []))
  }

  /** A HIT_ENEMY on a stage that was not clear moves the counters as one more laser and one more enemy in the tally. */
  lemma EnemyHitTallied(c0: Tallies, p: seq<Entity>, q: seq<Entity>, q2: seq<Entity>, cleared0: bool, cleared: bool)
    requires |p| == |q| == |q2| && !cleared0
    requires Dropped(p, q2, Lasers) == Dropped(p, q, Lasers) + 1
    requires Dropped(p, q2, Enemies) == Dropped(p, q, Enemies) + 1
    requires Dropped(p, q2, Bosses) == Dropped(p, q, Bosses)
    ensures AfterEnemyHit(LaserTallied(c0, p, q, cleared0), cleared) == LaserTallied(c0, p, q2, cleared)
  {
    ChargeGainsAdd(c0.charge, LaserCharge(p, q), 10);
  }

  /**
   * A HIT_ENEMY_BOSS on a stage that was not clear moves the counters as one
   * more laser in the tally, and one more boss if the blow killed it.
   */
  lemma BossHitTallied(c0: Tallies, p: seq<Entity>, q: seq<Entity>, q2: seq<Entity>, boss: Entity, cleared0: bool, cleared: bool)
    requires |p| == |q| == |q2| && !cleared0 && (boss.alive ==> !cleared)
    requires Dropped(p, q2, Lasers) == Dropped(p, q, Lasers) + 1
    requires Dropped(p, q2, Enemies) == Dropped(p, q, Enemies)
    requires Dropped(p, q2, Bosses) == Dropped(p, q, Bosses) + (if boss.alive then 0 else 1)
    ensures AfterBossHit(LaserTallied(c0, p, q, cleared0), boss, cleared) == LaserTallied(c0, p, q2, cleared)
  {
    ChargeGainsAdd(c0.charge, LaserCharge(p, q), 5);
    ChargeGainsAdd(c0.charge, LaserCharge(p, q) + 5, 20);
  }

  /** What the enemy scan changes: the list, `enemyCounter.dead`, the hero's hp, life and look, the game-over events. */
  datatype Blows = Blows(objects: seq<Entity>, dead: int, hp: int, alive: bool, look: bool, signals: seq<Signal>)

  /** One ENEMY_COLLIDE_HERO or ENEMY_PASS_CANVAS on entity e: it dies and is counted, the hero takes one damage; GAME_LOSE at 0 hp, else GAME_WIN on a clear stage. */
  function Downed(b: Blows, e: nat): (r: Blows)
    requires e < |b.objects|
    ensures r.objects == b.objects[e := b.objects[e].(alive := false)] && r.dead == b.dead + 1 && r.hp == b.hp - 1
    ensures r.alive == (b.alive && r.hp > 0) && r.look == (b.look || r.hp <= 1)
    ensures b.signals <= r.signals && (Lose in r.signals[|b.signals|..] <==> r.hp <= 0)
  {
    var s := b.objects[e := b.objects[e].(alive := false)];
    var hp := b.hp - 1;
    Blows(s, b.dead + 1, hp, b.alive && hp > 0, b.look || hp <= 1, b.signals + (if hp <= 0 then [Lose] else if AllEnemiesCleared(s) then [Win] else []))
  }

  /** The enemy scan's game-over events since s0, after downs blows: GAME_LOSE once some blow left 0 hp or less, GAME_WIN only on a clear stage and surely once a surviving hero cleared it. */
  ghost predicate DownSignalsOn(b: Blows, s0: seq<Signal>, downs: nat)
  {
    && s0 <= b.signals
    && (Lose in b.signals[|s0|..] <==> downs > 0 && b.hp <= 0)
    && (forall k :: |s0| <= k < |b.signals| && b.signals[k] == Win ==> AllEnemiesCleared(b.objects))
    && (downs > 0 && b.hp > 0 && AllEnemiesCleared(b.objects) ==> Win in b.signals[|s0|..])
  }

  /** One more blow keeps the enemy scan's game-over events as `DownSignalsOn` describes them. */
  lemma DownedSignals(b: Blows, e: nat, s0: seq<Signal>, downs: nat)
    requires e < |b.objects| && DownSignalsOn(b, s0, downs)
    ensures DownSignalsOn(Downed(b, e), s0, downs + 1)
  {
    var r := Downed(b, e);
    assert r.signals[|s0|..] == b.signals[|s0|..] + r.signals[|b.signals|..];
    if AllEnemiesCleared(b.objects) {
      ClearedAfterKill(b.objects, e);
    }
  }

  /** The enemy scan's turn on entity ei: an alive enemy touching the hero is downed, then one past the bottom line is downed (again). */
  function EnemyTurnOn(b: Blows, ei: nat, r: Rect, height: int): Blows
    requires ei < |b.objects|
  {
    var e := b.objects[ei];
    if e.IsEnemy() && e.alive then
      var b1 := if Intersects(r, e.GetRect()) then Downed(b, ei) else b;
      if e.y > height - e.height then Downed(b1, ei) else b1
    else b
  }

  /** The enemy scan after the first ei of the n = |p| entities it started on (o, with p == o[..n]), from the state b0. */
  ghost predicate DownsSoFar(b: Blows, o: seq<Entity>, p: seq<Entity>, ei: nat, r: Rect, height: int, b0: Blows)
  {
    && ei <= |p| <= |o| == |b.objects|
    && (forall k :: 0 <= k < |p| ==> b.objects[k] == if k < ei then EnemyScanned(p[k], r, height) else p[k])
    && (forall k :: |p| <= k < |o| ==> b.objects[k] == o[k])
    && b.dead == b0.dead + DownCount(p, ei, r, height)
    && b.hp == b0.hp - DownCount(p, ei, r, height)
    && b.alive == (b0.alive && b.hp > 0)
    && b.look == (b0.look || (DownCount(p, ei, r, height) > 0 && b.hp <= 1))
    && DownSignalsOn(b, b0.signals, DownCount(p, ei, r, height))
  }

  /** The enemy scan's turn at ei downs entity ei as often as `Downs` counts, each blow costing one hp. */
  lemma EnemyTurnCounts(b: Blows, ei: nat, r: Rect, height: int, s0: seq<Signal>, downs: nat)
    requires ei < |b.objects| && DownSignalsOn(b, s0, downs)
    ensures var t, d := EnemyTurnOn(b, ei, r, height), Downs(b.objects[ei], r, height);
      && t.objects == (if d > 0 then b.objects[ei := b.objects[ei].(alive := false)] else b.objects)
      && t.dead == b.dead + d && t.hp == b.hp - d
      && t.alive == (b.alive && (d == 0 || t.hp > 0))
      && t.look == (b.look || (d > 0 && t.hp <= 1))
      && DownSignalsOn(t, s0, downs + d)
  {
    var e := b.objects[ei];
    var t := EnemyTurnOn(b, ei, r, height);
    if Rams(e, r) && Sinks(e, height) {
      DownedTwice(b, ei, s0, downs);
      assert t == Downed(Downed(b, ei), ei) && Downs(e, r, height) == 2;
    } else if Rams(e, r) || Sinks(e, height) {
      DownedSignals(b, ei, s0, downs);
      assert t == Downed(b, ei) && Downs(e, r, height) == 1;
    } else {
      assert t == b && Downs(e, r, height) == 0;
    }
  }

  /** An enemy that both touches the hero and is past the bottom line is downed twice: two hp, two counts, one death. */
  lemma DownedTwice(b: Blows, e: nat, s0: seq<Signal>, downs: nat)
    requires e < |b.objects| && DownSignalsOn(b, s0, downs)
    ensures var t := Downed(Downed(b, e), e);
      && t.objects == b.objects[e := b.objects[e].(alive := false)]
      && t.dead == b.dead + 2 && t.hp == b.hp - 2
      && t.alive == (b.alive && t.hp > 0)
      && t.look == (b.look || t.hp <= 1)
      && DownSignalsOn(t, s0, downs + 2)
  {
    var b1 := Downed(b, e);
    DownedSignals(b, e, s0, downs);
    DownedSignals(b1, e, s0, downs + 1);
    assert b1.objects[e].(alive := false) == b.objects[e].(alive := false);
  }

  /** The enemy scan's turn at ei keeps `DownsSoFar` one entity further. */
  lemma EnemyTurnStep(b: Blows, o: seq<Entity>, p: seq<Entity>, ei: nat, r: Rect, height: int, b0: Blows)
    requires ei < |p| && DownsSoFar(b, o, p, ei, r, height, b0)
    ensures DownsSoFar(EnemyTurnOn(b, ei, r, height), o, p, ei + 1, r, height, b0)
  {
    var t := EnemyTurnOn(b, ei, r, height);
    assert b.objects[ei] == p[ei];
    assert DownCount(p, ei + 1, r, height) == DownCount(p, ei, r, height) + Downs(p[ei], r, height);
    EnemyTurnCounts(b, ei, r, height, b0.signals, DownCount(p, ei, r, height));
    assert forall k :: 0 <= k < |p| ==> t.objects[k] == if k < ei + 1 then EnemyScanned(p[k], r, height) else p[k];
  }


  /** What power-ups change on the hero: hp, damaged look, fire cooldown, rapid timer (armed, due time), triple-shot end. */
  datatype Boosts = Boosts(hp: int, look: bool, rate: int, rapid: bool, rapidEnd: int, tripleEnd: int)

  /** One power-up picked up at time now: a heart heals one hp up to 3, rapid sets the fast cooldown and a 5 s timer, triple a 5 s triple shot. */
  function Picked(b: Boosts, power: PowerType, now: int): (r: Boosts)
    ensures power == Heart ==> r.hp == (if b.hp < 3 then b.hp + 1 else b.hp) && r.look == (b.look && r.hp <= 1)
    ensures power == Heart ==> r.(hp := b.hp, look := b.look) == b
    ensures power == Rapid ==> r == b.(rate := 100, rapid := true, rapidEnd := now + 5000)
    ensures power == Triple ==> r == b.(tripleEnd := now + 5000)
  {
    match power
    case Heart =>
      var hp := if b.hp < 3 then b.hp + 1 else b.hp;
      b.(hp := hp, look := b.look && hp <= 1)
    case Rapid => b.(rate := 100, rapid := true, rapidEnd := now + 5000)
    case Triple => b.(tripleEnd := now + 5000)
  }

  /**
   * The item scan after the first i of the n = |p| entities it started on
   * (o, with p == o[..n]): the list s and the hero's boosts b, from b0.
   */
  ghost predicate GrabsSoFar(s: seq<Entity>, b: Boosts, o: seq<Entity>, p: seq<Entity>, i: nat, r: Rect, now: int, b0: Boosts)
  {
    && i <= |p| <= |o| == |s| && b0.hp <= 3
    && (forall k :: 0 <= k < |p| ==> s[k] == if k < i && Grabbed(p[k], r) then p[k].(alive := false) else p[k])
    && (forall k :: |p| <= k < |o| ==> s[k] == o[k])
    && b.hp == Min(3, b0.hp + GrabCount(p, i, r, Heart))
    && b.look == (b0.look && (GrabCount(p, i, r, Heart) == 0 || b.hp <= 1))
    && (GrabCount(p, i, r, Rapid) > 0 ==> b.rate == 100 && b.rapid && b.rapidEnd == now + 5000)
    && (GrabCount(p, i, r, Rapid) == 0 ==> b.rate == b0.rate && b.rapid == b0.rapid && b.rapidEnd == b0.rapidEnd)
    && b.tripleEnd == if GrabCount(p, i, r, Triple) > 0 then now + 5000 else b0.tripleEnd
  }

  /** The item scan's turn at i: a touching power-up dies and takes effect, anything else is left alone. */
  lemma GrabStep(s: seq<Entity>, b: Boosts, o: seq<Entity>, p: seq<Entity>, i: nat, r: Rect, now: int, b0: Boosts)
    requires i < |p| && GrabsSoFar(s, b, o, p, i, r, now, b0)
    ensures Grabbed(p[i], r) ==> GrabsSoFar(s[i := s[i].(alive := false)], Picked(b, p[i].body.power, now), o, p, i + 1, r, now, b0)
    ensures !Grabbed(p[i], r) ==> GrabsSoFar(s, b, o, p, i + 1, r, now, b0)
  {
  }

  /** A list whose part after n is the old part plus hit effects and power-ups keeps the old entities there and adds only those. */
  lemma TailGrows(o: seq<Entity>, s: seq<Entity>, n: nat, t: seq<Entity>)
    requires n <= |o| && n <= |s| && s[n..] == o[n..] + t
    requires forall x :: x in t ==> x.IsItem() || x.body.Hit?
    ensures |s| >= |o| && forall k :: n <= k < |o| ==> s[k] == o[k]
    ensures forall k :: |o| <= k < |s| ==> s[k].IsItem() || s[k].body.Hit?
  {
    forall k | |o| <= k < |s|
      ensures s[k].IsItem() || s[k].body.Hit?
    {
      assert s[k] == s[n..][k - n] == t[k - |o|];
    }
    forall k | n <= k < |o|
      ensures s[k] == o[k]
    {
      assert s[k] == s[n..][k - n];
    }
  }

  /** `e.fire()` on an entity that has a fire method; any other entity is left as it is. */
  function AfterFire(e: Entity, now: int): (r: Entity)
    ensures SameKind(e, r) && r.alive == e.alive && r.x == e.x && r.y == e.y
  {
    if e.IsShooter() then Fire(e, now).shooter else e
  }

  /**
   * The lasers `enemies.forEach(fire)` (bosses false) or `bosses.forEach(fire)`
   * (bosses true) push, in list order: all of them alive enemy lasers.
   */
  function Volleys(s: seq<Entity>, now: int, bosses: bool): (r: seq<Entity>)
    ensures forall v :: v in r ==> v.IsEnemyBullet() && v.alive
  {
    if s == [] then []
    else
      var e := s[|s| - 1];
      Volleys(s[..|s| - 1], now, bosses) + (if Fires(e, bosses) then Fire(e, now).shots else [])
  }

  /** One more entity of the pass adds exactly its own volley at the end. */
  lemma VolleysStep(o: seq<Entity>, i: nat, now: int, bosses: bool)
    requires i < |o|
    ensures Volleys(o[..i + 1], now, bosses) == Volleys(o[..i], now, bosses) + (if Fires(o[i], bosses) then Fire(o[i], now).shots else [])
  {
    assert o[..i + 1][..i] == o[..i];
  }

  /** One more entity of the second sweep adds its own hit effect and count at the end. */
  lemma DestroyStep(o: seq<Entity>, i: nat)
    requires i < |o|
    ensures var e := o[i];
      && EnemyBlastHits(o[..i + 1]) == EnemyBlastHits(o[..i]) + (if e.IsEnemy() && e.alive then [HitEffectAt(e.x, e.y)] else [])
      && AliveEnemies(o[..i + 1]) == AliveEnemies(o[..i]) + (if e.IsEnemy() && e.alive then 1 else 0)
  {
    assert o[..i + 1][..i] == o[..i];
  }

  /** One more entity of the third sweep adds its own hit effect and count at the end. */
  lemma BlastStep(o: seq<Entity>, i: nat)
    requires i < |o|
    ensures var b := o[i];
      && BossBlastHits(o[..i + 1]) == BossBlastHits(o[..i]) + (if b.IsBoss() && b.alive then [HitEffectAt(b.x, b.y)] else [])
      && BossesBlownUp(o[..i + 1]) == BossesBlownUp(o[..i]) + (if b.IsBoss() && b.alive && b.body.hp <= 10 then 1 else 0)
  {
    assert o[..i + 1][..i] == o[..i];
  }

  /** The entities the world list held before the firing pass, as the pass leaves them. */
  function Fired(s: seq<Entity>, now: int): (r: seq<Entity>)
    ensures |r| == |s| && forall k :: 0 <= k < |s| ==> r[k] == AfterFire(s[k], now)
  {
    seq(|s|, k requires 0 <= k < |s| => AfterFire(s[k], now))
  }

  /** Whether the boss pass (bosses true) or the enemy pass (false) calls this entity's `fire`. */
  predicate Fires(e: Entity, bosses: bool) {
    if bosses then e.IsBoss() else e.IsEnemy()
  }

  /** The enemy pass leaves the bosses as they were, so the boss pass fires the same volleys after it. */
  lemma {:induction false} VolleysOfUnfired(o: seq<Entity>, f: seq<Entity>, now: int)
    requires |f| == |o|
    requires forall k :: 0 <= k < |o| ==> f[k] == if Fires(o[k], false) then AfterFire(o[k], now) else o[k]
    ensures Volleys(f, now, true) == Volleys(o, now, true)
  {
    if o != [] {
      VolleysOfUnfired(o[..|o| - 1], f[..|f| - 1], now);
    }
  }

  class World {
    var objects: seq<Entity>
    const hero: Player
    const wing1: WingShip
    const wing2: WingShip
    const canvasWidth: int
    const canvasHeight: int
    const stage: nat
    /** The spawn timers `setupStageEnemies` armed. */
    const schedule: seq<Spawn>
    /** `enemyCounter`. */
    var total: nat
    var dead: nat
    /** GAME_WIN / GAME_LOSE emitted so far, in order. */
    var signals: seq<Signal>
    /** Power-up rolls used so far. */
    var draws: nat

    /** The escorts keep their places beside the hero: 120 px right and 55 px left, 30 px lower. */
    ghost predicate Formation()
      reads hero`x, hero`y, wing1`x, wing1`y, wing2`x, wing2`y
    {
      && wing1.x == hero.x + 120 && wing1.y == hero.y + 30
      && wing2.x == hero.x - 55 && wing2.y == hero.y + 30
    }

    ghost predicate Valid()
      reads hero`specialCharge, hero`hp, hero`alive, hero`fireCooldownMax, hero`cooldown
      reads wing1`cooldown, wing2`cooldown, hero`x, hero`y, wing1`x, wing1`y, wing2`x, wing2`y
    {
      hero.Valid() && wing1.Valid() && wing2.Valid() && wing1 != wing2 && Formation()
    }

    /**
     * `initGame` for a stage: `setupStageEnemies` (the twin boss at once on
     * stage 5, the counter, the spawn timers with positions from pick) and
     * `createPlayer` (hero centred three quarters down, escorts beside it).
     */
    constructor(stage0: nat, width: int, height: int, now: int, pick: nat -> int)
      ensures Valid() && fresh(hero) && fresh(wing1) && fresh(wing2)
      ensures stage == stage0 && canvasWidth == width && canvasHeight == height
      ensures objects == if stage0 == 5 then [TwinBossAt(TwinLeft, width / 2 - 256, now), TwinBossAt(TwinRight, width / 2, now)] else []
      ensures total == RosterTotal(stage0) && dead == 0 && signals == [] && draws == 0
      ensures |schedule| + StageRoster(stage0).bosses == total
      ensures CountModel(schedule, GreenShip) == StageRoster(stage0).green
      ensures CountModel(schedule, UfoShip) == StageRoster(stage0).ufo
      ensures hero.x == width / 2 - 45 && hero.y == height - height / 4
      ensures hero.alive && hero.hp == 3 && hero.score == 0 && hero.killCount == 0 && hero.specialCharge == 0
      ensures hero.cooldown == 0 && wing1.cooldown == 0 && wing2.cooldown == 0
    {
      canvasWidth, canvasHeight, stage := width, height, stage0;
      objects := [];
      if stage0 == 5 {
        objects := [TwinBossAt(TwinLeft, width / 2 - 256, now), TwinBossAt(TwinRight, width / 2, now)];
      }
      var t, s := ScheduleStage(stage0, pick);
      total, schedule := t, s;
      dead, signals, draws := 0, [], 0;
      hero := new Player(width / 2 - 45, height - height / 4);
      wing1 := new WingShip(width / 2 + 75, height - height / 4 + 30);
      wing2 := new WingShip(width / 2 - 100, height - height / 4 + 30);
    }

    // ----- spawning and boss patrol (timers) -----

    /** The k-th spawn timer firing: `spawnGreenShip(x)` or `spawnUfoShip(x)`. */
    method SpawnScheduled(k: nat, now: int)
      requires k < |schedule|
      modifies this`objects
      ensures objects == old(objects) + [if schedule[k].model == GreenShip then GreenShipAt(schedule[k].x, now) else UfoShipAt(schedule[k].x, now)]
    {
      var s := schedule[k];
      if s.model == GreenShip {
        objects := objects + [GreenShipAt(s.x, now)];
      } else {
        objects := objects + [UfoShipAt(s.x, now)];
      }
    }

    /** One tick of the patrol timer of the boss at position i. */
    method PatrolTick(i: nat)
      requires i < |objects| && objects[i].IsBoss()
      modifies this`objects
      ensures objects == old(objects)[i := PatrolStep(old(objects)[i], canvasWidth)]
      ensures Evolved(old(objects), objects, |objects|)
    {
      objects := objects[i := PatrolStep(objects[i], canvasWidth)];
    }

    // ----- movement and firing (MOVE_*, FIRE) -----

    /** MOVE_UP: hero and escorts move up by the hero's speed. */
    method MoveUp()
      requires Valid()
      modifies hero`y, wing1`y, wing2`y
      ensures Valid()
      ensures hero.y == old(hero.y) - hero.speed && hero.x == old(hero.x)
    {
      hero.y := hero.y - hero.speed;
      wing1.y := wing1.y - hero.speed;
      wing2.y := wing2.y - hero.speed;
    }

    /** MOVE_DOWN: hero and escorts move down by the hero's speed. */
    method MoveDown()
      requires Valid()
      modifies hero`y, wing1`y, wing2`y
      ensures Valid()
      ensures hero.y == old(hero.y) + hero.speed && hero.x == old(hero.x)
    {
      hero.y := hero.y + hero.speed;
      wing1.y := wing1.y + hero.speed;
      wing2.y := wing2.y + hero.speed;
    }

    /** MOVE_LEFT: one step left, only while the hero's left edge stays right of 0. */
    method MoveLeft()
      requires Valid()
      modifies hero`x, wing1`x, wing2`x
      ensures Valid()
      ensures hero.x == if old(hero.x) - hero.speed > 0 then old(hero.x) - hero.speed else old(hero.x)
      ensures 0 < old(hero.x) ==> 0 < hero.x
    {
      if hero.x - hero.speed > 0 {
        hero.x := hero.x - hero.speed;
        wing1.x := wing1.x - hero.speed;
        wing2.x := wing2.x - hero.speed;
      }
    }

    /** MOVE_RIGHT: one step right, only while the hero's right edge stays left of the canvas edge. */
    method MoveRight()
      requires Valid()
      modifies hero`x, wing1`x, wing2`x
      ensures Valid()
      ensures hero.x == if old(hero.x) + hero.width + hero.speed < canvasWidth then old(hero.x) + hero.speed else old(hero.x)
      ensures old(hero.x) + hero.width < canvasWidth ==> hero.x + hero.width < canvasWidth
    {
      if hero.x + hero.width + hero.speed < canvasWidth {
        hero.x := hero.x + hero.speed;
        wing1.x := wing1.x + hero.speed;
        wing2.x := wing2.x + hero.speed;
      }
    }

    /**
     * FIRE: nothing while the hero is cooling down; otherwise the hero's
     * volley, then each escort's laser if that escort is ready.
     */
    method OnFire(now: int)
      requires Valid()
      modifies this`objects, hero`cooldown, wing1`cooldown, wing2`cooldown
      ensures Valid()
      ensures old(hero.cooldown) != 0 ==>
        objects == old(objects) && hero.cooldown == old(hero.cooldown)
        && wing1.cooldown == old(wing1.cooldown) && wing2.cooldown == old(wing2.cooldown)
      ensures old(hero.cooldown) == 0 ==>
        && objects == old(objects) + PlayerVolley(hero.x, hero.y, now < hero.tripleEndTime)
             + (if old(wing1.cooldown) == 0 then [PlayerLaser(wing1.x + 12, wing1.y - 10)] else [])
             + (if old(wing2.cooldown) == 0 then [PlayerLaser(wing2.x + 12, wing2.y - 10)] else [])
        && hero.cooldown == hero.fireCooldownMax
        && wing1.cooldown == (if old(wing1.cooldown) == 0 then 500 else old(wing1.cooldown))
        && wing2.cooldown == (if old(wing2.cooldown) == 0 then 500 else old(wing2.cooldown))
    {
      if !hero.CanShoot() {
        return;
      }
      var s0 := hero.Shoot(now);
      var s1 := wing1.Shoot();
      var s2 := wing2.Shoot();
      objects := objects + s0 + s1 + s2;
    }

    // ----- collision handlers -----

    /**
     * HIT_ENEMY: ignored unless bullet and enemy are both alive; then both die,
     * the counter and kill count go up by one, 100 points, 10 charge, maybe a
     * power-up where the enemy was, and GAME_WIN once no foe is left.
     */
    method OnHitEnemy(b: nat, e: nat, dice: Dice)
      requires Valid() && b < |objects| && e < |objects|
      modifies this`objects, this`dead, this`signals, this`draws, hero`killCount, hero`score, hero`specialCharge
      ensures Valid()
      ensures Evolved(old(objects), objects, |old(objects)|)
      ensures !(old(objects)[b].alive && old(objects)[e].alive) ==>
        && objects == old(objects) && dead == old(dead) && signals == old(signals) && draws == old(draws)
        && hero.killCount == old(hero.killCount) && hero.score == old(hero.score)
        && hero.specialCharge == old(hero.specialCharge)
      ensures old(objects)[b].alive && old(objects)[e].alive ==>
        var o := old(objects);
        objects == o[b := o[b].(alive := false)][e := o[e].(alive := false)] + DropAt(dice(old(draws)), o[e].x, o[e].y)
      ensures old(objects)[b].alive && old(objects)[e].alive ==>
        && dead == old(dead) + 1 && draws == old(draws) + 1
        && hero.killCount == old(hero.killCount) + 1 && hero.score == old(hero.score) + 100
        && hero.specialCharge == ChargeAfterGain(old(hero.specialCharge), 10)
        && signals == old(signals) + (if AllEnemiesCleared(objects) then [Win] else [])
    {
      if !objects[b].alive || !objects[e].alive {
        return;
      }
      ghost var o := objects;
      var foe := objects[e];
      ShootDown(b, e);
      ghost var downed := objects;
      dead := dead + 1;
      hero.killCount := hero.killCount + 1;
      hero.AddScore(100);
      hero.GainSpecial(10);
      RollDrop(foe.x, foe.y, dice);
      EvolvedTrans(o, downed, objects, |o|, |downed|);
      if AllEnemiesCleared(objects) {
        signals := signals + [Win];
      }
    }

    /** The first two steps of HIT_ENEMY: bullet and enemy are marked dead. */
    method ShootDown(b: nat, e: nat)
      requires b < |objects| && e < |objects|
      modifies this`objects
      ensures objects == old(objects)[b := old(objects)[b].(alive := false)][e := old(objects)[e].(alive := false)]
      ensures Evolved(old(objects), objects, |old(objects)|)
    {
      objects := objects[b := objects[b].(alive := false)];
      objects := objects[e := objects[e].(alive := false)];
    }

    /**
     * HIT_ENEMY_BOSS: no alive check; the bullet dies, the boss loses 1 hp, 100
     * points and 5 charge. If the boss is then dead: maybe a power-up at its
     * centre, counter and kill count up by one, 20 more charge, and GAME_WIN
     * once no foe is left.
     */
    method OnHitBoss(b: nat, i: nat, dice: Dice)
      requires Valid() && b < |objects| && i < |objects| && objects[i].IsBoss()
      modifies this`objects, this`dead, this`signals, this`draws, hero`killCount, hero`score, hero`specialCharge
      ensures Valid()
      ensures Evolved(old(objects), objects, |old(objects)|)
      ensures var o1 := old(objects)[b := old(objects)[b].(alive := false)];
        var boss := Damaged(o1[i], 1);
        objects == o1[i := boss] + if boss.alive then [] else DropAt(dice(old(draws)), boss.x + boss.width / 2, boss.y + boss.height / 2)
      ensures hero.score == old(hero.score) + 100
      ensures objects[i].alive ==>
        && hero.specialCharge == ChargeAfterGain(old(hero.specialCharge), 5)
        && draws == old(draws) && dead == old(dead) && hero.killCount == old(hero.killCount)
        && signals == old(signals)
      ensures !objects[i].alive ==>
        && hero.specialCharge == ChargeAfterGain(ChargeAfterGain(old(hero.specialCharge), 5), 20)
        && draws == old(draws) + 1 && dead == old(dead) + 1 && hero.killCount == old(hero.killCount) + 1
        && signals == old(signals) + (if AllEnemiesCleared(objects) then [Win] else [])
      ensures Counters() == AfterBossHit(old(Counters()), Damaged(old(objects)[b := old(objects)[b].(alive := false)][i], 1), AllEnemiesCleared(objects))
    {
      ghost var o, c := objects, Counters();
      var boss := StrikeBoss(b, i);
      ghost var struck := objects;
      ghost var drop := if boss.alive then [] else DropAt(dice(draws), boss.x + boss.width / 2, boss.y + boss.height / 2);
      hero.AddScore(100);
      hero.GainSpecial(5);
      if !boss.alive {
        BossDown(boss.x + boss.width / 2, boss.y + boss.height / 2, dice);
        EvolvedTrans(o, struck, objects, |o|, |struck|);
      }
      assert objects == struck + drop;
      assert Counters() == AfterBossHit(c, boss, AllEnemiesCleared(objects));
    }

    /** The last steps of HIT_ENEMY_BOSS for a boss it killed: the power-up roll at (x, y), then the kill is counted. */
    method BossDown(x: int, y: int, dice: Dice)
      requires Valid()
      modifies this`objects, this`draws, this`dead, this`signals, hero`killCount, hero`specialCharge
      ensures Valid()
      ensures objects == old(objects) + DropAt(dice(old(draws)), x, y) && Evolved(old(objects), objects, |old(objects)|)
      ensures draws == old(draws) + 1 && dead == old(dead) + 1 && hero.killCount == old(hero.killCount) + 1
      ensures hero.specialCharge == ChargeAfterGain(old(hero.specialCharge), 20)
      ensures signals == old(signals) + (if AllEnemiesCleared(objects) then [Win] else [])
    {
      RollDrop(x, y, dice);
      CountBossKill();
    }

    /** The first two steps of HIT_ENEMY_BOSS: the bullet dies, then the boss takes one damage. */
    method StrikeBoss(b: nat, i: nat) returns (boss: Entity)
      requires b < |objects| && i < |objects| && objects[i].IsBoss()
      modifies this`objects
      ensures boss == Damaged(old(objects)[b := old(objects)[b].(alive := false)][i], 1)
      ensures objects == old(objects)[b := old(objects)[b].(alive := false)][i := boss]
      ensures Evolved(old(objects), objects, |old(objects)|)
    {
      objects := objects[b := objects[b].(alive := false)];
      boss := Damaged(objects[i], 1);
      objects := objects[i := boss];
    }

    /** One power-up roll: `dropRandomPowerUp(x, y)` when the roll says so. */
    method RollDrop(x: int, y: int, dice: Dice)
      modifies this`objects, this`draws
      ensures objects == old(objects) + DropAt(dice(old(draws)), x, y)
      ensures draws == old(draws) + 1
      ensures Evolved(old(objects), objects, |old(objects)|)
    {
      var roll := dice(draws);
      draws := draws + 1;
      objects := objects + DropAt(roll, x, y);
    }

    /** The tail of HIT_ENEMY_BOSS once the boss is dead: counters, the kill bonus, and the stage-clear test. */
    method CountBossKill()
      requires Valid()
      modifies this`dead, this`signals, hero`killCount, hero`specialCharge
      ensures Valid()
      ensures dead == old(dead) + 1 && hero.killCount == old(hero.killCount) + 1
      ensures hero.specialCharge == ChargeAfterGain(old(hero.specialCharge), 20)
      ensures signals == old(signals) + (if AllEnemiesCleared(objects) then [Win] else [])
    {
      dead := dead + 1;
      hero.killCount := hero.killCount + 1;
      hero.GainSpecial(20);
      if AllEnemiesCleared(objects) {
        signals := signals + [Win];
      }
    }

    /** HERO_HIT_BY_LASER: the laser dies, the hero takes one damage, GAME_LOSE at 0 hp or below. */
    method OnHeroHitByLaser(b: nat)
      requires Valid() && b < |objects|
      modifies this`objects, this`signals, hero`hp, hero`alive, hero`damagedLook
      ensures Valid()
      ensures Evolved(old(objects), objects, |old(objects)|)
      ensures objects == old(objects)[b := old(objects)[b].(alive := false)]
      ensures hero.hp == old(hero.hp) - 1 && hero.alive == (old(hero.alive) && hero.hp > 0)
      ensures hero.damagedLook == (old(hero.damagedLook) || hero.hp <= 1)
      ensures signals == old(signals) + (if hero.hp <= 0 then [Lose] else [])
    {
      objects := objects[b := objects[b].(alive := false)];
      hero.TakeDamage();
      if hero.hp <= 0 {
        signals := signals + [Lose];
      }
    }

    /**
     * ENEMY_COLLIDE_HERO and ENEMY_PASS_CANVAS (identical handlers): the enemy
     * dies and is counted, the hero takes one damage; GAME_LOSE at 0 hp or
     * below, otherwise GAME_WIN once no foe is left.
     */
    method OnEnemyDown(e: nat)
      requires Valid() && e < |objects|
      modifies this`objects, this`dead, this`signals, hero`hp, hero`alive, hero`damagedLook
      ensures Valid()
      ensures Evolved(old(objects), objects, |old(objects)|)
      ensures objects == old(objects)[e := old(objects)[e].(alive := false)]
      ensures dead == old(dead) + 1
      ensures hero.hp == old(hero.hp) - 1 && hero.alive == (old(hero.alive) && hero.hp > 0)
      ensures hero.damagedLook == (old(hero.damagedLook) || hero.hp <= 1)
      ensures signals == old(signals) +
        (if hero.hp <= 0 then [Lose] else if AllEnemiesCleared(objects) then [Win] else [])
      ensures BlowState() == Downed(old(BlowState()), e)
    {
      objects := objects[e := objects[e].(alive := false)];
      dead := dead + 1;
      hero.TakeDamage();
      if hero.hp <= 0 {
        signals := signals + [Lose];
      } else if AllEnemiesCleared(objects) {
        signals := signals + [Win];
      }
    }

    /** ENEMY_BOSS_COLLIDE_HERO: the hero takes one damage (the boss is untouched), GAME_LOSE at 0 hp or below. */
    method OnBossRam()
      requires Valid()
      modifies this`signals, hero`hp, hero`alive, hero`damagedLook
      ensures Valid()
      ensures hero.hp == old(hero.hp) - 1 && hero.alive == (old(hero.alive) && hero.hp > 0)
      ensures hero.damagedLook == (old(hero.damagedLook) || hero.hp <= 1)
      ensures signals == old(signals) + (if hero.hp <= 0 then [Lose] else [])
    {
      hero.TakeDamage();
      if hero.hp <= 0 {
        signals := signals + [Lose];
      }
    }

    /**
     * The hero touching the item at position i: the item dies and its effect
     * applies (heart: one hp back up to 3; rapid: fast fire for 5 s from now;
     * triple: triple shot until now + 5 s).
     */
    method PickUp(i: nat, now: int)
      requires Valid() && i < |objects| && objects[i].IsItem()
      modifies this`objects, hero`hp, hero`damagedLook, hero`fireCooldownMax, hero`rapidPending, hero`rapidEndTime, hero`tripleEndTime
      ensures Valid()
      ensures Evolved(old(objects), objects, |old(objects)|)
      ensures objects == old(objects)[i := old(objects)[i].(alive := false)]
      ensures HeroBoosts() == Picked(old(HeroBoosts()), old(objects)[i].body.power, now)
      ensures old(objects)[i].body.power == Heart ==>
        && hero.hp == (if old(hero.hp) < 3 then old(hero.hp) + 1 else old(hero.hp))
        && hero.damagedLook == (old(hero.damagedLook) && hero.hp <= 1)
        && hero.fireCooldownMax == old(hero.fireCooldownMax) && hero.tripleEndTime == old(hero.tripleEndTime)
        && hero.rapidPending == old(hero.rapidPending) && hero.rapidEndTime == old(hero.rapidEndTime)
      ensures old(objects)[i].body.power == Rapid ==>
        && hero.fireCooldownMax == 100 && hero.rapidPending && hero.rapidEndTime == now + 5000
        && hero.hp == old(hero.hp) && hero.tripleEndTime == old(hero.tripleEndTime)
        && hero.damagedLook == old(hero.damagedLook)
      ensures old(objects)[i].body.power == Triple ==>
        && hero.tripleEndTime == now + 5000
        && hero.hp == old(hero.hp) && hero.fireCooldownMax == old(hero.fireCooldownMax)
        && hero.damagedLook == old(hero.damagedLook)
        && hero.rapidPending == old(hero.rapidPending) && hero.rapidEndTime == old(hero.rapidEndTime)
    {
      var item := objects[i];
      objects := objects[i := item.(alive := false)];
      match item.body.power
      case Heart => hero.Heal();
      case Rapid => hero.ActivateRapid(now);
      case Triple => hero.ActivateTriple(now);
    }

    // ----- the special attack (SPECIAL, Player.useSpecial) -----

    /**
     * `useSpecial`: nothing until the charge is full. Then the charge resets;
     * every enemy laser dies; every alive enemy dies with a hit effect, 150
     * points and a count; every alive boss takes 10 damage with a hit effect,
     * and one it kills is counted with 300 points; GAME_WIN once no foe is left.
     */
    method UseSpecial()
      requires Valid()
      modifies this`objects, this`dead, this`signals, hero`specialCharge, hero`killCount, hero`score
      ensures Valid()
      ensures !old(hero.SpecialReady()) ==>
        && objects == old(objects) && dead == old(dead) && signals == old(signals)
        && hero.specialCharge == old(hero.specialCharge)
        && hero.killCount == old(hero.killCount) && hero.score == old(hero.score)
      ensures old(hero.SpecialReady()) ==>
        var o := old(objects);
        && objects == SweepAll(o) + EnemyBlastHits(o) + BossBlastHits(o)
        && hero.specialCharge == 0
        && dead == old(dead) + AliveEnemies(o) + BossesBlownUp(o)
        && hero.killCount == old(hero.killCount) + AliveEnemies(o) + BossesBlownUp(o)
        && hero.score == old(hero.score) + 150 * AliveEnemies(o) + 300 * BossesBlownUp(o)
        && signals == old(signals) + (if AllEnemiesCleared(objects) then [Win] else [])
    {
      if !hero.SpecialReady() {
        return;
      }
      hero.specialCharge := 0;
      SpecialSweeps();
      if AllEnemiesCleared(objects) {
        signals := signals + [Win];
      }
    }

    /** The three sweeps of `useSpecial`, over the entities present when it starts. */
    method SpecialSweeps()
      requires Valid()
      modifies this`objects, this`dead, hero`killCount, hero`score
      ensures Valid()
      ensures var o := old(objects);
        && objects == SweepAll(o) + EnemyBlastHits(o) + BossBlastHits(o)
        && dead == old(dead) + AliveEnemies(o) + BossesBlownUp(o)
        && hero.killCount == old(hero.killCount) + AliveEnemies(o) + BossesBlownUp(o)
        && hero.score == old(hero.score) + 150 * AliveEnemies(o) + 300 * BossesBlownUp(o)
    {
      ghost var o := objects;
      var n := |objects|;
      DisarmAll();
      ghost var d := objects;
      DisarmKeepsFoes(o, d);
      DestroyEnemies(n);
      ghost var t := objects;
      DestroyKeepsBosses(d, t[..n]);
      assert t[..n][..n] == t[..n];
      BlastBosses(n);
      assert objects[..n] == SweepAll(o);
      assert objects == objects[..n] + objects[n..];
    }

    /** First sweep of the special attack: every enemy laser is marked dead. */
    method DisarmAll()
      modifies this`objects
      ensures |objects| == |old(objects)|
      ensures forall k :: 0 <= k < |objects| ==> objects[k] == Disarmed(old(objects)[k])
    {
      ghost var o := objects;
      for i := 0 to |objects|
        invariant |objects| == |o|
        invariant forall k :: 0 <= k < |o| ==> objects[k] == if k < i then Disarmed(o[k]) else o[k]
      {
        if objects[i].IsEnemyBullet() {
          objects := objects[i := objects[i].(alive := false)];
        }
      }
    }

    /** Second sweep: each alive enemy among the first n dies, is counted, scores 150 and leaves a hit effect. */
    method DestroyEnemies(n: nat)
      requires Valid() && n == |objects|
      modifies this`objects, this`dead, hero`killCount, hero`score
      ensures Valid()
      ensures |objects| >= n
      ensures forall k :: 0 <= k < n ==> objects[k] == Destroyed(old(objects)[k])
      ensures objects[n..] == EnemyBlastHits(old(objects))
      ensures dead == old(dead) + AliveEnemies(old(objects))
      ensures hero.killCount == old(hero.killCount) + AliveEnemies(old(objects))
      ensures hero.score == old(hero.score) + 150 * AliveEnemies(old(objects))
    {
      ghost var o := objects;
      for i := 0 to n
        invariant Valid()
        invariant |objects| >= n
        invariant forall k :: 0 <= k < n ==> objects[k] == if k < i then Destroyed(o[k]) else o[k]
        invariant objects[n..] == EnemyBlastHits(o[..i])
        invariant dead == old(dead) + AliveEnemies(o[..i])
        invariant hero.killCount == old(hero.killCount) + AliveEnemies(o[..i])
        invariant hero.score == old(hero.score) + 150 * AliveEnemies(o[..i])
      {
        ghost var before := objects;
        DestroyStep(o, i);
        DestroyOne(i, n);
        assert objects[n..] == before[n..] + (if o[i].IsEnemy() && o[i].alive then [HitEffectAt(o[i].x, o[i].y)] else []);
      }
      assert o[..n] == o;
    }

    /** The second sweep's step on the entity at position i. */
    method DestroyOne(i: nat, ghost n: nat)
      requires Valid() && i < n <= |objects|
      modifies this`objects, this`dead, hero`killCount, hero`score
      ensures Valid()
      ensures var e := old(objects)[i];
        var hit := e.IsEnemy() && e.alive;
        && objects == old(objects)[i := Destroyed(e)] + (if hit then [HitEffectAt(e.x, e.y)] else [])
        && dead == old(dead) + (if hit then 1 else 0)
        && hero.killCount == old(hero.killCount) + (if hit then 1 else 0)
        && hero.score == old(hero.score) + (if hit then 150 else 0)
      ensures |objects| >= |old(objects)|
      ensures forall k :: 0 <= k < |old(objects)| ==> objects[k] == if k == i then Destroyed(old(objects)[i]) else old(objects)[k]
      ensures var e := old(objects)[i];
        objects[n..] == old(objects)[n..] + (if e.IsEnemy() && e.alive then [HitEffectAt(e.x, e.y)] else [])
    {
      var e := objects[i];
      if e.IsEnemy() && e.alive {
        objects := objects[i := e.(alive := false)];
        dead := dead + 1;
        hero.killCount := hero.killCount + 1;
        hero.AddScore(150);
        objects := objects + [HitEffectAt(e.x, e.y)];
      }
    }

    /** Third sweep: each alive boss among the first n loses 10 hp and leaves a hit effect; one that dies is counted and scores 300. */
    method BlastBosses(n: nat)
      requires Valid() && n <= |objects|
      modifies this`objects, this`dead, hero`killCount, hero`score
      ensures Valid()
      ensures |objects| >= |old(objects)|
      ensures forall k :: 0 <= k < n ==> objects[k] == Blasted(old(objects)[k])
      ensures objects[n..] == old(objects)[n..] + BossBlastHits(old(objects)[..n])
      ensures dead == old(dead) + BossesBlownUp(old(objects)[..n])
      ensures hero.killCount == old(hero.killCount) + BossesBlownUp(old(objects)[..n])
      ensures hero.score == old(hero.score) + 300 * BossesBlownUp(old(objects)[..n])
    {
      ghost var o := objects;
      for i := 0 to n
        invariant Valid()
        invariant |objects| >= |o|
        invariant forall k :: 0 <= k < n ==> objects[k] == if k < i then Blasted(o[k]) else o[k]
        invariant objects[n..] == o[n..] + BossBlastHits(o[..i])
        invariant dead == old(dead) + BossesBlownUp(o[..i])
        invariant hero.killCount == old(hero.killCount) + BossesBlownUp(o[..i])
        invariant hero.score == old(hero.score) + 300 * BossesBlownUp(o[..i])
      {
        ghost var before := objects;
        BlastStep(o, i);
        BlastOne(i, n);
        assert objects[n..] == before[n..] + (if o[i].IsBoss() && o[i].alive then [HitEffectAt(o[i].x, o[i].y)] else []);
      }
    }

    /** The third sweep's step on the entity at position i. */
    method BlastOne(i: nat, ghost n: nat)
      requires Valid() && i < n <= |objects|
      modifies this`objects, this`dead, hero`killCount, hero`score
      ensures Valid()
      ensures var b := old(objects)[i];
        var hit := b.IsBoss() && b.alive;
        var killed := hit && b.body.hp <= 10;
        && objects == old(objects)[i := Blasted(b)] + (if hit then [HitEffectAt(b.x, b.y)] else [])
        && dead == old(dead) + (if killed then 1 else 0)
        && hero.killCount == old(hero.killCount) + (if killed then 1 else 0)
        && hero.score == old(hero.score) + (if killed then 300 else 0)
      ensures |objects| >= |old(objects)|
      ensures forall k :: 0 <= k < |old(objects)| ==> objects[k] == if k == i then Blasted(old(objects)[i]) else old(objects)[k]
      ensures var b := old(objects)[i];
        objects[n..] == old(objects)[n..] + (if b.IsBoss() && b.alive then [HitEffectAt(b.x, b.y)] else [])
    {
      var b := objects[i];
      if b.IsBoss() && b.alive {
        var hurt := Damaged(b, 10);
        objects := objects[i := hurt];
        if !hurt.alive {
          dead := dead + 1;
          hero.killCount := hero.killCount + 1;
          hero.AddScore(300);
          objects := objects + [HitEffectAt(b.x, b.y)];
        } else {
          objects := objects + [HitEffectAt(b.x, b.y)];
        }
      }
    }

    // ----- one tick of the game loop (updateWorld) -----

    /**
     * The firing pass: every ordinary enemy's `fire`, then every boss's, each
     * over the whole list whether alive or not. Each entity is left as its own
     * `fire` leaves it, and the lasers follow the old list in that order.
     */
    method FireAll(now: int)
      modifies this`objects
      ensures |objects| >= |old(objects)|
      ensures forall k :: 0 <= k < |old(objects)| ==> objects[k] == AfterFire(old(objects)[k], now)
      ensures objects[|old(objects)|..] == Volleys(old(objects), now, false) + Volleys(old(objects), now, true)
      ensures Evolved(old(objects), objects, |old(objects)|)
      ensures objects[..|old(objects)|] == Fired(old(objects), now)
    {
      ghost var o := objects;
      var n := |objects|;
      FirePass(n, now, false);
      ghost var mid := objects;
      assert o[..n] == o;
      VolleysOfUnfired(o, mid[..n], now);
      FirePass(n, now, true);
      assert mid[..n][..n] == mid[..n];
      assert mid[n..] == Volleys(o, now, false);
      forall k | 0 <= k < n
        ensures objects[..n][k] == Fired(o, now)[k]
      {
      }
    }

    /** `enemies.forEach(fire)` (bosses false) or `bosses.forEach(fire)` (bosses true) over the first n entities. */
    method FirePass(n: nat, now: int, bosses: bool)
      requires n <= |objects|
      modifies this`objects
      ensures |objects| >= |old(objects)|
      ensures forall k :: 0 <= k < n ==> objects[k] == if Fires(old(objects)[k], bosses) then AfterFire(old(objects)[k], now) else old(objects)[k]
      ensures objects[n..] == old(objects)[n..] + Volleys(old(objects)[..n], now, bosses)
    {
      ghost var o := objects;
      for i := 0 to n
        invariant |objects| >= |o|
        invariant forall k :: 0 <= k < n ==> objects[k] == if k < i && Fires(o[k], bosses) then AfterFire(o[k], now) else o[k]
        invariant objects[n..] == o[n..] + Volleys(o[..i], now, bosses)
      {
        ghost var before := objects;
        VolleysStep(o, i, now, bosses);
        FireOne(i, n, now, bosses);
        assert objects[n..] == before[n..] + (if Fires(o[i], bosses) then Fire(o[i], now).shots else []);
      }
    }

    /** One `fire` call of a pass, on the entity at position i. */
    method FireOne(i: nat, ghost n: nat, now: int, bosses: bool)
      requires i < n <= |objects|
      modifies this`objects
      ensures var e := old(objects)[i];
        objects == if Fires(e, bosses) then old(objects)[i := Fire(e, now).shooter] + Fire(e, now).shots else old(objects)
      ensures |objects| >= |old(objects)|
      ensures objects[i] == if Fires(old(objects)[i], bosses) then AfterFire(old(objects)[i], now) else old(objects)[i]
      ensures forall k :: 0 <= k < |old(objects)| && k != i ==> objects[k] == old(objects)[k]
      ensures objects[n..] == old(objects)[n..] + (if Fires(old(objects)[i], bosses) then Fire(old(objects)[i], now).shots else [])
    {
      if Fires(objects[i], bosses) {
        var shot := Fire(objects[i], now);
        objects := objects[i := shot.shooter] + shot.shots;
      }
    }

    /**
     * `playerBullets.forEach` over the first n entities: each player laser
     * meets the enemies, then the bosses, as `LaserPass` gives. Every laser
     * that struck brought 100 points, every enemy or boss it brought down is
     * counted once and spent one power-up roll, and GAME_WIN is raised once,
     * if a kill left the stage clear. What the scan appends is hit effects and
     * power-ups.
     */
    method PlayerLaserScan(n: nat, dice: Dice)
      requires Valid() && n <= |objects|
      modifies this`objects, this`dead, this`signals, this`draws, hero`killCount, hero`score, hero`specialCharge
      ensures Valid()
      ensures Evolved(old(objects), objects, n)
      ensures objects[..n] == LaserPass(old(objects)[..n], n)
      ensures |objects| >= |old(objects)| && forall k :: n <= k < |old(objects)| ==> objects[k] == old(objects)[k]
      ensures forall k :: |old(objects)| <= k < |objects| ==> objects[k].IsItem() || objects[k].body.Hit?
      ensures var p, q := old(objects)[..n], objects[..n];
        && dead == old(dead) + FoesDowned(p, q)
        && hero.killCount == old(hero.killCount) + FoesDowned(p, q)
        && draws == old(draws) + FoesDowned(p, q)
        && hero.score == old(hero.score) + 100 * Dropped(p, q, Lasers)
        && hero.specialCharge == ChargeAfterGain(old(hero.specialCharge), LaserCharge(p, q))
        && signals == old(signals) + (if FoesDowned(p, q) > 0 && AllEnemiesCleared(objects) then [Win] else [])
      ensures dead >= old(dead) && hero.score >= old(hero.score) && old(signals) <= signals
    {
      ghost var o := objects;
      ghost var p := o[..n];
      ghost var c0 := Tallies(dead, hero.killCount, draws, hero.score, hero.specialCharge, signals);
      DroppedNone(p, Lasers);
      DroppedNone(p, Enemies);
      DroppedNone(p, Bosses);
      for bi := 0 to n
        invariant Valid() && LaserTallies(p, n, c0)
        invariant objects[..n] == LaserPass(p, bi)
        invariant |objects| >= |o| && forall k :: n <= k < |o| ==> objects[k] == o[k]
        invariant forall k :: |o| <= k < |objects| ==> objects[k].IsItem() || objects[k].body.Hit?
      {
        LaserPassKept(p, bi);
        LaserTurnAt(bi, n, dice, p, c0);
      }
      LaserPassKept(p, n);
      KeptEvolved(o, objects, n);
    }

    /** The laser scan's counters, measured from the entities p it started on and the counters c0 it started with. */
    ghost predicate LaserTallies(p: seq<Entity>, n: nat, c0: Tallies)
      reads this`objects, this`dead, this`signals, this`draws, hero`killCount, hero`score, hero`specialCharge
    {
      |p| == n <= |objects| && Counters() == LaserTallied(c0, p, objects[..n], AllEnemiesCleared(objects))
    }

    /** The turn of the entity at bi in the laser scan: a player laser's enemy loop, then its boss loop. */
    method LaserTurnAt(bi: nat, n: nat, dice: Dice, ghost p: seq<Entity>, ghost c0: Tallies)
      requires Valid() && bi < n && LaserTallies(p, n, c0) && KeptAll(p, objects[..n])
      modifies this`objects, this`dead, this`signals, this`draws, hero`killCount, hero`score, hero`specialCharge
      ensures Valid() && LaserTallies(p, n, c0)
      ensures objects[..n] == LaserTurn(old(objects)[..n], bi)
      ensures |objects| >= |old(objects)| && forall k :: n <= k < |old(objects)| ==> objects[k] == old(objects)[k]
      ensures forall k :: |old(objects)| <= k < |objects| ==> objects[k].IsItem() || objects[k].body.Hit?
    {
      if objects[bi].IsPlayerBullet() {
        EnemyPhase(bi, n, dice, p, c0);
        BossPhase(bi, n, dice, p, c0);
      }
    }

    /** The enemy loop of a laser's turn, keeping the laser scan's counters. */
    method EnemyPhase(bi: nat, n: nat, dice: Dice, ghost p: seq<Entity>, ghost c0: Tallies)
      requires Valid() && bi < n && LaserTallies(p, n, c0) && KeptAll(p, objects[..n]) && objects[bi].IsPlayerBullet()
      modifies this`objects, this`dead, this`signals, this`draws, hero`killCount, hero`score, hero`specialCharge
      ensures Valid() && LaserTallies(p, n, c0) && KeptAll(p, objects[..n]) && objects[bi].IsPlayerBullet()
      ensures objects[..n] == EnemyStep(old(objects)[..n], bi)
      ensures |objects| >= |old(objects)| && forall k :: n <= k < |old(objects)| ==> objects[k] == old(objects)[k]
      ensures forall k :: |old(objects)| <= k < |objects| ==> objects[k].IsItem() || objects[k].body.Hit?
    {
      ghost var o := objects;
      ghost var q := objects[..n];
      ghost var f := FirstStrike(q, bi, n, false);
      ghost var d1 := draws;
      LaserVersusEnemies(bi, n, dice);
      EnemyStepCounts(p, q, bi);
      EnemyStepKept(q, bi);
      KeptAllTrans(p, q, objects[..n]);
      if f.Some? {
        NotClearedWith(o, f.value);
        EnemyHitTallied(c0, p, q, objects[..n], AllEnemiesCleared(o), AllEnemiesCleared(objects));
        TailGrows(o, objects, n, EnemyHitTail(o[f.value], dice(d1)));
      }
    }

    /** The boss loop of a laser's turn, keeping the laser scan's counters. */
    method BossPhase(bi: nat, n: nat, dice: Dice, ghost p: seq<Entity>, ghost c0: Tallies)
      requires Valid() && bi < n && LaserTallies(p, n, c0) && KeptAll(p, objects[..n]) && objects[bi].IsPlayerBullet()
      modifies this`objects, this`dead, this`signals, this`draws, hero`killCount, hero`score, hero`specialCharge
      ensures Valid() && LaserTallies(p, n, c0)
      ensures objects[..n] == BossStep(old(objects)[..n], bi)
      ensures |objects| >= |old(objects)| && forall k :: n <= k < |old(objects)| ==> objects[k] == old(objects)[k]
      ensures forall k :: |old(objects)| <= k < |objects| ==> objects[k].IsItem() || objects[k].body.Hit?
    {
      ghost var o := objects;
      ghost var q := objects[..n];
      ghost var g := FirstStrike(q, bi, n, true);
      ghost var d2 := draws;
      LaserVersusBosses(bi, n, dice);
      BossStepCounts(p, q, bi);
      if g.Some? {
        ghost var boss := Damaged(q[g.value], 1);
        NotClearedWith(o, g.value);
        if boss.alive {
          NotClearedWith(objects, g.value);
        }
        BossHitTallied(c0, p, q, objects[..n], boss, AllEnemiesCleared(o), AllEnemiesCleared(objects));
        TailGrows(o, objects, n, BossHitTail(boss, dice(d2)));
      }
    }

    /** The counters the player-laser handlers move. */
    /** The state a tick's scans change, with the first n entities. */
    ghost function Tick(n: nat): Outcome
      requires n <= |objects|
      reads this`objects, this`dead, hero`killCount, hero`score, hero`hp, hero`alive
    {
      Outcome(objects[..n], dead, hero.killCount, hero.score, hero.hp, hero.alive)
    }

    ghost function BlowState(): Blows
      reads this`objects, this`dead, this`signals, hero`hp, hero`alive, hero`damagedLook
    {
      Blows(objects, dead, hero.hp, hero.alive, hero.damagedLook, signals)
    }

    ghost function HeroBoosts(): Boosts
      reads hero`hp, hero`damagedLook, hero`fireCooldownMax, hero`rapidPending, hero`rapidEndTime, hero`tripleEndTime
    {
      Boosts(hero.hp, hero.damagedLook, hero.fireCooldownMax, hero.rapidPending, hero.rapidEndTime, hero.tripleEndTime)
    }

    ghost function Counters(): Tallies
      reads this`dead, this`signals, this`draws, hero`killCount, hero`score, hero`specialCharge
    {
      Tallies(dead, hero.killCount, draws, hero.score, hero.specialCharge, signals)
    }

    /** The enemy loop of the laser at bi after the first ei of the n = |p| entities it started on (o, with p == o[..n]), from the counters c0. */
    ghost predicate EnemiesSoFar(o: seq<Entity>, p: seq<Entity>, bi: nat, ei: nat, c0: Tallies, dice: Dice)
      reads this`objects, this`dead, this`signals, this`draws, hero`killCount, hero`score, hero`specialCharge
    {
      && bi < |p| <= |o| <= |objects| && ei <= |p| && p == o[..|p|] && p[bi].IsPlayerBullet()
      && (FirstStrike(p, bi, ei, false).None? ==> objects == o && Counters() == c0)
      && (FirstStrike(p, bi, ei, false).Some? ==>
        var h := FirstStrike(p, bi, ei, false).value;
        && objects[..|p|] == p[bi := p[bi].(alive := false)][h := p[h].(alive := false)]
        && objects[|p|..] == o[|p|..] + EnemyHitTail(p[h], dice(c0.draws))
        && Counters() == AfterEnemyHit(c0, AllEnemiesCleared(objects)))
    }

    /** The turn of the entity at ei in the enemy loop of the laser at bi. */
    method EnemyTurnAt(bi: nat, ei: nat, n: nat, dice: Dice, ghost o: seq<Entity>, ghost p: seq<Entity>, ghost c0: Tallies)
      requires Valid() && ei < n == |p| && EnemiesSoFar(o, p, bi, ei, c0, dice)
      modifies this`objects, this`dead, this`signals, this`draws, hero`killCount, hero`score, hero`specialCharge
      ensures Valid() && EnemiesSoFar(o, p, bi, ei + 1, c0, dice)
    {
      assert objects[bi] == objects[..n][bi] && objects[ei] == objects[..n][ei];
      var b, e := objects[bi], objects[ei];
      if e.IsEnemy() && b.alive && e.alive && Intersects(b.GetRect(), e.GetRect()) {
        HitEnemy(bi, ei, n, dice);
      }
    }

    /** The boss loop of the laser at bi after the first ei of the n = |p| entities it started on (o, with p == o[..n]), from the counters c0. */
    ghost predicate BossesSoFar(o: seq<Entity>, p: seq<Entity>, bi: nat, ei: nat, c0: Tallies, dice: Dice)
      reads this`objects, this`dead, this`signals, this`draws, hero`killCount, hero`score, hero`specialCharge
    {
      && bi < |p| <= |o| <= |objects| && ei <= |p| && p == o[..|p|] && p[bi].IsPlayerBullet()
      && (FirstStrike(p, bi, ei, true).None? ==> objects == o && Counters() == c0)
      && (FirstStrike(p, bi, ei, true).Some? ==>
        var h := FirstStrike(p, bi, ei, true).value;
        var boss := Damaged(p[h], 1);
        && objects[..|p|] == p[bi := p[bi].(alive := false)][h := boss]
        && objects[|p|..] == o[|p|..] + BossHitTail(boss, dice(c0.draws))
        && Counters() == AfterBossHit(c0, boss, AllEnemiesCleared(objects)))
    }

    /** The turn of the entity at ei in the boss loop of the laser at bi. */
    method BossTurnAt(bi: nat, ei: nat, n: nat, dice: Dice, ghost o: seq<Entity>, ghost p: seq<Entity>, ghost c0: Tallies)
      requires Valid() && ei < n == |p| && BossesSoFar(o, p, bi, ei, c0, dice)
      modifies this`objects, this`dead, this`signals, this`draws, hero`killCount, hero`score, hero`specialCharge
      ensures Valid() && BossesSoFar(o, p, bi, ei + 1, c0, dice)
    {
      assert objects[bi] == objects[..n][bi] && objects[ei] == objects[..n][ei];
      var b, boss := objects[bi], objects[ei];
      if boss.IsBoss() && b.alive && boss.alive && Intersects(b.GetRect(), boss.GetRect()) {
        HitBoss(bi, ei, n, dice);
      }
    }

    /**
     * The enemy loop of the laser at bi over the first n entities: HIT_ENEMY
     * for the first alive enemy it touches, if any, then a hit effect where
     * that enemy was. After that hit the laser is dead and the loop does
     * nothing more; with no touch nothing changes.
     */
    method LaserVersusEnemies(bi: nat, n: nat, dice: Dice)
      requires Valid() && bi < n <= |objects| && objects[bi].IsPlayerBullet()
      modifies this`objects, this`dead, this`signals, this`draws, hero`killCount, hero`score, hero`specialCharge
      ensures Valid() && |objects| >= |old(objects)|
      ensures objects[..n] == EnemyStep(old(objects)[..n], bi)
      ensures FirstStrike(old(objects)[..n], bi, n, false).None? ==> objects == old(objects) && Counters() == old(Counters())
      ensures FirstStrike(old(objects)[..n], bi, n, false).Some? ==>
        var e := old(objects)[FirstStrike(old(objects)[..n], bi, n, false).value];
        && objects[n..] == old(objects)[n..] + EnemyHitTail(e, dice(old(draws)))
        && Counters() == AfterEnemyHit(old(Counters()), AllEnemiesCleared(objects))
    {
      ghost var o := objects;
      ghost var p := o[..n];
      ghost var c0 := Counters();
      for ei := 0 to n
        invariant Valid() && EnemiesSoFar(o, p, bi, ei, c0, dice)
      {
        EnemyTurnAt(bi, ei, n, dice, o, p, c0);
      }
      ghost var f := FirstStrike(p, bi, n, false);
      if f.Some? {
        assert p[f.value] == o[f.value];
      }
    }

    /** HIT_ENEMY for the laser at bi and the enemy at ei, both alive, then the hit effect where the enemy was. */
    method HitEnemy(bi: nat, ei: nat, ghost n: nat, dice: Dice)
      requires Valid() && bi < n && ei < n && n <= |objects| && objects[bi].alive && objects[ei].alive
      modifies this`objects, this`dead, this`signals, this`draws, hero`killCount, hero`score, hero`specialCharge
      ensures Valid() && |objects| >= |old(objects)|
      ensures objects[..n] == old(objects)[..n][bi := old(objects)[bi].(alive := false)][ei := old(objects)[ei].(alive := false)]
      ensures objects[n..] == old(objects)[n..] + EnemyHitTail(old(objects)[ei], dice(old(draws)))
      ensures Counters() == AfterEnemyHit(old(Counters()), AllEnemiesCleared(objects))
    {
      ghost var o := objects;
      OnHitEnemy(bi, ei, dice);
      ghost var mid := objects;
      assert Counters() == AfterEnemyHit(old(Counters()), AllEnemiesCleared(mid));
      ghost var drop := DropAt(dice(old(draws)), o[ei].x, o[ei].y);
      var fx := HitEffectAt(objects[ei].x, objects[ei].y);
      objects := objects + [fx];
      ClearedIgnoresOthers(mid, [fx]);
      assert objects == o[bi := o[bi].(alive := false)][ei := o[ei].(alive := false)] + (drop + [fx]);
      CutAfterUpdates(o, bi, ei, o[bi].(alive := false), o[ei].(alive := false), drop + [fx], n);
    }

    /**
     * The boss loop of the laser at bi over the first n entities:
     * HIT_ENEMY_BOSS for the first alive boss it touches, if any, then a hit
     * effect 80 px above that boss. After that hit the laser is dead and the
     * loop does nothing more; with no touch nothing changes.
     */
    method LaserVersusBosses(bi: nat, n: nat, dice: Dice)
      requires Valid() && bi < n <= |objects| && objects[bi].IsPlayerBullet()
      modifies this`objects, this`dead, this`signals, this`draws, hero`killCount, hero`score, hero`specialCharge
      ensures Valid() && |objects| >= |old(objects)|
      ensures objects[..n] == BossStep(old(objects)[..n], bi)
      ensures FirstStrike(old(objects)[..n], bi, n, true).None? ==> objects == old(objects) && Counters() == old(Counters())
      ensures FirstStrike(old(objects)[..n], bi, n, true).Some? ==>
        var boss := Damaged(old(objects)[FirstStrike(old(objects)[..n], bi, n, true).value], 1);
        && objects[n..] == old(objects)[n..] + BossHitTail(boss, dice(old(draws)))
        && Counters() == AfterBossHit(old(Counters()), boss, AllEnemiesCleared(objects))
    {
      ghost var o := objects;
      ghost var p := o[..n];
      ghost var c0 := Counters();
      for ei := 0 to n
        invariant Valid() && BossesSoFar(o, p, bi, ei, c0, dice)
      {
        BossTurnAt(bi, ei, n, dice, o, p, c0);
      }
      ghost var f := FirstStrike(p, bi, n, true);
      if f.Some? {
        assert p[bi := p[bi].(alive := false)][f.value] == p[f.value] == o[f.value];
      }
    }

    /** HIT_ENEMY_BOSS for the laser at bi and the boss at ei, then the hit effect 80 px above the boss. */
    method HitBoss(bi: nat, ei: nat, ghost n: nat, dice: Dice)
      requires Valid() && bi < n && ei < n && n <= |objects| && objects[bi].IsPlayerBullet() && objects[ei].IsBoss()
      modifies this`objects, this`dead, this`signals, this`draws, hero`killCount, hero`score, hero`specialCharge
      ensures Valid() && |objects| >= |old(objects)|
      ensures var boss := Damaged(old(objects)[ei], 1);
        && objects[..n] == old(objects)[..n][bi := old(objects)[bi].(alive := false)][ei := boss]
        && objects[n..] == old(objects)[n..] + BossHitTail(boss, dice(old(draws)))
        && Counters() == AfterBossHit(old(Counters()), boss, AllEnemiesCleared(objects))
    {
      ghost var o := objects;
      ghost var boss := Damaged(o[ei], 1);
      ghost var drop := if boss.alive then [] else DropAt(dice(old(draws)), boss.x + boss.width / 2, boss.y + boss.height / 2);
      OnHitBoss(bi, ei, dice);
      ghost var mid := objects;
      assert mid == o[bi := o[bi].(alive := false)][ei := boss] + drop;
      assert objects[ei] == boss;
      var fx := HitEffectAt(objects[ei].x, objects[ei].y - 80);
      assert drop + [fx] == BossHitTail(boss, dice(old(draws)));
      objects := objects + [fx];
      ClearedIgnoresOthers(mid, [fx]);
      assert objects == o[bi := o[bi].(alive := false)][ei := boss] + (drop + [fx]);
      CutAfterUpdates(o, bi, ei, o[bi].(alive := false), boss, drop + [fx], n);
    }

    /**
     * `enemyBullets.forEach` over the first n entities, against the hero: an
     * alive enemy laser touching the hero while it is alive raises
     * HERO_HIT_BY_LASER and leaves a hit effect at the hero. So the lasers of
     * `HeroShots` die, the hero loses one hp for each and dies once hp reaches
     * 0, and GAME_LOSE is raised at most once, by the blow that killed it.
     */
    method EnemyLaserScan(n: nat)
      requires Valid() && n <= |objects|
      modifies this`objects, this`signals, hero`hp, hero`alive, hero`damagedLook
      ensures Valid()
      ensures Evolved(old(objects), objects, n)
      ensures var p, r := old(objects)[..n], hero.GetRect();
        var hits := HitsTaken(p, n, r, old(hero.hp), old(hero.alive));
        && objects[..n] == HeroShots(p, r, old(hero.hp), old(hero.alive))
        && objects[n..] == old(objects)[n..] + Copies(HitEffectAt(hero.x, hero.y), hits)
        && hero.hp == old(hero.hp) - hits
        && hero.alive == (old(hero.alive) && hero.hp > 0)
        && hero.damagedLook == (old(hero.damagedLook) || (hits > 0 && hero.hp <= 1))
        && signals == old(signals) + (if hits > 0 && hero.hp <= 0 then [Lose] else [])
      ensures hero.hp <= old(hero.hp) && old(signals) <= signals
    {
      ghost var o := objects;
      ghost var p, r := o[..n], hero.GetRect();
      ghost var hp0, a0, d0, s0 := hero.hp, hero.alive, hero.damagedLook, signals;
      for bi := 0 to n
        invariant Valid() && hero.GetRect() == r && ShotsSoFar(o, p, bi, r, hp0, a0, d0, s0)
      {
        BurnTurn(bi, o, p, r, hp0, a0, d0, s0);
      }
      assert forall k :: 0 <= k < n ==> objects[k] == HeroShots(p, r, hp0, a0)[k];
      assert objects[..n] == HeroShots(p, r, hp0, a0);
      HeroShotsKept(p, r, hp0, a0);
      KeptEvolved(o, objects, n);
    }

    /** The enemy-laser scan after the first bi of the n = |p| entities it started on (o, with p == o[..n]). */
    ghost predicate ShotsSoFar(o: seq<Entity>, p: seq<Entity>, bi: nat, r: Rect, hp0: int, a0: bool, d0: bool, s0: seq<Signal>)
      reads this`objects, this`signals, hero`hp, hero`alive, hero`damagedLook, hero`x, hero`y
    {
      && bi <= |p| <= |o| && |p| <= |objects| && (a0 ==> hp0 > 0)
      && (forall k :: 0 <= k < |p| ==> objects[k] == if k < bi && HitsHero(p, k, r, hp0, a0) then p[k].(alive := false) else p[k])
      && objects[|p|..] == o[|p|..] + Copies(HitEffectAt(hero.x, hero.y), HitsTaken(p, bi, r, hp0, a0))
      && hero.hp == hp0 - HitsTaken(p, bi, r, hp0, a0)
      && hero.alive == (a0 && hero.hp > 0)
      && hero.damagedLook == (d0 || (HitsTaken(p, bi, r, hp0, a0) > 0 && hero.hp <= 1))
      && signals == s0 + (if HitsTaken(p, bi, r, hp0, a0) > 0 && hero.hp <= 0 then [Lose] else [])
    }

    /** The turn of the entity at bi in the enemy-laser scan. */
    method BurnTurn(bi: nat, ghost o: seq<Entity>, ghost p: seq<Entity>, ghost r: Rect, ghost hp0: int, ghost a0: bool, ghost d0: bool, ghost s0: seq<Signal>)
      requires Valid() && bi < |p| && hero.GetRect() == r && ShotsSoFar(o, p, bi, r, hp0, a0, d0, s0)
      modifies this`objects, this`signals, hero`hp, hero`alive, hero`damagedLook
      ensures Valid() && hero.GetRect() == r && ShotsSoFar(o, p, bi + 1, r, hp0, a0, d0, s0)
    {
      HitsTakenStep(p, bi, r, hp0, a0);
      HitsTakenBelow(p, bi, r, hp0, a0);
      var b := objects[bi];
      if b.IsEnemyBullet() && b.alive && hero.alive && Intersects(b.GetRect(), hero.GetRect()) {
        ghost var before := objects;
        OnHeroHitByLaser(bi);
        var fx := HitEffectAt(hero.x, hero.y);
        objects := objects + [fx];
        assert objects[|p|..] == before[|p|..] + [fx];
      }
    }

    /** The enemy scan's game-over events since s0, after downs blows (`DownSignalsOn` of the current state). */
    ghost predicate DownSignals(s0: seq<Signal>, downs: nat)
      reads this`objects, this`dead, this`signals, hero`hp, hero`alive, hero`damagedLook
    {
      DownSignalsOn(BlowState(), s0, downs)
    }

    /** The turn of the entity at ei in the enemy scan: the collision test, then the bottom-line test. */
    method EnemyTurn(ei: nat, ghost o: seq<Entity>, ghost p: seq<Entity>, ghost r: Rect, ghost b0: Blows)
      requires Valid() && ei < |p| && hero.GetRect() == r && DownsSoFar(BlowState(), o, p, ei, r, canvasHeight, b0)
      modifies this`objects, this`dead, this`signals, hero`hp, hero`alive, hero`damagedLook
      ensures Valid() && hero.GetRect() == r && DownsSoFar(BlowState(), o, p, ei + 1, r, canvasHeight, b0)
    {
      EnemyTurnStep(BlowState(), o, p, ei, r, canvasHeight, b0);
      var e := objects[ei];
      if e.IsEnemy() && e.alive {
        if Intersects(hero.GetRect(), e.GetRect()) {
          OnEnemyDown(ei);
        }
        if e.y > canvasHeight - e.height {
          OnEnemyDown(ei);
        }
      }
    }

    /**
     * `enemies.forEach` over the first n entities: an alive enemy touching the
     * hero raises ENEMY_COLLIDE_HERO, and then, whether or not that killed it,
     * one whose top is below the canvas height minus its own height raises
     * ENEMY_PASS_CANVAS. So the enemies of `EnemiesScanned` die, and each
     * blow costs one hp and counts one more enemy down.
     */
    method EnemyScan(n: nat)
      requires Valid() && n <= |objects|
      modifies this`objects, this`dead, this`signals, hero`hp, hero`alive, hero`damagedLook
      ensures Valid()
      ensures Evolved(old(objects), objects, n)
      ensures var p, r := old(objects)[..n], hero.GetRect();
        var downs := DownCount(p, n, r, canvasHeight);
        && objects[..n] == EnemiesScanned(p, r, canvasHeight)
        && |objects| == |old(objects)| && objects[n..] == old(objects)[n..]
        && dead == old(dead) + downs
        && hero.hp == old(hero.hp) - downs
        && hero.alive == (old(hero.alive) && hero.hp > 0)
        && hero.damagedLook == (old(hero.damagedLook) || (downs > 0 && hero.hp <= 1))
        && DownSignals(old(signals), downs)
      ensures dead >= old(dead) && hero.hp <= old(hero.hp) && old(signals) <= signals
    {
      ghost var o := objects;
      ghost var p, r := o[..n], hero.GetRect();
      ghost var b0 := BlowState();
      for ei := 0 to n
        invariant Valid() && hero.GetRect() == r && DownsSoFar(BlowState(), o, p, ei, r, canvasHeight, b0)
      {
        EnemyTurn(ei, o, p, r, b0);
      }
      assert objects[..n] == EnemiesScanned(p, r, canvasHeight);
      assert objects[n..] == o[n..];
      EnemiesScannedKept(p, r, canvasHeight);
      KeptEvolved(o, objects, n);
    }

    /**
     * `bosses.forEach` over the first n entities: an alive boss touching the
     * hero raises ENEMY_BOSS_COLLIDE_HERO, one hp per such boss, with GAME_LOSE
     * for every blow that leaves 0 hp or less.
     */
    method BossScan(n: nat)
      requires Valid() && n <= |objects|
      modifies this`signals, hero`hp, hero`alive, hero`damagedLook
      ensures Valid()
      ensures var rams := RamCount(objects[..n], n, hero.GetRect());
        && hero.hp == old(hero.hp) - rams
        && hero.alive == (old(hero.alive) && hero.hp > 0)
        && hero.damagedLook == (old(hero.damagedLook) || (rams > 0 && hero.hp <= 1))
        && signals == old(signals) + Losses(old(hero.hp), rams)
      ensures hero.hp <= old(hero.hp) && old(signals) <= signals
    {
      ghost var p, r := objects[..n], hero.GetRect();
      ghost var hp0, a0, d0, s0 := hero.hp, hero.alive, hero.damagedLook, signals;
      for i := 0 to n
        invariant Valid()
        invariant hero.hp == hp0 - RamCount(p, i, r)
        invariant hero.alive == (a0 && hero.hp > 0)
        invariant hero.damagedLook == (d0 || (RamCount(p, i, r) > 0 && hero.hp <= 1))
        invariant signals == s0 + Losses(hp0, RamCount(p, i, r))
      {
        var boss := objects[i];
        assert boss == p[i] && RamCount(p, i + 1, r) == RamCount(p, i, r) + (if BossRams(boss, r) then 1 else 0);
        if boss.IsBoss() && boss.alive && Intersects(hero.GetRect(), boss.GetRect()) {
          OnBossRam();
        }
      }
    }

    /** The turn of the entity at i in the item scan. */
    method GrabTurn(i: nat, now: int, ghost o: seq<Entity>, ghost p: seq<Entity>, ghost r: Rect, ghost b0: Boosts)
      requires Valid() && i < |p| && hero.GetRect() == r && GrabsSoFar(objects, HeroBoosts(), o, p, i, r, now, b0)
      modifies this`objects, hero`hp, hero`damagedLook, hero`fireCooldownMax, hero`rapidPending, hero`rapidEndTime, hero`tripleEndTime
      ensures Valid() && hero.GetRect() == r && GrabsSoFar(objects, HeroBoosts(), o, p, i + 1, r, now, b0)
    {
      GrabStep(objects, HeroBoosts(), o, p, i, r, now, b0);
      var item := objects[i];
      if item.IsItem() && item.alive && Intersects(item.GetRect(), hero.GetRect()) {
        PickUp(i, now);
      }
    }

    /**
     * `items.forEach` over the first n entities: an alive power-up touching
     * the hero is picked up. So the items of `ItemsGrabbed` die; each heart
     * gives one hp back up to 3; any rapid pickup leaves the fast cooldown
     * with its timer due 5 s from now, any triple pickup the triple shot
     * until then.
     */
    method ItemScan(n: nat, now: int)
      requires Valid() && n <= |objects|
      modifies this`objects, hero`hp, hero`damagedLook, hero`fireCooldownMax, hero`rapidPending, hero`rapidEndTime, hero`tripleEndTime
      ensures Valid()
      ensures Evolved(old(objects), objects, n) && |objects| == |old(objects)|
      ensures var p, r := old(objects)[..n], hero.GetRect();
        var hearts := GrabCount(p, n, r, Heart);
        && objects[..n] == ItemsGrabbed(p, r) && objects[n..] == old(objects)[n..]
        && hero.hp == Min(3, old(hero.hp) + hearts)
        && hero.damagedLook == (old(hero.damagedLook) && (hearts == 0 || hero.hp <= 1))
        && (GrabCount(p, n, r, Rapid) > 0 ==> hero.fireCooldownMax == 100 && hero.rapidPending && hero.rapidEndTime == now + 5000)
        && (GrabCount(p, n, r, Rapid) == 0 ==>
          && hero.fireCooldownMax == old(hero.fireCooldownMax) && hero.rapidPending == old(hero.rapidPending)
          && hero.rapidEndTime == old(hero.rapidEndTime))
        && hero.tripleEndTime == (if GrabCount(p, n, r, Triple) > 0 then now + 5000 else old(hero.tripleEndTime))
    {
      ghost var o := objects;
      ghost var p, r := o[..n], hero.GetRect();
      ghost var b0 := HeroBoosts();
      for i := 0 to n
        invariant Valid() && hero.GetRect() == r && GrabsSoFar(objects, HeroBoosts(), o, p, i, r, now, b0)
      {
        GrabTurn(i, now, o, p, r, b0);
      }
      assert objects[..n] == ItemsGrabbed(p, r);
      assert objects[n..] == o[n..];
      ItemsGrabbedKept(p, r);
      KeptEvolved(o, objects, n);
    }

    /**
     * `updateWorld`: the firing pass, the five collision scans over the
     * entities present at the start of the tick, then the compaction that
     * drops every dead entity. The scans leave those entities as `ScanAll`
     * of the fired list; the lasers fired this tick follow them unscanned.
     * The hero's hit points and the counters move as the scans' own contracts
     * say; the result is the compaction of the scanned list.
     */
    method UpdateWorld(now: int, dice: Dice) returns (ghost scanned: seq<Entity>)
      requires Valid()
      modifies this`objects, this`dead, this`signals, this`draws
      modifies hero`killCount, hero`score, hero`specialCharge, hero`hp, hero`alive, hero`damagedLook
      modifies hero`fireCooldownMax, hero`rapidPending, hero`rapidEndTime, hero`tripleEndTime
      ensures Valid()
      ensures Evolved(old(objects), scanned, |old(objects)|)
      ensures var n, volleys := |old(objects)|, Volleys(old(objects), now, false) + Volleys(old(objects), now, true);
        && |scanned| >= n + |volleys| && scanned[n..n + |volleys|] == volleys
        && Outcome(scanned[..n], dead, hero.killCount, hero.score, hero.hp, hero.alive)
           == ScanOutcome(Fired(old(objects), now), hero.GetRect(), canvasHeight, old(hero.hp), old(hero.alive), old(dead), old(hero.killCount), old(hero.score))
      ensures objects == AliveOnly(scanned)
      ensures forall e :: e in objects ==> e.alive
      ensures dead >= old(dead) && hero.score >= old(hero.score) && old(signals) <= signals
    {
      FireAndScan(now, dice);
      scanned := objects;
      objects := AliveOnly(objects);
    }

    /** `updateWorld` before its compaction: the firing pass, then the five collision scans over the entities present before it. */
    method FireAndScan(now: int, dice: Dice)
      requires Valid()
      modifies this`objects, this`dead, this`signals, this`draws
      modifies hero`killCount, hero`score, hero`specialCharge, hero`hp, hero`alive, hero`damagedLook
      modifies hero`fireCooldownMax, hero`rapidPending, hero`rapidEndTime, hero`tripleEndTime
      ensures Valid()
      ensures Evolved(old(objects), objects, |old(objects)|)
      ensures var n, volleys := |old(objects)|, Volleys(old(objects), now, false) + Volleys(old(objects), now, true);
        && |objects| >= n + |volleys| && objects[n..n + |volleys|] == volleys
        && Tick(n) == ScanOutcome(Fired(old(objects), now), hero.GetRect(), canvasHeight, old(hero.hp), old(hero.alive), old(dead), old(hero.killCount), old(hero.score))
      ensures dead >= old(dead) && hero.score >= old(hero.score) && old(signals) <= signals
    {
      var n := |objects|;
      ghost var o := objects;
      FireAll(now);
      ghost var fired := objects;
      ghost var volleys := Volleys(o, now, false) + Volleys(o, now, true);
      CollisionScans(n, now, dice, Fired(o, now));
      EvolvedTrans(o, fired, objects, n, n);
      forall k | 0 <= k < |volleys|
        ensures objects[n + k] == volleys[k]
      {
        assert objects[n + k] == fired[n + k] == fired[n..][k];
      }
      assert objects[n..n + |volleys|] == volleys;
    }

    /**
     * The five collision scans of `updateWorld`, in order, over the first n
     * entities: they leave those entities as `ScanAll` gives; the hero loses
     * one hp per laser hit, enemy blow and boss ram and then gets one back per
     * heart, up to 3.
     */
    method CollisionScans(n: nat, now: int, dice: Dice, ghost p: seq<Entity>)
      requires Valid() && n <= |objects| && objects[..n] == p
      modifies this`objects, this`dead, this`signals, this`draws
      modifies hero`killCount, hero`score, hero`specialCharge, hero`hp, hero`alive, hero`damagedLook
      modifies hero`fireCooldownMax, hero`rapidPending, hero`rapidEndTime, hero`tripleEndTime
      ensures Valid()
      ensures Evolved(old(objects), objects, n)
      ensures |objects| >= |old(objects)| && forall k :: n <= k < |old(objects)| ==> objects[k] == old(objects)[k]
      ensures Tick(n) == ScanOutcome(p, hero.GetRect(), canvasHeight, old(hero.hp), old(hero.alive), old(dead), old(hero.killCount), old(hero.score))
      ensures dead >= old(dead) && hero.score >= old(hero.score) && old(signals) <= signals
    {
      ghost var o := objects;
      LaserScans(n, dice);
      ghost var o2 := objects;
      BodyScans(n, now);
      EvolvedTrans(o, o2, objects, n, n);
    }

    /** The player-laser scan, then the enemy-laser scan, over the first n entities. */
    method LaserScans(n: nat, dice: Dice)
      requires Valid() && n <= |objects|
      modifies this`objects, this`dead, this`signals, this`draws
      modifies hero`killCount, hero`score, hero`specialCharge, hero`hp, hero`alive, hero`damagedLook
      ensures Valid()
      ensures Evolved(old(objects), objects, n)
      ensures |objects| >= |old(objects)| && (forall k :: n <= k < |old(objects)| ==> objects[k] == old(objects)[k])
      ensures Tick(n) == LaserOutcome(old(objects)[..n], hero.GetRect(), old(hero.hp), old(hero.alive), old(dead), old(hero.killCount), old(hero.score))
      ensures dead >= old(dead) && hero.score >= old(hero.score) && old(signals) <= signals
    {
      ghost var o := objects;
      PlayerLaserScan(n, dice);
      ghost var o1 := objects;
      EnemyLaserScan(n);
      EvolvedTrans(o, o1, objects, n, n);
      forall k | n <= k < |o|
        ensures objects[k] == o[k]
      {
        assert objects[k] == objects[n..][k - n] == o1[k];
      }
    }

    /** The enemy scan, then the boss scan, over the first n entities. */
    method FoeScans(n: nat)
      requires Valid() && n <= |objects|
      modifies this`objects, this`dead, this`signals, hero`hp, hero`alive, hero`damagedLook
      ensures Valid()
      ensures Evolved(old(objects), objects, n)
      ensures |objects| == |old(objects)| && objects[n..] == old(objects)[n..]
      ensures Tick(n) == FoeOutcome(old(Tick(n)), hero.GetRect(), canvasHeight)
      ensures dead >= old(dead) && old(signals) <= signals
    {
      EnemyScan(n);
      BossScan(n);
    }

    /** The enemy scan, the boss scan and the item scan, over the first n entities. */
    method BodyScans(n: nat, now: int)
      requires Valid() && n <= |objects|
      modifies this`objects, this`dead, this`signals
      modifies hero`hp, hero`alive, hero`damagedLook, hero`fireCooldownMax, hero`rapidPending, hero`rapidEndTime, hero`tripleEndTime
      ensures Valid()
      ensures Evolved(old(objects), objects, n)
      ensures |objects| == |old(objects)| && objects[n..] == old(objects)[n..]
      ensures Tick(n) == BodyOutcome(old(Tick(n)), hero.GetRect(), canvasHeight)
      ensures dead >= old(dead) && old(signals) <= signals
    {
      ghost var o := objects;
      FoeScans(n);
      ghost var o2 := objects;
      ItemPhase(n, now);
      EvolvedTrans(o, o2, objects, n, n);
    }

    /** The item scan seen through `Tick`: its outcome is `ItemOutcome` of the outcome before it. */
    method ItemPhase(n: nat, now: int)
      requires Valid() && n <= |objects|
      modifies this`objects, hero`hp, hero`damagedLook, hero`fireCooldownMax, hero`rapidPending, hero`rapidEndTime, hero`tripleEndTime
      ensures Valid()
      ensures Evolved(old(objects), objects, n)
      ensures |objects| == |old(objects)| && objects[n..] == old(objects)[n..]
      ensures Tick(n) == ItemOutcome(old(Tick(n)), hero.GetRect())
    {
      ghost var t, r := Tick(n), hero.GetRect();
      ItemScan(n, now);
      assert objects[..n] == ItemsGrabbed(t.scanned, r) && hero.hp == Min(3, t.hp + GrabCount(t.scanned, n, r, Heart));
    }
  }
}
