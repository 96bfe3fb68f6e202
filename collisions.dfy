/**
 * The five collision scans of one `updateWorld` tick as functions of the
 * entities the scans iterate: the lists `playerBullets`, `enemies`,
 * `bosses`, `enemyBullets` and `items` are filtered from the world list
 * before anything fires, so every scan walks the first n entities and never
 * the lasers or effects pushed during the tick. Each function gives a scan's
 * effect on those entities; the counts give how often a handler runs. The
 * lemmas state what a whole tick settles.
 */
module Collisions {
  import opened Common
  import opened Geometry
  import opened Entities
  import opened ObjectList

  function Min(a: int, b: int): int {
    if a < b then a else b
  }

  /** An entity as a later step of the tick may leave it: same kind, same rectangle, and not brought back to life. */
  predicate Kept(before: Entity, after: Entity) {
    SameKind(before, after) && after.GetRect() == before.GetRect() && (after.alive ==> before.alive)
  }

  predicate KeptAll(before: seq<Entity>, after: seq<Entity>) {
    |after| == |before| && forall k :: 0 <= k < |before| ==> Kept(before[k], after[k])
  }

  lemma KeptAllTrans(a: seq<Entity>, b: seq<Entity>, c: seq<Entity>)
    requires KeptAll(a, b) && KeptAll(b, c)
    ensures KeptAll(a, c)
  {
  }

  // ----- player lasers against enemies, then bosses -----

  /** Whether the boss loop (bosses true) or the enemy loop (false) takes t as a target. */
  predicate Target(t: Entity, bosses: bool) {
    if bosses then t.IsBoss() else t.IsEnemy()
  }

  /** The test of one player-laser iteration: a player laser and a target, both alive, overlapping. */
  predicate Strikes(b: Entity, t: Entity, bosses: bool) {
    && b.IsPlayerBullet() && Target(t, bosses)
    && b.alive && t.alive && Intersects(b.GetRect(), t.GetRect())
  }

  /** A strike between later versions of two entities was already a strike between the earlier ones. */
  lemma StrikesKept(b: Entity, t: Entity, b2: Entity, t2: Entity, bosses: bool)
    requires Kept(b, b2) && Kept(t, t2) && Strikes(b2, t2, bosses)
    ensures Strikes(b, t, bosses)
  {
  }

  /** The first target among the first m entities that the laser at bi strikes, in list order. */
  function FirstStrike(p: seq<Entity>, bi: nat, m: nat, bosses: bool): (r: Option<nat>)
    requires bi < |p| && m <= |p|
    ensures r.None? ==> forall k :: 0 <= k < m ==> !Strikes(p[bi], p[k], bosses)
    ensures r.Some? ==> r.value < m && Strikes(p[bi], p[r.value], bosses)
    ensures r.Some? ==> forall k :: 0 <= k < r.value ==> !Strikes(p[bi], p[k], bosses)
  {
    if m == 0 then None
    else
      var f := FirstStrike(p, bi, m - 1, bosses);
      if f.Some? then f
      else if Strikes(p[bi], p[m - 1], bosses) then Some(m - 1)
      else None
  }

  /**
   * The enemy loop of one player laser: it stops mattering once the laser is
   * dead, so HIT_ENEMY runs at most once, for the first enemy the laser
   * touches; laser and enemy are marked dead.
   */
  function EnemyStep(p: seq<Entity>, bi: nat): (r: seq<Entity>)
    requires bi < |p|
    ensures |r| == |p|
  {
    match FirstStrike(p, bi, |p|, false)
    case None => p
    case Some(h) => p[bi := p[bi].(alive := false)][h := p[h].(alive := false)]
  }

  /**
   * The boss loop of one player laser: HIT_ENEMY_BOSS runs at most once, for
   * the first boss the laser touches; the laser dies, then the boss takes one
   * damage.
   */
  function BossStep(p: seq<Entity>, bi: nat): (r: seq<Entity>)
    requires bi < |p|
    ensures |r| == |p|
  {
    match FirstStrike(p, bi, |p|, true)
    case None => p
    case Some(h) =>
      var q := p[bi := p[bi].(alive := false)];
      q[h := Damaged(q[h], 1)]
  }

  /** The turn of the entity at bi in `playerBullets.forEach`: a player laser meets the enemies, then the bosses. */
  function LaserTurn(p: seq<Entity>, bi: nat): (r: seq<Entity>)
    requires bi < |p|
    ensures |r| == |p|
  {
    if p[bi].IsPlayerBullet() then BossStep(EnemyStep(p, bi), bi) else p
  }

  /** `playerBullets.forEach` over the first m entities. */
  function LaserPass(p: seq<Entity>, m: nat): (r: seq<Entity>)
    requires m <= |p|
    ensures |r| == |p|
  {
    if m == 0 then p else LaserTurn(LaserPass(p, m - 1), m - 1)
  }

  lemma EnemyStepKept(p: seq<Entity>, bi: nat)
    requires bi < |p|
    ensures KeptAll(p, EnemyStep(p, bi))
  {
  }

  lemma BossStepKept(p: seq<Entity>, bi: nat)
    requires bi < |p|
    ensures KeptAll(p, BossStep(p, bi))
  {
  }

  lemma LaserTurnKept(p: seq<Entity>, bi: nat)
    requires bi < |p|
    ensures KeptAll(p, LaserTurn(p, bi))
  {
    if p[bi].IsPlayerBullet() {
      EnemyStepKept(p, bi);
      BossStepKept(EnemyStep(p, bi), bi);
      KeptAllTrans(p, EnemyStep(p, bi), LaserTurn(p, bi));
    }
  }

  /** The laser pass changes no kind or rectangle and revives nothing. */
  lemma {:induction false} LaserPassKept(p: seq<Entity>, m: nat)
    requires m <= |p|
    ensures KeptAll(p, LaserPass(p, m))
  {
    if m > 0 {
      var q := LaserPass(p, m - 1);
      LaserPassKept(p, m - 1);
      LaserTurnKept(q, m - 1);
      KeptAllTrans(p, q, LaserTurn(q, m - 1));
    }
  }

  /** No laser among the first m strikes anything any more. */
  predicate LasersSettled(s: seq<Entity>, m: nat) {
    forall b, t :: 0 <= b < m && 0 <= b < |s| && 0 <= t < |s| ==> !Strikes(s[b], s[t], false) && !Strikes(s[b], s[t], true)
  }

  /** Settled lasers stay settled when nothing comes back to life. */
  lemma SettledKept(s: seq<Entity>, s2: seq<Entity>, m: nat)
    requires LasersSettled(s, m) && KeptAll(s, s2)
    ensures LasersSettled(s2, m)
  {
    forall b, t | 0 <= b < m && 0 <= b < |s2| && 0 <= t < |s2|
      ensures !Strikes(s2[b], s2[t], false) && !Strikes(s2[b], s2[t], true)
    {
      if Strikes(s2[b], s2[t], false) {
        StrikesKept(s[b], s[t], s2[b], s2[t], false);
      }
      if Strikes(s2[b], s2[t], true) {
        StrikesKept(s[b], s[t], s2[b], s2[t], true);
      }
    }
  }

  /** After its turn the entity at bi strikes nothing: a player laser either hit a target and died, or touched none. */
  lemma LaserTurnSettles(q: seq<Entity>, bi: nat)
    requires bi < |q|
    ensures var r := LaserTurn(q, bi);
      forall t :: 0 <= t < |r| ==> !Strikes(r[bi], r[t], false) && !Strikes(r[bi], r[t], true)
  {
    if q[bi].IsPlayerBullet() {
      var q1 := EnemyStep(q, bi);
      var r := BossStep(q1, bi);
      BossStepKept(q1, bi);
      if FirstStrike(q, bi, |q|, false).Some? {
        assert !q1[bi].alive;
      } else if FirstStrike(q1, bi, |q1|, true).Some? {
        assert !r[bi].alive;
      } else {
        assert q1 == q && r == q1;
      }
    }
  }

  /**
   * After the whole pass no player laser alive touches an alive enemy or an
   * alive boss: every overlap the scan could see has been resolved.
   */
  lemma {:induction false} LaserPassSettles(p: seq<Entity>, m: nat)
    requires m <= |p|
    ensures LasersSettled(LaserPass(p, m), m)
  {
    if m > 0 {
      var q := LaserPass(p, m - 1);
      var r := LaserTurn(q, m - 1);
      LaserPassSettles(p, m - 1);
      LaserTurnKept(q, m - 1);
      SettledKept(q, r, m - 1);
      LaserTurnSettles(q, m - 1);
      forall b, t | 0 <= b < m && 0 <= t < |r|
        ensures !Strikes(r[b], r[t], false) && !Strikes(r[b], r[t], true)
      {
        if b < m - 1 {
          assert 0 <= b < m - 1 && 0 <= b < |r| && 0 <= t < |r|;
        }
      }
    }
  }

  /** The entity at k took part in a strike with some other entity of p. */
  predicate InStrike(p: seq<Entity>, k: nat)
    requires k < |p|
  {
    exists j :: 0 <= j < |p| && (
      || Strikes(p[k], p[j], false) || Strikes(p[k], p[j], true)
      || Strikes(p[j], p[k], false) || Strikes(p[j], p[k], true))
  }

  /** A step kills only the two entities of a strike in the list it starts from. */
  lemma StepKillsOnlyStrikers(q: seq<Entity>, bi: nat, bosses: bool)
    requires bi < |q|
    ensures var r := if bosses then BossStep(q, bi) else EnemyStep(q, bi);
      forall k :: 0 <= k < |q| && q[k].alive && !r[k].alive ==> InStrike(q, k)
  {
    var f := FirstStrike(q, bi, |q|, bosses);
    if f.Some? {
      var h := f.value;
      assert Strikes(q[bi], q[h], bosses);
      assert InStrike(q, bi) && InStrike(q, h);
    }
  }

  /** A strike among later versions of the entities was a strike among the earlier ones. */
  lemma InStrikeKept(p: seq<Entity>, q: seq<Entity>, k: nat)
    requires KeptAll(p, q) && k < |p| && InStrike(q, k)
    ensures InStrike(p, k)
  {
    var j :| 0 <= j < |q| && (
      || Strikes(q[k], q[j], false) || Strikes(q[k], q[j], true)
      || Strikes(q[j], q[k], false) || Strikes(q[j], q[k], true));
    if Strikes(q[k], q[j], false) { StrikesKept(p[k], p[j], q[k], q[j], false); }
    if Strikes(q[k], q[j], true) { StrikesKept(p[k], p[j], q[k], q[j], true); }
    if Strikes(q[j], q[k], false) { StrikesKept(p[j], p[k], q[j], q[k], false); }
    if Strikes(q[j], q[k], true) { StrikesKept(p[j], p[k], q[j], q[k], true); }
  }

  /** A laser's turn kills only entities of a strike in the list it starts from. */
  lemma LaserTurnKillsOnlyStrikers(q: seq<Entity>, bi: nat)
    requires bi < |q|
    ensures forall k :: 0 <= k < |q| && q[k].alive && !LaserTurn(q, bi)[k].alive ==> InStrike(q, k)
  {
    if q[bi].IsPlayerBullet() {
      var q1 := EnemyStep(q, bi);
      EnemyStepKept(q, bi);
      StepKillsOnlyStrikers(q, bi, false);
      StepKillsOnlyStrikers(q1, bi, true);
      forall k | 0 <= k < |q| && q[k].alive && !LaserTurn(q, bi)[k].alive
        ensures InStrike(q, k)
      {
        if q1[k].alive {
          InStrikeKept(q, q1, k);
        }
      }
    }
  }

  /** The laser pass kills only lasers and targets that were alive and overlapping when the tick started. */
  lemma {:induction false} LaserPassKillsOnlyStrikers(p: seq<Entity>, m: nat)
    requires m <= |p|
    ensures forall k :: 0 <= k < |p| && p[k].alive && !LaserPass(p, m)[k].alive ==> InStrike(p, k)
  {
    if m > 0 {
      var q := LaserPass(p, m - 1);
      LaserPassKillsOnlyStrikers(p, m - 1);
      LaserPassKept(p, m - 1);
      LaserTurnKillsOnlyStrikers(q, m - 1);
      forall k | 0 <= k < |p| && p[k].alive && !LaserPass(p, m)[k].alive
        ensures InStrike(p, k)
      {
        if q[k].alive {
          InStrikeKept(p, q, k);
        }
      }
    }
  }

  /** What the laser scan counts when it dies: player lasers spent, enemies and bosses downed. */
  datatype Tally = Lasers | Enemies | Bosses

  predicate Counted(e: Entity, t: Tally) {
    e.alive && match t
      case Lasers => e.IsPlayerBullet()
      case Enemies => e.IsEnemy()
      case Bosses => e.IsBoss()
  }

  /** The entities of p counted under t that are dead in q. */
  function Dropped(p: seq<Entity>, q: seq<Entity>, t: Tally): nat
    requires |p| == |q|
  {
    if p == [] then 0
    else
      var n := |p| - 1;
      Dropped(p[..n], q[..n], t) + (if Counted(p[n], t) && !q[n].alive then 1 else 0)
  }

  /** The enemies and bosses alive in p that are dead in q. */
  function FoesDowned(p: seq<Entity>, q: seq<Entity>): nat
    requires |p| == |q|
  {
    Dropped(p, q, Enemies) + Dropped(p, q, Bosses)
  }

  /** Nothing has dropped before the scan starts. */
  lemma {:induction false} DroppedNone(p: seq<Entity>, t: Tally)
    ensures Dropped(p, p, t) == 0
  {
    if p != [] {
      DroppedNone(p[..|p| - 1], t);
    }
  }

  /** Killing one more entity adds it to the count it belongs to; any other change of one entity keeps the counts. */
  lemma {:induction false} DroppedUpdate(p: seq<Entity>, q: seq<Entity>, i: nat, v: Entity, t: Tally)
    requires |p| == |q| && i < |q| && (v.alive ==> q[i].alive)
    ensures Dropped(p, q[i := v], t) == Dropped(p, q, t) + (if Counted(p[i], t) && q[i].alive && !v.alive then 1 else 0)
  {
    var n := |p| - 1;
    var q2 := q[i := v];
    if i == n {
      assert q2[..n] == q[..n];
    } else {
      assert q2[..n] == q[..n][i := v];
      DroppedUpdate(p[..n], q[..n], i, v, t);
    }
  }

  /** The counts after one laser's enemy loop: one more laser spent and one more enemy down exactly when it struck. */
  lemma EnemyStepCounts(p: seq<Entity>, q: seq<Entity>, bi: nat)
    requires KeptAll(p, q) && bi < |q|
    ensures var hit := if FirstStrike(q, bi, |q|, false).Some? then 1 else 0;
      && Dropped(p, EnemyStep(q, bi), Lasers) == Dropped(p, q, Lasers) + hit
      && Dropped(p, EnemyStep(q, bi), Enemies) == Dropped(p, q, Enemies) + hit
      && Dropped(p, EnemyStep(q, bi), Bosses) == Dropped(p, q, Bosses)
  {
    var f := FirstStrike(q, bi, |q|, false);
    if f.Some? {
      var h := f.value;
      var q1 := q[bi := q[bi].(alive := false)];
      assert EnemyStep(q, bi) == q1[h := q[h].(alive := false)];
      forall t: Tally
        ensures Dropped(p, EnemyStep(q, bi), t) == Dropped(p, q, t) + (if t == Bosses then 0 else 1)
      {
        DroppedUpdate(p, q, bi, q[bi].(alive := false), t);
        DroppedUpdate(p, q1, h, q[h].(alive := false), t);
      }
    }
  }

  /** The counts after one laser's boss loop: one more laser spent when it struck, one more boss down when the blow killed it. */
  lemma BossStepCounts(p: seq<Entity>, q: seq<Entity>, bi: nat)
    requires KeptAll(p, q) && bi < |q|
    ensures var f := FirstStrike(q, bi, |q|, true);
      && Dropped(p, BossStep(q, bi), Lasers) == Dropped(p, q, Lasers) + (if f.Some? then 1 else 0)
      && Dropped(p, BossStep(q, bi), Enemies) == Dropped(p, q, Enemies)
      && Dropped(p, BossStep(q, bi), Bosses) == Dropped(p, q, Bosses) + (if f.Some? && !Damaged(q[f.value], 1).alive then 1 else 0)
  {
    var f := FirstStrike(q, bi, |q|, true);
    if f.Some? {
      var h := f.value;
      var q1 := q[bi := q[bi].(alive := false)];
      assert q1[h] == q[h];
      forall t: Tally
        ensures Dropped(p, BossStep(q, bi), t) == Dropped(p, q, t) +
          match t
          case Lasers => 1
          case Enemies => 0
          case Bosses => if !Damaged(q[h], 1).alive then 1 else 0
      {
        DroppedUpdate(p, q, bi, q[bi].(alive := false), t);
        DroppedUpdate(p, q1, h, Damaged(q[h], 1), t);
      }
    }
  }

  /** Appending entities that are no enemy or boss alive does not change whether the stage is clear. */
  lemma ClearedIgnoresOthers(s: seq<Entity>, t: seq<Entity>)
    requires forall o :: o in t ==> !IsLiveFoe(o)
    ensures AllEnemiesCleared(s + t) == AllEnemiesCleared(s)
  {
    if !AllEnemiesCleared(s) {
      var o :| o in s && IsLiveFoe(o);
      assert o in s + t;
    }
  }

  /** A clear stage stays clear when an entity is marked dead. */
  lemma ClearedAfterKill(s: seq<Entity>, i: nat)
    requires i < |s| && AllEnemiesCleared(s)
    ensures AllEnemiesCleared(s[i := s[i].(alive := false)])
  {
    var s2 := s[i := s[i].(alive := false)];
    forall o | o in s2
      ensures !IsLiveFoe(o)
    {
      var k :| 0 <= k < |s2| && s2[k] == o;
      if k != i {
        assert s[k] in s;
      }
    }
  }

  /** The stage is not clear while some enemy or boss is alive. */
  lemma NotClearedWith(s: seq<Entity>, i: nat)
    requires i < |s| && IsLiveFoe(s[i])
    ensures !AllEnemiesCleared(s)
  {
    assert s[i] in s;
  }

  // ----- enemy lasers against the hero -----

  /** An alive enemy laser overlapping the hero's rectangle. */
  predicate Burns(b: Entity, hero: Rect) {
    b.IsEnemyBullet() && b.alive && Intersects(b.GetRect(), hero)
  }

  /** The overlapping enemy lasers among the first m entities. */
  function Burning(p: seq<Entity>, m: nat, hero: Rect): nat
    requires m <= |p|
  {
    if m == 0 then 0 else Burning(p, m - 1, hero) + (if Burns(p[m - 1], hero) then 1 else 0)
  }

  lemma {:induction false} BurningGrows(p: seq<Entity>, k: nat, m: nat, hero: Rect)
    requires k < m <= |p| && Burns(p[k], hero)
    ensures Burning(p, k, hero) < Burning(p, m, hero)
  {
    if m > k + 1 {
      BurningGrows(p, k, m - 1, hero);
    }
  }

  /**
   * The laser at k hits: the hero, alive with hp points when the scan began,
   * is still alive on its turn, that is, fewer earlier lasers hit than it had
   * points.
   */
  predicate HitsHero(p: seq<Entity>, k: nat, hero: Rect, hp: int, alive: bool)
    requires k < |p|
  {
    alive && Burns(p[k], hero) && Burning(p, k, hero) < hp
  }

  /** The enemy-laser scan: every laser that hits the hero is marked dead. */
  function HeroShots(p: seq<Entity>, hero: Rect, hp: int, alive: bool): (r: seq<Entity>)
    ensures |r| == |p|
  {
    seq(|p|, k requires 0 <= k < |p| => if HitsHero(p, k, hero, hp, alive) then p[k].(alive := false) else p[k])
  }

  /** The hit points the enemy-laser scan over the first m entities takes: one per overlapping laser while the hero lives. */
  function HitsTaken(p: seq<Entity>, m: nat, hero: Rect, hp: int, alive: bool): nat
    requires m <= |p|
  {
    if alive && hp > 0 then Min(Burning(p, m, hero), hp) else 0
  }

  /** One more laser's turn adds one hit exactly when that laser hits. */
  lemma HitsTakenStep(p: seq<Entity>, m: nat, hero: Rect, hp: int, alive: bool)
    requires m < |p|
    ensures HitsTaken(p, m + 1, hero, hp, alive) == HitsTaken(p, m, hero, hp, alive) + (if HitsHero(p, m, hero, hp, alive) then 1 else 0)
  {
  }

  /** The hero is alive at the k-th laser's turn exactly when fewer lasers have hit it than it had hit points. */
  lemma HitsTakenBelow(p: seq<Entity>, m: nat, hero: Rect, hp: int, alive: bool)
    requires m <= |p|
    ensures HitsTaken(p, m, hero, hp, alive) <= Burning(p, m, hero)
    ensures alive && hp > 0 ==> (hp - HitsTaken(p, m, hero, hp, alive) > 0 <==> Burning(p, m, hero) < hp)
  {
  }

  /** k copies of one entity: the hit effects the enemy-laser scan leaves at the hero. */
  function Copies(e: Entity, k: nat): (r: seq<Entity>)
    ensures |r| == k && forall j :: 0 <= j < k ==> r[j] == e
  {
    if k == 0 then [] else Copies(e, k - 1) + [e]
  }

  /** A hero that survives the scan is left touching no alive enemy laser. */
  lemma HeroShotsSettle(p: seq<Entity>, hero: Rect, hp: int, alive: bool)
    requires alive && Burning(p, |p|, hero) < hp
    ensures forall k :: 0 <= k < |p| ==> !Burns(HeroShots(p, hero, hp, alive)[k], hero)
  {
    forall k | 0 <= k < |p| && Burns(p[k], hero)
      ensures !HeroShots(p, hero, hp, alive)[k].alive
    {
      BurningGrows(p, k, |p|, hero);
    }
  }

  // ----- enemies against the hero and the bottom edge -----

  /** ENEMY_COLLIDE_HERO's test for an alive enemy. */
  predicate Rams(e: Entity, hero: Rect) {
    e.IsEnemy() && e.alive && Intersects(hero, e.GetRect())
  }

  /** ENEMY_PASS_CANVAS's test for an alive enemy: its top is below the canvas height minus its own height. */
  predicate Sinks(e: Entity, height: int) {
    e.IsEnemy() && e.alive && e.y > height - e.height
  }

  /** How many of the two handlers the enemy scan runs for e: each test is made once an enemy was alive at its turn. */
  function Downs(e: Entity, hero: Rect, height: int): nat {
    (if Rams(e, hero) then 1 else 0) + (if Sinks(e, height) then 1 else 0)
  }

  function DownCount(p: seq<Entity>, m: nat, hero: Rect, height: int): nat
    requires m <= |p|
  {
    if m == 0 then 0 else DownCount(p, m - 1, hero, height) + Downs(p[m - 1], hero, height)
  }

  /** The enemy scan on one entity: an alive enemy touching the hero or past the bottom line is marked dead. */
  function EnemyScanned(e: Entity, hero: Rect, height: int): Entity {
    if Rams(e, hero) || Sinks(e, height) then e.(alive := false) else e
  }

  /** The enemy scan leaves no alive enemy touching the hero or past the bottom line, and kills nothing else. */
  function EnemiesScanned(p: seq<Entity>, hero: Rect, height: int): (r: seq<Entity>)
    ensures |r| == |p|
    ensures forall k :: 0 <= k < |r| ==> !Rams(r[k], hero) && !Sinks(r[k], height)
    ensures forall k :: 0 <= k < |r| ==> r[k].alive == (p[k].alive && Downs(p[k], hero, height) == 0)
  {
    seq(|p|, k requires 0 <= k < |p| => EnemyScanned(p[k], hero, height))
  }

  // ----- bosses against the hero -----

  /** ENEMY_BOSS_COLLIDE_HERO's test for an alive boss. */
  predicate BossRams(b: Entity, hero: Rect) {
    b.IsBoss() && b.alive && Intersects(hero, b.GetRect())
  }

  function RamCount(p: seq<Entity>, m: nat, hero: Rect): nat
    requires m <= |p|
  {
    if m == 0 then 0 else RamCount(p, m - 1, hero) + (if BossRams(p[m - 1], hero) then 1 else 0)
  }

  // ----- items against the hero -----

  /** An alive power-up overlapping the hero. */
  predicate Grabbed(i: Entity, hero: Rect) {
    i.IsItem() && i.alive && Intersects(i.GetRect(), hero)
  }

  /** The overlapping power-ups of one type among the first m entities. */
  function GrabCount(p: seq<Entity>, m: nat, hero: Rect, power: PowerType): nat
    requires m <= |p|
  {
    if m == 0 then 0
    else GrabCount(p, m - 1, hero, power) + (if Grabbed(p[m - 1], hero) && p[m - 1].body.power == power then 1 else 0)
  }

  /** The item scan: every power-up touching the hero is marked dead; no alive one touches the hero afterwards. */
  function ItemsGrabbed(p: seq<Entity>, hero: Rect): (r: seq<Entity>)
    ensures |r| == |p|
    ensures forall k :: 0 <= k < |r| ==> !Grabbed(r[k], hero)
    ensures forall k :: 0 <= k < |r| ==> r[k].alive == (p[k].alive && !Grabbed(p[k], hero))
  {
    seq(|p|, k requires 0 <= k < |p| => if Grabbed(p[k], hero) then p[k].(alive := false) else p[k])
  }

  // ----- the whole tick -----

  /** The scanned entities after the player-laser, enemy-laser, enemy and item scans (the boss scan kills nothing). */
  function ScanAll(p: seq<Entity>, hero: Rect, height: int, hp: int, alive: bool): (r: seq<Entity>)
    ensures |r| == |p|
  {
    ItemsGrabbed(EnemiesScanned(HeroShots(LaserPass(p, |p|), hero, hp, alive), hero, height), hero)
  }

  /** What a tick's scans leave: the scanned entities, `enemyCounter.dead`, the kill count, the score, the hero's hp and life. */
  datatype Outcome = Outcome(scanned: seq<Entity>, dead: int, kills: int, score: int, hp: int, alive: bool)

  /**
   * The scans over p, from a hero with hp hit points and life alive and the
   * counters dead, kills and score: the two laser scans, then the enemy,
   * boss and item scans.
   */
  function ScanOutcome(p: seq<Entity>, hero: Rect, height: int, hp: int, alive: bool, dead: int, kills: int, score: int): (r: Outcome)
    ensures r.scanned == ScanAll(p, hero, height, hp, alive)
  {
    BodyOutcome(LaserOutcome(p, hero, hp, alive, dead, kills, score), hero, height)
  }

  /**
   * The player-laser and enemy-laser scans over p: one enemy down and one
   * kill per enemy or boss a player laser downs, 100 points per laser that
   * hit; the hero loses one hp per enemy-laser hit and is dead once those
   * reach its hp.
   */
  function LaserOutcome(p: seq<Entity>, hero: Rect, hp: int, alive: bool, dead: int, kills: int, score: int): Outcome {
    var s1 := LaserPass(p, |p|);
    var hits := HitsTaken(s1, |p|, hero, hp, alive);
    Outcome(HeroShots(s1, hero, hp, alive), dead + FoesDowned(p, s1), kills + FoesDowned(p, s1),
            score + 100 * Dropped(p, s1, Lasers), hp - hits, alive && hp - hits > 0)
  }

  /**
   * The enemy, boss and item scans after c: one enemy down per enemy blow;
   * the hero loses one hp per enemy blow and boss ram, is dead once those
   * reach its hp, and then gets one hp back per heart, up to 3.
   */
  function BodyOutcome(c: Outcome, hero: Rect, height: int): Outcome {
    ItemOutcome(FoeOutcome(c, hero, height), hero)
  }

  /** The enemy and boss scans after c: one enemy down per enemy blow; one hp per enemy blow and boss ram; dead once those reach the hero's hp. */
  function FoeOutcome(c: Outcome, hero: Rect, height: int): Outcome {
    var q, n := c.scanned, |c.scanned|;
    var s3 := EnemiesScanned(q, hero, height);
    var lost := DownCount(q, n, hero, height) + RamCount(s3, n, hero);
    c.(scanned := s3, dead := c.dead + DownCount(q, n, hero, height), hp := c.hp - lost, alive := c.alive && c.hp - lost > 0)
  }

  /** The item scan after c: one hp back per heart picked up, up to 3. */
  function ItemOutcome(c: Outcome, hero: Rect): Outcome {
    c.(scanned := ItemsGrabbed(c.scanned, hero), hp := Min(3, c.hp + GrabCount(c.scanned, |c.scanned|, hero, Heart)))
  }

  lemma HeroShotsKept(p: seq<Entity>, hero: Rect, hp: int, alive: bool)
    ensures KeptAll(p, HeroShots(p, hero, hp, alive))
  {
  }

  lemma EnemiesScannedKept(p: seq<Entity>, hero: Rect, height: int)
    ensures KeptAll(p, EnemiesScanned(p, hero, height))
  {
  }

  lemma ItemsGrabbedKept(p: seq<Entity>, hero: Rect)
    ensures KeptAll(p, ItemsGrabbed(p, hero))
  {
  }

  /**
   * What a tick settles, on the entities it scanned: kinds and rectangles are
   * kept and nothing revives; no alive player laser touches an alive enemy or
   * boss; a hero that outlives the enemy-laser scan touches no alive enemy
   * laser; no alive enemy touches the hero or is past the bottom line; and no
   * alive power-up touches the hero.
   */
  lemma ScanAllSettles(p: seq<Entity>, hero: Rect, height: int, hp: int, alive: bool)
    ensures var r := ScanAll(p, hero, height, hp, alive);
      && KeptAll(p, r)
      && LasersSettled(r, |r|)
      && (alive && Burning(LaserPass(p, |p|), |p|, hero) < hp ==> forall k :: 0 <= k < |r| ==> !Burns(r[k], hero))
      && (forall k :: 0 <= k < |r| ==> !Rams(r[k], hero) && !Sinks(r[k], height))
      && (forall k :: 0 <= k < |r| ==> !Grabbed(r[k], hero))
  {
    var s1 := LaserPass(p, |p|);
    var s2 := HeroShots(s1, hero, hp, alive);
    var s3 := EnemiesScanned(s2, hero, height);
    var r := ItemsGrabbed(s3, hero);
    LaserPassKept(p, |p|);
    HeroShotsKept(s1, hero, hp, alive);
    EnemiesScannedKept(s2, hero, height);
    ItemsGrabbedKept(s3, hero);
    KeptAllTrans(s1, s2, s3);
    KeptAllTrans(s1, s3, r);
    KeptAllTrans(p, s1, r);
    LaserPassSettles(p, |p|);
    SettledKept(s1, r, |p|);
    if alive && Burning(s1, |p|, hero) < hp {
      HeroShotsSettle(s1, hero, hp, alive);
      KeptAllTrans(s2, s3, r);
      forall k | 0 <= k < |r|
        ensures !Burns(r[k], hero)
      {
        assert Kept(s2[k], r[k]);
      }
    }
    forall k | 0 <= k < |r|
      ensures !Rams(r[k], hero) && !Sinks(r[k], height)
    {
      assert Kept(s3[k], r[k]);
    }
  }

  /**
   * What a tick kills, on the entities it scanned: an entity that was alive
   * and is dead afterwards took part in a laser strike, or was an enemy laser
   * overlapping the hero, an enemy touching the hero or past the bottom line,
   * or a power-up touching the hero.
   */
  lemma ScanAllKillsOnlyColliders(p: seq<Entity>, hero: Rect, height: int, hp: int, alive: bool)
    ensures var r := ScanAll(p, hero, height, hp, alive);
      forall k :: 0 <= k < |p| && p[k].alive && !r[k].alive ==>
        InStrike(p, k) || Burns(p[k], hero) || Rams(p[k], hero) || Sinks(p[k], height) || Grabbed(p[k], hero)
  {
    var s1 := LaserPass(p, |p|);
    var s2 := HeroShots(s1, hero, hp, alive);
    var s3 := EnemiesScanned(s2, hero, height);
    var r := ItemsGrabbed(s3, hero);
    LaserPassKept(p, |p|);
    LaserPassKillsOnlyStrikers(p, |p|);
    forall k | 0 <= k < |p| && p[k].alive && !r[k].alive
      ensures InStrike(p, k) || Burns(p[k], hero) || Rams(p[k], hero) || Sinks(p[k], height) || Grabbed(p[k], hero)
    {
      assert Kept(p[k], s1[k]);
      if s1[k].alive {
        assert Kept(p[k], s1[k]) && s2[k].GetRect() == s1[k].GetRect();
      }
    }
  }
}
