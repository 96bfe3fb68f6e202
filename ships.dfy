/**
 * The player's ships: the hero (`Player`) and its two escorts (`WingShip`).
 * Both are objects whose fields the game updates in place. Lasers they fire
 * are returned to the caller, which appends them to the world list.
 */
module Ships {
  import opened Geometry
  import opened Entities

  /**
   * The lasers one hero shot creates: one at offset 45, or three at offsets
   * 30, 45 and 60 while the triple power-up lasts, all 10 px above the ship.
   */
  function PlayerVolley(x: int, y: int, triple: bool): (shots: seq<Entity>)
    ensures |shots| == if triple then 3 else 1
    ensures shots[|shots| / 2] == PlayerLaser(x + 45, y - 10)
    ensures forall s :: s in shots ==> s.IsPlayerBullet() && s.alive && s.y == y - 10
    ensures forall s :: s in shots ==> x <= s.x && s.x + s.width <= x + 99
  {
    if triple then [PlayerLaser(x + 30, y - 10), PlayerLaser(x + 45, y - 10), PlayerLaser(x + 60, y - 10)]
    else [PlayerLaser(x + 45, y - 10)]
  }

  /** The special-attack charge after `gainSpecial(amount)`: `Math.min(100, charge + amount)`. */
  function ChargeAfterGain(charge: int, amount: int): (r: int)
    ensures r <= 100 && r <= charge + amount
    ensures r == 100 || r == charge + amount
    ensures amount >= 0 && charge <= 100 ==> charge <= r
  {
    if charge + amount < 100 then charge + amount else 100
  }

  /** Two gains in a row charge as much as their sum at once: the cap only ever cuts the total. */
  lemma ChargeGainsAdd(charge: int, a: nat, b: nat)
    ensures ChargeAfterGain(ChargeAfterGain(charge, a), b) == ChargeAfterGain(charge, a + b)
  {
  }

  /** A cooldown counted down in 100 ms steps, never above the slow rate. */
  predicate CooldownInRange(cooldown: int) {
    0 <= cooldown <= 500 && cooldown % 100 == 0
  }

  class Player {
    var x: int
    var y: int
    var alive: bool
    var hp: int
    var score: nat
    var killCount: nat
    /** Milliseconds until the next shot; 0 means ready. */
    var cooldown: int
    /** The cooldown a shot starts: 500 ms, or 100 ms while the rapid power-up lasts. */
    var fireCooldownMax: int
    /** The triple shot lasts while the clock is below this. */
    var tripleEndTime: int
    /** The pending `rapidTimeout`: armed, and the time it fires. */
    var rapidPending: bool
    var rapidEndTime: int
    var specialCharge: int
    /** The ships show the damaged sprite. */
    var damagedLook: bool

    const width: int
    const height: int
    const speed: int

    /** The hero's invariant: charge in [0, 100], hp at most 3, dead once hp reaches 0, a cooldown on the 100 ms grid. */
    ghost predicate Valid()
      reads this`specialCharge, this`hp, this`alive, this`fireCooldownMax, this`cooldown
    {
      && width == 99 && height == 75 && speed == 20
      && 0 <= specialCharge <= 100
      && hp <= 3
      && (hp <= 0 ==> !alive)
      && (fireCooldownMax == 100 || fireCooldownMax == 500)
      && CooldownInRange(cooldown)
    }

    /** `new Player(x, y)` as `createPlayer` leaves it (3 hp, the normal sprite). */
    constructor(x0: int, y0: int)
      ensures Valid()
      ensures x == x0 && y == y0 && alive && hp == 3 && score == 0 && killCount == 0
      ensures cooldown == 0 && fireCooldownMax == 500 && tripleEndTime == 0 && !rapidPending
      ensures specialCharge == 0 && !damagedLook
    {
      x, y := x0, y0;
      width, height, speed := 99, 75, 20;
      alive := true;
      hp := 3;
      score, killCount := 0, 0;
      cooldown, fireCooldownMax := 0, 500;
      tripleEndTime := 0;
      rapidPending, rapidEndTime := false, 0;
      specialCharge := 0;
      damagedLook := false;
    }

    /** `getRect` of the hero's ship. */
    function GetRect(): Rect
      reads this`x, this`y
    {
      Rect(y, x, y + height, x + width)
    }

    /** `canShoot`. */
    predicate CanShoot()
      reads this
    {
      cooldown == 0
    }

    /**
     * `shoot`: on cooldown nothing happens; otherwise one volley (a triple one
     * while now < tripleEndTime) and the cooldown restarts at fireCooldownMax.
     */
    method Shoot(now: int) returns (shots: seq<Entity>)
      requires Valid()
      modifies this`cooldown
      ensures Valid()
      ensures old(cooldown) != 0 ==> shots == [] && cooldown == old(cooldown)
      ensures old(cooldown) == 0 ==> shots == PlayerVolley(x, y, now < tripleEndTime) && cooldown == fireCooldownMax
    {
      if !CanShoot() {
        return [];
      }
      shots := PlayerVolley(x, y, now < tripleEndTime);
      cooldown := fireCooldownMax;
    }

    /** One tick of the 100 ms cooldown timer, which stops once the cooldown reaches 0. */
    method CooldownTick()
      requires Valid()
      modifies this`cooldown
      ensures Valid()
      ensures cooldown == if old(cooldown) > 0 then old(cooldown) - 100 else old(cooldown)
    {
      if cooldown > 0 {
        cooldown := cooldown - 100;
      }
    }

    /** `takeDamage`: exactly one hp less; at 0 or below the hero is dead; at 1 or below the ships look damaged. */
    method TakeDamage()
      requires Valid()
      modifies this`hp, this`alive, this`damagedLook
      ensures Valid()
      ensures hp == old(hp) - 1
      ensures alive == (old(alive) && hp > 0)
      ensures damagedLook == (old(damagedLook) || hp <= 1)
    {
      hp := hp - 1;
      if hp <= 0 {
        alive := false;
      }
      if hp <= 1 {
        damagedLook := true;
      }
    }

    /** `addScore(base)`. */
    method AddScore(base: nat)
      modifies this`score
      ensures score == old(score) + base
    {
      score := score + base;
    }

    /** `gainSpecial(amount)`: the charge grows by the amount but never beyond 100. */
    method GainSpecial(amount: nat)
      requires Valid()
      modifies this`specialCharge
      ensures Valid()
      ensures specialCharge == ChargeAfterGain(old(specialCharge), amount)
      ensures old(specialCharge) <= specialCharge <= 100
    {
      specialCharge := ChargeAfterGain(specialCharge, amount);
    }

    /** `specialReady`. */
    predicate SpecialReady()
      reads this
    {
      specialCharge >= 100
    }

    /** The heart pickup: one hp back while below 3; with more than 1 hp the normal sprite returns. */
    method Heal()
      requires Valid()
      modifies this`hp, this`damagedLook
      ensures Valid()
      ensures hp == if old(hp) < 3 then old(hp) + 1 else old(hp)
      ensures damagedLook == (old(damagedLook) && hp <= 1)
    {
      if hp < 3 {
        hp := hp + 1;
      }
      if hp > 1 {
        damagedLook := false;
      }
    }

    /**
     * The rapid pickup: the fast cooldown, and a 5-second timer that replaces
     * any pending one (the latest pickup decides when it ends).
     */
    method ActivateRapid(now: int)
      requires Valid()
      modifies this`fireCooldownMax, this`rapidPending, this`rapidEndTime
      ensures Valid()
      ensures fireCooldownMax == 100 && rapidPending && rapidEndTime == now + 5000
    {
      fireCooldownMax := 100;
      rapidPending, rapidEndTime := true, now + 5000;
    }

    /** The rapid timer firing at time now: once it is due the slow cooldown returns. */
    method RapidTimeout(now: int)
      requires Valid()
      modifies this`fireCooldownMax, this`rapidPending
      ensures Valid()
      ensures old(rapidPending) && now >= rapidEndTime ==> fireCooldownMax == 500 && !rapidPending
      ensures !(old(rapidPending) && now >= rapidEndTime) ==>
        fireCooldownMax == old(fireCooldownMax) && rapidPending == old(rapidPending)
    {
      if rapidPending && now >= rapidEndTime {
        fireCooldownMax := 500;
        rapidPending := false;
      }
    }

    /** The triple pickup: the triple shot lasts until now + 5000, replacing (not extending) any earlier end. */
    method ActivateTriple(now: int)
      modifies this`tripleEndTime
      ensures tripleEndTime == now + 5000
    {
      tripleEndTime := now + 5000;
    }
  }

  class WingShip {
    var x: int
    var y: int
    var cooldown: int
    const width: int
    const height: int

    ghost predicate Valid()
      reads this`cooldown
    {
      width == 33 && height == 25 && CooldownInRange(cooldown)
    }

    /** `new WingShip(x, y)`. */
    constructor(x0: int, y0: int)
      ensures Valid() && x == x0 && y == y0 && cooldown == 0
    {
      x, y := x0, y0;
      width, height := 33, 25;
      cooldown := 0;
    }

    /** `WingShip.shoot`: when ready, one laser at offset 12, 10 px above, and a fixed 500 ms cooldown. */
    method Shoot() returns (shots: seq<Entity>)
      requires Valid()
      modifies this`cooldown
      ensures Valid()
      ensures old(cooldown) != 0 ==> shots == [] && cooldown == old(cooldown)
      ensures old(cooldown) == 0 ==> shots == [PlayerLaser(x + 12, y - 10)] && cooldown == 500
    {
      if cooldown != 0 {
        return [];
      }
      shots := [PlayerLaser(x + 12, y - 10)];
      cooldown := 500;
    }

    /** One tick of the wing's 100 ms cooldown timer. */
    method CooldownTick()
      requires Valid()
      modifies this`cooldown
      ensures Valid()
      ensures cooldown == if old(cooldown) > 0 then old(cooldown) - 100 else old(cooldown)
    {
      if cooldown > 0 {
        cooldown := cooldown - 100;
      }
    }
  }
}
