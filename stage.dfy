/**
 * Stage setup and the end-of-game transition: how many enemies a stage
 * holds (`setupStageEnemies`), when each is spawned, and which stage follows
 * a win or a loss (`endGame`).
 */
module Stage {
  import opened Entities

  /** The numbers of green ships, UFOs and boss halves of one stage. */
  datatype Roster = Roster(green: nat, ufo: nat, bosses: nat)

  /** Stage n has 2n green ships and 3n UFOs; stage 5 has the twin boss and 4 of each instead. */
  function StageRoster(stage: nat): (r: Roster)
    ensures r.green <= r.ufo
    ensures r.bosses == 0 || r.bosses == 2
  {
    if stage == 5 then Roster(4, 4, 2) else Roster(stage * 2, stage * 3, 0)
  }

  /** The enemy counter's total for a stage. */
  function RosterTotal(stage: nat): nat {
    var r := StageRoster(stage);
    r.green + r.ufo + r.bosses
  }

  /** One `setTimeout` of the setup loop: after `delay` ms a ship of that model appears at x. */
  datatype Spawn = Spawn(delay: nat, model: EnemyModel, x: int)

  /**
   * The timers the first i rounds of the setup loop schedule. Round j draws
   * two random positions, pick(2j) for the green ship and pick(2j + 1) for the
   * UFO, schedules the green ship only while j < green, and spaces rounds 2 s apart.
   */
  function SpawnsUpTo(r: Roster, pick: nat -> int, i: nat): seq<Spawn> {
    if i == 0 then []
    else
      var j := i - 1;
      SpawnsUpTo(r, pick, j)
        + (if j < r.green then [Spawn(2000 * j, GreenShip, pick(2 * j))] else [])
        + [Spawn(2000 * j, UfoShip, pick(2 * j + 1))]
  }

  /** The number of scheduled ships of one model. */
  function CountModel(spawns: seq<Spawn>, model: EnemyModel): nat {
    if spawns == [] then 0
    else CountModel(spawns[..|spawns| - 1], model) + (if spawns[|spawns| - 1].model == model then 1 else 0)
  }

  lemma {:induction false} CountModelAppend(a: seq<Spawn>, b: seq<Spawn>, model: EnemyModel)
    ensures CountModel(a + b, model) == CountModel(a, model) + CountModel(b, model)
    decreases |b|
  {
    if b == [] {
      assert a + b == a;
    } else {
      assert (a + b)[..|a + b| - 1] == a + b[..|b| - 1];
      CountModelAppend(a, b[..|b| - 1], model);
    }
  }

  lemma CountModelSingle(s: Spawn, model: EnemyModel)
    ensures CountModel([s], model) == if s.model == model then 1 else 0
  {
    assert [s][..0] == [];
  }

  /** The j-th round adds one green ship while j < green, and always one UFO. */
  lemma RoundCounts(r: Roster, pick: nat -> int, j: nat)
    ensures CountModel(SpawnsUpTo(r, pick, j + 1), GreenShip)
      == CountModel(SpawnsUpTo(r, pick, j), GreenShip) + (if j < r.green then 1 else 0)
    ensures CountModel(SpawnsUpTo(r, pick, j + 1), UfoShip) == CountModel(SpawnsUpTo(r, pick, j), UfoShip) + 1
    ensures |SpawnsUpTo(r, pick, j + 1)| == |SpawnsUpTo(r, pick, j)| + (if j < r.green then 1 else 0) + 1
  {
    var prev := SpawnsUpTo(r, pick, j);
    var g := if j < r.green then [Spawn(2000 * j, GreenShip, pick(2 * j))] else [];
    var u := Spawn(2000 * j, UfoShip, pick(2 * j + 1));
    assert SpawnsUpTo(r, pick, j + 1) == (prev + g) + [u];
    CountModelSingle(u, GreenShip);
    CountModelSingle(u, UfoShip);
    CountModelAppend(prev + g, [u], GreenShip);
    CountModelAppend(prev + g, [u], UfoShip);
    CountModelAppend(prev, g, GreenShip);
    CountModelAppend(prev, g, UfoShip);
    if j < r.green {
      CountModelSingle(g[0], GreenShip);
      CountModelSingle(g[0], UfoShip);
    }
  }

  /** After i rounds: min(i, green) green ships and i UFOs. */
  lemma {:induction false} SpawnsUpToCounts(r: Roster, pick: nat -> int, i: nat)
    ensures CountModel(SpawnsUpTo(r, pick, i), GreenShip) == (if i < r.green then i else r.green)
    ensures CountModel(SpawnsUpTo(r, pick, i), UfoShip) == i
    ensures |SpawnsUpTo(r, pick, i)| == (if i < r.green then i else r.green) + i
  {
    if i > 0 {
      var j := i - 1;
      var prev, next := SpawnsUpTo(r, pick, j), SpawnsUpTo(r, pick, i);
      SpawnsUpToCounts(r, pick, j);
      RoundCounts(r, pick, j);
      assert CountModel(next, UfoShip) == i;
      if j < r.green {
        assert CountModel(next, GreenShip) == i && |next| == i + i;
      } else {
        assert CountModel(next, GreenShip) == r.green && |next| == r.green + i;
      }
    }
  }

  /** After i rounds every timer's delay is a whole number of 2-second slots below 2i seconds. */
  lemma {:induction false} SpawnsUpToDelays(r: Roster, pick: nat -> int, i: nat)
    ensures forall s :: s in SpawnsUpTo(r, pick, i) ==> s.delay % 2000 == 0 && s.delay < 2000 * i
  {
    if i > 0 {
      SpawnsUpToDelays(r, pick, i - 1);
    }
  }

  /**
   * The counting and scheduling part of `setupStageEnemies`: the counter's
   * total, and the timers of the loop over UFO rounds. Every enemy the total
   * counts is spawned: the boss halves at once, all others by a timer.
   */
  method ScheduleStage(stage: nat, pick: nat -> int) returns (total: nat, schedule: seq<Spawn>)
    ensures var r := StageRoster(stage);
      && total == r.green + r.ufo + r.bosses
      && |schedule| + r.bosses == total
      && CountModel(schedule, GreenShip) == r.green
      && CountModel(schedule, UfoShip) == r.ufo
      && forall s :: s in schedule ==> s.delay % 2000 == 0 && s.delay < 2000 * r.ufo
  {
    var r := StageRoster(stage);
    var greenCount, ufoCount, bossCount := r.green, r.ufo, r.bosses;
    var delay := 0;
    total := greenCount + ufoCount + bossCount;
    schedule := [];
    for i := 0 to ufoCount
      invariant delay == 2000 * i
      invariant schedule == SpawnsUpTo(r, pick, i)
    {
      var gx, ux := pick(2 * i), pick(2 * i + 1);
      ghost var g := if i < r.green then [Spawn(delay, GreenShip, gx)] else [];
      assert SpawnsUpTo(r, pick, i + 1) == schedule + g + [Spawn(delay, UfoShip, ux)];
      if i < greenCount {
        schedule := schedule + [Spawn(delay, GreenShip, gx)];
      }
      schedule := schedule + [Spawn(delay, UfoShip, ux)];
      delay := delay + 2000;
    }
    SpawnsUpToCounts(r, pick, ufoCount);
    SpawnsUpToDelays(r, pick, ufoCount);
  }

  /** What the delayed body of `endGame` leaves: the next stage, and whether the game restarts at once. */
  datatype AfterGame = AfterGame(stage: nat, restart: bool)

  /**
   * `endGame(win)`: a win before stage 5 moves to the next stage and restarts;
   * a win at stage 5 or any loss goes back to stage 1 and waits for Enter.
   */
  function EndGame(stage: nat, win: bool): (r: AfterGame)
    ensures 1 <= stage <= 5 ==> 1 <= r.stage <= 5
    ensures r.restart <==> win && stage != 5
    ensures r.restart ==> r.stage == stage + 1
    ensures !r.restart ==> r.stage == 1
  {
    if win && stage != 5 then AfterGame(stage + 1, true) else AfterGame(1, false)
  }
}
