/**
 * The shooter's event topics and the handlers `bindEvents` registers on the
 * bus, one per topic. `restartGame` clears the bus before binding again, so
 * every topic always has exactly one handler and an event runs it once.
 */
module Events {
  import opened Common
  import opened Bus

  /** `EVENTS`. */
  datatype Topic =
    | MoveUp | MoveDown | MoveLeft | MoveRight | Fire | Restart | Special
    | HitEnemy | HitEnemyBoss | HeroHitByLaser | EnemyCollideHero | EnemyBossCollideHero | EnemyPassCanvas
    | GameWin | GameLose

  /**
   * The closures `bindEvents` registers; each names the `Shooter.World` method
   * that models its body (or, for the last three, `restartGame` and `endGame`).
   */
  datatype Handler =
    | MoveUpHandler | MoveDownHandler | MoveLeftHandler | MoveRightHandler
    | FireHandler | SpecialHandler | RestartHandler
    | EnemyPassHandler | HitEnemyHandler | HitBossHandler | HeroHitHandler
    | EnemyCollideHandler | BossCollideHandler | WinHandler | LoseHandler

  /** The handler `bindEvents` registers for a topic. */
  function BoundHandler(t: Topic): Handler {
    match t
    case MoveUp => MoveUpHandler
    case MoveDown => MoveDownHandler
    case MoveLeft => MoveLeftHandler
    case MoveRight => MoveRightHandler
    case Fire => FireHandler
    case Special => SpecialHandler
    case Restart => RestartHandler
    case EnemyPassCanvas => EnemyPassHandler
    case HitEnemy => HitEnemyHandler
    case HitEnemyBoss => HitBossHandler
    case HeroHitByLaser => HeroHitHandler
    case EnemyCollideHero => EnemyCollideHandler
    case EnemyBossCollideHero => BossCollideHandler
    case GameWin => WinHandler
    case GameLose => LoseHandler
  }

  /** Different topics are bound to different handlers. */
  lemma BoundHandlerInjective(s: Topic, t: Topic)
    ensures BoundHandler(s) == BoundHandler(t) <==> s == t
  {
  }

  /** The group of five `on` calls, in source order, that registers a topic's handler. */
  function Group(t: Topic): nat {
    match t
    case MoveUp => 0
    case MoveDown => 0
    case MoveLeft => 0
    case MoveRight => 0
    case Fire => 0
    case Special => 1
    case Restart => 1
    case EnemyPassCanvas => 1
    case HitEnemy => 1
    case HitEnemyBoss => 1
    case HeroHitByLaser => 2
    case EnemyCollideHero => 2
    case EnemyBossCollideHero => 2
    case GameWin => 2
    case GameLose => 2
  }

  /** The registry after the `on` calls for the keyboard topics. */
  function BindControls(m0: map<Topic, seq<Handler>>): map<Topic, seq<Handler>> {
    var m1 := m0[MoveUp := Lookup(m0, MoveUp) + [MoveUpHandler]];
    var m2 := m1[MoveDown := Lookup(m1, MoveDown) + [MoveDownHandler]];
    var m3 := m2[MoveLeft := Lookup(m2, MoveLeft) + [MoveLeftHandler]];
    var m4 := m3[MoveRight := Lookup(m3, MoveRight) + [MoveRightHandler]];
    var m5 := m4[Fire := Lookup(m4, Fire) + [FireHandler]];
    m5
  }

  /** The topics of group 0 get their handler appended; the others are left alone. */
  lemma BindControlsLookup(m: map<Topic, seq<Handler>>, t: Topic)
    ensures Lookup(BindControls(m), t) == if Group(t) == 0 then Lookup(m, t) + [BoundHandler(t)] else Lookup(m, t)
  {
    match t
    case MoveUp =>
    case MoveDown =>
    case MoveLeft =>
    case MoveRight =>
    case Fire =>
    case Special =>
    case Restart =>
    case EnemyPassCanvas =>
    case HitEnemy =>
    case HitEnemyBoss =>
    case HeroHitByLaser =>
    case EnemyCollideHero =>
    case EnemyBossCollideHero =>
    case GameWin =>
    case GameLose =>
  }

  /** The registry after the `on` calls for the shot and hit topics. */
  function BindCombat(m0: map<Topic, seq<Handler>>): map<Topic, seq<Handler>> {
    var m1 := m0[Special := Lookup(m0, Special) + [SpecialHandler]];
    var m2 := m1[Restart := Lookup(m1, Restart) + [RestartHandler]];
    var m3 := m2[EnemyPassCanvas := Lookup(m2, EnemyPassCanvas) + [EnemyPassHandler]];
    var m4 := m3[HitEnemy := Lookup(m3, HitEnemy) + [HitEnemyHandler]];
    var m5 := m4[HitEnemyBoss := Lookup(m4, HitEnemyBoss) + [HitBossHandler]];
    m5
  }

  /** The topics of group 1 get their handler appended; the others are left alone. */
  lemma BindCombatLookup(m: map<Topic, seq<Handler>>, t: Topic)
    ensures Lookup(BindCombat(m), t) == if Group(t) == 1 then Lookup(m, t) + [BoundHandler(t)] else Lookup(m, t)
  {
    match t
    case MoveUp =>
    case MoveDown =>
    case MoveLeft =>
    case MoveRight =>
    case Fire =>
    case Special =>
    case Restart =>
    case EnemyPassCanvas =>
    case HitEnemy =>
    case HitEnemyBoss =>
    case HeroHitByLaser =>
    case EnemyCollideHero =>
    case EnemyBossCollideHero =>
    case GameWin =>
    case GameLose =>
  }

  /** The registry after the `on` calls for the collision and end-of-game topics. */
  function BindOutcomes(m0: map<Topic, seq<Handler>>): map<Topic, seq<Handler>> {
    var m1 := m0[HeroHitByLaser := Lookup(m0, HeroHitByLaser) + [HeroHitHandler]];
    var m2 := m1[EnemyCollideHero := Lookup(m1, EnemyCollideHero) + [EnemyCollideHandler]];
    var m3 := m2[EnemyBossCollideHero := Lookup(m2, EnemyBossCollideHero) + [BossCollideHandler]];
    var m4 := m3[GameWin := Lookup(m3, GameWin) + [WinHandler]];
    var m5 := m4[GameLose := Lookup(m4, GameLose) + [LoseHandler]];
    m5
  }

  /** The topics of group 2 get their handler appended; the others are left alone. */
  lemma BindOutcomesLookup(m: map<Topic, seq<Handler>>, t: Topic)
    ensures Lookup(BindOutcomes(m), t) == if Group(t) == 2 then Lookup(m, t) + [BoundHandler(t)] else Lookup(m, t)
  {
    match t
    case MoveUp =>
    case MoveDown =>
    case MoveLeft =>
    case MoveRight =>
    case Fire =>
    case Special =>
    case Restart =>
    case EnemyPassCanvas =>
    case HitEnemy =>
    case HitEnemyBoss =>
    case HeroHitByLaser =>
    case EnemyCollideHero =>
    case EnemyBossCollideHero =>
    case GameWin =>
    case GameLose =>
  }

  /** The registry after the fifteen `on` calls of `bindEvents`. */
  function Bindings(m: map<Topic, seq<Handler>>): map<Topic, seq<Handler>> {
    BindOutcomes(BindCombat(BindControls(m)))
  }

  /** Binding appends exactly the topic's own handler to every topic's list. */
  lemma {:induction false} BindingsAppendOne(m: map<Topic, seq<Handler>>, t: Topic)
    ensures Lookup(Bindings(m), t) == Lookup(m, t) + [BoundHandler(t)]
  {
    BindControlsLookup(m, t);
    BindCombatLookup(BindControls(m), t);
    BindOutcomesLookup(BindCombat(BindControls(m)), t);
  }

  /** `bindEvents`: one `on` per topic, in the source's order. */
  method BindEvents(bus: MessageBus<Topic, Handler>)
    modifies bus
    ensures bus.handlers == Bindings(old(bus.handlers))
    ensures forall t :: bus.Registered(t) == old(bus.Registered(t)) + [BoundHandler(t)]
  {
    ghost var h0 := bus.handlers;
    bus.On(MoveUp, MoveUpHandler);
    bus.On(MoveDown, MoveDownHandler);
    bus.On(MoveLeft, MoveLeftHandler);
    bus.On(MoveRight, MoveRightHandler);
    bus.On(Fire, FireHandler);
    bus.On(Special, SpecialHandler);
    bus.On(Restart, RestartHandler);
    bus.On(EnemyPassCanvas, EnemyPassHandler);
    bus.On(HitEnemy, HitEnemyHandler);
    bus.On(HitEnemyBoss, HitBossHandler);
    bus.On(HeroHitByLaser, HeroHitHandler);
    bus.On(EnemyCollideHero, EnemyCollideHandler);
    bus.On(EnemyBossCollideHero, BossCollideHandler);
    bus.On(GameWin, WinHandler);
    bus.On(GameLose, LoseHandler);
    forall t ensures bus.Registered(t) == Lookup(h0, t) + [BoundHandler(t)] {
      BindingsAppendOne(h0, t);
    }
  }

  /** The bus side of `restartGame`: `bus.clear()` then `bindEvents()`; afterwards every topic has exactly its one handler. */
  method Rebind(bus: MessageBus<Topic, Handler>)
    modifies bus
    ensures forall t :: bus.Registered(t) == [BoundHandler(t)]
  {
    bus.Clear();
    BindEvents(bus);
  }

  /** Emitting a topic on a bus bound once runs that topic's handler exactly once, with the payload (or an empty one). */
  method EmitBound(bus: MessageBus<Topic, Handler>, t: Topic, payload: Option<Payload>) returns (calls: seq<Call<Handler>>)
    requires forall s :: bus.Registered(s) == [BoundHandler(s)]
    ensures calls == [Call(BoundHandler(t), payload.GetOr(map[]))]
  {
    calls := bus.Emit(t, payload);
  }
}
