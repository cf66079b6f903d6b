/// An enemy (`Enemy`): a `BaseCharacter` body plus a kind fixed at
/// construction, the per-kind stats table, a pursuit rule that steers towards
/// a target character, contact damage, and a death cue latched by `killed`.
///
/// The C++ class inherits from `BaseCharacter`; here the enemy owns its body
/// (`body`) and holds a non-owning reference to its target, so the base
/// state and the enemy's own fields are framed separately.
module Enemies {
  import opened Geometry
  import opened Characters

  datatype EnemyType = Goblin | Slime | IntellectDevourer | EliteGoblin | SlimeKing

  /// The per-kind constants set by `setupEnemyStats`.
  datatype Stats = Stats(maxHealth: real, damagePerSec: real, radius: real)

  /// The field initialisers of `Enemy` (`maxHealth`, `damagePerSec`, `radius`).
  const DefaultStats: Stats := Stats(100.0, 12.0, 25.0)

  /// The table of `setupEnemyStats`.
  function StatsOf(kind: EnemyType): (s: Stats)
    ensures s.maxHealth > 0.0 && s.damagePerSec > 0.0 && s.radius > 0.0
  {
    match kind
    case Goblin => Stats(100.0, 12.0, 25.0)
    case Slime => Stats(60.0, 8.0, 20.0)
    case IntellectDevourer => Stats(180.0, 20.0, 35.0)
    case EliteGoblin => Stats(150.0, 18.0, 30.0)
    case SlimeKing => Stats(120.0, 15.0, 28.0)
  }

  /// The field defaults in the header are the Goblin row of the table.
  lemma DefaultsAreGoblinRow()
    ensures StatsOf(Goblin) == DefaultStats
  {
  }

  /// The vector at right angles to `v` used for the elite goblin's circling.
  function Perp(v: Vec2): Vec2 { Vec2(-v.y, v.x) }

  /// The per-kind rule of `Enemy::tick` applied to the raw pursuit vector
  /// `raw`, whose length is `distance`.
  function Steer(kind: EnemyType, radius: real, distance: real, raw: Vec2): (v: Vec2)
    ensures v == Zero || v == raw || (kind == EliteGoblin && v == Add(raw, Scale(Perp(raw), 0.3)))
  {
    match kind
    case Slime | SlimeKing => if distance < radius * 1.2 then Zero else raw
    case IntellectDevourer => if distance < radius * 0.8 then Zero else raw
    case EliteGoblin =>
      if distance < radius * 1.5 && distance > radius then Add(raw, Scale(Perp(raw), 0.3))
      else if distance < radius then Zero
      else raw
    case Goblin => if distance < radius then Zero else raw
  }

  /// How close, in radii, each kind comes before it stops.
  function StopFactor(kind: EnemyType): real
  {
    match kind
    case Goblin => 1.0
    case Slime => 1.2
    case SlimeKing => 1.2
    case IntellectDevourer => 0.8
    case EliteGoblin => 1.0
  }

  /// The elite goblin's circling vector is never zero while it has somewhere to go.
  lemma StrafeNonZero(raw: Vec2)
    requires raw != Zero
    ensures Add(raw, Scale(Perp(raw), 0.3)) != Zero
  {
    if raw.x != 0.0 {
      assert raw.x * 1.09 != 0.0;
    }
  }

  /// An enemy stops (its steered vector is zero) exactly when its target is
  /// strictly closer than `StopFactor(kind)` radii.
  lemma SteerStopsIff(kind: EnemyType, radius: real, distance: real, raw: Vec2)
    requires radius > 0.0 && distance >= 0.0
    requires distance == 0.0 <==> raw == Zero
    ensures Steer(kind, radius, distance, raw) == Zero <==> distance < StopFactor(kind) * radius
  {
    if raw != Zero {
      StrafeNonZero(raw);
    }
  }

  /// The elite goblin circles while strictly between one and one and a half
  /// radii, stops inside one radius, and pursues directly at exactly one
  /// radius or from one and a half radii on.
  lemma EliteGoblinBands(radius: real, distance: real, raw: Vec2)
    requires radius > 0.0
    ensures radius < distance < radius * 1.5 ==>
      Steer(EliteGoblin, radius, distance, raw) == Add(raw, Scale(Perp(raw), 0.3))
    ensures distance < radius ==> Steer(EliteGoblin, radius, distance, raw) == Zero
    ensures distance == radius || distance >= radius * 1.5 ==>
      Steer(EliteGoblin, radius, distance, raw) == raw
  {
  }

  /// Everything an `Enemy` holds apart from its target reference.
  datatype EnemyState = EnemyState(
    body: CharState,
    kind: EnemyType,
    stats: Stats,
    killed: bool,
    deathCues: nat)    // how many times the death sound was started

  /// `Enemy::getScreenPos`: the enemy's position relative to its target.
  function ScreenPosOf(body: CharState, target: CharState): Vec2
  {
    Sub(body.worldPos, target.worldPos)
  }

  /// The enemy's collision rectangle, anchored at its screen position.
  function EnemyRect(e: EnemyState, target: CharState): Rect
  {
    CollisionRecOf(e.body, ScreenPosOf(e.body, target))
  }

  /// The death cue has started at most once, and never before `killed` was latched.
  predicate CueLatched(e: EnemyState)
  {
    e.deathCues <= 1 && (!e.killed ==> e.deathCues == 0)
  }

  /// What one `Enemy::tick` leaves behind: the enemy and its target.
  datatype Encounter = Encounter(enemy: EnemyState, target: CharState)

  /// A live enemy's body after its tick: the pursuit vector to the target,
  /// steered by the kind's rule, then the base tick.
  function Pursued(e: EnemyState, target: CharState, deltaTime: real, rl: Raylib, targetScreen: Vec2): (r: CharState)
    ensures r.worldPosLastFrame == e.body.worldPos && 0 <= r.frame < MaxFrames
    ensures r.health == e.body.health && r.alive == e.body.alive
    ensures r.texture == e.body.run || r.texture == e.body.idle
  {
    var raw := Sub(targetScreen, ScreenPosOf(e.body, target));
    Ticked(e.body.(velocity := Steer(e.kind, e.stats.radius, rl.length(raw), raw)), deltaTime, rl)
  }

  /// Whether the enemy's tick hurts its target: it is alive and, after its
  /// move, its rectangle touches the target's.
  /// (When a bite happens is stated by `ContactDamage`.)
  function Bites(e: EnemyState, target: CharState, deltaTime: real, rl: Raylib, targetScreen: Vec2): (b: bool)
    ensures b ==> e.body.alive
  {
    && e.body.alive
    && var body := Pursued(e, target, deltaTime, rl, targetScreen);
       rl.collide(CollisionRecOf(target, targetScreen), CollisionRecOf(body, ScreenPosOf(body, target)))
  }

  /// `Enemy::tick(deltaTime)` against a target whose `getScreenPos` is
  /// `targetScreen`; `soundPlaying` is what `IsSoundPlaying` reports for the
  /// enemy's death sound.
  function EnemyTicked(e: EnemyState, target: CharState, deltaTime: real, rl: Raylib,
                       targetScreen: Vec2, soundPlaying: bool): (r: Encounter)
    ensures r.enemy.kind == e.kind && r.enemy.stats == e.stats
    ensures r.target.worldPos == target.worldPos
  {
    if !e.body.alive then
      var cue := if !soundPlaying && !e.killed then 1 else 0;
      Encounter(e.(killed := true, deathCues := e.deathCues + cue), target)
    else
      Encounter(e.(body := Pursued(e, target, deltaTime, rl, targetScreen)),
                if Bites(e, target, deltaTime, rl, targetScreen)
                then Damaged(target, e.stats.damagePerSec * deltaTime) else target)
  }

  /// A dead enemy neither moves nor hurts its target; it only latches `killed`.
  lemma DeadEnemyIsInert(e: EnemyState, target: CharState, deltaTime: real, rl: Raylib,
                         targetScreen: Vec2, soundPlaying: bool)
    requires !e.body.alive
    ensures var r := EnemyTicked(e, target, deltaTime, rl, targetScreen, soundPlaying);
      r.enemy.body == e.body && r.target == target && r.enemy.killed
  {
  }

  /// The death cue starts at most once per enemy: `CueLatched` holds forever
  /// once it holds, and a cue is started only on the tick that latches `killed`.
  lemma DeathCueAtMostOnce(e: EnemyState, target: CharState, deltaTime: real, rl: Raylib,
                           targetScreen: Vec2, soundPlaying: bool)
    requires CueLatched(e)
    ensures var r := EnemyTicked(e, target, deltaTime, rl, targetScreen, soundPlaying);
      && CueLatched(r.enemy)
      && (r.enemy.deathCues > e.deathCues ==> !e.killed && r.enemy.killed)
  {
  }

  /// A live enemy always ticks its body once; the target takes exactly
  /// `damagePerSec * deltaTime` when the rectangles touch after the move
  /// (even when the enemy stood still), and nothing else of the target changes.
  lemma ContactDamage(e: EnemyState, target: CharState, deltaTime: real, rl: Raylib,
                      targetScreen: Vec2, soundPlaying: bool)
    requires e.body.alive
    ensures var r := EnemyTicked(e, target, deltaTime, rl, targetScreen, soundPlaying);
      && r.enemy.body.worldPosLastFrame == e.body.worldPos
      && r.enemy.killed == e.killed && r.enemy.deathCues == e.deathCues
      && r.target.(health := target.health, alive := target.alive) == target
      && (if rl.collide(CollisionRecOf(target, targetScreen), EnemyRect(r.enemy, target))
          then r.target.health == (if target.health - e.stats.damagePerSec * deltaTime <= 0.0 then 0.0
                                   else target.health - e.stats.damagePerSec * deltaTime)
          else r.target == target)
  {
  }

  /// With a lawful `Vector2Length`, a live enemy moves this tick exactly when
  /// its target is at least `StopFactor` radii away (the pursuit vector is the
  /// target's screen position minus the enemy's).
  lemma PursuitStopsIff(e: EnemyState, target: CharState, deltaTime: real, rl: Raylib,
                        targetScreen: Vec2, soundPlaying: bool)
    requires LawfulLength(rl)
    requires e.body.alive && e.stats.radius > 0.0
    ensures var raw := Sub(targetScreen, ScreenPosOf(e.body, target));
      var r := EnemyTicked(e, target, deltaTime, rl, targetScreen, soundPlaying);
      r.enemy.body.wasMoving <==> rl.length(raw) >= StopFactor(e.kind) * e.stats.radius
  {
    var raw := Sub(targetScreen, ScreenPosOf(e.body, target));
    var v := Steer(e.kind, e.stats.radius, rl.length(raw), raw);
    var r := EnemyTicked(e, target, deltaTime, rl, targetScreen, soundPlaying);
    assert r.enemy.body == Pursued(e, target, deltaTime, rl, targetScreen) == Ticked(e.body.(velocity := v), deltaTime, rl);
    assert rl.length(raw) >= 0.0 && (rl.length(raw) == 0.0 <==> raw == Zero);
    assert rl.length(v) == 0.0 <==> v == Zero;
    SteerStopsIff(e.kind, e.stats.radius, rl.length(raw), raw);
  }

  /// Integer division as C++ does it, truncating towards zero.
  function TruncDiv(a: int, b: int): int
    requires b != 0
  {
    var q := (if a < 0 then -a else a) / (if b < 0 then -b else b);
    if (a < 0) == (b < 0) then q else -q
  }

  /// The body both `Enemy` constructors build: sprite width is the sheet's
  /// width over `MaxFrames` (integer division), height the sheet's height.
  function SpawnedBody(pos: Vec2, idleTexture: Texture, runTexture: Texture, enemySpeed: real): CharState
  {
    FreshState(idleTexture, runTexture, idleTexture).(
      worldPos := pos,
      width := TruncDiv(idleTexture.width, MaxFrames) as real,
      height := idleTexture.height as real,
      speed := enemySpeed)
  }

  class Enemy {
    const body: BaseCharacter
    const enemyType: EnemyType
    var target: BaseCharacter?
    var damagePerSec: real
    var radius: real
    var killed: bool
    var maxHealth: real
    var deathCues: nat

    function State(): EnemyState
      reads this, body
    {
      EnemyState(body.State(), enemyType, Stats(maxHealth, damagePerSec, radius), killed, deathCues)
    }

    /// The 4-argument constructor: always a goblin.
    constructor Basic(pos: Vec2, idleTexture: Texture, runTexture: Texture, enemySpeed: real)
      ensures fresh(body) && target == null
      ensures State() == EnemyState(
        SpawnedBody(pos, idleTexture, runTexture, enemySpeed).(health := StatsOf(Goblin).maxHealth),
        Goblin, StatsOf(Goblin), false, 0)
    {
      var b := Enemy.Spawn(pos, idleTexture, runTexture, enemySpeed);
      body := b;
      enemyType := Goblin;
      target := null;
      damagePerSec, radius, maxHealth := DefaultStats.damagePerSec, DefaultStats.radius, DefaultStats.maxHealth;
      killed := false;
      deathCues := 0;
      new;
      SetupEnemyStats();
    }

    /// The 5-argument constructor.
    constructor (pos: Vec2, idleTexture: Texture, runTexture: Texture, enemySpeed: real, kind: EnemyType)
      ensures fresh(body) && target == null
      ensures State() == EnemyState(
        SpawnedBody(pos, idleTexture, runTexture, enemySpeed).(health := StatsOf(kind).maxHealth),
        kind, StatsOf(kind), false, 0)
    {
      var b := Enemy.Spawn(pos, idleTexture, runTexture, enemySpeed);
      body := b;
      enemyType := kind;
      target := null;
      damagePerSec, radius, maxHealth := DefaultStats.damagePerSec, DefaultStats.radius, DefaultStats.maxHealth;
      killed := false;
      deathCues := 0;
      new;
      SetupEnemyStats();
    }

    /// The field assignments both constructors make to the inherited state.
    static method Spawn(pos: Vec2, idleTexture: Texture, runTexture: Texture, enemySpeed: real)
      returns (b: BaseCharacter)
      ensures fresh(b) && b.State() == SpawnedBody(pos, idleTexture, runTexture, enemySpeed)
    {
      b := new BaseCharacter();
      ghost var fresh0 := b.State();
      b.worldPos := pos;
      b.texture := idleTexture;
      b.idle := idleTexture;
      b.run := runTexture;
      b.width := TruncDiv(b.texture.width, MaxFrames) as real;
      b.height := b.texture.height as real;
      b.speed := enemySpeed;
      assert b.State() == fresh0.(worldPos := pos, texture := idleTexture, idle := idleTexture, run := runTexture,
        width := TruncDiv(idleTexture.width, MaxFrames) as real, height := idleTexture.height as real, speed := enemySpeed);
    }

    method SetupEnemyStats()
      modifies this, body
      ensures Stats(maxHealth, damagePerSec, radius) == StatsOf(enemyType)
      ensures body.State() == old(body.State()).(health := StatsOf(enemyType).maxHealth)
      ensures target == old(target) && killed == old(killed) && deathCues == old(deathCues)
    {
      match enemyType
      case Goblin =>
        maxHealth := 100.0;
        body.health := maxHealth;
        damagePerSec := 12.0;
        radius := 25.0;
      case Slime =>
        maxHealth := 60.0;
        body.health := maxHealth;
        damagePerSec := 8.0;
        radius := 20.0;
      case IntellectDevourer =>
        maxHealth := 180.0;
        body.health := maxHealth;
        damagePerSec := 20.0;
        radius := 35.0;
      case EliteGoblin =>
        maxHealth := 150.0;
        body.health := maxHealth;
        damagePerSec := 18.0;
        radius := 30.0;
      case SlimeKing =>
        maxHealth := 120.0;
        body.health := maxHealth;
        damagePerSec := 15.0;
        radius := 28.0;
    }

    /// `setTarget`: a non-owning reference to the character to chase.
    method SetTarget(input: BaseCharacter)
      modifies this
      ensures target == input && State() == old(State())
    {
      target := input;
    }

    function GetType(): (t: EnemyType)
      reads this, body
      ensures t == State().kind
    {
      enemyType
    }

    function ScreenPos(): (p: Vec2)
      reads this, body, target
      requires target != null
      ensures p == ScreenPosOf(body.State(), target.State())
    {
      Sub(body.worldPos, target.worldPos)
    }

    /// `Enemy::tick`; the target must have been set, and the enemy is not its own target.
    method Tick(deltaTime: real, rl: Raylib, targetScreen: Vec2, soundPlaying: bool)
      requires target != null && target != body
      modifies this, body, target
      ensures target == old(target)
      ensures var r := EnemyTicked(old(State()), old(target.State()), deltaTime, rl, targetScreen, soundPlaying);
        State() == r.enemy && target.State() == r.target
    {
      if !body.GetAlive() {
        if !soundPlaying && !killed {
          deathCues := deathCues + 1;   // PlaySound(enemyKilled)
        }
        // otherwise ResumeSound(enemyKilled), which changes no modelled state
        killed := true;
        return;
      }
      var raw := Sub(targetScreen, ScreenPos());
      var distanceToTarget := rl.length(raw);
      body.velocity := Steer(enemyType, radius, distanceToTarget, raw);
      body.Tick(deltaTime, rl);
      if rl.collide(target.CollisionRec(targetScreen), body.CollisionRec(ScreenPos())) {
        target.TakeDamage(damagePerSec * deltaTime);
      }
    }
  }
}
