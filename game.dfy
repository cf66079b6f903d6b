/// One iteration of the game loop in `main`, from the moment the knight is
/// alive or dead until `EndDrawing`: the map offset, the defeat cue, the
/// knight's tick and map bounds, prop collisions for the knight and every
/// enemy, each enemy's tick with its contact undo, the sword attack, and the
/// music restart.  Drawing calls are not modelled.
///
/// `World` is the gameplay state the loop reads and writes (the knight and
/// the enemies); `Audio` holds the loop's `played` flag and counts the
/// `PlaySound` calls.  `Frame` and `NextAudio` say what one iteration does to
/// them; `RunFrame` performs it on the objects in place.
module Game {
  import opened Geometry
  import opened Characters
  import opened Enemies

  const WindowHeight: int := 576
  const MapScale: real := 4.0

  /// The map-bounds test applied to the knight after its tick.
  /// The window height bounds both axes, so the allowed region is the box
  /// below.
  function OutOfBounds(p: Vec2, mapWidth: int, mapHeight: int): (out: bool)
    ensures !out <==>
      && -130.0 <= p.x <= mapWidth as real * MapScale / 0.99 - WindowHeight as real
      && -100.0 <= p.y <= mapHeight as real * MapScale / 0.99 - WindowHeight as real
  {
    || p.x < -130.0
    || p.y < -100.0
    || (p.x + WindowHeight as real) * 0.99 > mapWidth as real * MapScale
    || (p.y + WindowHeight as real) * 0.99 > mapHeight as real * MapScale
  }

  /// The fixed scenery: each prop's collision rectangle as a function of the
  /// knight's world position (`Prop::getCollisionRec`), and the map size in texels.
  datatype Level = Level(props: seq<Vec2 -> Rect>, mapWidth: int, mapHeight: int)

  /// What one iteration reads from outside the modelled code: `GetFrameTime`,
  /// the knight's movement intent and screen position and its sword
  /// rectangle (from `Character`, whose code is not part of this model),
  /// `IsKeyPressed(KEY_SPACE)`, and what `IsSoundPlaying` answers for each
  /// enemy's death sound, the defeat sound and the game music.
  datatype FrameInput = FrameInput(
    deltaTime: real,
    knightIntent: Vec2,
    knightScreen: Vec2,
    weapon: Rect,
    attack: bool,
    enemySoundPlaying: int -> bool,
    defeatPlaying: bool,
    musicPlaying: bool)

  datatype World = World(knight: CharState, enemies: seq<EnemyState>)

  /// The loop's `played` flag and the number of times the defeat sound and
  /// the game music were started.
  datatype Audio = Audio(played: bool, defeatStarts: nat, musicStarts: nat)

  // ---------------------------------------------------------------------
  // One iteration, as functions

  /// The knight's tick (velocity set to its intent) followed by the bounds check.
  /// The knight ends up either inside the map where its tick took it, or
  /// back where it stood; its health never changes here.
  function KnightStepped(k: CharState, level: Level, inp: FrameInput, rl: Raylib): (r: CharState)
    ensures var t := Ticked(k.(velocity := inp.knightIntent), inp.deltaTime, rl);
      || (r.worldPos == t.worldPos && !OutOfBounds(r.worldPos, level.mapWidth, level.mapHeight))
      || r.worldPos == k.worldPos
    ensures r.health == k.health && r.alive == k.alive && FrameValid(r)
  {
    var t := Ticked(k.(velocity := inp.knightIntent), inp.deltaTime, rl);
    if OutOfBounds(t.worldPos, level.mapWidth, level.mapHeight) then Undone(t) else t
  }

  /// An enemy whose rectangle touches `r` undoes its movement.
  function UndoIfTouching(e: EnemyState, knight: CharState, r: Rect, rl: Raylib): EnemyState
  {
    if rl.collide(r, EnemyRect(e, knight)) then e.(body := Undone(e.body)) else e
  }

  function TouchUndo(es: seq<EnemyState>, knight: CharState, r: Rect, rl: Raylib): (out: seq<EnemyState>)
    ensures |out| == |es|
  {
    seq(|es|, j requires 0 <= j < |es| => UndoIfTouching(es[j], knight, r, rl))
  }

  /// One pass of the prop loop: the knight undoes if it touches the prop,
  /// then every enemy touching the prop (placed for the knight's position
  /// after that) undoes.
  function PropStep(w: World, prop: Vec2 -> Rect, knightScreen: Vec2, rl: Raylib): World
  {
    var k := if rl.collide(prop(w.knight.worldPos), CollisionRecOf(w.knight, knightScreen))
             then Undone(w.knight) else w.knight;
    World(k, TouchUndo(w.enemies, k, prop(k.worldPos), rl))
  }

  /// The prop loop over `props`, in order.
  function PropsStep(w: World, props: seq<Vec2 -> Rect>, knightScreen: Vec2, rl: Raylib): (r: World)
    ensures |r.enemies| == |w.enemies|
    decreases |props|
  {
    if props == [] then w
    else PropStep(PropsStep(w, props[..|props| - 1], knightScreen, rl), props[|props| - 1], knightScreen, rl)
  }

  /// Enemy `j`'s turn, as the enemy comes out of it: its tick against the
  /// knight, then an undo if it ends up touching the knight.  A turn never
  /// revives an enemy and keeps its kind and stats; a dead enemy latches
  /// `killed` and moves only by being set back to its last-frame position.
  function TurnEnemy(e: EnemyState, knight: CharState, j: int, inp: FrameInput, rl: Raylib): (r: EnemyState)
    ensures r.kind == e.kind && r.stats == e.stats
    ensures r.body.alive == e.body.alive
    ensures !e.body.alive ==> r.killed && (r.body == e.body || r.body == Undone(e.body))
    ensures FrameValid(e.body) ==> FrameValid(r.body)
  {
    var t := EnemyTicked(e, knight, inp.deltaTime, rl, inp.knightScreen, inp.enemySoundPlaying(j)).enemy;
    if rl.collide(EnemyRect(t, knight), CollisionRecOf(knight, inp.knightScreen))
    then t.(body := Undone(t.body)) else t
  }

  /// The damage one enemy's tick does to the knight: one hit of its damage
  /// rate times the frame time if it bites, none otherwise.
  function BiteOf(e: EnemyState, knight: CharState, inp: FrameInput, rl: Raylib): seq<real>
  {
    if Bites(e, knight, inp.deltaTime, rl, inp.knightScreen) then [e.stats.damagePerSec * inp.deltaTime] else []
  }

  /// The hits the enemies `es` deal the knight, in enemy order.
  function Bitten(es: seq<EnemyState>, knight: CharState, inp: FrameInput, rl: Raylib): seq<real>
    decreases |es|
  {
    if es == [] then [] else Bitten(es[..|es| - 1], knight, inp, rl) + BiteOf(es[|es| - 1], knight, inp, rl)
  }

  /// The enemy loop.  An enemy's turn reads the knight only for its
  /// position and size, which no turn changes, and a bite changes only the
  /// knight's health and alive flag; so each enemy comes out of the loop as
  /// its own turn against the knight as the loop found it, and the knight
  /// takes the bites in enemy order.  `EnemyPhase` runs the turns one after
  /// another on the objects and is proved to agree.
  function EnemiesStep(w: World, inp: FrameInput, rl: Raylib): (r: World)
    ensures |r.enemies| == |w.enemies|
  {
    World(DamagedBy(w.knight, Bitten(w.enemies, w.knight, inp, rl)),
          seq(|w.enemies|, j requires 0 <= j < |w.enemies| => TurnEnemy(w.enemies[j], w.knight, j, inp, rl)))
  }

  /// The sword: every enemy whose rectangle touches the weapon is set dead.
  function Strike(es: seq<EnemyState>, knight: CharState, weapon: Rect, rl: Raylib): (out: seq<EnemyState>)
    ensures |out| == |es|
  {
    seq(|es|, j requires 0 <= j < |es| =>
      if rl.collide(EnemyRect(es[j], knight), weapon) then es[j].(body := es[j].body.(alive := false)) else es[j])
  }

  /// The knight's part of an iteration: its tick and the bounds check.
  function KnightPhase(w: World, level: Level, inp: FrameInput, rl: Raylib): World
  {
    w.(knight := KnightStepped(w.knight, level, inp, rl))
  }

  /// The sword, when the attack key was pressed.
  function AttackStep(w: World, inp: FrameInput, rl: Raylib): World
  {
    if inp.attack then w.(enemies := Strike(w.enemies, w.knight, inp.weapon, rl)) else w
  }

  /// An iteration with the knight alive: its tick, the prop loop, the enemy
  /// loop and the sword, in that order.
  function LiveStep(w: World, level: Level, inp: FrameInput, rl: Raylib): (r: World)
    ensures |r.enemies| == |w.enemies|
  {
    var w1 := PropsStep(KnightPhase(w, level, inp, rl), level.props, inp.knightScreen, rl);
    AttackStep(EnemiesStep(w1, inp, rl), inp, rl)
  }

  /// One iteration of the game loop.  A dead knight freezes the world.
  function Frame(w: World, level: Level, inp: FrameInput, rl: Raylib): (r: World)
    ensures |r.enemies| == |w.enemies|
  {
    if !w.knight.alive then w else LiveStep(w, level, inp, rl)
  }

  /// The sounds of one iteration: with the knight dead, the defeat sound is
  /// started unless it is playing or was started before (and resumed
  /// otherwise); with the knight alive, the music is restarted when it stopped.
  function NextAudio(knightAlive: bool, a: Audio, inp: FrameInput): (r: Audio)
    ensures a.defeatStarts <= r.defeatStarts <= a.defeatStarts + 1
    ensures a.musicStarts <= r.musicStarts <= a.musicStarts + 1
    ensures knightAlive ==> r.defeatStarts == a.defeatStarts && r.played == a.played
    ensures !knightAlive ==> r.musicStarts == a.musicStarts
    ensures r.defeatStarts > a.defeatStarts <==> !knightAlive && !inp.defeatPlaying && !a.played
  {
    if !knightAlive then
      if !inp.defeatPlaying && !a.played then a.(played := true, defeatStarts := a.defeatStarts + 1) else a
    else if !inp.musicPlaying then a.(musicStarts := a.musicStarts + 1)
    else a
  }

  // ---------------------------------------------------------------------
  // What one iteration guarantees

  /// Once the knight is dead the world stands still: no enemy moves, the
  /// knight takes no more damage, and only the defeat cue can happen.
  lemma DeadKnightFreezesWorld(w: World, a: Audio, level: Level, inp: FrameInput, rl: Raylib)
    requires !w.knight.alive
    ensures Frame(w, level, inp, rl) == w
    ensures NextAudio(w.knight.alive, a, inp).musicStarts == a.musicStarts
  {
  }

  /// The defeat sound is started at most once in the whole game: the loop's
  /// `played` flag records exactly whether it was.
  predicate DefeatLatched(a: Audio)
  {
    a.defeatStarts == if a.played then 1 else 0
  }

  lemma DefeatSoundAtMostOnce(alive: bool, a: Audio, inp: FrameInput)
    requires DefeatLatched(a)
    ensures DefeatLatched(NextAudio(alive, a, inp))
    ensures NextAudio(alive, a, inp).defeatStarts <= 1
  {
  }

  /// The prop loop moves the knight and each enemy only by undoing: each
  /// comes out either as it went in or set back to its snapshot, and nothing
  /// but positions changes.
  lemma {:induction false} PropsOnlyUndo(w: World, props: seq<Vec2 -> Rect>, knightScreen: Vec2, rl: Raylib)
    ensures var r := PropsStep(w, props, knightScreen, rl);
      && (r.knight == w.knight || r.knight == Undone(w.knight))
      && forall j :: 0 <= j < |w.enemies| ==>
           r.enemies[j] == w.enemies[j] || r.enemies[j] == w.enemies[j].(body := Undone(w.enemies[j].body))
    decreases |props|
  {
    if props != [] {
      var props' := props[..|props| - 1];
      PropsOnlyUndo(w, props', knightScreen, rl);
      var m := PropsStep(w, props', knightScreen, rl);
      UndoIdempotent(w.knight);
      forall j | 0 <= j < |w.enemies|
        ensures var r := PropsStep(w, props, knightScreen, rl);
          r.enemies[j] == w.enemies[j] || r.enemies[j] == w.enemies[j].(body := Undone(w.enemies[j].body))
      {
        UndoIdempotent(w.enemies[j].body);
      }
    }
  }

  /// Every enemy stands on the row of its kind in the stats table.
  predicate Calibrated(es: seq<EnemyState>)
  {
    forall j :: 0 <= j < |es| ==> es[j].stats == StatsOf(es[j].kind)
  }

  /// A live knight has health left, and health is never negative.
  predicate HealthSound(k: CharState)
  {
    k.health >= 0.0 && (k.alive ==> k.health > 0.0)
  }

  /// An enemy's turn depends on the knight only through its position and
  /// size: a knight that differs only in health and aliveness meets the same
  /// enemy outcome and the same bite.
  lemma TurnIgnoresHealth(e: EnemyState, k: CharState, k': CharState, j: int, inp: FrameInput, rl: Raylib)
    requires k'.(health := k.health, alive := k.alive) == k
    ensures TurnEnemy(e, k', j, inp, rl) == TurnEnemy(e, k, j, inp, rl)
    ensures BiteOf(e, k', inp, rl) == BiteOf(e, k, inp, rl)
  {
    assert k'.worldPos == k.worldPos && k'.width == k.width && k'.texture == k.texture;
    var dt, screen := inp.deltaTime, inp.knightScreen;
    assert CollisionRecOf(k', screen) == CollisionRecOf(k, screen);
    assert Pursued(e, k', dt, rl, screen) == Pursued(e, k, dt, rl, screen);
    assert Bites(e, k', dt, rl, screen) == Bites(e, k, dt, rl, screen);
    assert EnemyTicked(e, k', dt, rl, screen, inp.enemySoundPlaying(j)).enemy
        == EnemyTicked(e, k, dt, rl, screen, inp.enemySoundPlaying(j)).enemy;
  }

  /// What an enemy's tick does to the knight is exactly its bite.
  lemma BiteIsTickDamage(e: EnemyState, k: CharState, j: int, inp: FrameInput, rl: Raylib)
    ensures var enc := EnemyTicked(e, k, inp.deltaTime, rl, inp.knightScreen, inp.enemySoundPlaying(j));
      enc.target == DamagedBy(k, BiteOf(e, k, inp, rl))
  {
    if Bites(e, k, inp.deltaTime, rl, inp.knightScreen) {
      DamagedByOne(k, e.stats.damagePerSec * inp.deltaTime);
    }
  }

  /// With non-negative frame time, a calibrated enemy deals at most one
  /// hit, and that hit is non-negative.
  lemma BiteHurts(e: EnemyState, k: CharState, inp: FrameInput, rl: Raylib)
    requires inp.deltaTime >= 0.0 && e.stats == StatsOf(e.kind)
    ensures var d := BiteOf(e, k, inp, rl);
      |d| <= 1 && forall i :: 0 <= i < |d| ==> d[i] >= 0.0
  {
    assert e.stats.damagePerSec * inp.deltaTime >= 0.0;
  }

  /// With non-negative frame time, calibrated enemies deal non-negative
  /// hits, at most one each.
  lemma {:induction false} BitesHurt(es: seq<EnemyState>, k: CharState, inp: FrameInput, rl: Raylib)
    requires inp.deltaTime >= 0.0 && Calibrated(es)
    ensures var ds := Bitten(es, k, inp, rl);
      |ds| <= |es| && forall i :: 0 <= i < |ds| ==> ds[i] >= 0.0
    decreases |es|
  {
    if es != [] {
      var init := es[..|es| - 1];
      assert Calibrated(init) by {
        forall j | 0 <= j < |init| ensures init[j].stats == StatsOf(init[j].kind) {
          assert init[j] == es[j];
        }
      }
      BitesHurt(init, k, inp, rl);
      BiteHurts(es[|es| - 1], k, inp, rl);
    }
  }

  /// With non-negative frame time, the enemy loop only takes health from
  /// the knight and never below zero, leaves it alive only with health
  /// left, changes nothing else about it, and keeps every enemy on its row
  /// of the stats table.
  lemma EnemiesOnlyHurt(w: World, inp: FrameInput, rl: Raylib)
    requires inp.deltaTime >= 0.0 && Calibrated(w.enemies) && HealthSound(w.knight)
    ensures var r := EnemiesStep(w, inp, rl);
      && HealthSound(r.knight) && r.knight.health <= w.knight.health
      && r.knight.(health := w.knight.health, alive := w.knight.alive) == w.knight
      && Calibrated(r.enemies)
  {
    var ds := Bitten(w.enemies, w.knight, inp, rl);
    BitesHurt(w.enemies, w.knight, inp, rl);
    DamagedByKeepsRest(w.knight, ds);
    if w.knight.health > 0.0 {
      SumNonNegative(ds);
      DamageSequence(w.knight, ds);
    } else {
      DeadStaysAtZero(w.knight, ds);
    }
  }

  /// At the end of an iteration that started with the knight alive, the
  /// knight stands either where it stood before the iteration or where its
  /// tick took it, and in the latter case inside the map bounds.
  lemma KnightStaysInBounds(w: World, level: Level, inp: FrameInput, rl: Raylib)
    requires w.knight.alive
    ensures var t := Ticked(w.knight.(velocity := inp.knightIntent), inp.deltaTime, rl);
      var p := Frame(w, level, inp, rl).knight.worldPos;
      p == w.knight.worldPos || (p == t.worldPos && !OutOfBounds(p, level.mapWidth, level.mapHeight))
  {
    var w0 := KnightPhase(w, level, inp, rl);
    PropsOnlyUndo(w0, level.props, inp.knightScreen, rl);
    var w1 := PropsStep(w0, level.props, inp.knightScreen, rl);
    DamagedByKeepsRest(w1.knight, Bitten(w1.enemies, w1.knight, inp, rl));
  }

  /// Enemies are never revived: an enemy dead before an iteration is dead after it.
  lemma NoRevival(w: World, level: Level, inp: FrameInput, rl: Raylib, j: int)
    requires 0 <= j < |w.enemies| && !w.enemies[j].body.alive
    ensures !Frame(w, level, inp, rl).enemies[j].body.alive
  {
    if w.knight.alive {
      PropsOnlyUndo(KnightPhase(w, level, inp, rl), level.props, inp.knightScreen, rl);
    }
  }

  /// The knight's health never rises during an iteration and never drops
  /// below zero, and a live knight at the end has health left.
  lemma KnightHealthFalls(w: World, level: Level, inp: FrameInput, rl: Raylib)
    requires inp.deltaTime >= 0.0 && Calibrated(w.enemies) && HealthSound(w.knight)
    ensures var r := Frame(w, level, inp, rl);
      HealthSound(r.knight) && r.knight.health <= w.knight.health
  {
    if w.knight.alive {
      var w0 := KnightPhase(w, level, inp, rl);
      PropsOnlyUndo(w0, level.props, inp.knightScreen, rl);
      var w1 := PropsStep(w0, level.props, inp.knightScreen, rl);
      EnemiesOnlyHurt(w1, inp, rl);
    }
  }

  /// The sword kills exactly the enemies whose rectangle touches it and
  /// changes nothing else.
  lemma AttackKillsExactlyTheTouched(es: seq<EnemyState>, knight: CharState, weapon: Rect, rl: Raylib)
    ensures var r := Strike(es, knight, weapon, rl);
      forall j :: 0 <= j < |es| ==>
        && r[j].body.alive == (es[j].body.alive && !rl.collide(EnemyRect(es[j], knight), weapon))
        && r[j].body.(alive := es[j].body.alive) == es[j].body
        && r[j].(body := es[j].body) == es[j]
  {
  }

  /// Every character's animation frame is a valid sprite index.
  predicate FramesValid(w: World)
  {
    FrameValid(w.knight) && forall j :: 0 <= j < |w.enemies| ==> FrameValid(w.enemies[j].body)
  }

  /// An iteration keeps every animation frame a valid sprite index.
  lemma FrameKeepsFramesValid(w: World, level: Level, inp: FrameInput, rl: Raylib)
    requires FramesValid(w)
    ensures FramesValid(Frame(w, level, inp, rl))
  {
    if w.knight.alive {
      var w0 := KnightPhase(w, level, inp, rl);
      PropsKeepFramesValid(w0, level.props, inp.knightScreen, rl);
      EnemiesKeepFramesValid(PropsStep(w0, level.props, inp.knightScreen, rl), inp, rl);
    }
  }

  /// The prop loop only undoes, so it keeps every frame valid.
  lemma PropsKeepFramesValid(w: World, props: seq<Vec2 -> Rect>, knightScreen: Vec2, rl: Raylib)
    requires FramesValid(w)
    ensures FramesValid(PropsStep(w, props, knightScreen, rl))
  {
    PropsOnlyUndo(w, props, knightScreen, rl);
  }

  /// The enemy loop and the sword keep every frame valid: bites change only
  /// the knight's health, and the sword only aliveness.
  lemma EnemiesKeepFramesValid(w: World, inp: FrameInput, rl: Raylib)
    requires FramesValid(w)
    ensures FramesValid(AttackStep(EnemiesStep(w, inp, rl), inp, rl))
  {
    DamagedByKeepsRest(w.knight, Bitten(w.enemies, w.knight, inp, rl));
  }

  /// An iteration keeps every enemy on its row of the stats table.
  lemma FrameKeepsCalibrated(w: World, level: Level, inp: FrameInput, rl: Raylib)
    requires Calibrated(w.enemies)
    ensures Calibrated(Frame(w, level, inp, rl).enemies)
  {
    if w.knight.alive {
      PropsOnlyUndo(KnightPhase(w, level, inp, rl), level.props, inp.knightScreen, rl);
    }
  }

  /// The game loop, one iteration per input, with its sounds.
  function Play(w: World, a: Audio, level: Level, inps: seq<FrameInput>, rl: Raylib): (r: (World, Audio))
    ensures |r.0.enemies| == |w.enemies|
    decreases |inps|
  {
    if inps == [] then (w, a)
    else Play(Frame(w, level, inps[0], rl), NextAudio(w.knight.alive, a, inps[0]), level, inps[1..], rl)
  }

  /// Over any number of iterations with non-negative frame times: the
  /// knight's health never rises and a live knight has health left, every
  /// sprite frame stays valid, every enemy keeps its stats, no enemy is
  /// revived, the defeat sound starts at most once, and once the knight is
  /// dead nothing in the world changes again.
  lemma {:induction false} GameKeepsInvariants(w: World, a: Audio, level: Level, inps: seq<FrameInput>, rl: Raylib)
    requires forall i :: 0 <= i < |inps| ==> inps[i].deltaTime >= 0.0
    requires Calibrated(w.enemies) && HealthSound(w.knight) && FramesValid(w) && DefeatLatched(a)
    ensures var (w', a') := Play(w, a, level, inps, rl);
      && Calibrated(w'.enemies) && HealthSound(w'.knight) && FramesValid(w')
      && DefeatLatched(a') && a'.defeatStarts <= 1
      && w'.knight.health <= w.knight.health
      && (forall j :: 0 <= j < |w.enemies| && !w.enemies[j].body.alive ==> !w'.enemies[j].body.alive)
      && (!w.knight.alive ==> w' == w)
    decreases |inps|
  {
    if inps != [] {
      var inp := inps[0];
      var w1 := Frame(w, level, inp, rl);
      KnightHealthFalls(w, level, inp, rl);
      FrameKeepsCalibrated(w, level, inp, rl);
      FrameKeepsFramesValid(w, level, inp, rl);
      DefeatSoundAtMostOnce(w.knight.alive, a, inp);
      forall j | 0 <= j < |w.enemies| && !w.enemies[j].body.alive
        ensures !w1.enemies[j].body.alive
      {
        NoRevival(w, level, inp, rl, j);
      }
      GameKeepsInvariants(w1, NextAudio(w.knight.alive, a, inp), level, inps[1..], rl);
    }
  }

  // ---------------------------------------------------------------------
  // The objects

  /// The bodies of the enemies.
  function BodySet(es: seq<Enemy>): set<BaseCharacter>
  {
    set e | e in es :: e.body
  }

  /// The state of every enemy, in order.
  function EnemyStates(es: seq<Enemy>): (r: seq<EnemyState>)
    reads es, BodySet(es)
    ensures |r| == |es|
  {
    seq(|es|, i requires 0 <= i < |es| reads es, BodySet(es) => es[i].State())
  }

  function WorldOf(knight: BaseCharacter, es: seq<Enemy>): World
    reads knight, es, BodySet(es)
  {
    World(knight.State(), EnemyStates(es))
  }

  /// The enemies are distinct objects with distinct bodies, none of which is the knight.
  predicate Separate(knight: BaseCharacter, es: seq<Enemy>)
  {
    && (forall i, j :: 0 <= i < |es| && 0 <= j < |es| && i != j ==> es[i] != es[j] && es[i].body != es[j].body)
    && (forall i :: 0 <= i < |es| ==> es[i].body != knight)
  }

  /// Every enemy chases the knight.
  predicate Targeting(knight: BaseCharacter, es: seq<Enemy>)
    reads es
  {
    forall i :: 0 <= i < |es| ==> es[i].target == knight
  }

  /// The loop before the game starts that points every enemy at the knight.
  method AssignTargets(knight: BaseCharacter, enemies: array<Enemy>)
    modifies enemies[..]
    ensures Targeting(knight, enemies[..])
    ensures EnemyStates(enemies[..]) == old(EnemyStates(enemies[..]))
  {
    var i := 0;
    while i < enemies.Length
      invariant 0 <= i <= enemies.Length
      invariant forall j :: 0 <= j < i ==> enemies[j].target == knight
      invariant forall j :: 0 <= j < enemies.Length ==> enemies[j].State() == old(enemies[j].State())
    {
      enemies[i].SetTarget(knight);
      i := i + 1;
    }
  }

  /// One iteration of the game loop on the objects; `mapPos` is the map's
  /// draw offset computed at its start.
  method RunFrame(knight: BaseCharacter, enemies: array<Enemy>, level: Level, inp: FrameInput,
                  rl: Raylib, audio: Audio)
    returns (mapPos: Vec2, audio': Audio)
    requires Separate(knight, enemies[..]) && Targeting(knight, enemies[..])
    modifies knight, enemies[..], BodySet(enemies[..])
    ensures Targeting(knight, enemies[..])
    ensures mapPos == Scale(old(knight.worldPos), -1.0)
    ensures WorldOf(knight, enemies[..]) == Frame(old(WorldOf(knight, enemies[..])), level, inp, rl)
    ensures audio' == NextAudio(old(knight.alive), audio, inp)
  {
    mapPos := Scale(knight.GetWorldPos(), -1.0);
    if !knight.GetAlive() {
      audio' := audio;
      if !inp.defeatPlaying && !audio.played {
        audio' := audio'.(played := true, defeatStarts := audio'.defeatStarts + 1);
      }
      return;
    }
    LiveFrame(knight, enemies, level, inp, rl);
    audio' := audio;
    if !inp.musicPlaying {
      audio' := audio'.(musicStarts := audio'.musicStarts + 1);
    }
  }

  /// `main` from the moment the level is set up: every enemy is pointed at
  /// the knight, the music is started, and the game loop runs one iteration
  /// per input, the window closing after the last.
  method RunGame(knight: BaseCharacter, enemies: array<Enemy>, level: Level, inps: seq<FrameInput>,
                 rl: Raylib, audio: Audio)
    returns (audio': Audio)
    requires Separate(knight, enemies[..])
    modifies knight, enemies[..], BodySet(enemies[..])
    ensures (WorldOf(knight, enemies[..]), audio')
         == Play(old(WorldOf(knight, enemies[..])), audio.(musicStarts := audio.musicStarts + 1), level, inps, rl)
  {
    AssignTargets(knight, enemies);
    audio' := audio.(musicStarts := audio.musicStarts + 1);
    ghost var goal := Play(WorldOf(knight, enemies[..]), audio', level, inps, rl);
    var i := 0;
    while i < |inps|
      invariant 0 <= i <= |inps|
      invariant Targeting(knight, enemies[..])
      invariant Play(WorldOf(knight, enemies[..]), audio', level, inps[i..], rl) == goal
    {
      assert inps[i..][1..] == inps[i + 1..];
      var _, a := RunFrame(knight, enemies, level, inps[i], rl, audio');
      audio' := a;
      i := i + 1;
    }
  }

  /// The part of an iteration that runs while the knight is alive.
  method LiveFrame(knight: BaseCharacter, enemies: array<Enemy>, level: Level, inp: FrameInput, rl: Raylib)
    requires Separate(knight, enemies[..]) && Targeting(knight, enemies[..])
    modifies knight, enemies[..], BodySet(enemies[..])
    ensures Targeting(knight, enemies[..])
    ensures WorldOf(knight, enemies[..]) == LiveStep(old(WorldOf(knight, enemies[..])), level, inp, rl)
  {
    KnightTurn(knight, enemies, level, inp, rl);
    assert Targeting(knight, enemies[..]);
    PropPhase(knight, enemies, level.props, inp.knightScreen, rl);
    assert Targeting(knight, enemies[..]);
    EnemyPhase(knight, enemies, inp, rl);
    if inp.attack {
      AttackPhase(knight, enemies, inp.weapon, rl);
    }
  }

  /// The knight's tick, with its movement intent, and the map-bounds check.
  method KnightTurn(knight: BaseCharacter, enemies: array<Enemy>, level: Level, inp: FrameInput, rl: Raylib)
    requires Separate(knight, enemies[..])
    modifies knight
    ensures WorldOf(knight, enemies[..]) == KnightPhase(old(WorldOf(knight, enemies[..])), level, inp, rl)
  {
    knight.velocity := inp.knightIntent;
    knight.Tick(inp.deltaTime, rl);
    if OutOfBounds(knight.GetWorldPos(), level.mapWidth, level.mapHeight) {
      knight.UndoMovement();
    }
  }

  /// The prop loop.
  method PropPhase(knight: BaseCharacter, enemies: array<Enemy>, props: seq<Vec2 -> Rect>,
                   knightScreen: Vec2, rl: Raylib)
    requires Separate(knight, enemies[..]) && Targeting(knight, enemies[..])
    modifies knight, BodySet(enemies[..])
    ensures WorldOf(knight, enemies[..]) == PropsStep(old(WorldOf(knight, enemies[..])), props, knightScreen, rl)
  {
    ghost var w0 := WorldOf(knight, enemies[..]);
    var i := 0;
    while i < |props|
      invariant 0 <= i <= |props|
      invariant WorldOf(knight, enemies[..]) == PropsStep(w0, props[..i], knightScreen, rl)
    {
      var prop := props[i];
      if rl.collide(prop(knight.GetWorldPos()), knight.CollisionRec(knightScreen)) {
        knight.UndoMovement();
      }
      UndoEnemiesTouching(knight, enemies, prop(knight.GetWorldPos()), rl);
      assert props[..i + 1][..i] == props[..i];
      i := i + 1;
    }
    assert props[..i] == props;
  }

  /// The inner loop of the prop loop: every enemy touching `rect` undoes.
  method UndoEnemiesTouching(knight: BaseCharacter, enemies: array<Enemy>, rect: Rect, rl: Raylib)
    requires Separate(knight, enemies[..]) && Targeting(knight, enemies[..])
    modifies BodySet(enemies[..])
    ensures EnemyStates(enemies[..]) == TouchUndo(old(EnemyStates(enemies[..])), knight.State(), rect, rl)
  {
    ghost var es0 := EnemyStates(enemies[..]);
    var i := 0;
    while i < enemies.Length
      invariant 0 <= i <= enemies.Length
      invariant forall j :: 0 <= j < i ==>
        enemies[j].State() == UndoIfTouching(es0[j], knight.State(), rect, rl)
      invariant forall j :: i <= j < enemies.Length ==> enemies[j].State() == es0[j]
    {
      var enemy := enemies[i];
      if rl.collide(rect, enemy.body.CollisionRec(enemy.ScreenPos())) {
        enemy.body.UndoMovement();
      }
      i := i + 1;
    }
  }

  /// The enemy loop.
  method EnemyPhase(knight: BaseCharacter, enemies: array<Enemy>, inp: FrameInput, rl: Raylib)
    requires Separate(knight, enemies[..]) && Targeting(knight, enemies[..])
    modifies knight, enemies[..], BodySet(enemies[..])
    ensures Targeting(knight, enemies[..])
    ensures WorldOf(knight, enemies[..]) == EnemiesStep(old(WorldOf(knight, enemies[..])), inp, rl)
  {
    ghost var k0 := knight.State();
    ghost var es0 := EnemyStates(enemies[..]);
    var i := 0;
    while i < enemies.Length
      invariant 0 <= i <= enemies.Length
      invariant Targeting(knight, enemies[..])
      invariant knight.State() == DamagedBy(k0, Bitten(es0[..i], k0, inp, rl))
      invariant forall j :: 0 <= j < i ==> enemies[j].State() == TurnEnemy(es0[j], k0, j, inp, rl)
      invariant forall j :: i <= j < enemies.Length ==> enemies[j].State() == es0[j]
    {
      EnemyTurnOf(knight, enemies, i, inp, rl, k0, es0);
      i := i + 1;
    }
    assert es0[..i] == es0;
  }

  /// One pass of the enemy loop, for enemy `i`, with the loop's invariant
  /// as its contract: `k0` and `es0` are the knight and the enemies as the
  /// loop found them.
  method EnemyTurnOf(knight: BaseCharacter, enemies: array<Enemy>, i: int, inp: FrameInput, rl: Raylib,
                     ghost k0: CharState, ghost es0: seq<EnemyState>)
    requires 0 <= i < enemies.Length == |es0|
    requires Separate(knight, enemies[..]) && Targeting(knight, enemies[..])
    requires knight.State() == DamagedBy(k0, Bitten(es0[..i], k0, inp, rl))
    requires forall j :: 0 <= j < i ==> enemies[j].State() == TurnEnemy(es0[j], k0, j, inp, rl)
    requires forall j :: i <= j < enemies.Length ==> enemies[j].State() == es0[j]
    modifies knight, enemies[i], enemies[i].body
    ensures Targeting(knight, enemies[..])
    ensures knight.State() == DamagedBy(k0, Bitten(es0[..i + 1], k0, inp, rl))
    ensures forall j :: 0 <= j <= i ==> enemies[j].State() == TurnEnemy(es0[j], k0, j, inp, rl)
    ensures forall j :: i < j < enemies.Length ==> enemies[j].State() == es0[j]
  {
    ghost var done := Bitten(es0[..i], k0, inp, rl);
    DamagedByKeepsRest(k0, done);
    TurnIgnoresHealth(es0[i], k0, knight.State(), i, inp, rl);
    TakeTurn(enemies[i], knight, i, inp, rl);
    assert es0[..i + 1][..i] == es0[..i];
    DamagedByAppend(k0, done, BiteOf(es0[i], k0, inp, rl));
  }

  /// Enemy `i` ticks, then undoes its movement if it touches the knight.
  method TakeTurn(enemy: Enemy, knight: BaseCharacter, i: int, inp: FrameInput, rl: Raylib)
    requires enemy.target == knight && enemy.body != knight
    modifies knight, enemy, enemy.body
    ensures enemy.target == knight
    ensures enemy.State() == TurnEnemy(old(enemy.State()), old(knight.State()), i, inp, rl)
    ensures knight.State() == DamagedBy(old(knight.State()), BiteOf(old(enemy.State()), old(knight.State()), inp, rl))
  {
    ghost var k := knight.State();
    ghost var e := enemy.State();
    enemy.Tick(inp.deltaTime, rl, inp.knightScreen, inp.enemySoundPlaying(i));
    BiteIsTickDamage(e, k, i, inp, rl);
    assert knight.State().(health := k.health, alive := k.alive) == k;
    if rl.collide(enemy.body.CollisionRec(enemy.ScreenPos()), knight.CollisionRec(inp.knightScreen)) {
      enemy.body.UndoMovement();
    }
  }

  /// The sword loop.
  method AttackPhase(knight: BaseCharacter, enemies: array<Enemy>, weapon: Rect, rl: Raylib)
    requires Separate(knight, enemies[..]) && Targeting(knight, enemies[..])
    modifies BodySet(enemies[..])
    ensures EnemyStates(enemies[..]) == Strike(old(EnemyStates(enemies[..])), knight.State(), weapon, rl)
  {
    ghost var es0 := EnemyStates(enemies[..]);
    ghost var struck := Strike(es0, knight.State(), weapon, rl);
    var i := 0;
    while i < enemies.Length
      invariant 0 <= i <= enemies.Length
      invariant forall j :: 0 <= j < i ==> enemies[j].State() == struck[j]
      invariant forall j :: i <= j < enemies.Length ==> enemies[j].State() == es0[j]
    {
      var enemy := enemies[i];
      assert enemy.State() == es0[i] && enemy.target == knight;
      assert enemy.body.CollisionRec(enemy.ScreenPos()) == EnemyRect(es0[i], knight.State());
      if rl.collide(enemy.body.CollisionRec(enemy.ScreenPos()), weapon) {
        enemy.body.SetAlive(false);
      }
      assert enemy.State() == struck[i];
      i := i + 1;
    }
  }
}
