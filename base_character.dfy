/// The state shared by the knight and every enemy (`BaseCharacter`): world
/// position with a one-frame undo snapshot, the idle/run animation state
/// machine driven by `tick`, facing, health and the `alive` flag.
///
/// `CharState` is the value of every field of a `BaseCharacter`; the pure
/// functions `Ticked`, `Undone` and `Damaged` say what `tick`, `undoMovement`
/// and `takeDamage` do to it, and the lemmas below are about them.  The class
/// `BaseCharacter` updates its fields in place, step by step as the C++ does,
/// and each method is proved to agree with its function.
module Characters {
  import opened Geometry

  /// Animation constants and defaults, the field initialisers of the C++ class.
  const MaxFrames: int := 6
  const UpdateTime: real := 1.0 / 12.0
  const DefaultSpeed: real := 4.0
  const RenderScale: real := 4.0
  const FullHealth: real := 100.0

  /// raylib's `Texture2D`, an opaque handle of which the core reads only the size.
  datatype Texture = Texture(id: int, width: int, height: int)

  /// A value-initialised `Texture2D{}`.
  const NoTexture: Texture := Texture(0, 0, 0)

  /// The sprite-sheet cursor: current frame and the time accumulated towards the next one.
  datatype Anim = Anim(frame: int, runningTime: real)

  /// Time a frame stays on screen: `updateTime` while running, three times that while idle.
  function FrameInterval(isMoving: bool): (t: real)
    ensures t > 0.0
  {
    if isMoving then UpdateTime else UpdateTime * 3.0
  }

  /// One tick of the animation state machine: accumulate `deltaTime`, restart
  /// the cycle on an idle/run switch, advance one frame (wrapping at
  /// `MaxFrames`) once the interval is reached, then clamp out-of-range frames to 0.
  function AnimStep(a: Anim, deltaTime: real, wasMoving: bool, isMoving: bool): (r: Anim)
    ensures 0 <= r.frame < MaxFrames
  {
    var start := if wasMoving != isMoving then Anim(0, 0.0) else Anim(a.frame, a.runningTime + deltaTime);
    var stepped :=
      if start.runningTime >= FrameInterval(isMoving) then
        Anim(if start.frame + 1 >= MaxFrames then 0 else start.frame + 1, 0.0)
      else start;
    if stepped.frame < 0 || stepped.frame >= MaxFrames then stepped.(frame := 0) else stepped
  }

  /// Every field of a `BaseCharacter`.
  datatype CharState = CharState(
    texture: Texture,
    idle: Texture,
    run: Texture,
    worldPos: Vec2,
    worldPosLastFrame: Vec2,
    rightLeft: real,          // 1: facing right, -1: facing left
    runningTime: real,
    frame: int,
    speed: real,
    width: real,
    height: real,
    velocity: Vec2,
    wasMoving: bool,
    health: real,
    alive: bool)

  /// The animation cursor of a character.
  function AnimOf(s: CharState): Anim { Anim(s.frame, s.runningTime) }

  /// A character just built, before any subclass constructor changes it.
  /// The animation frame is a valid index into the six-frame sprite sheet.
  predicate FrameValid(s: CharState)
  {
    0 <= s.frame < MaxFrames
  }

  function FreshState(idle: Texture, run: Texture, texture: Texture): CharState
  {
    CharState(texture, idle, run, Zero, Zero, 1.0, 0.0, 0, DefaultSpeed, 0.0, 0.0, Zero, false,
              FullHealth, true)
  }

  /// `BaseCharacter::tick` without its draw call.
  function Ticked(s: CharState, deltaTime: real, rl: Raylib): (r: CharState)
    ensures r.worldPosLastFrame == s.worldPos
    ensures 0 <= r.frame < MaxFrames && r.velocity == Zero
    ensures r.wasMoving == (rl.length(s.velocity) != 0.0)
    ensures r.health == s.health && r.alive == s.alive
  {
    var isMoving := rl.length(s.velocity) != 0.0;
    var anim := AnimStep(AnimOf(s), deltaTime, s.wasMoving, isMoving);
    s.(worldPosLastFrame := s.worldPos,
       worldPos := if isMoving then Add(s.worldPos, Scale(rl.normalize(s.velocity), s.speed)) else s.worldPos,
       rightLeft := if !isMoving then s.rightLeft else if s.velocity.x < 0.0 then -1.0 else 1.0,
       texture := if isMoving then s.run else s.idle,
       frame := anim.frame,
       runningTime := anim.runningTime,
       wasMoving := isMoving,
       velocity := Zero)
  }

  /// `BaseCharacter::undoMovement`: back to the position snapshotted by the last tick.
  function Undone(s: CharState): (r: CharState)
    ensures r.worldPos == s.worldPosLastFrame
    ensures r.(worldPos := s.worldPos) == s
  {
    s.(worldPos := s.worldPosLastFrame)
  }

  /// `BaseCharacter::takeDamage`.
  function Damaged(s: CharState, damage: real): (r: CharState)
    ensures r.health >= 0.0
    ensures r.alive == (s.alive && s.health - damage > 0.0)
    ensures r.health == if s.health - damage <= 0.0 then 0.0 else s.health - damage
    ensures r.(health := s.health, alive := s.alive) == s
  {
    var h := s.health - damage;
    if h <= 0.0 then s.(health := 0.0, alive := false) else s.(health := h)
  }

  /// `BaseCharacter::getCollisionRec`, given what the subclass's `getScreenPos` returns.
  function CollisionRecOf(s: CharState, screenPos: Vec2): (r: Rect)
    ensures r.x == screenPos.x && r.y == screenPos.y
    ensures r.width == s.width * RenderScale && r.height == s.texture.height as real * RenderScale
  {
    Rect(screenPos.x, screenPos.y, s.width * RenderScale, s.texture.height as real * RenderScale)
  }

  // ---------------------------------------------------------------------
  // Movement and undo

  /// `tick` followed by `undoMovement` puts the character back exactly where
  /// it stood before the tick, whatever its velocity, and a second undo
  /// changes nothing more.
  lemma TickThenUndo(s: CharState, deltaTime: real, rl: Raylib)
    ensures Undone(Ticked(s, deltaTime, rl)).worldPos == s.worldPos
    ensures Undone(Undone(Ticked(s, deltaTime, rl))) == Undone(Ticked(s, deltaTime, rl))
  {
  }

  /// Undoing twice is undoing once, whatever happened since the last tick.
  lemma UndoIdempotent(s: CharState)
    ensures Undone(Undone(s)) == Undone(s)
  {
  }

  /// With a lawful `Vector2Length`: the character moves, by
  /// `normalize(velocity) * speed`, exactly when its velocity is non-zero,
  /// turns to face the sign of the horizontal velocity only then, and
  /// records whether it moved.
  lemma MovementLaw(s: CharState, deltaTime: real, rl: Raylib)
    requires LawfulLength(rl)
    ensures var r := Ticked(s, deltaTime, rl);
      && r.worldPos == (if s.velocity == Zero then s.worldPos
                        else Add(s.worldPos, Scale(rl.normalize(s.velocity), s.speed)))
      && r.rightLeft == (if s.velocity == Zero then s.rightLeft
                         else if s.velocity.x < 0.0 then -1.0 else 1.0)
      && r.wasMoving == (s.velocity != Zero)
      && r.texture == (if s.velocity != Zero then s.run else s.idle)
  {
    assert rl.length(s.velocity) >= 0.0 && (rl.length(s.velocity) == 0.0 <==> s.velocity == Zero);
  }

  /// The displacement does not depend on `deltaTime`: only the animation does.
  lemma MovementIgnoresDeltaTime(s: CharState, dt1: real, dt2: real, rl: Raylib)
    ensures Ticked(s, dt1, rl).worldPos == Ticked(s, dt2, rl).worldPos
    ensures Ticked(s, dt1, rl).(frame := 0, runningTime := 0.0) == Ticked(s, dt2, rl).(frame := 0, runningTime := 0.0)
  {
  }

  // ---------------------------------------------------------------------
  // Animation

  /// An idle-to-running or running-to-idle switch restarts the cycle: frame 0, no time accumulated.
  lemma SwitchRestartsCycle(a: Anim, deltaTime: real, wasMoving: bool, isMoving: bool)
    requires wasMoving != isMoving
    ensures AnimStep(a, deltaTime, wasMoving, isMoving) == Anim(0, 0.0)
  {
  }

  /// Without a switch, the frame advances by exactly one (wrapping at
  /// `MaxFrames`) and the timer restarts iff the accumulated time reaches the
  /// interval; otherwise the time keeps accumulating.
  lemma SteadyCadence(a: Anim, deltaTime: real, isMoving: bool)
    requires 0 <= a.frame < MaxFrames
    ensures AnimStep(a, deltaTime, isMoving, isMoving) ==
      if a.runningTime + deltaTime >= FrameInterval(isMoving)
      then Anim((a.frame + 1) % MaxFrames, 0.0)
      else Anim(a.frame, a.runningTime + deltaTime)
  {
  }

  /// The idle interval is three running intervals.
  lemma IdleIsThreeTimesSlower()
    ensures FrameInterval(false) == 3.0 * FrameInterval(true)
  {
  }

  /// `k` ticks in the same movement state with the same `deltaTime`.
  function Steps(a: Anim, deltaTime: real, isMoving: bool, k: nat): Anim
  {
    if k == 0 then a else AnimStep(Steps(a, deltaTime, isMoving, k - 1), deltaTime, isMoving, isMoving)
  }

  /// Until the accumulated time reaches the interval, steady ticks only
  /// accumulate: after `k` of them the frame is unchanged and the timer has
  /// grown by exactly `k * deltaTime`.
  lemma {:induction false} AccumulatesUntilDue(a: Anim, deltaTime: real, isMoving: bool, k: nat)
    requires 0 <= a.frame < MaxFrames
    requires deltaTime >= 0.0
    requires a.runningTime + (k as real) * deltaTime < FrameInterval(isMoving)
    ensures Steps(a, deltaTime, isMoving, k) == Anim(a.frame, a.runningTime + (k as real) * deltaTime)
  {
    if k > 0 {
      var k' := k - 1;
      assert (k' as real) * deltaTime <= (k as real) * deltaTime by {
        assert (k as real) * deltaTime == (k' as real) * deltaTime + deltaTime;
      }
      AccumulatesUntilDue(a, deltaTime, isMoving, k');
      SteadyCadence(Steps(a, deltaTime, isMoving, k'), deltaTime, isMoving);
    }
  }

  /// The tick after those `k` is the first one that advances the frame, exactly
  /// when the timer then reaches the interval.
  lemma {:induction false} FirstAdvance(a: Anim, deltaTime: real, isMoving: bool, k: nat)
    requires 0 <= a.frame < MaxFrames
    requires deltaTime >= 0.0
    requires a.runningTime + (k as real) * deltaTime < FrameInterval(isMoving)
    ensures Steps(a, deltaTime, isMoving, k + 1) ==
      if a.runningTime + ((k + 1) as real) * deltaTime >= FrameInterval(isMoving)
      then Anim((a.frame + 1) % MaxFrames, 0.0)
      else Anim(a.frame, a.runningTime + ((k + 1) as real) * deltaTime)
  {
    AccumulatesUntilDue(a, deltaTime, isMoving, k);
    assert ((k + 1) as real) * deltaTime == (k as real) * deltaTime + deltaTime;
    SteadyCadence(Steps(a, deltaTime, isMoving, k), deltaTime, isMoving);
  }

  // ---------------------------------------------------------------------
  // Health

  /// Damage applied in order, as repeated `takeDamage` calls.
  function DamagedBy(s: CharState, damages: seq<real>): CharState
    decreases |damages|
  {
    if damages == [] then s else DamagedBy(Damaged(s, damages[0]), damages[1..])
  }

  function Sum(xs: seq<real>): real
    decreases |xs|
  {
    if xs == [] then 0.0 else xs[0] + Sum(xs[1..])
  }

  lemma {:induction false} SumNonNegative(xs: seq<real>)
    requires forall i :: 0 <= i < |xs| ==> xs[i] >= 0.0
    ensures Sum(xs) >= 0.0
    decreases |xs|
  {
    if xs != [] {
      SumNonNegative(xs[1..]);
    }
  }

  /// A dead character at zero health stays so under further non-negative damage.
  lemma {:induction false} DeadStaysAtZero(s: CharState, damages: seq<real>)
    requires s.health == 0.0 && !s.alive
    requires forall i :: 0 <= i < |damages| ==> damages[i] >= 0.0
    ensures DamagedBy(s, damages) == s
    decreases |damages|
  {
    if damages != [] {
      assert Damaged(s, damages[0]) == s;
      DeadStaysAtZero(s, damages[1..]);
    }
  }

  /// Health floor: from positive health, any sequence of non-negative hits
  /// leaves `max(0, health - total)`, and the character is alive afterwards
  /// exactly when it was alive before and the total stays below its health.
  lemma {:induction false} DamageSequence(s: CharState, damages: seq<real>)
    requires s.health > 0.0
    requires forall i :: 0 <= i < |damages| ==> damages[i] >= 0.0
    ensures DamagedBy(s, damages).health ==
      if Sum(damages) >= s.health then 0.0 else s.health - Sum(damages)
    ensures DamagedBy(s, damages).alive == (s.alive && Sum(damages) < s.health)
    decreases |damages|
  {
    if damages != [] {
      var s' := Damaged(s, damages[0]);
      SumNonNegative(damages[1..]);
      if s'.health > 0.0 {
        DamageSequence(s', damages[1..]);
      } else {
        DeadStaysAtZero(s', damages[1..]);
      }
    }
  }

  /// Two batches of damage in a row are one batch: the second applies to
  /// what the first left.
  lemma {:induction false} DamagedByAppend(s: CharState, first: seq<real>, second: seq<real>)
    ensures DamagedBy(s, first + second) == DamagedBy(DamagedBy(s, first), second)
    decreases |first|
  {
    if first == [] {
      assert first + second == second;
    } else {
      assert (first + second)[1..] == first[1..] + second;
      DamagedByAppend(Damaged(s, first[0]), first[1..], second);
    }
  }

  /// A single hit is one `takeDamage`.
  lemma DamagedByOne(s: CharState, damage: real)
    ensures DamagedBy(s, [damage]) == Damaged(s, damage)
  {
    assert [damage][1..] == [];
  }

  /// Damage changes nothing but health and the alive flag.
  lemma {:induction false} DamagedByKeepsRest(s: CharState, damages: seq<real>)
    ensures DamagedBy(s, damages).(health := s.health, alive := s.alive) == s
    decreases |damages|
  {
    if damages != [] {
      DamagedByKeepsRest(Damaged(s, damages[0]), damages[1..]);
    }
  }

  /// `BaseCharacter`: the C++ class with its fields updated in place.
  /// `maxFrames`, `updateTime` and `scale` are protected fields that no
  /// modelled code writes; here they are the module constants above.
  class BaseCharacter {
    var texture: Texture
    var idle: Texture
    var run: Texture
    var worldPos: Vec2
    var worldPosLastFrame: Vec2
    var rightLeft: real
    var runningTime: real
    var frame: int
    var speed: real
    var width: real
    var height: real
    var velocity: Vec2
    var wasMoving: bool
    var health: real
    var alive: bool

    /// The animation frame is a valid index into the sprite sheet.
    ghost predicate Valid()
      reads this
    {
      FrameValid(State())
    }

    function State(): CharState
      reads this
    {
      CharState(texture, idle, run, worldPos, worldPosLastFrame, rightLeft, runningTime, frame,
                speed, width, height, velocity, wasMoving, health, alive)
    }

    /// `BaseCharacter()`: every field at its default.
    constructor ()
      ensures State() == FreshState(NoTexture, NoTexture, NoTexture)
      ensures Valid() && alive && health == FullHealth && rightLeft == 1.0
      ensures !wasMoving && velocity == Zero && frame == 0 && speed == DefaultSpeed
    {
      texture, idle, run := NoTexture, NoTexture, NoTexture;
      worldPos, worldPosLastFrame := Zero, Zero;
      rightLeft := 1.0;
      runningTime := 0.0;
      frame := 0;
      speed := DefaultSpeed;
      width, height := 0.0, 0.0;
      velocity := Zero;
      wasMoving := false;
      health := FullHealth;
      alive := true;
    }

    /// `BaseCharacter(idleTexture, runTexture)`: starts on the idle sheet.
    constructor WithTextures(idleTexture: Texture, runTexture: Texture)
      ensures State() == FreshState(idleTexture, runTexture, idleTexture)
      ensures Valid() && alive && health == FullHealth && rightLeft == 1.0
      ensures !wasMoving && velocity == Zero && frame == 0 && speed == DefaultSpeed
    {
      idle := idleTexture;
      run := runTexture;
      texture := idleTexture;
      worldPos, worldPosLastFrame := Zero, Zero;
      rightLeft := 1.0;
      runningTime := 0.0;
      frame := 0;
      speed := DefaultSpeed;
      width, height := 0.0, 0.0;
      velocity := Zero;
      wasMoving := false;
      health := FullHealth;
      alive := true;
    }

    function GetWorldPos(): Vec2
      reads this
    {
      worldPos
    }

    method UndoMovement()
      modifies this
      ensures State() == Undone(old(State()))
    {
      worldPos := worldPosLastFrame;
    }

    /// `getCollisionRec`, given the subclass's screen position.
    function CollisionRec(screenPos: Vec2): (r: Rect)
      reads this
      ensures r == CollisionRecOf(State(), screenPos)
    {
      Rect(screenPos.x, screenPos.y, width * RenderScale, texture.height as real * RenderScale)
    }

    /// `tick(deltaTime)`; the draw call at its end is rendering and is not modelled.
    method Tick(deltaTime: real, rl: Raylib)
      modifies this
      ensures State() == Ticked(old(State()), deltaTime, rl)
      ensures Valid()
    {
      var isMoving := rl.length(velocity) != 0.0;
      worldPosLastFrame := worldPos;
      if isMoving {
        worldPos := Add(worldPos, Scale(rl.normalize(velocity), speed));
        rightLeft := if velocity.x < 0.0 then -1.0 else 1.0;
      }
      Animate(deltaTime, isMoving);
      wasMoving := isMoving;
      velocity := Zero;
    }

    /// The sprite-sheet part of `tick`: accumulate time, pick the sheet for
    /// the movement state, restart on a switch, advance when due, clamp.
    method Animate(deltaTime: real, isMoving: bool)
      modifies this`texture, this`frame, this`runningTime
      ensures texture == if isMoving then run else idle
      ensures Anim(frame, runningTime) == AnimStep(old(Anim(frame, runningTime)), deltaTime, wasMoving, isMoving)
    {
      runningTime := runningTime + deltaTime;
      if isMoving {
        ShowSheet(run, !wasMoving);
        AdvanceFrameAfter(UpdateTime);
      } else {
        ShowSheet(idle, wasMoving);
        AdvanceFrameAfter(UpdateTime * 3.0);
      }
      if frame < 0 {
        frame := 0;
      }
      if frame >= MaxFrames {
        frame := 0;
      }
    }

    /// The sheet-switching block that `tick` repeats for running and for idle:
    /// show `sheet`, and restart the cycle when the movement state changed.
    method ShowSheet(sheet: Texture, switched: bool)
      modifies this`texture, this`frame, this`runningTime
      ensures texture == sheet
      ensures Anim(frame, runningTime) == if switched then Anim(0, 0.0) else Anim(old(frame), old(runningTime))
    {
      if switched {
        texture := sheet;
        frame := 0;
        runningTime := 0.0;
      } else {
        texture := sheet;
      }
    }

    /// The frame-advance block that `tick` repeats for running and for idle.
    method AdvanceFrameAfter(interval: real)
      modifies this`frame, this`runningTime
      ensures Anim(frame, runningTime) ==
        if old(runningTime) >= interval then
          Anim(if old(frame) + 1 >= MaxFrames then 0 else old(frame) + 1, 0.0)
        else Anim(old(frame), old(runningTime))
    {
      if runningTime >= interval {
        frame := frame + 1;
        runningTime := 0.0;
        if frame >= MaxFrames {
          frame := 0;
        }
      }
    }

    function GetAlive(): bool
      reads this
    {
      alive
    }

    /// `setAlive`: the only other writer of `alive` besides `TakeDamage`.
    method SetAlive(isAlive: bool)
      modifies this
      ensures State() == old(State()).(alive := isAlive)
      ensures GetAlive() == isAlive
    {
      alive := isAlive;
    }

    function GetHealth(): real
      reads this
    {
      health
    }

    /// `setHealth`: stores its argument unclamped and leaves `alive` alone.
    method SetHealth(newHealth: real)
      modifies this
      ensures State() == old(State()).(health := newHealth)
      ensures GetHealth() == newHealth
    {
      health := newHealth;
    }

    method TakeDamage(damage: real)
      modifies this
      ensures State() == Damaged(old(State()), damage)
    {
      health := health - damage;
      if health <= 0.0 {
        health := 0.0;
        SetAlive(false);
      }
    }
  }
}
