# RPGweb_friendly — a Dafny model of the game core and its on-screen joysticks

The game is a small top-down raylib game. A knight walks a tiled map among props. Enemies chase it, bite it on contact and die to its sword. In the browser build, an on-screen joystick turns touches into W/A/S/D key presses.

This project models the parts of that code that decide what happens, and proves what they promise:

- **Characters** (`base_character.dfy`, `src/BaseCharacter.{h,cpp}`): the record every character carries.
  - World position with a one-frame undo snapshot.
  - The idle/run animation state machine advanced by `tick`.
  - Facing, health and the `alive` flag.
  - `CharState` is the value of all the fields. `Ticked`, `Undone` and `Damaged` say what `tick`, `undoMovement` and `takeDamage` do to it.
  - The class `BaseCharacter` updates its fields in place, and each method is proved to agree with its function.
- **Enemies** (`enemy.dfy`, `src/Enemy.{h,cpp}`): the per-kind stats table and the per-kind steering rule.
  - The pursuit tick, with its contact damage.
  - The death cue, latched by `killed`.
  - The class `Enemy` owns its body (a `BaseCharacter`) and holds a non-owning reference to its target.
- **The game loop** (`game.dfy`, `src/main.cpp`): one iteration of the gameplay `while` loop.
  - The dead-knight freeze and the defeat cue.
  - The knight's tick and the map-bounds undo.
  - The prop loop and the enemy loop with their undo rules.
  - The sword and the music restart.
  - `Frame` states the iteration on values. `RunFrame` performs it on the knight and an `array<Enemy>` and is proved equal to `Frame`.
  - `Play` states the whole loop, one iteration per input. `RunGame` runs the set-up and then `RunFrame` once per input, and is proved equal to `Play`.
- **The joysticks** (`joystick_common.dfy`, `touch_joystick.dfy`, `angle_joystick.dfy`).
  - The eight-way touch joystick of `joystick/joystick.js` and the four-way angle joystick of `joystick.js`.
  - Each is a class whose handlers update `isDragging`, `currentDirection`, the knob position and the `activeKeys` set. The touch joystick also updates `touchId`, the identifier of the touch it tracks; the angle joystick has no such field.
  - Each handler is proved against a function on a `Pad` value.
  - The keyboard events each joystick dispatches are kept, in order, in a `sent` log.

raylib's `Vector2Length`, `Vector2Normalize` and `CheckCollisionRecs` are passed in as function values (`Raylib`), and so are JavaScript's `Math.sqrt` and `Math.atan2` (`JsMath`). Lemmas that need more than "some function" assume only a small law about them (`LawfulLength`, `LawfulSqrt`).

Behaviour the proofs bring out:

- The code has no spawn timer, no removal of dead enemies and no victory state. The sword only clears `alive`, and the enemy array never changes size (`Frame`, `Play`).
- The idle frame interval is three times the running one (`IdleIsThreeTimesSlower`). The number of ticks a frame stays on screen is not a fixed multiple: a frame advances on the first tick whose accumulated time reaches the interval, so the count is a ceiling of interval over frame time (`AccumulatesUntilDue`, `FirstAdvance`).
- `takeDamage` keeps "health 0 implies not alive" (`Damaged`). `setHealth` stores any value and leaves `alive` alone (`SetHealth`), so the rule holds only while health changes through damage. The game loop changes health only through damage, and keeps the rule over any number of iterations (`GameKeepsInvariants`).
- A dead enemy that touches the knight is still set back by the contact undo of the enemy loop (`TurnEnemy`).
- In the touch joystick, a knob outside the dead zone but short of the 0.3 threshold on both axes releases every key and keeps the previous direction label. `LeaningTooLittleKeepsLabel` shows this, and `LeaningTooLittleHappens` shows that such a position exists: eight pixels to the right.
- In the angle joystick, the final `return null` of `angleToDirection` is unreachable for every finite number, not only for `atan2`'s range. JavaScript's `%` keeps the dividend's sign, and a negative remainder passes the `< 45` test (`AngleToDirection`). For `NaN` or an infinite angle `(angle + 360) % 360` is `NaN`, every comparison fails, and the function does return `null`; the model's reals have no such values.

## Model

| member | source | states |
|---|---|---|
| Characters.FrameInterval | src/BaseCharacter.cpp:61-85 | the frame interval is positive (the idle/running ratio is `IdleIsThreeTimesSlower`) |
| Characters.AnimStep | src/BaseCharacter.cpp:39-100 | after the animation part of a tick the frame is a valid sprite index |
| Characters.Ticked | src/BaseCharacter.cpp:32-100 | a tick snapshots the old position, leaves a valid frame and zero velocity, records whether it moved, and leaves health and `alive` alone |
| Characters.Undone | src/BaseCharacter.cpp:17-20 | undo restores the snapshot and changes nothing else |
| Characters.Damaged | src/BaseCharacter.cpp:107-115 | damage subtracts; a result at or below zero becomes exactly 0 and clears `alive`; health is never negative; nothing else changes |
| Characters.CollisionRecOf | src/BaseCharacter.cpp:22-30 | the rectangle sits at the screen position and is `width*scale` by `texture.height*scale` |
| Characters.TickThenUndo | src/BaseCharacter.cpp:17-34 | tick then undo restores the pre-tick position exactly; a second undo changes nothing |
| Characters.UndoIdempotent | src/BaseCharacter.cpp:17-20 | undoing twice is undoing once |
| Characters.MovementLaw | src/BaseCharacter.cpp:36-46 | with a lawful length, the character moves by `normalize(velocity)*speed` exactly when velocity is non-zero; it then faces the sign of `velocity.x` and shows the run sheet, and otherwise keeps its facing and shows the idle sheet |
| Characters.MovementIgnoresDeltaTime | src/BaseCharacter.cpp:36-45 | the displacement, and everything but the animation cursor, is independent of `deltaTime` |
| Characters.SwitchRestartsCycle | src/BaseCharacter.cpp:42-78 | an idle/run switch restarts the cycle at frame 0 with no time accumulated |
| Characters.SteadyCadence | src/BaseCharacter.cpp:39-92 | without a switch the frame advances by one modulo `maxFrames`, and the timer resets, exactly when the accumulated time reaches the interval; otherwise time accumulates |
| Characters.IdleIsThreeTimesSlower | src/BaseCharacter.cpp:85 | the idle interval is three running intervals |
| Characters.AccumulatesUntilDue | src/BaseCharacter.cpp:39-92 | `k` steady ticks that stay short of the interval keep the frame and add `k*deltaTime` to the timer |
| Characters.FirstAdvance | src/BaseCharacter.cpp:61-68 | the next tick advances the frame exactly when the timer then reaches the interval |
| Characters.DeadStaysAtZero | src/BaseCharacter.cpp:107-115 | a character dead at zero health is unchanged by further non-negative damage |
| Characters.DamageSequence | src/BaseCharacter.cpp:107-115 | from positive health, non-negative hits leave `max(0, health - total)`, and `alive` exactly when it was alive and the total stays below the health |
| Characters.DamagedByAppend | src/BaseCharacter.cpp:107-115 | two batches of hits are one batch |
| Characters.DamagedByOne | src/BaseCharacter.cpp:107-115 | a one-hit batch is one `takeDamage` |
| Characters.DamagedByKeepsRest | src/BaseCharacter.cpp:107-115 | hits change only health and `alive` |
| Characters.BaseCharacter.constructor | src/BaseCharacter.h:20-42 | a fresh character has every default: alive, health 100, facing right, frame 0, speed 4, not moving, zero velocity |
| Characters.BaseCharacter.WithTextures | src/BaseCharacter.cpp:10-15 | the textured constructor shows the idle sheet and keeps every default |
| Characters.BaseCharacter.UndoMovement | src/BaseCharacter.cpp:17-20 | the object's new state is `Undone` of the old |
| Characters.BaseCharacter.CollisionRec | src/BaseCharacter.cpp:22-30 | the object's rectangle is `CollisionRecOf` its state; it reads and changes nothing else |
| Characters.BaseCharacter.Tick | src/BaseCharacter.cpp:32-100 | the object's new state is `Ticked` of the old, and the frame stays a valid index |
| Characters.BaseCharacter.Animate | src/BaseCharacter.cpp:38-93 | the sprite-sheet steps in place compute `AnimStep` and show the sheet of the movement state |
| Characters.BaseCharacter.ShowSheet | src/BaseCharacter.cpp:49-58 | the sheet is shown, and the cycle restarts exactly on a switch |
| Characters.BaseCharacter.AdvanceFrameAfter | src/BaseCharacter.cpp:61-68 | the frame advances with wrap-around and the timer resets exactly when the interval is reached |
| Characters.BaseCharacter.SetAlive | src/BaseCharacter.h:16 | `alive` becomes the argument, so `getAlive` returns it, and nothing else changes |
| Characters.BaseCharacter.SetHealth | src/BaseCharacter.h:19 | health becomes the argument unclamped and `alive` is left alone |
| Characters.BaseCharacter.TakeDamage | src/BaseCharacter.cpp:107-115 | the object's new state is `Damaged` of the old |
| Enemies.StatsOf | src/Enemy.cpp:30-65 | the kind table; every row has positive health, damage rate and radius |
| Enemies.DefaultsAreGoblinRow | src/Enemy.h:20-24 | the field defaults are the goblin row |
| Enemies.Steer | src/Enemy.cpp:84-108 | the steered vector is zero, the raw pursuit, or (elite goblin only) the raw pursuit plus 0.3 of its perpendicular |
| Enemies.StrafeNonZero | src/Enemy.cpp:97-100 | the circling vector of a non-zero pursuit is non-zero |
| Enemies.SteerStopsIff | src/Enemy.cpp:84-108 | an enemy stops exactly when the distance is strictly below 1, 1.2 (slimes) or 0.8 (intellect devourer) radii |
| Enemies.EliteGoblinBands | src/Enemy.cpp:95-104 | the elite goblin circles strictly between 1 and 1.5 radii, stops inside 1, and pursues directly at exactly 1 or from 1.5 on |
| Enemies.Pursued | src/Enemy.cpp:79-110 | a live enemy's pursuit move snapshots its old position, leaves a valid frame, shows its run or idle sheet, and keeps health and `alive` |
| Enemies.Bites | src/Enemy.cpp:69-115 | only a live enemy bites: a dead one returns before the contact check (when a live one bites is `ContactDamage`) |
| Enemies.EnemyTicked | src/Enemy.cpp:67-116 | an enemy tick keeps kind, stats and the target's position |
| Enemies.DeadEnemyIsInert | src/Enemy.cpp:69-77 | a dead enemy neither moves nor hurts its target, and latches `killed` |
| Enemies.DeathCueAtMostOnce | src/Enemy.cpp:69-77 | the death cue starts at most once per enemy, and only on the tick that latches `killed` |
| Enemies.ContactDamage | src/Enemy.cpp:110-115 | a live enemy ticks its body once; the target takes exactly `damagePerSec*deltaTime` when the rectangles touch after the move, even if the enemy stood still, and nothing else of the target changes |
| Enemies.PursuitStopsIff | src/Enemy.cpp:80-110 | with a lawful length, the pursuit vector is target screen position minus own, and the enemy moves exactly when it is at least the stop distance away |
| Enemies.Enemy.Basic | src/Enemy.cpp:4-15 | the four-argument constructor builds a goblin on the goblin row, not killed, with width the sheet width over `maxFrames` in integer division |
| Enemies.Enemy.constructor | src/Enemy.cpp:17-28 | the five-argument constructor builds the given kind on its row, with the same body |
| Enemies.Enemy.Spawn | src/Enemy.cpp:6-12 | the body both constructors build |
| Enemies.Enemy.SetupEnemyStats | src/Enemy.cpp:30-65 | the stats become the kind's row, health becomes its maximum, and nothing else changes |
| Enemies.Enemy.SetTarget | src/Enemy.h:14 | the target reference is stored and the enemy's state is unchanged |
| Enemies.Enemy.GetType | src/Enemy.h:16 | the kind returned is the kind the enemy's state records |
| Enemies.Enemy.ScreenPos | src/Enemy.cpp:118-121 | the screen position is own world position minus the target's |
| Enemies.Enemy.Tick | src/Enemy.cpp:67-116 | the enemy and its target come out as `EnemyTicked` says; the target must be set first |
| Game.OutOfBounds | src/main.cpp:155-158 | the knight is in bounds exactly inside the box `[-130, 4w/0.99 - 576] x [-100, 4h/0.99 - 576]`; the window height bounds both axes |
| Game.KnightStepped | src/main.cpp:152-161 | the knight ends inside the map where its tick took it, or back where it stood, with a valid frame and its health and `alive` untouched |
| Game.TouchUndo | src/main.cpp:169-171 | the inner prop loop keeps the number of enemies |
| Game.PropsStep | src/main.cpp:164-172 | the prop loop keeps the number of enemies |
| Game.TurnEnemy | src/main.cpp:176-179 | an enemy's turn keeps kind, stats and aliveness; a dead enemy latches `killed` and moves only by being set back to its snapshot |
| Game.EnemiesStep | src/main.cpp:174-180 | the enemy loop keeps the number of enemies |
| Game.Strike | src/main.cpp:182-185 | the sword keeps the number of enemies: none is removed |
| Game.LiveStep | src/main.cpp:152-185 | a live iteration keeps the number of enemies |
| Game.Frame | src/main.cpp:124-185 | an iteration keeps the number of enemies |
| Game.NextAudio | src/main.cpp:126-187 | each counter grows by at most one per iteration; the defeat sound starts only with the knight dead, exactly when it is not playing and `played` is clear; the music restarts only with the knight alive |
| Game.DeadKnightFreezesWorld | src/main.cpp:124-137 | with the knight dead an iteration changes no character and does not restart the music |
| Game.DefeatSoundAtMostOnce | src/main.cpp:126-132 | the defeat sound starts at most once per game, exactly when `played` is set |
| Game.PropsOnlyUndo | src/main.cpp:164-172 | the prop loop changes the knight and each enemy only by undoing |
| Game.TurnIgnoresHealth | src/main.cpp:174-180 | an enemy's turn and bite depend on the knight's position and size, not on its health |
| Game.BiteIsTickDamage | src/Enemy.cpp:112-115 | what an enemy's tick does to the knight is its bite |
| Game.BiteHurts | src/Enemy.cpp:112-115 | an enemy deals at most one non-negative hit per tick |
| Game.BitesHurt | src/main.cpp:174-180 | the enemy loop deals at most one non-negative hit per enemy |
| Game.EnemiesOnlyHurt | src/main.cpp:174-180 | the enemy loop only lowers the knight's health, never below 0, leaves it alive only with health left, changes nothing else about it, and keeps every enemy on its table row |
| Game.KnightStaysInBounds | src/main.cpp:152-161 | at the end of a live iteration the knight is where it stood, or where its tick took it and inside the map bounds |
| Game.NoRevival | src/main.cpp:124-185 | an enemy dead before an iteration is dead after it |
| Game.KnightHealthFalls | src/main.cpp:152-185 | the knight's health never rises and never goes negative, and a live knight has health left |
| Game.AttackKillsExactlyTheTouched | src/main.cpp:182-185 | the sword clears `alive` on exactly the enemies touching it and changes nothing else |
| Game.FrameKeepsFramesValid | src/main.cpp:152-185 | an iteration keeps every character's animation frame a valid sprite index |
| Game.PropsKeepFramesValid | src/main.cpp:164-172 | the prop loop keeps every animation frame valid |
| Game.EnemiesKeepFramesValid | src/main.cpp:174-185 | the enemy loop and the sword keep every animation frame valid |
| Game.FrameKeepsCalibrated | src/main.cpp:164-185 | an iteration keeps every enemy on its row of the stats table |
| Game.Play | src/main.cpp:109-190 | the loop keeps the number of enemies over any number of iterations |
| Game.GameKeepsInvariants | src/main.cpp:109-190 | over any number of iterations: health never rises, a live knight has health left, frames stay valid, stats stay on their rows, no enemy is revived, the defeat sound starts at most once, and a dead knight's world never changes again |
| Game.AssignTargets | src/main.cpp:104-105 | every enemy targets the knight, and their states are unchanged |
| Game.RunGame | src/main.cpp:104-190 | targets assigned and music started, then one iteration per input: the objects and sounds come out as `Play` says |
| Game.RunFrame | src/main.cpp:114-188 | the objects come out as `Frame` says, every enemy still targets the knight (so the next iteration can run), the map offset is the negated world position, and the sounds are as `NextAudio` says |
| Game.LiveFrame | src/main.cpp:152-185 | a live iteration on the objects is `LiveStep`, and every enemy still targets the knight |
| Game.KnightTurn | src/main.cpp:152-161 | the knight's tick and bounds undo on the objects |
| Game.PropPhase | src/main.cpp:164-172 | the prop loop on the objects is `PropsStep` |
| Game.UndoEnemiesTouching | src/main.cpp:169-171 | the inner prop loop on the objects is `TouchUndo` |
| Game.EnemyPhase | src/main.cpp:174-180 | the enemy loop, run one enemy after another on the objects, is `EnemiesStep` |
| Game.EnemyTurnOf | src/main.cpp:174-180 | one pass of the enemy loop keeps the loop's invariant |
| Game.TakeTurn | src/main.cpp:176-179 | an enemy's turn on the objects is `TurnEnemy`, and the knight takes that enemy's bite |
| Game.AttackPhase | src/main.cpp:182-185 | the sword loop on the objects is `Strike` |
| JoystickCommon.Insert | joystick/joystick.js:221 | adding a key to the set keeps it without repeats and adds exactly that key |
| JoystickCommon.InsertAllUnion | joystick/joystick.js:218-223 | adding keys to the set gives the union and keeps it free of repeats |
| JoystickCommon.InsertAllFresh | joystick/joystick.js:218-223 | adding distinct keys to the set appends them in order |
| JoystickCommon.Constrain | joystick/joystick.js:106-114 | an offset within reach is kept; one beyond it is scaled by `maxDistance/distance` on both axes, so it stays on its ray |
| JoystickCommon.ConstrainStaysInRing | joystick/joystick.js:106-114 | with a lawful square root an offset within reach is kept, and one beyond it is scaled onto the ring along the same ray |
| TouchJoystick.Directions | joystick/joystick.js:177-207 | up exactly when `ny < -0.3`, down exactly when `ny > 0.3`, left and right likewise on x; at most two, vertical first |
| TouchJoystick.SplitJoin | joystick/joystick.js:168 | round trip: for a non-empty list of parts none of which contains `+`, splitting their `+`-join at `+` gives back exactly that list |
| TouchJoystick.LabelNamesDirections | joystick/joystick.js:168 | a direction label splits into the names of its directions |
| TouchJoystick.LabelInjective | joystick/joystick.js:168 | two direction lists share a label exactly when they are equal |
| TouchJoystick.Tracked | joystick/joystick.js:93 | the touch found has the tracked identifier; none is found when no touch is tracked or none matches |
| TouchJoystick.Released | joystick/joystick.js:226-231 | no key stays held; the log grows by one key-up per held key, each for a key that was held; nothing else changes |
| TouchJoystick.Pressed | joystick/joystick.js:209-224 | the log grows by one key-down per direction, each for a key then held; the held set becomes the old one plus the directions' keys; nothing else changes |
| TouchJoystick.Updated | joystick/joystick.js:155-175 | the log only grows; drag, touch and knob are untouched; a key is held only outside the dead zone and then with a direction |
| TouchJoystick.Started | joystick/joystick.js:56-74 | no key, log entry, direction or knob changes; a tracked touch is never replaced; a mouse start or a drag in progress leaves a drag |
| TouchJoystick.Moved | joystick/joystick.js:76-123 | the log only grows; a move neither starts nor ends a drag and keeps the tracked touch |
| TouchJoystick.Ended | joystick/joystick.js:125-144 | the log only grows; the tracked touch is kept or cleared; a drag survives only an end that changes nothing but the tracked touch |
| TouchJoystick.DirectionKeysSound | joystick/joystick.js:209-224 | the keys of computed directions are distinct and never opposed |
| TouchJoystick.UpdateReleasesFirst | joystick/joystick.js:155-175 | every held key is released before any is pressed, and the keys pressed are exactly the keys then held |
| TouchJoystick.DeadZoneHoldsNothing | joystick/joystick.js:172-174 | inside the dead zone no key is held and there is no direction |
| TouchJoystick.OutsideDeadZonePresses | joystick/joystick.js:163-171 | outside the dead zone with directions, the label names them and exactly their keys are held, in order |
| TouchJoystick.LeaningTooLittleKeepsLabel | joystick/joystick.js:163-171 | outside the dead zone with no direction, no key is held and the label is unchanged |
| TouchJoystick.LeaningTooLittleHappens | joystick/joystick.js:177-200 | eight pixels right is outside the dead zone and short of every threshold |
| TouchJoystick.StartIgnoredWhileTracking | joystick/joystick.js:56-63 | a touch start while a touch is tracked changes nothing |
| TouchJoystick.EndTouchRule | joystick/joystick.js:125-131 | a touch end clears the tracked touch exactly when it is among those ended or none was tracked, and otherwise changes nothing |
| TouchJoystick.EndStopsDrag | joystick/joystick.js:125-144 | ending a drag releases every key, recentres the knob and clears the direction; without a drag an end changes only the tracked touch and a move changes nothing |
| TouchJoystick.InitialSane | joystick/joystick.js:7-20 | the constructed joystick is sane |
| TouchJoystick.UpdateKeepsSane | joystick/joystick.js:155-175 | a direction update during a drag keeps keys distinct and unopposed |
| TouchJoystick.HandlersKeepSane | joystick/joystick.js:56-144 | every handler keeps keys distinct, never opposed, and held (with a direction) only during a drag |
| TouchJoystick.VirtualJoystick.constructor | joystick/joystick.js:7-20 | not dragging, no direction, no touch, knob centred, no keys |
| TouchJoystick.VirtualJoystick.SendKeyEvent | joystick/joystick.js:233-245 | the event is appended to the dispatched log |
| TouchJoystick.VirtualJoystick.ReleaseAllKeys | joystick/joystick.js:226-231 | a key-up for every held key in insertion order, then no key held |
| TouchJoystick.VirtualJoystick.SendDirectionKeys | joystick/joystick.js:209-224 | a key-down for each direction's key, each added to the set |
| TouchJoystick.VirtualJoystick.UpdateDirection | joystick/joystick.js:155-175 | the joystick's new state is `Updated` of the old |
| TouchJoystick.VirtualJoystick.OnStart | joystick/joystick.js:56-74 | the new state is `Started` of the old |
| TouchJoystick.VirtualJoystick.OnMove | joystick/joystick.js:76-123 | the new state is `Moved` of the old |
| TouchJoystick.VirtualJoystick.AimAt | joystick/joystick.js:116-122 | knob placed at the clamped offset and direction updated for it |
| TouchJoystick.VirtualJoystick.OnEnd | joystick/joystick.js:125-144 | the new state is `Ended` of the old |
| TouchJoystick.VirtualJoystick.Destroy | joystick/joystick.js:247-252 | every held key is released |
| AngleJoystick.Rem360 | joystick.js:153 | JavaScript `% 360`: the remainder keeps the dividend's sign, lies within one turn, and differs from it by whole turns |
| AngleJoystick.AngleToDirection | joystick.js:151-167 | every (finite) angle gets a direction; the final `null` is unreachable |
| AngleJoystick.ShiftedRem | joystick.js:153 | on `[0, 720)` the remainder is the angle, less one turn from 360 on |
| AngleJoystick.AngleSectors | joystick.js:151-167 | for angles in `[-180, 180]`: right exactly on `[-45, 45)`, down on `[45, 135)`, left from 135 or below -135, up on `[-135, -45)` |
| AngleJoystick.Released | joystick.js:183-188 | no key stays held; the log grows by one key-up per held key, each for a key that was held; nothing else changes |
| AngleJoystick.Pressed | joystick.js:169-181 | `null` changes nothing; a direction appends exactly its key-down and adds exactly its key; nothing else changes |
| AngleJoystick.Updated | joystick.js:128-149 | the log only grows; drag and knob are untouched; a key is held exactly when there is a direction, and exactly outside the dead zone |
| AngleJoystick.Started | joystick.js:55-64 | a drag is in progress and nothing else changes |
| AngleJoystick.Moved | joystick.js:66-106 | the log only grows; a move neither starts nor ends a drag |
| AngleJoystick.Ended | joystick.js:108-120 | no drag is left in progress and the log only grows |
| AngleJoystick.UpdateHoldsOneKey | joystick.js:128-149 | outside the dead zone exactly the sector's key is held and it is the direction; inside, none and no direction; old keys are released before the new one is pressed |
| AngleJoystick.EndStopsDrag | joystick.js:108-120 | ending a drag releases the key, recentres the knob and clears the direction; without a drag an end or a move changes nothing |
| AngleJoystick.InitialSane | joystick.js:7-19 | the constructed joystick is sane |
| AngleJoystick.HandlersKeepSane | joystick.js:55-120 | every handler keeps the held keys equal to the current direction's key, so at most one, and only during a drag |
| AngleJoystick.VirtualJoystick.constructor | joystick.js:7-19 | not dragging, no direction, knob centred, no keys |
| AngleJoystick.VirtualJoystick.SendKeyEvent | joystick.js:190-202 | the event is appended to the dispatched log |
| AngleJoystick.VirtualJoystick.ReleaseAllKeys | joystick.js:183-188 | a key-up for every held key in insertion order, then no key held |
| AngleJoystick.VirtualJoystick.SendDirectionKeys | joystick.js:169-181 | a key-down and an added key for a direction; nothing for `null` |
| AngleJoystick.VirtualJoystick.UpdateDirection | joystick.js:128-149 | the joystick's new state is `Updated` of the old |
| AngleJoystick.VirtualJoystick.OnStart | joystick.js:55-64 | a drag starts |
| AngleJoystick.VirtualJoystick.OnMove | joystick.js:66-106 | the new state is `Moved` of the old, and the handler throws exactly for a touch event with no touch in either list |
| AngleJoystick.VirtualJoystick.AimAt | joystick.js:99-105 | knob placed at the clamped offset and direction updated for it |
| AngleJoystick.VirtualJoystick.OnEnd | joystick.js:108-120 | the new state is `Ended` of the old |
| AngleJoystick.VirtualJoystick.Destroy | joystick.js:204-209 | the held key is released |

## Left out

- Rendering: `DrawTexturePro` at the end of `tick`, and all map, prop, text and health-colour drawing. These calls only produce output.
- Audio: `PlaySound` is modelled as counters and flags: the enemy's `deathCues`, and `Audio` for the loop's `played` flag, defeat starts and music starts. `ResumeSound` is not modelled: nothing pauses a sound, so resuming one changes nothing. What `IsSoundPlaying` answers is an input to each tick. `Load*` calls in field initialisers are not modelled.
- raylib's `Vector2Length`, `Vector2Normalize` and `CheckCollisionRecs` are function values passed in, so no floating-point square root is modelled. `LawfulLength` assumes only that a length is non-negative and is zero exactly for the zero vector. Rectangle overlap is left uninterpreted, not even assumed symmetric.
- `src/Character.cpp` and `Prop.cpp` are not part of this model. The knight's own `tick` is modelled as setting its velocity to an input intent and then running the base tick. Its `getScreenPos`, its weapon rectangle and each prop's collision rectangle are inputs. `maxFrames`, `updateTime` and `scale` are protected fields of `BaseCharacter`. No modelled code writes them, so they are constants here. Whether `Character` changes them is not modelled.
- The title-screen loop, window and audio set-up and teardown (`src/main.cpp` outside lines 104-190), and `GetFrameTime` and `IsKeyPressed`, which are inputs. `WindowShouldClose` is modelled by the length of the input list: the loop runs one iteration per input.
- Float rounding: every C++ `float` and JavaScript number is a `real`. Texture sizes are integers, and `width = texture.width/maxFrames` is C++ integer division (`TruncDiv`).
- Spawning, removal of dead enemies and victory: the code has none of them, so the enemy array keeps its size.
- The level set-up in `src/main.cpp` before line 104: the thirteen enemies and the props are inputs. Every enemy there is built with the four-argument constructor, which always makes a goblin (`Enemies.Enemy.Basic`). So in the game as shipped every enemy uses the goblin row and the goblin stop distance. The slime and intellect-devourer sheets are only looks, and elite goblins and slime kings never appear. The kind table and the steering rule are modelled in full all the same.
- Joystick DOM and event plumbing:
  - element creation, CSS placement of the knob, listener registration;
  - `preventDefault`, `stopPropagation`, `setPointerCapture` and the `dragging` class;
  - `removeChild` in `destroy`;
  - the page-level set-up functions after the class.
- The base element's centre (from `getBoundingClientRect`) is a parameter of `onMove`. A dispatched `KeyboardEvent` is recorded only as its type and key.
- `Math.sqrt` and `Math.atan2` (converted to degrees) are function values passed in. `LawfulSqrt` assumes a non-negative square root. `AngleSectors` assumes only that the angle is in `[-180, 180]`, the range of `atan2`.
- The touch joystick looks up the tracked touch twice in `onMove`; both lookups search the same list, so the model looks it up once. An absent `changedTouches` is an empty list.
- Game.EnemiesStep: the enemy loop is stated per enemy, not as a fold. Each enemy comes out as its own turn against the knight as the loop found it, and the knight takes the bites in enemy order. The sequential loop is proved equal to this (`EnemyPhase`), so this is a restatement, not a weaker contract.
