/// Plane geometry shared by the characters and the frame loop: raylib's
/// `Vector2` and `Rectangle`, the few raymath operations the game uses, and
/// the raylib routines whose code lies outside this model, passed in as
/// function values.
module Geometry {

  /// raylib's `Vector2`; C++ `float` is modelled as `real`.
  datatype Vec2 = Vec2(x: real, y: real)

  /// raylib's `Rectangle`: top-left corner and size.
  datatype Rect = Rect(x: real, y: real, width: real, height: real)

  const Zero: Vec2 := Vec2(0.0, 0.0)

  /// raymath `Vector2Add`
  function Add(a: Vec2, b: Vec2): Vec2 { Vec2(a.x + b.x, a.y + b.y) }

  /// raymath `Vector2Subtract`
  function Sub(a: Vec2, b: Vec2): Vec2 { Vec2(a.x - b.x, a.y - b.y) }

  /// raymath `Vector2Scale`
  function Scale(v: Vec2, k: real): Vec2 { Vec2(v.x * k, v.y * k) }

  /// The raylib routines the core calls but whose code is not part of this
  /// model: `Vector2Length` (a square root), `Vector2Normalize` and
  /// `CheckCollisionRecs`.
  datatype Raylib = Raylib(
    length: Vec2 -> real,
    normalize: Vec2 -> Vec2,
    collide: (Rect, Rect) -> bool)

  /// What the game relies on from `Vector2Length`: it is never negative and
  /// it is zero exactly on the zero vector.
  ghost predicate LawfulLength(rl: Raylib)
  {
    forall v :: rl.length(v) >= 0.0 && (rl.length(v) == 0.0 <==> v == Zero)
  }
}
