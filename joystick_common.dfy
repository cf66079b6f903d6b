/// What the two on-screen joysticks share: the four movement directions,
/// the W/A/S/D keys they press, the keyboard events they dispatch to the
/// game, the knob's reach and dead zone, and the clamp that keeps the knob
/// inside its ring.  `Math.sqrt` and `Math.atan2` are passed in as function
/// values, as are pointer events, which arrive from the browser.
module JoystickCommon {

  datatype Option<T> = None | Some(value: T)

  datatype Direction = Up | Down | Left | Right

  datatype Key = W | A | S | D

  /// `keyMap` of `sendDirectionKeys`.
  function KeyOf(d: Direction): Key
  {
    match d
    case Up => W
    case Down => S
    case Left => A
    case Right => D
  }

  /// The string a direction is known by in `currentDirection`.
  function NameOf(d: Direction): string
  {
    match d
    case Up => "up"
    case Down => "down"
    case Left => "left"
    case Right => "right"
  }

  function KeysOf(ds: seq<Direction>): (keys: seq<Key>)
    ensures |keys| == |ds| && forall i :: 0 <= i < |ds| ==> keys[i] == KeyOf(ds[i])
  {
    seq(|ds|, i requires 0 <= i < |ds| => KeyOf(ds[i]))
  }

  function NamesOf(ds: seq<Direction>): (names: seq<string>)
    ensures |names| == |ds| && forall i :: 0 <= i < |ds| ==> names[i] == NameOf(ds[i])
  {
    seq(|ds|, i requires 0 <= i < |ds| => NameOf(ds[i]))
  }

  /// A keyboard event dispatched to the window by `sendKeyEvent`.
  datatype KeyEvent = KeyDown(key: Key) | KeyUp(key: Key)

  function KeyUps(keys: seq<Key>): (es: seq<KeyEvent>)
    ensures |es| == |keys| && forall i :: 0 <= i < |keys| ==> es[i] == KeyUp(keys[i])
  {
    seq(|keys|, i requires 0 <= i < |keys| => KeyUp(keys[i]))
  }

  function KeyDowns(keys: seq<Key>): (es: seq<KeyEvent>)
    ensures |es| == |keys| && forall i :: 0 <= i < |keys| ==> es[i] == KeyDown(keys[i])
  {
    seq(|keys|, i requires 0 <= i < |keys| => KeyDown(keys[i]))
  }

  /// The joysticks keep their pressed keys in a JavaScript `Set`, which
  /// iterates in insertion order; here it is a sequence without repeats.
  predicate NoRepeats(keys: seq<Key>)
  {
    forall i, j :: 0 <= i < j < |keys| ==> keys[i] != keys[j]
  }

  /// `Set.prototype.add`: a key already present stays where it is, a new
  /// key goes last.
  function Insert(keys: seq<Key>, k: Key): (r: seq<Key>)
    ensures k in r && forall x :: x in r <==> x in keys || x == k
    ensures NoRepeats(keys) ==> NoRepeats(r)
  {
    if k in keys then keys else keys + [k]
  }

  /// `add` of each key in turn.
  function InsertAll(keys: seq<Key>, more: seq<Key>): (r: seq<Key>)
    decreases |more|
  {
    if more == [] then keys else InsertAll(Insert(keys, more[0]), more[1..])
  }

  /// Adding keys to a set gives the union, and keeps it free of repeats.
  lemma {:induction false} InsertAllUnion(keys: seq<Key>, more: seq<Key>)
    ensures forall x :: x in InsertAll(keys, more) <==> x in keys || x in more
    ensures NoRepeats(keys) ==> NoRepeats(InsertAll(keys, more))
    decreases |more|
  {
    if more != [] {
      InsertAllUnion(Insert(keys, more[0]), more[1..]);
      assert forall x :: x in more <==> x == more[0] || x in more[1..];
    }
  }

  /// Adding distinct keys to an empty set gives them back in order.
  lemma {:induction false} InsertAllFresh(keys: seq<Key>, more: seq<Key>)
    requires NoRepeats(keys + more)
    ensures InsertAll(keys, more) == keys + more
    decreases |more|
  {
    if more == [] {
      assert keys + more == keys;
    } else {
      forall i | 0 <= i < |keys|
        ensures keys[i] != more[0]
      {
        assert (keys + more)[i] == keys[i] && (keys + more)[|keys|] == more[0];
      }
      assert keys + more == (keys + [more[0]]) + more[1..];
      InsertAllFresh(keys + [more[0]], more[1..]);
    }
  }

  /// The log `after` continues the log `before`: events once dispatched stay
  /// dispatched, in their order.
  predicate LogGrows(before: seq<KeyEvent>, after: seq<KeyEvent>)
  {
    |before| <= |after| && after[..|before|] == before
  }

  /// The knob's reach from the centre, in pixels (`maxDistance`).
  const MaxDistance: real := 35.0

  /// The fraction of the reach within which no key is pressed (`deadZone`).
  const DeadZone: real := 0.2

  /// Whether an offset of length `distance` leaves the dead zone.
  predicate OutsideDeadZone(distance: real)
  {
    distance / MaxDistance > DeadZone
  }

  datatype Point = Point(x: real, y: real)

  /// The centre of the 120-pixel joystick, where the knob rests.
  const Center: Point := Point(60.0, 60.0)

  /// The two `Math` routines the joysticks call, with `atan2` already
  /// converted to degrees.
  datatype JsMath = JsMath(sqrt: real -> real, atan2Degrees: (real, real) -> real)

  /// What the joysticks rely on from `Math.sqrt`: the non-negative square root.
  ghost predicate LawfulSqrt(m: JsMath)
  {
    forall x :: x >= 0.0 ==> m.sqrt(x) >= 0.0 && m.sqrt(x) * m.sqrt(x) == x
  }

  /// One touch point of a `TouchEvent`.
  datatype TouchPoint = TouchPoint(identifier: int, clientX: real, clientY: real)

  /// A mouse event, or a touch event with its `touches` and
  /// `changedTouches` lists (an absent list is empty).
  datatype PointerEvent =
    | Mouse(clientX: real, clientY: real)
    | Touch(touches: seq<TouchPoint>, changedTouches: seq<TouchPoint>)

  /// The clamp of `onMove`: an offset farther than `MaxDistance` from the
  /// centre is scaled back along its ray; `distance` is its length.
  function Constrain(dx: real, dy: real, distance: real): (c: Point)
    ensures distance <= MaxDistance ==> c == Point(dx, dy)
    ensures distance > MaxDistance ==> c.x * distance == dx * MaxDistance && c.y * distance == dy * MaxDistance
  {
    if distance > MaxDistance then
      var ratio := MaxDistance / distance;
      Point(dx * ratio, dy * ratio)
    else Point(dx, dy)
  }

  /// With a lawful square root the clamped offset lies on or inside the
  /// ring: an offset within reach is kept, one beyond it is scaled onto
  /// the ring along the same ray.
  lemma ConstrainStaysInRing(m: JsMath, dx: real, dy: real)
    requires LawfulSqrt(m)
    ensures var d := m.sqrt(dx * dx + dy * dy);
      var c := Constrain(dx, dy, d);
      && (d <= MaxDistance ==> c == Point(dx, dy))
      && (d > MaxDistance ==> c.x * c.x + c.y * c.y == MaxDistance * MaxDistance
                              && c.x * d == dx * MaxDistance && c.y * d == dy * MaxDistance)
  {
    var sq := dx * dx + dy * dy;
    var d := m.sqrt(sq);
    assert d >= 0.0 && d * d == sq;
    if d > MaxDistance {
      var r := MaxDistance / d;
      var c := Constrain(dx, dy, d);
      assert c == Point(dx * r, dy * r);
      assert r * d == MaxDistance;
      calc {
        c.x * c.x + c.y * c.y;
        (dx * r) * (dx * r) + (dy * r) * (dy * r);
        { assert (dx * r) * (dx * r) + (dy * r) * (dy * r) == sq * (r * r); }
        sq * (r * r);
        (d * d) * (r * r);
        { assert (d * d) * (r * r) == (r * d) * (r * d); }
        (r * d) * (r * d);
        MaxDistance * MaxDistance;
      }
      assert c.x * d == dx * (r * d);
      assert c.y * d == dy * (r * d);
    }
  }
}
