/// The four-way joystick (`VirtualJoystick` of `joystick.js`): the knob's
/// angle from the centre picks one of four 90-degree sectors, and the
/// sector's W/A/S/D key is the only key held.  It follows the first touch of
/// each event rather than a tracked one.
module AngleJoystick {
  import opened JoystickCommon

  /// JavaScript's `a % 360`: the remainder takes the dividend's sign.
  function Rem360(a: real): (r: real)
    ensures a >= 0.0 ==> 0.0 <= r < 360.0
    ensures a < 0.0 ==> -360.0 < r <= 0.0
    ensures ((a - r) / 360.0).Floor as real == (a - r) / 360.0
  {
    var t := if a >= 0.0 then a else -a;
    var q := (t / 360.0).Floor;
    assert q as real <= t / 360.0 < q as real + 1.0;
    var rem := t - 360.0 * q as real;
    assert (a - (if a >= 0.0 then rem else -rem)) / 360.0 == (if a >= 0.0 then q else -q) as real;
    if a >= 0.0 then rem else -rem
  }

  /// `angleToDirection` on an angle in degrees, clockwise from the right
  /// (screen y grows downwards).  Every angle has a direction: a negative
  /// remainder falls into the `< 45` test, so the final `null` is never
  /// returned.
  function AngleToDirection(angle: real): (d: Option<Direction>)
    ensures d.Some?
  {
    var normalized := Rem360(angle + 360.0);
    if normalized >= 315.0 || normalized < 45.0 then Some(Right)
    else if normalized >= 45.0 && normalized < 135.0 then Some(Down)
    else if normalized >= 135.0 && normalized < 225.0 then Some(Left)
    else if normalized >= 225.0 && normalized < 315.0 then Some(Up)
    else None
  }

  /// The remainder of an angle shifted into `[0, 720)`.
  lemma ShiftedRem(a: real)
    requires 0.0 <= a < 720.0
    ensures Rem360(a) == if a < 360.0 then a else a - 360.0
  {
    var k := (a / 360.0).Floor;
    assert k as real <= a / 360.0 < k as real + 1.0;
    assert 0 <= k <= 1;
  }

  /// For the angles `atan2` returns, the four sectors of the joystick, each
  /// a closed-open 90-degree range centred on its axis, with both ends of
  /// the range at the left.
  lemma AngleSectors(angle: real)
    requires -180.0 <= angle <= 180.0
    ensures AngleToDirection(angle) == Some(Right) <==> -45.0 <= angle < 45.0
    ensures AngleToDirection(angle) == Some(Down) <==> 45.0 <= angle < 135.0
    ensures AngleToDirection(angle) == Some(Left) <==> 135.0 <= angle || angle < -135.0
    ensures AngleToDirection(angle) == Some(Up) <==> -135.0 <= angle < -45.0
  {
    ShiftedRem(angle + 360.0);
  }

  // ---------------------------------------------------------------------
  // The joystick's state and what each handler does to it

  datatype Pad = Pad(
    isDragging: bool,
    currentDirection: Option<Direction>,
    knob: Point,                  // `currentPos`
    activeKeys: seq<Key>,
    sent: seq<KeyEvent>)          // keyboard events dispatched so far, oldest first

  /// The state the constructor leaves.
  const Initial: Pad := Pad(false, None, Center, [], [])

  /// `releaseAllKeys`.
  function Released(p: Pad): (r: Pad)
    ensures r.activeKeys == [] && LogGrows(p.sent, r.sent) && |r.sent| == |p.sent| + |p.activeKeys|
    ensures forall e :: e in r.sent[|p.sent|..] ==> e.KeyUp? && e.key in p.activeKeys
    ensures r.(activeKeys := p.activeKeys, sent := p.sent) == p
  {
    p.(activeKeys := [], sent := p.sent + KeyUps(p.activeKeys))
  }

  /// `sendDirectionKeys`: a key-down and an added key for a direction,
  /// nothing for `null`.
  function Pressed(p: Pad, d: Option<Direction>): (r: Pad)
    ensures d.None? ==> r == p
    ensures d.Some? ==> && LogGrows(p.sent, r.sent) && r.sent[|p.sent|..] == [KeyDown(KeyOf(d.value))]
                        && forall k :: k in r.activeKeys <==> k in p.activeKeys || k == KeyOf(d.value)
    ensures r.(activeKeys := p.activeKeys, sent := p.sent) == p
  {
    match d
    case None => p
    case Some(d) => p.(activeKeys := Insert(p.activeKeys, KeyOf(d)), sent := p.sent + [KeyDown(KeyOf(d))])
  }

  /// `updateDirection` for the knob offset `(dx, dy)`.
  function Updated(p: Pad, dx: real, dy: real, m: JsMath): (r: Pad)
    ensures LogGrows(p.sent, r.sent)
    ensures r.isDragging == p.isDragging && r.knob == p.knob
    ensures r.activeKeys != [] <==> r.currentDirection.Some?
    ensures r.activeKeys != [] <==> OutsideDeadZone(m.sqrt(dx * dx + dy * dy))
  {
    var r := Released(p);
    if OutsideDeadZone(m.sqrt(dx * dx + dy * dy)) then
      var d := AngleToDirection(m.atan2Degrees(dy, dx));
      Pressed(r.(currentDirection := d), d)
    else r.(currentDirection := None)
  }

  /// `onStart`.
  function Started(p: Pad): (r: Pad)
    ensures r.isDragging && r.(isDragging := p.isDragging) == p
  {
    p.(isDragging := true)
  }

  /// A touch move with no touch in either list: reading the position of
  /// the missing touch throws before anything changes.
  predicate MoveThrows(p: Pad, ev: PointerEvent)
  {
    p.isDragging && ev.Touch? && ev.touches == [] && ev.changedTouches == []
  }

  /// Where the pointer is: the mouse's position, or the first touch still
  /// down, or else the first touch that changed.
  function ClientPoint(ev: PointerEvent): Option<Point>
  {
    match ev
    case Mouse(x, y) => Some(Point(x, y))
    case Touch(touches, changed) =>
      if touches != [] then Some(Point(touches[0].clientX, touches[0].clientY))
      else if changed != [] then Some(Point(changed[0].clientX, changed[0].clientY))
      else None
  }

  /// The pointer's offset from the base element's centre `base`, clamped
  /// to the ring.
  function Offset(c: Point, base: Point, m: JsMath): Point
  {
    var dx := c.x - base.x;
    var dy := c.y - base.y;
    Constrain(dx, dy, m.sqrt(dx * dx + dy * dy))
  }

  /// The knob placed at the clamped offset `k` and the direction updated for it.
  function Aimed(p: Pad, k: Point, m: JsMath): Pad
  {
    Updated(p.(knob := Point(Center.x + k.x, Center.y + k.y)), k.x, k.y, m)
  }

  /// `onMove`, with the base element's centre `base`.
  function Moved(p: Pad, ev: PointerEvent, base: Point, m: JsMath): (r: Pad)
    ensures LogGrows(p.sent, r.sent)
    ensures r.isDragging == p.isDragging
  {
    if !p.isDragging then p
    else match ClientPoint(ev)
      case None => p
      case Some(c) => Aimed(p, Offset(c, base, m), m)
  }

  /// `onEnd`.
  function Ended(p: Pad): (r: Pad)
    ensures !r.isDragging && LogGrows(p.sent, r.sent)
  {
    if !p.isDragging then p
    else Released(p.(isDragging := false, knob := Center)).(currentDirection := None)
  }

  // ---------------------------------------------------------------------
  // What the handlers guarantee

  /// The key of a direction, if any, as a list.
  function KeyList(d: Option<Direction>): (keys: seq<Key>)
    ensures |keys| <= 1
  {
    match d
    case None => []
    case Some(d) => [KeyOf(d)]
  }

  /// Outside the dead zone exactly the key of the knob's sector is held and
  /// it is the current direction; inside it nothing is; and every key held
  /// before is released before that key is pressed.
  lemma UpdateHoldsOneKey(p: Pad, dx: real, dy: real, m: JsMath)
    ensures var r := Updated(p, dx, dy, m);
      && (OutsideDeadZone(m.sqrt(dx * dx + dy * dy)) ==>
            var d := AngleToDirection(m.atan2Degrees(dy, dx));
            d.Some? && r.currentDirection == d && r.activeKeys == [KeyOf(d.value)])
      && (!OutsideDeadZone(m.sqrt(dx * dx + dy * dy)) ==> r.currentDirection == None && r.activeKeys == [])
      && r.sent == p.sent + KeyUps(p.activeKeys) + KeyDowns(r.activeKeys)
  {
    var r := Released(p);
    if OutsideDeadZone(m.sqrt(dx * dx + dy * dy)) {
      var d := AngleToDirection(m.atan2Degrees(dy, dx));
      var k := KeyOf(d.value);
      assert Updated(p, dx, dy, m) == Pressed(r.(currentDirection := d), d);
      assert Insert([], k) == [k];
      assert KeyDowns([k]) == [KeyDown(k)];
    } else {
      assert Updated(p, dx, dy, m) == r.(currentDirection := None);
      assert p.sent + KeyUps(p.activeKeys) + KeyDowns([]) == p.sent + KeyUps(p.activeKeys);
    }
  }

  /// Ending a drag releases the held key, recentres the knob and clears the
  /// direction; with no drag in progress neither an end nor a move changes
  /// anything.
  lemma EndStopsDrag(p: Pad, ev: PointerEvent, base: Point, m: JsMath)
    ensures p.isDragging ==>
      var r := Ended(p);
      && !r.isDragging && r.activeKeys == [] && r.currentDirection == None && r.knob == Center
      && r.sent == p.sent + KeyUps(p.activeKeys)
    ensures !p.isDragging ==> Ended(p) == p && Moved(p, ev, base, m) == p
  {
  }

  /// What holds between any two events: the keys held are exactly the
  /// current direction's key (so at most one), and only during a drag.
  predicate Sane(p: Pad)
  {
    && p.activeKeys == KeyList(p.currentDirection)
    && (p.currentDirection.Some? ==> p.isDragging)
  }

  lemma InitialSane()
    ensures Sane(Initial)
  {
  }

  /// Every handler keeps the joystick sane.
  lemma HandlersKeepSane(p: Pad, ev: PointerEvent, base: Point, m: JsMath)
    requires Sane(p)
    ensures Sane(Started(p)) && Sane(Moved(p, ev, base, m)) && Sane(Ended(p))
  {
    if p.isDragging && ClientPoint(ev).Some? {
      var k := Offset(ClientPoint(ev).value, base, m);
      UpdateHoldsOneKey(p.(knob := Point(Center.x + k.x, Center.y + k.y)), k.x, k.y, m);
    }
  }

  // ---------------------------------------------------------------------
  // The object

  class VirtualJoystick {
    var isDragging: bool
    var currentDirection: Option<Direction>
    var knob: Point
    var activeKeys: seq<Key>
    var sent: seq<KeyEvent>

    function State(): Pad
      reads this
    {
      Pad(isDragging, currentDirection, knob, activeKeys, sent)
    }

    constructor ()
      ensures State() == Initial
    {
      isDragging, currentDirection := false, None;
      knob := Center;
      activeKeys, sent := [], [];
    }

    /// `sendKeyEvent`: the event reaches the game's window.
    method SendKeyEvent(e: KeyEvent)
      modifies this`sent
      ensures sent == old(sent) + [e]
    {
      sent := sent + [e];
    }

    method ReleaseAllKeys()
      modifies this`activeKeys, this`sent
      ensures State() == Released(old(State()))
    {
      var i := 0;
      while i < |activeKeys|
        invariant 0 <= i <= |activeKeys| && activeKeys == old(activeKeys)
        invariant sent == old(sent) + KeyUps(activeKeys[..i])
      {
        SendKeyEvent(KeyUp(activeKeys[i]));
        assert activeKeys[..i + 1] == activeKeys[..i] + [activeKeys[i]];
        i := i + 1;
      }
      assert activeKeys[..i] == activeKeys;
      activeKeys := [];
    }

    method SendDirectionKeys(direction: Option<Direction>)
      modifies this`activeKeys, this`sent
      ensures State() == Pressed(old(State()), direction)
    {
      if direction.Some? {
        var key := KeyOf(direction.value);
        SendKeyEvent(KeyDown(key));
        activeKeys := Insert(activeKeys, key);
      }
    }

    method UpdateDirection(deltaX: real, deltaY: real, m: JsMath)
      modifies this`activeKeys, this`sent, this`currentDirection
      ensures State() == Updated(old(State()), deltaX, deltaY, m)
    {
      var distance := m.sqrt(deltaX * deltaX + deltaY * deltaY);
      var normalizedDistance := distance / MaxDistance;
      ReleaseAllKeys();
      if normalizedDistance > DeadZone {
        var angle := m.atan2Degrees(deltaY, deltaX);
        var newDirection := AngleToDirection(angle);
        if newDirection != currentDirection {
          currentDirection := newDirection;
        }
        SendDirectionKeys(newDirection);
      } else {
        currentDirection := None;
      }
    }

    method OnStart()
      modifies this`isDragging
      ensures State() == Started(old(State()))
    {
      isDragging := true;
    }

    /// `onMove`; `threw` reports the `TypeError` of a touch event that
    /// carries no touch, which leaves the joystick as it was.
    method OnMove(ev: PointerEvent, base: Point, m: JsMath) returns (threw: bool)
      modifies this`knob, this`activeKeys, this`sent, this`currentDirection
      ensures threw <==> MoveThrows(old(State()), ev)
      ensures State() == Moved(old(State()), ev, base, m)
    {
      threw := false;
      if !isDragging {
        return;
      }
      var client := ClientPoint(ev);
      if client.None? {
        threw := true;
        return;
      }
      AimAt(Offset(client.value, base, m), m);
    }

    /// The part of `onMove` after the clamped offset is known.
    method AimAt(constrained: Point, m: JsMath)
      modifies this`knob, this`activeKeys, this`sent, this`currentDirection
      ensures State() == Aimed(old(State()), constrained, m)
    {
      knob := Point(Center.x + constrained.x, Center.y + constrained.y);
      UpdateDirection(constrained.x, constrained.y, m);
    }

    method OnEnd()
      modifies this`isDragging, this`knob, this`activeKeys, this`sent, this`currentDirection
      ensures State() == Ended(old(State()))
    {
      if !isDragging {
        return;
      }
      isDragging := false;
      knob := Center;
      ReleaseAllKeys();
      currentDirection := None;
    }

    /// `destroy`, without removing the element: the held key is released.
    method Destroy()
      modifies this`activeKeys, this`sent
      ensures State() == Released(old(State()))
    {
      ReleaseAllKeys();
    }
  }
}
