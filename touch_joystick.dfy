/// The eight-way touch joystick (`VirtualJoystick` of `joystick/joystick.js`):
/// it tracks one touch (or the mouse), clamps the knob to its ring, and turns
/// the knob's offset into up to two held W/A/S/D keys, one vertical and one
/// horizontal, with a `+`-joined label such as `"up+left"`.
///
/// `Pad` is every field the direction logic reads or writes, plus the log of
/// keyboard events dispatched to the game; the functions below say what each
/// handler does to it, and the class performs the same steps in place.
module TouchJoystick {
  import opened JoystickCommon

  /// How far, as a fraction of the reach, the knob must lean on an axis
  /// before that axis's key is pressed.
  const Threshold: real := 0.3

  predicate Vertical(d: Direction) { d == Up || d == Down }

  /// `calculateDirections`: at most one vertical direction, then at most one
  /// horizontal one, each present exactly when the knob leans past the
  /// threshold that way.
  function Directions(dx: real, dy: real): (r: seq<Direction>)
    ensures Up in r <==> dy / MaxDistance < -Threshold
    ensures Down in r <==> dy / MaxDistance > Threshold
    ensures Left in r <==> dx / MaxDistance < -Threshold
    ensures Right in r <==> dx / MaxDistance > Threshold
    ensures |r| <= 2 && forall i, j :: 0 <= i < j < |r| ==> Vertical(r[i]) && !Vertical(r[j])
  {
    var nx := dx / MaxDistance;
    var ny := dy / MaxDistance;
    (if ny < -Threshold then [Up] else if ny > Threshold then [Down] else [])
    + (if nx < -Threshold then [Left] else if nx > Threshold then [Right] else [])
  }

  // ---------------------------------------------------------------------
  // The direction label

  /// `Array.prototype.join('+')`.
  function Join(parts: seq<string>): string
    decreases |parts|
  {
    if parts == [] then "" else if |parts| == 1 then parts[0] else parts[0] + "+" + Join(parts[1..])
  }

  /// The index of the first `'+'` in `s`, or `|s|` when there is none.
  function PlusAt(s: string): (i: nat)
    ensures i <= |s| && (i < |s| ==> s[i] == '+')
    ensures forall j :: 0 <= j < i ==> s[j] != '+'
    decreases |s|
  {
    if s == [] || s[0] == '+' then 0 else 1 + PlusAt(s[1..])
  }

  /// `String.prototype.split('+')`.
  function Split(s: string): seq<string>
    decreases |s|
  {
    var i := PlusAt(s);
    if i == |s| then [s] else [s[..i]] + Split(s[i + 1..])
  }

  /// Splitting a join gives the parts back when no part contains the separator.
  lemma {:induction false} SplitJoin(parts: seq<string>)
    requires |parts| >= 1 && forall k :: 0 <= k < |parts| ==> '+' !in parts[k]
    ensures Split(Join(parts)) == parts
    decreases |parts|
  {
    var p := parts[0];
    if |parts| == 1 {
      forall j | 0 <= j < |p|
        ensures p[j] != '+'
      {
        assert p[j] in p;
      }
    } else {
      var s := Join(parts);
      var rest := Join(parts[1..]);
      assert s == p + "+" + rest;
      assert s[|p|] == '+';
      forall j | 0 <= j < |p|
        ensures s[j] != '+'
      {
        assert s[j] == p[j] && p[j] in p;
      }
      assert PlusAt(s) == |p|;
      assert s[..|p|] == p && s[|p| + 1..] == rest;
      SplitJoin(parts[1..]);
      assert parts == [p] + parts[1..];
    }
  }

  /// The `currentDirection` string of a list of directions.
  function Label(ds: seq<Direction>): string
  {
    Join(NamesOf(ds))
  }

  /// A label names its directions: splitting it at `'+'` recovers their names.
  lemma LabelNamesDirections(ds: seq<Direction>)
    requires ds != []
    ensures Split(Label(ds)) == NamesOf(ds)
  {
    var names := NamesOf(ds);
    forall k | 0 <= k < |names|
      ensures '+' !in names[k]
    {
      assert names[k] == NameOf(ds[k]);
    }
    SplitJoin(names);
  }

  /// Different direction lists never share a label.
  lemma LabelInjective(ds: seq<Direction>, es: seq<Direction>)
    requires ds != [] && es != []
    ensures Label(ds) == Label(es) <==> ds == es
  {
    if Label(ds) == Label(es) {
      LabelNamesDirections(ds);
      LabelNamesDirections(es);
      assert NamesOf(ds) == NamesOf(es);
      forall k | 0 <= k < |ds|
        ensures ds[k] == es[k]
      {
        assert NameOf(ds[k]) == NameOf(es[k]);
      }
    }
  }

  // ---------------------------------------------------------------------
  // The joystick's state and what each handler does to it

  datatype Pad = Pad(
    isDragging: bool,
    currentDirection: Option<string>,
    touchId: Option<int>,
    knob: Point,                  // `currentPos`
    activeKeys: seq<Key>,
    sent: seq<KeyEvent>)          // keyboard events dispatched so far, oldest first

  /// The state the constructor leaves.
  const Initial: Pad := Pad(false, None, None, Center, [], [])

  /// `releaseAllKeys`: a key-up for every held key, in insertion order, then
  /// no key held.
  function Released(p: Pad): (r: Pad)
    ensures r.activeKeys == [] && LogGrows(p.sent, r.sent) && |r.sent| == |p.sent| + |p.activeKeys|
    ensures forall e :: e in r.sent[|p.sent|..] ==> e.KeyUp? && e.key in p.activeKeys
    ensures r.(activeKeys := p.activeKeys, sent := p.sent) == p
  {
    p.(activeKeys := [], sent := p.sent + KeyUps(p.activeKeys))
  }

  /// `sendDirectionKeys`: a key-down for each direction's key, each key added.
  function Pressed(p: Pad, ds: seq<Direction>): (r: Pad)
    ensures LogGrows(p.sent, r.sent) && |r.sent| == |p.sent| + |ds|
    ensures forall e :: e in r.sent[|p.sent|..] ==> e.KeyDown? && e.key in r.activeKeys
    ensures forall d :: d in ds ==> KeyOf(d) in r.activeKeys
    ensures forall k :: k in r.activeKeys <==> k in p.activeKeys || k in KeysOf(ds)
    ensures r.(activeKeys := p.activeKeys, sent := p.sent) == p
  {
    InsertAllUnion(p.activeKeys, KeysOf(ds));
    p.(activeKeys := InsertAll(p.activeKeys, KeysOf(ds)), sent := p.sent + KeyDowns(KeysOf(ds)))
  }

  /// `updateDirection` for the knob offset `(dx, dy)`.
  function Updated(p: Pad, dx: real, dy: real, m: JsMath): (r: Pad)
    ensures LogGrows(p.sent, r.sent)
    ensures r.isDragging == p.isDragging && r.touchId == p.touchId && r.knob == p.knob
    ensures r.activeKeys != [] ==> OutsideDeadZone(m.sqrt(dx * dx + dy * dy)) && r.currentDirection.Some?
  {
    var r := Released(p);
    if OutsideDeadZone(m.sqrt(dx * dx + dy * dy)) then
      var ds := Directions(dx, dy);
      if |ds| > 0 then Pressed(r.(currentDirection := Some(Label(ds))), ds) else r
    else r.(currentDirection := None)
  }

  /// `Array.prototype.find` for the touch with identifier `id`; a touch is
  /// never found while no touch is tracked.
  function Tracked(touches: seq<TouchPoint>, id: Option<int>): (r: Option<TouchPoint>)
    ensures r.Some? ==> id.Some? && r.value in touches && r.value.identifier == id.value
    ensures r.None? ==> id.None? || forall t :: t in touches ==> t.identifier != id.value
    decreases |touches|
  {
    if id.None? || touches == [] then None
    else if touches[0].identifier == id.value then Some(touches[0])
    else Tracked(touches[1..], id)
  }

  /// `onStart`: a touch is taken up only when none is tracked yet and the
  /// event has one; the mouse always starts a drag.
  function Started(p: Pad, ev: PointerEvent): (r: Pad)
    ensures r.activeKeys == p.activeKeys && r.sent == p.sent
    ensures r.currentDirection == p.currentDirection && r.knob == p.knob
    ensures p.touchId.Some? ==> r.touchId == p.touchId
    ensures (p.isDragging || ev.Mouse?) ==> r.isDragging
  {
    if ev.Touch? && (p.touchId.Some? || ev.touches == []) then p
    else p.(touchId := if ev.Touch? then Some(ev.touches[0].identifier) else p.touchId, isDragging := true)
  }

  /// Where the pointer is, for a move event: the mouse's position, or the
  /// tracked touch's when the event carries it.
  function ClientPoint(p: Pad, ev: PointerEvent): Option<Point>
  {
    match ev
    case Mouse(x, y) => Some(Point(x, y))
    case Touch(touches, _) =>
      match Tracked(touches, p.touchId)
      case None => None
      case Some(t) => Some(Point(t.clientX, t.clientY))
  }

  /// The pointer's offset from the base element's centre `base`, clamped
  /// to the ring.
  function Offset(c: Point, base: Point, m: JsMath): Point
  {
    var dx := c.x - base.x;
    var dy := c.y - base.y;
    Constrain(dx, dy, m.sqrt(dx * dx + dy * dy))
  }

  /// The knob placed at the clamped offset `k` and the direction updated for it.
  function Aimed(p: Pad, k: Point, m: JsMath): Pad
  {
    Updated(p.(knob := Point(Center.x + k.x, Center.y + k.y)), k.x, k.y, m)
  }

  /// `onMove`, with the base element's centre `base`.
  function Moved(p: Pad, ev: PointerEvent, base: Point, m: JsMath): (r: Pad)
    ensures LogGrows(p.sent, r.sent)
    ensures r.isDragging == p.isDragging && r.touchId == p.touchId
  {
    if !p.isDragging then p
    else match ClientPoint(p, ev)
      case None => p
      case Some(c) => Aimed(p, Offset(c, base, m), m)
  }

  /// `onEnd`: a touch end for another touch is ignored while one is
  /// tracked; otherwise tracking stops, and a drag in progress ends with the
  /// knob back at the centre, every key released and no direction.
  function Ended(p: Pad, ev: PointerEvent): (r: Pad)
    ensures LogGrows(p.sent, r.sent)
    ensures r.isDragging ==> r.(touchId := p.touchId) == p
    ensures r.touchId == p.touchId || r.touchId == None
  {
    if ev.Touch? && Tracked(ev.changedTouches, p.touchId).None? && p.touchId.Some? then p
    else
      var q := if ev.Touch? then p.(touchId := None) else p;
      if !q.isDragging then q
      else Released(q.(isDragging := false, knob := Center)).(currentDirection := None)
  }

  // ---------------------------------------------------------------------
  // What the handlers guarantee

  /// The keys of any direction list the joystick computes are distinct and
  /// never opposed.
  lemma DirectionKeysSound(dx: real, dy: real)
    ensures var keys := KeysOf(Directions(dx, dy));
      NoRepeats(keys) && !(W in keys && S in keys) && !(A in keys && D in keys)
  {
    var ds := Directions(dx, dy);
    var keys := KeysOf(ds);
    assert forall k :: k in keys <==> exists d :: d in ds && KeyOf(d) == k;
  }

  /// Every held key is released before any key is pressed, and the keys
  /// pressed are exactly the keys held afterwards.
  lemma UpdateReleasesFirst(p: Pad, dx: real, dy: real, m: JsMath)
    ensures var r := Updated(p, dx, dy, m);
      r.sent == p.sent + KeyUps(p.activeKeys) + KeyDowns(r.activeKeys)
  {
    var ds := Directions(dx, dy);
    DirectionKeysSound(dx, dy);
    InsertAllFresh([], KeysOf(ds));
    assert [] + KeysOf(ds) == KeysOf(ds);
    assert p.sent + KeyUps(p.activeKeys) + KeyDowns([]) == p.sent + KeyUps(p.activeKeys);
  }

  /// Inside the dead zone no key is held and there is no direction.
  lemma DeadZoneHoldsNothing(p: Pad, dx: real, dy: real, m: JsMath)
    requires !OutsideDeadZone(m.sqrt(dx * dx + dy * dy))
    ensures Updated(p, dx, dy, m).activeKeys == [] && Updated(p, dx, dy, m).currentDirection == None
  {
  }

  /// Outside the dead zone with at least one direction, the label names
  /// exactly those directions and their keys, in order, are the keys held.
  lemma OutsideDeadZonePresses(p: Pad, dx: real, dy: real, m: JsMath)
    requires OutsideDeadZone(m.sqrt(dx * dx + dy * dy)) && Directions(dx, dy) != []
    ensures var r := Updated(p, dx, dy, m);
      && r.currentDirection.Some? && Split(r.currentDirection.value) == NamesOf(Directions(dx, dy))
      && r.activeKeys == KeysOf(Directions(dx, dy))
  {
    var ds := Directions(dx, dy);
    LabelNamesDirections(ds);
    DirectionKeysSound(dx, dy);
    InsertAllFresh([], KeysOf(ds));
    assert [] + KeysOf(ds) == KeysOf(ds);
  }

  /// Outside the dead zone but below the threshold on both axes, every key
  /// is released and the label is left as it was.
  lemma LeaningTooLittleKeepsLabel(p: Pad, dx: real, dy: real, m: JsMath)
    requires OutsideDeadZone(m.sqrt(dx * dx + dy * dy)) && Directions(dx, dy) == []
    ensures Updated(p, dx, dy, m).activeKeys == []
    ensures Updated(p, dx, dy, m).currentDirection == p.currentDirection
  {
  }

  /// That band exists: eight pixels to the right is outside the dead zone
  /// (seven pixels) but short of the threshold (ten and a half).
  lemma LeaningTooLittleHappens(m: JsMath)
    requires LawfulSqrt(m)
    ensures OutsideDeadZone(m.sqrt(8.0 * 8.0 + 0.0 * 0.0)) && Directions(8.0, 0.0) == []
  {
    var x := 8.0 * 8.0 + 0.0 * 0.0;
    assert x == 64.0;
    var d := m.sqrt(x);
    assert d >= 0.0 && d * d == 64.0;
    assert (d - 8.0) * (d + 8.0) == 0.0;
    assert d - 8.0 == ((d - 8.0) * (d + 8.0)) / (d + 8.0) == 0.0 / (d + 8.0);

  }

  /// A touch start while a touch is tracked changes nothing.
  lemma StartIgnoredWhileTracking(p: Pad, ev: PointerEvent)
    requires ev.Touch? && p.touchId.Some?
    ensures Started(p, ev) == p
  {
  }

  /// A touch end clears the tracked touch exactly when that touch is among
  /// those ended or no touch was tracked, and otherwise changes nothing.
  lemma EndTouchRule(p: Pad, ev: PointerEvent)
    requires ev.Touch?
    ensures var found := Tracked(ev.changedTouches, p.touchId).Some? || p.touchId.None?;
      && (found ==> Ended(p, ev).touchId == None)
      && (!found ==> Ended(p, ev) == p)
  {
  }

  /// Ending a drag releases every key, recentres the knob and clears the
  /// direction; with no drag in progress an end touches nothing but the
  /// tracked touch, and a move nothing at all.
  lemma EndStopsDrag(p: Pad, ev: PointerEvent, base: Point, m: JsMath)
    requires !ev.Touch? || Tracked(ev.changedTouches, p.touchId).Some? || p.touchId.None?
    ensures p.isDragging ==>
      var r := Ended(p, ev);
      && !r.isDragging && r.activeKeys == [] && r.currentDirection == None && r.knob == Center
      && r.sent == p.sent + KeyUps(p.activeKeys)
    ensures !p.isDragging ==>
      && Ended(p, ev).(touchId := p.touchId) == p
      && Moved(p, ev, base, m) == p
  {
  }

  /// What holds between any two events: no key held twice, never two
  /// opposed keys at once, and keys or a direction only during a drag.
  predicate Sane(p: Pad)
  {
    && NoRepeats(p.activeKeys)
    && !(W in p.activeKeys && S in p.activeKeys)
    && !(A in p.activeKeys && D in p.activeKeys)
    && (p.activeKeys != [] || p.currentDirection.Some? ==> p.isDragging)
  }

  lemma InitialSane()
    ensures Sane(Initial)
  {
  }

  /// A direction update during a drag keeps the joystick sane.
  lemma UpdateKeepsSane(p: Pad, dx: real, dy: real, m: JsMath)
    requires Sane(p) && p.isDragging
    ensures Sane(Updated(p, dx, dy, m))
  {
    DirectionKeysSound(dx, dy);
    InsertAllFresh([], KeysOf(Directions(dx, dy)));
    assert [] + KeysOf(Directions(dx, dy)) == KeysOf(Directions(dx, dy));
  }

  /// Every handler keeps the joystick sane.
  lemma HandlersKeepSane(p: Pad, ev: PointerEvent, base: Point, m: JsMath)
    requires Sane(p)
    ensures Sane(Started(p, ev)) && Sane(Moved(p, ev, base, m)) && Sane(Ended(p, ev))
  {
    if p.isDragging && ClientPoint(p, ev).Some? {
      var k := Offset(ClientPoint(p, ev).value, base, m);
      UpdateKeepsSane(p.(knob := Point(Center.x + k.x, Center.y + k.y)), k.x, k.y, m);
    }
  }

  // ---------------------------------------------------------------------
  // The object

  class VirtualJoystick {
    var isDragging: bool
    var currentDirection: Option<string>
    var touchId: Option<int>
    var knob: Point
    var activeKeys: seq<Key>
    var sent: seq<KeyEvent>

    function State(): Pad
      reads this
    {
      Pad(isDragging, currentDirection, touchId, knob, activeKeys, sent)
    }

    constructor ()
      ensures State() == Initial
    {
      isDragging, currentDirection, touchId := false, None, None;
      knob := Center;
      activeKeys, sent := [], [];
    }

    /// `sendKeyEvent`: the event reaches the game's window.
    method SendKeyEvent(e: KeyEvent)
      modifies this`sent
      ensures sent == old(sent) + [e]
    {
      sent := sent + [e];
    }

    method ReleaseAllKeys()
      modifies this`activeKeys, this`sent
      ensures State() == Released(old(State()))
    {
      var i := 0;
      while i < |activeKeys|
        invariant 0 <= i <= |activeKeys| && activeKeys == old(activeKeys)
        invariant sent == old(sent) + KeyUps(activeKeys[..i])
      {
        SendKeyEvent(KeyUp(activeKeys[i]));
        assert activeKeys[..i + 1] == activeKeys[..i] + [activeKeys[i]];
        i := i + 1;
      }
      assert activeKeys[..i] == activeKeys;
      activeKeys := [];
    }

    method SendDirectionKeys(directions: seq<Direction>)
      modifies this`activeKeys, this`sent
      ensures State() == Pressed(old(State()), directions)
    {
      var i := 0;
      while i < |directions|
        invariant 0 <= i <= |directions|
        invariant sent == old(sent) + KeyDowns(KeysOf(directions[..i]))
        invariant InsertAll(old(activeKeys), KeysOf(directions)) == InsertAll(activeKeys, KeysOf(directions[i..]))
      {
        var key := KeyOf(directions[i]);
        SendKeyEvent(KeyDown(key));
        assert KeysOf(directions[i..])[1..] == KeysOf(directions[i + 1..]);
        activeKeys := Insert(activeKeys, key);
        assert KeysOf(directions[..i + 1]) == KeysOf(directions[..i]) + [key];
        i := i + 1;
      }
      assert directions[..i] == directions;
    }

    method UpdateDirection(deltaX: real, deltaY: real, m: JsMath)
      modifies this`activeKeys, this`sent, this`currentDirection
      ensures State() == Updated(old(State()), deltaX, deltaY, m)
    {
      var distance := m.sqrt(deltaX * deltaX + deltaY * deltaY);
      var normalizedDistance := distance / MaxDistance;
      ReleaseAllKeys();
      if normalizedDistance > DeadZone {
        var directions := Directions(deltaX, deltaY);
        if |directions| > 0 {
          currentDirection := Some(Label(directions));
          SendDirectionKeys(directions);
        }
      } else {
        currentDirection := None;
      }
    }

    method OnStart(ev: PointerEvent)
      modifies this`touchId, this`isDragging
      ensures State() == Started(old(State()), ev)
    {
      if ev.Touch? {
        if touchId.Some? {
          return;
        }
        if ev.touches == [] {
          return;
        }
        touchId := Some(ev.touches[0].identifier);
      }
      isDragging := true;
    }

    method OnMove(ev: PointerEvent, base: Point, m: JsMath)
      modifies this`knob, this`activeKeys, this`sent, this`currentDirection
      ensures State() == Moved(old(State()), ev, base, m)
    {
      if !isDragging {
        return;
      }
      var client := ClientPoint(State(), ev);
      if client.None? {
        return;
      }
      AimAt(Offset(client.value, base, m), m);
    }

    /// The part of `onMove` after the clamped offset is known.
    method AimAt(constrained: Point, m: JsMath)
      modifies this`knob, this`activeKeys, this`sent, this`currentDirection
      ensures State() == Aimed(old(State()), constrained, m)
    {
      knob := Point(Center.x + constrained.x, Center.y + constrained.y);
      UpdateDirection(constrained.x, constrained.y, m);
    }

    method OnEnd(ev: PointerEvent)
      modifies this
      ensures State() == Ended(old(State()), ev)
    {
      if ev.Touch? {
        var touch := Tracked(ev.changedTouches, touchId);
        if touch.None? && touchId.Some? {
          return;
        }
        touchId := None;
      }
      if !isDragging {
        return;
      }
      isDragging := false;
      knob := Center;
      ReleaseAllKeys();
      currentDirection := None;
    }

    /// `destroy`, without removing the element: every held key is released.
    method Destroy()
      modifies this`activeKeys, this`sent
      ensures State() == Released(old(State()))
    {
      ReleaseAllKeys();
    }
  }
}
