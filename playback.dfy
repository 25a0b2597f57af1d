/** The rules of the earthquake viewer that are plain decisions on values:
    how the playback clock snaps back into the data set's time span, how the
    arrow keys change the playback speed and the camera distance, how the
    left mouse button sets the drag flag, and how a magnitude picks the
    colour and size of an earthquake marker. Times, scales and distances are
    reals: the model keeps the arithmetic and drops floating-point rounding. */
module Playback {

  /** Length of the trailing window of visible earthquakes: one year in seconds. */
  const PlaybackWindow: int := 365 * 24 * 60 * 60

  /** Playback speed when the viewer starts: one day of data per second. */
  const InitialScale: real := 86400.0

  /** Factor by which one press of LEFT or RIGHT changes the playback speed. */
  const SpeedFactor: real := 1.3

  /** Distance the camera moves along z for one press of UP or DOWN. */
  const DollyStep: real := 0.01

  /** The camera may not come closer to the earth's centre than this. */
  const MinEyeZ: real := 1.2

  datatype Vec2 = Vec2(x: real, y: real)
  datatype Vec3 = Vec3(x: real, y: real, z: real)

  /** The camera position when the viewer starts. */
  const InitialEye: Vec3 := Vec3(0.0, 0.0, 4.0)

  // ---------------------------------------------------------------------
  // Playback clock

  /** The clock correction after a tick: first, a time past the last
      record's date goes back to the first record's date; then, a time
      before the first record's date goes to the last record's date.
      The two tests run one after the other, yet at most one of them fires. */
  function Wrap(t: real, first: real, last: real): (r: real)
    ensures r == if t > last then first else if t < first then last else t
    ensures first <= last ==> first <= r <= last
  {
    var afterForward := if t > last then first else t;
    if afterForward < first then last else afterForward
  }

  /** Case by case, for a data set whose first date is not after its last. */
  lemma WrapCases(t: real, first: real, last: real)
    requires first <= last
    ensures first <= t <= last ==> Wrap(t, first, last) == t
    ensures t > last ==> Wrap(t, first, last) == first
    ensures t < first ==> Wrap(t, first, last) == last
  {
  }

  /** A time already in the span is a fixed point, so wrapping twice is wrapping once. */
  lemma WrapIdempotent(t: real, first: real, last: real)
    requires first <= last
    ensures Wrap(Wrap(t, first, last), first, last) == Wrap(t, first, last)
  {
  }

  /** The time after a sequence of ticks of lengths `rdts` at a fixed speed. */
  function TimeAfterTicks(t: real, scale: real, rdts: seq<real>, first: real, last: real): real
    decreases |rdts|
  {
    if rdts == [] then t
    else TimeAfterTicks(Wrap(t + scale * rdts[0], first, last), scale, rdts[1..], first, last)
  }

  /** However long the frames and whatever the speed, the clock never leaves the span. */
  lemma {:induction false} TicksStayInSpan(t: real, scale: real, rdts: seq<real>, first: real, last: real)
    requires first <= last
    requires rdts != [] || first <= t <= last
    ensures first <= TimeAfterTicks(t, scale, rdts, first, last) <= last
    decreases |rdts|
  {
    if rdts != [] {
      var t' := Wrap(t + scale * rdts[0], first, last);
      TicksStayInSpan(t', scale, rdts[1..], first, last);
    }
  }

  // ---------------------------------------------------------------------
  // Event names

  predicate IsLeft(name: string)
  {
    name == "kbd_LEFT_down" || name == "kbd_LEFT_repeat"
  }

  predicate IsRight(name: string)
  {
    name == "kbd_RIGHT_down" || name == "kbd_RIGHT_repeat"
  }

  predicate IsUp(name: string)
  {
    name == "kbd_UP_down" || name == "kbd_UP_repeat"
  }

  predicate IsDown(name: string)
  {
    name == "kbd_DOWN_down" || name == "kbd_DOWN_repeat"
  }

  const MouseLeftDown: string := "mouse_btn_left_down"
  const MouseLeftUp: string := "mouse_btn_left_up"

  // ---------------------------------------------------------------------
  // Playback speed

  /** LEFT: slow down. */
  function Slower(scale: real): (r: real)
    ensures r * SpeedFactor == scale
    ensures (r > 0.0 <==> scale > 0.0) && (r < 0.0 <==> scale < 0.0)
    ensures scale > 0.0 ==> r < scale
  {
    scale / SpeedFactor
  }

  /** RIGHT: speed up. */
  function Faster(scale: real): (r: real)
    ensures r / SpeedFactor == scale
    ensures (r > 0.0 <==> scale > 0.0) && (r < 0.0 <==> scale < 0.0)
    ensures scale > 0.0 ==> r > scale
  {
    scale * SpeedFactor
  }

  /** LEFT then RIGHT, or RIGHT then LEFT, gives back the speed one started from. */
  lemma SpeedStepsCancel(scale: real)
    ensures Faster(Slower(scale)) == scale
    ensures Slower(Faster(scale)) == scale
  {
  }

  /** The speed after one event: LEFT slows down, RIGHT speeds up, any
      other event keeps the speed. Neither key can reverse the direction of
      playback or stop a running clock. */
  function ScaleOnEvent(scale: real, name: string): (r: real)
    ensures IsLeft(name) ==> r * SpeedFactor == scale
    ensures IsRight(name) ==> r == scale * SpeedFactor
    ensures !IsLeft(name) && !IsRight(name) ==> r == scale
    ensures (r > 0.0 <==> scale > 0.0) && (r < 0.0 <==> scale < 0.0)
  {
    if IsLeft(name) then Slower(scale)
    else if IsRight(name) then Faster(scale)
    else scale
  }

  /** A LEFT event followed by a RIGHT event, in either order, restores the speed. */
  lemma LeftRightRestores(scale: real, left: string, right: string)
    requires IsLeft(left) && IsRight(right)
    ensures ScaleOnEvent(ScaleOnEvent(scale, left), right) == scale
    ensures ScaleOnEvent(ScaleOnEvent(scale, right), left) == scale
  {
  }

  /** The speed after a sequence of events. */
  function ScaleAfterEvents(scale: real, names: seq<string>): real
    decreases |names|
  {
    if names == [] then scale else ScaleAfterEvents(ScaleOnEvent(scale, names[0]), names[1..])
  }

  /** Presses of LEFT and RIGHT never change the direction of playback:
      a forward clock stays forward, a backward one backward, a stopped one stopped. */
  lemma {:induction false} EventsKeepDirection(scale: real, names: seq<string>)
    ensures ScaleAfterEvents(scale, names) > 0.0 <==> scale > 0.0
    ensures ScaleAfterEvents(scale, names) < 0.0 <==> scale < 0.0
    decreases |names|
  {
    if names != [] {
      EventsKeepDirection(ScaleOnEvent(scale, names[0]), names[1..]);
    }
  }

  // ---------------------------------------------------------------------
  // Camera dolly

  /** The camera position after one event: UP moves the camera DollyStep
      towards the earth unless that would bring it to MinEyeZ or closer,
      in which case it stays put; DOWN moves it DollyStep away; any other
      event leaves it where it is. Only the z coordinate ever moves. */
  function EyeOnEvent(eye: Vec3, name: string): (r: Vec3)
    ensures r.x == eye.x && r.y == eye.y
    ensures IsUp(name) ==> (r.z == eye.z - DollyStep <==> eye.z - DollyStep > MinEyeZ)
    ensures IsUp(name) ==> (r.z == eye.z <==> eye.z - DollyStep <= MinEyeZ)
    ensures IsDown(name) ==> r.z == eye.z + DollyStep
    ensures !IsUp(name) && !IsDown(name) ==> r == eye
    ensures r.z < eye.z ==> r.z > MinEyeZ
  {
    if IsUp(name) then
      var moved := Vec3(eye.x, eye.y, eye.z - DollyStep);
      if moved.z > MinEyeZ then moved else eye
    else if IsDown(name) then
      Vec3(eye.x, eye.y, eye.z + DollyStep)
    else
      eye
  }

  /** The camera position after a sequence of events. */
  function EyeAfterEvents(eye: Vec3, names: seq<string>): Vec3
    decreases |names|
  {
    if names == [] then eye else EyeAfterEvents(EyeOnEvent(eye, names[0]), names[1..])
  }

  /** Starting farther than MinEyeZ, the camera never gets to MinEyeZ or
      closer and never leaves the z axis it started on. */
  lemma {:induction false} EventsKeepEyeOut(eye: Vec3, names: seq<string>)
    requires eye.z > MinEyeZ
    ensures EyeAfterEvents(eye, names).z > MinEyeZ
    ensures EyeAfterEvents(eye, names).x == eye.x && EyeAfterEvents(eye, names).y == eye.y
    decreases |names|
  {
    if names != [] {
      EventsKeepEyeOut(EyeOnEvent(eye, names[0]), names[1..]);
    }
  }

  /** In particular from the starting position. */
  lemma InitialEyeStaysOut(names: seq<string>)
    ensures EyeAfterEvents(InitialEye, names).z > MinEyeZ
    ensures EyeAfterEvents(InitialEye, names).x == 0.0 && EyeAfterEvents(InitialEye, names).y == 0.0
  {
    EventsKeepEyeOut(InitialEye, names);
  }

  // ---------------------------------------------------------------------
  // Mouse drag flag

  /** The drag flag after one event: set by a left button press, cleared
      by its release, otherwise kept. */
  function MouseDownOnEvent(down: bool, name: string): (r: bool)
    ensures name == MouseLeftDown ==> r
    ensures name == MouseLeftUp ==> !r
    ensures name != MouseLeftDown && name != MouseLeftUp ==> r == down
  {
    if IsUp(name) || IsDown(name) then down
    else if name == MouseLeftDown then true
    else if name == MouseLeftUp then false
    else down
  }

  // ---------------------------------------------------------------------
  // Earthquake markers

  datatype Colour = Yellow | Orange | Red

  /** Marker colour: below magnitude 6 yellow, below 7 orange, red otherwise. */
  function Classify(magnitude: real): (c: Colour)
    ensures c == Yellow <==> magnitude < 6.0
    ensures c == Orange <==> 6.0 <= magnitude < 7.0
    ensures c == Red <==> 7.0 <= magnitude
  {
    if magnitude < 6.0 then Yellow
    else if magnitude < 7.0 then Orange
    else Red
  }

  /** A stronger earthquake never gets a colour of a lower bucket. */
  lemma ClassifyMonotone(m1: real, m2: real)
    requires m1 <= m2
    ensures Classify(m1) == Orange ==> Classify(m2) != Yellow
    ensures Classify(m1) == Red ==> Classify(m2) == Red
  {
  }

  /** Marker radius: one four-hundredth of the magnitude. */
  function Radius(magnitude: real): (r: real)
    ensures r * 400.0 == magnitude
    ensures magnitude > 0.0 ==> r > 0.0
  {
    magnitude * 0.0025
  }

  /** Stronger earthquakes get markers at least as large. */
  lemma RadiusMonotone(m1: real, m2: real)
    requires m1 <= m2
    ensures Radius(m1) <= Radius(m2)
  {
  }
}
