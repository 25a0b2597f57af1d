/** The viewer application: its playback clock, camera and mouse state,
    the handlers that change them, and the per-frame walk over the
    earthquakes that are visible in the trailing one-year window. */
module Viewer {
  import opened Quakes
  import opened Playback

  /** What the frame draws for one earthquake: the record's index, the
      colour and size of its sphere, and where on the globe it sits. */
  datatype Marker = Marker(index: int, colour: Colour, radius: real, latitude: real, longitude: real)

  function MarkerOf(db: Database, i: int): (m: Marker)
    requires db.Valid()
    requires db.MinIndex() <= i <= db.MaxIndex()
    ensures m.index == i
    ensures m.colour == Classify(db.quakes[i].magnitude)
    ensures m.radius * 400.0 == db.quakes[i].magnitude
    ensures m.latitude == db.quakes[i].latitude && m.longitude == db.quakes[i].longitude
  {
    var e := db.ByIndex(i);
    Marker(i, Classify(e.magnitude), Radius(e.magnitude), e.latitude, e.longitude)
  }

  /** First index of the visible range: the lookup of one year before `now`. */
  function WindowStart(db: Database, now: real): int
    requires db.Valid()
  {
    db.IndexByDate(now - PlaybackWindow as real)
  }

  /** End (exclusive) of the visible range: the lookup of `now`. */
  function WindowEnd(db: Database, now: real): int
    requires db.Valid()
  {
    db.IndexByDate(now)
  }

  /** The markers of one frame: the records from WindowStart up to, but
      not including, WindowEnd, each once and in strictly increasing index
      order; nothing when the start is not below the end. */
  method WalkVisible(db: Database, now: real) returns (drawn: seq<Marker>)
    requires db.Valid()
    ensures var start, end := WindowStart(db, now), WindowEnd(db, now);
      |drawn| == (if start < end then end - start else 0) &&
      forall k :: 0 <= k < |drawn| ==>
        db.MinIndex() <= start + k <= db.MaxIndex() && drawn[k] == MarkerOf(db, start + k)
    ensures forall k1, k2 :: 0 <= k1 < k2 < |drawn| ==> drawn[k1].index < drawn[k2].index
  {
    var start := db.IndexByDate(now - PlaybackWindow as real);
    var end := db.IndexByDate(now);
    drawn := [];
    var x := start;
    while x < end
      invariant x == start || start < x <= end
      invariant |drawn| == x - start
      invariant forall k :: 0 <= k < |drawn| ==>
        db.MinIndex() <= start + k <= db.MaxIndex() && drawn[k] == MarkerOf(db, start + k)
    {
      drawn := drawn + [MarkerOf(db, x)];
      x := x + 1;
    }
  }

  /** When the date lookup is a lower bound, the visible window holds
      exactly the records dated from one year before `now` up to, but not
      including, `now`, and it is never inverted. */
  lemma WindowUnderLowerBound(db: Database, now: real, i: int)
    requires db.Valid() && db.LowerBoundLookup()
    requires 0 <= i < |db.quakes|
    ensures WindowStart(db, now) <= WindowEnd(db, now)
    ensures WindowStart(db, now) <= i < WindowEnd(db, now) <==>
      now - PlaybackWindow as real <= db.quakes[i].seconds < now
  {
    var start, end := WindowStart(db, now), WindowEnd(db, now);
    if end < |db.quakes| {
      // the first record not before `now` is not before the window's start either
      assert db.quakes[end].seconds >= now;
      assert end >= start;
    }
    assert i < start <==> db.quakes[i].seconds < now - PlaybackWindow as real;
    assert i < end <==> db.quakes[i].seconds < now;
  }

  /** The application state that playback and visibility depend on. The
      rotation of the globe and the drawing resources are not modelled. */
  class App {
    const db: Database
    var currentTime: real
    var playbackScale: real
    var eye: Vec3
    var mouseDown: bool
    var lastMousePos: Vec2
    var playing: bool

    /** The camera stays on the z axis, farther than MinEyeZ from the
        earth's centre, and the clock stays within the data set's span
        whenever that span is not inverted. */
    ghost predicate Valid()
      reads this
    {
      db.Valid() &&
      eye.x == 0.0 && eye.y == 0.0 && eye.z > MinEyeZ &&
      (db.MinSeconds() <= db.MaxSeconds() ==>
        db.MinSeconds() <= currentTime <= db.MaxSeconds())
    }

    /** Start-up: the clock at the earliest record, one day per second,
        the camera at (0, 0, 4), no drag in progress, playing. */
    constructor (database: Database)
      requires database.Valid()
      ensures db == database
      ensures currentTime == db.MinSeconds()
      ensures playbackScale == InitialScale
      ensures eye == InitialEye
      ensures !mouseDown
      ensures playing
      ensures Valid()
    {
      db := database;
      eye := Vec3(0.0, 0.0, 4.0);
      mouseDown := false;
      lastMousePos := Vec2(0.0, 0.0);
      playbackScale := 86400.0;
      currentTime := database.ByIndex(database.MinIndex()).seconds;
      playing := true;
    }

    /** One input event: the arrow keys change the speed and the camera
        distance, the left mouse button sets or clears the drag flag and
        a press records where it happened. The clock is untouched. */
    method OnEvent(name: string, position: Vec2)
      requires Valid()
      modifies this`playbackScale, this`eye, this`mouseDown, this`lastMousePos
      ensures Valid()
      ensures playbackScale == ScaleOnEvent(old(playbackScale), name)
      ensures eye == EyeOnEvent(old(eye), name)
      ensures mouseDown == MouseDownOnEvent(old(mouseDown), name)
      ensures lastMousePos == if name == MouseLeftDown then position else old(lastMousePos)
    {
      if name == "kbd_LEFT_down" || name == "kbd_LEFT_repeat" {
        playbackScale := playbackScale / 1.3;
      }
      if name == "kbd_RIGHT_down" || name == "kbd_RIGHT_repeat" {
        playbackScale := playbackScale * 1.3;
      }

      if name == "kbd_UP_down" || name == "kbd_UP_repeat" {
        var newCamPos := Vec3(eye.x, eye.y, eye.z - 0.01);
        if newCamPos.z > 1.2 {
          eye := newCamPos;
        }
      } else if name == "kbd_DOWN_down" || name == "kbd_DOWN_repeat" {
        var newCamPos := Vec3(eye.x, eye.y, eye.z + 0.01);
        eye := newCamPos;
      } else if name == "mouse_btn_left_down" {
        mouseDown := true;
        lastMousePos := position;
      } else if name == "mouse_btn_left_up" {
        mouseDown := false;
      }
    }

    /** One simulation tick of `rdt` real seconds: advance the clock by
        the playback speed, then snap it back into the data set's span. */
    method OnSimulation(rdt: real)
      requires Valid()
      modifies this`currentTime
      ensures Valid()
      ensures currentTime == Wrap(old(currentTime) + playbackScale * rdt, db.MinSeconds(), db.MaxSeconds())
    {
      currentTime := currentTime + playbackScale * rdt;
      if currentTime > db.ByIndex(db.MaxIndex()).seconds {
        currentTime := db.ByIndex(db.MinIndex()).seconds;
      }
      if currentTime < db.ByIndex(db.MinIndex()).seconds {
        currentTime := db.ByIndex(db.MaxIndex()).seconds;
      }
    }

    /** One frame: a tick of `rdt` seconds, then the markers of the
        earthquakes in the window that ends at the new time. */
    method OnRenderGraphics(rdt: real) returns (drawn: seq<Marker>)
      requires Valid()
      modifies this`currentTime
      ensures Valid()
      ensures currentTime == Wrap(old(currentTime) + playbackScale * rdt, db.MinSeconds(), db.MaxSeconds())
      ensures var start, end := WindowStart(db, currentTime), WindowEnd(db, currentTime);
        |drawn| == (if start < end then end - start else 0) &&
        forall k :: 0 <= k < |drawn| ==>
          db.MinIndex() <= start + k <= db.MaxIndex() && drawn[k] == MarkerOf(db, start + k)
    {
      OnSimulation(rdt);
      drawn := WalkVisible(db, currentTime);
    }
  }
}
