/** The circle-tracing session of the game screen: the fields the pan
    gesture handler updates, the three gesture phases that update them, and
    what holds of them over any sequence of gestures.

    The finger's distance to the centre dot is an input: the dot does not
    move, so every oval appended to the combined path is centred on it, and
    the path is represented by the radii of its ovals. */
module Tracing {
  import opened Scoring

  /** The distance below which a sample is flagged "Too close!". */
  const MIN_RADIUS: real := 35.0

  datatype Point = Point(x: real, y: real)

  predicate NonNegative(radii: seq<real>) {
    forall i :: 0 <= i < |radii| ==> radii[i] >= 0.0
  }

  /** The largest radius among the ovals, 0 for no ovals. */
  function MaxRadius(radii: seq<real>): (m: real)
    ensures forall i :: 0 <= i < |radii| ==> radii[i] <= m
    ensures radii == [] ==> m == 0.0
    ensures radii != [] ==> m in radii
    decreases |radii|
  {
    if radii == [] then 0.0
    else if |radii| == 1 then radii[0]
    else Max(MaxRadius(radii[..|radii| - 1]), radii[|radii| - 1])
  }

  /** Appending an oval raises the largest radius to the new one if it is
      larger and otherwise keeps it (radii are distances). */
  lemma MaxRadiusAppend(radii: seq<real>, r: real)
    requires r >= 0.0
    ensures MaxRadius(radii + [r]) == Max(MaxRadius(radii), r)
  {
    assert (radii + [r])[..|radii|] == radii;
  }

  /** A path that extends another is at least as wide. */
  lemma MaxRadiusExtends(shorter: seq<real>, longer: seq<real>)
    requires shorter <= longer && NonNegative(longer)
    ensures MaxRadius(shorter) <= MaxRadius(longer)
  {
    if shorter != [] {
      var i :| 0 <= i < |shorter| && shorter[i] == MaxRadius(shorter);
      assert longer[i] == shorter[i];
    } else if longer != [] {
      assert longer[0] >= 0.0;
    }
  }

  /** The width of the bounding box of concentric ovals with these radii. */
  function PathWidth(radii: seq<real>): real {
    2.0 * MaxRadius(radii)
  }

  /** The quality in percent of the combined path against the perfect circle
      of `radius`: 100 exactly when the widest oval has the target radius. */
  function SampleQuality(radii: seq<real>, radius: real): (q: real)
    requires radius > 0.0
    ensures 0.0 <= q <= 100.0
    ensures q == 100.0 <==> MaxRadius(radii) == radius
  {
    CircleQuality(PathWidth(radii), 2.0 * radius, PI) * 100.0
  }

  /** The session fields: the last touch point, the perfect-circle radius,
      the combined path, the highest quality so far and whether the one-shot
      "Too slow!" timer is armed. */
  datatype State = State(
    lastPoint: Point,
    radius: real,
    combinedPath: seq<real>,
    highestQuality: real,
    timerArmed: bool)

  /** The fields before the first gesture. */
  const INITIAL: State := State(Point(0.0, 0.0), 0.0, [], 0.0, false)

  /** Radii are distances and the highest quality starts at 0. */
  predicate WellFormed(s: State) {
    s.radius >= 0.0 && NonNegative(s.combinedPath) && s.highestQuality >= 0.0
  }

  /** One phase of the pan gesture, with the touch point and its distance to
      the centre dot. */
  datatype Event =
    | Began(point: Point, distance: real)
    | Changed(point: Point, distance: real)
    | Ended

  /** Distances are non-negative, and a changed sample needs a positive
      radius, which the scoring rules divide by. */
  predicate Enabled(s: State, e: Event) {
    match e
    case Began(_, d) => d >= 0.0
    case Changed(_, d) => d >= 0.0 && s.radius > 0.0
    case Ended => true
  }

  /** What a changed sample at `distance` reports. */
  datatype Feedback = Feedback(quality: real, colorPercentage: real, tooClose: bool)

  /** The report of a changed sample: the quality of the path with the
      sample's oval appended, the sample's colour percentage, and the
      "Too close!" flag. */
  function Respond(s: State, distance: real): (f: Feedback)
    requires s.radius > 0.0 && distance >= 0.0
    ensures f.tooClose <==> distance < MIN_RADIUS
    ensures 0.0 <= f.quality <= 100.0 && f.colorPercentage <= 100.0
    ensures f.quality == 100.0 <==> Max(MaxRadius(s.combinedPath), distance) == s.radius
    ensures f.colorPercentage == 100.0 <==> distance == s.radius
  {
    MaxRadiusAppend(s.combinedPath, distance);
    Feedback(SampleQuality(s.combinedPath + [distance], s.radius),
             ColorPercentage(distance, s.radius),
             distance < MIN_RADIUS)
  }

  /** The effect of one gesture phase on the session fields. */
  function Step(s: State, e: Event): (t: State)
    requires WellFormed(s) && Enabled(s, e)
    ensures WellFormed(t)
    ensures t.highestQuality >= s.highestQuality
  {
    match e
    case Began(p, d) =>
      s.(lastPoint := p, radius := d, combinedPath := [], timerArmed := true)
    case Changed(p, d) =>
      var quality := Respond(s, d).quality;
      s.(lastPoint := p, combinedPath := s.combinedPath + [d],
         highestQuality := if quality > s.highestQuality then quality else s.highestQuality)
    case Ended =>
      s.(timerArmed := false)
  }

  /** Every phase of the sequence is enabled when it arrives. */
  predicate Admissible(s: State, events: seq<Event>)
    requires WellFormed(s)
    decreases |events|
  {
    events == [] || (Enabled(s, events[0]) && Admissible(Step(s, events[0]), events[1..]))
  }

  /** The session fields after a sequence of gesture phases. */
  function Run(s: State, events: seq<Event>): (t: State)
    requires WellFormed(s) && Admissible(s, events)
    ensures WellFormed(t)
    decreases |events|
  {
    if events == [] then s else Run(Step(s, events[0]), events[1..])
  }

  /** The qualities the changed samples of the sequence report, in order. */
  function Qualities(s: State, events: seq<Event>): seq<real>
    requires WellFormed(s) && Admissible(s, events)
    decreases |events|
  {
    if events == [] then []
    else
      (if events[0].Changed? then [Respond(s, events[0].distance).quality] else [])
      + Qualities(Step(s, events[0]), events[1..])
  }

  /** The running maximum of `qualities`, starting from `init`. */
  function Best(init: real, qualities: seq<real>): (b: real)
    ensures b >= init
    ensures forall i :: 0 <= i < |qualities| ==> qualities[i] <= b
    ensures b == init || b in qualities
    decreases |qualities|
  {
    if qualities == [] then init else Best(Max(init, qualities[0]), qualities[1..])
  }

  /** The highest quality after any sequence of gestures is the largest of
      its value before and of every quality reported in between: it is not
      reset by a new gesture. */
  lemma {:induction false} RunHighestIsBest(s: State, events: seq<Event>)
    requires WellFormed(s) && Admissible(s, events)
    ensures Run(s, events).highestQuality == Best(s.highestQuality, Qualities(s, events))
    decreases |events|
  {
    if events != [] {
      var t := Step(s, events[0]);
      RunHighestIsBest(t, events[1..]);
      var rest := Qualities(t, events[1..]);
      if events[0].Changed? {
        var q := Respond(s, events[0].distance).quality;
        assert t.highestQuality == Max(s.highestQuality, q);
        assert Qualities(s, events) == [q] + rest;
        assert ([q] + rest)[0] == q && ([q] + rest)[1..] == rest;
      } else {
        assert Qualities(s, events) == [] + rest == rest;
      }
    }
  }

  /** A sequence of phases can be run in two parts. */
  lemma {:induction false} RunSplit(s: State, first: seq<Event>, rest: seq<Event>)
    requires WellFormed(s) && Admissible(s, first + rest)
    ensures Admissible(s, first)
    ensures Admissible(Run(s, first), rest)
    ensures Run(s, first + rest) == Run(Run(s, first), rest)
    decreases |first|
  {
    if first != [] {
      assert (first + rest)[0] == first[0];
      assert (first + rest)[1..] == first[1..] + rest;
      RunSplit(Step(s, first[0]), first[1..], rest);
    } else {
      assert first + rest == rest;
    }
  }

  /** The highest quality never decreases: after any prefix of a sequence of
      gestures it is at most what it is after the whole sequence. */
  lemma HighestNeverDecreases(s: State, events: seq<Event>, k: nat)
    requires WellFormed(s) && Admissible(s, events) && k <= |events|
    ensures Admissible(s, events[..k])
    ensures Run(s, events[..k]).highestQuality <= Run(s, events).highestQuality
  {
    assert events == events[..k] + events[k..];
    RunSplit(s, events[..k], events[k..]);
    var mid := Run(s, events[..k]);
    RunHighestIsBest(mid, events[k..]);
  }

  /** Within one gesture, that is with no began phase, the radius stays, the
      combined path only grows and so does its widest oval. */
  lemma {:induction false} PathGrowsWithinGesture(s: State, events: seq<Event>)
    requires WellFormed(s) && Admissible(s, events)
    requires forall i :: 0 <= i < |events| ==> !events[i].Began?
    ensures Run(s, events).radius == s.radius
    ensures s.combinedPath <= Run(s, events).combinedPath
    ensures MaxRadius(s.combinedPath) <= MaxRadius(Run(s, events).combinedPath)
    decreases |events|
  {
    if events != [] {
      var t := Step(s, events[0]);
      assert s.combinedPath <= t.combinedPath;
      PathGrowsWithinGesture(t, events[1..]);
      MaxRadiusExtends(s.combinedPath, Run(s, events).combinedPath);
    }
  }

  /** Tracing the perfect circle: while every oval so far has the target
      radius, a sample on the circle scores 100, with colour percentage 100,
      and is not too close once the radius is at least the minimum. */
  lemma PerfectCircleScoresFull(s: State, distance: real)
    requires s.radius > 0.0 && distance == s.radius
    requires forall i :: 0 <= i < |s.combinedPath| ==> s.combinedPath[i] == s.radius
    ensures Respond(s, distance).quality == 100.0
    ensures Respond(s, distance).colorPercentage == 100.0
    ensures Respond(s, distance).tooClose <==> s.radius < MIN_RADIUS
  {
    if s.combinedPath != [] {
      var i :| 0 <= i < |s.combinedPath| && s.combinedPath[i] == MaxRadius(s.combinedPath);
    }
  }

  /** The game screen's session: the fields `handlePanGesture` updates and one
      method per gesture phase. `minRadius` is the constant MIN_RADIUS. */
  class CircleSession {
    var lastPoint: Point
    var radius: real
    var combinedPath: seq<real>
    var highestQuality: real
    var timerArmed: bool

    function Snapshot(): State
      reads this
    {
      State(lastPoint, radius, combinedPath, highestQuality, timerArmed)
    }

    ghost predicate Valid()
      reads this
    {
      WellFormed(Snapshot())
    }

    constructor ()
      ensures Valid() && Snapshot() == INITIAL
    {
      lastPoint := Point(0.0, 0.0);
      radius := 0.0;
      combinedPath := [];
      highestQuality := 0.0;
      timerArmed := false;
    }

    /** The gesture began at `point`, `distance` from the centre dot: the
        timer is re-armed, the distance becomes the perfect-circle radius,
        the combined path is emptied and the point becomes the last point.
        The highest quality is kept. */
    method Began(point: Point, distance: real)
      requires Valid() && distance >= 0.0
      modifies this
      ensures Valid()
      ensures timerArmed && radius == distance && combinedPath == [] && lastPoint == point
      ensures highestQuality == old(highestQuality)
      ensures Snapshot() == Step(old(Snapshot()), Event.Began(point, distance))
    {
      timerArmed := true;
      radius := distance;
      combinedPath := [];
      lastPoint := point;
    }

    /** The finger moved to `point`, `currentRadius` from the centre dot.
        A sample closer than the minimum radius is flagged but processed like
        any other: the last point moves, the sample's oval is appended, and
        the highest quality is raised to the sample's quality if that is
        higher. */
    method Changed(point: Point, currentRadius: real)
      returns (quality: real, colorPercentage: real, tooClose: bool)
      requires Valid() && radius > 0.0 && currentRadius >= 0.0
      modifies this
      ensures Valid()
      ensures lastPoint == point && combinedPath == old(combinedPath) + [currentRadius]
      ensures radius == old(radius) && timerArmed == old(timerArmed)
      ensures highestQuality == Max(old(highestQuality), quality)
      ensures tooClose <==> currentRadius < MIN_RADIUS
      ensures quality == SampleQuality(combinedPath, radius)
      ensures colorPercentage == ColorPercentage(currentRadius, radius)
      ensures Feedback(quality, colorPercentage, tooClose) == Respond(old(Snapshot()), currentRadius)
      ensures Snapshot() == Step(old(Snapshot()), Event.Changed(point, currentRadius))
    {
      lastPoint := point;
      tooClose := currentRadius < MIN_RADIUS;
      colorPercentage := ColorPercentage(currentRadius, radius);
      combinedPath := combinedPath + [currentRadius];
      quality := SampleQuality(combinedPath, radius);
      if quality > highestQuality {
        highestQuality := quality;
      }
    }

    /** The gesture ended: the timer is disarmed and the highest quality is
        returned for display; nothing else changes. */
    method Ended() returns (best: real)
      requires Valid()
      modifies this
      ensures Valid()
      ensures !timerArmed && best == highestQuality
      ensures lastPoint == old(lastPoint) && radius == old(radius)
      ensures combinedPath == old(combinedPath) && highestQuality == old(highestQuality)
      ensures Snapshot() == Step(old(Snapshot()), Event.Ended)
    {
      timerArmed := false;
      best := highestQuality;
    }
  }

  /** A client of the session: a gesture that starts on the circle of radius
      40, stays on it, dips too close to the dot and ends. */
  method TraceOnce() {
    var session := new CircleSession();
    session.Began(Point(40.0, 0.0), 40.0);
    var q, c, close := session.Changed(Point(0.0, 40.0), 40.0);
    assert q == 100.0 && c == 100.0 && !close;
    q, c, close := session.Changed(Point(0.0, 20.0), 20.0);
    assert close && session.combinedPath == [40.0, 20.0];
    var best := session.Ended();
    assert best == 100.0 && !session.timerArmed;
  }
}
