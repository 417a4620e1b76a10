/**
 * The animation engine (`StrangeOrbits`): a first-in first-out queue of
 * show and hide transitions, at most one of them active, and the figure
 * points the active transition moves.
 *
 * The image of a show transition arrives later than its activation; that
 * arrival is the method CompleteImageLoad, which gets the decoded RGBA
 * buffer and the random draws as inputs. A callback is identified by a
 * number, and calling it appends that number to `callbacksFired`.
 */
module Engine {
  import opened Wrappers
  import opened Geometry
  import opened Particle
  import opened Mask
  import Bezier

  datatype Kind = Show(url: string) | Hide

  /**
   * The easing of a transition: a name looked up in the engine's easings
   * when the transition starts, a function, or any other value (which
   * makes the first update after the transition is ready throw).
   */
  datatype Easing = Named(name: string) | Function(apply: real -> real) | NotAFunction

  datatype Transition = Transition(kind: Kind, clock: real, ready: bool, duration: real, easing: Easing,
                                   callback: Option<nat>)

  /** What `updateAnimation` throws: the easing it calls is not a function. */
  datatype Error = EasingIsNotAFunction

  /** The easing a transition gets when none is given. */
  const DefaultEasingName: string := "strange"

  /** A cubic-bezier easing as a function. */
  function Curve(c: Bezier.ValidControls): real -> real {
    x => Bezier.Eased(c, x)
  }

  /** The named easings the engine starts with. */
  const DefaultEasings: map<string, real -> real> := map[
    "ease" := Curve(Bezier.Controls(0.25, 0.1, 0.25, 1.0)),
    "linear" := Curve(Bezier.Controls(0.0, 0.0, 1.0, 1.0)),
    "ease-in" := Curve(Bezier.Controls(0.42, 0.0, 1.0, 1.0)),
    "ease-out" := Curve(Bezier.Controls(0.0, 0.0, 0.58, 1.0)),
    "ease-in-out" := Curve(Bezier.Controls(0.42, 0.0, 0.58, 1.0)),
    DefaultEasingName := Curve(Bezier.Controls(0.7, 0.0, 0.3, 1.0))]

  /** Every default easing starts at 0 and ends at 1, and "linear" is the identity. */
  lemma DefaultEasingsFixEndpoints(x: real)
    ensures forall name :: name in DefaultEasings ==>
              DefaultEasings[name](0.0) == 0.0 && DefaultEasings[name](1.0) == 1.0
    ensures DefaultEasingName in DefaultEasings
    ensures DefaultEasings["linear"](x) == x
  {
    forall c: Bezier.ValidControls
      ensures Curve(c)(0.0) == 0.0 && Curve(c)(1.0) == 1.0
    {
      Bezier.EasedEndpoints(c, x);
    }
    Bezier.EasedEndpoints(Bezier.Controls(0.0, 0.0, 1.0, 1.0), x);
  }

  /** The easing a transition runs with once it has started. */
  function Resolve(e: Easing, easings: map<string, real -> real>): (r: Easing)
    ensures !r.Named?
    ensures r.Function? <==> e.Function? || (e.Named? && e.name in easings)
  {
    match e
    case Named(name) => if name in easings then Function(easings[name]) else NotAFunction
    case _ => e
  }

  /** A queued transition: its clock at 0, ready exactly when it hides, with a positive duration. */
  predicate Pending(t: Transition) {
    t.clock == 0.0 && t.ready == t.kind.Hide? && t.duration > 0.0
  }

  /** An active transition: its easing resolved, ready if it hides, with a positive duration. */
  predicate Active(t: Transition) {
    !t.easing.Named? && (t.kind.Hide? ==> t.ready) && t.duration > 0.0
  }

  /** The ids a transition's callback adds to the log when the transition completes. */
  function Fired(callback: Option<nat>): (ids: seq<nat>)
    ensures |ids| <= 1
  {
    match callback
    case Some(id) => [id]
    case None => []
  }

  function Max(a: int, b: int): int {
    if a < b then b else a
  }

  /** The points not marked offscreen, in their order. */
  function Survivors(ps: seq<FigurePoint>): (r: seq<FigurePoint>)
    reads ps
    ensures |r| <= |ps|
    ensures forall i :: 0 <= i < |r| ==> r[i] in ps && !r[i].offscreen
    ensures forall i :: 0 <= i < |ps| && !ps[i].offscreen ==> ps[i] in r
  {
    if ps == [] then []
    else
      var last := ps[|ps| - 1];
      var front := Survivors(ps[..|ps| - 1]);
      assert ps == ps[..|ps| - 1] + [last];
      if last.offscreen then front else front + [last]
  }

  /** Filtering distributes over concatenation, so it keeps the relative order of the survivors. */
  lemma {:induction false} SurvivorsAppend(a: seq<FigurePoint>, b: seq<FigurePoint>)
    ensures Survivors(a + b) == Survivors(a) + Survivors(b)
    decreases |b|
  {
    if b == [] {
      assert a + b == a;
    } else {
      var b' := b[..|b| - 1];
      assert (a + b)[..|a + b| - 1] == a + b';
      assert b[..|b| - 1] == b';
      SurvivorsAppend(a, b');
    }
  }

  /** One more point at the end survives exactly when it is not offscreen. */
  lemma SurvivorsSnoc(front: seq<FigurePoint>, p: FigurePoint)
    ensures Survivors(front + [p]) == if p.offscreen then Survivors(front) else Survivors(front) + [p]
  {
    assert (front + [p])[..|front + [p]| - 1] == front;
  }

  /**
   * One step of the splice loop over ps, i positions into the current list
   * and consumed positions into the original one: removing an offscreen
   * point, or passing over a surviving one, keeps the survivors of the
   * consumed prefix in front and the unconsumed suffix behind.
   */
  lemma SpliceStep(ps: seq<FigurePoint>, current: seq<FigurePoint>, i: nat, consumed: nat)
    requires consumed < |ps| && i < |current|
    requires current[..i] == Survivors(ps[..consumed]) && current[i..] == ps[consumed..]
    ensures var p := current[i];
            && (p.offscreen ==>
                  var next := current[..i] + current[i + 1..];
                  next[..i] == Survivors(ps[..consumed + 1]) && next[i..] == ps[consumed + 1..])
            && (!p.offscreen ==>
                  current[..i + 1] == Survivors(ps[..consumed + 1]) && current[i + 1..] == ps[consumed + 1..])
  {
    var p := current[i];
    assert current[i..][0] == p && ps[consumed..][0] == p;
    assert ps[..consumed + 1] == ps[..consumed] + [p];
    SurvivorsSnoc(ps[..consumed], p);
    assert current[i + 1..] == current[i..][1..] == ps[consumed..][1..] == ps[consumed + 1..];
    var next := current[..i] + current[i + 1..];
    assert next[..i] == current[..i] && next[i..] == current[i + 1..];
    assert current[..i + 1] == current[..i] + [p];
  }

  /** Without offscreen points nothing is removed; with only offscreen points everything is. */
  lemma {:induction false} SurvivorsExtremes(ps: seq<FigurePoint>)
    ensures (forall p :: p in ps ==> !p.offscreen) ==> Survivors(ps) == ps
    ensures (forall p :: p in ps ==> p.offscreen) ==> Survivors(ps) == []
  {
    if ps != [] {
      var front, last := ps[..|ps| - 1], ps[|ps| - 1];
      assert ps == front + [last];
      assert last in ps;
      assert forall p :: p in front ==> p in ps;
      SurvivorsExtremes(front);
      if forall p :: p in ps ==> !p.offscreen {
        assert Survivors(ps) == Survivors(front) + [last];
      }
      if forall p :: p in ps ==> p.offscreen {
        assert Survivors(ps) == Survivors(front);
      }
    }
  }

  predicate Distinct(ps: seq<FigurePoint>) {
    forall i, j :: 0 <= i < j < |ps| ==> ps[i] != ps[j]
  }

  /** Filtering a sequence of distinct points leaves distinct points. */
  lemma {:induction false} SurvivorsDistinct(ps: seq<FigurePoint>)
    requires Distinct(ps)
    ensures Distinct(Survivors(ps))
  {
    if ps != [] {
      var front := ps[..|ps| - 1];
      assert Distinct(front);
      SurvivorsDistinct(front);
      assert ps[|ps| - 1] !in front;
    }
  }

  class Engine {
    const width: nat
    const height: nat
    const options: Options
    const easings: map<string, real -> real>
    var figurePoints: seq<FigurePoint>
    var animationQueue: seq<Transition>
    var currentAnimation: Option<Transition>
    var actualImage: Option<string>
    var callbacksFired: seq<nat>
    /** Every transition ever queued, in order. */
    ghost var enqueued: seq<Transition>
    /** Every transition that has left the queue, in order. */
    ghost var started: seq<Transition>

    /** Idle, or waiting for the image of a show transition. */
    predicate Settled()
      reads this
    {
      currentAnimation.None? || (currentAnimation.value.kind.Show? && !currentAnimation.value.ready)
    }

    predicate Hiding()
      reads this
    {
      currentAnimation.Some? && currentAnimation.value.kind.Hide?
    }

    ghost predicate Valid()
      reads this, figurePoints
    {
      && ValidOptions(options)
      && Distinct(figurePoints)
      && (forall i :: 0 <= i < |figurePoints| ==> figurePoints[i].Valid())
      && enqueued == started + animationQueue
      && (forall t :: t in animationQueue ==> Pending(t))
      && (currentAnimation.Some? ==> Active(currentAnimation.value))
      && (Settled() ==> forall i :: 0 <= i < |figurePoints| ==> !figurePoints[i].offscreen)
      && (Hiding() ==> forall i :: 0 <= i < |figurePoints| ==> figurePoints[i].offscreen)
    }

    /** An idle engine without points or transitions. */
    constructor (width: nat, height: nat, options: Options, easings: map<string, real -> real>)
      requires ValidOptions(options)
      ensures Valid()
      ensures this.width == width && this.height == height && this.options == options && this.easings == easings
      ensures figurePoints == [] && animationQueue == [] && currentAnimation == None
      ensures actualImage == None && callbacksFired == [] && enqueued == [] && started == []
    {
      this.width := width;
      this.height := height;
      this.options := options;
      this.easings := easings;
      figurePoints := [];
      animationQueue := [];
      currentAnimation := None;
      actualImage := None;
      callbacksFired := [];
      enqueued := [];
      started := [];
    }

    /** `showFigure`: queue a transition to the image at url, which waits for that image. */
    method ShowFigure(url: string, duration: real, easing: Option<Easing>, callback: Option<nat>)
      requires Valid() && duration > 0.0
      modifies this`animationQueue, this`enqueued
      ensures Valid()
      ensures animationQueue == old(animationQueue)
                                + [Transition(Show(url), 0.0, false, duration,
                                              easing.GetOr(Named(DefaultEasingName)), callback)]
      ensures enqueued == old(enqueued) + [animationQueue[|animationQueue| - 1]]
    {
      var t := Transition(Show(url), 0.0, false, duration, easing.GetOr(Named(DefaultEasingName)), callback);
      animationQueue := animationQueue + [t];
      enqueued := enqueued + [t];
    }

    /** `hideFigure`: queue a transition that sends every point back off screen. */
    method HideFigure(duration: real, easing: Option<Easing>, callback: Option<nat>)
      requires Valid() && duration > 0.0
      modifies this`animationQueue, this`enqueued
      ensures Valid()
      ensures animationQueue == old(animationQueue)
                                + [Transition(Hide, 0.0, true, duration,
                                              easing.GetOr(Named(DefaultEasingName)), callback)]
      ensures enqueued == old(enqueued) + [animationQueue[|animationQueue| - 1]]
    {
      var t := Transition(Hide, 0.0, true, duration, easing.GetOr(Named(DefaultEasingName)), callback);
      animationQueue := animationQueue + [t];
      enqueued := enqueued + [t];
    }

    /** The transition an update works on: the active one, or else the head of the queue once started. */
    function Next(current: Option<Transition>, queue: seq<Transition>): (a: Transition)
      requires current.Some? || queue != []
      requires current.Some? ==> Active(current.value)
      requires forall t :: t in queue ==> Pending(t)
      ensures Active(a)
    {
      if current.Some? then current.value
      else
        var t := queue[0];
        assert t in queue && Pending(t);
        t.(easing := Resolve(t.easing, easings))
    }

    /**
     * `updateAnimation`: start the next transition when none is active,
     * advance a ready one by deltaTime and return its eased time factor, and
     * complete it once its time factor reaches 1. With nothing to run, or
     * while the image is loading, the factor is 1 and no clock moves.
     */
    method UpdateAnimation(deltaTime: real) returns (r: Result<real, Error>)
      requires Valid()
      modifies this, figurePoints`previousPosition, figurePoints`nextPosition, figurePoints`offscreen
      ensures Valid()
      ensures enqueued == old(enqueued)
      // nothing to do
      ensures old(currentAnimation.None? && animationQueue == []) ==>
                && r == Success(1.0)
                && currentAnimation == old(currentAnimation) && animationQueue == old(animationQueue)
                && started == old(started) && figurePoints == old(figurePoints)
                && actualImage == old(actualImage) && callbacksFired == old(callbacksFired)
                && (forall p :: p in old(figurePoints) ==> unchanged(p))
      // starting the head of the queue
      ensures old(currentAnimation.None? && animationQueue != []) ==>
                && animationQueue == old(animationQueue[1..])
                && started == old(started + [animationQueue[0]])
                && (old(animationQueue[0].kind.Show?) ==>
                      actualImage == Some(old(animationQueue[0].kind.url))
                      && (forall p :: p in old(figurePoints) ==> unchanged(p)))
                && (old(animationQueue[0].kind.Hide?) ==>
                      actualImage == None
                      && (forall p :: p in old(figurePoints) ==>
                            p.offscreen && p.nextPosition == p.offscreenPosition
                            && p.previousPosition == old(p.nextPosition)))
      ensures old(currentAnimation.Some?) ==>
                && animationQueue == old(animationQueue) && started == old(started)
                && actualImage == old(actualImage)
                && (forall p :: p in old(figurePoints) ==> unchanged(p))
      // waiting for the image
      ensures old(currentAnimation.Some? || animationQueue != []) ==>
                var a := old(Next(currentAnimation, animationQueue));
                !a.ready ==>
                  && r == Success(1.0) && currentAnimation == Some(a)
                  && figurePoints == old(figurePoints) && callbacksFired == old(callbacksFired)
      // running
      ensures old(currentAnimation.Some? || animationQueue != []) ==>
                var a := old(Next(currentAnimation, animationQueue));
                var a' := a.(clock := a.clock + deltaTime);
                var timeFactor := a'.clock / a.duration;
                a.ready ==>
                  && (!a.easing.Function? ==>
                        r == Failure(EasingIsNotAFunction) && currentAnimation == Some(a')
                        && figurePoints == old(figurePoints) && callbacksFired == old(callbacksFired))
                  && (a.easing.Function? ==> r == Success(a.easing.apply(timeFactor)))
                  && (a.easing.Function? && timeFactor < 1.0 ==>
                        currentAnimation == Some(a')
                        && figurePoints == old(figurePoints) && callbacksFired == old(callbacksFired))
                  && (a.easing.Function? && timeFactor >= 1.0 ==>
                        currentAnimation == None
                        && figurePoints == Survivors(old(figurePoints))
                        && callbacksFired == old(callbacksFired) + Fired(a.callback))
    {
      if currentAnimation.None? {
        if animationQueue == [] {
          return Success(1.0);
        }
        StartNext();
      }
      r := Advance(deltaTime);
    }

    /** The start of the head of the queue by `updateAnimation`. */
    method StartNext()
      requires Valid() && currentAnimation.None? && animationQueue != []
      modifies this`animationQueue, this`started, this`actualImage, this`currentAnimation,
               figurePoints`previousPosition, figurePoints`nextPosition, figurePoints`offscreen
      ensures Valid()
      ensures currentAnimation == Some(old(Next(currentAnimation, animationQueue)))
      ensures animationQueue == old(animationQueue[1..]) && started == old(started + [animationQueue[0]])
      ensures old(animationQueue[0].kind.Show?) ==>
                actualImage == Some(old(animationQueue[0].kind.url))
                && (forall p :: p in old(figurePoints) ==> unchanged(p))
      ensures old(animationQueue[0].kind.Hide?) ==>
                actualImage == None
                && (forall p :: p in old(figurePoints) ==>
                      p.offscreen && p.nextPosition == p.offscreenPosition
                      && p.previousPosition == old(p.nextPosition))
    {
      var t := animationQueue[0];
      assert t in animationQueue;
      animationQueue := animationQueue[1..];
      started := started + [t];
      match t.kind {
        case Show(url) =>
          actualImage := Some(url);
        case Hide =>
          actualImage := None;
          HideAllPoints();
      }
      currentAnimation := Some(t.(easing := Resolve(t.easing, easings)));
    }

    /**
     * The rest of `updateAnimation` once a transition is active: wait for
     * the image, or advance the clock, ease the time factor and complete.
     */
    method Advance(deltaTime: real) returns (r: Result<real, Error>)
      requires Valid() && currentAnimation.Some?
      modifies this`currentAnimation, this`figurePoints, this`callbacksFired
      ensures Valid()
      ensures var a := old(currentAnimation.value);
              !a.ready ==>
                && r == Success(1.0) && currentAnimation == Some(a)
                && figurePoints == old(figurePoints) && callbacksFired == old(callbacksFired)
      ensures var a := old(currentAnimation.value);
              var a' := a.(clock := a.clock + deltaTime);
              var timeFactor := a'.clock / a.duration;
              a.ready ==>
                && (!a.easing.Function? ==>
                      r == Failure(EasingIsNotAFunction) && currentAnimation == Some(a')
                      && figurePoints == old(figurePoints) && callbacksFired == old(callbacksFired))
                && (a.easing.Function? ==> r == Success(a.easing.apply(timeFactor)))
                && (a.easing.Function? && timeFactor < 1.0 ==>
                      currentAnimation == Some(a')
                      && figurePoints == old(figurePoints) && callbacksFired == old(callbacksFired))
                && (a.easing.Function? && timeFactor >= 1.0 ==>
                      currentAnimation == None
                      && figurePoints == Survivors(old(figurePoints))
                      && callbacksFired == old(callbacksFired) + Fired(a.callback))
    {
      var a := currentAnimation.value;
      if !a.ready {
        return Success(1.0);
      }
      a := a.(clock := a.clock + deltaTime);
      currentAnimation := Some(a);
      var timeFactor := a.clock / a.duration;
      if !a.easing.Function? {
        return Failure(EasingIsNotAFunction);
      }
      var moveFactor := a.easing.apply(timeFactor);
      if timeFactor >= 1.0 {
        SurvivorsDistinct(figurePoints);
        RemoveOffscreenFigurePoints();
        callbacksFired := callbacksFired + Fired(a.callback);
        currentAnimation := None;
      }
      r := Success(moveFactor);
    }

    /** The `setOffset` loop of a starting hide transition. */
    method HideAllPoints()
      requires Distinct(figurePoints)
      modifies figurePoints`previousPosition, figurePoints`nextPosition, figurePoints`offscreen
      ensures forall p :: p in figurePoints ==>
                p.offscreen && p.nextPosition == p.offscreenPosition && p.previousPosition == old(p.nextPosition)
    {
      for k := 0 to |figurePoints|
        invariant forall j :: 0 <= j < k ==>
                    figurePoints[j].offscreen && figurePoints[j].nextPosition == figurePoints[j].offscreenPosition
                    && figurePoints[j].previousPosition == old(figurePoints[j].nextPosition)
        invariant forall j :: k <= j < |figurePoints| ==> figurePoints[j].nextPosition == old(figurePoints[j].nextPosition)
      {
        figurePoints[k].SetOffset();
      }
    }

    /** `removeOffscreenFigurePoints`: splice out every offscreen point, stepping back after each removal. */
    method RemoveOffscreenFigurePoints()
      modifies this`figurePoints
      ensures figurePoints == Survivors(old(figurePoints))
    {
      ghost var original := figurePoints;
      ghost var consumed := 0;
      var i := 0;
      while i < |figurePoints|
        invariant 0 <= consumed <= |original|
        invariant 0 <= i <= |figurePoints|
        invariant figurePoints[..i] == Survivors(original[..consumed])
        invariant figurePoints[i..] == original[consumed..]
        decreases |figurePoints| - i
      {
        SpliceStep(original, figurePoints, i, consumed);
        if figurePoints[i].offscreen {
          figurePoints := figurePoints[..i] + figurePoints[i + 1..];
          i := i - 1;
        }
        i := i + 1;
        consumed := consumed + 1;
      }
      assert original[..consumed] == original;
    }

    /**
     * The points after the first |s| picked pixels of an image were placed,
     * starting from the points before (with their next and previous
     * positions beforeNext and beforePrev): point k heads for pixel k,
     * reused points in order, new points appended as spawned with the k-th
     * spawn draws, other points untouched.
     */
    ghost predicate Placed(s: seq<Pixel>, before: seq<FigurePoint>, beforeNext: seq<Vec>, beforePrev: seq<Vec>,
                           spawn: nat -> SpawnDraws)
      requires |beforeNext| == |before| && |beforePrev| == |before|
      reads this, figurePoints
    {
      && |figurePoints| == Max(|before|, |s|)
      && (forall k :: 0 <= k < |before| ==> figurePoints[k] == before[k])
      && (forall k :: 0 <= k < |s| ==> figurePoints[k].nextPosition == Position(s[k]))
      && (forall k :: 0 <= k < |s| && k < |before| ==> figurePoints[k].previousPosition == beforeNext[k])
      && (forall k :: |s| <= k < |before| ==>
            figurePoints[k].nextPosition == beforeNext[k] && figurePoints[k].previousPosition == beforePrev[k])
      && (forall k :: |before| <= k < |s| ==>
            figurePoints[k].Valid() && figurePoints[k].Spawned(Position(s[k]), spawn(k), options, width, height))
      && Distinct(figurePoints)
    }

    /**
     * One picked pixel of `imageDataToFigure`: the next point, if there is
     * one, is sent to it with `setPosition`; otherwise a new point is
     * created for it and appended.
     */
    method PlacePoint(numberPoints: nat, q: Pixel, ghost s: seq<Pixel>, ghost before: seq<FigurePoint>, ghost beforeNext: seq<Vec>,
                      ghost beforePrev: seq<Vec>, spawn: nat -> SpawnDraws)
      requires ValidOptions(options)
      requires |beforeNext| == |before| && |beforePrev| == |before|
      requires Placed(s, before, beforeNext, beforePrev, spawn) && numberPoints == |s|
      modifies this`figurePoints, figurePoints`previousPosition, figurePoints`nextPosition
      ensures Placed(s + [q], before, beforeNext, beforePrev, spawn)
      ensures |figurePoints| >= |old(figurePoints)|
      ensures forall k :: 0 <= k < |old(figurePoints)| ==> figurePoints[k] == old(figurePoints[k])
      ensures forall k :: |old(figurePoints)| <= k < |figurePoints| ==> fresh(figurePoints[k])
    {
      var position := Position(q);
      if numberPoints < |figurePoints| {
        figurePoints[numberPoints].SetPosition(position);
      } else {
        var point := new FigurePoint(position, spawn(numberPoints), options, width, height);
        figurePoints := figurePoints + [point];
      }
    }

    /**
     * The scan of `imageDataToFigure`: every pixel in row-major order, the
     * alpha byte at offset i, the picked pixels placed one after the other.
     */
    method ScanImage(data: seq<byte>, density: nat -> Draw, spawn: nat -> SpawnDraws) returns (numberPoints: nat)
      requires ValidOptions(options) && Distinct(figurePoints)
      requires forall k :: 0 <= k < |figurePoints| ==> figurePoints[k].Valid()
      modifies this`figurePoints, figurePoints`previousPosition, figurePoints`nextPosition
      ensures var t := Targets(data, density, options.pointDensity, width, height);
              && numberPoints == |t|
              && |figurePoints| == Max(|old(figurePoints)|, |t|)
              && (forall k :: 0 <= k < |old(figurePoints)| ==> figurePoints[k] == old(figurePoints[k]))
              && (forall k :: 0 <= k < |t| ==> figurePoints[k].nextPosition == Position(t[k]))
              && (forall k :: 0 <= k < |t| && k < |old(figurePoints)| ==>
                    figurePoints[k].previousPosition == old(figurePoints[k].nextPosition))
              && (forall k :: |t| <= k < |old(figurePoints)| ==>
                    figurePoints[k].nextPosition == old(figurePoints[k].nextPosition)
                    && figurePoints[k].previousPosition == old(figurePoints[k].previousPosition))
              && (forall k :: |old(figurePoints)| <= k < |t| ==>
                    fresh(figurePoints[k]) && figurePoints[k].Spawned(Position(t[k]), spawn(k), options, width, height))
              && (forall k :: 0 <= k < |figurePoints| ==> figurePoints[k].Valid())
              && Distinct(figurePoints)
    {
      ghost var before := figurePoints;
      ghost var beforeNext := seq(|before|, k requires 0 <= k < |before| reads before => before[k].nextPosition);
      ghost var beforePrev := seq(|before|, k requires 0 <= k < |before| reads before => before[k].previousPosition);
      var i := 3;
      numberPoints := 0;
      var y := 0;
      while y < height
        invariant y <= height
        invariant i == 4 * (y * width) + 3
        invariant numberPoints == |Scan(data, density, options.pointDensity, width, y, 0)|
        invariant Placed(Scan(data, density, options.pointDensity, width, y, 0), before, beforeNext, beforePrev, spawn)
        invariant forall k :: |before| <= k < |figurePoints| ==> fresh(figurePoints[k])
      {
        i, numberPoints := ScanRow(data, density, spawn, y, i, numberPoints, before, beforeNext, beforePrev);
        assert (y + 1) * width == y * width + width;
        y := y + 1;
      }
    }

    /** One row y of the scan of `imageDataToFigure`, with the alpha offset i running on by 4 per pixel. */
    method ScanRow(data: seq<byte>, density: nat -> Draw, spawn: nat -> SpawnDraws, y: nat, i0: nat, n0: nat,
                   ghost before: seq<FigurePoint>, ghost beforeNext: seq<Vec>, ghost beforePrev: seq<Vec>)
      returns (i: nat, numberPoints: nat)
      requires ValidOptions(options)
      requires |beforeNext| == |before| && |beforePrev| == |before|
      requires i0 == 4 * (y * width) + 3
      requires n0 == |Scan(data, density, options.pointDensity, width, y, 0)|
      requires Placed(Scan(data, density, options.pointDensity, width, y, 0), before, beforeNext, beforePrev, spawn)
      modifies this`figurePoints, figurePoints`previousPosition, figurePoints`nextPosition
      ensures i == 4 * (y * width + width) + 3
      ensures numberPoints == |Scan(data, density, options.pointDensity, width, y, width)|
      ensures Placed(Scan(data, density, options.pointDensity, width, y, width), before, beforeNext, beforePrev, spawn)
      ensures |figurePoints| >= |old(figurePoints)|
      ensures forall k :: 0 <= k < |old(figurePoints)| ==> figurePoints[k] == old(figurePoints[k])
      ensures forall k :: |old(figurePoints)| <= k < |figurePoints| ==> fresh(figurePoints[k])
    {
      i, numberPoints := i0, n0;
      var pixel := y * width;
      var x := 0;
      while x < width
        invariant x <= width
        invariant pixel == y * width + x && i == 4 * pixel + 3
        invariant numberPoints == |Scan(data, density, options.pointDensity, width, y, x)|
        invariant Placed(Scan(data, density, options.pointDensity, width, y, x), before, beforeNext, beforePrev, spawn)
        invariant |figurePoints| >= |old(figurePoints)|
        invariant forall k :: 0 <= k < |old(figurePoints)| ==> figurePoints[k] == old(figurePoints[k])
        invariant forall k :: |old(figurePoints)| <= k < |figurePoints| ==> fresh(figurePoints[k])
      {
        if i < |data| && data[i] > 127 && density(pixel) < options.pointDensity {
          PlacePoint(numberPoints, Pixel(x, y), Scan(data, density, options.pointDensity, width, y, x),
                     before, beforeNext, beforePrev, spawn);
          numberPoints := numberPoints + 1;
        }
        x := x + 1;
        i := i + 4;
        pixel := pixel + 1;
      }
    }

    /** The `setOffset` loop of `imageDataToFigure` over the points left without a pixel. */
    method RetireSurplus(n: nat)
      requires Distinct(figurePoints)
      modifies figurePoints`previousPosition, figurePoints`nextPosition, figurePoints`offscreen
      ensures forall k :: n <= k < |figurePoints| ==>
                figurePoints[k].offscreen && figurePoints[k].nextPosition == figurePoints[k].offscreenPosition
                && figurePoints[k].previousPosition == old(figurePoints[k].nextPosition)
      ensures forall k :: 0 <= k < |figurePoints| && k < n ==> unchanged(figurePoints[k])
    {
      var i := n;
      while i < |figurePoints|
        invariant n <= i
        invariant forall k :: n <= k < i && k < |figurePoints| ==>
                    figurePoints[k].offscreen && figurePoints[k].nextPosition == figurePoints[k].offscreenPosition
                    && figurePoints[k].previousPosition == old(figurePoints[k].nextPosition)
        invariant forall k :: 0 <= k < |figurePoints| && (k < n || i <= k) ==> unchanged(figurePoints[k])
        decreases |figurePoints| - i
      {
        figurePoints[i].SetOffset();
        i := i + 1;
      }
    }

    /**
     * `imageDataToFigure`: the picked pixels of the image become the targets
     * of the points, in order, and every point beyond them is retired.
     */
    method ImageDataToFigure(data: seq<byte>, density: nat -> Draw, spawn: nat -> SpawnDraws)
      requires ValidOptions(options) && Distinct(figurePoints)
      requires forall k :: 0 <= k < |figurePoints| ==> figurePoints[k].Valid()
      modifies this`figurePoints, figurePoints`previousPosition, figurePoints`nextPosition, figurePoints`offscreen
      ensures var t := Targets(data, density, options.pointDensity, width, height);
              && |figurePoints| == Max(|old(figurePoints)|, |t|)
              && (forall k :: 0 <= k < |old(figurePoints)| ==> figurePoints[k] == old(figurePoints[k]))
              && (forall k :: 0 <= k < |t| ==> figurePoints[k].nextPosition == Position(t[k]))
              && (forall k :: 0 <= k < |old(figurePoints)| ==>
                    figurePoints[k].previousPosition == old(figurePoints[k].nextPosition))
              && (forall k :: 0 <= k < |t| && k < |old(figurePoints)| ==>
                    figurePoints[k].offscreen == old(figurePoints[k].offscreen))
              && (forall k :: |t| <= k < |figurePoints| ==>
                    figurePoints[k].offscreen && figurePoints[k].nextPosition == figurePoints[k].offscreenPosition)
              && (forall k :: |old(figurePoints)| <= k < |figurePoints| ==>
                    fresh(figurePoints[k]) && figurePoints[k].Spawned(Position(t[k]), spawn(k), options, width, height))
              && (forall k :: 0 <= k < |figurePoints| ==> figurePoints[k].Valid())
              && Distinct(figurePoints)
    {
      var numberPoints := ScanImage(data, density, spawn);
      RetireSurplus(numberPoints);
    }

    /**
     * The arrival of the image of the waiting show transition: the figure is
     * built from it and the transition becomes ready. Afterwards exactly
     * the points beyond the picked pixels are offscreen.
     */
    method CompleteImageLoad(data: seq<byte>, density: nat -> Draw, spawn: nat -> SpawnDraws)
      requires Valid()
      requires currentAnimation.Some? && currentAnimation.value.kind.Show? && !currentAnimation.value.ready
      modifies this`figurePoints, this`currentAnimation,
               figurePoints`previousPosition, figurePoints`nextPosition, figurePoints`offscreen
      ensures Valid()
      ensures currentAnimation == Some(old(currentAnimation.value).(ready := true))
      ensures var t := Targets(data, density, options.pointDensity, width, height);
              && |figurePoints| == Max(|old(figurePoints)|, |t|)
              && (forall k :: 0 <= k < |old(figurePoints)| ==> figurePoints[k] == old(figurePoints[k]))
              && (forall k :: 0 <= k < |t| ==> figurePoints[k].nextPosition == Position(t[k]))
              && (forall k :: 0 <= k < |figurePoints| ==> (figurePoints[k].offscreen <==> k >= |t|))
              && (forall k :: 0 <= k < |old(figurePoints)| ==>
                    figurePoints[k].previousPosition == old(figurePoints[k].nextPosition))
              && (forall k :: |t| <= k < |figurePoints| ==>
                    figurePoints[k].nextPosition == figurePoints[k].offscreenPosition)
              && (forall k :: |old(figurePoints)| <= k < |figurePoints| ==>
                    fresh(figurePoints[k]) && figurePoints[k].Spawned(Position(t[k]), spawn(k), options, width, height))
    {
      ImageDataToFigure(data, density, spawn);
      currentAnimation := Some(currentAnimation.value.(ready := true));
    }
  }
}
