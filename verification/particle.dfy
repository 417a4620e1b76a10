/**
 * The particles of the engine (`FigurePoint`): each one waits at an anchor
 * outside the element, morphs between a previous and a next position and
 * trembles around it.
 *
 * Every `Math.random()` draw is an explicit input of type Draw. The
 * pointer-force part of `update` is not part of this model.
 */
module Particle {
  import opened Geometry

  /** The engine options the particles read. */
  datatype Options = Options(
    pointDensity: real,
    minParticleRadius: real, maxParticleRadius: real,
    minParticleOpacity: real, maxParticleOpacity: real,
    minTrembleOffset: real, maxTrembleOffset: real,
    minTrembleDuration: real, maxTrembleDuration: real)

  /** The option values the engine starts with. */
  const DefaultOptions: Options :=
    Options(0.0075, 1.0, 3.0, 0.15, 0.85, 10.0, 20.0, 250.0, 750.0)

  /** The default options meet the engine's requirements, with ordered tremble durations. */
  lemma DefaultOptionsValid()
    ensures ValidOptions(DefaultOptions)
    ensures DefaultOptions.minTrembleDuration <= DefaultOptions.maxTrembleDuration
  {
  }

  /** Both tremble durations are positive, so every drawn duration is too. */
  predicate ValidOptions(o: Options) {
    o.minTrembleDuration > 0.0 && o.maxTrembleDuration > 0.0
  }

  /** A `Math.random()` result. */
  type Draw = r: real | 0.0 <= r < 1.0

  /** The draws the constructor makes, in the order it makes them. */
  datatype SpawnDraws = SpawnDraws(radius: Draw, opacity: Draw, side: Draw, anchorX: Draw, anchorY: Draw,
                                   trembleDuration: Draw)

  /** The two draws of a tremble resampling. */
  datatype TrembleDraws = TrembleDraws(x: Draw, y: Draw)

  /** `Math.random() * span`: a value from 0 towards span, never reaching it. */
  function Spread(r: Draw, span: real): (v: real)
    ensures span >= 0.0 ==> 0.0 <= v <= span
    ensures span > 0.0 ==> v < span
    ensures span <= 0.0 ==> span <= v <= 0.0
  {
    if span > 0.0 then
      SpreadUp(r, span);
      r * span
    else
      SpreadDown(r, span);
      r * span
  }

  lemma SpreadUp(r: real, span: real)
    requires 0.0 <= r < 1.0 && span >= 0.0
    ensures 0.0 <= r * span <= span
    ensures span > 0.0 ==> r * span < span
  {
  }

  lemma SpreadDown(r: real, span: real)
    requires 0.0 <= r < 1.0 && span <= 0.0
    ensures span <= r * span <= 0.0
  {
  }

  /** `Math.random() * (hi - lo) + lo`: a value between the two bounds. */
  function Scale(r: Draw, lo: real, hi: real): (v: real)
    ensures Between(v, lo, hi)
    ensures lo < hi ==> v < hi
  {
    Spread(r, hi - lo) + lo
  }

  /** `Math.floor(Math.random() * 4)`: which side of the element the anchor is on. */
  function Side(r: Draw): (k: nat)
    ensures k < 4
  {
    (r * 4.0).Floor
  }

  /**
   * The off-screen anchor: 20 to 100 units above (side 0), right of (1),
   * below (2) or left of (3) the element, spread along that side with a
   * margin of 100.
   */
  function OffscreenAnchor(side: Draw, a: Draw, b: Draw, elW: nat, elH: nat): (v: Vec)
    ensures -100.0 <= v.x < elW as real + 100.0 && -100.0 <= v.y < elH as real + 100.0
    ensures Side(side) == 0 ==> v.y <= -20.0
    ensures Side(side) == 1 ==> v.x >= elW as real + 20.0
    ensures Side(side) == 2 ==> v.y >= elH as real + 20.0
    ensures Side(side) == 3 ==> v.x <= -20.0
  {
    var w, h := elW as real, elH as real;
    match Side(side)
    case 0 => Vec(Spread(a, w + 200.0) - 100.0, b * -80.0 - 20.0)
    case 1 => Vec(w + (a * 80.0 + 20.0), Spread(b, h + 200.0) - 100.0)
    case 2 => Vec(Spread(a, w + 200.0) - 100.0, h + (b * 80.0 + 20.0))
    case 3 => Vec(a * -80.0 - 20.0, Spread(b, h + 200.0) - 100.0)
  }

  /** Every anchor lies outside the element by a margin of at least 20. */
  lemma AnchorOffscreen(side: Draw, a: Draw, b: Draw, elW: nat, elH: nat)
    ensures var v := OffscreenAnchor(side, a, b, elW, elH);
            v.x <= -20.0 || v.x >= elW as real + 20.0 || v.y <= -20.0 || v.y >= elH as real + 20.0
  {
    var k := Side(side);
    assert k == 0 || k == 1 || k == 2 || k == 3;
  }

  /**
   * A new tremble target: x is `Math.random() * (max - min) - min`, y is
   * `Math.random() * 20 - 10`.
   */
  function ResampledOffset(d: TrembleDraws, o: Options): (v: Vec)
    ensures Between(v.x, -o.minTrembleOffset, o.maxTrembleOffset - 2.0 * o.minTrembleOffset)
    ensures -10.0 <= v.y < 10.0
  {
    Vec(Spread(d.x, o.maxTrembleOffset - o.minTrembleOffset) - o.minTrembleOffset, d.y * 20.0 - 10.0)
  }

  /** The morph of `update`: the interpolation for factor below 1, the target from 1 on. */
  function Morph(previous: Vec, next: Vec, factor: real): (v: Vec)
    ensures factor >= 1.0 ==> v == next
    ensures factor == 0.0 ==> v == previous
    ensures 0.0 <= factor <= 1.0 ==> Between(v.x, previous.x, next.x) && Between(v.y, previous.y, next.y)
  {
    if 0.0 <= factor < 1.0 then
      LerpBetween(previous, next, factor);
      Lerp(previous, next, factor)
    else if factor < 1.0 then
      Lerp(previous, next, factor)
    else next
  }

  class FigurePoint {
    const radius: real
    const opacity: real
    const offscreenPosition: Vec
    const trembleDuration: real
    var offscreen: bool
    var position: Vec
    var previousPosition: Vec
    var nextPosition: Vec
    var previousTrembleOffset: Vec
    var nextTrembleOffset: Vec
    var mouseOffset: Vec
    var trembleClock: real

    /** The tremble duration is positive, so the tremble time factor is defined. */
    predicate Valid() {
      trembleDuration > 0.0
    }

    /** Whether `update` with this tremble clock starts a new tremble cycle. */
    predicate Resets(clock: real) {
      trembleDuration <= clock
    }

    /**
     * The state the constructor leaves: a point at its off-screen anchor,
     * heading for target, with no tremble or pointer offset yet.
     */
    predicate Spawned(target: Vec, d: SpawnDraws, o: Options, elW: nat, elH: nat)
      reads this
    {
      && radius == Scale(d.radius, o.minParticleRadius, o.maxParticleRadius)
      && opacity == Scale(d.opacity, o.minParticleOpacity, o.maxParticleOpacity)
      && !offscreen
      && offscreenPosition == OffscreenAnchor(d.side, d.anchorX, d.anchorY, elW, elH)
      && position == offscreenPosition && previousPosition == offscreenPosition
      && nextPosition == target
      && previousTrembleOffset == Vec(0.0, 0.0) && nextTrembleOffset == Vec(0.0, 0.0)
      && mouseOffset == Vec(0.0, 0.0)
      && trembleDuration == Scale(d.trembleDuration, o.minTrembleDuration, o.maxTrembleDuration)
      && trembleClock == o.maxTrembleDuration
    }

    /**
     * A new point for target. Its tremble clock starts at the largest
     * duration, so with ordered duration options the first update starts a
     * tremble cycle.
     */
    constructor (target: Vec, d: SpawnDraws, o: Options, elW: nat, elH: nat)
      requires ValidOptions(o)
      ensures Valid() && Spawned(target, d, o, elW, elH)
      ensures o.minTrembleDuration <= o.maxTrembleDuration ==> Resets(trembleClock)
    {
      radius := Scale(d.radius, o.minParticleRadius, o.maxParticleRadius);
      opacity := Scale(d.opacity, o.minParticleOpacity, o.maxParticleOpacity);
      offscreen := false;
      var anchor := OffscreenAnchor(d.side, d.anchorX, d.anchorY, elW, elH);
      offscreenPosition := anchor;
      position := anchor;
      previousPosition := anchor;
      nextPosition := target;
      previousTrembleOffset := Vec(0.0, 0.0);
      nextTrembleOffset := Vec(0.0, 0.0);
      mouseOffset := Vec(0.0, 0.0);
      trembleDuration := Scale(d.trembleDuration, o.minTrembleDuration, o.maxTrembleDuration);
      trembleClock := o.maxTrembleDuration;
    }

    /** `setPosition`: the old target becomes the start of the next morph. */
    method SetPosition(p: Vec)
      modifies this`previousPosition, this`nextPosition
      ensures previousPosition == old(nextPosition) && nextPosition == p
    {
      previousPosition := nextPosition;
      nextPosition := p;
    }

    /** `setOffset`: the point heads back to its anchor and is marked for removal. */
    method SetOffset()
      modifies this`previousPosition, this`nextPosition, this`offscreen
      ensures previousPosition == old(nextPosition) && nextPosition == offscreenPosition
      ensures offscreen
    {
      previousPosition := nextPosition;
      nextPosition := offscreenPosition;
      offscreen := true;
    }

    /**
     * The morph and tremble part of `update`: position becomes the morph
     * plus the tremble offset interpolated by the tremble clock, which
     * restarts from 0 (with a new tremble target) once it has reached the
     * tremble duration.
     */
    method Update(factor: real, deltaTime: real, d: TrembleDraws, o: Options)
      requires Valid()
      modifies this`position, this`trembleClock, this`previousTrembleOffset, this`nextTrembleOffset
      ensures old(Resets(trembleClock)) ==>
                && trembleClock == deltaTime
                && previousTrembleOffset == old(nextTrembleOffset)
                && nextTrembleOffset == ResampledOffset(d, o)
      ensures !old(Resets(trembleClock)) ==>
                && trembleClock == old(trembleClock) + deltaTime
                && previousTrembleOffset == old(previousTrembleOffset)
                && nextTrembleOffset == old(nextTrembleOffset)
      ensures position == Add(Morph(previousPosition, nextPosition, factor),
                              Lerp(previousTrembleOffset, nextTrembleOffset, trembleClock / trembleDuration))
    {
      // the morph between the two positions
      var morphed := if factor < 1.0 then Lerp(previousPosition, nextPosition, factor) else nextPosition;
      position := morphed;

      // the tremble cycle, restarted with a new target once it is over
      if trembleDuration <= trembleClock {
        trembleClock := 0.0;
        previousTrembleOffset := nextTrembleOffset;
        var trembleOffsetDelta := o.maxTrembleOffset - o.minTrembleOffset;
        nextTrembleOffset := Vec(Spread(d.x, trembleOffsetDelta) - o.minTrembleOffset, d.y * 20.0 - 10.0);
      }
      trembleClock := trembleClock + deltaTime;
      var timeFactor := trembleClock / trembleDuration;
      var trembleOffset := Lerp(previousTrembleOffset, nextTrembleOffset, timeFactor);
      position := Vec(position.x + trembleOffset.x, position.y + trembleOffset.y);
    }
  }

  /**
   * Within a tremble cycle the tremble offset stays between the two
   * tremble targets, and a new cycle starts exactly where the last target was.
   */
  lemma TrembleOffsetBetween(previous: Vec, next: Vec, clock: real, duration: real)
    requires duration > 0.0 && 0.0 <= clock <= duration
    ensures var v := Lerp(previous, next, clock / duration);
            Between(v.x, previous.x, next.x) && Between(v.y, previous.y, next.y)
    ensures clock == 0.0 ==> Lerp(previous, next, clock / duration) == previous
  {
    LerpBetween(previous, next, clock / duration);
  }
}
