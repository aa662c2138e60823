/// The particle field: `Particle` (an anchored square pulled back to its
/// anchor by a spring) and `Effect` (the collection built by one sampling
/// pass over the canvas and advanced or drawn once per frame).
module ParticleEffect {
  import opened Pixels
  import opened Sampler
  import Spring

  /** Grid stride of the sampling pass and edge length of every particle. */
  const Roughness: nat := 3

  /** Span of the random starting x (the canvas width, written as a literal
      in the constructor). */
  const EntranceWidth: real := 640.0

  /** The `fillRect` call a particle issues when drawn. */
  datatype FillRect = FillRect(x: real, y: real, side: nat, fill: Rgb)

  class Particle {
    var x: real
    var y: real
    const originX: int
    const originY: int
    const color: Rgb
    var vx: real
    var vy: real
    /** Edge of the drawn square: the sampling stride, for every particle. */
    const size: nat := Roughness
    /** Restoring gain, the same for every particle. */
    const ease: real := Spring.Ease

    /** `randomX`, `randomVx` and `randomVy` are the three values the
        constructor draws from `Math.random()`, in that order. */
    constructor (x: int, y: int, color: Rgb, randomX: real, randomVx: real, randomVy: real)
      ensures originX == x && originY == y && this.color == color
      ensures size == Roughness && ease == Spring.Ease
      ensures this.x == randomX * EntranceWidth && this.y == 0.0
      ensures vx == randomVx * 2.0 - 1.0 && vy == randomVy * 2.0 - 1.0
      ensures 0.0 <= randomX < 1.0 ==> 0.0 <= this.x < EntranceWidth
      ensures 0.0 <= randomVx < 1.0 ==> -1.0 <= vx < 1.0
      ensures 0.0 <= randomVy < 1.0 ==> -1.0 <= vy < 1.0
    {
      this.x := randomX * EntranceWidth;
      this.y := 0.0;
      originX := x;
      originY := y;
      this.color := color;
      vx := randomVx * 2.0 - 1.0;
      vy := randomVy * 2.0 - 1.0;
    }

    /** The sample this particle was built from: its anchor and colour. */
    function Origin(): Sample
    {
      Sample(originX, originY, color)
    }

    /** The square this particle paints; reading only. */
    method Draw() returns (rect: FillRect)
      ensures rect.x == x && rect.y == y
      ensures rect.side == size && rect.fill == color
    {
      rect := FillRect(x, y, size, color);
    }

    /** One spring step toward the anchor; only the position moves. */
    method Update()
      modifies this
      ensures x == Spring.Approach(old(x), originX as real, ease)
      ensures y == Spring.Approach(old(y), originY as real, ease)
      ensures originX as real - x == (1.0 - ease) * (originX as real - old(x))
      ensures originY as real - y == (1.0 - ease) * (originY as real - old(y))
      ensures vx == old(vx) && vy == old(vy)
    {
      x := x + (originX as real - x) * ease;
      y := y + (originY as real - y) * ease;
      Spring.ApproachContracts(old(x), originX as real, ease);
      Spring.ApproachContracts(old(y), originY as real, ease);
    }
  }

  /** The anchors and colours of `ps`, in order. */
  function OriginsOf(ps: seq<Particle>): seq<Sample>
  {
    seq(|ps|, i requires 0 <= i < |ps| => ps[i].Origin())
  }

  class Effect {
    const width: nat
    const height: nat
    var particles: seq<Particle>
    const pixelStep: nat

    /** The stride is the fixed roughness and no particle is held twice. */
    ghost predicate Valid()
      reads this
    {
      pixelStep == Roughness &&
      forall i, j :: 0 <= i < j < |particles| ==> particles[i] != particles[j]
    }

    constructor (width: nat, height: nat)
      ensures Valid()
      ensures this.width == width && this.height == height
      ensures particles == [] && pixelStep == Roughness
    {
      this.width := width;
      this.height := height;
      particles := [];
      pixelStep := Roughness;
    }

    /** The sampling pass over the canvas buffer `pixels`: rows outer,
        columns inner, stepping by the stride. `random(3k)`,
        `random(3k + 1)` and `random(3k + 2)` are the draws handed to the
        constructor of the `k`th particle this call creates. Appends one
        particle per sample, in scan order, and keeps the particles already
        held. */
    method Init(pixels: seq<Byte>, random: nat -> real)
      requires Valid() && IsCanvasBuffer(pixels, width, height)
      modifies this
      ensures Valid()
      ensures OriginsOf(particles) == OriginsOf(old(particles)) + Sampled(pixels, width, height, pixelStep)
      ensures old(particles) <= particles
      ensures forall i :: |old(particles)| <= i < |particles| ==>
                fresh(particles[i]) && StartsFrom(particles[i], random, i - |old(particles)|)
    {
      ghost var total := OriginsOf(particles) + Sampled(pixels, width, height, pixelStep);
      var before := |particles|;
      var y := 0;
      while y < height
        invariant 0 <= y && before == |old(particles)|
        invariant Valid() && old(particles) <= particles
        invariant StartedFrom(particles, random, before)
        invariant forall i :: before <= i < |particles| ==> fresh(particles[i])
        invariant OriginsOf(particles) + GridSamples(pixels, width, height, pixelStep, y) == total
      {
        ScanEntersRow(pixels, width, height, pixelStep, y, OriginsOf(particles), total);
        SampleRow(pixels, y, random, before);
        y := y + pixelStep;
      }
      assert StartedFrom(particles, random, before);
    }

    /** One row of the scan (the inner loop): visits the grid points
        `0, step, 2 * step, ... < width` of row `y` from left to right and
        appends their particles in that order. */
    method SampleRow(pixels: seq<Byte>, y: int, random: nat -> real, from: nat)
      requires Valid() && IsCanvasBuffer(pixels, width, height) && 0 <= y < height
      requires StartedFrom(particles, random, from)
      modifies this
      ensures Valid() && old(particles) <= particles
      ensures OriginsOf(particles) == OriginsOf(old(particles)) + RowSamples(pixels, width, height, pixelStep, y, 0)
      ensures StartedFrom(particles, random, from)
      ensures forall i :: |old(particles)| <= i < |particles| ==> fresh(particles[i])
    {
      ghost var total := OriginsOf(particles) + RowSamples(pixels, width, height, pixelStep, y, 0);
      var x := 0;
      while x < width
        invariant 0 <= x
        invariant Valid() && old(particles) <= particles
        invariant StartedFrom(particles, random, from)
        invariant forall i :: |old(particles)| <= i < |particles| ==> fresh(particles[i])
        invariant OriginsOf(particles) + RowSamples(pixels, width, height, pixelStep, y, x) == total
      {
        ScanVisitsPixel(pixels, width, height, pixelStep, y, x, OriginsOf(particles), [], total);
        SamplePixel(pixels, x, y, random, from);
        x := x + pixelStep;
      }
      ScanLeavesRow(pixels, width, height, pixelStep, y, x, OriginsOf(particles), [], total);
    }

    /** One grid point of the scan (the body of the inner loop): reads the
        pixel's four bytes at offset `(y * width + x) * 4` and, when its
        alpha is non-zero, appends a new particle anchored at (x, y) with the
        pixel's colour. The particles from index `from` on are those this
        pass has made; the new one is numbered after them. */
    method SamplePixel(pixels: seq<Byte>, x: int, y: int, random: nat -> real, from: nat)
      requires Valid() && IsCanvasBuffer(pixels, width, height)
      requires 0 <= x < width && 0 <= y < height
      requires StartedFrom(particles, random, from)
      modifies this
      ensures Valid() && old(particles) <= particles
      ensures OriginsOf(particles) == OriginsOf(old(particles)) + PixelSamples(pixels, width, height, x, y)
      ensures StartedFrom(particles, random, from)
      ensures forall i :: |old(particles)| <= i < |particles| ==>
                fresh(particles[i]) && StartsFrom(particles[i], random, |old(particles)| - from)
    {
      var made := |particles| - from;
      IndexInBounds(width, height, x, y);
      var index := (y * width + x) * 4;
      var red, green, blue, alpha := pixels[index], pixels[index + 1], pixels[index + 2], pixels[index + 3];
      if alpha > 0 {
        var particle := new Particle(x, y, Rgb(red, green, blue), random(3 * made), random(3 * made + 1), random(3 * made + 2));
        StartedFromAppend(particles, particle, random, from);
        OriginsOfAppend(particles, particle);
        Push(particle);
      }
    }

    /** `particles.push(p)` for a particle not yet held. */
    method Push(p: Particle)
      requires Valid() && p !in particles
      modifies this
      ensures Valid() && particles == old(particles) + [p]
    {
      particles := particles + [p];
    }

    /** Paints every particle, in stored order; changes nothing. */
    method Draw() returns (rects: seq<FillRect>)
      ensures |rects| == |particles|
      ensures forall i :: 0 <= i < |particles| ==>
                rects[i].x == particles[i].x && rects[i].y == particles[i].y &&
                rects[i].side == particles[i].size && rects[i].fill == particles[i].color
    {
      rects := [];
      for i := 0 to |particles|
        invariant |rects| == i
        invariant forall k :: 0 <= k < i ==>
                    rects[k].x == particles[k].x && rects[k].y == particles[k].y &&
                    rects[k].side == particles[k].size && rects[k].fill == particles[k].color
      {
        var rect := particles[i].Draw();
        rects := rects + [rect];
      }
    }

    /** One spring step for every particle; the collection itself, and every
        particle's anchor, colour and velocity, stay as they were. */
    method Update()
      requires Valid()
      modifies set p | p in particles
      ensures Valid() && particles == old(particles)
      ensures forall i :: 0 <= i < |particles| ==>
                particles[i].x == Spring.Approach(old(particles[i].x), particles[i].originX as real, particles[i].ease) &&
                particles[i].y == Spring.Approach(old(particles[i].y), particles[i].originY as real, particles[i].ease) &&
                particles[i].vx == old(particles[i].vx) && particles[i].vy == old(particles[i].vy)
    {
      for i := 0 to |particles|
        invariant forall k :: 0 <= k < i ==>
                    particles[k].x == Spring.Approach(old(particles[k].x), particles[k].originX as real, particles[k].ease) &&
                    particles[k].y == Spring.Approach(old(particles[k].y), particles[k].originY as real, particles[k].ease) &&
                    particles[k].vx == old(particles[k].vx) && particles[k].vy == old(particles[k].vy)
        invariant forall k :: i <= k < |particles| ==>
                    particles[k].x == old(particles[k].x) && particles[k].y == old(particles[k].y) &&
                    particles[k].vx == old(particles[k].vx) && particles[k].vy == old(particles[k].vy)
      {
        particles[i].Update();
      }
    }
  }

  /** One frame of `animate`: paint every particle where it is, then move
      every particle one spring step toward its anchor. */
  method Frame(effect: Effect) returns (rects: seq<FillRect>)
    requires effect.Valid()
    modifies set p | p in effect.particles
    ensures effect.Valid() && effect.particles == old(effect.particles)
    ensures |rects| == |effect.particles|
    ensures forall i :: 0 <= i < |effect.particles| ==>
              var p := effect.particles[i];
              rects[i] == FillRect(old(p.x), old(p.y), Roughness, p.color) &&
              p.x == Spring.Approach(old(p.x), p.originX as real, Spring.Ease) &&
              p.y == Spring.Approach(old(p.y), p.originY as real, Spring.Ease)
  {
    rects := effect.Draw();
    effect.Update();
  }

  /** The start of `onCanvasRender`: an effect for a `width` x `height`
      canvas holding `pixels`, its sampling pass, and the first frame. The
      squares are painted where the particles enter, and after the frame each
      particle has taken one spring step from there toward its anchor. The
      particles are new objects, so the caller may go on playing frames. */
  method Start(width: nat, height: nat, pixels: seq<Byte>, random: nat -> real)
    returns (effect: Effect, rects: seq<FillRect>)
    requires IsCanvasBuffer(pixels, width, height)
    ensures fresh(effect) && effect.Valid()
    ensures forall i :: 0 <= i < |effect.particles| ==> fresh(effect.particles[i])
    ensures effect.width == width && effect.height == height
    ensures OriginsOf(effect.particles) == Sampled(pixels, width, height, Roughness)
    ensures |rects| == |effect.particles|
    ensures forall i :: 0 <= i < |effect.particles| ==>
              var p := effect.particles[i];
              rects[i] == FillRect(random(3 * i) * EntranceWidth, 0.0, Roughness, p.color) &&
              p.x == Spring.Approach(random(3 * i) * EntranceWidth, p.originX as real, Spring.Ease) &&
              p.y == Spring.Approach(0.0, p.originY as real, Spring.Ease)
  {
    effect := new Effect(width, height);
    effect.Init(pixels, random);
    ghost var ps := effect.particles;
    forall i | 0 <= i < |ps|
      ensures ps[i].x == random(3 * i) * EntranceWidth && ps[i].y == 0.0
    {
      assert StartsFrom(ps[i], random, i);
    }
    rects := Frame(effect);
  }

  /** `onCanvasRender` playing `frames` frames: after them every particle
      stands where `frames` spring steps from its entry point take it. */
  method Run(width: nat, height: nat, pixels: seq<Byte>, random: nat -> real, frames: nat)
    returns (effect: Effect)
    requires IsCanvasBuffer(pixels, width, height)
    ensures fresh(effect) && effect.Valid()
    ensures forall i :: 0 <= i < |effect.particles| ==> fresh(effect.particles[i])
    ensures effect.width == width && effect.height == height
    ensures OriginsOf(effect.particles) == Sampled(pixels, width, height, Roughness)
    ensures forall i :: 0 <= i < |effect.particles| ==>
              var p := effect.particles[i];
              p.x == Spring.ApproachFrames(random(3 * i) * EntranceWidth, p.originX as real, Spring.Ease, frames) &&
              p.y == Spring.ApproachFrames(0.0, p.originY as real, Spring.Ease, frames)
  {
    effect := new Effect(width, height);
    effect.Init(pixels, random);
    ghost var ps := effect.particles;
    forall i | 0 <= i < |ps|
      ensures ps[i].x == random(3 * i) * EntranceWidth && ps[i].y == 0.0
    {
      assert StartsFrom(ps[i], random, i);
    }
    var played := 0;
    while played < frames
      invariant played <= frames
      invariant effect.Valid() && effect.particles == ps
      invariant forall i :: 0 <= i < |ps| ==> fresh(ps[i])
      invariant forall i :: 0 <= i < |ps| ==>
                  ps[i].x == Spring.ApproachFrames(random(3 * i) * EntranceWidth, ps[i].originX as real, Spring.Ease, played) &&
                  ps[i].y == Spring.ApproachFrames(0.0, ps[i].originY as real, Spring.Ease, played)
    {
      var _ := Frame(effect);
      played := played + 1;
    }
  }

  /** The state a particle starts in when it is the `k`th one a sampling
      pass creates, drawing from `random`. */
  ghost predicate StartsFrom(p: Particle, random: nat -> real, k: int)
    reads p
  {
    k >= 0 &&
    p.x == random(3 * k) * EntranceWidth && p.y == 0.0 &&
    p.vx == random(3 * k + 1) * 2.0 - 1.0 && p.vy == random(3 * k + 2) * 2.0 - 1.0
  }

  /** Every particle from index `from` on starts from the draws numbered by
      its position after `from`. */
  ghost predicate StartedFrom(ps: seq<Particle>, random: nat -> real, from: nat)
    reads set i | 0 <= i < |ps| :: ps[i]
  {
    from <= |ps| && forall i :: from <= i < |ps| ==> StartsFrom(ps[i], random, i - from)
  }

  lemma StartedFromAppend(ps: seq<Particle>, p: Particle, random: nat -> real, from: nat)
    requires StartedFrom(ps, random, from) && StartsFrom(p, random, |ps| - from)
    ensures StartedFrom(ps + [p], random, from)
  {
    assert forall i :: 0 <= i < |ps| ==> (ps + [p])[i] == ps[i];
  }

  lemma OriginsOfAppend(ps: seq<Particle>, p: Particle)
    ensures OriginsOf(ps + [p]) == OriginsOf(ps) + [p.Origin()]
  {
  }

  /** What a sampling pass over an empty effect leaves in `particles`: each
      particle is anchored at an opaque grid point inside the canvas and
      coloured like that pixel, the anchors strictly increase in row-major
      order, and there are at most ceil(width / 3) * ceil(height / 3). */
  lemma ScannedParticles(ps: seq<Particle>, pixels: seq<Byte>, width: nat, height: nat)
    requires IsCanvasBuffer(pixels, width, height)
    requires OriginsOf(ps) == Sampled(pixels, width, height, Roughness)
    ensures forall i :: 0 <= i < |ps| ==>
              0 <= ps[i].originX < width && 0 <= ps[i].originY < height &&
              ps[i].originX % Roughness == 0 && ps[i].originY % Roughness == 0 &&
              Alpha(pixels, width, height, ps[i].originX, ps[i].originY) > 0 &&
              ps[i].color == ColorAt(pixels, width, height, ps[i].originX, ps[i].originY)
    ensures forall i, j :: 0 <= i < j < |ps| ==>
              ps[i].originY < ps[j].originY ||
              (ps[i].originY == ps[j].originY && ps[i].originX < ps[j].originX)
    ensures |ps| <= ((width + Roughness - 1) / Roughness) * ((height + Roughness - 1) / Roughness)
  {
    var s := Sampled(pixels, width, height, Roughness);
    SampledSound(pixels, width, height, Roughness);
    SampledRowMajor(pixels, width, height, Roughness);
    SampledCount(pixels, width, height, Roughness);
    assert forall i :: 0 <= i < |ps| ==> s[i] == ps[i].Origin();
  }
}
