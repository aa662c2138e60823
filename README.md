# Image particle effect — a Dafny model

This project models the simulation core of the canvas particle effect in
`src/ParticleEffect/ParticleEffect.tsx`. The core has two classes.

- `Effect.init` takes the RGBA bytes of the canvas and scans them on a grid of
  stride `ROUGHNESS` (3), rows outer and columns inner. Every grid point whose
  alpha byte is non-zero becomes a `Particle`. The particle is anchored at
  that point and coloured with the pixel's red, green and blue bytes.
- `Particle.update` moves the particle's position a fixed fraction `ease`
  (0.05) of the way back to its anchor.
- `Particle.draw` paints a `size` × `size` square at the current position.
- `Effect.update` and `Effect.draw` apply these to every particle, in order.

The model is split into four modules.

- `Pixels` (`pixels.dfy`) covers the RGBA buffer layout: the byte offset
  `(y * width + x) * 4` and the alpha and colour read there.
- `Sampler` (`sampler.dfy`) is a pure definition of the sequence of samples
  the scan produces. It comes with lemmas about that sequence:
  - soundness and completeness;
  - strict row-major order;
  - a count bound.
- `Spring` (`spring.dfy`) is the spring step over exact reals. It comes with
  lemmas for its closed form after `n` frames, for never overshooting the
  anchor, and for coming within any given distance of the anchor after
  enough frames.
- `ParticleEffect` (`particle_effect.dfy`) holds the two classes.
  - `Particle` has `const` anchor, colour, size and ease, and `var` position
    and velocity.
  - `Effect` has its `particles` array as a `seq<Particle>` field.
  - `Effect.Init` is the nested scan loop. It is proved to append exactly the
    particles the `Sampler` definition describes.
  - `Effect.SampleRow` is the inner loop, `Effect.SamplePixel` its body, and
    `Effect.Push` is `particles.push`.
  - `Frame` is one pass of `animate`: draw, then update. `Start` is the
    beginning of `onCanvasRender`: it builds the effect, runs the sampling
    pass and plays one frame. `Run` plays a given number of frames.

Random draws are passed in, and drawing returns the `fillRect` commands.

- `Particle`'s constructor receives its three `Math.random()` results as
  parameters.
- `Effect.Init` receives a stream `random: nat -> real`. The `k`th particle a
  pass creates uses draws `3k`, `3k + 1` and `3k + 2`.
- `draw` returns the `fillRect` commands it would issue, as `FillRect` values.

Two details of the code that the model keeps as written:

- A new particle starts at `y = 0` with `x = random · 640`. 640 is the canvas
  element's width written as a literal, not read from `width`.
- `update` applies only the spring term, with `ease = 0.05`.

## Model

| member | source | states |
|---|---|---|
| Pixels.IndexInBounds | src/ParticleEffect/ParticleEffect.tsx:68-72 | for a point inside a `width` × `height` canvas, the offset `(y * width + x) * 4` and the three bytes after it all lie inside the `width * height * 4` byte buffer, so the four reads never fall outside the image data |
| Sampler.SampledSound | src/ParticleEffect/ParticleEffect.tsx:66-77 | every sample the scan yields is at a point inside the canvas whose coordinates are multiples of the stride. Its alpha byte is non-zero, and its colour is the bytes at `index`, `index + 1` and `index + 2` |
| Sampler.SampledIffOpaque | src/ParticleEffect/ParticleEffect.tsx:66-77 | a grid point inside the canvas yields a sample if and only if its alpha byte is greater than 0. When it does, the sample carries that pixel's colour |
| Sampler.SampledRowMajor | src/ParticleEffect/ParticleEffect.tsx:66-79 | the samples come out strictly increasing in row-major order: by row, then by column within a row. So no grid point is visited twice |
| Sampler.SampledCount | src/ParticleEffect/ParticleEffect.tsx:66-79 | the scan yields at most `ceil(width / step) * ceil(height / step)` samples |
| Sampler.GridPointsIsCeiling | src/ParticleEffect/ParticleEffect.tsx:67 | the loop `for (x = lo; x < hi; x += step)` visits `ceil((hi - lo) / step)` values |
| Spring.ApproachFramesOffset | src/ParticleEffect/ParticleEffect.tsx:37-40 | after `n` updates, the offset from the anchor is `(1 - ease)^n` times the initial offset |
| Spring.ApproachFramesNoOvershoot | src/ParticleEffect/ParticleEffect.tsx:37-40 | for `0 < ease < 1`, any number of updates keeps a coordinate on the same side of its anchor and no farther from it (no overshoot). With at least one update, an off-anchor coordinate ends strictly closer |
| Spring.ApproachFramesWithin | src/ParticleEffect/ParticleEffect.tsx:37-40 | for `0 < ease < 1` and any `eps > 0`, once `n * ease * eps` reaches the initial distance to the anchor, after `n` updates the distance is below `eps`. So the offset tends to 0 |
| ParticleEffect.Particle.constructor | src/ParticleEffect/ParticleEffect.tsx:18-30 | the anchor is the sampled point and the colour is the sampled colour. Size is `ROUGHNESS` and ease is 0.05. The position is `(random · 640, 0)` and each velocity component is `random · 2 - 1`, which lies in `[-1, 1)` for a draw in `[0, 1)` |
| ParticleEffect.Particle.Draw | src/ParticleEffect/ParticleEffect.tsx:32-35 | the square painted is at the particle's current position, with side `size` and the particle's colour. Nothing is modified |
| ParticleEffect.Particle.Update | src/ParticleEffect/ParticleEffect.tsx:37-40 | x and y each take one spring step toward the anchor, so the offset from the anchor shrinks by the factor `1 - ease`. Velocity is unchanged, and anchor, colour, size and ease are immutable |
| ParticleEffect.Effect.constructor | src/ParticleEffect/ParticleEffect.tsx:51-57 | a new effect has the given canvas size, no particles and stride `ROUGHNESS` |
| ParticleEffect.Effect.Init | src/ParticleEffect/ParticleEffect.tsx:59-79 | the particles already held are kept as a prefix. The new particles' anchors and colours are exactly the sequence `Sampler.Sampled` defines, in scan order. Each new particle is freshly allocated, and the `k`th one starts from draws `3k`, `3k + 1` and `3k + 2`. No particle is held twice |
| ParticleEffect.Effect.SampleRow | src/ParticleEffect/ParticleEffect.tsx:67-78 | one row of the scan appends exactly the samples of row `y`, from left to right, as freshly allocated particles. It keeps the earlier particles and the numbering of the random draws |
| ParticleEffect.Effect.SamplePixel | src/ParticleEffect/ParticleEffect.tsx:68-77 | one grid point appends one freshly allocated particle when its alpha is non-zero, and nothing otherwise. The particle is anchored there with the pixel's colour and starts from the three random draws numbered by how many particles this pass made before it |
| ParticleEffect.Effect.Push | src/ParticleEffect/ParticleEffect.tsx:76 | the particle is appended at the end and nothing else in the array changes |
| ParticleEffect.Effect.Draw | src/ParticleEffect/ParticleEffect.tsx:90-92 | one square per particle, in stored order, each at that particle's position with its size and colour. The effect is not modified |
| ParticleEffect.Effect.Update | src/ParticleEffect/ParticleEffect.tsx:94-96 | every particle takes exactly one spring step. The array's length, order and members, and every particle's anchor, colour and velocity, are unchanged |
| ParticleEffect.Frame | src/ParticleEffect/ParticleEffect.tsx:114-117 | one square per particle, each where the particle stood before the frame, with side `ROUGHNESS` and its colour. Then every particle takes one spring step, and the particle array is unchanged |
| ParticleEffect.Start | src/ParticleEffect/ParticleEffect.tsx:112-117 | a new effect for the canvas, after its sampling pass and one frame, holds exactly the sampled particles, all newly allocated. The frame paints the `k`th particle as a `ROUGHNESS`-sided square in its colour at its entry point `(random(3k) · 640, 0)`. Then the particle moves one spring step from there toward its anchor |
| ParticleEffect.Run | src/ParticleEffect/ParticleEffect.tsx:108-123 | after the sampling pass and `frames` frames, the effect holds exactly the sampled particles, all newly allocated. The `k`th particle stands at `frames` spring steps from its entry point `(random(3k) · 640, 0)` toward its anchor |
| ParticleEffect.ScannedParticles | src/ParticleEffect/ParticleEffect.tsx:59-79 | after a pass over an empty effect, every particle is anchored at an opaque stride-grid point inside the canvas and coloured like that pixel. Anchors strictly increase in row-major order, and there are at most `ceil(width / 3) * ceil(height / 3)` particles |

## Left out

- The React component `Particles`, its `mountedRef` guard and the JSX canvas element: presentation, outside the core.
- `loadImage`: asynchronous image loading, which is I/O.
- The `requestAnimationFrame` scheduling in `animate` and its `clearRect`: `Run` plays a given finite number of frames back to back. The endless repetition and the clearing of the canvas between frames are scheduling and I/O.
- The image centring, `drawImage` and `getImageData` at the start of `init`: `Effect.Init` takes the resulting canvas-sized RGBA buffer as a parameter. The `img` field is therefore not modelled.
- `Math.random()`: supplied as parameters, as a stream of draws to `Effect.Init` and as three values to the `Particle` constructor.
- Floating-point rounding: positions, velocities and `ease` are exact reals, so the spring step is the exact affine map.
- The colour string `rgb(r, g, b)`: modelled as the byte triple `Rgb` it is formatted from.
