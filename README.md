# ClothObject, host side, in Dafny

A model of the host half of the WebGPU cloth simulation `ClothObject`. It
covers the following:

- how the object turns a `ClothParameters` value into derived counts, buffer
  sizes and the uniform mirror;
- the device objects it creates;
- how it lays out the initial particle grid;
- how it swaps the two particle buffers between input and output every frame;
- the two compute passes it records;
- the order in which it releases everything.

The graphics device is abstract:

- Every device object is a `Handle` (`Null`, `Live(id)` or `Released(id)`),
  and its id comes from a counter.
- Every device call is a `Command` appended to the object's `trace`.
- Functions in module `Gpu` read a trace back: the live ids, a buffer's
  creation size, a bind group's entries, the latest submission, and which
  buffers received particle data.

The files:

- `ClothTypes.dfy` (ClothObject.h, pure) holds the following:
  - the padded structure layouts and their byte sizes;
  - `ClothParameters` with its defaults;
  - `ClothUniforms`;
  - the derived constants.
- `Gpu.dfy` is the abstract device: handles, commands and the trace readers.
- `ClothObject.dfy` (ClothObject.cpp, imperative) holds the following:
  - the `ClothObject` class, whose methods follow the member functions one by
    one. Its fields correspond to the source's: two-slot `array`s for
    `particleBuffers` and `m_bindGroupLayouts`, handle fields for the other
    device objects, and `frame`, `currentT`, `uniforms` and the derived
    counts;
  - the command blocks each method issues;
  - the specification functions for the grid, the C `%` and `fmod`, the sphere
    oscillator, and the lemmas about them.
- `Scenarios.dfy` drives an object the way the application does:
  `initiateNewCloth`, then `processFrame` `n` times, then `terminateAll`. It
  proves what a whole run binds, uploads and leaks.

Every state-changing method states its new state. This includes the exact
commands it appends to the trace (`trace == old(trace) + ...`) and the
resulting live ids. The lemmas next to the command blocks turn that into
observable facts:

- every bind-group entry fits the buffer it names;
- buffer `frame % 2` is the physics input and the other buffer is the output;
- only particle buffer 0 is ever seeded;
- after `n` frames and `terminateAll`, ids `first+6`, `first+7` and `first+9`
  are still alive, together with `2n` bind groups.

The object keeps one invariant of the device, `CounterAhead`: every object
alive on the device has an id below the counter. Every method other than
`Emit` requires and preserves it. So the id the counter hands out next was not
alive before, and neither is any later one.

Three methods exist only to keep proofs small, and each groups consecutive
lines of one source function:

- `Cloth.ClothObject.CreateDeviceObjects` holds the four creation calls at the
  top of `initiateNewCloth` (ClothObject.cpp:29-32).
- `Cloth.ClothObject.UploadInitialData` holds the two uploads at its end
  (ClothObject.cpp:34-35).
- `Cloth.ClothObject.TerminateParticleBuffers` holds the loop at the top of
  `terminateBuffers` (ClothObject.cpp:320-323).

## Model

| member | source | states |
|---|---|---|
| ClothTypes.PaddedPairLayout | ClothObject.h:37-52 | a vec3, float, vec3, float structure takes 32 bytes, and both vec3 members sit at 16-byte-aligned offsets |
| ClothTypes.SizeOfClothParticle | ClothObject.h:46-52 | `sizeof(ClothParticle)` is 32, and the layout is compatible with the shader's alignment |
| ClothTypes.SizeOfClothVertex | ClothObject.h:37-43 | `sizeof(ClothVertex)` is 32, and the layout is compatible with the shader's alignment |
| ClothTypes.UniformsLayoutFacts | ClothObject.h:77-102 | sixteen scalars, a vec3 and a pad take 80 bytes, and `wind_dir` starts on a 16-byte boundary |
| ClothTypes.SizeOfClothUniforms | ClothObject.h:77-102 | `sizeof(ClothUniforms)` is 80 (twenty floats), and the layout is compatible with the shader's alignment |
| ClothTypes.LayoutBytesAppend | ClothObject.h:77-102 | a structure's size is additive over concatenated field lists |
| ClothTypes.NumParticlesBounds | ClothObject.cpp:52 | for a grid of at least 1 by 1, `numParticles` is at least the width, at least the height, and never zero |
| ClothTypes.NumVerticesFacts | ClothObject.cpp:54 | `numVertices` is six per grid cell: a non-negative multiple of 6, zero exactly when the grid is one particle wide or high, and below `6 * numParticles` |
| ClothTypes.MassSharedEqually | ClothObject.cpp:55-56 | `numParticles` particles of `particleMass` weigh `totalMass` together |
| ClothTypes.DistanceSpansScale | ClothObject.cpp:57 | `height` rest distances span `scale` |
| ClothTypes.DefaultDerived | ClothObject.h:105-113 | the default parameters are valid and give 10000 particles, 58806 vertices, total mass 100, particle mass 0.01 and rest distance 0.01 |
| Cloth.CRem | ClothObject.cpp:217 | C++ `%`, which truncates toward zero: the remainder differs from the dividend by a multiple of the divisor, is smaller in magnitude than the divisor, and is non-negative for a non-negative dividend and non-positive for a negative one |
| Cloth.InputSlot | ClothObject.cpp:217 | for a non-negative frame, the input index `frame % 2` lies in {0, 1} |
| Cloth.OutputSlot | ClothObject.cpp:223 | for a non-negative frame, the output index `1 - frame % 2` lies in {0, 1}, differs from the input index and equals `(frame + 1) % 2` |
| Cloth.SlotsAlternate | ClothObject.cpp:216-225 | consecutive frames swap roles: each frame's output slot is the next frame's input slot, and the other way round |
| Cloth.NegativeFrameLeavesBufferArray | ClothObject.cpp:217-223 | the frame counter must be non-negative: at frame -1 the slots would be -1 and 2, both outside the two-element array |
| Cloth.BufferBlockSizes | ClothObject.cpp:99-117 | after initBuffers' four creations, both particle buffers hold `numParticles * 32` bytes, the vertex buffer `numVertices * 32` and the uniform buffer 80 |
| Cloth.BindGroupsMatchLayouts | ClothObject.cpp:123-239 | each bind group has as many entries as its layout, with the same binding numbers, and the uniform entry meets the layout's minimum binding size |
| Cloth.FrameEffects | ClothObject.cpp:38-47 | a frame creates no buffer and uploads no particle data; afterwards the latest submission is the frame's two passes, and the two new bind groups hold the compute and vertex entries |
| Cloth.FrameBindings | ClothObject.cpp:258-275 | both passes read the uniforms at (0,0), the input at (0,1), the output at (0,2) and the vertices at (1,0); when every bound buffer has the size its entry spans, every binding fits its buffer |
| Cloth.SetupEffects | ClothObject.cpp:27-36 | after initiateNewCloth's commands, every buffer has its count-derived size, bind group 0 binds buffer 0 as input and buffer 1 as output, nothing has been submitted, and only buffer 0 has received particle data |
| Cloth.GridParticlesLength | ClothObject.cpp:84-92 | the fill holds exactly `width * height` particles |
| Cloth.GridParticlesAt | ClothObject.cpp:84-92 | entry `x * height + y` of the fill is the particle at `(x * dist, y * dist, 0)` with zero velocity |
| Cloth.GridParticlesIndex | ClothObject.cpp:84-92 | conversely, every entry `k` is grid point `(k / height, k % height)` with `k / height < width`, so no other particle appears |
| Cloth.BuildParticleData | ClothObject.cpp:83-92 | the nested loops (`x` outer, `y` inner) build exactly the grid fill |
| Cloth.FMod | ClothObject.cpp:165 | `fmod` with truncated quotient; for a non-negative dividend and positive divisor the result lies in [0, divisor) |
| Cloth.SpherePhase | ClothObject.cpp:165-167 | for a non-negative time and positive period, the phase lies in [-1, 1) |
| Cloth.SphereZ | ClothObject.cpp:168-170 | for a non-negative time, positive period and non-negative range, the sphere stays in [-range, range] |
| Cloth.SphereZOfPhase | ClothObject.cpp:168-170 | sphereZ is `range * (-1 - 2 phase)` for a negative phase and `range * (2 phase - 1)` otherwise |
| Cloth.SphereZFirstCycle | ClothObject.cpp:165-170 | over the first two periods the sphere moves linearly from `range` to `-range` and back: a triangle wave |
| Cloth.SphereZPeriodic | ClothObject.cpp:165-170 | the sphere's position repeats every two periods |
| Cloth.SphereZDefaultSamples | ClothObject.h:71-72 | with the defaults (period 150, range 2) the sphere is at 2, 0, -2, 0 and 2 at times 0, 75, 150, 225 and 300 |
| Cloth.ClothObject.constructor | ClothObject.h:17-118 | a new object has both handle arrays null, every other handle null, `m_bufferSize` 0, the default parameters, zeroed uniforms, 10000 particles, 58806 vertices, frame 0, time 0, an empty trace and a counter ahead of every live id |
| Cloth.ClothObject.UpdateParameters | ClothObject.cpp:49-80 | after the call, `numParticles == width * height`, `m_bufferSize == numParticles * 32`, `numVertices == 6 (width-1)(height-1)` and frame and time are 0; the uniforms get the parameter-derived fields and the sphere at (0, 0, -5), while the spring strengths and the wind keep their old values |
| Cloth.ClothObject.InitBuffers | ClothObject.cpp:97-118 | creates two distinct particle buffers of `numParticles * 32` bytes, a vertex buffer of `numVertices * 32` and a uniform buffer of 80, with the source's usages, on the next four ids of the counter; none of them was alive before, and the counter stays ahead of every live id |
| Cloth.ClothObject.FillBuffer | ClothObject.cpp:82-95 | uploads exactly the grid fill into particle buffer 0, and nowhere else, with a byte count equal to the fill's size |
| Cloth.ClothObject.InitBindGroupLayout | ClothObject.cpp:120-158 | creates layout 0 (uniform of at least 80 bytes, read-only input, writable output) and layout 1 (writable vertices), on two ids that were not alive before |
| Cloth.ClothObject.InitComputePipeline | ClothObject.cpp:176-204 | loads `compute.wgsl`, builds one pipeline layout over both layouts and, on it, the `main` and `particle_to_vertex` pipelines, on four ids that were not alive before; the shader-module member is left untouched |
| Cloth.ClothObject.InitBindGroup | ClothObject.cpp:206-246 | creates bind group 0 over the uniforms, buffer `frame % 2` (input) and buffer `1 - frame % 2` (output), and bind group 1 over the vertex buffer, on two ids that were not alive before; the old bind groups are overwritten without release |
| Cloth.ClothObject.UpdateUniforms | ClothObject.cpp:160-174 | sets the uniforms' time and sphere position and uploads the whole 80-byte block; no other uniform field changes |
| Cloth.ClothObject.ComputePass | ClothObject.cpp:248-286 | submits one command buffer: the physics pass, then the vertex pass, each over bind groups 0 and 1 and each dispatching 64 by 1 by 1 workgroups |
| Cloth.ClothObject.ProcessFrame | ClothObject.cpp:38-47 | the frame goes up by exactly 1 and the time by `deltaT`; both passes bind buffer `frame % 2` as input and the other buffer as output, and the two are distinct; the two new bind groups get ids that were not alive before; no buffer is resized or reseeded; when the buffers had their count-derived sizes, every binding fits |
| Cloth.ClothObject.CreateDeviceObjects | ClothObject.cpp:29-32 | the creation calls in their order take the next twelve ids of the counter, none of which was alive before, in the order initBuffers, initBindGroupLayout, initComputePipeline, initBindGroup; exactly those twelve join the live ids |
| Cloth.ClothObject.UploadInitialData | ClothObject.cpp:34-35 | uploads the whole uniform block with the new time and sphere position, then exactly the grid fill into particle buffer 0; no object is created or released |
| Cloth.ClothObject.InitiateNewCloth | ClothObject.cpp:27-36 | after the call, the parameters are resolved, frame and time are 0, twelve ids that were not alive before have joined the live ids, every buffer has its count-derived size, bind group 0 is for frame 0, nothing has been submitted, and particle data has gone to buffer 0 only |
| Cloth.ClothObject.TerminateBindGroups | ClothObject.cpp:303-306 | releases both bind groups, in order |
| Cloth.ClothObject.TerminateUniforms | ClothObject.cpp:314-317 | destroys, then releases, the uniform buffer |
| Cloth.ClothObject.TerminateComputePipeline | ClothObject.cpp:298-301 | releases the physics pipeline and the shader-module member only |
| Cloth.ClothObject.TerminateBindGroupLayouts | ClothObject.cpp:308-312 | releases both layout slots, in slot order |
| Cloth.ClothObject.TerminateParticleBuffers | ClothObject.cpp:320-323 | destroys and releases each particle buffer, in slot order |
| Cloth.ClothObject.TerminateBuffers | ClothObject.cpp:319-326 | destroys and releases both particle buffers, then releases the vertex buffer without destroying it |
| Cloth.ClothObject.TerminateAll | ClothObject.cpp:290-296 | the teardown's exact command order, and that the live ids lose exactly the ids the members named |
| Scenarios.ElapsedIsProduct | ClothObject.cpp:40 | in exact arithmetic, `n` frames advance the clock by `n * deltaT` |
| Scenarios.Start | ClothObject.cpp:27-36 | initiateNewCloth on any valid object, at any frame, resets frame and time to 0, hands out the next twelve ids and seeds the first of them |
| Scenarios.FirstFrame | ClothObject.cpp:38-47 | after initiateNewCloth and one processFrame, the only seeded buffer is buffer 0, while the first physics dispatch reads buffer 1 and writes buffer 0 |
| Scenarios.Step | ClothObject.cpp:38-47 | one frame reads the buffer in slot `(frame + 1) % 2` and writes the other, on two new bind groups |
| Scenarios.RunFrames | ClothObject.cpp:38-47 | after `n` frames, the frame counter is up by `n`, the `k`-th frame read slot `(frame + k + 1) % 2` and wrote the other, and `2n` new bind groups are alive |
| Scenarios.LeakedIds | ClothObject.cpp:290-326 | removing those ids from the live set leaves the shader module, the pipeline layout, the vertex pipeline and every earlier bind group |
| Scenarios.Finish | ClothObject.cpp:290-326 | after terminateAll, the device still holds the shader module, the pipeline layout, the vertex pipeline and all `2n` bind groups but the last pair |
| Scenarios.RunAndFinish | ClothObject.cpp:38-47 | `n` frames after initiateNewCloth, followed by terminateAll: the buffer each frame read and wrote, the clock, and the ids left alive |
| Scenarios.Simulate | ClothObject.cpp:27-47 | over a whole lifetime, frame `k` (from 1) reads slot `k % 2` and writes the other, which are always distinct; the clock ends at the sum of `n` steps; the device ends up holding `3 + 2n` leaked objects |

## Left out

- Floating point: every `float` is an exact real. There is no rounding, NaN or
  infinity. `(float)` conversions of the width and height are exact. The clock
  is an exact sum (`Scenarios.Elapsed`).
- ValidParameters: the operations require a width and height of at least 1
  and a sphere period other than 0. The source checks neither. A zero period
  makes `fmod` return NaN, and a zero-sized grid divides by zero in
  `particleMass`. Neither case is modelled.
- Integer width: `int` overflow of `frame` and of the size products is not
  modelled; integers are unbounded. `Cloth.NegativeFrameLeavesBufferArray`
  shows what a wrapped, negative counter would index.
- The device itself:
  - Object creation never fails.
  - Ids come from a counter on the object instead of the `wgpu::Device`
    argument, which the model drops.
  - `destroy` is recorded but has no effect on the live ids.
  - What the device does with a submission is not modelled: GPU execution, its
    asynchrony and the `compute.wgsl` kernels.
- Cloth.ClothObject.TerminateComputePipeline: releasing a null handle is
  modelled as a no-op on the live ids. What the WebGPU library does when asked
  to release a null object is not modelled.
- Null handles elsewhere: before `initiateNewCloth` has run, the handle
  members are null. A write (`UpdateUniforms`, `FillBuffer`), a bind group
  (`InitBindGroup`) or a submission (`ComputePass`, `ProcessFrame`) over null
  handles is recorded in the trace like any other call, not rejected. What the
  library does with null handles there is not modelled.
- Shader loading: `ResourceManager::loadShaderModule` becomes a
  `LoadShaderModule` command with the path relative to the resource
  directory. What the loader does, and whether it can fail, is not modelled.
- Command recording: the encoder, the two pass encoders, the command buffer and
  the queue are collapsed into one `Submit` command that lists the passes. The
  encoder objects are not tracked as device objects.
- Descriptor fields with no effect on the host's state are omitted from the
  commands: `visibility` (always compute), `mappedAtCreation` (always false),
  pipeline constants (none) and `timestampWrites` (none).
- The commented-out workgroup computations at ClothObject.cpp:262-265 and
  277-280 are dead code. The model dispatches the fixed 64 workgroups the
  live code dispatches.
- The initial grid keeps only position and velocity; the two padding floats of
  each particle are left uninitialised by the host. `sphere_pos` is carried
  as a field that nothing reads.
- Window, GLFW and ImGui glue, which the core file includes but does not use.

## Notable behaviour of the code

The model follows the code in each of these cases.

- Seeding: the member comment at ClothObject.h:18 has the two particle buffers
  alternate as input and output each frame, and so does the comment at
  ClothObject.cpp:43. `fillBuffer` uploads the grid into `particleBuffers[0]`
  only (ClothObject.cpp:93). `processFrame` increments `frame` before it binds
  (ClothObject.cpp:39), so the first frame has `frame == 1` and its physics
  pass reads `particleBuffers[1 % 2]` (ClothObject.cpp:217), which the host
  never wrote (`Scenarios.FirstFrame`).
- Grid placement: `fillBuffer` puts particle `(x, y)` at
  `(x * particleDist, y * particleDist, 0)` (ClothObject.cpp:87), with no
  offset that would centre the grid on the origin.
- Resolved uniforms: `updateParameters` (ClothObject.cpp:62-79) does not copy
  the spring strengths or the wind of `ClothParameters` (ClothObject.h:64-68)
  into the uniforms, and no other function of the file sets them. They keep
  their previous values, which are the zeros of a new object.
- Teardown (ClothObject.cpp:290-326):
  - The shader module is held in a local of `initComputePipeline`
    (ClothObject.cpp:178). `m_shaderModule` is never assigned, so it is
    still null when `terminateComputePipeline` releases it
    (ClothObject.cpp:300).
  - Nothing in the teardown releases the pipeline layout or the vertex
    pipeline.
  - `initBindGroup` assigns new bind groups to both members every frame
    (ClothObject.cpp:231, 245) without releasing the old ones.

  After `n` frames, `3 + 2n` device objects stay alive (`Scenarios.Finish`,
  `Scenarios.Simulate`).
- Workgroups: both passes dispatch 64 workgroups whatever the grid size
  (ClothObject.cpp:266, 281). The workgroup computations from the buffer size
  above them are commented out.
- Buffer size: `m_bufferSize` is 0 until `updateParameters` runs
  (ClothObject.h:34).
