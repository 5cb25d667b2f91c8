/** ClothObject.cpp: the host side of the cloth simulation. A ClothObject owns
    two particle buffers that swap the roles of input and output every frame,
    a vertex buffer, a uniform buffer, two bind-group layouts, a pipeline
    layout, two compute pipelines and two bind groups. Its methods resolve the
    parameters, create these objects, rebuild the bind groups each frame,
    record the two compute passes and release everything again. */
module Cloth {
  import opened ClothTypes
  import opened Gpu

  // ---------------------------------------------------------------------------
  // Ping-pong slots

  function Abs(b: int): int
  {
    if b < 0 then -b else b
  }

  /** C++ `%` on `int`: the quotient is truncated toward zero, so the
      remainder differs from the dividend by a multiple of the divisor, is
      smaller than the divisor in magnitude and takes the sign of the
      dividend. */
  function CRem(a: int, b: int): (r: int)
    requires b != 0
    ensures (a - r) % b == 0
    ensures a >= 0 ==> 0 <= r < Abs(b)
    ensures a < 0 ==> -Abs(b) < r <= 0
  {
    if a >= 0 then
      QuotientMultiple(a, b);
      a % b
    else
      QuotientMultiple(-a, b);
      assert a - -((-a) % b) == -((-a) - (-a) % b);
      NegatedMultiple((-a) - (-a) % b, b);
      -((-a) % b)
  }

  /** `a - a % b` is a multiple of `b`. */
  lemma QuotientMultiple(a: int, b: int)
    requires b != 0
    ensures (a - a % b) % b == 0
  {
    var q := a / b;
    assert a - a % b == b * q;
    MultipleMod(b, q);
  }

  /** A multiple of `b` leaves remainder 0: the remainder of `b * q` is
      `b` times the difference of the quotients, and a non-zero multiple of
      `b` is too large to be a remainder. */
  lemma MultipleMod(b: int, q: int)
    requires b != 0
    ensures (b * q) % b == 0
  {
    var m := b * q;
    var r := m % b;
    var d := m / b;
    assert m == b * d + r && 0 <= r < Abs(b);
    assert b * (q - d) == r;
    if q - d != 0 {
      MulAbs(b, q - d);
    }
  }

  lemma MulAbs(b: int, c: int)
    requires c != 0
    ensures Abs(b * c) >= Abs(b)
  {
    var e := if c > 0 then c - 1 else -c - 1;
    var f := if b >= 0 then b else -b;
    assert f * e >= 0;
    if c > 0 {
      assert b * c == b + b * e;
    } else {
      assert b * c == -b - b * e;
    }
    if b >= 0 {
      assert b * e == f * e;
    } else {
      assert b * e == -(f * e);
    }
  }

  lemma NegatedMultiple(m: int, b: int)
    requires b != 0 && m % b == 0
    ensures (-m) % b == 0
  {
    var q := m / b;
    assert m == b * q;
    assert -m == b * -q;
    MultipleMod(b, -q);
  }

  /** `frame % 2`: the slot of the particle buffer bound as input. */
  function InputSlot(frame: int): (i: int)
    ensures frame >= 0 ==> 0 <= i < 2 && i == frame % 2
  {
    CRem(frame, 2)
  }

  /** `1 - frame % 2`: the slot of the particle buffer bound as output. */
  function OutputSlot(frame: int): (o: int)
    ensures frame >= 0 ==> 0 <= o < 2 && o != InputSlot(frame) && o == (frame + 1) % 2
  {
    1 - CRem(frame, 2)
  }

  /** Consecutive frames swap the two roles: this frame's output is the next
      frame's input, and the other way round. */
  lemma SlotsAlternate(frame: int)
    requires frame >= 0
    ensures InputSlot(frame + 1) == OutputSlot(frame)
    ensures OutputSlot(frame + 1) == InputSlot(frame)
  {
  }

  /** Only a non-negative frame counter keeps both slots inside the
      two-element buffer array: at -1 (a wrapped counter) the input slot is -1
      and the output slot is 2. */
  lemma NegativeFrameLeavesBufferArray()
    ensures InputSlot(-1) == -1 && OutputSlot(-1) == 2
  {
  }

  // ---------------------------------------------------------------------------
  // Sizes, layouts and constants shared with the compute shader

  /** `numParticles * sizeof(ClothParticle)` */
  function ParticleBufferBytes(numParticles: int): int
  {
    numParticles * SizeOfClothParticle()
  }

  /** `numVertices * sizeof(ClothVertex)` */
  function VertexBufferBytes(numVertices: int): int
  {
    numVertices * SizeOfClothVertex()
  }

  /** `sizeof(ClothUniforms)` */
  function UniformBufferBytes(): int
  {
    SizeOfClothUniforms()
  }

  const ParticleUsage: set<BufferUsage> := {Storage, CopyDst}
  const VertexUsage: set<BufferUsage> := {CopyDst, Storage}
  const UniformUsageFlags: set<BufferUsage> := {CopyDst, UniformUsage}

  /** Group 0: the uniform block, the read-only input particles, the writable
      output particles. */
  const ComputeLayoutEntries: seq<LayoutEntry> :=
    [LayoutEntry(0, UniformBuffer(SizeOfClothUniforms())), LayoutEntry(1, ReadOnlyStorageBuffer), LayoutEntry(2, StorageBuffer)]

  /** Group 1: the writable vertex output. */
  const VertexLayoutEntries: seq<LayoutEntry> := [LayoutEntry(0, StorageBuffer)]

  /** The shader file, relative to the resource directory. */
  const ComputeShaderPath: string := "compute.wgsl"
  const PhysicsEntryPoint: string := "main"
  const VertexEntryPoint: string := "particle_to_vertex"

  /** Both passes dispatch this many workgroups, whatever the grid size. */
  const WorkgroupCount: nat := 64

  // ---------------------------------------------------------------------------
  // The command blocks each operation issues

  function BufferCommands(first: nat, numParticles: int, numVertices: int): seq<Command>
  {
    [ CreateBuffer(first, ParticleBufferBytes(numParticles), ParticleUsage),
      CreateBuffer(first + 1, ParticleBufferBytes(numParticles), ParticleUsage),
      CreateBuffer(first + 2, VertexBufferBytes(numVertices), VertexUsage),
      CreateBuffer(first + 3, UniformBufferBytes(), UniformUsageFlags) ]
  }

  function LayoutCommands(first: nat): seq<Command>
  {
    [ CreateBindGroupLayout(first, ComputeLayoutEntries),
      CreateBindGroupLayout(first + 1, VertexLayoutEntries) ]
  }

  function PipelineCommands(first: nat, computeLayout: Handle, vertexLayout: Handle): seq<Command>
  {
    [ LoadShaderModule(first, ComputeShaderPath),
      CreatePipelineLayout(first + 1, [computeLayout, vertexLayout]),
      CreateComputePipeline(first + 2, Live(first + 1), Live(first), PhysicsEntryPoint),
      CreateComputePipeline(first + 3, Live(first + 1), Live(first), VertexEntryPoint) ]
  }

  /** The entries of bind group 0: uniforms at 0, input particles at 1,
      output particles at 2, each spanning its whole buffer. */
  function ComputeEntries(uniformBuffer: Handle, input: Handle, output: Handle, numParticles: int): seq<BindEntry>
  {
    [ BindEntry(0, uniformBuffer, 0, UniformBufferBytes()),
      BindEntry(1, input, 0, ParticleBufferBytes(numParticles)),
      BindEntry(2, output, 0, ParticleBufferBytes(numParticles)) ]
  }

  /** The one entry of bind group 1: the vertex buffer. */
  function VertexEntries(vertexBuffer: Handle, numVertices: int): seq<BindEntry>
  {
    [ BindEntry(0, vertexBuffer, 0, VertexBufferBytes(numVertices)) ]
  }

  /** The command buffer of one frame: the physics pass, then the
      particle-to-vertex pass, both with bind groups 0 and 1 set. */
  function FramePasses(pipeline: Handle, vertexPipeline: Handle, bindGroup: Handle, vertexBindGroup: Handle): seq<RecordedPass>
  {
    [ RecordedPass(pipeline, [bindGroup, vertexBindGroup], Workgroups(WorkgroupCount, 1, 1)),
      RecordedPass(vertexPipeline, [bindGroup, vertexBindGroup], Workgroups(WorkgroupCount, 1, 1)) ]
  }

  function TeardownCommands(bindGroup: Handle, vertexBindGroup: Handle, uniformBuffer: Handle,
                            pipeline: Handle, shaderModule: Handle, layouts: seq<Handle>,
                            particleBuffers: seq<Handle>, vertexBuffer: Handle): seq<Command>
    requires |layouts| == 2 && |particleBuffers| == 2
  {
    [ Release(bindGroup), Release(vertexBindGroup),
      Destroy(uniformBuffer), Release(uniformBuffer),
      Release(pipeline), Release(shaderModule),
      Release(layouts[0]), Release(layouts[1]),
      Destroy(particleBuffers[0]), Release(particleBuffers[0]),
      Destroy(particleBuffers[1]), Release(particleBuffers[1]),
      Release(vertexBuffer) ]
  }

  /** initBindGroup's two creations: group 0 over the uniforms, the input and
      the output particles, group 1 over the vertices. */
  function BindGroupCommands(first: nat, computeLayout: Handle, vertexLayout: Handle, uniformBuffer: Handle,
                             input: Handle, output: Handle, numParticles: int,
                             vertexBuffer: Handle, numVertices: int): seq<Command>
  {
    [ CreateBindGroup(first, computeLayout, ComputeEntries(uniformBuffer, input, output, numParticles)),
      CreateBindGroup(first + 1, vertexLayout, VertexEntries(vertexBuffer, numVertices)) ]
  }

  /** processFrame's commands: the uniform upload, the two new bind groups,
      the submission of both passes over them. */
  function FrameCommands(first: nat, block: ClothUniforms, computeLayout: Handle, vertexLayout: Handle,
                         uniformBuffer: Handle, input: Handle, output: Handle, numParticles: int,
                         vertexBuffer: Handle, numVertices: int, pipeline: Handle, vertexPipeline: Handle): seq<Command>
  {
    [WriteBuffer(uniformBuffer, 0, UniformBufferBytes(), UniformData(block))]
    + BindGroupCommands(first, computeLayout, vertexLayout, uniformBuffer, input, output, numParticles,
                        vertexBuffer, numVertices)
    + [Submit(FramePasses(pipeline, vertexPipeline, Live(first), Live(first + 1)))]
  }

  /** The creation calls of initiateNewCloth from a device that hands out
      `first` next: buffers, layouts, shader and pipelines, and the bind groups
      of frame 0. */
  function DeviceCommands(first: nat, numParticles: int, numVertices: int): seq<Command>
  {
    BufferCommands(first, numParticles, numVertices)
    + LayoutCommands(first + 4)
    + PipelineCommands(first + 6, Live(first + 4), Live(first + 5))
    + BindGroupCommands(first + 10, Live(first + 4), Live(first + 5), Live(first + 3),
                        Live(first), Live(first + 1), numParticles, Live(first + 2), numVertices)
  }

  /** initiateNewCloth's commands: the creations, then the uniform upload and
      the grid upload into particle buffer 0. */
  function SetupCommands(first: nat, numParticles: int, numVertices: int, block: ClothUniforms,
                         grid: seq<ClothParticle>): seq<Command>
  {
    DeviceCommands(first, numParticles, numVertices)
    + [ WriteBuffer(Live(first + 3), 0, UniformBufferBytes(), UniformData(block)),
        WriteBuffer(Live(first), 0, ParticleBufferBytes(numParticles), ParticleData(grid)) ]
  }

  /** The device objects terminateAll releases. */
  function TeardownIds(bindGroup: Handle, vertexBindGroup: Handle, uniformBuffer: Handle,
                       pipeline: Handle, shaderModule: Handle, layouts: seq<Handle>,
                       particleBuffers: seq<Handle>, vertexBuffer: Handle): set<nat>
    requires |layouts| == 2 && |particleBuffers| == 2
  {
    HandleId(bindGroup) + HandleId(vertexBindGroup) + HandleId(uniformBuffer)
    + HandleId(pipeline) + HandleId(shaderModule)
    + HandleId(layouts[0]) + HandleId(layouts[1])
    + HandleId(particleBuffers[0]) + HandleId(particleBuffers[1]) + HandleId(vertexBuffer)
  }

  /** After initBuffers' creations the two particle buffers hold
      `numParticles` particles each, the vertex buffer `numVertices` vertices
      and the uniform buffer one uniform block. */
  lemma BufferBlockSizes(t: seq<Command>, first: nat, numParticles: int, numVertices: int)
    ensures BufferSize(t + BufferCommands(first, numParticles, numVertices), Live(first)) == Some(ParticleBufferBytes(numParticles))
    ensures BufferSize(t + BufferCommands(first, numParticles, numVertices), Live(first + 1)) == Some(ParticleBufferBytes(numParticles))
    ensures BufferSize(t + BufferCommands(first, numParticles, numVertices), Live(first + 2)) == Some(VertexBufferBytes(numVertices))
    ensures BufferSize(t + BufferCommands(first, numParticles, numVertices), Live(first + 3)) == Some(UniformBufferBytes())
  {
    var c := BufferCommands(first, numParticles, numVertices);
    var t1 := t + [c[0]];
    var t2 := t1 + [c[1]];
    var t3 := t2 + [c[2]];
    assert t + c == t3 + [c[3]];
    BufferSizeSnoc(t3, c[3], Live(first + 3));
    BufferSizeSnoc(t3, c[3], Live(first + 2));
    BufferSizeSnoc(t2, c[2], Live(first + 2));
    BufferSizeSnoc(t3, c[3], Live(first + 1));
    BufferSizeSnoc(t2, c[2], Live(first + 1));
    BufferSizeSnoc(t1, c[1], Live(first + 1));
    BufferSizeSnoc(t3, c[3], Live(first));
    BufferSizeSnoc(t2, c[2], Live(first));
    BufferSizeSnoc(t1, c[1], Live(first));
    BufferSizeSnoc(t, c[0], Live(first));
  }

  /** What one frame's commands leave behind: no buffer changes size, no
      particle data is uploaded, the latest submission is the frame's two
      passes, and the two new bind groups hold the compute and vertex
      entries. */
  lemma FrameEffects(t: seq<Command>, t': seq<Command>, first: nat, block: ClothUniforms,
                     computeLayout: Handle, vertexLayout: Handle,
                     uniformBuffer: Handle, input: Handle, output: Handle, numParticles: int,
                     vertexBuffer: Handle, numVertices: int, pipeline: Handle, vertexPipeline: Handle)
    requires t' == t + FrameCommands(first, block, computeLayout, vertexLayout, uniformBuffer, input, output,
                                     numParticles, vertexBuffer, numVertices, pipeline, vertexPipeline)
    ensures forall h :: BufferSize(t', h) == BufferSize(t, h)
    ensures ParticleWriteTargets(t') == ParticleWriteTargets(t)
    ensures LastSubmit(t') == Some(FramePasses(pipeline, vertexPipeline, Live(first), Live(first + 1)))
    ensures BindGroupEntries(t', Live(first)) == Some(ComputeEntries(uniformBuffer, input, output, numParticles))
    ensures BindGroupEntries(t', Live(first + 1)) == Some(VertexEntries(vertexBuffer, numVertices))
  {
    var c := FrameCommands(first, block, computeLayout, vertexLayout, uniformBuffer, input, output,
                           numParticles, vertexBuffer, numVertices, pipeline, vertexPipeline);
    assert |c| == 4;
    forall h ensures BufferSize(t + c, h) == BufferSize(t, h) {
      BufferSizeQuiet(t, c, h);
    }
    ParticleWriteTargetsQuiet(t, c);
    var t1 := t + [c[0]];
    var t2 := t1 + [c[1]];
    var t3 := t2 + [c[2]];
    assert t' == t3 + [c[3]];
    LastSubmitSnoc(t3, c[3]);
    BindGroupEntriesSnoc(t1, c[1], Live(first));
    BindGroupEntriesSnoc(t2, c[2], Live(first));
    BindGroupEntriesSnoc(t3, c[3], Live(first));
    BindGroupEntriesSnoc(t2, c[2], Live(first + 1));
    BindGroupEntriesSnoc(t3, c[3], Live(first + 1));
  }

  /** processFrame's three blocks, one after another, make up the frame. */
  lemma FrameTrace(t0: seq<Command>, t1: seq<Command>, t2: seq<Command>, t3: seq<Command>,
                   first: nat, block: ClothUniforms, computeLayout: Handle, vertexLayout: Handle,
                   uniformBuffer: Handle, input: Handle, output: Handle, numParticles: int,
                   vertexBuffer: Handle, numVertices: int, pipeline: Handle, vertexPipeline: Handle)
    requires t1 == t0 + [WriteBuffer(uniformBuffer, 0, UniformBufferBytes(), UniformData(block))]
    requires t2 == t1 + BindGroupCommands(first, computeLayout, vertexLayout, uniformBuffer, input, output,
                                          numParticles, vertexBuffer, numVertices)
    requires t3 == t2 + [Submit(FramePasses(pipeline, vertexPipeline, Live(first), Live(first + 1)))]
    ensures t3 == t0 + FrameCommands(first, block, computeLayout, vertexLayout, uniformBuffer, input, output,
                                     numParticles, vertexBuffer, numVertices, pipeline, vertexPipeline)
  {
  }

  /** What initiateNewCloth's commands leave behind: the four buffers have
      the sizes their counts call for, bind group 0 holds the frame-0 entries
      (buffer 0 in, buffer 1 out), nothing is submitted, and particle data is
      uploaded to buffer 0 alone. */
  lemma SetupEffects(t: seq<Command>, t': seq<Command>, first: nat, numParticles: int, numVertices: int,
                     block: ClothUniforms, grid: seq<ClothParticle>)
    requires t' == t + SetupCommands(first, numParticles, numVertices, block, grid)
    ensures BufferSize(t', Live(first)) == Some(ParticleBufferBytes(numParticles))
    ensures BufferSize(t', Live(first + 1)) == Some(ParticleBufferBytes(numParticles))
    ensures BufferSize(t', Live(first + 2)) == Some(VertexBufferBytes(numVertices))
    ensures BufferSize(t', Live(first + 3)) == Some(UniformBufferBytes())
    ensures BindGroupEntries(t', Live(first + 10)) == Some(ComputeEntries(Live(first + 3), Live(first), Live(first + 1), numParticles))
    ensures LastSubmit(t') == LastSubmit(t)
    ensures ParticleWriteTargets(t') == ParticleWriteTargets(t) + {Live(first)}
  {
    var b := BufferCommands(first, numParticles, numVertices);
    var l := LayoutCommands(first + 4);
    var p := PipelineCommands(first + 6, Live(first + 4), Live(first + 5));
    var g := BindGroupCommands(first + 10, Live(first + 4), Live(first + 5), Live(first + 3),
                               Live(first), Live(first + 1), numParticles, Live(first + 2), numVertices);
    var w := [ WriteBuffer(Live(first + 3), 0, UniformBufferBytes(), UniformData(block)),
               WriteBuffer(Live(first), 0, ParticleBufferBytes(numParticles), ParticleData(grid)) ];
    var tb := t + b;
    var tl := tb + l;
    var tp := tl + p;
    var tg := tp + g;
    assert t' == tg + w;

    // buffer sizes: the buffer block, then nothing else creates a buffer
    BufferBlockSizes(t, first, numParticles, numVertices);
    var rest := l + p + g + w;
    assert t' == tb + rest;
    assert |rest| == 10;
    BufferSizeQuiet(tb, rest, Live(first));
    BufferSizeQuiet(tb, rest, Live(first + 1));
    BufferSizeQuiet(tb, rest, Live(first + 2));
    BufferSizeQuiet(tb, rest, Live(first + 3));

    // bind group 0: created in g, untouched by w
    assert tg == (tp + [g[0]]) + [g[1]];
    BindGroupEntriesSnoc(tp, g[0], Live(first + 10));
    BindGroupEntriesSnoc(tp + [g[0]], g[1], Live(first + 10));
    BindGroupEntriesQuiet(tg, w, Live(first + 10));

    // no submission anywhere
    LastSubmitQuiet(t, b + l + p + g + w);
    assert t' == t + (b + l + p + g + w);

    // one particle upload, the last command
    var before := b + l + p + g + [w[0]];
    assert t' == (t + before) + [w[1]];
    ParticleWriteTargetsQuiet(t, before);
    ParticleWriteTargetsSnoc(t + before, w[1]);
  }

  /** The trace of initiateNewCloth's creation calls, one block after the
      other. */
  lemma DeviceTrace(t0: seq<Command>, t1: seq<Command>, t2: seq<Command>, t3: seq<Command>, t4: seq<Command>,
                    first: nat, numParticles: int, numVertices: int)
    requires t1 == t0 + BufferCommands(first, numParticles, numVertices)
    requires t2 == t1 + LayoutCommands(first + 4)
    requires t3 == t2 + PipelineCommands(first + 6, Live(first + 4), Live(first + 5))
    requires t4 == t3 + BindGroupCommands(first + 10, Live(first + 4), Live(first + 5), Live(first + 3),
                                          Live(first), Live(first + 1), numParticles, Live(first + 2), numVertices)
    ensures t4 == t0 + DeviceCommands(first, numParticles, numVertices)
  {
  }

  /** The ids the creation blocks bring to life, together. */
  lemma DeviceIds(l0: set<nat>, l1: set<nat>, l2: set<nat>, l3: set<nat>, l4: set<nat>, first: nat)
    requires l1 == l0 + {first, first + 1, first + 2, first + 3}
    requires l2 == l1 + {first + 4, first + 5}
    requires l3 == l2 + {first + 6, first + 7, first + 8, first + 9}
    requires l4 == l3 + {first + 10, first + 11}
    ensures l4 == l0 + { first, first + 1, first + 2, first + 3, first + 4, first + 5,
                         first + 6, first + 7, first + 8, first + 9, first + 10, first + 11 }
  {
  }

  /** The trace of initiateNewCloth: the creations, then the two uploads. */
  lemma SetupTrace(t0: seq<Command>, t1: seq<Command>, t2: seq<Command>,
                   first: nat, numParticles: int, numVertices: int, block: ClothUniforms, grid: seq<ClothParticle>)
    requires t1 == t0 + DeviceCommands(first, numParticles, numVertices)
    requires t2 == t1 + [ WriteBuffer(Live(first + 3), 0, UniformBufferBytes(), UniformData(block)),
                          WriteBuffer(Live(first), 0, ParticleBufferBytes(numParticles), ParticleData(grid)) ]
    ensures t2 == t0 + SetupCommands(first, numParticles, numVertices, block, grid)
  {
  }

  /** The bind-group layouts agree with the entries bound against them: every
      entry of a bind group has a layout entry with the same binding, the
      uniform binding is at least as large as the layout's minimum, and the
      two groups have as many entries as their layouts. */
  lemma BindGroupsMatchLayouts(u: Handle, input: Handle, output: Handle, np: int, vb: Handle, nv: int)
    ensures |ComputeEntries(u, input, output, np)| == |ComputeLayoutEntries| == 3
    ensures |VertexEntries(vb, nv)| == |VertexLayoutEntries| == 1
    ensures forall k :: 0 <= k < 3 ==> ComputeEntries(u, input, output, np)[k].binding == ComputeLayoutEntries[k].binding == k
    ensures VertexEntries(vb, nv)[0].binding == VertexLayoutEntries[0].binding == 0
    ensures ComputeEntries(u, input, output, np)[0].size == ComputeLayoutEntries[0].bindingType.minBindingSize
  {
  }

  /** What the passes of a frame see: when the latest submission is a
      frame's two passes and its bind groups were made with the compute and
      vertex entries, both passes read the uniforms at (0, 0), the input at
      (0, 1), the output at (0, 2) and the vertices at (1, 0); and when every
      bound buffer was created with the size its entry spans, every binding
      fits its buffer. */
  lemma FrameBindings(t: seq<Command>, pipeline: Handle, vertexPipeline: Handle, bindGroup: Handle, vertexBindGroup: Handle,
                      uniformBuffer: Handle, input: Handle, output: Handle, numParticles: int,
                      vertexBuffer: Handle, numVertices: int)
    requires LastSubmit(t) == Some(FramePasses(pipeline, vertexPipeline, bindGroup, vertexBindGroup))
    requires BindGroupEntries(t, bindGroup) == Some(ComputeEntries(uniformBuffer, input, output, numParticles))
    requires BindGroupEntries(t, vertexBindGroup) == Some(VertexEntries(vertexBuffer, numVertices))
    ensures forall k :: 0 <= k < 2 ==>
      && SubmittedBinding(t, k, 0, 0) == Some(BindEntry(0, uniformBuffer, 0, UniformBufferBytes()))
      && SubmittedBinding(t, k, 0, 1) == Some(BindEntry(1, input, 0, ParticleBufferBytes(numParticles)))
      && SubmittedBinding(t, k, 0, 2) == Some(BindEntry(2, output, 0, ParticleBufferBytes(numParticles)))
      && SubmittedBinding(t, k, 1, 0) == Some(BindEntry(0, vertexBuffer, 0, VertexBufferBytes(numVertices)))
    ensures && BufferSize(t, uniformBuffer) == Some(UniformBufferBytes())
            && BufferSize(t, input) == Some(ParticleBufferBytes(numParticles))
            && BufferSize(t, output) == Some(ParticleBufferBytes(numParticles))
            && BufferSize(t, vertexBuffer) == Some(VertexBufferBytes(numVertices))
        ==> forall k :: 0 <= k < 2 ==>
              SubmittedBindingFits(t, k, 0, 0) && SubmittedBindingFits(t, k, 0, 1) &&
              SubmittedBindingFits(t, k, 0, 2) && SubmittedBindingFits(t, k, 1, 0)
  {
    var ce := ComputeEntries(uniformBuffer, input, output, numParticles);
    var ve := VertexEntries(vertexBuffer, numVertices);
    var passes := FramePasses(pipeline, vertexPipeline, bindGroup, vertexBindGroup);
    assert EntryFor(ce, 0) == Some(ce[0]);
    assert EntryFor(ce[1..], 1) == Some(ce[1]);
    assert EntryFor(ce[2..], 2) == Some(ce[2]);
    assert EntryFor(ce, 1) == EntryFor(ce[1..], 1);
    assert EntryFor(ce[1..], 2) == EntryFor(ce[1..][1..], 2) && ce[1..][1..] == ce[2..];
    assert EntryFor(ve, 0) == Some(ve[0]);
    forall k | 0 <= k < 2
      ensures SubmittedBinding(t, k, 0, 0) == Some(ce[0]) && SubmittedBinding(t, k, 0, 1) == Some(ce[1])
      ensures SubmittedBinding(t, k, 0, 2) == Some(ce[2]) && SubmittedBinding(t, k, 1, 0) == Some(ve[0])
    {
      assert passes[k].bindGroups == [bindGroup, vertexBindGroup];
      SubmittedBindingOf(t, k, 0, 0, passes, bindGroup, ce);
      SubmittedBindingOf(t, k, 0, 1, passes, bindGroup, ce);
      SubmittedBindingOf(t, k, 0, 2, passes, bindGroup, ce);
      SubmittedBindingOf(t, k, 1, 0, passes, vertexBindGroup, ve);
    }
    if && BufferSize(t, uniformBuffer) == Some(UniformBufferBytes())
       && BufferSize(t, input) == Some(ParticleBufferBytes(numParticles))
       && BufferSize(t, output) == Some(ParticleBufferBytes(numParticles))
       && BufferSize(t, vertexBuffer) == Some(VertexBufferBytes(numVertices))
    {
      forall k | 0 <= k < 2
        ensures SubmittedBindingFits(t, k, 0, 0) && SubmittedBindingFits(t, k, 0, 1)
        ensures SubmittedBindingFits(t, k, 0, 2) && SubmittedBindingFits(t, k, 1, 0)
      {
        BindingFits(t, k, 0, 0, ce[0]);
        BindingFits(t, k, 0, 1, ce[1]);
        BindingFits(t, k, 0, 2, ce[2]);
        BindingFits(t, k, 1, 0, ve[0]);
      }
    }
  }

  /** What pass `k` of the latest submission reads at (`group`, `binding`):
      the matching entry of the bind group set at `group`. */
  lemma SubmittedBindingOf(t: seq<Command>, k: nat, group: nat, binding: nat, passes: seq<RecordedPass>,
                           bindGroup: Handle, entries: seq<BindEntry>)
    requires LastSubmit(t) == Some(passes)
    requires k < |passes| && group < |passes[k].bindGroups| && passes[k].bindGroups[group] == bindGroup
    requires BindGroupEntries(t, bindGroup) == Some(entries)
    ensures SubmittedBinding(t, k, group, binding) == EntryFor(entries, binding)
  {
  }

  /** A submitted binding fits once its entry starts at 0 and spans the size
      its buffer was created with. */
  lemma BindingFits(t: seq<Command>, k: nat, group: nat, binding: nat, e: BindEntry)
    requires SubmittedBinding(t, k, group, binding) == Some(e)
    requires e.offset == 0 && BufferSize(t, e.buffer) == Some(e.size)
    ensures SubmittedBindingFits(t, k, group, binding)
  {
  }

  // ---------------------------------------------------------------------------
  // The initial grid

  /** The particle at grid point (x, y): at `(x * dist, y * dist, 0)`, at rest. */
  function GridParticle(x: int, y: int, dist: Float): ClothParticle
  {
    ClothParticle(Vec3(x as real * dist, y as real * dist, 0.0), Zero3)
  }

  /** The particles of column `x`, in increasing `y`. */
  function GridColumn(x: int, height: nat, dist: Float): (col: seq<ClothParticle>)
    ensures |col| == height
    ensures forall y :: 0 <= y < height ==> col[y] == GridParticle(x, y, dist)
  {
    seq(height, y requires 0 <= y < height => GridParticle(x, y, dist))
  }

  /** Columns `0 .. width - 1`, one after the other: the order of a loop
      over `x` that holds a loop over `y`. */
  function GridParticles(width: nat, height: nat, dist: Float): seq<ClothParticle>
    decreases width
  {
    if width == 0 then [] else GridParticles(width - 1, height, dist) + GridColumn(width - 1, height, dist)
  }

  /** The grid holds `width * height` particles, and index `x * height + y` is
      grid point (x, y). */
  lemma {:induction false} GridParticlesAt(width: nat, height: nat, dist: Float, x: nat, y: nat)
    requires x < width && y < height
    ensures |GridParticles(width, height, dist)| == width * height
    ensures x * height + y < width * height
    ensures GridParticles(width, height, dist)[x * height + y] == GridParticle(x, y, dist)
    decreases width
  {
    GridParticlesLength(width, height, dist);
    GridParticlesLength(width - 1, height, dist);
    if x < width - 1 {
      GridParticlesAt(width - 1, height, dist, x, y);
      assert x * height + y < (width - 1) * height;
    } else {
      assert x * height == (width - 1) * height;
    }
  }

  lemma {:induction false} GridParticlesLength(width: nat, height: nat, dist: Float)
    ensures |GridParticles(width, height, dist)| == width * height
    decreases width
  {
    if width > 0 {
      GridParticlesLength(width - 1, height, dist);
      assert (width - 1) * height + height == width * height;
    }
  }

  /** Conversely, entry `k` is grid point `(k / height, k % height)`: every
      particle of the fill is a grid point, and no grid point is missed. */
  lemma GridParticlesIndex(width: nat, height: nat, dist: Float, k: nat)
    requires k < width * height
    ensures |GridParticles(width, height, dist)| == width * height
    ensures height > 0 && k / height < width
    ensures GridParticles(width, height, dist)[k] == GridParticle(k / height, k % height, dist)
  {
    GridParticlesLength(width, height, dist);
    MulZero(width);
    assert height > 0;
    var x, y := k / height, k % height;
    assert k == x * height + y;
    MulMonotone(width, x, height);
    assert x < width;
    GridParticlesAt(width, height, dist, x, y);
  }

  lemma MulZero(a: nat)
    ensures a * 0 == 0
  {
  }

  lemma MulMonotone(a: nat, b: nat, c: nat)
    ensures a <= b ==> a * c <= b * c
  {
    if a <= b {
      assert b * c == a * c + (b - a) * c;
    }
  }

  /** fillBuffer's nested loops: `x` outer, `y` inner, one particle appended
      per grid point. */
  method BuildParticleData(width: nat, height: nat, dist: Float) returns (particleData: seq<ClothParticle>)
    ensures particleData == GridParticles(width, height, dist)
  {
    particleData := [];
    var x := 0;
    while x < width
      invariant 0 <= x <= width
      invariant particleData == GridParticles(x, height, dist)
    {
      var y := 0;
      while y < height
        invariant 0 <= y <= height
        invariant particleData == GridParticles(x, height, dist) + GridColumn(x, height, dist)[..y]
      {
        assert GridColumn(x, height, dist)[..y + 1] == GridColumn(x, height, dist)[..y] + [GridParticle(x, y, dist)];
        particleData := particleData + [GridParticle(x, y, dist)];
        y := y + 1;
      }
      assert GridColumn(x, height, dist)[..height] == GridColumn(x, height, dist);
      x := x + 1;
    }
  }

  // ---------------------------------------------------------------------------
  // The oscillating collision sphere

  /** Truncation of a real toward zero, as a float-to-int conversion does. */
  function Trunc(r: real): int
  {
    if r >= 0.0 then r.Floor else -((-r).Floor)
  }

  /** C's `fmod(a, b)`: `a - b * trunc(a / b)`. */
  function FMod(a: real, b: real): (r: real)
    requires b != 0.0
    ensures a >= 0.0 && b > 0.0 ==> 0.0 <= r < b
  {
    FModBounds(a, b);
    a - b * Trunc(a / b) as real
  }

  lemma FModBounds(a: real, b: real)
    requires b != 0.0
    ensures a >= 0.0 && b > 0.0 ==> 0.0 <= a - b * (Trunc(a / b) as real) < b
  {
    if a >= 0.0 && b > 0.0 {
      FModBoundsPositive(a, b);
    }
  }

  lemma FModBoundsPositive(a: real, b: real)
    requires a >= 0.0 && b > 0.0
    ensures 0.0 <= a - b * (Trunc(a / b) as real) < b
  {
    var d := a / b;
    assert d >= 0.0;
    var q := Trunc(d) as real;
    var f := d - q;
    assert 0.0 <= f < 1.0;
    assert a - b * q == b * f by {
      assert a == b * d;
      assert b * d == b * q + b * f;
    }
    assert 0.0 <= b * f < b by {
      assert b * f < b * 1.0;
    }
    assert a - b * (Trunc(a / b) as real) == b * f;
  }

  /** The sphere's phase: `currentT` taken modulo two periods, shifted by one
      period and divided by it. */
  function SpherePhase(t: Float, period: Float): (phase: real)
    requires period != 0.0
    ensures t >= 0.0 && period > 0.0 ==> -1.0 <= phase < 1.0
  {
    (FMod(t, period * 2.0) - period) / period
  }

  /** updateUniforms' sphereZ: `range * (1 + sign * (phase * 2) - 2)` with
      `sign` the sign of the phase. It sweeps back and forth between `range`
      and `-range`. */
  function SphereZ(t: Float, period: Float, range: Float): (z: Float)
    requires period != 0.0
    ensures t >= 0.0 && period > 0.0 && range >= 0.0 ==> -range <= z <= range
  {
    var phase := SpherePhase(t, period);
    var sign := if phase < 0.0 then -1.0 else 1.0;
    TriangleBounds(phase, sign, range);
    range * (1.0 + sign * (phase * 2.0) - 2.0)
  }

  lemma TriangleBounds(phase: real, sign: real, range: real)
    requires sign == if phase < 0.0 then -1.0 else 1.0
    ensures -1.0 <= phase < 1.0 && range >= 0.0 ==> -range <= range * (1.0 + sign * (phase * 2.0) - 2.0) <= range
  {
    if -1.0 <= phase < 1.0 && range >= 0.0 {
      var w := 1.0 + sign * (phase * 2.0) - 2.0;
      assert -1.0 <= w <= 1.0;
      assert range * -1.0 <= range * w <= range * 1.0;
    }
  }

  /** Below the divisor, `fmod` is the identity. */
  lemma FModSmall(a: real, b: real)
    requires 0.0 <= a < b
    ensures FMod(a, b) == a
  {
    var d := a / b;
    assert 0.0 <= d < 1.0 by {
      assert a == d * b;
    }
    assert Trunc(d) == 0;
  }

  /** Dividing by `b` after shifting by `b` shifts the quotient by one. */
  lemma DivShift(a: real, b: real)
    requires b != 0.0
    ensures (a + b) / b == a / b + 1.0
    ensures (a - b) / b == a / b - 1.0
  {
    var x, y, z := a / b, (a + b) / b, (a - b) / b;
    assert x * b == a && y * b == a + b && z * b == a - b;
    ZeroProduct(y - x - 1.0, b);
    ZeroProduct(z - x + 1.0, b);
  }

  lemma ZeroProduct(u: real, b: real)
    requires b != 0.0 && u * b == 0.0
    ensures u == 0.0
  {
  }

  /** Adding the divisor does not change `fmod` of a non-negative number. */
  lemma FModShift(a: real, b: real)
    requires a >= 0.0 && b > 0.0
    ensures FMod(a + b, b) == FMod(a, b)
  {
    var d := a / b;
    DivShift(a, b);
    assert d >= 0.0;
    assert Trunc(d + 1.0) == Trunc(d) + 1;
    var q := Trunc(d) as real;
    assert b * (q + 1.0) == b * q + b;
  }

  /** The triangle shape, in terms of the phase. */
  lemma SphereZOfPhase(t: Float, period: Float, range: Float)
    requires period != 0.0
    ensures SpherePhase(t, period) < 0.0 ==> SphereZ(t, period, range) == range * (-1.0 - 2.0 * SpherePhase(t, period))
    ensures SpherePhase(t, period) >= 0.0 ==> SphereZ(t, period, range) == range * (2.0 * SpherePhase(t, period) - 1.0)
  {
  }

  /** Over its first two periods the sphere moves linearly from `range` down
      to `-range` and back: a triangle wave. */
  lemma SphereZFirstCycle(t: Float, period: Float, range: Float)
    requires period > 0.0 && 0.0 <= t < 2.0 * period
    ensures t <= period ==> SphereZ(t, period, range) == range * (1.0 - 2.0 * t / period)
    ensures t >= period ==> SphereZ(t, period, range) == range * (2.0 * t / period - 3.0)
  {
    FModSmall(t, period * 2.0);
    var phase := SpherePhase(t, period);
    var q := t / period;
    assert phase == (t - period) / period;
    DivShift(t, period);
    assert phase == q - 1.0;
    assert 2.0 * t / period == 2.0 * q by {
      assert q * period == t;
      assert (2.0 * q) * period == 2.0 * t;
    }
    assert q * period == t;
    RealMulMonotone(1.0, q, period);
    assert t < period ==> q < 1.0;
    SphereZOfPhase(t, period, range);
    if t < period {
      assert phase < 0.0;
      assert -1.0 - 2.0 * phase == 1.0 - 2.0 * q;
    } else {
      assert phase >= 0.0;
      assert 2.0 * phase - 1.0 == 2.0 * q - 3.0;
    }
  }

  lemma RealMulMonotone(a: real, b: real, c: real)
    ensures c > 0.0 && a <= b ==> a * c <= b * c
  {
    if c > 0.0 && a <= b {
      assert b * c == a * c + (b - a) * c;
    }
  }

  /** The sphere repeats every two periods. */
  lemma SphereZPeriodic(t: Float, period: Float, range: Float)
    requires t >= 0.0 && period > 0.0
    ensures SphereZ(t + 2.0 * period, period, range) == SphereZ(t, period, range)
  {
    FModShift(t, period * 2.0);
    assert t + 2.0 * period == t + period * 2.0;
  }

  /** The default oscillator (period 150, range 2) starts at the top, is at
      the bottom after one period and back at the top after two. */
  lemma SphereZDefaultSamples()
    ensures SphereZ(0.0, 150.0, 2.0) == 2.0
    ensures SphereZ(75.0, 150.0, 2.0) == 0.0
    ensures SphereZ(150.0, 150.0, 2.0) == -2.0
    ensures SphereZ(225.0, 150.0, 2.0) == 0.0
    ensures SphereZ(300.0, 150.0, 2.0) == 2.0
  {
    SphereZFirstCycle(0.0, 150.0, 2.0);
    SphereZFirstCycle(75.0, 150.0, 2.0);
    SphereZFirstCycle(150.0, 150.0, 2.0);
    SphereZFirstCycle(225.0, 150.0, 2.0);
    SphereZPeriodic(0.0, 150.0, 2.0);
  }

  /** The uniform block after updateParameters: the parameter-derived fields
      copied in, the sphere parked at (0, 0, -5) and the clock at zero. The
      spring strengths and the wind keep whatever they held. */
  function ResolvedUniforms(u: ClothUniforms, p: ClothParameters): ClothUniforms
    requires ValidParameters(p)
  {
    u.(width := p.width as real, height := p.height as real,
       particleDist := ParticleDist(p), particleMass := ParticleMass(p),
       particleScale := p.scale,
       maxStretch := p.maxStretch, minStretch := p.minStretch,
       sphereRadius := p.sphereRadius, sphereX := 0.0, sphereY := 0.0, sphereZ := -5.0,
       deltaT := p.deltaT, currentT := 0.0)
  }

  // ---------------------------------------------------------------------------
  // The object

  class ClothObject {
    /** The two particle buffers; they alternate as input and output. */
    const particleBuffers: array<Handle>
    var vertexBuffer: Handle
    var uniformBuffer: Handle
    var shaderModule: Handle

    const bindGroupLayouts: array<Handle>
    var bindGroup: Handle
    var vertexBindGroup: Handle
    var pipelineLayout: Handle
    var pipeline: Handle
    var vertexPipelineLayout: Handle
    var vertexPipeline: Handle

    /** `m_bufferSize`; only written by UpdateParameters. */
    var bufferSize: int

    var parameters: ClothParameters
    var uniforms: ClothUniforms

    var numParticles: int
    var numVertices: int
    var totalMass: Float
    var particleMass: Float
    var particleDist: Float

    var currentT: Float
    var frame: int
    var spherePos: Vec3

    /** Every device call this object has made, in order. */
    var trace: seq<Command>
    /** The id the device hands out for the next object it creates. */
    var nextId: nat

    /** The object invariant: two slots per handle array, valid parameters,
        a frame counter that never went below zero, and derived constants that
        agree with the parameters. */
    ghost predicate Valid()
      reads this`parameters, this`frame, this`numParticles, this`numVertices,
            this`totalMass, this`particleMass, this`particleDist
    {
      && particleBuffers.Length == 2
      && bindGroupLayouts.Length == 2
      && particleBuffers != bindGroupLayouts
      && ValidParameters(parameters)
      && frame >= 0
      && numParticles == NumParticles(parameters)
      && numVertices == NumVertices(parameters)
      && totalMass == TotalMass(parameters)
      && particleMass == ParticleMass(parameters)
      && particleDist == ParticleDist(parameters)
    }

    /** The device's counter runs ahead of every object alive on it: the id
        it hands out next, and every later one, is not in use. */
    ghost predicate CounterAhead()
      reads this`trace, this`nextId
    {
      forall x :: x in LiveIds(trace) ==> x < nextId
    }

    /** `m_bufferSize` agrees with the particle count (it starts out as 0). */
    ghost predicate BufferSizeResolved()
      reads this
    {
      bufferSize == ParticleBufferBytes(numParticles)
    }

    /** Both particle buffers exist and are different objects. */
    ghost predicate Ready()
      reads this, particleBuffers
    {
      && particleBuffers.Length == 2
      && particleBuffers[0].Live? && particleBuffers[1].Live?
      && particleBuffers[0] != particleBuffers[1]
    }

    /** The device buffers behind the handle members were made with the sizes
        the current counts call for. */
    ghost predicate Sized()
      reads this, particleBuffers
    {
      && particleBuffers.Length == 2
      && BufferSize(trace, particleBuffers[0]) == Some(ParticleBufferBytes(numParticles))
      && BufferSize(trace, particleBuffers[1]) == Some(ParticleBufferBytes(numParticles))
      && BufferSize(trace, vertexBuffer) == Some(VertexBufferBytes(numVertices))
      && BufferSize(trace, uniformBuffer) == Some(UniformBufferBytes())
    }

    /** The default member initialisers of ClothObject.h. */
    constructor ()
      ensures Valid() && fresh(particleBuffers) && fresh(bindGroupLayouts)
      ensures particleBuffers[..] == [Null, Null] && bindGroupLayouts[..] == [Null, Null]
      ensures vertexBuffer == Null && uniformBuffer == Null && shaderModule == Null
      ensures bindGroup == Null && vertexBindGroup == Null
      ensures pipelineLayout == Null && pipeline == Null
      ensures vertexPipelineLayout == Null && vertexPipeline == Null
      ensures bufferSize == 0
      ensures parameters == DefaultParameters && uniforms == ZeroUniforms
      ensures numParticles == 10000 && numVertices == 58806
      ensures frame == 0 && currentT == 0.0 && spherePos == Vec3(0.0, 0.0, -1.0)
      ensures trace == [] && nextId == 0 && CounterAhead()
    {
      particleBuffers := new Handle[2](_ => Null);
      bindGroupLayouts := new Handle[2](_ => Null);
      vertexBuffer, uniformBuffer, shaderModule := Null, Null, Null;
      bindGroup, vertexBindGroup := Null, Null;
      pipelineLayout, pipeline := Null, Null;
      vertexPipelineLayout, vertexPipeline := Null, Null;
      bufferSize := 0;
      parameters := DefaultParameters;
      uniforms := ZeroUniforms;
      numParticles := NumParticles(DefaultParameters);
      numVertices := NumVertices(DefaultParameters);
      totalMass := TotalMass(DefaultParameters);
      particleMass := ParticleMass(DefaultParameters);
      particleDist := ParticleDist(DefaultParameters);
      currentT := 0.0;
      frame := 0;
      spherePos := Vec3(0.0, 0.0, -1.0);
      trace := [];
      nextId := 0;
      DefaultDerived();
    }

    // -------------------------------------------------------------------------
    // The device calls

    /** Issue one device call. */
    method Emit(c: Command)
      modifies this`trace
      ensures trace == old(trace) + [c]
      ensures LiveIds(trace) == Effect(LiveIds(old(trace)), c)
    {
      LiveIdsSnoc(trace, c);
      trace := trace + [c];
    }

    /** Create a device object with a creation command carrying the next id;
        the handle to it is returned. */
    method Create(c: Command) returns (h: Handle)
      requires Creates(c) && c.id == nextId && CounterAhead()
      modifies this`trace, this`nextId
      ensures CounterAhead() && old(nextId) !in LiveIds(old(trace))
      ensures h == Live(old(nextId)) && nextId == old(nextId) + 1
      ensures trace == old(trace) + [c]
      ensures LiveIds(trace) == LiveIds(old(trace)) + {old(nextId)}
    {
      Emit(c);
      h := Live(nextId);
      nextId := nextId + 1;
    }

    // -------------------------------------------------------------------------
    // Parameter resolution

    /** updateParameters: take the parameters, derive the counts and sizes,
        restart time, and copy the parameter-derived fields into the uniform
        mirror. The spring strengths and the wind are not copied. */
    method UpdateParameters(p: ClothParameters)
      requires Valid() && ValidParameters(p)
      modifies this`parameters, this`numParticles, this`bufferSize, this`numVertices,
               this`totalMass, this`particleMass, this`particleDist,
               this`currentT, this`frame, this`uniforms
      ensures Valid() && BufferSizeResolved()
      ensures parameters == p
      ensures numParticles == p.width * p.height
      ensures bufferSize == numParticles * 32
      ensures numVertices == 6 * (p.width - 1) * (p.height - 1)
      ensures totalMass == TotalMass(p) && particleMass == ParticleMass(p) && particleDist == ParticleDist(p)
      ensures currentT == 0.0 && frame == 0
      ensures uniforms == ResolvedUniforms(old(uniforms), p)
      ensures uniforms.closeSpringStrength == old(uniforms.closeSpringStrength)
      ensures uniforms.farSpringStrength == old(uniforms.farSpringStrength)
      ensures uniforms.windStrength == old(uniforms.windStrength) && uniforms.windDir == old(uniforms.windDir)
    {
      parameters := p;

      numParticles := NumParticles(parameters);
      bufferSize := ParticleBufferBytes(numParticles);
      numVertices := NumVertices(parameters);
      totalMass := TotalMass(parameters);
      particleMass := ParticleMass(parameters);
      particleDist := ParticleDist(parameters);

      currentT := 0.0;
      frame := 0;

      uniforms := uniforms.(width := parameters.width as real, height := parameters.height as real);
      uniforms := uniforms.(particleDist := particleDist, particleMass := particleMass, particleScale := parameters.scale);
      uniforms := uniforms.(maxStretch := parameters.maxStretch, minStretch := parameters.minStretch);
      uniforms := uniforms.(sphereRadius := parameters.sphereRadius, sphereX := 0.0, sphereY := 0.0, sphereZ := -5.0);
      uniforms := uniforms.(deltaT := parameters.deltaT, currentT := currentT);
    }

    // -------------------------------------------------------------------------
    // Buffers

    /** initBuffers: two particle buffers of the same size, the vertex buffer
        and the uniform buffer, each sized `count * sizeof(struct)`. Handles
        already held are overwritten without being released. */
    method InitBuffers()
      requires Valid() && CounterAhead()
      modifies this`vertexBuffer, this`uniformBuffer, this`trace, this`nextId, particleBuffers
      ensures CounterAhead() && LiveIds(old(trace)) !! {old(nextId), old(nextId) + 1, old(nextId) + 2, old(nextId) + 3}
      ensures Valid() && Ready()
      ensures particleBuffers[0] == Live(old(nextId)) && particleBuffers[1] == Live(old(nextId) + 1)
      ensures vertexBuffer == Live(old(nextId) + 2) && uniformBuffer == Live(old(nextId) + 3)
      ensures nextId == old(nextId) + 4
      ensures trace == old(trace) + BufferCommands(old(nextId), numParticles, numVertices)
      ensures LiveIds(trace) == LiveIds(old(trace)) + {old(nextId), old(nextId) + 1, old(nextId) + 2, old(nextId) + 3}
    {
      var size := numParticles * SizeOfClothParticle();
      var b0 := Create(CreateBuffer(nextId, size, ParticleUsage));
      var b1 := Create(CreateBuffer(nextId, size, ParticleUsage));
      particleBuffers[0] := b0;
      particleBuffers[1] := b1;

      vertexBuffer := Create(CreateBuffer(nextId, numVertices * SizeOfClothVertex(), VertexUsage));
      uniformBuffer := Create(CreateBuffer(nextId, SizeOfClothUniforms(), UniformUsageFlags));

    }

    /** fillBuffer: lay the particles out on the grid and upload them into
        particle buffer 0 (only). */
    method FillBuffer()
      requires Valid() && CounterAhead()
      modifies this`trace
      ensures CounterAhead()
      ensures Valid()
      ensures trace == old(trace) + [WriteBuffer(particleBuffers[0], 0, ParticleBufferBytes(numParticles),
                                                 ParticleData(GridParticles(parameters.width, parameters.height, particleDist)))]
      ensures |GridParticles(parameters.width, parameters.height, particleDist)| * SizeOfClothParticle()
              == ParticleBufferBytes(numParticles)
      ensures LiveIds(trace) == LiveIds(old(trace))
    {
      var particleData := BuildParticleData(parameters.width, parameters.height, particleDist);
      GridParticlesLength(parameters.width, parameters.height, particleDist);
      Emit(WriteBuffer(particleBuffers[0], 0, numParticles * SizeOfClothParticle(), ParticleData(particleData)));
    }

    // -------------------------------------------------------------------------
    // Layouts, pipelines, bind groups

    /** initBindGroupLayout: group 0 (uniforms, input, output) and group 1
        (vertices). */
    method InitBindGroupLayout()
      requires Valid() && CounterAhead()
      modifies bindGroupLayouts, this`trace, this`nextId
      ensures CounterAhead() && LiveIds(old(trace)) !! {old(nextId), old(nextId) + 1}
      ensures Valid()
      ensures bindGroupLayouts[0] == Live(old(nextId)) && bindGroupLayouts[1] == Live(old(nextId) + 1)
      ensures nextId == old(nextId) + 2
      ensures trace == old(trace) + LayoutCommands(old(nextId))
      ensures LiveIds(trace) == LiveIds(old(trace)) + {old(nextId), old(nextId) + 1}
    {
      var l0 := Create(CreateBindGroupLayout(nextId, ComputeLayoutEntries));
      bindGroupLayouts[0] := l0;
      var l1 := Create(CreateBindGroupLayout(nextId, VertexLayoutEntries));
      bindGroupLayouts[1] := l1;
    }

    /** initComputePipeline: load the shader, build the pipeline layout from
        both bind-group layouts, and the two pipelines on it. The shader
        module is held in a local only: `shaderModule` is not assigned. */
    method InitComputePipeline()
      requires Valid() && CounterAhead()
      modifies this`pipelineLayout, this`pipeline, this`vertexPipeline, this`trace, this`nextId
      ensures CounterAhead() && LiveIds(old(trace)) !! {old(nextId), old(nextId) + 1, old(nextId) + 2, old(nextId) + 3}
      ensures Valid()
      ensures pipelineLayout == Live(old(nextId) + 1)
      ensures pipeline == Live(old(nextId) + 2) && vertexPipeline == Live(old(nextId) + 3)
      ensures nextId == old(nextId) + 4
      ensures trace == old(trace) + PipelineCommands(old(nextId), bindGroupLayouts[0], bindGroupLayouts[1])
      ensures LiveIds(trace) == LiveIds(old(trace)) + {old(nextId), old(nextId) + 1, old(nextId) + 2, old(nextId) + 3}
    {
      var computeShaderModule := Create(LoadShaderModule(nextId, ComputeShaderPath));
      pipelineLayout := Create(CreatePipelineLayout(nextId, [bindGroupLayouts[0], bindGroupLayouts[1]]));
      pipeline := Create(CreateComputePipeline(nextId, pipelineLayout, computeShaderModule, PhysicsEntryPoint));
      vertexPipeline := Create(CreateComputePipeline(nextId, pipelineLayout, computeShaderModule, VertexEntryPoint));
    }

    /** initBindGroup: bind the uniform buffer, particle buffer `frame % 2` as
        input and particle buffer `1 - frame % 2` as output, and the vertex
        buffer. The bind groups held before are overwritten without being
        released. */
    method InitBindGroup()
      requires Valid() && CounterAhead()
      modifies this`bindGroup, this`vertexBindGroup, this`trace, this`nextId
      ensures CounterAhead() && LiveIds(old(trace)) !! {old(nextId), old(nextId) + 1}
      ensures Valid()
      ensures bindGroup == Live(old(nextId)) && vertexBindGroup == Live(old(nextId) + 1)
      ensures nextId == old(nextId) + 2
      ensures trace == old(trace) +
        BindGroupCommands(old(nextId), bindGroupLayouts[0], bindGroupLayouts[1], uniformBuffer,
                          particleBuffers[frame % 2], particleBuffers[1 - frame % 2], numParticles,
                          vertexBuffer, numVertices)
      ensures LiveIds(trace) == LiveIds(old(trace)) + {old(nextId), old(nextId) + 1}
    {
      var entries := ComputeEntries(uniformBuffer, particleBuffers[InputSlot(frame)], particleBuffers[OutputSlot(frame)],
                                    numParticles);
      bindGroup := Create(CreateBindGroup(nextId, bindGroupLayouts[0], entries));

      var ventries := [BindEntry(0, vertexBuffer, 0, numVertices * SizeOfClothVertex())];
      vertexBindGroup := Create(CreateBindGroup(nextId, bindGroupLayouts[1], ventries));
    }

    // -------------------------------------------------------------------------
    // Per frame

    /** updateUniforms: refresh the time-varying fields and upload the whole
        uniform block. */
    method UpdateUniforms()
      requires Valid() && CounterAhead()
      modifies this`uniforms, this`trace
      ensures CounterAhead()
      ensures Valid()
      ensures uniforms == old(uniforms).(currentT := currentT,
                                         sphereZ := SphereZ(currentT, parameters.spherePeriod, parameters.sphereRange))
      ensures trace == old(trace) + [WriteBuffer(uniformBuffer, 0, UniformBufferBytes(), UniformData(uniforms))]
      ensures LiveIds(trace) == LiveIds(old(trace))
    {
      uniforms := uniforms.(currentT := currentT);
      var spherePeriod := (FMod(currentT, parameters.spherePeriod * 2.0) - parameters.spherePeriod) / parameters.spherePeriod;
      var sphereSign := if spherePeriod < 0.0 then -1.0 else 1.0;
      assert spherePeriod == SpherePhase(currentT, parameters.spherePeriod);
      uniforms := uniforms.(sphereZ := parameters.sphereRange * (1.0 + sphereSign * (spherePeriod * 2.0) - 2.0));
      Emit(WriteBuffer(uniformBuffer, 0, SizeOfClothUniforms(), UniformData(uniforms)));
    }

    /** computePass: one command buffer with the physics pass and the
        particle-to-vertex pass, each dispatching 64 workgroups, submitted
        once. */
    method ComputePass()
      requires CounterAhead()
      modifies this`trace
      ensures CounterAhead()
      ensures trace == old(trace) + [Submit(FramePasses(pipeline, vertexPipeline, bindGroup, vertexBindGroup))]
      ensures LiveIds(trace) == LiveIds(old(trace))
    {
      var physics := RecordedPass(pipeline, [bindGroup, vertexBindGroup], Workgroups(64, 1, 1));
      var toVertex := RecordedPass(vertexPipeline, [bindGroup, vertexBindGroup], Workgroups(64, 1, 1));
      Emit(Submit([physics, toVertex]));
    }

    /** processFrame: advance the frame counter and the clock, upload the
        uniforms, rebind so that buffer `frame % 2` is read and buffer
        `1 - frame % 2` written, and dispatch. */
    method ProcessFrame()
      requires Valid() && CounterAhead()
      modifies this`frame, this`currentT, this`uniforms, this`bindGroup, this`vertexBindGroup,
               this`trace, this`nextId
      ensures CounterAhead() && LiveIds(old(trace)) !! {old(nextId), old(nextId) + 1}
      ensures Valid()
      ensures frame == old(frame) + 1
      ensures currentT == old(currentT) + parameters.deltaT
      ensures uniforms == old(uniforms).(currentT := currentT,
                                         sphereZ := SphereZ(currentT, parameters.spherePeriod, parameters.sphereRange))
      ensures bindGroup == Live(old(nextId)) && vertexBindGroup == Live(old(nextId) + 1)
      ensures nextId == old(nextId) + 2
      ensures trace == old(trace) +
        FrameCommands(old(nextId), uniforms, bindGroupLayouts[0], bindGroupLayouts[1], uniformBuffer,
                      particleBuffers[frame % 2], particleBuffers[1 - frame % 2], numParticles,
                      vertexBuffer, numVertices, pipeline, vertexPipeline)
      ensures LiveIds(trace) == LiveIds(old(trace)) + {old(nextId), old(nextId) + 1}
      ensures forall h :: BufferSize(trace, h) == BufferSize(old(trace), h)
      ensures ParticleWriteTargets(trace) == ParticleWriteTargets(old(trace))
      ensures old(Sized()) ==> Sized()
      // what both dispatches of this frame read and write
      ensures forall k :: 0 <= k < 2 ==>
        && SubmittedBinding(trace, k, 0, 0) == Some(BindEntry(0, uniformBuffer, 0, UniformBufferBytes()))
        && SubmittedBinding(trace, k, 0, 1) == Some(BindEntry(1, particleBuffers[frame % 2], 0, ParticleBufferBytes(numParticles)))
        && SubmittedBinding(trace, k, 0, 2) == Some(BindEntry(2, particleBuffers[1 - frame % 2], 0, ParticleBufferBytes(numParticles)))
        && SubmittedBinding(trace, k, 1, 0) == Some(BindEntry(0, vertexBuffer, 0, VertexBufferBytes(numVertices)))
      ensures Ready() ==> particleBuffers[frame % 2] != particleBuffers[1 - frame % 2]
      ensures Sized() ==> forall k :: 0 <= k < 2 ==>
        SubmittedBindingFits(trace, k, 0, 0) && SubmittedBindingFits(trace, k, 0, 1) &&
        SubmittedBindingFits(trace, k, 0, 2) && SubmittedBindingFits(trace, k, 1, 0)
    {
      frame := frame + 1;
      currentT := currentT + parameters.deltaT;
      ghost var input, output := particleBuffers[frame % 2], particleBuffers[1 - frame % 2];

      UpdateUniforms();
      ghost var t1 := trace;
      InitBindGroup();
      ghost var t2 := trace;
      ComputePass();

      FrameTrace(old(trace), t1, t2, trace, old(nextId), uniforms, bindGroupLayouts[0], bindGroupLayouts[1],
                 uniformBuffer, input, output, numParticles, vertexBuffer, numVertices, pipeline, vertexPipeline);
      FrameEffects(old(trace), trace, old(nextId), uniforms, bindGroupLayouts[0], bindGroupLayouts[1],
                   uniformBuffer, input, output, numParticles, vertexBuffer, numVertices, pipeline, vertexPipeline);
      FrameBindings(trace, pipeline, vertexPipeline, bindGroup, vertexBindGroup,
                    uniformBuffer, input, output, numParticles, vertexBuffer, numVertices);
      assert BufferSize(trace, particleBuffers[0]) == BufferSize(old(trace), particleBuffers[0]);
      assert BufferSize(trace, particleBuffers[1]) == BufferSize(old(trace), particleBuffers[1]);
      assert BufferSize(trace, vertexBuffer) == BufferSize(old(trace), vertexBuffer);
      assert BufferSize(trace, uniformBuffer) == BufferSize(old(trace), uniformBuffer);
      assert input == particleBuffers[0] || input == particleBuffers[1];
      assert output == particleBuffers[0] || output == particleBuffers[1];
    }

    // -------------------------------------------------------------------------
    // Set-up and teardown

    /** initBuffers, initBindGroupLayout, initComputePipeline and
        initBindGroup, the creation calls at the start of initiateNewCloth,
        in their order. Bind group 0 is made for frame 0. */
    method CreateDeviceObjects()
      requires Valid() && frame == 0 && CounterAhead()
      modifies this`vertexBuffer, this`uniformBuffer, this`pipelineLayout, this`pipeline, this`vertexPipeline,
               this`bindGroup, this`vertexBindGroup, this`trace, this`nextId,
               particleBuffers, bindGroupLayouts
      ensures CounterAhead()
      ensures LiveIds(old(trace)) !!
        { old(nextId), old(nextId) + 1, old(nextId) + 2, old(nextId) + 3, old(nextId) + 4, old(nextId) + 5,
          old(nextId) + 6, old(nextId) + 7, old(nextId) + 8, old(nextId) + 9, old(nextId) + 10, old(nextId) + 11 }
      ensures Valid() && Ready()
      ensures particleBuffers[0] == Live(old(nextId)) && particleBuffers[1] == Live(old(nextId) + 1)
      ensures vertexBuffer == Live(old(nextId) + 2) && uniformBuffer == Live(old(nextId) + 3)
      ensures bindGroupLayouts[0] == Live(old(nextId) + 4) && bindGroupLayouts[1] == Live(old(nextId) + 5)
      ensures pipelineLayout == Live(old(nextId) + 7)
      ensures pipeline == Live(old(nextId) + 8) && vertexPipeline == Live(old(nextId) + 9)
      ensures bindGroup == Live(old(nextId) + 10) && vertexBindGroup == Live(old(nextId) + 11)
      ensures nextId == old(nextId) + 12
      ensures trace == old(trace) + DeviceCommands(old(nextId), numParticles, numVertices)
      ensures LiveIds(trace) == LiveIds(old(trace)) +
        { old(nextId), old(nextId) + 1, old(nextId) + 2, old(nextId) + 3, old(nextId) + 4, old(nextId) + 5,
          old(nextId) + 6, old(nextId) + 7, old(nextId) + 8, old(nextId) + 9, old(nextId) + 10, old(nextId) + 11 }
    {
      InitBuffers();
      ghost var t1 := trace;
      InitBindGroupLayout();
      ghost var t2 := trace;
      InitComputePipeline();
      ghost var t3 := trace;
      InitBindGroup();
      DeviceTrace(old(trace), t1, t2, t3, trace, old(nextId), numParticles, numVertices);
      DeviceIds(LiveIds(old(trace)), LiveIds(t1), LiveIds(t2), LiveIds(t3), LiveIds(trace), old(nextId));
    }

    /** initiateNewCloth: resolve the parameters, create every device object,
        bind for frame 0, upload the uniforms and the initial grid. */
    method InitiateNewCloth(p: ClothParameters)
      requires Valid() && ValidParameters(p) && CounterAhead()
      modifies this`parameters, this`numParticles, this`bufferSize, this`numVertices,
               this`totalMass, this`particleMass, this`particleDist,
               this`currentT, this`frame, this`uniforms,
               this`vertexBuffer, this`uniformBuffer, this`pipelineLayout, this`pipeline, this`vertexPipeline,
               this`bindGroup, this`vertexBindGroup, this`trace, this`nextId,
               particleBuffers, bindGroupLayouts
      ensures CounterAhead()
      ensures LiveIds(old(trace)) !!
        { old(nextId), old(nextId) + 1, old(nextId) + 2, old(nextId) + 3, old(nextId) + 4, old(nextId) + 5,
          old(nextId) + 6, old(nextId) + 7, old(nextId) + 8, old(nextId) + 9, old(nextId) + 10, old(nextId) + 11 }
      ensures Valid() && BufferSizeResolved() && Ready() && Sized()
      ensures parameters == p && frame == 0 && currentT == 0.0
      ensures particleBuffers[0] == Live(old(nextId)) && particleBuffers[1] == Live(old(nextId) + 1)
      ensures vertexBuffer == Live(old(nextId) + 2) && uniformBuffer == Live(old(nextId) + 3)
      ensures bindGroupLayouts[0] == Live(old(nextId) + 4) && bindGroupLayouts[1] == Live(old(nextId) + 5)
      ensures pipelineLayout == Live(old(nextId) + 7)
      ensures pipeline == Live(old(nextId) + 8) && vertexPipeline == Live(old(nextId) + 9)
      ensures bindGroup == Live(old(nextId) + 10) && vertexBindGroup == Live(old(nextId) + 11)
      ensures nextId == old(nextId) + 12
      ensures uniforms == ResolvedUniforms(old(uniforms), p).(sphereZ := SphereZ(0.0, p.spherePeriod, p.sphereRange))
      ensures trace == old(trace) +
        SetupCommands(old(nextId), numParticles, numVertices, uniforms,
                      GridParticles(p.width, p.height, ParticleDist(p)))
      ensures LiveIds(trace) == LiveIds(old(trace)) +
        { old(nextId), old(nextId) + 1, old(nextId) + 2, old(nextId) + 3, old(nextId) + 4, old(nextId) + 5,
          old(nextId) + 6, old(nextId) + 7, old(nextId) + 8, old(nextId) + 9, old(nextId) + 10, old(nextId) + 11 }
      ensures BindGroupEntries(trace, bindGroup) ==
        Some(ComputeEntries(uniformBuffer, particleBuffers[0], particleBuffers[1], numParticles))
      ensures LastSubmit(trace) == LastSubmit(old(trace))
      ensures ParticleWriteTargets(trace) == ParticleWriteTargets(old(trace)) + {particleBuffers[0]}
    {
      UpdateParameters(p);
      ghost var t0 := trace;
      CreateDeviceObjects();
      ghost var t1 := trace;
      UploadInitialData();
      ghost var grid := GridParticles(p.width, p.height, ParticleDist(p));
      SetupTrace(t0, t1, trace, old(nextId), numParticles, numVertices, uniforms, grid);
      SetupEffects(old(trace), trace, old(nextId), numParticles, numVertices, uniforms, grid);
    }

    /** The last two steps of initiateNewCloth: upload the uniform block,
        then the particle grid into the first particle buffer. */
    method UploadInitialData()
      requires Valid() && CounterAhead()
      modifies this`uniforms, this`trace
      ensures CounterAhead() && Valid()
      ensures uniforms == old(uniforms).(currentT := currentT,
                                         sphereZ := SphereZ(currentT, parameters.spherePeriod, parameters.sphereRange))
      ensures trace == old(trace) +
        [ WriteBuffer(uniformBuffer, 0, UniformBufferBytes(), UniformData(uniforms)),
          WriteBuffer(particleBuffers[0], 0, ParticleBufferBytes(numParticles),
                      ParticleData(GridParticles(parameters.width, parameters.height, particleDist))) ]
      ensures LiveIds(trace) == LiveIds(old(trace))
    {
      UpdateUniforms();
      FillBuffer();
    }

    /** terminateBindGroups */
    method TerminateBindGroups()
      requires CounterAhead()
      modifies this`bindGroup, this`vertexBindGroup, this`trace
      ensures CounterAhead()
      ensures bindGroup == ReleaseHandle(old(bindGroup)) && vertexBindGroup == ReleaseHandle(old(vertexBindGroup))
      ensures trace == old(trace) + [Release(old(bindGroup)), Release(old(vertexBindGroup))]
      ensures LiveIds(trace) == LiveIds(old(trace)) - HandleId(old(bindGroup)) - HandleId(old(vertexBindGroup))
    {
      Emit(Release(bindGroup));
      bindGroup := ReleaseHandle(bindGroup);
      Emit(Release(vertexBindGroup));
      vertexBindGroup := ReleaseHandle(vertexBindGroup);
    }

    /** terminateUniforms */
    method TerminateUniforms()
      requires CounterAhead()
      modifies this`uniformBuffer, this`trace
      ensures CounterAhead()
      ensures uniformBuffer == ReleaseHandle(old(uniformBuffer))
      ensures trace == old(trace) + [Destroy(old(uniformBuffer)), Release(old(uniformBuffer))]
      ensures LiveIds(trace) == LiveIds(old(trace)) - HandleId(old(uniformBuffer))
    {
      Emit(Destroy(uniformBuffer));
      Emit(Release(uniformBuffer));
      uniformBuffer := ReleaseHandle(uniformBuffer);
    }

    /** terminateComputePipeline: releases `pipeline` and `shaderModule`; the
        vertex pipeline and the pipeline layout are not released. */
    method TerminateComputePipeline()
      requires CounterAhead()
      modifies this`pipeline, this`shaderModule, this`trace
      ensures CounterAhead()
      ensures pipeline == ReleaseHandle(old(pipeline)) && shaderModule == ReleaseHandle(old(shaderModule))
      ensures trace == old(trace) + [Release(old(pipeline)), Release(old(shaderModule))]
      ensures LiveIds(trace) == LiveIds(old(trace)) - HandleId(old(pipeline)) - HandleId(old(shaderModule))
    {
      Emit(Release(pipeline));
      pipeline := ReleaseHandle(pipeline);
      Emit(Release(shaderModule));
      shaderModule := ReleaseHandle(shaderModule);
    }

    /** terminateBindGroupLayouts: release every layout slot, in order. */
    method TerminateBindGroupLayouts()
      requires Valid() && CounterAhead()
      modifies bindGroupLayouts, this`trace
      ensures CounterAhead()
      ensures bindGroupLayouts[..] == [ReleaseHandle(old(bindGroupLayouts[0])), ReleaseHandle(old(bindGroupLayouts[1]))]
      ensures trace == old(trace) + [Release(old(bindGroupLayouts[0])), Release(old(bindGroupLayouts[1]))]
      ensures LiveIds(trace) == LiveIds(old(trace)) - HandleId(old(bindGroupLayouts[0])) - HandleId(old(bindGroupLayouts[1]))
    {
      ghost var before := bindGroupLayouts[..];
      for i := 0 to bindGroupLayouts.Length
        invariant forall k :: 0 <= k < i ==> bindGroupLayouts[k] == ReleaseHandle(before[k])
        invariant forall k :: i <= k < bindGroupLayouts.Length ==> bindGroupLayouts[k] == before[k]
        invariant trace == old(trace) + Releases(before[..i])
        invariant LiveIds(trace) == LiveIds(old(trace)) - HandleIds(before[..i])
      {
        assert before[..i + 1] == before[..i] + [before[i]];
        ReleasesSnoc(before[..i], before[i]);
        HandleIdsSnoc(before[..i], before[i]);
        Emit(Release(bindGroupLayouts[i]));
        bindGroupLayouts[i] := ReleaseHandle(bindGroupLayouts[i]);
      }
      PairFacts(before);
    }

    /** terminateBuffers: destroy and release both particle buffers, in
        order, then release (without destroying) the vertex buffer. */
    method TerminateBuffers()
      requires Valid() && CounterAhead()
      modifies particleBuffers, this`vertexBuffer, this`trace
      ensures CounterAhead()
      ensures particleBuffers[..] == [ReleaseHandle(old(particleBuffers[0])), ReleaseHandle(old(particleBuffers[1]))]
      ensures vertexBuffer == ReleaseHandle(old(vertexBuffer))
      ensures trace == old(trace) +
        [ Destroy(old(particleBuffers[0])), Release(old(particleBuffers[0])),
          Destroy(old(particleBuffers[1])), Release(old(particleBuffers[1])),
          Release(old(vertexBuffer)) ]
      ensures LiveIds(trace) == LiveIds(old(trace)) - HandleId(old(particleBuffers[0])) - HandleId(old(particleBuffers[1]))
                                - HandleId(old(vertexBuffer))
    {
      TerminateParticleBuffers();
      Emit(Release(vertexBuffer));
      vertexBuffer := ReleaseHandle(vertexBuffer);
    }

    /** The loop of terminateBuffers over the particle buffers. */
    method TerminateParticleBuffers()
      requires Valid() && CounterAhead()
      modifies particleBuffers, this`trace
      ensures CounterAhead()
      ensures particleBuffers[..] == [ReleaseHandle(old(particleBuffers[0])), ReleaseHandle(old(particleBuffers[1]))]
      ensures trace == old(trace) +
        [ Destroy(old(particleBuffers[0])), Release(old(particleBuffers[0])),
          Destroy(old(particleBuffers[1])), Release(old(particleBuffers[1])) ]
      ensures LiveIds(trace) == LiveIds(old(trace)) - HandleId(old(particleBuffers[0])) - HandleId(old(particleBuffers[1]))
    {
      ghost var before := particleBuffers[..];
      for i := 0 to particleBuffers.Length
        invariant forall k :: 0 <= k < i ==> particleBuffers[k] == ReleaseHandle(before[k])
        invariant forall k :: i <= k < particleBuffers.Length ==> particleBuffers[k] == before[k]
        invariant trace == old(trace) + DestroyReleases(before[..i])
        invariant LiveIds(trace) == LiveIds(old(trace)) - HandleIds(before[..i])
      {
        assert before[..i + 1] == before[..i] + [before[i]];
        DestroyReleasesSnoc(before[..i], before[i]);
        HandleIdsSnoc(before[..i], before[i]);
        Emit(Destroy(particleBuffers[i]));
        Emit(Release(particleBuffers[i]));
        particleBuffers[i] := ReleaseHandle(particleBuffers[i]);
      }
      PairFacts(before);
    }

    /** terminateAll: bind groups, uniform buffer, pipeline and shader module,
        bind-group layouts, particle and vertex buffers, in this order. */
    method TerminateAll()
      requires Valid() && CounterAhead()
      modifies this`bindGroup, this`vertexBindGroup, this`uniformBuffer, this`pipeline, this`shaderModule,
               bindGroupLayouts, particleBuffers, this`vertexBuffer, this`trace
      ensures CounterAhead()
      ensures Valid()
      ensures bindGroup == ReleaseHandle(old(bindGroup)) && vertexBindGroup == ReleaseHandle(old(vertexBindGroup))
      ensures uniformBuffer == ReleaseHandle(old(uniformBuffer))
      ensures pipeline == ReleaseHandle(old(pipeline)) && shaderModule == ReleaseHandle(old(shaderModule))
      ensures bindGroupLayouts[..] == [ReleaseHandle(old(bindGroupLayouts[0])), ReleaseHandle(old(bindGroupLayouts[1]))]
      ensures particleBuffers[..] == [ReleaseHandle(old(particleBuffers[0])), ReleaseHandle(old(particleBuffers[1]))]
      ensures vertexBuffer == ReleaseHandle(old(vertexBuffer))
      ensures trace == old(trace) + TeardownCommands(old(bindGroup), old(vertexBindGroup), old(uniformBuffer),
                                                     old(pipeline), old(shaderModule), old(bindGroupLayouts[..]),
                                                     old(particleBuffers[..]), old(vertexBuffer))
      ensures LiveIds(trace) == LiveIds(old(trace)) - TeardownIds(
        old(bindGroup), old(vertexBindGroup), old(uniformBuffer), old(pipeline), old(shaderModule),
        old(bindGroupLayouts[..]), old(particleBuffers[..]), old(vertexBuffer))
    {
      ghost var layouts, buffers := bindGroupLayouts[..], particleBuffers[..];
      TerminateBindGroups();
      ghost var t1 := trace;
      TerminateUniforms();
      ghost var t2 := trace;
      TerminateComputePipeline();
      ghost var t3 := trace;
      TerminateBindGroupLayouts();
      ghost var t4 := trace;
      TerminateBuffers();
      TeardownTrace(old(trace), t1, t2, t3, t4, trace, old(bindGroup), old(vertexBindGroup), old(uniformBuffer),
                    old(pipeline), old(shaderModule), layouts, buffers, old(vertexBuffer));
    }
  }

  /** terminateAll's five blocks, one after another, make up the teardown. */
  lemma TeardownTrace(t0: seq<Command>, t1: seq<Command>, t2: seq<Command>, t3: seq<Command>,
                      t4: seq<Command>, t5: seq<Command>,
                      bindGroup: Handle, vertexBindGroup: Handle, uniformBuffer: Handle,
                      pipeline: Handle, shaderModule: Handle, layouts: seq<Handle>,
                      particleBuffers: seq<Handle>, vertexBuffer: Handle)
    requires |layouts| == 2 && |particleBuffers| == 2
    requires t1 == t0 + [Release(bindGroup), Release(vertexBindGroup)]
    requires t2 == t1 + [Destroy(uniformBuffer), Release(uniformBuffer)]
    requires t3 == t2 + [Release(pipeline), Release(shaderModule)]
    requires t4 == t3 + [Release(layouts[0]), Release(layouts[1])]
    requires t5 == t4 + [ Destroy(particleBuffers[0]), Release(particleBuffers[0]),
                          Destroy(particleBuffers[1]), Release(particleBuffers[1]),
                          Release(vertexBuffer) ]
    ensures t5 == t0 + TeardownCommands(bindGroup, vertexBindGroup, uniformBuffer, pipeline, shaderModule,
                                        layouts, particleBuffers, vertexBuffer)
  {
  }

  // ---------------------------------------------------------------------------
  // Helpers for the release loops

  function Releases(hs: seq<Handle>): seq<Command>
    decreases |hs|
  {
    if hs == [] then [] else Releases(hs[..|hs| - 1]) + [Release(hs[|hs| - 1])]
  }

  lemma ReleasesSnoc(hs: seq<Handle>, h: Handle)
    ensures Releases(hs + [h]) == Releases(hs) + [Release(h)]
  {
    assert (hs + [h])[..|hs + [h]| - 1] == hs;
  }

  function DestroyReleases(hs: seq<Handle>): seq<Command>
    decreases |hs|
  {
    if hs == [] then [] else DestroyReleases(hs[..|hs| - 1]) + [Destroy(hs[|hs| - 1]), Release(hs[|hs| - 1])]
  }

  lemma DestroyReleasesSnoc(hs: seq<Handle>, h: Handle)
    ensures DestroyReleases(hs + [h]) == DestroyReleases(hs) + [Destroy(h), Release(h)]
  {
    assert (hs + [h])[..|hs + [h]| - 1] == hs;
  }

  /** The loops' summaries for a two-element handle array. */
  lemma PairFacts(hs: seq<Handle>)
    requires |hs| == 2
    ensures hs[..2] == hs
    ensures HandleIds(hs) == HandleId(hs[0]) + HandleId(hs[1])
    ensures Releases(hs) == [Release(hs[0]), Release(hs[1])]
    ensures DestroyReleases(hs) == [Destroy(hs[0]), Release(hs[0]), Destroy(hs[1]), Release(hs[1])]
  {
    assert hs == [hs[0]] + [hs[1]];
    assert [hs[0]] == [] + [hs[0]];
    HandleIdsSnoc([], hs[0]);
    HandleIdsSnoc([hs[0]], hs[1]);
    ReleasesSnoc([], hs[0]);
    ReleasesSnoc([hs[0]], hs[1]);
    DestroyReleasesSnoc([], hs[0]);
    DestroyReleasesSnoc([hs[0]], hs[1]);
  }
}
