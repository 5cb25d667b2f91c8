/** The graphics device as the cloth simulation sees it. Every device object
    is a handle; every call the simulation makes on the device is a command
    appended to a trace. The device's own behaviour is not modelled: only what
    the simulation asked of it, in which order, with which arguments. The
    functions at the end read a trace back: which objects are alive, how large
    a buffer was made, what a bind group binds, what was last submitted. */
module Gpu {
  import opened ClothTypes

  datatype Option<T> = None | Some(value: T)

  /** A handle member: still null, a live device object, or one the
      simulation has released (the member keeps the stale pointer). */
  datatype Handle = Null | Live(id: nat) | Released(id: nat)

  /** The state `h.release()` leaves the member in: the object behind the
      handle is given back; a null handle stays null. */
  function ReleaseHandle(h: Handle): Handle
  {
    match h
    case Live(id) => Released(id)
    case _ => h
  }

  /** The device object a handle refers to, if it is not null. */
  function HandleId(h: Handle): set<nat>
  {
    if h.Null? then {} else {h.id}
  }

  /** The device objects a sequence of handles refers to. */
  function HandleIds(hs: seq<Handle>): set<nat>
    decreases |hs|
  {
    if hs == [] then {} else HandleIds(hs[..|hs| - 1]) + HandleId(hs[|hs| - 1])
  }

  lemma HandleIdsSnoc(hs: seq<Handle>, h: Handle)
    ensures HandleIds(hs + [h]) == HandleIds(hs) + HandleId(h)
  {
    assert (hs + [h])[..|hs + [h]| - 1] == hs;
  }

  datatype BufferUsage = Storage | CopyDst | UniformUsage

  /** The buffer type of a bind-group-layout entry. */
  datatype BindingType = UniformBuffer(minBindingSize: nat) | ReadOnlyStorageBuffer | StorageBuffer

  /** A bind-group-layout entry; every entry of this core is visible to the
      compute stage only. */
  datatype LayoutEntry = LayoutEntry(binding: nat, bindingType: BindingType)

  /** A bind-group entry: a window of `size` bytes at `offset` in `buffer`. */
  datatype BindEntry = BindEntry(binding: nat, buffer: Handle, offset: nat, size: int)

  datatype Workgroups = Workgroups(x: nat, y: nat, z: nat)

  /** One compute pass of a command buffer: its pipeline, the bind group set
      at each group index (element `k` of `bindGroups` is group `k`), and the
      dispatch it records. */
  datatype RecordedPass = RecordedPass(pipeline: Handle, bindGroups: seq<Handle>, dispatch: Workgroups)

  /** What a queue write uploads. */
  datatype Payload = ParticleData(particles: seq<ClothParticle>) | UniformData(block: ClothUniforms)

  datatype Command =
    | CreateBuffer(id: nat, size: int, usage: set<BufferUsage>)
    | CreateBindGroupLayout(id: nat, layoutEntries: seq<LayoutEntry>)
    | LoadShaderModule(id: nat, path: string)
    | CreatePipelineLayout(id: nat, bindGroupLayouts: seq<Handle>)
    | CreateComputePipeline(id: nat, layout: Handle, shaderModule: Handle, entryPoint: string)
    | CreateBindGroup(id: nat, layout: Handle, entries: seq<BindEntry>)
    | WriteBuffer(buffer: Handle, offset: nat, size: int, data: Payload)
    | Submit(passes: seq<RecordedPass>)
    | Destroy(target: Handle)
    | Release(target: Handle)

  /** Commands that bring a new device object into being. */
  predicate Creates(c: Command)
  {
    c.CreateBuffer? || c.CreateBindGroupLayout? || c.LoadShaderModule? ||
    c.CreatePipelineLayout? || c.CreateComputePipeline? || c.CreateBindGroup?
  }

  // ---------------------------------------------------------------------------
  // Live device objects

  /** The device objects alive after command `c`, given those alive before. */
  function Effect(live: set<nat>, c: Command): set<nat>
  {
    if Creates(c) then live + {c.id}
    else if c.Release? && !c.target.Null? then live - {c.target.id}
    else live
  }

  /** The live objects after running the commands `t` from `live`. */
  function Replay(live: set<nat>, t: seq<Command>): set<nat>
    decreases |t|
  {
    if t == [] then live else Replay(Effect(live, t[0]), t[1..])
  }

  /** The device objects a trace has created and not released. */
  function LiveIds(t: seq<Command>): set<nat>
  {
    Replay({}, t)
  }

  lemma {:induction false} ReplayAppend(live: set<nat>, a: seq<Command>, b: seq<Command>)
    ensures Replay(live, a + b) == Replay(Replay(live, a), b)
    decreases |a|
  {
    if a == [] {
      assert a + b == b;
    } else {
      assert (a + b)[0] == a[0];
      assert (a + b)[1..] == a[1..] + b;
      ReplayAppend(Effect(live, a[0]), a[1..], b);
    }
  }

  /** One more command changes the live set exactly as `Effect` says. */
  lemma LiveIdsSnoc(t: seq<Command>, c: Command)
    ensures LiveIds(t + [c]) == Effect(LiveIds(t), c)
  {
    ReplayAppend({}, t, [c]);
    assert [c][1..] == [];
  }

  // ---------------------------------------------------------------------------
  // Looking things up in a trace

  /** Does command `c` create the object behind `h`? */
  predicate CreatesHandle(c: Command, h: Handle)
  {
    Creates(c) && !h.Null? && c.id == h.id
  }

  /** The byte size buffer `h` was created with: read from the latest
      command that created it. */
  function BufferSize(t: seq<Command>, h: Handle): Option<int>
    decreases |t|
  {
    if t == [] then None
    else
      var c := t[|t| - 1];
      if c.CreateBuffer? && CreatesHandle(c, h) then Some(c.size) else BufferSize(t[..|t| - 1], h)
  }

  lemma BufferSizeSnoc(t: seq<Command>, c: Command, h: Handle)
    ensures BufferSize(t + [c], h) == if c.CreateBuffer? && CreatesHandle(c, h) then Some(c.size) else BufferSize(t, h)
  {
    assert (t + [c])[..|t + [c]| - 1] == t;
  }

  /** The entries bind group `g` was created with. */
  function BindGroupEntries(t: seq<Command>, g: Handle): Option<seq<BindEntry>>
    decreases |t|
  {
    if t == [] then None
    else
      var c := t[|t| - 1];
      if c.CreateBindGroup? && CreatesHandle(c, g) then Some(c.entries) else BindGroupEntries(t[..|t| - 1], g)
  }

  lemma BindGroupEntriesSnoc(t: seq<Command>, c: Command, g: Handle)
    ensures BindGroupEntries(t + [c], g)
         == if c.CreateBindGroup? && CreatesHandle(c, g) then Some(c.entries) else BindGroupEntries(t, g)
  {
    assert (t + [c])[..|t + [c]| - 1] == t;
  }

  /** The passes of the latest submitted command buffer. */
  function LastSubmit(t: seq<Command>): Option<seq<RecordedPass>>
    decreases |t|
  {
    if t == [] then None
    else
      var c := t[|t| - 1];
      if c.Submit? then Some(c.passes) else LastSubmit(t[..|t| - 1])
  }

  lemma LastSubmitSnoc(t: seq<Command>, c: Command)
    ensures LastSubmit(t + [c]) == if c.Submit? then Some(c.passes) else LastSubmit(t)
  {
    assert (t + [c])[..|t + [c]| - 1] == t;
  }

  /** The first entry with the given binding number. */
  function EntryFor(entries: seq<BindEntry>, binding: nat): (r: Option<BindEntry>)
    ensures r.Some? ==> r.value in entries && r.value.binding == binding
    ensures r.None? ==> forall e :: e in entries ==> e.binding != binding
  {
    if entries == [] then None
    else if entries[0].binding == binding then Some(entries[0])
    else EntryFor(entries[1..], binding)
  }

  /** The entry that the latest submission's pass `k` sees at `binding` of
      bind group `group`: the pass names the bind group, and the bind group's
      creation command names the buffer. */
  function SubmittedBinding(t: seq<Command>, k: nat, group: nat, binding: nat): Option<BindEntry>
  {
    match LastSubmit(t)
    case None => None
    case Some(passes) =>
      if k < |passes| && group < |passes[k].bindGroups| then
        match BindGroupEntries(t, passes[k].bindGroups[group])
        case None => None
        case Some(entries) => EntryFor(entries, binding)
      else None
  }

  /** The buffers a trace has uploaded particle data to. */
  function ParticleWriteTargets(t: seq<Command>): set<Handle>
    decreases |t|
  {
    if t == [] then {}
    else
      var c := t[|t| - 1];
      ParticleWriteTargets(t[..|t| - 1]) + if c.WriteBuffer? && c.data.ParticleData? then {c.buffer} else {}
  }

  lemma ParticleWriteTargetsSnoc(t: seq<Command>, c: Command)
    ensures ParticleWriteTargets(t + [c])
         == ParticleWriteTargets(t) + if c.WriteBuffer? && c.data.ParticleData? then {c.buffer} else {}
  {
    assert (t + [c])[..|t + [c]| - 1] == t;
  }

  /** The bind-group entry that the latest submission's pass `k` reads at
      (`group`, `binding`) lies within the buffer it names: the entry's size
      is the size that buffer was created with. */
  ghost predicate SubmittedBindingFits(t: seq<Command>, k: nat, group: nat, binding: nat)
  {
    match SubmittedBinding(t, k, group, binding)
    case None => false
    case Some(e) => e.offset == 0 && BufferSize(t, e.buffer) == Some(e.size)
  }

  // ---------------------------------------------------------------------------
  // Commands that leave a reader as it was

  /** Commands none of which creates a buffer leave every buffer size as it
      was. */
  lemma {:induction false} BufferSizeQuiet(t: seq<Command>, cs: seq<Command>, h: Handle)
    requires forall i :: 0 <= i < |cs| ==> !cs[i].CreateBuffer?
    ensures BufferSize(t + cs, h) == BufferSize(t, h)
    decreases |cs|
  {
    if cs == [] {
      assert t + cs == t;
    } else {
      var init := cs[..|cs| - 1];
      assert t + cs == (t + init) + [cs[|cs| - 1]];
      BufferSizeSnoc(t + init, cs[|cs| - 1], h);
      BufferSizeQuiet(t, init, h);
    }
  }

  /** Commands none of which creates a bind group leave every bind group's
      entries as they were. */
  lemma {:induction false} BindGroupEntriesQuiet(t: seq<Command>, cs: seq<Command>, g: Handle)
    requires forall i :: 0 <= i < |cs| ==> !cs[i].CreateBindGroup?
    ensures BindGroupEntries(t + cs, g) == BindGroupEntries(t, g)
    decreases |cs|
  {
    if cs == [] {
      assert t + cs == t;
    } else {
      var init := cs[..|cs| - 1];
      assert t + cs == (t + init) + [cs[|cs| - 1]];
      BindGroupEntriesSnoc(t + init, cs[|cs| - 1], g);
      BindGroupEntriesQuiet(t, init, g);
    }
  }

  /** Commands without a submission leave the latest submission as it was. */
  lemma {:induction false} LastSubmitQuiet(t: seq<Command>, cs: seq<Command>)
    requires forall i :: 0 <= i < |cs| ==> !cs[i].Submit?
    ensures LastSubmit(t + cs) == LastSubmit(t)
    decreases |cs|
  {
    if cs == [] {
      assert t + cs == t;
    } else {
      var init := cs[..|cs| - 1];
      assert t + cs == (t + init) + [cs[|cs| - 1]];
      LastSubmitSnoc(t + init, cs[|cs| - 1]);
      LastSubmitQuiet(t, init);
    }
  }

  /** Commands without a particle upload leave the uploaded-to buffers as
      they were. */
  lemma {:induction false} ParticleWriteTargetsQuiet(t: seq<Command>, cs: seq<Command>)
    requires forall i :: 0 <= i < |cs| ==> !(cs[i].WriteBuffer? && cs[i].data.ParticleData?)
    ensures ParticleWriteTargets(t + cs) == ParticleWriteTargets(t)
    decreases |cs|
  {
    if cs == [] {
      assert t + cs == t;
    } else {
      var init := cs[..|cs| - 1];
      assert t + cs == (t + init) + [cs[|cs| - 1]];
      ParticleWriteTargetsSnoc(t + init, cs[|cs| - 1]);
      ParticleWriteTargetsQuiet(t, init);
    }
  }
}
