/** Whole lifetimes of a ClothObject, the way the application drives one:
    construct it, call initiateNewCloth, call processFrame once per frame and
    terminateAll at the end. The device that answers the calls is the
    counter-and-trace device of module Gpu; the whole-run statements start
    from a device that holds nothing yet, as a new ClothObject's does. */
module Scenarios {
  import opened ClothTypes
  import opened Gpu
  import opened Cloth

  /** The ids from `lo` up to, not including, `hi`. */
  function IdRange(lo: nat, hi: nat): set<nat>
    decreases hi
  {
    if hi <= lo then {} else IdRange(lo, hi - 1) + {hi - 1}
  }

  lemma {:induction false} IdRangeMembers(lo: nat, hi: nat)
    ensures forall x :: x in IdRange(lo, hi) <==> lo <= x < hi
    decreases hi
  {
    if hi > lo {
      IdRangeMembers(lo, hi - 1);
    }
  }

  /** One frame's two new bind groups extend the range of live ids. */
  lemma IdRangeGrow(lo: nat, hi: nat)
    requires lo <= hi
    ensures IdRange(lo, hi + 2) == IdRange(lo, hi) + {hi, hi + 1}
  {
    assert IdRange(lo, hi + 2) == IdRange(lo, hi + 1) + {hi + 1};
  }

  /** The twelve ids initiateNewCloth hands out, added to a live set, as a
      range. */
  lemma AddTwelve(live: set<nat>, before: set<nat>, n: nat)
    requires live == before + { n, n + 1, n + 2, n + 3, n + 4, n + 5, n + 6, n + 7, n + 8, n + 9, n + 10, n + 11 }
    ensures live == before + IdRange(n, n + 12)
  {
    IdRangeMembers(n, n + 12);
  }

  /** The clock after `n` frames: processFrame adds `deltaT` to it once per
      call. */
  function Elapsed(n: nat, deltaT: Float): Float
  {
    if n == 0 then 0.0 else Elapsed(n - 1, deltaT) + deltaT
  }

  /** In exact arithmetic the sum of `n` equal steps is `n` times the step. */
  lemma {:induction false} ElapsedIsProduct(n: nat, deltaT: Float)
    ensures Elapsed(n, deltaT) == (n as real) * deltaT
  {
    if n > 0 {
      ElapsedIsProduct(n - 1, deltaT);
      assert (n as real) * deltaT == ((n - 1) as real) * deltaT + deltaT;
    }
  }

  /** What is still alive after terminateAll: the shader module (it was never
      stored in a member), the pipeline layout and the vertex pipeline (never
      released), and every bind group but the last pair. */
  lemma LeakedIds(first: nat, n: nat)
    ensures IdRange(first, first + 12) + IdRange(first + 12, first + 12 + 2 * n)
            - ({first + 10 + 2 * n, first + 11 + 2 * n, first + 3, first + 8}
               + {first + 4, first + 5, first, first + 1, first + 2})
            == {first + 6, first + 7, first + 9} + IdRange(first + 10, first + 10 + 2 * n)
  {
    var live := IdRange(first, first + 12) + IdRange(first + 12, first + 12 + 2 * n);
    var released := {first + 10 + 2 * n, first + 11 + 2 * n, first + 3, first + 8}
                    + {first + 4, first + 5, first, first + 1, first + 2};
    var leaked := {first + 6, first + 7, first + 9} + IdRange(first + 10, first + 10 + 2 * n);
    IdRangeMembers(first, first + 12);
    IdRangeMembers(first + 12, first + 12 + 2 * n);
    IdRangeMembers(first + 10, first + 10 + 2 * n);
    forall x: nat ensures x in live - released <==> x in leaked {
      if x < first + 10 {
        assert x in live <==> first <= x;
        assert x in leaked <==> x == first + 6 || x == first + 7 || x == first + 9;
      } else if x < first + 10 + 2 * n {
        assert x in live && x !in released && x in leaked;
      } else {
        assert x !in leaked && (x in live ==> x in released);
      }
    }
  }

  /** The ids terminateAll releases after `n` frames: the last pair of bind
      groups, the uniform buffer, the physics pipeline, the two layouts and
      the three storage buffers. The shader module member is null and gives
      none. */
  lemma RunTeardownIds(first: nat, n: nat)
    ensures TeardownIds(Live(first + 10 + 2 * n), Live(first + 11 + 2 * n), Live(first + 3), Live(first + 8), Null,
                        [Live(first + 4), Live(first + 5)], [Live(first), Live(first + 1)], Live(first + 2))
            == {first + 10 + 2 * n, first + 11 + 2 * n, first + 3, first + 8}
               + {first + 4, first + 5, first, first + 1, first + 2}
  {
  }

  /** initiateNewCloth on any valid object, whatever frame it is at, summed
      up for the clients below: frame and time restart at 0, the device hands
      out the next twelve ids, and the grid goes into the first of them. */
  method Start(cloth: ClothObject, p: ClothParameters)
    requires cloth.Valid() && cloth.CounterAhead() && ValidParameters(p)
    modifies cloth, cloth.particleBuffers, cloth.bindGroupLayouts
    ensures cloth.Valid() && cloth.CounterAhead() && cloth.Ready() && cloth.Sized()
    ensures cloth.parameters == p && cloth.frame == 0 && cloth.currentT == 0.0
    ensures cloth.particleBuffers[0] == Live(old(cloth.nextId)) && cloth.particleBuffers[1] == Live(old(cloth.nextId) + 1)
    ensures cloth.vertexBuffer == Live(old(cloth.nextId) + 2) && cloth.uniformBuffer == Live(old(cloth.nextId) + 3)
    ensures cloth.bindGroupLayouts[0] == Live(old(cloth.nextId) + 4) && cloth.bindGroupLayouts[1] == Live(old(cloth.nextId) + 5)
    ensures cloth.shaderModule == old(cloth.shaderModule) && cloth.pipeline == Live(old(cloth.nextId) + 8)
    ensures cloth.bindGroup == Live(old(cloth.nextId) + 10) && cloth.vertexBindGroup == Live(old(cloth.nextId) + 11)
    ensures cloth.nextId == old(cloth.nextId) + 12
    ensures LiveIds(cloth.trace) == LiveIds(old(cloth.trace)) + IdRange(old(cloth.nextId), old(cloth.nextId) + 12)
    ensures ParticleWriteTargets(cloth.trace) == ParticleWriteTargets(old(cloth.trace)) + {Live(old(cloth.nextId))}
  {
    ghost var n := cloth.nextId;
    cloth.InitiateNewCloth(p);
    AddTwelve(LiveIds(cloth.trace), LiveIds(old(cloth.trace)), n);
  }

  /** initiateNewCloth then one processFrame, on an object whose device has
      not received any particle data yet (a new ClothObject's has received
      nothing at all). The host seeds only the first particle buffer, while
      the first frame (frame 1) binds the second one as the physics input and
      the first as its output: the first dispatch reads particles the host
      never uploaded. */
  method FirstFrame(cloth: ClothObject, p: ClothParameters)
    returns (seeded: set<Handle>, input: Option<BindEntry>, output: Option<BindEntry>)
    requires cloth.Valid() && cloth.CounterAhead() && ValidParameters(p)
    requires ParticleWriteTargets(cloth.trace) == {}
    modifies cloth, cloth.particleBuffers, cloth.bindGroupLayouts
    ensures seeded == {Live(old(cloth.nextId))}
    ensures input == Some(BindEntry(1, Live(old(cloth.nextId) + 1), 0, ParticleBufferBytes(NumParticles(p))))
    ensures output == Some(BindEntry(2, Live(old(cloth.nextId)), 0, ParticleBufferBytes(NumParticles(p))))
    ensures input.value.buffer !in seeded
  {
    Start(cloth, p);
    cloth.ProcessFrame();
    seeded := ParticleWriteTargets(cloth.trace);
    input := SubmittedBinding(cloth.trace, 0, 0, 1);
    output := SubmittedBinding(cloth.trace, 0, 0, 2);
  }

  /** processFrame, summed up for the loop below: the bind groups it binds
      and the buffer slots its physics pass reads and writes. */
  method Step(cloth: ClothObject) returns (input: Handle, output: Handle)
    requires cloth.Valid() && cloth.CounterAhead()
    modifies cloth`frame, cloth`currentT, cloth`uniforms, cloth`bindGroup, cloth`vertexBindGroup,
             cloth`trace, cloth`nextId
    ensures cloth.Valid() && cloth.CounterAhead()
    ensures cloth.frame == old(cloth.frame) + 1
    ensures cloth.currentT == old(cloth.currentT) + cloth.parameters.deltaT
    ensures cloth.nextId == old(cloth.nextId) + 2
    ensures cloth.bindGroup == Live(old(cloth.nextId)) && cloth.vertexBindGroup == Live(old(cloth.nextId) + 1)
    ensures LiveIds(cloth.trace) == LiveIds(old(cloth.trace)) + {old(cloth.nextId), old(cloth.nextId) + 1}
    ensures input == cloth.particleBuffers[InputSlot(old(cloth.frame) + 1)]
    ensures output == cloth.particleBuffers[OutputSlot(old(cloth.frame) + 1)]
  {
    cloth.ProcessFrame();
    input := SubmittedBinding(cloth.trace, 0, 0, 1).value.buffer;
    output := SubmittedBinding(cloth.trace, 0, 0, 2).value.buffer;
  }

  /** `n` calls of processFrame. The physics pass of the k-th call reads
      the particle buffer in slot `(frame + k + 1) % 2` and writes the other
      one; each call brings two new bind groups to life and advances the clock
      by one time step. */
  method RunFrames(cloth: ClothObject, first: nat, n: nat) returns (inputs: seq<Handle>, outputs: seq<Handle>)
    requires cloth.Valid() && cloth.CounterAhead()
    requires cloth.particleBuffers[0] == Live(first) && cloth.particleBuffers[1] == Live(first + 1)
    modifies cloth`frame, cloth`currentT, cloth`uniforms, cloth`bindGroup, cloth`vertexBindGroup,
             cloth`trace, cloth`nextId
    ensures cloth.Valid() && cloth.CounterAhead()
    ensures cloth.frame == old(cloth.frame) + n
    ensures cloth.currentT == old(cloth.currentT) + Elapsed(n, cloth.parameters.deltaT)
    ensures cloth.nextId == old(cloth.nextId) + 2 * n
    ensures n == 0 ==> cloth.bindGroup == old(cloth.bindGroup) && cloth.vertexBindGroup == old(cloth.vertexBindGroup)
    ensures n > 0 ==> cloth.bindGroup == Live(old(cloth.nextId) + 2 * n - 2)
                      && cloth.vertexBindGroup == Live(old(cloth.nextId) + 2 * n - 1)
    ensures LiveIds(cloth.trace) == LiveIds(old(cloth.trace)) + IdRange(old(cloth.nextId), old(cloth.nextId) + 2 * n)
    ensures |inputs| == n && |outputs| == n
    ensures forall k :: 0 <= k < n ==>
      && inputs[k] == Live(first + InputSlot(old(cloth.frame) + k + 1))
      && outputs[k] == Live(first + OutputSlot(old(cloth.frame) + k + 1))
  {
    inputs, outputs := [], [];
    var i := 0;
    while i < n
      invariant 0 <= i <= n
      invariant cloth.Valid() && cloth.CounterAhead()
      invariant cloth.frame == old(cloth.frame) + i
      invariant cloth.currentT == old(cloth.currentT) + Elapsed(i, cloth.parameters.deltaT)
      invariant cloth.nextId == old(cloth.nextId) + 2 * i
      invariant i == 0 ==> cloth.bindGroup == old(cloth.bindGroup) && cloth.vertexBindGroup == old(cloth.vertexBindGroup)
      invariant i > 0 ==> cloth.bindGroup == Live(old(cloth.nextId) + 2 * i - 2)
                          && cloth.vertexBindGroup == Live(old(cloth.nextId) + 2 * i - 1)
      invariant LiveIds(cloth.trace) == LiveIds(old(cloth.trace)) + IdRange(old(cloth.nextId), old(cloth.nextId) + 2 * i)
      invariant |inputs| == i && |outputs| == i
      invariant forall k :: 0 <= k < i ==>
        && inputs[k] == Live(first + InputSlot(old(cloth.frame) + k + 1))
        && outputs[k] == Live(first + OutputSlot(old(cloth.frame) + k + 1))
    {
      var input, output := Step(cloth);
      assert input == Live(first + InputSlot(old(cloth.frame) + i + 1));
      assert output == Live(first + OutputSlot(old(cloth.frame) + i + 1));
      inputs, outputs := inputs + [input], outputs + [output];
      IdRangeGrow(old(cloth.nextId), old(cloth.nextId) + 2 * i);
      i := i + 1;
    }
  }

  /** initiateNewCloth, `n` frames and terminateAll, on an object whose
      device holds no live objects yet (a new ClothObject's holds none). It
      returns the particle buffers each frame's physics pass reads and writes,
      the clock at the end, and the ids the device still holds after the
      teardown. */
  method Simulate(cloth: ClothObject, p: ClothParameters, n: nat)
    returns (inputs: seq<Handle>, outputs: seq<Handle>, finalT: Float, leaked: set<nat>)
    requires cloth.Valid() && cloth.shaderModule == Null && ValidParameters(p)
    requires LiveIds(cloth.trace) == {}
    modifies cloth, cloth.particleBuffers, cloth.bindGroupLayouts
    ensures |inputs| == n && |outputs| == n
    ensures forall k :: 0 <= k < n ==>
      && inputs[k] == Live(old(cloth.nextId) + InputSlot(k + 1))
      && outputs[k] == Live(old(cloth.nextId) + OutputSlot(k + 1))
    ensures forall k :: 0 <= k < n ==> inputs[k] != outputs[k]
    ensures finalT == Elapsed(n, p.deltaT)
    ensures leaked == {old(cloth.nextId) + 6, old(cloth.nextId) + 7, old(cloth.nextId) + 9}
                      + IdRange(old(cloth.nextId) + 10, old(cloth.nextId) + 10 + 2 * n)
  {
    var first := cloth.nextId;
    Start(cloth, p);
    inputs, outputs, finalT, leaked := RunAndFinish(cloth, first, n);
  }

  /** `n` frames and terminateAll on an object that initiateNewCloth has just
      set up with the ids from `first` on, on a device that held nothing
      before. */
  method RunAndFinish(cloth: ClothObject, first: nat, n: nat)
    returns (inputs: seq<Handle>, outputs: seq<Handle>, finalT: Float, leaked: set<nat>)
    requires cloth.Valid() && cloth.CounterAhead() && cloth.frame == 0 && cloth.currentT == 0.0
    requires cloth.particleBuffers[0] == Live(first) && cloth.particleBuffers[1] == Live(first + 1)
    requires cloth.vertexBuffer == Live(first + 2) && cloth.uniformBuffer == Live(first + 3)
    requires cloth.bindGroupLayouts[0] == Live(first + 4) && cloth.bindGroupLayouts[1] == Live(first + 5)
    requires cloth.shaderModule == Null && cloth.pipeline == Live(first + 8)
    requires cloth.bindGroup == Live(first + 10) && cloth.vertexBindGroup == Live(first + 11)
    requires cloth.nextId == first + 12
    requires LiveIds(cloth.trace) == IdRange(first, first + 12)
    modifies cloth, cloth.particleBuffers, cloth.bindGroupLayouts
    ensures |inputs| == n && |outputs| == n
    ensures forall k :: 0 <= k < n ==>
      && inputs[k] == Live(first + InputSlot(k + 1))
      && outputs[k] == Live(first + OutputSlot(k + 1))
    ensures finalT == Elapsed(n, old(cloth.parameters.deltaT))
    ensures leaked == {first + 6, first + 7, first + 9} + IdRange(first + 10, first + 10 + 2 * n)
  {
    inputs, outputs := RunFrames(cloth, first, n);
    finalT := cloth.currentT;
    assert LiveIds(cloth.trace) == IdRange(first, first + 12) + IdRange(first + 12, first + 12 + 2 * n);
    leaked := Finish(cloth, first, n);
  }

  /** terminateAll after `n` frames on an object whose device objects got
      the ids from `first` on: what the device still holds. */
  method Finish(cloth: ClothObject, first: nat, n: nat) returns (leaked: set<nat>)
    requires cloth.Valid() && cloth.CounterAhead()
    requires cloth.particleBuffers[0] == Live(first) && cloth.particleBuffers[1] == Live(first + 1)
    requires cloth.vertexBuffer == Live(first + 2) && cloth.uniformBuffer == Live(first + 3)
    requires cloth.bindGroupLayouts[0] == Live(first + 4) && cloth.bindGroupLayouts[1] == Live(first + 5)
    requires cloth.shaderModule == Null && cloth.pipeline == Live(first + 8)
    requires cloth.bindGroup == Live(first + 10 + 2 * n) && cloth.vertexBindGroup == Live(first + 11 + 2 * n)
    requires LiveIds(cloth.trace) == IdRange(first, first + 12) + IdRange(first + 12, first + 12 + 2 * n)
    modifies cloth`bindGroup, cloth`vertexBindGroup, cloth`uniformBuffer, cloth`pipeline, cloth`shaderModule,
             cloth.bindGroupLayouts, cloth.particleBuffers, cloth`vertexBuffer, cloth`trace
    ensures leaked == {first + 6, first + 7, first + 9} + IdRange(first + 10, first + 10 + 2 * n)
  {
    assert cloth.bindGroupLayouts[..] == [Live(first + 4), Live(first + 5)];
    assert cloth.particleBuffers[..] == [Live(first), Live(first + 1)];
    cloth.TerminateAll();
    leaked := LiveIds(cloth.trace);
    RunTeardownIds(first, n);
    LeakedIds(first, n);
  }
}
