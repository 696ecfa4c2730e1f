/** Packing a model's tensors into one CUDA VMM allocation: layout, mapping size, copy and read-back. */
module CudaVmmPacking {
  import opened Integers

  const ALIGNMENT: nat := 256

  type Byte = b: int | 0 <= b < 256

  type Bytes = seq<Byte>

  /** A state_dict value: a CUDA tensor (contiguous bytes), a tensor elsewhere, or something else. */
  datatype Value = CudaTensor(bytes: Bytes) | OtherTensor | NotTensor

  datatype Packed = Packed(name: string, bytes: Bytes, offset: nat)

  datatype Result<+T> = Success(value: T) | NotOnCuda(name: string) | NoTensors

  /** create_allocation: at least one granule, otherwise the next multiple of the granularity. */
  function MappedBytes(requested: nat, granularity: nat): (mapped: nat)
    requires granularity > 0
    ensures requested <= mapped && granularity <= mapped && mapped % granularity == 0
    ensures mapped < requested + granularity || mapped == granularity
  {
    EuclideanRest(granularity, granularity, 1, 0);
    var rounded := RoundUp(requested, granularity);
    if rounded < granularity then granularity else rounded
  }

  // ----- the layout ------------------------------------------------------------------------------

  /** The tensors of a state dict, in its order. */
  function TensorsIn(state: seq<(string, Value)>): seq<(string, Bytes)> {
    if |state| == 0 then []
    else
      var front, last := TensorsIn(state[..|state| - 1]), state[|state| - 1];
      if last.1.CudaTensor? then front + [(last.0, last.1.bytes)] else front
  }

  predicate AllOnCuda(state: seq<(string, Value)>) { forall k | 0 <= k < |state| :: !state[k].1.OtherTensor? }

  predicate Holds(packed: seq<Packed>, tensors: seq<(string, Bytes)>) {
    |packed| == |tensors| && forall k | 0 <= k < |packed| :: (packed[k].name, packed[k].bytes) == tensors[k]
  }

  function TotalBytes(tensors: seq<(string, Bytes)>): nat {
    if |tensors| == 0 then 0 else TotalBytes(tensors[..|tensors| - 1]) + |tensors[|tensors| - 1].1|
  }

  function End(p: Packed): nat { p.offset + |p.bytes| }

  /** Aligned, in order, without overlap, ending at `total`. */
  predicate LaidOut(packed: seq<Packed>, total: nat) {
    && (forall k | 0 <= k < |packed| :: packed[k].offset % ALIGNMENT == 0)
    && (forall k | 0 <= k < |packed| - 1 :: End(packed[k]) <= packed[k + 1].offset < End(packed[k]) + ALIGNMENT)
    && (if |packed| == 0 then total == 0 else packed[0].offset == 0 && total == End(packed[|packed| - 1]))
  }

  lemma AppendKeeps(packed: seq<Packed>, total: nat, tensors: seq<(string, Bytes)>, next: Packed)
    requires LaidOut(packed, total) && Holds(packed, tensors) && next.offset == RoundUp(total, ALIGNMENT)
    ensures LaidOut(packed + [next], End(next)) && Holds(packed + [next], tensors + [(next.name, next.bytes)])
  {
    if packed == [] {
      EuclideanRest(0, ALIGNMENT, 0, 0);
    }
  }

  /** _pack_tensors_for_cuda_vmm */
  method Pack(state: seq<(string, Value)>) returns (res: Result<(seq<Packed>, nat)>)
    ensures if AllOnCuda(state) then res.Success? else res.NotOnCuda?
    ensures res.Success? ==> Holds(res.value.0, TensorsIn(state)) && LaidOut(res.value.0, res.value.1)
    ensures res.NotOnCuda? ==> exists k :: 0 <= k < |state| && state[k].0 == res.name && state[k].1.OtherTensor?
                                           && forall i | 0 <= i < k :: !state[i].1.OtherTensor?
  {
    var packed: seq<Packed> := [];
    var offset: nat := 0;
    for k := 0 to |state|
      invariant AllOnCuda(state[..k])
      invariant Holds(packed, TensorsIn(state[..k])) && LaidOut(packed, offset)
    {
      var (name, value) := state[k];
      assert state[..k + 1][..k] == state[..k];
      if value.OtherTensor? {
        assert forall i | 0 <= i < k :: state[i] == state[..k][i];
        return NotOnCuda(name);
      }
      if value.CudaTensor? {
        ghost var total := offset;
        offset := RoundUp(offset, ALIGNMENT);
        AppendKeeps(packed, total, TensorsIn(state[..k]), Packed(name, value.bytes, offset));
        packed := packed + [Packed(name, value.bytes, offset)];
        offset := offset + |value.bytes|;
      }
    }
    assert state[..|state|] == state;
    res := Success((packed, offset));
  }

  /** Which entries are packed: the CUDA tensors, each under its name with its bytes, in the order of the state
      dict. */
  lemma {:induction false} TensorsInAppends(a: seq<(string, Value)>, b: seq<(string, Value)>)
    ensures TensorsIn(a + b) == TensorsIn(a) + TensorsIn(b)
    ensures |b| == 1 && b[0].1.CudaTensor? ==> TensorsIn(b) == [(b[0].0, b[0].1.bytes)]
    ensures |b| == 0 || (|b| == 1 && !b[0].1.CudaTensor?) ==> TensorsIn(b) == []
    decreases |b|
  {
    if |b| == 0 {
      assert a + b == a;
    } else {
      assert (a + b)[..|a + b| - 1] == a + b[..|b| - 1];
      TensorsInAppends(a, b[..|b| - 1]);
    }
  }

  /** Any two packed tensors occupy disjoint intervals, the earlier one first, all below the total. */
  lemma {:induction false} InOrder(packed: seq<Packed>, total: nat, i: nat, j: nat)
    requires LaidOut(packed, total) && i < j < |packed|
    ensures End(packed[i]) <= packed[j].offset && End(packed[j]) <= total
    ensures packed[i].offset + |packed[i].bytes| <= packed[j].offset && packed[j].offset % 256 == 0
    decreases |packed| - i
  {
    assert End(packed[i]) <= packed[i + 1].offset;
    if i + 1 < j {
      InOrder(packed, total, i + 1, j);
    } else if j < |packed| - 1 {
      InOrder(packed, total, j, |packed| - 1);
      assert End(packed[j]) <= packed[j + 1].offset;
    }
  }

  lemma InBounds(packed: seq<Packed>, total: nat, i: nat)
    requires LaidOut(packed, total) && i < |packed|
    ensures End(packed[i]) <= total
  {
    if i < |packed| - 1 {
      InOrder(packed, total, i, i + 1);
    }
  }

  /** Alignment wastes at most 255 bytes before every tensor but the first. */
  lemma {:induction false} PackingWaste(packed: seq<Packed>, total: nat, tensors: seq<(string, Bytes)>)
    requires LaidOut(packed, total) && Holds(packed, tensors)
    ensures TotalBytes(tensors) <= total
    ensures total <= TotalBytes(tensors) + if |tensors| == 0 then 0 else (ALIGNMENT - 1) * (|tensors| - 1)
    decreases |packed|
  {
    if |packed| > 0 {
      var n := |packed| - 1;
      var front := packed[..n];
      PackingWaste(front, if n == 0 then 0 else End(front[n - 1]), tensors[..n]);
    }
  }

  // ----- copy and read-back ----------------------------------------------------------------------

  /** What reading one entry of the mapping returns. */
  function ReadEntry(memory: Bytes, offset: nat, nbytes: nat): Bytes
    requires offset + nbytes <= |memory|
  {
    memory[offset..offset + nbytes]
  }

  predicate Written(memory: Bytes, packed: seq<Packed>, n: nat)
    requires n <= |packed|
  {
    forall k | 0 <= k < n :: End(packed[k]) <= |memory| && ReadEntry(memory, packed[k].offset, |packed[k].bytes|)
        == packed[k].bytes
  }

  /** A copy of one tensor to its address. */
  method CopyTo(memory: array<Byte>, offset: nat, bytes: Bytes)
    requires offset + |bytes| <= memory.Length
    modifies memory
    ensures memory[..] == old(memory[..offset]) + bytes + old(memory[offset + |bytes|..])
  {
    forall i | offset <= i < offset + |bytes| {
      memory[i] := bytes[i - offset];
    }
  }

  lemma LaterCopyKeeps(before: Bytes, after: Bytes, packed: seq<Packed>, total: nat, n: nat)
    requires LaidOut(packed, total) && n < |packed| && total <= |before| == |after|
    requires Written(before, packed, n)
    requires End(packed[n]) <= |before|
    requires after == before[..packed[n].offset] + packed[n].bytes + before[End(packed[n])..]
    ensures Written(after, packed, n + 1)
  {
    forall k | 0 <= k < n + 1
      ensures End(packed[k]) <= |after| && ReadEntry(after, packed[k].offset, |packed[k].bytes|) == packed[k].bytes
    {
      InBounds(packed, total, k);
      if k < n {
        InOrder(packed, total, k, n);
        assert ReadEntry(after, packed[k].offset, |packed[k].bytes|)
            == ReadEntry(before, packed[k].offset, |packed[k].bytes|);
      }
    }
  }

  /** The publisher's copy loop over a mapping of the rounded size, with whatever bytes it held before. */
  method CopyAll(packed: seq<Packed>, total: nat, memory: array<Byte>)
    requires LaidOut(packed, total) && total <= memory.Length
    modifies memory
    ensures Written(memory[..], packed, |packed|)
  {
    for n := 0 to |packed|
      invariant Written(memory[..], packed, n)
    {
      InBounds(packed, total, n);
      ghost var before := memory[..];
      CopyTo(memory, packed[n].offset, packed[n].bytes);
      assert memory[..] == before[..packed[n].offset] + packed[n].bytes + before[End(packed[n])..];
      LaterCopyKeeps(before, memory[..], packed, total, n);
    }
  }

  /** What a consumer reads through the entries of a manifest. */
  method ReadAll(packed: seq<Packed>, memory: array<Byte>) returns (read: seq<(string, Bytes)>)
    requires Written(memory[..], packed, |packed|)
    ensures Holds(packed, read)
  {
    read := [];
    for k := 0 to |packed|
      invariant |read| == k && forall i | 0 <= i < k :: (packed[i].name, packed[i].bytes) == read[i]
    {
      read := read + [(packed[k].name, ReadEntry(memory[..], packed[k].offset, |packed[k].bytes|))];
    }
  }

  /** Publish into a fresh mapping, then read every (offset, nbytes) entry back. For every state dict,
      every granularity and whatever the mapping held before, the published tensors come back exactly. */
  method PublishAndRead(state: seq<(string, Value)>, granularity: nat, garbage: Byte)
    returns (res: Result<(seq<(string, Bytes)>, nat)>)
    requires granularity > 0
    ensures
      if !AllOnCuda(state) then res.NotOnCuda?
      else if TensorsIn(state) == [] then res.NoTensors?
      else res.Success? && res.value.0 == TensorsIn(state) && res.value.1 % granularity == 0
  {
    var packing := Pack(state);
    if !packing.Success? {
      return NotOnCuda(packing.name);
    }
    var (packed, requested) := packing.value;
    if packed == [] {
      return NoTensors;
    }
    var mapped := MappedBytes(requested, granularity);
    var memory := new Byte[mapped](i => garbage);
    CopyAll(packed, requested, memory);
    var read := ReadAll(packed, memory);
    assert read == TensorsIn(state);
    res := Success((read, mapped));
  }
}
