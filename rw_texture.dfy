/**
 * The double-buffered 3D texture of the earlier simulation (`ReadWriteTexture` with its
 * `textures`/`readIndex` fields): two texture handles, the index of the one kernels read, and
 * getters for the address of either handle.
 */
module RwTexture {
  import opened Wrappers
  import opened Gpu
  import opened DoubleBuffer

  /** A compute pass that began, and the one slot it binds for simultaneous reading and writing. */
  datatype Binding = Binding(slot: nat, cycle: bool)

  /**
   * The two handles are an array embedded in the object, so no other texture can share them;
   * the model holds them as a two-element sequence that each update reassigns.
   */
  class ReadWriteTexture {
    var textures: Slots
    var readIndex: Side

    /** The two slots and the read index, as a value. */
    function Value(): Field
      reads this
    {
      FieldValue(textures, readIndex)
    }

    /** Both slots start null and slot 0 is the read side. */
    constructor ()
      ensures Value() == Empty
    {
      textures := [None, None];
      readIndex := 0;
    }

    /**
     * Frees both slots, then allocates slot 0 and slot 1 of `size`³ cells, giving up at the first
     * allocation that fails. The read index is left alone.
     */
    method Create(device: Device, size: int) returns (ok: bool)
      modifies this, device
      ensures device.calls == old(device.calls) + CreateAttempts(device.answer(old(device.calls)))
      ensures Value() == Created(old(Value()), size, device.answer(old(device.calls)),
                                 device.answer(old(device.calls) + 1))
      ensures ok == CreateSucceeds(device.answer(old(device.calls)), device.answer(old(device.calls) + 1))
    {
      Free();
      ghost var c := device.calls;
      for i := 0 to 2
        invariant readIndex == old(readIndex)
        invariant device.calls == c + i
        invariant i >= 1 ==> device.answer(c) && textures[0] == Allocated(size)
        invariant i == 2 ==> device.answer(c + 1) && textures[1] == Allocated(size)
        invariant i == 0 ==> textures[0] == None
        invariant i <= 1 ==> textures[1] == None
      {
        var created := device.Call();
        textures := textures[i := if created then Allocated(size) else None];
        if textures[i].None? {
          return false;
        }
      }
      return true;
    }

    /** Releases both slots and nulls them, whatever they held. */
    method Free()
      modifies this
      ensures Value() == Freed(old(Value()))
    {
      for i := 0 to 2
        invariant readIndex == old(readIndex)
        invariant forall j :: 0 <= j < i ==> textures[j] == None
      {
        textures := textures[i := None];
      }
      assert textures == [None, None];
    }

    /** Begins a compute pass that binds the read side, without cycling it. */
    method BeginReadPass(device: Device) returns (pass: Option<Binding>)
      modifies device
      ensures device.calls == old(device.calls) + 1
      ensures pass.Some? <==> device.answer(old(device.calls))
      ensures pass.Some? ==> pass.value == Binding(ReadSlot(Value()), false)
    {
      var binding := Binding(readIndex, false);
      var begun := device.Call();
      pass := if begun then Some(binding) else None;
    }

    /** Begins a compute pass that binds the write side, without cycling it. */
    method BeginWritePass(device: Device) returns (pass: Option<Binding>)
      modifies device
      ensures device.calls == old(device.calls) + 1
      ensures pass.Some? <==> device.answer(old(device.calls))
      ensures pass.Some? ==> pass.value == Binding(WriteSlot(Value()), false)
    {
      var binding := Binding((readIndex + 1) % 2, false);
      var begun := device.Call();
      pass := if begun then Some(binding) else None;
    }

    /** Exchanges the read and write roles. */
    method Swap()
      modifies this
      ensures Value() == DoubleBuffer.Swap(old(Value()))
    {
      readIndex := (readIndex + 1) % 2;
    }

    method GetReadTexture() returns (t: Option<Volume>)
      ensures t == Read(Value()) && t == textures[ReadSlot(Value())]
    {
      t := textures[readIndex];
    }

    method GetWriteTexture() returns (t: Option<Volume>)
      ensures t == Write(Value()) && t == textures[WriteSlot(Value())]
    {
      t := textures[(readIndex + 1) % 2];
    }

    /**
     * The address of the read-side handle, as its position in the embedded array: the slot
     * `GetReadTexture` returns.
     */
    method GetReadTextureAddress() returns (i: nat)
      ensures i == ReadSlot(Value()) && i < |textures| && textures[i] == Read(Value())
    {
      i := readIndex;
    }

    /**
     * The address of the write-side handle, as its position in the embedded array: the slot
     * `GetWriteTexture` returns.
     */
    method GetWriteTextureAddress() returns (i: nat)
      ensures i == WriteSlot(Value()) && i < |textures| && textures[i] == Write(Value())
    {
      i := (readIndex + 1) % 2;
    }

    /** A dispatched kernel writing `g` into the texture bound as `slot`. */
    method Store(slot: nat, g: Grid)
      requires slot < 2
      modifies this
      ensures Value() == StoreAt(old(Value()), slot, g)
    {
      textures := textures[slot := Stored(textures[slot], g)];
    }
  }
}
