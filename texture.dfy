/**
 * The double-buffered 3D texture of the current simulation (`ReadWriteTexture` with its
 * `Textures`/`ReadIndex` fields): two texture handles and the index of the one kernels read.
 */
module Texture {
  import opened Wrappers
  import opened Gpu
  import opened DoubleBuffer

  /** A compute pass that began, and the one slot it binds for simultaneous reading and writing. */
  datatype Binding = Binding(slot: nat, cycle: bool)

  /**
   * The two handles are an array embedded in the object, so no other texture can share them;
   * the model holds them as a two-element sequence that each update reassigns.
   */
  class ReadWriteTexture {
    var Textures: Slots
    var ReadIndex: Side

    /** The two slots and the read index, as a value. */
    function Value(): Field
      reads this
    {
      FieldValue(Textures, ReadIndex)
    }

    /** Both slots start null and slot 0 is the read side. */
    constructor ()
      ensures Value() == Empty
    {
      Textures := [None, None];
      ReadIndex := 0;
    }

    /**
     * Frees both slots, then allocates slot 0 and slot 1 of `size`³ cells, giving up at the first
     * allocation that fails. The read index is left alone.
     */
    method Create(device: Device, size: int) returns (ok: bool)
      modifies this, device
      ensures device.calls == old(device.calls) + CreateAttempts(device.answer(old(device.calls)))
      ensures Value() == Created(old(Value()), size, device.answer(old(device.calls)),
                                 device.answer(old(device.calls) + 1))
      ensures ok == CreateSucceeds(device.answer(old(device.calls)), device.answer(old(device.calls) + 1))
    {
      Free();
      ghost var c := device.calls;
      for i := 0 to 2
        invariant ReadIndex == old(ReadIndex)
        invariant device.calls == c + i
        invariant i >= 1 ==> device.answer(c) && Textures[0] == Allocated(size)
        invariant i == 2 ==> device.answer(c + 1) && Textures[1] == Allocated(size)
        invariant i == 0 ==> Textures[0] == None
        invariant i <= 1 ==> Textures[1] == None
      {
        var created := device.Call();
        Textures := Textures[i := if created then Allocated(size) else None];
        if Textures[i].None? {
          return false;
        }
      }
      return true;
    }

    /** Releases both slots and nulls them, whatever they held. */
    method Free()
      modifies this
      ensures Value() == Freed(old(Value()))
    {
      Textures := [None, None];
    }

    /** Begins a compute pass that binds the read side, without cycling it. */
    method BeginReadPass(device: Device) returns (pass: Option<Binding>)
      modifies device
      ensures device.calls == old(device.calls) + 1
      ensures pass.Some? <==> device.answer(old(device.calls))
      ensures pass.Some? ==> pass.value == Binding(ReadSlot(Value()), false)
    {
      var binding := Binding(ReadIndex, false);
      var begun := device.Call();
      pass := if begun then Some(binding) else None;
    }

    /** Begins a compute pass that binds the write side, without cycling it. */
    method BeginWritePass(device: Device) returns (pass: Option<Binding>)
      modifies device
      ensures device.calls == old(device.calls) + 1
      ensures pass.Some? <==> device.answer(old(device.calls))
      ensures pass.Some? ==> pass.value == Binding(WriteSlot(Value()), false)
    {
      var binding := Binding((ReadIndex + 1) % 2, false);
      var begun := device.Call();
      pass := if begun then Some(binding) else None;
    }

    /** Exchanges the read and write roles. */
    method Swap()
      modifies this
      ensures Value() == DoubleBuffer.Swap(old(Value()))
    {
      ReadIndex := (ReadIndex + 1) % 2;
    }

    method GetReadTexture() returns (t: Option<Volume>)
      ensures t == Read(Value()) && t == Textures[ReadSlot(Value())]
    {
      t := Textures[ReadIndex];
    }

    method GetWriteTexture() returns (t: Option<Volume>)
      ensures t == Write(Value()) && t == Textures[WriteSlot(Value())]
    {
      t := Textures[(ReadIndex + 1) % 2];
    }

    /** A dispatched kernel writing `g` into the texture bound as `slot`. */
    method Store(slot: nat, g: Grid)
      requires slot < 2
      modifies this
      ensures Value() == StoreAt(old(Value()), slot, g)
    {
      Textures := Textures[slot := Stored(Textures[slot], g)];
    }
  }
}
