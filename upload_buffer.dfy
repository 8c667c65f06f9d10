/**
 * `UploadBuffer<T, U>`: elements staged in a mapped transfer buffer that grows like a vector, then
 * copied into a GPU buffer that grows only when it is too small. SDL transfer and GPU buffers are
 * arrays; mapping a transfer buffer is `data` pointing at it.
 */
module UploadBuffer {
  import opened Gpu

  type uint32 = n: int | 0 <= n < 0x1_0000_0000

  const StartingCapacity: uint32 := 10
  const GrowthRate: uint32 := 2

  /** The capacity a full transfer buffer grows to: `max(10, size * 2)` in `uint32` arithmetic. */
  function NextCapacity(size: uint32): (capacity: uint32)
    ensures capacity >= StartingCapacity
    ensures size < 0x8000_0000 ==> capacity > size && capacity == if size < 5 then 10 else 2 * size
  {
    var doubled := (size * GrowthRate) % 0x1_0000_0000;
    if StartingCapacity < doubled then doubled else StartingCapacity
  }

  /**
   * Whether `Emplace` appends, given the device's answers from call `c` on: a transfer buffer that
   * was unmapped by `Upload` must be mapped again, and a full one must be replaced by a larger one
   * that is created and mapped.
   */
  predicate EmplaceAppends(answer: nat -> bool, c: nat, remap: bool, grow: bool)
  {
    if remap then answer(c) else if grow then answer(c) && answer(c + 1) else true
  }

  /** How many device calls `Emplace` makes. */
  function EmplaceCalls(answer: nat -> bool, c: nat, remap: bool, grow: bool): nat
  {
    if remap then 1 else if grow then (if answer(c) then 2 else 1) else 0
  }

  class UploadBuffer<T(0)> {
    var buffer: array?<T>
    var transferBuffer: array?<T>
    var bufferSize: uint32
    var transferBufferSize: uint32
    var bufferCapacity: uint32
    var transferBufferCapacity: uint32
    var data: array?<T>

    ghost predicate Valid()
      reads this
    {
      && (buffer == null <==> bufferCapacity == 0)
      && (buffer != null ==> buffer.Length == bufferCapacity)
      && (transferBuffer == null <==> transferBufferCapacity == 0)
      && (transferBuffer != null ==> transferBuffer.Length == transferBufferCapacity)
      && (buffer == null || buffer != transferBuffer)
      && transferBufferSize <= transferBufferCapacity
      && (data == null || data == transferBuffer)
      // Only a mapped transfer buffer holds staged elements.
      && (data == null ==> transferBufferSize == 0)
    }

    /** The elements staged since the last upload. */
    ghost function Staged(): seq<T>
      reads this, transferBuffer
      requires Valid()
    {
      if transferBuffer == null then [] else transferBuffer[..transferBufferSize]
    }

    constructor ()
      ensures Valid() && Staged() == []
      ensures buffer == null && transferBuffer == null && data == null
      ensures bufferSize == 0 && transferBufferSize == 0
      ensures bufferCapacity == 0 && transferBufferCapacity == 0
    {
      buffer := null;
      transferBuffer := null;
      bufferSize := 0;
      transferBufferSize := 0;
      bufferCapacity := 0;
      transferBufferCapacity := 0;
      data := null;
    }

    /** Releases both buffers; every size and capacity is 0 afterwards. */
    method Destroy()
      requires Valid()
      modifies this
      ensures Valid() && Staged() == []
      ensures buffer == null && bufferSize == 0 && bufferCapacity == 0
      ensures transferBuffer == null && transferBufferSize == 0 && transferBufferCapacity == 0
      ensures data == null
    {
      buffer := null;
      bufferSize := 0;
      bufferCapacity := 0;
      DestroyTransferBuffer();
    }

    /** Releases the transfer buffer only; the GPU buffer and its size are kept. */
    method DestroyTransferBuffer()
      requires Valid()
      modifies this
      ensures Valid() && Staged() == []
      ensures transferBuffer == null && transferBufferSize == 0 && transferBufferCapacity == 0
      ensures data == null
      ensures buffer == old(buffer) && bufferSize == old(bufferSize) && bufferCapacity == old(bufferCapacity)
    {
      transferBuffer := null;
      transferBufferSize := 0;
      transferBufferCapacity := 0;
      data := null;
    }

    /**
     * Appends `x` to the staged elements. After an upload the transfer buffer is mapped again
     * (cycling it) and the uploaded size is forgotten; a full transfer buffer is replaced by one of
     * `NextCapacity` elements holding a copy of the staged ones. If a device call fails nothing is
     * appended and the staged elements, their count and the capacity stay as they were.
     */
    method Emplace(device: Device, x: T)
      requires Valid()
      requires transferBufferSize < 0x8000_0000
      modifies this, device, transferBuffer
      ensures Valid()
      ensures var remap := old(data == null && transferBuffer != null);
              var grow := !remap && old(transferBufferSize == transferBufferCapacity);
              device.calls == old(device.calls) + EmplaceCalls(device.answer, old(device.calls), remap, grow)
      ensures var remap := old(data == null && transferBuffer != null);
              var grow := !remap && old(transferBufferSize == transferBufferCapacity);
              if EmplaceAppends(device.answer, old(device.calls), remap, grow) then
                && Staged() == old(Staged()) + [x]
                && transferBufferSize == old(transferBufferSize) + 1
                && data != null
                && (grow ==> fresh(transferBuffer) && transferBufferCapacity == NextCapacity(old(transferBufferSize)))
                && (!grow ==> transferBuffer == old(transferBuffer) && transferBufferCapacity == old(transferBufferCapacity))
              else
                && Staged() == old(Staged())
                && transferBufferSize == old(transferBufferSize)
                && transferBuffer == old(transferBuffer)
                && transferBufferCapacity == old(transferBufferCapacity)
      ensures bufferSize == if old(data == null && transferBuffer != null) then 0 else old(bufferSize)
      ensures buffer == old(buffer) && bufferCapacity == old(bufferCapacity)
    {
      if data == null && transferBuffer != null {
        var mapped := Remap(device);
        if !mapped {
          return;
        }
      }
      if transferBufferSize == transferBufferCapacity {
        var grown := Grow(device);
        if !grown {
          return;
        }
      }
      data[transferBufferSize] := x;
      transferBufferSize := transferBufferSize + 1;
    }

    /**
     * The transfer buffer left unmapped by an upload, mapped again with cycling: it holds nothing
     * yet, and the GPU buffer's size is forgotten.
     */
    method Remap(device: Device) returns (mapped: bool)
      requires Valid() && data == null && transferBuffer != null
      modifies this, device
      ensures Valid()
      ensures device.calls == old(device.calls) + 1 && mapped == device.answer(old(device.calls))
      ensures mapped == (data != null)
      ensures transferBuffer == old(transferBuffer) && transferBufferCapacity == old(transferBufferCapacity)
      ensures transferBufferSize == old(transferBufferSize) == 0 && Staged() == old(Staged()) == []
      ensures bufferSize == 0 && buffer == old(buffer) && bufferCapacity == old(bufferCapacity)
    {
      bufferSize := 0;
      assert transferBufferSize == 0;
      mapped := device.Call();
      if !mapped {
        return;
      }
      data := transferBuffer;
    }

    /**
     * A full transfer buffer replaced by a larger one that is created and mapped, holding a copy of
     * the staged elements. When either call fails, the transfer buffer and its mapping are kept.
     */
    method Grow(device: Device) returns (grown: bool)
      requires Valid() && transferBufferSize == transferBufferCapacity < 0x8000_0000
      modifies this, device
      ensures Valid()
      ensures device.calls == old(device.calls) + (if device.answer(old(device.calls)) then 2 else 1)
      ensures grown == (device.answer(old(device.calls)) && device.answer(old(device.calls) + 1))
      ensures transferBufferSize == old(transferBufferSize) && Staged() == old(Staged())
      ensures grown ==> fresh(transferBuffer) && data == transferBuffer
      ensures grown ==> transferBufferCapacity == NextCapacity(old(transferBufferSize))
      ensures !grown ==> transferBuffer == old(transferBuffer) && data == old(data)
      ensures !grown ==> transferBufferCapacity == old(transferBufferCapacity)
      ensures bufferSize == old(bufferSize) && buffer == old(buffer) && bufferCapacity == old(bufferCapacity)
    {
      var capacity := NextCapacity(transferBufferSize);
      grown := false;
      var created := device.Call();
      if !created {
        return;
      }
      var larger := new T[capacity];
      var mapped := device.Call();
      if !mapped {
        return;
      }
      if data != null {
        forall i | 0 <= i < transferBufferSize {
          larger[i] := data[i];
        }
      }
      transferBufferCapacity := capacity;
      transferBuffer := larger;
      data := larger;
      grown := true;
    }

    /**
     * Unmaps the transfer buffer and copies the staged elements into the GPU buffer, which is
     * recreated at the transfer buffer's capacity when that is larger than its own. Afterwards
     * nothing is staged and `bufferSize` is the number of elements that were staged, except when
     * the GPU buffer could not be created: then no buffer is left and `bufferSize` keeps its old
     * value.
     */
    method Upload(device: Device)
      requires Valid()
      modifies this, device, buffer
      ensures Valid() && Staged() == [] && transferBufferSize == 0 && data == null
      ensures transferBuffer == old(transferBuffer) && transferBufferCapacity == old(transferBufferCapacity)
      ensures transferBuffer != null ==> transferBuffer[..] == old(transferBuffer[..])
      ensures old(transferBufferSize) == 0 ==>
                && bufferSize == 0 && buffer == old(buffer) && bufferCapacity == old(bufferCapacity)
                && device.calls == old(device.calls)
      ensures var grow := old(transferBufferSize) > 0 && old(transferBufferCapacity > bufferCapacity);
              && device.calls == old(device.calls) + (if grow then 1 else 0)
              && (grow && !device.answer(old(device.calls)) ==>
                    buffer == null && bufferCapacity == 0 && bufferSize == old(bufferSize))
              && (grow && device.answer(old(device.calls)) ==>
                    fresh(buffer) && bufferCapacity == old(transferBufferCapacity))
              && (old(transferBufferSize) > 0 && !grow ==>
                    buffer == old(buffer) && bufferCapacity == old(bufferCapacity))
      ensures Uploaded(old(transferBufferSize), old(device.calls), device) ==>
                && bufferSize == old(transferBufferSize) <= bufferCapacity
                && (bufferSize > 0 ==> buffer != null && buffer[..bufferSize] == old(Staged()))
    {
      if data != null {
        data := null;
      }
      var size := transferBufferSize;
      transferBufferSize := 0;
      if size == 0 {
        bufferSize := 0;
        return;
      }
      if transferBufferCapacity > bufferCapacity {
        buffer := null;
        bufferCapacity := 0;
        var created := device.Call();
        if !created {
          return;
        }
        buffer := new T[transferBufferCapacity];
        bufferCapacity := transferBufferCapacity;
      }
      forall i | 0 <= i < size {
        buffer[i] := transferBuffer[i];
      }
      bufferSize := size;
    }

    /**
     * Whether `Upload` copied the staged elements: always when there were none or the GPU buffer
     * was large enough, otherwise when creating the larger one succeeded.
     */
    ghost predicate Uploaded(staged: uint32, c: nat, device: Device)
      reads this, device
    {
      staged == 0 || bufferCapacity != 0 || device.answer(c)
    }

    /** The one device call `Upload` makes when it has to replace a GPU buffer that is too small. */
    static function GrowCalls(staged: uint32, transferCapacity: uint32, capacity: uint32): nat
    {
      if staged > 0 && transferCapacity > capacity then 1 else 0
    }

    /** The same upload in a copy pass of its own, skipped when the copy pass cannot begin. */
    method UploadInCommandBuffer(device: Device)
      requires Valid()
      modifies this, device, buffer
      ensures Valid()
      ensures !device.answer(old(device.calls)) ==>
                && device.calls == old(device.calls) + 1 && unchanged(this) && Staged() == old(Staged())
                && (buffer != null ==> buffer[..] == old(buffer[..]))
      ensures device.answer(old(device.calls)) ==>
                && Staged() == [] && transferBufferSize == 0 && data == null
                && transferBuffer == old(transferBuffer) && transferBufferCapacity == old(transferBufferCapacity)
                && (transferBuffer != null ==> transferBuffer[..] == old(transferBuffer[..]))
                && device.calls == old(device.calls) + 1 + GrowCalls(old(transferBufferSize), old(transferBufferCapacity), old(bufferCapacity))
                && (old(transferBufferSize) == 0 ==>
                      bufferSize == 0 && buffer == old(buffer) && bufferCapacity == old(bufferCapacity))
                && (GrowCalls(old(transferBufferSize), old(transferBufferCapacity), old(bufferCapacity)) == 1 ==>
                      if device.answer(old(device.calls) + 1)
                      then fresh(buffer) && bufferCapacity == old(transferBufferCapacity)
                      else buffer == null && bufferCapacity == 0 && bufferSize == old(bufferSize))
                && (old(transferBufferSize) > 0 && GrowCalls(old(transferBufferSize), old(transferBufferCapacity), old(bufferCapacity)) == 0 ==>
                      buffer == old(buffer) && bufferCapacity == old(bufferCapacity))
                && (Uploaded(old(transferBufferSize), old(device.calls) + 1, device) ==>
                      && bufferSize == old(transferBufferSize) <= bufferCapacity
                      && (bufferSize > 0 ==> buffer != null && buffer[..bufferSize] == old(Staged())))
    {
      var begun := device.Call();
      if !begun {
        return;
      }
      Upload(device);
    }

    /** The same upload in a command buffer of its own, skipped when none can be acquired. */
    method UploadNow(device: Device)
      requires Valid()
      modifies this, device, buffer
      ensures Valid()
      ensures !device.answer(old(device.calls)) ==>
                && device.calls == old(device.calls) + 1 && unchanged(this) && Staged() == old(Staged())
                && (buffer != null ==> buffer[..] == old(buffer[..]))
      ensures device.answer(old(device.calls)) && !device.answer(old(device.calls) + 1) ==>
                && device.calls == old(device.calls) + 2 && unchanged(this) && Staged() == old(Staged())
                && (buffer != null ==> buffer[..] == old(buffer[..]))
      ensures device.answer(old(device.calls)) && device.answer(old(device.calls) + 1) ==>
                && Staged() == [] && transferBufferSize == 0 && data == null
                && transferBuffer == old(transferBuffer) && transferBufferCapacity == old(transferBufferCapacity)
                && (transferBuffer != null ==> transferBuffer[..] == old(transferBuffer[..]))
                && device.calls == old(device.calls) + 2 + GrowCalls(old(transferBufferSize), old(transferBufferCapacity), old(bufferCapacity))
                && (old(transferBufferSize) == 0 ==>
                      bufferSize == 0 && buffer == old(buffer) && bufferCapacity == old(bufferCapacity))
                && (GrowCalls(old(transferBufferSize), old(transferBufferCapacity), old(bufferCapacity)) == 1 ==>
                      if device.answer(old(device.calls) + 2)
                      then fresh(buffer) && bufferCapacity == old(transferBufferCapacity)
                      else buffer == null && bufferCapacity == 0 && bufferSize == old(bufferSize))
                && (old(transferBufferSize) > 0 && GrowCalls(old(transferBufferSize), old(transferBufferCapacity), old(bufferCapacity)) == 0 ==>
                      buffer == old(buffer) && bufferCapacity == old(bufferCapacity))
                && (Uploaded(old(transferBufferSize), old(device.calls) + 2, device) ==>
                      && bufferSize == old(transferBufferSize) <= bufferCapacity
                      && (bufferSize > 0 ==> buffer != null && buffer[..bufferSize] == old(Staged())))
    {
      var acquired := device.Call();
      if !acquired {
        return;
      }
      UploadInCommandBuffer(device);
    }

    method GetBuffer() returns (b: array?<T>)
      ensures b == buffer
    {
      b := buffer;
    }

    method GetBufferSize() returns (n: uint32)
      ensures n == bufferSize
    {
      n := bufferSize;
    }

    /** The number of staged elements. */
    method GetTransferBufferSize() returns (n: uint32)
      requires Valid()
      ensures n == transferBufferSize == |Staged()|
    {
      n := transferBufferSize;
    }
  }
}
