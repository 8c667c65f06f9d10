/**
 * A double-buffered field as a value: two texture slots and the index of the one kernels read.
 * Both `ReadWriteTexture` classes are proved to follow these functions, and the solver
 * specifications are written in terms of them.
 */
module DoubleBuffer {
  import opened Wrappers
  import opened Gpu

  datatype FieldValue = FieldValue(slots: seq<Option<Volume>>, readIndex: int)

  /** A field has exactly two slots and reads one of them. */
  type Field = f: FieldValue | |f.slots| == 2 && 0 <= f.readIndex < 2
    witness FieldValue([None, None], 0)

  /** The two texture slots of a field. */
  type Slots = s: seq<Option<Volume>> | |s| == 2
    witness [None, None]

  /** Which of the two slots. */
  type Side = i: int | 0 <= i < 2

  /** The field of a default-constructed texture: no slot allocated, reading slot 0. */
  const Empty: Field := FieldValue([None, None], 0)

  /** The slot kernels read. */
  function ReadSlot(f: Field): (s: nat)
    ensures s < 2 && s == f.readIndex
  {
    f.readIndex
  }

  /** The slot kernels write: `(readIndex + 1) % 2`, always the other one. */
  function WriteSlot(f: Field): (s: nat)
    ensures s < 2 && s != ReadSlot(f) && s == 1 - f.readIndex
  {
    (f.readIndex + 1) % 2
  }

  function Read(f: Field): Option<Volume> { f.slots[ReadSlot(f)] }

  function Write(f: Field): Option<Volume> { f.slots[WriteSlot(f)] }

  function ReadCells(f: Field): Grid { Cells(Read(f)) }

  function WriteCells(f: Field): Grid { Cells(Write(f)) }

  /** Swap exchanges the two roles and leaves the slots alone. */
  function Swap(f: Field): (r: Field)
    ensures r.slots == f.slots && r.readIndex == 1 - f.readIndex
    ensures Read(r) == Write(f) && Write(r) == Read(f)
    ensures ReadSlot(r) == WriteSlot(f) && WriteSlot(r) == ReadSlot(f)
  {
    FieldValue(f.slots, (f.readIndex + 1) % 2)
  }

  lemma SwapTwice(f: Field)
    ensures Swap(Swap(f)) == f
  {
  }

  /** `n` consecutive swaps. */
  function SwapTimes(f: Field, n: nat): Field
    decreases n
  {
    if n == 0 then f else Swap(SwapTimes(f, n - 1))
  }

  /** An even number of swaps keeps both roles; an odd number exchanges them. */
  lemma {:induction false} SwapParity(f: Field, n: nat)
    ensures SwapTimes(f, n) == if n % 2 == 0 then f else Swap(f)
    decreases n
  {
    if n > 0 {
      SwapParity(f, n - 1);
      SwapTwice(f);
    }
  }

  /** Releases both slots; the read index is kept. */
  function Freed(f: Field): (r: Field)
    ensures r.slots == [None, None] && r.readIndex == f.readIndex
  {
    FieldValue([None, None], f.readIndex)
  }

  lemma FreedIdempotent(f: Field)
    ensures Freed(Freed(f)) == Freed(f)
  {
  }

  /** The slot a successful SDL_CreateGPUTexture produces. */
  function Allocated(size: int): Option<Volume> { Some(Volume(size, Undefined)) }

  /** `Create` succeeds exactly when both allocations do. */
  predicate CreateSucceeds(allocated0: bool, allocated1: bool)
  {
    allocated0 && allocated1
  }

  /**
   * The field after `Create`: freed, then slot 0 and then slot 1 allocated, stopping at the first
   * failed allocation, which leaves that slot and the later one null. The read index is kept.
   */
  function Created(f: Field, size: int, allocated0: bool, allocated1: bool): (r: Field)
    ensures r.readIndex == f.readIndex
    ensures r.slots[0] == if allocated0 then Allocated(size) else None
    ensures r.slots[1] == if allocated0 && allocated1 then Allocated(size) else None
    ensures CreateSucceeds(allocated0, allocated1) ==> r.slots == [Allocated(size), Allocated(size)]
  {
    var first := if allocated0 then Allocated(size) else None;
    var second := if allocated0 && allocated1 then Allocated(size) else None;
    FieldValue([first, second], f.readIndex)
  }

  /** How many device calls `Create` makes: the second allocation is attempted only after the first. */
  function CreateAttempts(allocated0: bool): nat
  {
    if allocated0 then 2 else 1
  }

  /** A kernel's result written into slot `s`; a null slot stays null and nothing else changes. */
  function StoreAt(f: Field, s: nat, g: Grid): (r: Field)
    requires s < 2
    ensures r.readIndex == f.readIndex
    ensures r.slots[s] == Stored(f.slots[s], g)
    ensures r.slots[1 - s] == f.slots[1 - s]
  {
    FieldValue(f.slots[s := Stored(f.slots[s], g)], f.readIndex)
  }

  /** A kernel's result written in place into the read side (a read pass). */
  function StoreRead(f: Field, g: Grid): (r: Field)
    ensures ReadSlot(r) == ReadSlot(f) && Read(r) == Stored(Read(f), g) && Write(r) == Write(f)
  {
    StoreAt(f, ReadSlot(f), g)
  }

  /** A kernel's result written into the write side (a write pass). */
  function StoreWrite(f: Field, g: Grid): (r: Field)
    ensures ReadSlot(r) == ReadSlot(f) && Write(r) == Stored(Write(f), g) && Read(r) == Read(f)
  {
    StoreAt(f, WriteSlot(f), g)
  }

  /**
   * The usual stage on one field: write the result into the write side, then swap, so the result
   * becomes what later kernels read and the previous read side is the next scratch texture.
   */
  lemma WriteThenSwap(f: Field, g: Grid)
    ensures Read(Swap(StoreWrite(f, g))) == Stored(Write(f), g)
    ensures Write(Swap(StoreWrite(f, g))) == Read(f)
    ensures ReadSlot(Swap(StoreWrite(f, g))) == WriteSlot(f)
  {
  }
}
