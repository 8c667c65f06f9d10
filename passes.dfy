/**
 * The six double-buffered fields and the device's call counter as one value, and the compute
 * passes both iterations of the solver build their stages from. A pass takes the device's next
 * answer; when the pass does not begin the fields are left as they were.
 */
module Passes {
  import opened Wrappers
  import opened Gpu
  import opened DoubleBuffer

  const VelocityX: nat := 0
  const VelocityY: nat := 1
  const VelocityZ: nat := 2
  const Pressure: nat := 3
  const Divergence: nat := 4
  const Density: nat := 5
  const FieldCount: nat := 6

  datatype MachineValue = Machine(fields: seq<Field>, calls: nat)

  /** All six fields, and how many fallible device calls have been made. */
  type Machine = m: MachineValue | |m.fields| == FieldCount
    witness Machine([Empty, Empty, Empty, Empty, Empty, Empty], 0)

  datatype ContextValue = Context(answer: nat -> bool, threads: int, size: int, dt: nat)

  /** What a stage depends on besides the fields: the device's answers, THREADS, the size and dt. */
  type Context = c: ContextValue | c.threads >= 1
    witness Context(_ => true, 1, 0, 0)

  /** A device that never fails. */
  ghost predicate Reliable(ctx: Context)
  {
    forall n :: ctx.answer(n)
  }

  /** The full-volume workgroup counts. */
  function Whole(ctx: Context): Groups
  {
    Cube(ctx.size, ctx.threads)
  }

  function ReadOf(m: Machine, i: nat): Grid
    requires i < FieldCount
  {
    ReadCells(m.fields[i])
  }

  function WriteOf(m: Machine, i: nat): Grid
    requires i < FieldCount
  {
    WriteCells(m.fields[i])
  }

  /** The read sides of the three velocity fields, as kernels sample them. */
  function Velocity(m: Machine): seq<Grid>
  {
    [ReadOf(m, VelocityX), ReadOf(m, VelocityY), ReadOf(m, VelocityZ)]
  }

  /** The read side of field `i` followed by the velocity's, as a kernel samples the four. */
  function AndVelocity(m: Machine, i: nat): seq<Grid>
    requires i < FieldCount
  {
    [ReadOf(m, i), ReadOf(m, VelocityX), ReadOf(m, VelocityY), ReadOf(m, VelocityZ)]
  }

  /** Whether the next compute pass begins. */
  predicate Begins(m: Machine, ctx: Context)
  {
    ctx.answer(m.calls)
  }

  function Called(m: Machine): Machine
  {
    m.(calls := m.calls + 1)
  }

  function SwapField(m: Machine, i: nat): Machine
    requires i < FieldCount
  {
    m.(fields := m.fields[i := Swap(m.fields[i])])
  }

  /**
   * A pass that binds the write side of field `i` and dispatches `kernel` over it, sampling
   * `samples`; nothing is swapped.
   */
  function WritePass(m: Machine, ctx: Context, i: nat, kernel: Kernel, samples: seq<Grid>,
                     uniforms: seq<Uniform>, groups: Groups): Machine
    requires i < FieldCount
  {
    if !Begins(m, ctx) then Called(m)
    else Called(m).(fields := m.fields[i := StoreWrite(m.fields[i], Out(kernel, 0, [WriteOf(m, i)], samples, uniforms, groups))])
  }

  /** A pass that binds the read side of field `i` and lets `kernel` update it in place. */
  function ReadPass(m: Machine, ctx: Context, i: nat, kernel: Kernel, uniforms: seq<Uniform>,
                    groups: Groups): Machine
    requires i < FieldCount
  {
    if !Begins(m, ctx) then Called(m)
    else Called(m).(fields := m.fields[i := StoreRead(m.fields[i], Out(kernel, 0, [ReadOf(m, i)], [], uniforms, groups))])
  }

  /** For each of the six fields, whether its read side changes. */
  datatype Sides = Sides(vx: bool, vy: bool, vz: bool, pressure: bool, divergence: bool, density: bool)

  const Kept := Sides(false, false, false, false, false, false)

  /** The three velocity components. */
  const Velocities := Sides(true, true, true, false, false, false)

  /** Only field `i` changes sides. */
  function Only(i: nat): Sides
  {
    Sides(i == VelocityX, i == VelocityY, i == VelocityZ, i == Pressure, i == Divergence, i == Density)
  }

  /** The read index of each field changed exactly where `s` says. */
  predicate Flips(m: Machine, r: Machine, s: Sides)
  {
    && (r.fields[VelocityX].readIndex != m.fields[VelocityX].readIndex) == s.vx
    && (r.fields[VelocityY].readIndex != m.fields[VelocityY].readIndex) == s.vy
    && (r.fields[VelocityZ].readIndex != m.fields[VelocityZ].readIndex) == s.vz
    && (r.fields[Pressure].readIndex != m.fields[Pressure].readIndex) == s.pressure
    && (r.fields[Divergence].readIndex != m.fields[Divergence].readIndex) == s.divergence
    && (r.fields[Density].readIndex != m.fields[Density].readIndex) == s.density
  }

  /** Every field but field `i` is unchanged. */
  predicate Changes(m: Machine, r: Machine, i: nat)
    requires i < FieldCount
  {
    r.fields == m.fields[i := r.fields[i]]
  }

  /** Every field outside `s` is unchanged. */
  predicate Keeps(m: Machine, r: Machine, s: Sides)
  {
    && (s.vx || r.fields[VelocityX] == m.fields[VelocityX])
    && (s.vy || r.fields[VelocityY] == m.fields[VelocityY])
    && (s.vz || r.fields[VelocityZ] == m.fields[VelocityZ])
    && (s.pressure || r.fields[Pressure] == m.fields[Pressure])
    && (s.divergence || r.fields[Divergence] == m.fields[Divergence])
    && (s.density || r.fields[Density] == m.fields[Density])
  }

  /** A swap changes the read side of field `i` and nothing else. */
  lemma SwapFieldEffect(m: Machine, i: nat)
    requires i < FieldCount
    ensures var r := SwapField(m, i);
      && r.calls == m.calls && Changes(m, r, i) && r.fields[i] == Swap(m.fields[i])
  {
  }

  /**
   * A write pass takes one device answer. When the pass begins, the kernel's output lands in field
   * `i`'s write side and nothing else changes; otherwise no field changes.
   */
  lemma WritePassEffect(m: Machine, ctx: Context, i: nat, kernel: Kernel, samples: seq<Grid>,
                        uniforms: seq<Uniform>, groups: Groups)
    requires i < FieldCount
    ensures var r := WritePass(m, ctx, i, kernel, samples, uniforms, groups);
      && r.calls == m.calls + 1
      && Changes(m, r, i)
      && (!Begins(m, ctx) ==> r.fields == m.fields)
      && (Begins(m, ctx) ==>
            r.fields[i] == StoreWrite(m.fields[i], Out(kernel, 0, [WriteOf(m, i)], samples, uniforms, groups)))
  {
  }

  /** A read pass is a write pass into the read side, in place. */
  lemma ReadPassEffect(m: Machine, ctx: Context, i: nat, kernel: Kernel, uniforms: seq<Uniform>,
                       groups: Groups)
    requires i < FieldCount
    ensures var r := ReadPass(m, ctx, i, kernel, uniforms, groups);
      && r.calls == m.calls + 1
      && Changes(m, r, i)
      && (!Begins(m, ctx) ==> r.fields == m.fields)
      && (Begins(m, ctx) ==> r.fields[i] == StoreRead(m.fields[i], Out(kernel, 0, [ReadOf(m, i)], [], uniforms, groups)))
  {
  }
}
