/**
 * The compute stages of the current solver and the tick that chains them, as functions of the
 * six fields. Each stage begins its compute passes in order; a pass that does not begin skips
 * its dispatch and, where the stage swaps after it, that swap too. What each stage does to the
 * fields is stated by the lemma named after it with `Effect` appended.
 */
module Pipeline {
  import opened Wrappers
  import opened Gpu
  import opened DoubleBuffer
  import opened Passes

  /** Injects `value` at one cell of field `i`, in place on its read side. */
  function Add1(m: Machine, ctx: Context, i: nat, x: int, y: int, z: int, value: Float): Machine
    requires i < FieldCount
  {
    ReadPass(m, ctx, i, Kernel.Add1, [UPosition(x, y, z), UFloat(value)], Groups(1, 1, 1))
  }

  /** Adds `value` to every cell of field `i`, in place on its read side. */
  function Add2(m: Machine, ctx: Context, i: nat, value: Float): Machine
    requires i < FieldCount
  {
    ReadPass(m, ctx, i, Kernel.Add2, [UFloat(value)], Whole(ctx))
  }

  /** Diffuses field `i` into its write side with `coefficient`, then swaps it. */
  function Diffuse(m: Machine, ctx: Context, i: nat, coefficient: Float): Machine
    requires i < FieldCount
  {
    var w := WritePass(m, ctx, i, Kernel.Diffuse, [ReadOf(m, i)], [UDt(ctx.dt), UFloat(coefficient)], Whole(ctx));
    if Begins(m, ctx) then SwapField(w, i) else w
  }

  /** What Project1 writes into its target `a`: 0 is the pressure, 1 the divergence. */
  function Divergent(m: Machine, ctx: Context, a: nat): Grid
  {
    Out(Kernel.Project1, a, [WriteOf(m, Pressure), WriteOf(m, Divergence)], Velocity(m), [], Whole(ctx))
  }

  /** Divergence of the velocity into pressure's and divergence's write sides; both are swapped. */
  function Project1(m: Machine, ctx: Context): Machine
  {
    if !Begins(m, ctx) then Called(m)
    else
      var pressure := Swap(StoreWrite(m.fields[Pressure], Divergent(m, ctx, 0)));
      var divergence := Swap(StoreWrite(m.fields[Divergence], Divergent(m, ctx, 1)));
      Called(m).(fields := m.fields[Pressure := pressure][Divergence := divergence])
  }

  /** One pressure relaxation from the divergence into pressure's write side; pressure is swapped. */
  function Project2(m: Machine, ctx: Context): Machine
  {
    var w := WritePass(m, ctx, Pressure, Kernel.Project2, [ReadOf(m, Divergence)], [], Whole(ctx));
    if Begins(m, ctx) then SwapField(w, Pressure) else w
  }

  /** What Project3 writes into velocity component `a`. */
  function Projected(m: Machine, ctx: Context, a: nat): Grid
  {
    Out(Kernel.Project3, a, [WriteOf(m, VelocityX), WriteOf(m, VelocityY), WriteOf(m, VelocityZ)],
        AndVelocity(m, Pressure), [], Whole(ctx))
  }

  /** Subtracts the pressure gradient into the three velocity write sides; all three are swapped. */
  function Project3(m: Machine, ctx: Context): Machine
  {
    if !Begins(m, ctx) then Called(m)
    else
      var x := Swap(StoreWrite(m.fields[VelocityX], Projected(m, ctx, 0)));
      var y := Swap(StoreWrite(m.fields[VelocityY], Projected(m, ctx, 1)));
      var z := Swap(StoreWrite(m.fields[VelocityZ], Projected(m, ctx, 2)));
      Called(m).(fields := m.fields[VelocityX := x][VelocityY := y][VelocityZ := z])
  }

  /** What Advect1 writes into velocity component `a` when it reads the velocity of `m`. */
  function Advected(m: Machine, ctx: Context, a: nat): Grid
    requires a < 3
  {
    Out(Kernel.Advect1, 0, [WriteOf(m, a)], Velocity(m), [UInt(a), UDt(ctx.dt)], Whole(ctx))
  }

  /** Advects velocity component `axis` into its write side; nothing is swapped. */
  function Advect1(m: Machine, ctx: Context, axis: nat): Machine
    requires axis < 3
  {
    WritePass(m, ctx, axis, Kernel.Advect1, Velocity(m), [UInt(axis), UDt(ctx.dt)], Whole(ctx))
  }

  /** Advects the density along the velocity into its write side, then swaps it. */
  function Advect2(m: Machine, ctx: Context): Machine
  {
    var w := WritePass(m, ctx, Density, Kernel.Advect2, AndVelocity(m, Density), [UDt(ctx.dt)], Whole(ctx));
    if Begins(m, ctx) then SwapField(w, Density) else w
  }

  /** One boundary pass over field `i`: it samples the read side and writes the write side. */
  function BoundaryPass(m: Machine, ctx: Context, i: nat, kernel: Kernel, uniforms: seq<Uniform>,
                        groups: Groups): Machine
    requires i < FieldCount
  {
    WritePass(m, ctx, i, kernel, [ReadOf(m, i)], uniforms, groups)
  }

  function Bnd1(m: Machine, ctx: Context, i: nat, kind: int): Machine
    requires i < FieldCount
  {
    var g := GroupCount(ctx.size, ctx.threads);
    BoundaryPass(m, ctx, i, Kernel.Bnd1, [UInt(kind)], Groups(g, g, 2))
  }

  function Bnd2(m: Machine, ctx: Context, i: nat, kind: int): Machine
    requires i < FieldCount
  {
    var g := GroupCount(ctx.size, ctx.threads);
    BoundaryPass(m, ctx, i, Kernel.Bnd2, [UInt(kind)], Groups(g, 2, g))
  }

  function Bnd3(m: Machine, ctx: Context, i: nat, kind: int): Machine
    requires i < FieldCount
  {
    var g := GroupCount(ctx.size, ctx.threads);
    BoundaryPass(m, ctx, i, Kernel.Bnd3, [UInt(kind)], Groups(2, g, g))
  }

  function Bnd4(m: Machine, ctx: Context, i: nat): Machine
    requires i < FieldCount
  {
    BoundaryPass(m, ctx, i, Kernel.Bnd4, [], Groups(1, 1, 1))
  }

  function Bnd5(m: Machine, ctx: Context, i: nat): Machine
    requires i < FieldCount
  {
    BoundaryPass(m, ctx, i, Kernel.Bnd5, [], Whole(ctx))
  }

  /** Bnd1 to Bnd5 in order, each sampling the unchanged read side of field `i`. */
  function BoundaryPasses(m: Machine, ctx: Context, i: nat, kind: int): Machine
    requires i < FieldCount
  {
    var m1 := Bnd1(m, ctx, i, kind);
    var m2 := Bnd2(m1, ctx, i, kind);
    var m3 := Bnd3(m2, ctx, i, kind);
    var m4 := Bnd4(m3, ctx, i);
    Bnd5(m4, ctx, i)
  }

  /**
   * The boundary sub-pipeline: five passes into the write side of field `i`, each sampling the
   * unchanged read side, then one swap. The swap happens whether or not the passes began, so when
   * none began the field reads its old write side.
   */
  function Bnd(m: Machine, ctx: Context, i: nat, kind: int): Machine
    requires i < FieldCount
  {
    SwapField(BoundaryPasses(m, ctx, i, kind), i)
  }

  /* ---- the tick (the body of `if (cooldown <= 0)` in Update) ---- */

  /** How many times `for (int i = 0; i < iterations; i++)` runs. */
  function Loops(iterations: int): (n: nat)
    ensures iterations >= 0 ==> n == iterations
    ensures iterations < 0 ==> n == 0
  {
    if iterations > 0 then iterations else 0
  }

  /** The boundary passes of the three velocity components, with their types 1, 2 and 3. */
  function BoundVelocity(m: Machine, ctx: Context): Machine
  {
    Bnd(Bnd(Bnd(m, ctx, VelocityX, 1), ctx, VelocityY, 2), ctx, VelocityZ, 3)
  }

  /** One velocity diffusion iteration: diffuse the three components, then bound each. */
  function VelocityStep(m: Machine, ctx: Context, viscosity: Float): Machine
  {
    var m1 := Diffuse(m, ctx, VelocityX, viscosity);
    var m2 := Diffuse(m1, ctx, VelocityY, viscosity);
    var m3 := Diffuse(m2, ctx, VelocityZ, viscosity);
    BoundVelocity(m3, ctx)
  }

  /** The first `n` velocity diffusion iterations. */
  function VelocityDiffusion(m: Machine, ctx: Context, viscosity: Float, n: nat): Machine
    decreases n
  {
    if n == 0 then m else VelocityStep(VelocityDiffusion(m, ctx, viscosity, n - 1), ctx, viscosity)
  }

  /** One pressure iteration: relax, then bound the pressure. */
  function PressureStep(m: Machine, ctx: Context): Machine
  {
    Bnd(Project2(m, ctx), ctx, Pressure, 0)
  }

  /** The first `n` pressure iterations. */
  function PressureSolve(m: Machine, ctx: Context, n: nat): Machine
    decreases n
  {
    if n == 0 then m else PressureStep(PressureSolve(m, ctx, n - 1), ctx)
  }

  /** The divergence of the velocity and the pressure's start, each bounded. */
  function ComputeDivergence(m: Machine, ctx: Context): Machine
  {
    Bnd(Bnd(Project1(m, ctx), ctx, Divergence, 0), ctx, Pressure, 0)
  }

  /** The pressure gradient subtracted from the velocity, each component bounded. */
  function SubtractGradient(m: Machine, ctx: Context): Machine
  {
    BoundVelocity(Project3(m, ctx), ctx)
  }

  /** The projection after the velocity diffusion, each step followed by its boundary passes. */
  function Projection(m: Machine, ctx: Context, n: nat): Machine
  {
    SubtractGradient(PressureSolve(ComputeDivergence(m, ctx), ctx, n), ctx)
  }

  /**
   * The three Advect1 dispatches and only then the three velocity swaps. Every component is
   * advected along the same velocity, the one before the first dispatch.
   */
  function Advection(m: Machine, ctx: Context): Machine
  {
    var m1 := Advect1(m, ctx, VelocityX);
    var m2 := Advect1(m1, ctx, VelocityY);
    var m3 := Advect1(m2, ctx, VelocityZ);
    SwapField(SwapField(SwapField(m3, VelocityX), VelocityY), VelocityZ)
  }

  /** The advection of the velocity followed by its boundary passes. */
  function VelocityAdvection(m: Machine, ctx: Context): Machine
  {
    BoundVelocity(Advection(m, ctx), ctx)
  }

  /** The projection after the advection: Project1, one Project2 and Project3, with no boundary pass. */
  function FinalProjection(m: Machine, ctx: Context): Machine
  {
    Project3(Project2(Project1(m, ctx), ctx), ctx)
  }

  /** The density is diffused, advected and then bounded. */
  function DensityStep(m: Machine, ctx: Context, diffusion: Float): Machine
  {
    Bnd(Advect2(Diffuse(m, ctx, Density, diffusion), ctx), ctx, Density, 0)
  }

  /** One simulation step. Every stage attempts its passes whatever happened to earlier ones. */
  function Tick(m: Machine, ctx: Context, iterations: int, viscosity: Float, diffusion: Float): Machine
  {
    var n := Loops(iterations);
    var m1 := VelocityDiffusion(m, ctx, viscosity, n);
    var m2 := Projection(m1, ctx, n);
    var m3 := VelocityAdvection(m2, ctx);
    var m4 := FinalProjection(m3, ctx);
    DensityStep(m4, ctx, diffusion)
  }

  /* ---- CreateCells ---- */

  datatype ClearCommandValue = ClearCommand(field: nat, slot: nat)

  /** A Clear dispatch recorded in CreateCells' command buffer: the field and slot it fills with 0. */
  type ClearCommand = c: ClearCommandValue | c.field < FieldCount && c.slot < 2
    witness ClearCommand(0, 0)

  /** The GPU running the recorded clears, in order, when the command buffer is submitted. */
  function Execute(m: Machine, commands: seq<ClearCommand>): Machine
    decreases |commands|
  {
    if |commands| == 0 then m
    else
      var c := commands[0];
      Execute(m.(fields := m.fields[c.field := StoreAt(m.fields[c.field], c.slot, Filled(Zero))]), commands[1..])
  }

  /** Clear (value 0) on field `i`: a write pass recorded into the command buffer, no swap. */
  function Clear(m: Machine, ctx: Context, i: nat): (Machine, seq<ClearCommand>)
    requires i < FieldCount
  {
    (Called(m), if Begins(m, ctx) then [ClearCommand(i, WriteSlot(m.fields[i]))] else [])
  }

  /**
   * One iteration of CreateCells' loop on field `i`: create its textures, then (when both were
   * created) clear the write side, swap, and clear the new write side. The clears are only
   * recorded.
   */
  function CreateField(m: Machine, ctx: Context, i: nat): (Machine, seq<ClearCommand>, bool)
    requires i < FieldCount
  {
    var allocated0 := ctx.answer(m.calls);
    var allocated1 := ctx.answer(m.calls + 1);
    var created := Machine(m.fields[i := Created(m.fields[i], ctx.size, allocated0, allocated1)],
                           m.calls + CreateAttempts(allocated0));
    if !CreateSucceeds(allocated0, allocated1) then (created, [], false)
    else
      var first := Clear(created, ctx, i);
      var swapped := SwapField(first.0, i);
      var second := Clear(swapped, ctx, i);
      (second.0, first.1 + second.1, true)
  }

  /**
   * The loop of CreateCells from field `i` on, with the clears recorded so far in `pending`. It
   * gives up at the first field whose textures cannot be created, without submitting; after the
   * last field the recorded clears run.
   */
  function CreateFrom(m: Machine, ctx: Context, i: nat, pending: seq<ClearCommand>): (Machine, bool)
    requires i <= FieldCount
    decreases FieldCount - i
  {
    if i == FieldCount then (Execute(m, pending), true)
    else
      var step := CreateField(m, ctx, i);
      if !step.2 then (step.0, false)
      else CreateFrom(step.0, ctx, i + 1, pending + step.1)
  }

  /** CreateCells: acquire a command buffer, then create and clear all six fields. */
  function CreateCells(m: Machine, ctx: Context): (Machine, bool)
  {
    if !Begins(m, ctx) then (Called(m), false) else CreateFrom(Called(m), ctx, 0, [])
  }

  /** A field holding nothing but textures CreateCells allocated and did not clear. */
  predicate Uncleared(f: Field, size: int)
  {
    forall t :: 0 <= t < 2 ==> f.slots[t] == None || f.slots[t] == Allocated(size)
  }

  /** A field whose two textures are allocated and hold 0. */
  predicate Cleared(f: Field, size: int)
  {
    f.slots == [Some(Volume(size, Filled(Zero))), Some(Volume(size, Filled(Zero)))]
  }

  /** `s` then `t`: a field changes sides when exactly one of them changes it. */
  function Then(s: Sides, t: Sides): Sides
  {
    Sides(s.vx != t.vx, s.vy != t.vy, s.vz != t.vz, s.pressure != t.pressure,
          s.divergence != t.divergence, s.density != t.density)
  }

  /* ---- what each stage does ---- */

  /** Add1 takes one device answer and, when its pass begins, stores the injection on the read side. */
  lemma Add1Effect(m: Machine, ctx: Context, i: nat, x: int, y: int, z: int, value: Float)
    requires i < FieldCount
    ensures var r := Add1(m, ctx, i, x, y, z, value);
      && r.calls == m.calls + 1
      && Keeps(m, r, Only(i))
      && r.fields[i].readIndex == m.fields[i].readIndex && Write(r.fields[i]) == Write(m.fields[i])
      && (Begins(m, ctx) ==>
            Read(r.fields[i]) == Stored(Read(m.fields[i]), Out(Kernel.Add1, 0, [ReadOf(m, i)], [], [UPosition(x, y, z), UFloat(value)], Groups(1, 1, 1))))
      && (!Begins(m, ctx) ==> r.fields == m.fields)
  {
    ReadPassEffect(m, ctx, i, Kernel.Add1, [UPosition(x, y, z), UFloat(value)], Groups(1, 1, 1));
  }

  /** Add2 takes one device answer and, when its pass begins, stores the sum on the read side. */
  lemma Add2Effect(m: Machine, ctx: Context, i: nat, value: Float)
    requires i < FieldCount
    ensures var r := Add2(m, ctx, i, value);
      && r.calls == m.calls + 1
      && Keeps(m, r, Only(i))
      && r.fields[i].readIndex == m.fields[i].readIndex && Write(r.fields[i]) == Write(m.fields[i])
      && (Begins(m, ctx) ==>
            Read(r.fields[i]) == Stored(Read(m.fields[i]), Out(Kernel.Add2, 0, [ReadOf(m, i)], [], [UFloat(value)], Whole(ctx))))
      && (!Begins(m, ctx) ==> r.fields == m.fields)
  {
    ReadPassEffect(m, ctx, i, Kernel.Add2, [UFloat(value)], Whole(ctx));
  }

  /** Diffuse reads the diffusion it wrote exactly when its pass began; otherwise nothing changes. */
  lemma DiffuseEffect(m: Machine, ctx: Context, i: nat, coefficient: Float)
    requires i < FieldCount
    ensures var r := Diffuse(m, ctx, i, coefficient);
      && r.calls == m.calls + 1
      && Keeps(m, r, Only(i))
      && (Begins(m, ctx) ==> Flips(m, r, Only(i)) && r.fields[i] == Swap(StoreWrite(m.fields[i],
            Out(Kernel.Diffuse, 0, [WriteOf(m, i)], [ReadOf(m, i)], [UDt(ctx.dt), UFloat(coefficient)], Whole(ctx)))))
      && (!Begins(m, ctx) ==> r.fields == m.fields)
  {
    var w := WritePass(m, ctx, i, Kernel.Diffuse, [ReadOf(m, i)], [UDt(ctx.dt), UFloat(coefficient)], Whole(ctx));
    WritePassEffect(m, ctx, i, Kernel.Diffuse, [ReadOf(m, i)], [UDt(ctx.dt), UFloat(coefficient)], Whole(ctx));
    if Begins(m, ctx) {
      SwapFieldEffect(w, i);
    }
  }

  /** Project1 writes and swaps the pressure and the divergence together, or changes no field. */
  lemma Project1Effect(m: Machine, ctx: Context)
    ensures var r := Project1(m, ctx);
      && r.calls == m.calls + 1
      && Keeps(m, r, Sides(false, false, false, true, true, false))
      && (Begins(m, ctx) ==>
            && Flips(m, r, Sides(false, false, false, true, true, false))
            && r.fields[Pressure] == Swap(StoreWrite(m.fields[Pressure], Divergent(m, ctx, 0)))
            && r.fields[Divergence] == Swap(StoreWrite(m.fields[Divergence], Divergent(m, ctx, 1))))
      && (!Begins(m, ctx) ==> r.fields == m.fields)
  {
  }

  /** Project2 relaxes the pressure from the divergence and swaps it, or changes no field. */
  lemma Project2Effect(m: Machine, ctx: Context)
    ensures var r := Project2(m, ctx);
      && r.calls == m.calls + 1
      && Keeps(m, r, Only(Pressure))
      && (Begins(m, ctx) ==> Flips(m, r, Only(Pressure)) && r.fields[Pressure] == Swap(StoreWrite(m.fields[Pressure],
            Out(Kernel.Project2, 0, [WriteOf(m, Pressure)], [ReadOf(m, Divergence)], [], Whole(ctx)))))
      && (!Begins(m, ctx) ==> r.fields == m.fields)
  {
    var w := WritePass(m, ctx, Pressure, Kernel.Project2, [ReadOf(m, Divergence)], [], Whole(ctx));
    WritePassEffect(m, ctx, Pressure, Kernel.Project2, [ReadOf(m, Divergence)], [], Whole(ctx));
    if Begins(m, ctx) {
      SwapFieldEffect(w, Pressure);
    }
  }

  /** Project3 writes and swaps the three velocity components together, or changes no field. */
  lemma Project3Effect(m: Machine, ctx: Context)
    ensures var r := Project3(m, ctx);
      && r.calls == m.calls + 1
      && Keeps(m, r, Velocities)
      && (Begins(m, ctx) ==>
            && Flips(m, r, Velocities)
            && r.fields[VelocityX] == Swap(StoreWrite(m.fields[VelocityX], Projected(m, ctx, 0)))
            && r.fields[VelocityY] == Swap(StoreWrite(m.fields[VelocityY], Projected(m, ctx, 1)))
            && r.fields[VelocityZ] == Swap(StoreWrite(m.fields[VelocityZ], Projected(m, ctx, 2))))
      && (!Begins(m, ctx) ==> r.fields == m.fields)
  {
  }

  /** Advect1 writes velocity component `axis` without swapping it, so its read side stays. */
  lemma Advect1Effect(m: Machine, ctx: Context, axis: nat)
    requires axis < 3
    ensures var r := Advect1(m, ctx, axis);
      && r.calls == m.calls + 1
      && Keeps(m, r, Only(axis))
      && r.fields[axis].readIndex == m.fields[axis].readIndex && Read(r.fields[axis]) == Read(m.fields[axis])
      && Velocity(r) == Velocity(m)
      && (Begins(m, ctx) ==> r.fields[axis] == StoreWrite(m.fields[axis], Advected(m, ctx, axis)))
      && (!Begins(m, ctx) ==> r.fields == m.fields)
  {
    WritePassEffect(m, ctx, axis, Kernel.Advect1, Velocity(m), [UInt(axis), UDt(ctx.dt)], Whole(ctx));
  }

  /** Advect2 moves the density along the velocity and swaps it, or changes no field. */
  lemma Advect2Effect(m: Machine, ctx: Context)
    ensures var r := Advect2(m, ctx);
      && r.calls == m.calls + 1
      && Keeps(m, r, Only(Density))
      && (Begins(m, ctx) ==> Flips(m, r, Only(Density)) && r.fields[Density] == Swap(StoreWrite(m.fields[Density],
            Out(Kernel.Advect2, 0, [WriteOf(m, Density)], AndVelocity(m, Density), [UDt(ctx.dt)], Whole(ctx)))))
      && (!Begins(m, ctx) ==> r.fields == m.fields)
  {
    var w := WritePass(m, ctx, Density, Kernel.Advect2, AndVelocity(m, Density), [UDt(ctx.dt)], Whole(ctx));
    WritePassEffect(m, ctx, Density, Kernel.Advect2, AndVelocity(m, Density), [UDt(ctx.dt)], Whole(ctx));
    if Begins(m, ctx) {
      SwapFieldEffect(w, Density);
    }
  }

  /** A boundary pass only ever writes the write side of its field. */
  lemma BoundaryPassEffect(m: Machine, ctx: Context, i: nat, kernel: Kernel, uniforms: seq<Uniform>, groups: Groups)
    requires i < FieldCount
    ensures var r := BoundaryPass(m, ctx, i, kernel, uniforms, groups);
      && r.calls == m.calls + 1
      && Keeps(m, r, Only(i))
      && r.fields[i].readIndex == m.fields[i].readIndex && Read(r.fields[i]) == Read(m.fields[i])
      && Write(r.fields[i]).Some? == Write(m.fields[i]).Some?
      && (Begins(m, ctx) ==>
            Write(r.fields[i]) == Stored(Write(m.fields[i]), Out(kernel, 0, [WriteOf(m, i)], [ReadOf(m, i)], uniforms, groups)))
      && (!Begins(m, ctx) ==> r.fields == m.fields)
  {
    WritePassEffect(m, ctx, i, kernel, [ReadOf(m, i)], uniforms, groups);
  }

  /**
   * The five boundary passes take five answers, leave the read side of field `i` as it was and
   * every other field untouched, and change nothing when none of them begins.
   */
  lemma BoundaryPassesEffect(m: Machine, ctx: Context, i: nat, kind: int)
    requires i < FieldCount
    ensures var r := BoundaryPasses(m, ctx, i, kind);
      && r.calls == m.calls + 5
      && Keeps(m, r, Only(i))
      && r.fields[i].readIndex == m.fields[i].readIndex && Read(r.fields[i]) == Read(m.fields[i])
      && Write(r.fields[i]).Some? == Write(m.fields[i]).Some?
      && ((!ctx.answer(m.calls) && !ctx.answer(m.calls + 1) && !ctx.answer(m.calls + 2)
           && !ctx.answer(m.calls + 3) && !ctx.answer(m.calls + 4)) ==> r.fields[i] == m.fields[i])
  {
    var g := GroupCount(ctx.size, ctx.threads);
    var m1 := Bnd1(m, ctx, i, kind);
    BoundaryPassEffect(m, ctx, i, Kernel.Bnd1, [UInt(kind)], Groups(g, g, 2));
    var m2 := Bnd2(m1, ctx, i, kind);
    BoundaryPassEffect(m1, ctx, i, Kernel.Bnd2, [UInt(kind)], Groups(g, 2, g));
    var m3 := Bnd3(m2, ctx, i, kind);
    BoundaryPassEffect(m2, ctx, i, Kernel.Bnd3, [UInt(kind)], Groups(2, g, g));
    var m4 := Bnd4(m3, ctx, i);
    BoundaryPassEffect(m3, ctx, i, Kernel.Bnd4, [], Groups(1, 1, 1));
    BoundaryPassEffect(m4, ctx, i, Kernel.Bnd5, [], Whole(ctx));
  }

  /**
   * Bnd takes five answers, changes only field `i`, always swaps it, and leaves on its write side
   * the read side it started with.
   */
  lemma BndEffect(m: Machine, ctx: Context, i: nat, kind: int)
    requires i < FieldCount
    ensures var r := Bnd(m, ctx, i, kind);
      && r.calls == m.calls + 5
      && Keeps(m, r, Only(i))
      && Flips(m, r, Only(i))
      && Write(r.fields[i]) == Read(m.fields[i])
  {
    var x := BoundaryPasses(m, ctx, i, kind);
    BoundaryPassesEffect(m, ctx, i, kind);
    SwapFieldEffect(x, i);
  }

  /** Bnd reads a texture afterwards exactly when the write side it started with was allocated. */
  lemma BndKeepsAllocation(m: Machine, ctx: Context, i: nat, kind: int)
    requires i < FieldCount
    ensures Read(Bnd(m, ctx, i, kind).fields[i]).Some? <==> Write(m.fields[i]).Some?
  {
    var x := BoundaryPasses(m, ctx, i, kind);
    BoundaryPassesEffect(m, ctx, i, kind);
    SwapFieldEffect(x, i);
  }

  /**
   * When none of its five passes begins, Bnd still swaps: the field then reads the write side it
   * started with, which holds whatever the previous stage left there.
   */
  lemma BndSwapsRegardless(m: Machine, ctx: Context, i: nat, kind: int)
    requires i < FieldCount
    requires !ctx.answer(m.calls) && !ctx.answer(m.calls + 1) && !ctx.answer(m.calls + 2)
    requires !ctx.answer(m.calls + 3) && !ctx.answer(m.calls + 4)
    ensures Bnd(m, ctx, i, kind).fields[i] == Swap(m.fields[i])
    ensures Read(Bnd(m, ctx, i, kind).fields[i]) == Write(m.fields[i])
  {
    var x := BoundaryPasses(m, ctx, i, kind);
    BoundaryPassesEffect(m, ctx, i, kind);
    SwapFieldEffect(x, i);
  }

  /* ---- what the tick's phases do ---- */

  /** Bounding the velocity swaps each velocity component once and touches no other field. */
  lemma BoundVelocityEffect(m: Machine, ctx: Context)
    ensures var r := BoundVelocity(m, ctx);
      && r.calls == m.calls + 15 && Keeps(m, r, Velocities) && Flips(m, r, Velocities)
  {
    var m1 := Bnd(m, ctx, VelocityX, 1);
    var m2 := Bnd(m1, ctx, VelocityY, 2);
    BndEffect(m, ctx, VelocityX, 1);
    BndEffect(m1, ctx, VelocityY, 2);
    BndEffect(m2, ctx, VelocityZ, 3);
  }

  lemma VelocityStepEffect(m: Machine, ctx: Context, viscosity: Float)
    ensures var r := VelocityStep(m, ctx, viscosity);
      r.calls == m.calls + 18 && Keeps(m, r, Velocities)
  {
    var m1 := Diffuse(m, ctx, VelocityX, viscosity);
    var m2 := Diffuse(m1, ctx, VelocityY, viscosity);
    var m3 := Diffuse(m2, ctx, VelocityZ, viscosity);
    DiffuseEffect(m, ctx, VelocityX, viscosity);
    DiffuseEffect(m1, ctx, VelocityY, viscosity);
    DiffuseEffect(m2, ctx, VelocityZ, viscosity);
    BoundVelocityEffect(m3, ctx);
  }

  /** The velocity diffusion makes 18 attempts per iteration and touches only the velocity. */
  lemma {:induction false} VelocityDiffusionEffect(m: Machine, ctx: Context, viscosity: Float, n: nat)
    ensures var r := VelocityDiffusion(m, ctx, viscosity, n);
      r.calls == m.calls + 18 * n && Keeps(m, r, Velocities)
  {
    var k := 0;
    while k < n
      invariant k <= n
      invariant VelocityDiffusion(m, ctx, viscosity, k).calls == m.calls + 18 * k
      invariant Keeps(m, VelocityDiffusion(m, ctx, viscosity, k), Velocities)
    {
      VelocityStepEffect(VelocityDiffusion(m, ctx, viscosity, k), ctx, viscosity);
      k := k + 1;
    }
  }

  lemma PressureStepEffect(m: Machine, ctx: Context)
    ensures var r := PressureStep(m, ctx);
      r.calls == m.calls + 6 && Keeps(m, r, Only(Pressure))
  {
    Project2Effect(m, ctx);
    BndEffect(Project2(m, ctx), ctx, Pressure, 0);
  }

  /** The pressure solve makes 6 attempts per iteration and touches only the pressure. */
  lemma {:induction false} PressureSolveEffect(m: Machine, ctx: Context, n: nat)
    ensures var r := PressureSolve(m, ctx, n);
      r.calls == m.calls + 6 * n && Keeps(m, r, Only(Pressure))
  {
    var k := 0;
    while k < n
      invariant k <= n
      invariant PressureSolve(m, ctx, k).calls == m.calls + 6 * k
      invariant Keeps(m, PressureSolve(m, ctx, k), Only(Pressure))
    {
      PressureStepEffect(PressureSolve(m, ctx, k), ctx);
      k := k + 1;
    }
  }

  lemma ComputeDivergenceEffect(m: Machine, ctx: Context)
    ensures var r := ComputeDivergence(m, ctx);
      r.calls == m.calls + 11 && Keeps(m, r, Sides(false, false, false, true, true, false))
  {
    var m1 := Project1(m, ctx);
    Project1Effect(m, ctx);
    BndEffect(m1, ctx, Divergence, 0);
    BndEffect(Bnd(m1, ctx, Divergence, 0), ctx, Pressure, 0);
  }

  lemma SubtractGradientEffect(m: Machine, ctx: Context)
    ensures var r := SubtractGradient(m, ctx);
      r.calls == m.calls + 16 && Keeps(m, r, Velocities)
  {
    Project3Effect(m, ctx);
    BoundVelocityEffect(Project3(m, ctx), ctx);
  }

  /** The projection makes `6 * n + 27` attempts and leaves the density alone. */
  lemma ProjectionEffect(m: Machine, ctx: Context, n: nat)
    ensures var r := Projection(m, ctx, n);
      r.calls == m.calls + 6 * n + 27 && Keeps(m, r, Sides(true, true, true, true, true, false))
  {
    var m1 := ComputeDivergence(m, ctx);
    ComputeDivergenceEffect(m, ctx);
    PressureSolveEffect(m1, ctx, n);
    SubtractGradientEffect(PressureSolve(m1, ctx, n), ctx);
  }

  /**
   * The advection swaps every velocity component once, whatever the device answers; a component
   * whose pass began then reads its advection along the velocity before the first dispatch, and
   * each leaves on its write side the read side it started with.
   */
  lemma AdvectionEffect(m: Machine, ctx: Context)
    ensures var r := Advection(m, ctx);
      && r.calls == m.calls + 3
      && Keeps(m, r, Velocities)
      && Flips(m, r, Velocities)
      && (ctx.answer(m.calls) ==> Read(r.fields[VelocityX]) == Stored(Write(m.fields[VelocityX]), Advected(m, ctx, 0)))
      && (ctx.answer(m.calls + 1) ==> Read(r.fields[VelocityY]) == Stored(Write(m.fields[VelocityY]), Advected(m, ctx, 1)))
      && (ctx.answer(m.calls + 2) ==> Read(r.fields[VelocityZ]) == Stored(Write(m.fields[VelocityZ]), Advected(m, ctx, 2)))
      && Write(r.fields[VelocityX]) == Read(m.fields[VelocityX])
      && Write(r.fields[VelocityY]) == Read(m.fields[VelocityY])
      && Write(r.fields[VelocityZ]) == Read(m.fields[VelocityZ])
  {
    var m1 := Advect1(m, ctx, VelocityX);
    var m2 := Advect1(m1, ctx, VelocityY);
    var m3 := Advect1(m2, ctx, VelocityZ);
    Advect1Effect(m, ctx, VelocityX);
    Advect1Effect(m1, ctx, VelocityY);
    Advect1Effect(m2, ctx, VelocityZ);
    var s1 := SwapField(m3, VelocityX);
    var s2 := SwapField(s1, VelocityY);
    SwapFieldEffect(m3, VelocityX);
    SwapFieldEffect(s1, VelocityY);
    SwapFieldEffect(s2, VelocityZ);
  }

  /**
   * The advection of the velocity and its boundary passes swap every component twice, whatever
   * the device answers, so each ends on the side it started on.
   */
  lemma VelocityAdvectionEffect(m: Machine, ctx: Context)
    ensures var r := VelocityAdvection(m, ctx);
      r.calls == m.calls + 18 && Keeps(m, r, Velocities) && Flips(m, r, Kept)
  {
    var a := Advection(m, ctx);
    AdvectionEffect(m, ctx);
    BoundVelocityEffect(a, ctx);
    FlipsThen(m, a, BoundVelocity(a, ctx), Velocities, Velocities);
  }

  lemma FinalProjectionEffect(m: Machine, ctx: Context)
    ensures var r := FinalProjection(m, ctx);
      r.calls == m.calls + 3 && Keeps(m, r, Sides(true, true, true, true, true, false))
  {
    var m1 := Project1(m, ctx);
    Project1Effect(m, ctx);
    Project2Effect(m1, ctx);
    Project3Effect(Project2(m1, ctx), ctx);
  }

  lemma DensityStepEffect(m: Machine, ctx: Context, diffusion: Float)
    ensures var r := DensityStep(m, ctx, diffusion);
      r.calls == m.calls + 7 && Keeps(m, r, Only(Density))
  {
    var m1 := Diffuse(m, ctx, Density, diffusion);
    DiffuseEffect(m, ctx, Density, diffusion);
    Advect2Effect(m1, ctx);
    BndEffect(Advect2(m1, ctx), ctx, Density, 0);
  }

  /** A step is its five stages in order, both loops running `Loops(iterations)` times. */
  lemma TickStages(m: Machine, ctx: Context, iterations: int, viscosity: Float, diffusion: Float, n: nat)
    requires n == Loops(iterations)
    ensures Tick(m, ctx, iterations, viscosity, diffusion) ==
      DensityStep(FinalProjection(VelocityAdvection(Projection(VelocityDiffusion(m, ctx, viscosity, n), ctx, n), ctx), ctx), ctx, diffusion)
  {
  }

  /** Every stage attempts its passes whatever happened to earlier ones: `24 * n + 55` in all. */
  lemma TickCalls(m: Machine, ctx: Context, iterations: int, viscosity: Float, diffusion: Float)
    ensures Tick(m, ctx, iterations, viscosity, diffusion).calls == m.calls + 24 * Loops(iterations) + 55
  {
    var n := Loops(iterations);
    var m1 := VelocityDiffusion(m, ctx, viscosity, n);
    var m2 := Projection(m1, ctx, n);
    var m3 := VelocityAdvection(m2, ctx);
    var m4 := FinalProjection(m3, ctx);
    VelocityDiffusionEffect(m, ctx, viscosity, n);
    ProjectionEffect(m1, ctx, n);
    VelocityAdvectionEffect(m2, ctx);
    FinalProjectionEffect(m3, ctx);
    DensityStepEffect(m4, ctx, diffusion);
  }

  /* ---- with a device that never fails, every pass begins and every swap happens ---- */

  lemma FlipsThen(m1: Machine, m2: Machine, m3: Machine, s: Sides, t: Sides)
    requires Flips(m1, m2, s) && Flips(m2, m3, t)
    ensures Flips(m1, m3, Then(s, t))
  {
  }

  /** A velocity diffusion iteration leaves every field on its side. */
  lemma VelocityStepParity(m: Machine, ctx: Context, viscosity: Float)
    requires Reliable(ctx)
    ensures Flips(m, VelocityStep(m, ctx, viscosity), Kept)
  {
    var m1 := Diffuse(m, ctx, VelocityX, viscosity);
    var m2 := Diffuse(m1, ctx, VelocityY, viscosity);
    var m3 := Diffuse(m2, ctx, VelocityZ, viscosity);
    assert Begins(m, ctx) && Begins(m1, ctx) && Begins(m2, ctx);
    DiffuseEffect(m, ctx, VelocityX, viscosity);
    DiffuseEffect(m1, ctx, VelocityY, viscosity);
    DiffuseEffect(m2, ctx, VelocityZ, viscosity);
    BoundVelocityEffect(m3, ctx);
    FlipsThen(m, m1, m2, Only(VelocityX), Only(VelocityY));
    FlipsThen(m, m2, m3, Then(Only(VelocityX), Only(VelocityY)), Only(VelocityZ));
    FlipsThen(m, m3, BoundVelocity(m3, ctx), Velocities, Velocities);
  }

  lemma {:induction false} VelocityDiffusionParity(m: Machine, ctx: Context, viscosity: Float, n: nat)
    requires Reliable(ctx)
    ensures Flips(m, VelocityDiffusion(m, ctx, viscosity, n), Kept)
  {
    var k := 0;
    while k < n
      invariant k <= n
      invariant Flips(m, VelocityDiffusion(m, ctx, viscosity, k), Kept)
    {
      var p := VelocityDiffusion(m, ctx, viscosity, k);
      VelocityStepParity(p, ctx, viscosity);
      FlipsThen(m, p, VelocityStep(p, ctx, viscosity), Kept, Kept);
      k := k + 1;
    }
  }

  /** A pressure iteration leaves every field on its side. */
  lemma PressureStepParity(m: Machine, ctx: Context)
    requires Reliable(ctx)
    ensures Flips(m, PressureStep(m, ctx), Kept)
  {
    var m1 := Project2(m, ctx);
    assert Begins(m, ctx);
    Project2Effect(m, ctx);
    BndEffect(m1, ctx, Pressure, 0);
    FlipsThen(m, m1, Bnd(m1, ctx, Pressure, 0), Only(Pressure), Only(Pressure));
  }

  lemma {:induction false} PressureSolveParity(m: Machine, ctx: Context, n: nat)
    requires Reliable(ctx)
    ensures Flips(m, PressureSolve(m, ctx, n), Kept)
  {
    var k := 0;
    while k < n
      invariant k <= n
      invariant Flips(m, PressureSolve(m, ctx, k), Kept)
    {
      var p := PressureSolve(m, ctx, k);
      PressureStepParity(p, ctx);
      FlipsThen(m, p, PressureStep(p, ctx), Kept, Kept);
      k := k + 1;
    }
  }

  /** The projection of the velocity diffusion leaves every field on its side. */
  lemma ProjectionParity(m: Machine, ctx: Context, n: nat)
    requires Reliable(ctx)
    ensures Flips(m, Projection(m, ctx, n), Kept)
  {
    var m1 := Project1(m, ctx);
    var m2 := Bnd(m1, ctx, Divergence, 0);
    var m3 := ComputeDivergence(m, ctx);
    assert Begins(m, ctx);
    Project1Effect(m, ctx);
    BndEffect(m1, ctx, Divergence, 0);
    BndEffect(m2, ctx, Pressure, 0);
    FlipsThen(m, m1, m2, Sides(false, false, false, true, true, false), Only(Divergence));
    FlipsThen(m, m2, m3, Only(Pressure), Only(Pressure));
    var m4 := PressureSolve(m3, ctx, n);
    PressureSolveParity(m3, ctx, n);
    FlipsThen(m, m3, m4, Kept, Kept);
    var m5 := Project3(m4, ctx);
    assert Begins(m4, ctx);
    Project3Effect(m4, ctx);
    BoundVelocityEffect(m5, ctx);
    FlipsThen(m, m4, m5, Kept, Velocities);
    FlipsThen(m, m5, SubtractGradient(m4, ctx), Velocities, Velocities);
  }

  /** The final projection swaps the velocity and the divergence but not the pressure. */
  lemma FinalProjectionParity(m: Machine, ctx: Context)
    requires Reliable(ctx)
    ensures Flips(m, FinalProjection(m, ctx), Sides(true, true, true, false, true, false))
  {
    var m1 := Project1(m, ctx);
    var m2 := Project2(m1, ctx);
    assert Begins(m, ctx) && Begins(m1, ctx) && Begins(m2, ctx);
    Project1Effect(m, ctx);
    Project2Effect(m1, ctx);
    Project3Effect(m2, ctx);
    FlipsThen(m, m1, m2, Sides(false, false, false, true, true, false), Only(Pressure));
    FlipsThen(m, m2, Project3(m2, ctx), Sides(false, false, false, false, true, false), Velocities);
  }

  /** The density step swaps the density three times, so it ends on its other side. */
  lemma DensityStepParity(m: Machine, ctx: Context, diffusion: Float)
    requires Reliable(ctx)
    ensures Flips(m, DensityStep(m, ctx, diffusion), Only(Density))
  {
    var m1 := Diffuse(m, ctx, Density, diffusion);
    var m2 := Advect2(m1, ctx);
    assert Begins(m, ctx) && Begins(m1, ctx);
    DiffuseEffect(m, ctx, Density, diffusion);
    Advect2Effect(m1, ctx);
    BndEffect(m2, ctx, Density, 0);
    FlipsThen(m, m1, m2, Only(Density), Only(Density));
    FlipsThen(m, m2, Bnd(m2, ctx, Density, 0), Kept, Only(Density));
  }

  /**
   * A step on a device that never fails leaves the pressure on the side it started on and
   * every other field on its other side.
   */
  lemma TickParity(m: Machine, ctx: Context, iterations: int, viscosity: Float, diffusion: Float)
    requires Reliable(ctx)
    ensures Flips(m, Tick(m, ctx, iterations, viscosity, diffusion), Sides(true, true, true, false, true, true))
  {
    var n := Loops(iterations);
    var m1 := VelocityDiffusion(m, ctx, viscosity, n);
    var m2 := Projection(m1, ctx, n);
    var m3 := VelocityAdvection(m2, ctx);
    var m4 := FinalProjection(m3, ctx);
    VelocityDiffusionParity(m, ctx, viscosity, n);
    ProjectionParity(m1, ctx, n);
    FlipsThen(m, m1, m2, Kept, Kept);
    VelocityAdvectionEffect(m2, ctx);
    FlipsThen(m, m2, m3, Kept, Kept);
    FinalProjectionParity(m3, ctx);
    FlipsThen(m, m3, m4, Kept, Sides(true, true, true, false, true, false));
    DensityStepParity(m4, ctx, diffusion);
    FlipsThen(m, m4, DensityStep(m4, ctx, diffusion), Sides(true, true, true, false, true, false), Only(Density));
  }

  /**
   * With a device that never fails and allocated density textures, the density a step leaves
   * is the last boundary pass over the advection of the diffused density, advected along the
   * velocity the step ends with.
   */
  lemma DensityOrder(m: Machine, ctx: Context, diffusion: Float)
    requires Reliable(ctx)
    requires m.fields[Density].slots[0].Some? && m.fields[Density].slots[1].Some?
    ensures var g := ReadOf(DensityStep(m, ctx, diffusion), Density);
      && g.Out? && g.kernel == Kernel.Bnd5 && |g.samples| == 1
      && g.samples[0].Out? && g.samples[0].kernel == Kernel.Advect2
      && g.samples[0].samples[1..] == Velocity(m)
      && g.samples[0].samples[0] == Out(Kernel.Diffuse, 0, [WriteOf(m, Density)], [ReadOf(m, Density)],
                                        [UDt(ctx.dt), UFloat(diffusion)], Whole(ctx))
  {
    var m1 := Diffuse(m, ctx, Density, diffusion);
    var m2 := Advect2(m1, ctx);
    assert Begins(m, ctx) && Begins(m1, ctx);
    DiffuseEffect(m, ctx, Density, diffusion);
    Advect2Effect(m1, ctx);
    assert Velocity(m1) == Velocity(m);
    BndLastPass(m2, ctx, Density, 0);
  }

  /**
   * When the last of its five passes begins over an allocated write side, Bnd leaves field `i`
   * reading the output of Bnd5, which sampled the read side Bnd started with.
   */
  lemma BndLastPass(m: Machine, ctx: Context, i: nat, kind: int)
    requires i < FieldCount
    requires ctx.answer(m.calls + 4) && Write(m.fields[i]).Some?
    ensures var g := ReadOf(Bnd(m, ctx, i, kind), i);
      g.Out? && g.kernel == Kernel.Bnd5 && g.samples == [ReadOf(m, i)]
  {
    var g := GroupCount(ctx.size, ctx.threads);
    var b1 := Bnd1(m, ctx, i, kind);
    var b2 := Bnd2(b1, ctx, i, kind);
    var b3 := Bnd3(b2, ctx, i, kind);
    var b4 := Bnd4(b3, ctx, i);
    BoundaryPassEffect(m, ctx, i, Kernel.Bnd1, [UInt(kind)], Groups(g, g, 2));
    BoundaryPassEffect(b1, ctx, i, Kernel.Bnd2, [UInt(kind)], Groups(g, 2, g));
    BoundaryPassEffect(b2, ctx, i, Kernel.Bnd3, [UInt(kind)], Groups(2, g, g));
    BoundaryPassEffect(b3, ctx, i, Kernel.Bnd4, [], Groups(1, 1, 1));
    BoundaryPassEffect(b4, ctx, i, Kernel.Bnd5, [], Whole(ctx));
    SwapFieldEffect(Bnd5(b4, ctx, i), i);
    assert Begins(b4, ctx);
  }

  /* ---- CreateCells ---- */

  /** Running the recorded clears fills with 0 exactly the slots they name, and moves no read side. */
  lemma {:induction false} ExecuteEffect(m: Machine, commands: seq<ClearCommand>)
    ensures var r := Execute(m, commands);
      && r.calls == m.calls
      && (forall j, t :: 0 <= j < FieldCount && 0 <= t < 2 ==>
            r.fields[j].slots[t] ==
              if ClearCommand(j, t) in commands then Stored(m.fields[j].slots[t], Filled(Zero)) else m.fields[j].slots[t])
      && (forall j :: 0 <= j < FieldCount ==> r.fields[j].readIndex == m.fields[j].readIndex)
    decreases |commands|
  {
    if |commands| > 0 {
      var c := commands[0];
      var cleared := m.(fields := m.fields[c.field := StoreAt(m.fields[c.field], c.slot, Filled(Zero))]);
      ExecuteEffect(cleared, commands[1..]);
      assert forall d :: d in commands <==> d == c || d in commands[1..];
    }
  }

  /**
   * Creating field `i` takes two answers when the first texture is created and one otherwise;
   * only when both exist are the two clears attempted, each recorded when its pass begins.
   */
  lemma CreateFieldEffect(m: Machine, ctx: Context, i: nat)
    requires i < FieldCount
    ensures var r := CreateField(m, ctx, i);
      && Changes(m, r.0, i)
      && r.2 == CreateSucceeds(ctx.answer(m.calls), ctx.answer(m.calls + 1))
      && (!r.2 ==> r.0.fields[i] == Created(m.fields[i], ctx.size, ctx.answer(m.calls), false) && r.1 == [])
      && (r.2 ==> && r.0.fields[i].slots == [Allocated(ctx.size), Allocated(ctx.size)]
                  && r.0.fields[i].readIndex == 1 - m.fields[i].readIndex
                  && r.0.calls == m.calls + 4
                  && r.1 == (if ctx.answer(m.calls + 2) then [ClearCommand(i, WriteSlot(m.fields[i]))] else [])
                          + (if ctx.answer(m.calls + 3) then [ClearCommand(i, ReadSlot(m.fields[i]))] else []))
  {
    var allocated0 := ctx.answer(m.calls);
    var allocated1 := ctx.answer(m.calls + 1);
    var created := Machine(m.fields[i := Created(m.fields[i], ctx.size, allocated0, allocated1)],
                           m.calls + CreateAttempts(allocated0));
    if CreateSucceeds(allocated0, allocated1) {
      var first := Clear(created, ctx, i);
      SwapFieldEffect(first.0, i);
    }
  }

  lemma {:induction false} CreateFromFails(m: Machine, ctx: Context, i: nat, pending: seq<ClearCommand>)
    requires i <= FieldCount
    ensures var r := CreateFrom(m, ctx, i, pending);
      !r.1 ==> forall j :: 0 <= j < FieldCount ==> r.0.fields[j] == m.fields[j] || Uncleared(r.0.fields[j], ctx.size)
    decreases FieldCount - i
  {
    if i < FieldCount {
      var step := CreateField(m, ctx, i);
      CreateFieldEffect(m, ctx, i);
      assert Uncleared(step.0.fields[i], ctx.size);
      if step.2 {
        CreateFromFails(step.0, ctx, i + 1, pending + step.1);
      }
    }
  }

  /**
   * A CreateCells that fails clears nothing: its recorded clears are never submitted, so every
   * field is either as it was or holds only freshly allocated textures.
   */
  lemma CreateCellsFailureClearsNothing(m: Machine, ctx: Context)
    ensures var r := CreateCells(m, ctx);
      !r.1 ==> forall j :: 0 <= j < FieldCount ==> r.0.fields[j] == m.fields[j] || Uncleared(r.0.fields[j], ctx.size)
  {
    if Begins(m, ctx) {
      CreateFromFails(Called(m), ctx, 0, []);
    }
  }

  /** Running clears that cover both slots of every field leaves every field cleared. */
  lemma ExecuteClearsAll(m: Machine, pending: seq<ClearCommand>, size: int)
    requires forall j :: 0 <= j < FieldCount ==> m.fields[j].slots == [Allocated(size), Allocated(size)]
    requires forall j, t :: 0 <= j < FieldCount && 0 <= t < 2 ==> ClearCommand(j, t) in pending
    ensures forall j :: 0 <= j < FieldCount ==> Cleared(Execute(m, pending).fields[j], size)
  {
    var r := Execute(m, pending);
    ExecuteEffect(m, pending);
    forall j | 0 <= j < FieldCount
      ensures Cleared(r.fields[j], size)
    {
      assert r.fields[j].slots[0] == Some(Volume(size, Filled(Zero)));
      assert r.fields[j].slots[1] == Some(Volume(size, Filled(Zero)));
    }
  }

  lemma {:induction false} CreateFromReliable(m0: Machine, m: Machine, ctx: Context, i: nat, pending: seq<ClearCommand>)
    requires Reliable(ctx)
    requires i <= FieldCount
    requires forall j :: 0 <= j < i ==> m.fields[j].slots == [Allocated(ctx.size), Allocated(ctx.size)]
    requires forall j :: 0 <= j < i ==> m.fields[j].readIndex == 1 - m0.fields[j].readIndex
    requires forall j :: i <= j < FieldCount ==> m.fields[j] == m0.fields[j]
    requires forall j, t :: 0 <= j < i && 0 <= t < 2 ==> ClearCommand(j, t) in pending
    ensures var r := CreateFrom(m, ctx, i, pending);
      && r.1
      && r.0.calls == m.calls + 4 * (FieldCount - i)
      && forall j :: 0 <= j < FieldCount ==>
           Cleared(r.0.fields[j], ctx.size) && r.0.fields[j].readIndex == 1 - m0.fields[j].readIndex
    decreases FieldCount - i
  {
    if i == FieldCount {
      ExecuteEffect(m, pending);
      ExecuteClearsAll(m, pending, ctx.size);
    } else {
      var step := CreateField(m, ctx, i);
      CreateFieldEffect(m, ctx, i);
      assert ctx.answer(m.calls) && ctx.answer(m.calls + 1) && ctx.answer(m.calls + 2) && ctx.answer(m.calls + 3);
      var w := WriteSlot(m.fields[i]);
      assert step.1 == [ClearCommand(i, w), ClearCommand(i, 1 - w)];
      var next := pending + step.1;
      assert forall j, t :: 0 <= j < i + 1 && 0 <= t < 2 ==> ClearCommand(j, t) in next;
      CreateFromReliable(m0, step.0, ctx, i + 1, next);
    }
  }

  /** A machine in which every field reads its other side. */
  lemma FlipsAll(m: Machine, r: Machine)
    requires forall j :: 0 <= j < FieldCount ==> r.fields[j].readIndex == 1 - m.fields[j].readIndex
    ensures Flips(m, r, Sides(true, true, true, true, true, true))
  {
  }

  /**
   * With a device that never fails, CreateCells succeeds after 25 device calls, both textures of
   * every field hold 0, and every field reads its other side than before.
   */
  lemma CreateCellsReliable(m: Machine, ctx: Context)
    requires Reliable(ctx)
    ensures var r := CreateCells(m, ctx);
      && r.1
      && r.0.calls == m.calls + 25
      && Flips(m, r.0, Sides(true, true, true, true, true, true))
      && forall j :: 0 <= j < FieldCount ==> Cleared(r.0.fields[j], ctx.size)
  {
    assert Begins(m, ctx);
    var r := CreateFrom(Called(m), ctx, 0, []);
    assert CreateCells(m, ctx) == r;
    CreateFromReliable(Called(m), Called(m), ctx, 0, []);
    FlipsAll(m, r.0);
  }
}
