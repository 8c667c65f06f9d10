/**
 * The compute stages of the earlier solver and the tick that chains them, as functions of the six
 * fields. Diffuse and Project2 run their iterations inside the stage and return at the first pass
 * that does not begin; there are no boundary passes. The single-pass stages are Pipeline's.
 */
module LegacyPipeline {
  import opened Wrappers
  import opened Gpu
  import opened DoubleBuffer
  import opened Passes
  import P = Pipeline

  /** The stages that loop over the iterations: Diffuse on one field, and Project2 on the pressure. */
  datatype StageValue = Diffusion(field: nat, coefficient: Float) | Relaxation

  type Stage = s: StageValue | s.Diffusion? ==> s.field < FieldCount
    witness Relaxation

  /** The field a stage writes and swaps. */
  function Target(s: Stage): (i: nat)
    ensures i < FieldCount
  {
    if s.Diffusion? then s.field else Pressure
  }

  /**
   * One iteration of the stage's loop: the pass takes the device's next answer; once it began the
   * stage's output is written into the target's write side and the target is swapped.
   */
  function Pass(m: Machine, ctx: Context, s: Stage): Machine
  {
    if !Begins(m, ctx) then Called(m)
    else
      var t := Target(s);
      Called(m).(fields := m.fields[t := Swap(StoreWrite(m.fields[t], Output(m, ctx, s)))])
  }

  /**
   * What a begun pass writes into the target's write side: Diffuse reads its own field's read
   * side, Project2 the divergence's, both through storage-texture bindings.
   */
  function Output(m: Machine, ctx: Context, s: Stage): Grid
  {
    match s
    case Diffusion(i, coefficient) =>
      Out(Kernel.Diffuse, 0, [WriteOf(m, i)], [ReadOf(m, i)], [UDt(ctx.dt), UFloat(coefficient)], Whole(ctx))
    case Relaxation =>
      Out(Kernel.Project2, 0, [WriteOf(m, Pressure)], [ReadOf(m, Divergence)], [], Whole(ctx))
  }

  /**
   * The loop `for (int i = 0; i < iterations; i++)` run `n` times: each iteration begins a pass,
   * and the first pass that does not begin returns from the stage, skipping the rest.
   */
  function Iterate(m: Machine, ctx: Context, s: Stage, n: nat): Machine
    decreases n
  {
    if n == 0 then m
    else if !Begins(m, ctx) then Called(m)
    else Iterate(Pass(m, ctx, s), ctx, s, n - 1)
  }

  /** `k` passes of the stage one after the other, each taking the next answer. */
  function Repeat(m: Machine, ctx: Context, s: Stage, k: nat): Machine
    decreases k
  {
    if k == 0 then m else Repeat(Pass(m, ctx, s), ctx, s, k - 1)
  }

  /** How many of at most `n` calls from call `c` on succeed before the first that fails. */
  function Begun(answer: nat -> bool, c: nat, n: nat): (k: nat)
    ensures k <= n
    decreases n
  {
    if n == 0 || !answer(c) then 0 else 1 + Begun(answer, c + 1, n - 1)
  }

  /** Diffuse: `iterations` diffusions of field `i`, each swapped, stopping at a failed pass. */
  function Diffuse(m: Machine, ctx: Context, i: nat, coefficient: Float, iterations: int): Machine
    requires i < FieldCount
  {
    Iterate(m, ctx, Diffusion(i, coefficient), P.Loops(iterations))
  }

  /** Project2: `iterations` relaxations of the pressure, each swapped, stopping at a failed pass. */
  function Project2(m: Machine, ctx: Context, iterations: int): Machine
  {
    Iterate(m, ctx, Relaxation, P.Loops(iterations))
  }

  /** The three velocity components diffused with the viscosity, X first. */
  function VelocityDiffusion(m: Machine, ctx: Context, viscosity: Float, iterations: int): Machine
  {
    var m1 := Diffuse(m, ctx, VelocityX, viscosity, iterations);
    var m2 := Diffuse(m1, ctx, VelocityY, viscosity, iterations);
    Diffuse(m2, ctx, VelocityZ, viscosity, iterations)
  }

  /** Project1, the pressure iterations of Project2, then Project3. */
  function Projection(m: Machine, ctx: Context, iterations: int): Machine
  {
    P.Project3(Project2(P.Project1(m, ctx), ctx, iterations), ctx)
  }

  /** The density diffused, then advected along the velocity. */
  function DensityStep(m: Machine, ctx: Context, diffusion: Float, iterations: int): Machine
  {
    P.Advect2(Diffuse(m, ctx, Density, diffusion, iterations), ctx)
  }

  /**
   * One simulation step (the body of `if (cooldown <= 0)` in Update): the velocity diffusion, a
   * projection, the three advections followed by the three velocity swaps, a second projection,
   * and the density step. Every stage attempts its passes whatever happened to earlier ones.
   */
  function Tick(m: Machine, ctx: Context, iterations: int, viscosity: Float, diffusion: Float): Machine
  {
    var m1 := VelocityDiffusion(m, ctx, viscosity, iterations);
    var m2 := Projection(m1, ctx, iterations);
    var m3 := P.Advection(m2, ctx);
    var m4 := Projection(m3, ctx, iterations);
    DensityStep(m4, ctx, diffusion, iterations)
  }

  /* ---- the loops ---- */

  /** A pass takes one answer; when it begins it writes and swaps its target, otherwise nothing changes. */
  lemma PassEffect(m: Machine, ctx: Context, s: Stage)
    ensures var r := Pass(m, ctx, s);
      && r.calls == m.calls + 1
      && Changes(m, r, Target(s))
      && (Begins(m, ctx) ==> r.fields[Target(s)] == Swap(StoreWrite(m.fields[Target(s)], Output(m, ctx, s))))
      && (!Begins(m, ctx) ==> r.fields == m.fields)
  {
  }

  /**
   * The loop's pass is the later program's single Diffuse or Project2 stage. The two programs
   * compile separate shaders; the identity is one of kernel names under the uninterpreted-kernel
   * abstraction, not of the shaders' code.
   */
  lemma PassIsStage(m: Machine, ctx: Context, s: Stage)
    ensures Pass(m, ctx, s) == match s
      case Diffusion(i, coefficient) => P.Diffuse(m, ctx, i, coefficient)
      case Relaxation => P.Project2(m, ctx)
  {
    var r := Pass(m, ctx, s);
    var t := Target(s);
    var q := match s
      case Diffusion(i, coefficient) => P.Diffuse(m, ctx, i, coefficient)
      case Relaxation => P.Project2(m, ctx);
    match s
    case Diffusion(i, coefficient) =>
      P.DiffuseEffect(m, ctx, i, coefficient);
    case Relaxation =>
      P.Project2Effect(m, ctx);
    assert Keeps(m, q, Only(t));
    assert q.fields == m.fields[t := q.fields[t]];
  }

  /** A begun pass takes one answer and swaps its target. */
  lemma PassSwaps(m: Machine, ctx: Context, s: Stage)
    requires Begins(m, ctx)
    ensures var r := Pass(m, ctx, s);
      r.calls == m.calls + 1 && r.fields[Target(s)].readIndex == 1 - m.fields[Target(s)].readIndex
  {
    PassEffect(m, ctx, s);
  }

  /**
   * The loop stops at the first pass that does not begin: when only `k < n` passes begin it is
   * those `k` passes and one failed call, with no further swap; otherwise it is all `n` passes.
   */
  lemma {:induction false} IterateStops(m: Machine, ctx: Context, s: Stage, n: nat)
    ensures var k := Begun(ctx.answer, m.calls, n);
      Iterate(m, ctx, s, n) == if k < n then Called(Repeat(m, ctx, s, k)) else Repeat(m, ctx, s, n)
    decreases n
  {
    if n > 0 && Begins(m, ctx) {
      IterateStops(Pass(m, ctx, s), ctx, s, n - 1);
      StopsStep(m, ctx, s, n);
    }
  }

  /** After a begun pass, the rest of the loop stops where the whole loop does, one pass later. */
  lemma StopsStep(m: Machine, ctx: Context, s: Stage, n: nat)
    requires n > 0 && Begins(m, ctx)
    requires var p := Pass(m, ctx, s); var k := Begun(ctx.answer, p.calls, n - 1);
      Iterate(p, ctx, s, n - 1) == if k < n - 1 then Called(Repeat(p, ctx, s, k)) else Repeat(p, ctx, s, n - 1)
    ensures var k := Begun(ctx.answer, m.calls, n);
      Iterate(m, ctx, s, n) == if k < n then Called(Repeat(m, ctx, s, k)) else Repeat(m, ctx, s, n)
  {
    IterateStep(m, ctx, s, n);
  }

  /** The loop makes one call per begun pass plus the one that failed, if any. */
  lemma {:induction false} IterateCalls(m: Machine, ctx: Context, s: Stage, n: nat)
    ensures var k := Begun(ctx.answer, m.calls, n);
      Iterate(m, ctx, s, n).calls == m.calls + (if k < n then k + 1 else n)
    decreases n
  {
    if n > 0 && Begins(m, ctx) {
      PassEffect(m, ctx, s);
      IterateCalls(Pass(m, ctx, s), ctx, s, n - 1);
    }
  }

  /** The loop touches only its target. */
  lemma {:induction false} IterateChanges(m: Machine, ctx: Context, s: Stage, n: nat)
    ensures Changes(m, Iterate(m, ctx, s, n), Target(s))
    decreases n
  {
    if n > 0 && Begins(m, ctx) {
      var p := Pass(m, ctx, s);
      var r := Iterate(p, ctx, s, n - 1);
      var t := Target(s);
      PassEffect(m, ctx, s);
      IterateChanges(p, ctx, s, n - 1);
      assert r.fields == p.fields[t := r.fields[t]] == m.fields[t := p.fields[t]][t := r.fields[t]];
    }
  }

  /**
   * The loop swaps its target once per begun pass, so the target reads its other side exactly
   * when an odd number began.
   */
  lemma {:induction false} IterateTarget(m: Machine, ctx: Context, s: Stage, n: nat)
    ensures var k := Begun(ctx.answer, m.calls, n);
      var t := Target(s);
      Iterate(m, ctx, s, n).fields[t].readIndex == (if k % 2 == 0 then m.fields[t].readIndex else 1 - m.fields[t].readIndex)
    decreases n
  {
    if n > 0 && Begins(m, ctx) {
      IterateTarget(Pass(m, ctx, s), ctx, s, n - 1);
      TargetStep(m, ctx, s, n);
    }
  }

  /** One begun pass swaps the target, so the parity of the rest of the loop carries over, flipped. */
  lemma TargetStep(m: Machine, ctx: Context, s: Stage, n: nat)
    requires n > 0 && Begins(m, ctx)
    requires var p := Pass(m, ctx, s); var k := Begun(ctx.answer, p.calls, n - 1);
      var t := Target(s);
      Iterate(p, ctx, s, n - 1).fields[t].readIndex == (if k % 2 == 0 then p.fields[t].readIndex else 1 - p.fields[t].readIndex)
    ensures var k := Begun(ctx.answer, m.calls, n);
      var t := Target(s);
      Iterate(m, ctx, s, n).fields[t].readIndex == (if k % 2 == 0 then m.fields[t].readIndex else 1 - m.fields[t].readIndex)
  {
    IterateStep(m, ctx, s, n);
  }

  /**
   * Each iteration is one pass: after a begun pass the loop's outcome is that of the remaining
   * iterations, and a pass that did not begin is the loop's last.
   */
  lemma IterateOn(m: Machine, r: Machine, ctx: Context, s: Stage, n: nat, goal: Machine)
    requires n > 0 && Iterate(m, ctx, s, n) == goal && r == Pass(m, ctx, s)
    ensures Begins(m, ctx) ==> Iterate(r, ctx, s, n - 1) == goal
    ensures !Begins(m, ctx) ==> r == goal
  {
  }

  /** A begun pass starts the loop over on its result, with one answer and one swap of the target used up. */
  lemma IterateStep(m: Machine, ctx: Context, s: Stage, n: nat)
    requires n > 0 && Begins(m, ctx)
    ensures var p := Pass(m, ctx, s);
      var t := Target(s);
      && Iterate(m, ctx, s, n) == Iterate(p, ctx, s, n - 1)
      && Begun(ctx.answer, m.calls, n) == 1 + Begun(ctx.answer, p.calls, n - 1)
      && p.fields[t].readIndex == 1 - m.fields[t].readIndex
  {
    PassSwaps(m, ctx, s);
  }

  /** No texture is created or released by the loop: each slot of the target stays allocated or empty. */
  lemma {:induction false} IterateAllocation(m: Machine, ctx: Context, s: Stage, n: nat)
    ensures var r := Iterate(m, ctx, s, n);
      var t := Target(s);
      forall j :: 0 <= j < 2 ==> (r.fields[t].slots[j].Some? <==> m.fields[t].slots[j].Some?)
    decreases n
  {
    var t := Target(s);
    if n > 0 && Begins(m, ctx) {
      var p := Pass(m, ctx, s);
      PassEffect(m, ctx, s);
      IterateAllocation(p, ctx, s, n - 1);
      assert forall j :: 0 <= j < 2 ==> (p.fields[t].slots[j].Some? <==> m.fields[t].slots[j].Some?);
    }
  }

  /**
   * The loop touches only its target. It makes one call per begun pass plus the one that failed,
   * if any, and swaps the target once per begun pass.
   */
  lemma IterateEffect(m: Machine, ctx: Context, s: Stage, n: nat)
    ensures var k := Begun(ctx.answer, m.calls, n);
      var r := Iterate(m, ctx, s, n);
      var t := Target(s);
      && r.calls == m.calls + (if k < n then k + 1 else n)
      && Changes(m, r, t)
      && r.fields[t].readIndex == (if k % 2 == 0 then m.fields[t].readIndex else 1 - m.fields[t].readIndex)
      && (forall j :: 0 <= j < 2 ==> (r.fields[t].slots[j].Some? <==> m.fields[t].slots[j].Some?))
  {
    IterateCalls(m, ctx, s, n);
    IterateChanges(m, ctx, s, n);
    IterateTarget(m, ctx, s, n);
    IterateAllocation(m, ctx, s, n);
  }

  /** On a device that never fails every call succeeds. */
  lemma {:induction false} BegunReliable(ctx: Context, c: nat, n: nat)
    requires Reliable(ctx)
    ensures Begun(ctx.answer, c, n) == n
    decreases n
  {
    if n > 0 {
      assert ctx.answer(c);
      BegunReliable(ctx, c + 1, n - 1);
    }
  }

  /**
   * On a device that never fails the loop is exactly `n` write-and-swap passes, so the target
   * ends on its own side after an even number of iterations and on its other side after an odd one.
   */
  lemma IterateReliable(m: Machine, ctx: Context, s: Stage, n: nat)
    requires Reliable(ctx)
    ensures var r := Iterate(m, ctx, s, n);
      && r == Repeat(m, ctx, s, n)
      && r.calls == m.calls + n
      && Flips(m, r, if n % 2 == 0 then Kept else Only(Target(s)))
  {
    BegunReliable(ctx, m.calls, n);
    IterateStops(m, ctx, s, n);
    IterateEffect(m, ctx, s, n);
  }

  /** Diffuse on field `i` changes field `i` only; on a device that never fails it swaps it `iterations` times. */
  lemma DiffuseEffect(m: Machine, ctx: Context, i: nat, coefficient: Float, iterations: int)
    requires i < FieldCount
    ensures var n := P.Loops(iterations);
      var r := Diffuse(m, ctx, i, coefficient, iterations);
      && Changes(m, r, i)
      && m.calls <= r.calls <= m.calls + n
      && (Reliable(ctx) ==> r.calls == m.calls + n && Flips(m, r, if n % 2 == 0 then Kept else Only(i)))
  {
    var n := P.Loops(iterations);
    IterateEffect(m, ctx, Diffusion(i, coefficient), n);
    if Reliable(ctx) {
      IterateReliable(m, ctx, Diffusion(i, coefficient), n);
    }
  }

  /** Project2 changes the pressure only; on a device that never fails it swaps it `iterations` times. */
  lemma Project2Effect(m: Machine, ctx: Context, iterations: int)
    ensures var n := P.Loops(iterations);
      var r := Project2(m, ctx, iterations);
      && Changes(m, r, Pressure)
      && m.calls <= r.calls <= m.calls + n
      && (Reliable(ctx) ==> r.calls == m.calls + n && Flips(m, r, if n % 2 == 0 then Kept else Only(Pressure)))
  {
    var n := P.Loops(iterations);
    IterateEffect(m, ctx, Relaxation, n);
    if Reliable(ctx) {
      IterateReliable(m, ctx, Relaxation, n);
    }
  }

  /* ---- the tick ---- */

  /** `b` as a swap of field `i`: field `i` changes sides exactly when `b` holds. */
  function FlipIf(b: bool, i: nat): Sides
  {
    if b then Only(i) else Kept
  }

  /** The velocity diffusion touches only the velocity; every component is swapped `n` times. */
  lemma VelocityDiffusionParity(m: Machine, ctx: Context, viscosity: Float, iterations: int)
    requires Reliable(ctx)
    ensures var n := P.Loops(iterations);
      var r := VelocityDiffusion(m, ctx, viscosity, iterations);
      var o := n % 2 == 1;
      && r.calls == m.calls + 3 * n
      && Keeps(m, r, Velocities)
      && Flips(m, r, Sides(o, o, o, false, false, false))
  {
    var n := P.Loops(iterations);
    var o := n % 2 == 1;
    var m1 := Diffuse(m, ctx, VelocityX, viscosity, iterations);
    var m2 := Diffuse(m1, ctx, VelocityY, viscosity, iterations);
    DiffuseEffect(m, ctx, VelocityX, viscosity, iterations);
    DiffuseEffect(m1, ctx, VelocityY, viscosity, iterations);
    DiffuseEffect(m2, ctx, VelocityZ, viscosity, iterations);
    P.FlipsThen(m, m1, m2, FlipIf(o, VelocityX), FlipIf(o, VelocityY));
    P.FlipsThen(m, m2, Diffuse(m2, ctx, VelocityZ, viscosity, iterations),
                P.Then(FlipIf(o, VelocityX), FlipIf(o, VelocityY)), FlipIf(o, VelocityZ));
  }

  /**
   * A projection touches neither the density nor the velocity's read sides before Project3. It
   * swaps the divergence and the velocity once and the pressure `n + 1` times.
   */
  lemma ProjectionParity(m: Machine, ctx: Context, iterations: int)
    requires Reliable(ctx)
    ensures var n := P.Loops(iterations);
      var r := Projection(m, ctx, iterations);
      && r.calls == m.calls + n + 2
      && Keeps(m, r, Sides(true, true, true, true, true, false))
      && Flips(m, r, Sides(true, true, true, n % 2 == 0, true, false))
  {
    var n := P.Loops(iterations);
    var m1 := P.Project1(m, ctx);
    var m2 := Project2(m1, ctx, iterations);
    assert Begins(m, ctx);
    P.Project1Effect(m, ctx);
    Project2Effect(m1, ctx, iterations);
    assert Begins(m2, ctx);
    P.Project3Effect(m2, ctx);
    var two := FlipIf(n % 2 == 1, Pressure);
    P.FlipsThen(m, m1, m2, Sides(false, false, false, true, true, false), two);
    P.FlipsThen(m, m2, P.Project3(m2, ctx), P.Then(Sides(false, false, false, true, true, false), two), Velocities);
  }

  /** The density step swaps the density `n + 1` times and touches nothing else. */
  lemma DensityStepParity(m: Machine, ctx: Context, diffusion: Float, iterations: int)
    requires Reliable(ctx)
    ensures var n := P.Loops(iterations);
      var r := DensityStep(m, ctx, diffusion, iterations);
      && r.calls == m.calls + n + 1
      && Keeps(m, r, Only(Density))
      && Flips(m, r, FlipIf(n % 2 == 0, Density))
  {
    var n := P.Loops(iterations);
    var m1 := Diffuse(m, ctx, Density, diffusion, iterations);
    DiffuseEffect(m, ctx, Density, diffusion, iterations);
    assert Begins(m1, ctx);
    P.Advect2Effect(m1, ctx);
    P.FlipsThen(m, m1, P.Advect2(m1, ctx), FlipIf(n % 2 == 1, Density), Only(Density));
  }

  /**
   * A step on a device that never fails makes `6 * n + 8` calls. It leaves the pressure and the
   * divergence on the sides they started on; the velocity and the density change sides exactly
   * when `n` is even.
   */
  lemma TickParity(m: Machine, ctx: Context, iterations: int, viscosity: Float, diffusion: Float)
    requires Reliable(ctx)
    ensures var n := P.Loops(iterations);
      var r := Tick(m, ctx, iterations, viscosity, diffusion);
      var e := n % 2 == 0;
      && r.calls == m.calls + 6 * n + 8
      && Flips(m, r, Sides(e, e, e, false, false, e))
  {
    var n := P.Loops(iterations);
    var e := n % 2 == 0;
    var o := n % 2 == 1;
    var m1 := VelocityDiffusion(m, ctx, viscosity, iterations);
    var m2 := Projection(m1, ctx, iterations);
    var m3 := P.Advection(m2, ctx);
    var m4 := Projection(m3, ctx, iterations);
    var pressure := Sides(true, true, true, e, true, false);
    VelocityDiffusionParity(m, ctx, viscosity, iterations);
    ProjectionParity(m1, ctx, iterations);
    P.FlipsThen(m, m1, m2, Sides(o, o, o, false, false, false), pressure);
    P.AdvectionEffect(m2, ctx);
    P.FlipsThen(m, m2, m3, Sides(e, e, e, e, true, false), Velocities);
    ProjectionParity(m3, ctx, iterations);
    P.FlipsThen(m, m3, m4, Sides(o, o, o, e, true, false), pressure);
    DensityStepParity(m4, ctx, diffusion, iterations);
    P.FlipsThen(m, m4, DensityStep(m4, ctx, diffusion, iterations), Sides(e, e, e, false, false, false), FlipIf(e, Density));
  }

  /**
   * The three advections read one snapshot: whatever the device answers, each velocity component
   * whose Advect1 pass began reads, after the step's advection, its advection along the velocity
   * the first projection left, and the second projection starts from there.
   */
  lemma TickAdvection(m: Machine, ctx: Context, iterations: int, viscosity: Float, diffusion: Float)
    ensures var m2 := Projection(VelocityDiffusion(m, ctx, viscosity, iterations), ctx, iterations);
      var m3 := P.Advection(m2, ctx);
      && Tick(m, ctx, iterations, viscosity, diffusion) == DensityStep(Projection(m3, ctx, iterations), ctx, diffusion, iterations)
      && Flips(m2, m3, Velocities)
      && (ctx.answer(m2.calls) ==> Read(m3.fields[VelocityX]) == Stored(Write(m2.fields[VelocityX]), P.Advected(m2, ctx, 0)))
      && (ctx.answer(m2.calls + 1) ==> Read(m3.fields[VelocityY]) == Stored(Write(m2.fields[VelocityY]), P.Advected(m2, ctx, 1)))
      && (ctx.answer(m2.calls + 2) ==> Read(m3.fields[VelocityZ]) == Stored(Write(m2.fields[VelocityZ]), P.Advected(m2, ctx, 2)))
  {
    var m2 := Projection(VelocityDiffusion(m, ctx, viscosity, iterations), ctx, iterations);
    var m3 := P.Advection(m2, ctx);
    assert Tick(m, ctx, iterations, viscosity, diffusion) == DensityStep(Projection(m3, ctx, iterations), ctx, diffusion, iterations);
    P.AdvectionEffect(m2, ctx);
  }

  /** Nothing before the density step touches the density: it diffuses the density the step began with. */
  lemma TickDensityLast(m: Machine, ctx: Context, iterations: int, viscosity: Float, diffusion: Float)
    ensures var m4 := Projection(P.Advection(Projection(VelocityDiffusion(m, ctx, viscosity, iterations), ctx, iterations), ctx), ctx, iterations);
      m4.fields[Density] == m.fields[Density]
  {
    var m1 := VelocityDiffusion(m, ctx, viscosity, iterations);
    var m2 := Projection(m1, ctx, iterations);
    var m3 := P.Advection(m2, ctx);
    VelocityDiffusionKeepsDensity(m, ctx, viscosity, iterations);
    ProjectionKeepsDensity(m1, ctx, iterations);
    P.AdvectionEffect(m2, ctx);
    ProjectionKeepsDensity(m3, ctx, iterations);
  }

  /** The velocity diffusion never touches the density. */
  lemma VelocityDiffusionKeepsDensity(m: Machine, ctx: Context, viscosity: Float, iterations: int)
    ensures VelocityDiffusion(m, ctx, viscosity, iterations).fields[Density] == m.fields[Density]
  {
    var a := Diffuse(m, ctx, VelocityX, viscosity, iterations);
    var b := Diffuse(a, ctx, VelocityY, viscosity, iterations);
    DiffuseEffect(m, ctx, VelocityX, viscosity, iterations);
    DiffuseEffect(a, ctx, VelocityY, viscosity, iterations);
    DiffuseEffect(b, ctx, VelocityZ, viscosity, iterations);
  }

  /** A projection never touches the density. */
  lemma ProjectionKeepsDensity(m: Machine, ctx: Context, iterations: int)
    ensures Projection(m, ctx, iterations).fields[Density] == m.fields[Density]
  {
    var m1 := P.Project1(m, ctx);
    var m2 := Project2(m1, ctx, iterations);
    P.Project1Effect(m, ctx);
    Project2Effect(m1, ctx, iterations);
    P.Project3Effect(m2, ctx);
  }
}
