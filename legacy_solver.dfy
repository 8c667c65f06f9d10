/**
 * The earlier program's globals and its per-frame logic: the six `ReadWriteTexture`s, `size`,
 * `iterations`, `delay`, `cooldown`, `dt`, `diffusion` and `viscosity`, and the functions that
 * record compute passes. Every stage is proved to leave the fields and the device as its
 * `LegacyPipeline` (or `Pipeline`) function says, and every frame as `LegacyApp` says.
 */
module LegacySolver {
  import opened Wrappers
  import opened Gpu
  import opened DoubleBuffer
  import opened Passes
  import P = Pipeline
  import LP = LegacyPipeline
  import LA = LegacyApp
  import Rw = RwTexture
  import S = SimState

  class Simulation {
    const device: Device
    const textures: seq<Rw.ReadWriteTexture>
    /** The workgroup edge `THREADS_3D`, a build-time constant. */
    const threads: int
    var size: S.int32
    var iterations: S.int32
    var delay: S.int32
    var cooldown: int
    var dt: nat
    var diffusion: Float
    var viscosity: Float

    /** The six texture objects. */
    ghost function Repr(): set<object>
    {
      if |textures| != FieldCount then {}
      else
        {textures[0], textures[1], textures[2], textures[3], textures[4], textures[5]}
    }

    ghost predicate Valid()
    {
      && |textures| == FieldCount
      && threads >= 1
      && (forall i, j :: 0 <= i < FieldCount && 0 <= j < FieldCount && i != j ==>
            textures[i] != textures[j])
    }

    /**
     * The globals as the program starts: six default-constructed textures, `size` 128, 5
     * iterations, `delay` 16, `diffusion` and `viscosity` 0.01, and `cooldown` and `dt` zero.
     */
    constructor (device: Device, threads: int)
      requires threads >= 1
      ensures Valid() && fresh(Repr())
      ensures this.device == device && this.threads == threads
      ensures World() == LA.World(Machine([Empty, Empty, Empty, Empty, Empty, Empty], device.calls),
                                  128, 5, 16, 0, 0, Hundredth, Hundredth)
    {
      var t0 := new Rw.ReadWriteTexture();
      var t1 := new Rw.ReadWriteTexture();
      var t2 := new Rw.ReadWriteTexture();
      var t3 := new Rw.ReadWriteTexture();
      var t4 := new Rw.ReadWriteTexture();
      var t5 := new Rw.ReadWriteTexture();
      this.device := device;
      this.threads := threads;
      textures := [t0, t1, t2, t3, t4, t5];
      size := 128;
      iterations := 5;
      delay := 16;
      cooldown := 0;
      dt := 0;
      diffusion := Hundredth;
      viscosity := Hundredth;
      new;
      SnapshotIs(Machine([Empty, Empty, Empty, Empty, Empty, Empty], device.calls));
    }

    /** The six fields and the device's call count, as a value. */
    ghost function Snapshot(): (r: Machine)
      reads Repr(), device
      requires Valid()
      ensures r.calls == device.calls
    {
      Machine([textures[0].Value(), textures[1].Value(), textures[2].Value(),
               textures[3].Value(), textures[4].Value(), textures[5].Value()], device.calls)
    }

    /** The snapshot is determined by the six textures and the device's call count. */
    lemma SnapshotIs(m: Machine)
      requires Valid()
      requires textures[0].Value() == m.fields[0] && textures[1].Value() == m.fields[1]
      requires textures[2].Value() == m.fields[2] && textures[3].Value() == m.fields[3]
      requires textures[4].Value() == m.fields[4] && textures[5].Value() == m.fields[5]
      requires device.calls == m.calls
      ensures Snapshot() == m
    {
      assert Snapshot().fields == m.fields;
    }

    /** What the stages depend on besides the fields. */
    ghost function Ctx(): Context
      reads this
      requires threads >= 1
    {
      Context(device.answer, threads, size, dt)
    }

    /** `(size + THREADS_3D - 1) / THREADS_3D` on every axis. */
    function Groups3(): (groups: Groups)
      reads this
      requires threads >= 1
      ensures groups == Whole(Ctx())
    {
      var g := GroupCount(size, threads);
      Groups(g, g, g)
    }

    /** What a kernel reads through a storage-texture binding of field `i`'s read side. */
    method ReadCellsOf(i: nat) returns (g: Grid)
      requires Valid() && i < FieldCount
      ensures g == ReadCells(textures[i].Value())
    {
      var address := textures[i].GetReadTextureAddress();
      g := Cells(textures[i].textures[address]);
    }

    /* ---- the stages ---- */

    method Add1(texture: nat, position: LA.Cell, value: Float)
      requires Valid() && texture < FieldCount
      modifies device, Repr()
      ensures Valid()
      ensures Ctx() == old(Ctx())
      ensures Snapshot() == P.Add1(old(Snapshot()), Ctx(), texture, position.x, position.y, position.z, value)
    {
      ghost var m := Snapshot();
      var pass := textures[texture].BeginReadPass(device);
      SnapshotIs(Called(m));
      if pass.Some? {
        var target := textures[texture].GetReadTexture();
        StoreField(texture, pass.value.slot, Out(Kernel.Add1, 0, [Cells(target)], [],
          [UPosition(position.x, position.y, position.z), UFloat(value)], Groups(1, 1, 1)));
      }
    }

    method Add2(texture: nat, value: Float)
      requires Valid() && texture < FieldCount
      modifies device, Repr()
      ensures Valid()
      ensures Ctx() == old(Ctx())
      ensures Snapshot() == P.Add2(old(Snapshot()), Ctx(), texture, value)
    {
      ghost var m := Snapshot();
      var pass := textures[texture].BeginReadPass(device);
      SnapshotIs(Called(m));
      if pass.Some? {
        var target := textures[texture].GetReadTexture();
        var groups := Groups3();
        StoreField(texture, pass.value.slot, Out(Kernel.Add2, 0, [Cells(target)], [], [UFloat(value)], groups));
      }
    }

    /**
     * Clear with value 0: a write pass recorded into the command buffer. The recorded dispatch is
     * returned, and the GPU runs it when the buffer is submitted.
     */
    method Clear(i: nat) returns (recorded: seq<P.ClearCommand>)
      requires Valid() && i < FieldCount
      modifies device
      ensures Valid()
      ensures Ctx() == old(Ctx())
      ensures (Snapshot(), recorded) == P.Clear(old(Snapshot()), Ctx(), i)
    {
      ghost var m := Snapshot();
      var pass := textures[i].BeginWritePass(device);
      recorded := if pass.Some? then [P.ClearCommand(i, pass.value.slot)] else [];
      SnapshotIs(Called(m));
    }

    /** One iteration of Diffuse's loop: a write pass into field `i`, swapped once it began. */
    method DiffusePass(i: nat, coefficient: Float) returns (begun: bool)
      requires Valid() && i < FieldCount
      modifies device, Repr()
      ensures Valid()
      ensures Ctx() == old(Ctx())
      ensures begun == Begins(old(Snapshot()), Ctx())
      ensures Snapshot() == LP.Pass(old(Snapshot()), Ctx(), LP.Diffusion(i, coefficient))
    {
      ghost var m := Snapshot();
      var pass := textures[i].BeginWritePass(device);
      SnapshotIs(Called(m));
      begun := pass.Some?;
      if begun {
        var target := textures[i].GetWriteTexture();
        var sample := ReadCellsOf(i);
        var groups := Groups3();
        StoreField(i, pass.value.slot, Out(Kernel.Diffuse, 0, [Cells(target)], [sample],
          [UDt(dt), UFloat(coefficient)], groups));
        SwapTexture(i);
      }
    }

    /** Diffuse runs `iterations` passes over field `i` and returns at the first that does not begin. */
    method Diffuse(i: nat, coefficient: Float)
      requires Valid() && i < FieldCount
      modifies device, Repr()
      ensures Valid()
      ensures Ctx() == old(Ctx())
      ensures Snapshot() == LP.Diffuse(old(Snapshot()), Ctx(), i, coefficient, iterations)
    {
      ghost var m := Snapshot();
      ghost var ctx := Ctx();
      ghost var s: LP.Stage := LP.Diffusion(i, coefficient);
      var n := P.Loops(iterations);
      assert this !in Repr();
      ghost var goal := LP.Iterate(m, ctx, s, n);
      assert goal == LP.Diffuse(m, ctx, i, coefficient, iterations);
      var k := 0;
      while k < n
        invariant Valid() && Ctx() == ctx && 0 <= k <= n
        invariant LP.Iterate(Snapshot(), ctx, s, n - k) == goal
      {
        ghost var before := Snapshot();
        var begun := DiffusePass(i, coefficient);
        LP.IterateOn(before, Snapshot(), ctx, s, n - k, goal);
        if !begun {
          assert Snapshot() == goal;
          return;
        }
        k := k + 1;
      }
    }

    /** Project1: begins its pass directly, binding the pressure and divergence write sides. */
    method Project1()
      requires Valid()
      modifies device, Repr()
      ensures Valid()
      ensures Ctx() == old(Ctx())
      ensures Snapshot() == P.Project1(old(Snapshot()), Ctx())
    {
      ghost var m := Snapshot();
      var pressure := textures[Pressure].GetWriteTexture();
      var divergence := textures[Divergence].GetWriteTexture();
      var begun := device.Call();
      SnapshotIs(Called(m));
      if begun {
        var x := ReadCellsOf(VelocityX);
        var y := ReadCellsOf(VelocityY);
        var z := ReadCellsOf(VelocityZ);
        var groups := Groups3();
        var targets := [Cells(pressure), Cells(divergence)];
        var samples := [x, y, z];
        assert samples == Velocity(m);
        WriteAndSwap(Pressure, Out(Kernel.Project1, 0, targets, samples, [], groups));
        WriteAndSwap(Divergence, Out(Kernel.Project1, 1, targets, samples, [], groups));
      }
    }

    /** One iteration of Project2's loop: a relaxation into the pressure, swapped once it began. */
    method RelaxPass() returns (begun: bool)
      requires Valid()
      modifies device, Repr()
      ensures Valid()
      ensures Ctx() == old(Ctx())
      ensures begun == Begins(old(Snapshot()), Ctx())
      ensures Snapshot() == LP.Pass(old(Snapshot()), Ctx(), LP.Relaxation)
    {
      ghost var m := Snapshot();
      var pass := textures[Pressure].BeginWritePass(device);
      SnapshotIs(Called(m));
      begun := pass.Some?;
      if begun {
        var target := textures[Pressure].GetWriteTexture();
        var sample := ReadCellsOf(Divergence);
        var groups := Groups3();
        StoreField(Pressure, pass.value.slot, Out(Kernel.Project2, 0, [Cells(target)], [sample], [], groups));
        SwapTexture(Pressure);
      }
    }

    /** Project2 runs `iterations` relaxations and returns at the first pass that does not begin. */
    method Project2()
      requires Valid()
      modifies device, Repr()
      ensures Valid()
      ensures Ctx() == old(Ctx())
      ensures Snapshot() == LP.Project2(old(Snapshot()), Ctx(), iterations)
    {
      ghost var m := Snapshot();
      ghost var ctx := Ctx();
      var n := P.Loops(iterations);
      assert this !in Repr();
      ghost var goal := LP.Iterate(m, ctx, LP.Relaxation, n);
      assert goal == LP.Project2(m, ctx, iterations);
      var k := 0;
      while k < n
        invariant Valid() && Ctx() == ctx && 0 <= k <= n
        invariant LP.Iterate(Snapshot(), ctx, LP.Relaxation, n - k) == goal
      {
        ghost var before := Snapshot();
        var begun := RelaxPass();
        LP.IterateOn(before, Snapshot(), ctx, LP.Relaxation, n - k, goal);
        if !begun {
          assert Snapshot() == goal;
          return;
        }
        k := k + 1;
      }
    }

    /** Project3: begins its pass directly, binding the three velocity write sides. */
    method Project3()
      requires Valid()
      modifies device, Repr()
      ensures Valid()
      ensures Ctx() == old(Ctx())
      ensures Snapshot() == P.Project3(old(Snapshot()), Ctx())
    {
      ghost var m := Snapshot();
      var wx := textures[VelocityX].GetWriteTexture();
      var wy := textures[VelocityY].GetWriteTexture();
      var wz := textures[VelocityZ].GetWriteTexture();
      var begun := device.Call();
      SnapshotIs(Called(m));
      if begun {
        var pressure := ReadCellsOf(Pressure);
        var x := ReadCellsOf(VelocityX);
        var y := ReadCellsOf(VelocityY);
        var z := ReadCellsOf(VelocityZ);
        var groups := Groups3();
        var targets := [Cells(wx), Cells(wy), Cells(wz)];
        var samples := [pressure, x, y, z];
        assert samples == AndVelocity(m, Pressure);
        WriteAndSwap(VelocityX, Out(Kernel.Project3, 0, targets, samples, [], groups));
        WriteAndSwap(VelocityY, Out(Kernel.Project3, 1, targets, samples, [], groups));
        WriteAndSwap(VelocityZ, Out(Kernel.Project3, 2, targets, samples, [], groups));
      }
    }

    /** Advect1 on velocity component `axis`, which the source asserts is one of the three. */
    method Advect1(axis: nat)
      requires Valid() && axis < 3
      modifies device, Repr()
      ensures Valid()
      ensures Ctx() == old(Ctx())
      ensures Snapshot() == P.Advect1(old(Snapshot()), Ctx(), axis)
    {
      ghost var m := Snapshot();
      var pass := textures[axis].BeginWritePass(device);
      SnapshotIs(Called(m));
      if pass.Some? {
        var target := textures[axis].GetWriteTexture();
        var x := ReadCellsOf(VelocityX);
        var y := ReadCellsOf(VelocityY);
        var z := ReadCellsOf(VelocityZ);
        var groups := Groups3();
        StoreField(axis, pass.value.slot, Out(Kernel.Advect1, 0, [Cells(target)], [x, y, z], [UInt(axis), UDt(dt)], groups));
      }
    }

    method Advect2()
      requires Valid()
      modifies device, Repr()
      ensures Valid()
      ensures Ctx() == old(Ctx())
      ensures Snapshot() == P.Advect2(old(Snapshot()), Ctx())
    {
      ghost var m := Snapshot();
      var pass := textures[Density].BeginWritePass(device);
      SnapshotIs(Called(m));
      if pass.Some? {
        var target := textures[Density].GetWriteTexture();
        var density := ReadCellsOf(Density);
        var x := ReadCellsOf(VelocityX);
        var y := ReadCellsOf(VelocityY);
        var z := ReadCellsOf(VelocityZ);
        var groups := Groups3();
        StoreField(Density, pass.value.slot, Out(Kernel.Advect2, 0, [Cells(target)], [density, x, y, z], [UDt(dt)], groups));
        SwapTexture(Density);
      }
    }

    /** `textures[i].Store(slot, g)`: a dispatched kernel's output lands in one side of field `i`. */
    method StoreField(i: nat, slot: nat, g: Grid)
      requires Valid() && i < FieldCount && slot < 2
      modifies textures[i]
      ensures Valid()
      ensures Ctx() == old(Ctx())
      ensures Snapshot() == old(Snapshot()).(fields := old(Snapshot()).fields[i := StoreAt(old(Snapshot()).fields[i], slot, g)])
    {
      ghost var m := Snapshot();
      ghost var r := m.(fields := m.fields[i := StoreAt(m.fields[i], slot, g)]);
      textures[i].Store(slot, g);
      SnapshotIs(r);
    }

    /** `textures[i].Swap()`. */
    method SwapTexture(i: nat)
      requires Valid() && i < FieldCount
      modifies textures[i]
      ensures Valid()
      ensures Ctx() == old(Ctx())
      ensures Snapshot() == SwapField(old(Snapshot()), i)
    {
      ghost var r := SwapField(Snapshot(), i);
      textures[i].Swap();
      SnapshotIs(r);
    }

    /**
     * Target `i` of a multi-target pass: its output stored into field `i`'s write side, then field
     * `i` swapped. The pass stores every target before swapping any; as each target is a different
     * field and the outputs are computed from the bindings made before, the order does not matter.
     */
    method WriteAndSwap(i: nat, g: Grid)
      requires Valid() && i < FieldCount
      modifies textures[i]
      ensures Valid()
      ensures Ctx() == old(Ctx())
      ensures Snapshot() == old(Snapshot()).(fields := old(Snapshot()).fields[i := Swap(StoreWrite(old(Snapshot()).fields[i], g))])
    {
      StoreField(i, WriteSlot(textures[i].Value()), g);
      SwapTexture(i);
    }

    /* ---- CreateCells ---- */

    /**
     * One iteration of CreateCells' loop: create field `i`'s textures and, when both exist, record
     * a Clear of the write side, swap, and record a Clear of the new write side.
     */
    method CreateField(i: nat) returns (commands: seq<P.ClearCommand>, ok: bool)
      requires Valid() && i < FieldCount
      modifies device, Repr()
      ensures Valid()
      ensures Ctx() == old(Ctx())
      ensures (Snapshot(), commands, ok) == P.CreateField(old(Snapshot()), Ctx(), i)
    {
      ghost var m := Snapshot();
      ghost var ctx := Ctx();
      ok := textures[i].Create(device, size);
      ghost var created := Machine(m.fields[i := Created(m.fields[i], ctx.size, ctx.answer(m.calls), ctx.answer(m.calls + 1))],
                                   m.calls + CreateAttempts(ctx.answer(m.calls)));
      assert textures[i].Value() == created.fields[i];
      SnapshotIs(created);
      if !ok {
        commands := [];
        return;
      }
      var first := Clear(i);
      SwapTexture(i);
      var second := Clear(i);
      commands := first + second;
    }

    /** The GPU running one recorded Clear: the named slot of the named field fills with 0. */
    method RunClear(c: P.ClearCommand)
      requires Valid()
      modifies Repr()
      ensures Valid()
      ensures Ctx() == old(Ctx())
      ensures Snapshot() == P.Execute(old(Snapshot()), [c])
    {
      ghost var m := Snapshot();
      ghost var r := m.(fields := m.fields[c.field := StoreAt(m.fields[c.field], c.slot, Filled(Zero))]);
      assert P.Execute(m, [c]) == P.Execute(r, []);
      textures[c.field].Store(c.slot, Filled(Zero));
      assert textures[c.field].Value() == r.fields[c.field];
      SnapshotIs(r);
    }

    /** Submitting the command buffer: the recorded clears run in the order they were recorded. */
    method Submit(commands: seq<P.ClearCommand>)
      requires Valid()
      modifies Repr()
      ensures Valid()
      ensures Ctx() == old(Ctx())
      ensures Snapshot() == P.Execute(old(Snapshot()), commands)
    {
      ghost var m := Snapshot();
      var k := 0;
      while k < |commands|
        invariant Valid() && k <= |commands|
        invariant P.Execute(Snapshot(), commands[k..]) == P.Execute(m, commands)
      {
        ghost var before := Snapshot();
        RunClear(commands[k]);
        assert P.Execute(before, commands[k..]) == P.Execute(Snapshot(), commands[k + 1..]) by {
          assert commands[k..][1..] == commands[k + 1..];
        }
        k := k + 1;
      }
    }

    /**
     * Acquires a command buffer, creates and clears the six fields, and submits the clears; it
     * gives up at the first field whose textures cannot be created, without submitting.
     */
    method CreateCells() returns (ok: bool)
      requires Valid()
      modifies device, Repr()
      ensures Valid()
      ensures Ctx() == old(Ctx())
      ensures (Snapshot(), ok) == P.CreateCells(old(Snapshot()), Ctx())
    {
      ghost var m := Snapshot();
      var acquired := device.Call();
      SnapshotIs(Called(m));
      if !acquired {
        return false;
      }
      var pending: seq<P.ClearCommand> := [];
      var i := 0;
      while i < FieldCount
        invariant Valid() && i <= FieldCount
        invariant P.CreateFrom(Snapshot(), Ctx(), i, pending) == P.CreateCells(m, Ctx())
      {
        var commands, created := CreateField(i);
        if !created {
          return false;
        }
        pending := pending + commands;
        i := i + 1;
      }
      Submit(pending);
      ok := true;
    }

    /** `textures[i].Free(device)`. */
    method FreeField(i: nat)
      requires Valid() && i < FieldCount
      modifies textures[i]
      ensures Valid()
      ensures Snapshot() == old(Snapshot()).(fields := old(Snapshot()).fields[i := Freed(old(Snapshot()).fields[i])])
    {
      ghost var m := Snapshot();
      ghost var r := m.(fields := m.fields[i := Freed(m.fields[i])]);
      textures[i].Free();
      SnapshotIs(r);
    }

    /** The textures released as the program exits: every field holds no texture and keeps its read index. */
    method FreeAll()
      requires Valid()
      modifies Repr()
      ensures Valid()
      ensures Snapshot().calls == old(Snapshot()).calls
      ensures forall j :: 0 <= j < FieldCount ==> Snapshot().fields[j] == Freed(old(Snapshot()).fields[j])
    {
      ghost var m := Snapshot();
      for i := 0 to FieldCount
        invariant Valid() && Snapshot().calls == m.calls
        invariant forall j :: 0 <= j < i ==> Snapshot().fields[j] == Freed(m.fields[j])
        invariant forall j :: i <= j < FieldCount ==> Snapshot().fields[j] == m.fields[j]
      {
        FreeField(i);
      }
    }

    /* ---- the tick ---- */

    method VelocityDiffusion()
      requires Valid()
      modifies device, Repr()
      ensures Valid()
      ensures Ctx() == old(Ctx())
      ensures Snapshot() == LP.VelocityDiffusion(old(Snapshot()), Ctx(), viscosity, iterations)
    {
      ghost var m := Snapshot();
      Diffuse(VelocityX, viscosity);
      ghost var m1 := Snapshot();
      Diffuse(VelocityY, viscosity);
      ghost var m2 := Snapshot();
      Diffuse(VelocityZ, viscosity);
      assert m1 == LP.Diffuse(m, Ctx(), VelocityX, viscosity, iterations);
      assert m2 == LP.Diffuse(m1, Ctx(), VelocityY, viscosity, iterations);
    }

    method Projection()
      requires Valid()
      modifies device, Repr()
      ensures Valid()
      ensures Ctx() == old(Ctx())
      ensures Snapshot() == LP.Projection(old(Snapshot()), Ctx(), iterations)
    {
      ghost var m := Snapshot();
      ghost var ctx := Ctx();
      assert this !in Repr();
      Project1();
      ghost var m1 := Snapshot();
      Project2();
      ghost var m2 := Snapshot();
      Project3();
      assert m1 == P.Project1(m, ctx);
      assert m2 == LP.Project2(m1, ctx, iterations);
    }

    /** The three Advect1 dispatches, and only then the three velocity swaps. */
    method Advection()
      requires Valid()
      modifies device, Repr()
      ensures Valid()
      ensures Ctx() == old(Ctx())
      ensures Snapshot() == P.Advection(old(Snapshot()), Ctx())
    {
      Advect1(VelocityX);
      Advect1(VelocityY);
      Advect1(VelocityZ);
      SwapTexture(VelocityX);
      SwapTexture(VelocityY);
      SwapTexture(VelocityZ);
    }

    method DensityStep()
      requires Valid()
      modifies device, Repr()
      ensures Valid()
      ensures Ctx() == old(Ctx())
      ensures Snapshot() == LP.DensityStep(old(Snapshot()), Ctx(), diffusion, iterations)
    {
      ghost var m := Snapshot();
      ghost var ctx := Ctx();
      assert this !in Repr();
      Diffuse(Density, diffusion);
      ghost var m1 := Snapshot();
      Advect2();
      assert m1 == LP.Diffuse(m, ctx, Density, diffusion, iterations);
    }

    /** The velocity diffusion and the projection that follows it. */
    method DiffuseAndProject()
      requires Valid()
      modifies device, Repr()
      ensures Valid()
      ensures Ctx() == old(Ctx())
      ensures Snapshot() == LP.Projection(LP.VelocityDiffusion(old(Snapshot()), Ctx(), viscosity, iterations), Ctx(), iterations)
    {
      ghost var m := Snapshot();
      assert this !in Repr();
      VelocityDiffusion();
      ghost var m1 := Snapshot();
      Projection();
      assert m1 == LP.VelocityDiffusion(m, Ctx(), viscosity, iterations);
    }

    /** The advection of the velocity, the projection after it and the density step. */
    method AdvectAndCarry()
      requires Valid()
      modifies device, Repr()
      ensures Valid()
      ensures Ctx() == old(Ctx())
      ensures Snapshot() == LP.DensityStep(LP.Projection(P.Advection(old(Snapshot()), Ctx()), Ctx(), iterations), Ctx(), diffusion, iterations)
    {
      ghost var m := Snapshot();
      assert this !in Repr();
      Advection();
      ghost var m1 := Snapshot();
      Projection();
      ghost var m2 := Snapshot();
      DensityStep();
      assert m1 == P.Advection(m, Ctx());
      assert m2 == LP.Projection(m1, Ctx(), iterations);
    }

    /** The body of `if (cooldown <= 0)` before `cooldown = delay`: one simulation step. */
    method Tick()
      requires Valid()
      modifies device, Repr()
      ensures Valid()
      ensures Ctx() == old(Ctx())
      ensures Snapshot() == LP.Tick(old(Snapshot()), old(Ctx()), old(iterations), old(viscosity), old(diffusion))
    {
      ghost var m := Snapshot();
      ghost var ctx := Ctx();
      assert this !in Repr();
      DiffuseAndProject();
      ghost var m1 := Snapshot();
      AdvectAndCarry();
      assert m1 == LP.Projection(LP.VelocityDiffusion(m, ctx, viscosity, iterations), ctx, iterations);
    }

    /* ---- the frame: UpdateImGui, Update and the main loop ---- */

    /** The globals one frame reads and writes, as a value. */
    ghost function World(): LA.World
      reads this, Repr(), device
      requires Valid()
    {
      LA.World(Snapshot(), size, iterations, delay, cooldown, dt, diffusion, viscosity)
    }

    /** The Delay, Iterations, Diffusion and Viscosity sliders: nothing else changes. */
    method SetSettings(c: LA.Controls)
      requires Valid()
      modifies this
      ensures Valid()
      ensures World() == old(World()).(delay := c.delay, iterations := c.iterations,
                                       diffusion := c.diffusion, viscosity := c.viscosity)
    {
      delay := c.delay;
      iterations := c.iterations;
      diffusion := c.diffusion;
      viscosity := c.viscosity;
    }

    /** The Size slider moved: nothing else changes. */
    method SetSize(value: S.int32)
      requires Valid()
      modifies this
      ensures Valid()
      ensures World() == old(World()).(size := value)
    {
      size := value;
    }

    /** `cooldown = value`: nothing else changes. */
    method SetCooldown(value: int)
      requires Valid()
      modifies this
      ensures Valid()
      ensures World() == old(World()).(cooldown := value)
    {
      cooldown := value;
    }

    /** CreateCells as a step of the program: only the fields and the device change. */
    method Recreate() returns (ok: bool)
      requires Valid()
      modifies device, Repr()
      ensures Valid()
      ensures World() == LA.Recreated(old(World()), device.answer, threads)
      ensures ok == P.CreateCells(old(Snapshot()), Ctx()).1
    {
      ghost var w := World();
      assert this !in Repr();
      ok := CreateCells();
      assert size == w.size && iterations == w.iterations && delay == w.delay && cooldown == w.cooldown;
      assert dt == w.dt && diffusion == w.diffusion && viscosity == w.viscosity;
    }

    /** Add Velocity (All): Add2 on each velocity component. */
    method AddAll(v: LA.Vector)
      requires Valid()
      modifies device, Repr()
      ensures Valid()
      ensures Ctx() == old(Ctx())
      ensures Snapshot() == LA.AddAll(old(Snapshot()), Ctx(), v)
    {
      Add2(VelocityX, v.x);
      Add2(VelocityY, v.y);
      Add2(VelocityZ, v.z);
    }

    /** Add Velocity (Single): Add1 on each velocity component at one cell. */
    method AddSingle(p: LA.Impulse)
      requires Valid()
      modifies device, Repr()
      ensures Valid()
      ensures Ctx() == old(Ctx())
      ensures Snapshot() == LA.AddSingle(old(Snapshot()), Ctx(), p)
    {
      Add1(VelocityX, p.cell, p.velocity.x);
      Add1(VelocityY, p.cell, p.velocity.y);
      Add1(VelocityZ, p.cell, p.velocity.z);
    }

    /** Add Density: Add1 on the density at one cell. */
    method AddDensity(d: LA.Dab)
      requires Valid()
      modifies device, Repr()
      ensures Valid()
      ensures Ctx() == old(Ctx())
      ensures Snapshot() == LA.AddDensity(old(Snapshot()), Ctx(), d)
    {
      Add1(Density, d.cell, d.amount);
    }

    /** The Add Velocity buttons, each when it was clicked. */
    method VelocityButtons(c: LA.Controls)
      requires Valid()
      modifies device, Repr()
      ensures Valid()
      ensures Ctx() == old(Ctx())
      ensures var m1 := if c.addAll.Some? then LA.AddAll(old(Snapshot()), Ctx(), c.addAll.value) else old(Snapshot());
        Snapshot() == if c.addSingle.Some? then LA.AddSingle(m1, Ctx(), c.addSingle.value) else m1
    {
      if c.addAll.Some? {
        AddAll(c.addAll.value);
      }
      if c.addSingle.Some? {
        AddSingle(c.addSingle.value);
      }
    }

    /** The three Add buttons, each when it was clicked. */
    method Buttons(c: LA.Controls)
      requires Valid()
      modifies device, Repr()
      ensures Valid()
      ensures World() == old(World()).(machine := LA.Injections(old(World()), device.answer, threads, c))
    {
      ghost var w := World();
      assert this !in Repr();
      VelocityButtons(c);
      if c.addDensity.Some? {
        AddDensity(c.addDensity.value);
      }
    }

    /** UpdateImGui: the sliders, the Size slider, the Add buttons and Reset, in the window's order. */
    method Widgets(c: LA.Controls)
      requires Valid()
      modifies this, device, Repr()
      ensures Valid()
      ensures World() == LA.Widgets(old(World()), device.answer, threads, c)
    {
      SetSettings(c);
      if c.resize.Some? {
        SetSize(c.resize.value);
        var _ := Recreate();
      }
      Buttons(c);
      if c.reset {
        var _ := Recreate();
      }
    }

    /** The `if (cooldown <= 0)` block: one step, then the cooldown restarts from the delay. */
    method Gated()
      requires Valid()
      modifies this, device, Repr()
      ensures Valid()
      ensures World() == LA.Gated(old(World()), device.answer, threads)
    {
      ghost var w := World();
      if cooldown <= 0 {
        assert Ctx() == LA.ContextOf(w, device.answer, threads);
        assert this !in Repr();
        Tick();
        assert size == w.size && iterations == w.iterations && delay == w.delay && cooldown == w.cooldown;
        assert dt == w.dt && diffusion == w.diffusion && viscosity == w.viscosity;
        SetCooldown(delay);
      }
    }

    /**
     * Update's acquisitions: a command buffer, then a swapchain texture when the first succeeded.
     * `proceed` says whether both succeeded and the window has an area.
     */
    method Acquire(visible: bool) returns (proceed: bool)
      requires Valid()
      modifies device
      ensures Valid()
      ensures proceed == (device.answer(old(device.calls)) && device.answer(old(device.calls) + 1) && visible)
      ensures World() == old(World()).(machine :=
        if device.answer(old(device.calls)) then Called(Called(old(Snapshot()))) else Called(old(Snapshot())))
    {
      ghost var m := Snapshot();
      var acquired := device.Call();
      if !acquired {
        SnapshotIs(Called(m));
        return false;
      }
      var swapchain := device.Call();
      SnapshotIs(Called(Called(m)));
      proceed := swapchain && visible;
    }

    /** Update: the acquisitions, then, when they succeeded, the widgets and the gated step. */
    method Update(c: LA.Controls, visible: bool)
      requires Valid()
      modifies this, device, Repr()
      ensures Valid()
      ensures World() == LA.Update(old(World()), device.answer, threads, c, visible)
    {
      ghost var w := World();
      var proceed := Acquire(visible);
      if !proceed {
        LA.UpdateAbandoned(w, device.answer, threads, c, visible);
        return;
      }
      Widgets(c);
      ghost var w1 := World();
      LA.UpdateProceeds(w, device.answer, threads, c, w1);
      Gated();
    }

    /** The main loop's bookkeeping before the events: `dt` is the elapsed time, `cooldown -= dt`. */
    method Advance(elapsed: nat)
      requires Valid()
      modifies this
      ensures Valid()
      ensures World() == LA.Advance(old(World()), elapsed)
    {
      dt := elapsed;
      cooldown := cooldown - elapsed;
    }

    /** The event loop: the R key recreates the cells, closing the window clears `running`. */
    method Events(events: seq<LA.Event>) returns (running: bool)
      requires Valid()
      modifies device, Repr()
      ensures Valid()
      ensures (World(), running) == LA.Events(old(World()), device.answer, threads, events, true)
    {
      ghost var w := World();
      running := true;
      var k := 0;
      while k < |events|
        invariant Valid() && k <= |events|
        invariant LA.Events(World(), device.answer, threads, events[k..], running) == LA.Events(w, device.answer, threads, events, true)
      {
        assert events[k..][1..] == events[k + 1..];
        match events[k] {
          case ResetKey =>
            var _ := Recreate();
          case Quit =>
            running := false;
          case Camera =>
        }
        k := k + 1;
      }
    }

    /** One iteration of the main loop; `going` is false when the window closed and Update was skipped. */
    method Iteration(elapsed: nat, events: seq<LA.Event>, c: LA.Controls, visible: bool) returns (going: bool)
      requires Valid()
      modifies this, device, Repr()
      ensures Valid()
      ensures (World(), going) == LA.Iteration(old(World()), device.answer, threads, elapsed, events, c, visible)
    {
      Advance(elapsed);
      var running := Events(events);
      if !running {
        return false;
      }
      Update(c, visible);
      going := true;
    }
  }
}
