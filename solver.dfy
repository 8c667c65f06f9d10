/**
 * The current solver's global state and its per-frame logic: the six `ReadWriteTexture`s, the
 * persistent `State`, `delay`, `cooldown` and `dt`, and the functions that record compute passes.
 * Every stage is proved to leave the fields and the device as its `Pipeline` function says.
 */
module Solver {
  import opened Wrappers
  import opened Gpu
  import opened DoubleBuffer
  import opened Passes
  import P = Pipeline
  import Tex = Texture
  import S = SimState
  import L = SpawnerList
  import App

  class Simulation {
    const device: Device
    const textures: seq<Tex.ReadWriteTexture>
    /** The workgroup edge `THREADS`, a build-time constant. */
    const threads: int
    var state: S.State
    var delay: S.int32
    var cooldown: int
    var dt: nat

    /** The six texture objects. */
    ghost function Repr(): set<object>
    {
      if |textures| != FieldCount then {}
      else
        {textures[0], textures[1], textures[2], textures[3], textures[4], textures[5]}
    }

    ghost predicate Valid()
    {
      && |textures| == FieldCount
      && threads >= 1
      && (forall i, j :: 0 <= i < FieldCount && 0 <= j < FieldCount && i != j ==>
            textures[i] != textures[j])
    }

    /**
     * The globals as the program starts: six default-constructed textures, the default `State`,
     * `delay` 16, and `cooldown` and `dt` zero.
     */
    constructor (device: Device, threads: int)
      requires threads >= 1
      ensures Valid() && fresh(Repr())
      ensures this.device == device && this.threads == threads
      ensures state == S.DefaultState && delay == 16 && cooldown == 0 && dt == 0
      ensures forall i :: 0 <= i < FieldCount ==> textures[i].Value() == Empty
      ensures Snapshot() == Machine([Empty, Empty, Empty, Empty, Empty, Empty], device.calls)
    {
      var t0 := new Tex.ReadWriteTexture();
      var t1 := new Tex.ReadWriteTexture();
      var t2 := new Tex.ReadWriteTexture();
      var t3 := new Tex.ReadWriteTexture();
      var t4 := new Tex.ReadWriteTexture();
      var t5 := new Tex.ReadWriteTexture();
      this.device := device;
      this.threads := threads;
      textures := [t0, t1, t2, t3, t4, t5];
      state := S.DefaultState;
      delay := 16;
      cooldown := 0;
      dt := 0;
      new;
      SnapshotIs(Machine([Empty, Empty, Empty, Empty, Empty, Empty], device.calls));
    }

    /** The six fields and the device's call count, as a value. */
    ghost function Snapshot(): (r: Machine)
      reads Repr(), device
      requires Valid()
      ensures r.calls == device.calls
    {
      Machine([textures[0].Value(), textures[1].Value(), textures[2].Value(),
               textures[3].Value(), textures[4].Value(), textures[5].Value()], device.calls)
    }

    /** The snapshot is determined by the six textures and the device's call count. */
    lemma SnapshotIs(m: Machine)
      requires Valid()
      requires textures[0].Value() == m.fields[0] && textures[1].Value() == m.fields[1]
      requires textures[2].Value() == m.fields[2] && textures[3].Value() == m.fields[3]
      requires textures[4].Value() == m.fields[4] && textures[5].Value() == m.fields[5]
      requires device.calls == m.calls
      ensures Snapshot() == m
    {
      assert Snapshot().fields == m.fields;
    }

    /** What the stages depend on besides the fields. */
    ghost function Ctx(): Context
      reads this
      requires threads >= 1
    {
      Context(device.answer, threads, state.size, dt)
    }

    /** `(state.size + THREADS - 1) / THREADS`. */
    function Groups3(): (groups: Groups)
      reads this
      requires threads >= 1
      ensures groups == Whole(Ctx())
    {
      var g := GroupCount(state.size, threads);
      Groups(g, g, g)
    }

    method Add1(texture: S.Texture, position: S.Position, value: Float)
      requires Valid()
      modifies device, Repr()
      ensures Valid()
      ensures Ctx() == old(Ctx())
      ensures Snapshot() == P.Add1(old(Snapshot()), Ctx(), texture.Index(),
                                   position.x, position.y, position.z, value)
    {
      ghost var m := Snapshot();
      var i := texture.Index();
      var pass := textures[i].BeginReadPass(device);
      SnapshotIs(Called(m));
      if pass.Some? {
        var target := textures[i].GetReadTexture();
        StoreField(i, pass.value.slot, Out(Kernel.Add1, 0, [Cells(target)], [],
          [UPosition(position.x, position.y, position.z), UFloat(value)], Groups(1, 1, 1)));
      }
    }

    method Add2(texture: S.Texture, value: Float)
      requires Valid()
      modifies device, Repr()
      ensures Valid()
      ensures Ctx() == old(Ctx())
      ensures Snapshot() == P.Add2(old(Snapshot()), Ctx(), texture.Index(), value)
    {
      ghost var m := Snapshot();
      var i := texture.Index();
      var pass := textures[i].BeginReadPass(device);
      SnapshotIs(Called(m));
      if pass.Some? {
        var target := textures[i].GetReadTexture();
        var groups := Groups3();
        StoreField(i, pass.value.slot, Out(Kernel.Add2, 0, [Cells(target)], [], [UFloat(value)], groups));
      }
    }

    /**
     * Clear with value 0: a write pass recorded into the command buffer. The recorded dispatch is
     * returned, and the GPU runs it when the buffer is submitted.
     */
    method Clear(i: nat) returns (recorded: seq<P.ClearCommand>)
      requires Valid() && i < FieldCount
      modifies device
      ensures Valid()
      ensures Ctx() == old(Ctx())
      ensures (Snapshot(), recorded) == P.Clear(old(Snapshot()), Ctx(), i)
    {
      ghost var m := Snapshot();
      var pass := textures[i].BeginWritePass(device);
      recorded := if pass.Some? then [P.ClearCommand(i, pass.value.slot)] else [];
      SnapshotIs(Called(m));
    }

    method Diffuse(i: nat, coefficient: Float)
      requires Valid() && i < FieldCount
      modifies device, Repr()
      ensures Valid()
      ensures Ctx() == old(Ctx())
      ensures Snapshot() == P.Diffuse(old(Snapshot()), Ctx(), i, coefficient)
    {
      ghost var m := Snapshot();
      var pass := textures[i].BeginWritePass(device);
      SnapshotIs(Called(m));
      if pass.Some? {
        var target := textures[i].GetWriteTexture();
        var sample := textures[i].GetReadTexture();
        var groups := Groups3();
        StoreField(i, pass.value.slot, Out(Kernel.Diffuse, 0, [Cells(target)], [Cells(sample)],
          [UDt(dt), UFloat(coefficient)], groups));
        SwapTexture(i);
      }
    }

    /** `textures[i].Store(slot, g)`: a dispatched kernel's output lands in one side of field `i`. */
    method StoreField(i: nat, slot: nat, g: Grid)
      requires Valid() && i < FieldCount && slot < 2
      modifies textures[i]
      ensures Valid()
      ensures Ctx() == old(Ctx())
      ensures Snapshot() == old(Snapshot()).(fields := old(Snapshot()).fields[i := StoreAt(old(Snapshot()).fields[i], slot, g)])
    {
      ghost var m := Snapshot();
      ghost var r := m.(fields := m.fields[i := StoreAt(m.fields[i], slot, g)]);
      textures[i].Store(slot, g);
      SnapshotIs(r);
    }

    /**
     * Target `i` of a multi-target pass: its output stored into field `i`'s write side, then field
     * `i` swapped. The pass stores every target before swapping any; as each target is a different
     * field and the outputs are computed from the bindings made before, the order does not matter.
     */
    method WriteAndSwap(i: nat, g: Grid)
      requires Valid() && i < FieldCount
      modifies textures[i]
      ensures Valid()
      ensures Ctx() == old(Ctx())
      ensures Snapshot() == old(Snapshot()).(fields := old(Snapshot()).fields[i := Swap(StoreWrite(old(Snapshot()).fields[i], g))])
    {
      StoreField(i, WriteSlot(textures[i].Value()), g);
      SwapTexture(i);
    }

    /** Project1: begins its pass directly, binding the pressure and divergence write sides. */
    method Project1()
      requires Valid()
      modifies device, Repr()
      ensures Valid()
      ensures Ctx() == old(Ctx())
      ensures Snapshot() == P.Project1(old(Snapshot()), Ctx())
    {
      ghost var m := Snapshot();
      ghost var ctx := Ctx();
      var pressure := textures[Pressure].GetWriteTexture();
      var divergence := textures[Divergence].GetWriteTexture();
      var begun := device.Call();
      SnapshotIs(Called(m));
      if begun {
        var x := textures[VelocityX].GetReadTexture();
        var y := textures[VelocityY].GetReadTexture();
        var z := textures[VelocityZ].GetReadTexture();
        var groups := Groups3();
        var targets := [Cells(pressure), Cells(divergence)];
        var samples := [Cells(x), Cells(y), Cells(z)];
        assert samples == Velocity(m);
        WriteAndSwap(Pressure, Out(Kernel.Project1, 0, targets, samples, [], groups));
        WriteAndSwap(Divergence, Out(Kernel.Project1, 1, targets, samples, [], groups));
      }
    }

    method Project2()
      requires Valid()
      modifies device, Repr()
      ensures Valid()
      ensures Ctx() == old(Ctx())
      ensures Snapshot() == P.Project2(old(Snapshot()), Ctx())
    {
      ghost var m := Snapshot();
      var pass := textures[Pressure].BeginWritePass(device);
      SnapshotIs(Called(m));
      if pass.Some? {
        var target := textures[Pressure].GetWriteTexture();
        var sample := textures[Divergence].GetReadTexture();
        var groups := Groups3();
        StoreField(Pressure, pass.value.slot, Out(Kernel.Project2, 0, [Cells(target)], [Cells(sample)], [], groups));
        SwapTexture(Pressure);
      }
    }

    /** Project3: begins its pass directly, binding the three velocity write sides. */
    method Project3()
      requires Valid()
      modifies device, Repr()
      ensures Valid()
      ensures Ctx() == old(Ctx())
      ensures Snapshot() == P.Project3(old(Snapshot()), Ctx())
    {
      ghost var m := Snapshot();
      ghost var ctx := Ctx();
      var wx := textures[VelocityX].GetWriteTexture();
      var wy := textures[VelocityY].GetWriteTexture();
      var wz := textures[VelocityZ].GetWriteTexture();
      var begun := device.Call();
      SnapshotIs(Called(m));
      if begun {
        var pressure := textures[Pressure].GetReadTexture();
        var x := textures[VelocityX].GetReadTexture();
        var y := textures[VelocityY].GetReadTexture();
        var z := textures[VelocityZ].GetReadTexture();
        var groups := Groups3();
        var targets := [Cells(wx), Cells(wy), Cells(wz)];
        var samples := [Cells(pressure), Cells(x), Cells(y), Cells(z)];
        assert samples == AndVelocity(m, Pressure);
        WriteAndSwap(VelocityX, Out(Kernel.Project3, 0, targets, samples, [], groups));
        WriteAndSwap(VelocityY, Out(Kernel.Project3, 1, targets, samples, [], groups));
        WriteAndSwap(VelocityZ, Out(Kernel.Project3, 2, targets, samples, [], groups));
      }
    }

    /** Advect1 on velocity component `axis` (the source asserts it is one of the three). */
    method Advect1(axis: nat)
      requires Valid() && axis < 3
      modifies device, Repr()
      ensures Valid()
      ensures Ctx() == old(Ctx())
      ensures Snapshot() == P.Advect1(old(Snapshot()), Ctx(), axis)
    {
      ghost var m := Snapshot();
      var pass := textures[axis].BeginWritePass(device);
      SnapshotIs(Called(m));
      if pass.Some? {
        var target := textures[axis].GetWriteTexture();
        var x := textures[VelocityX].GetReadTexture();
        var y := textures[VelocityY].GetReadTexture();
        var z := textures[VelocityZ].GetReadTexture();
        var groups := Groups3();
        StoreField(axis, pass.value.slot, Out(Kernel.Advect1, 0, [Cells(target)],
          [Cells(x), Cells(y), Cells(z)], [UInt(axis), UDt(dt)], groups));
      }
    }

    method Advect2()
      requires Valid()
      modifies device, Repr()
      ensures Valid()
      ensures Ctx() == old(Ctx())
      ensures Snapshot() == P.Advect2(old(Snapshot()), Ctx())
    {
      ghost var m := Snapshot();
      var pass := textures[Density].BeginWritePass(device);
      SnapshotIs(Called(m));
      if pass.Some? {
        var target := textures[Density].GetWriteTexture();
        var density := textures[Density].GetReadTexture();
        var x := textures[VelocityX].GetReadTexture();
        var y := textures[VelocityY].GetReadTexture();
        var z := textures[VelocityZ].GetReadTexture();
        var groups := Groups3();
        StoreField(Density, pass.value.slot, Out(Kernel.Advect2, 0, [Cells(target)],
          [Cells(density), Cells(x), Cells(y), Cells(z)], [UDt(dt)], groups));
        SwapTexture(Density);
      }
    }

    method Bnd1(i: nat, kind: int)
      requires Valid() && i < FieldCount
      modifies device, Repr()
      ensures Valid()
      ensures Ctx() == old(Ctx())
      ensures Snapshot() == P.Bnd1(old(Snapshot()), Ctx(), i, kind)
    {
      ghost var m := Snapshot();
      var pass := textures[i].BeginWritePass(device);
      SnapshotIs(Called(m));
      if pass.Some? {
        var target := textures[i].GetWriteTexture();
        var sample := textures[i].GetReadTexture();
        var g := GroupCount(state.size, threads);
        StoreField(i, pass.value.slot, Out(Kernel.Bnd1, 0, [Cells(target)], [Cells(sample)], [UInt(kind)], Groups(g, g, 2)));
      }
    }

    method Bnd2(i: nat, kind: int)
      requires Valid() && i < FieldCount
      modifies device, Repr()
      ensures Valid()
      ensures Ctx() == old(Ctx())
      ensures Snapshot() == P.Bnd2(old(Snapshot()), Ctx(), i, kind)
    {
      ghost var m := Snapshot();
      var pass := textures[i].BeginWritePass(device);
      SnapshotIs(Called(m));
      if pass.Some? {
        var target := textures[i].GetWriteTexture();
        var sample := textures[i].GetReadTexture();
        var g := GroupCount(state.size, threads);
        StoreField(i, pass.value.slot, Out(Kernel.Bnd2, 0, [Cells(target)], [Cells(sample)], [UInt(kind)], Groups(g, 2, g)));
      }
    }

    method Bnd3(i: nat, kind: int)
      requires Valid() && i < FieldCount
      modifies device, Repr()
      ensures Valid()
      ensures Ctx() == old(Ctx())
      ensures Snapshot() == P.Bnd3(old(Snapshot()), Ctx(), i, kind)
    {
      ghost var m := Snapshot();
      var pass := textures[i].BeginWritePass(device);
      SnapshotIs(Called(m));
      if pass.Some? {
        var target := textures[i].GetWriteTexture();
        var sample := textures[i].GetReadTexture();
        var g := GroupCount(state.size, threads);
        StoreField(i, pass.value.slot, Out(Kernel.Bnd3, 0, [Cells(target)], [Cells(sample)], [UInt(kind)], Groups(2, g, g)));
      }
    }

    method Bnd4(i: nat)
      requires Valid() && i < FieldCount
      modifies device, Repr()
      ensures Valid()
      ensures Ctx() == old(Ctx())
      ensures Snapshot() == P.Bnd4(old(Snapshot()), Ctx(), i)
    {
      ghost var m := Snapshot();
      var pass := textures[i].BeginWritePass(device);
      SnapshotIs(Called(m));
      if pass.Some? {
        var target := textures[i].GetWriteTexture();
        var sample := textures[i].GetReadTexture();
        StoreField(i, pass.value.slot, Out(Kernel.Bnd4, 0, [Cells(target)], [Cells(sample)], [], Groups(1, 1, 1)));
      }
    }

    method Bnd5(i: nat)
      requires Valid() && i < FieldCount
      modifies device, Repr()
      ensures Valid()
      ensures Ctx() == old(Ctx())
      ensures Snapshot() == P.Bnd5(old(Snapshot()), Ctx(), i)
    {
      ghost var m := Snapshot();
      var pass := textures[i].BeginWritePass(device);
      SnapshotIs(Called(m));
      if pass.Some? {
        var target := textures[i].GetWriteTexture();
        var sample := textures[i].GetReadTexture();
        var groups := Groups3();
        StoreField(i, pass.value.slot, Out(Kernel.Bnd5, 0, [Cells(target)], [Cells(sample)], [], groups));
      }
    }

    /** The five boundary passes over field `i`: faces, edges, then corners. */
    method BoundaryPasses(i: nat, kind: int)
      requires Valid() && i < FieldCount
      modifies device, Repr()
      ensures Valid()
      ensures Ctx() == old(Ctx())
      ensures Snapshot() == P.BoundaryPasses(old(Snapshot()), Ctx(), i, kind)
    {
      ghost var m := Snapshot();
      ghost var ctx := Ctx();
      Bnd1(i, kind);
      ghost var m1 := Snapshot();
      Bnd2(i, kind);
      ghost var m2 := Snapshot();
      Bnd3(i, kind);
      ghost var m3 := Snapshot();
      Bnd4(i);
      ghost var m4 := Snapshot();
      Bnd5(i);
      assert m1 == P.Bnd1(m, ctx, i, kind);
      assert m2 == P.Bnd2(m1, ctx, i, kind);
      assert m3 == P.Bnd3(m2, ctx, i, kind);
      assert m4 == P.Bnd4(m3, ctx, i);
    }

    /** The five boundary passes over field `i`, then its swap, which happens whatever they did. */
    method Bnd(i: nat, kind: int)
      requires Valid() && i < FieldCount
      modifies device, Repr()
      ensures Valid()
      ensures Ctx() == old(Ctx())
      ensures Snapshot() == P.Bnd(old(Snapshot()), Ctx(), i, kind)
    {
      BoundaryPasses(i, kind);
      SwapTexture(i);
    }

    /** `textures[i].Swap()`. */
    method SwapTexture(i: nat)
      requires Valid() && i < FieldCount
      modifies textures[i]
      ensures Valid()
      ensures Ctx() == old(Ctx())
      ensures Snapshot() == SwapField(old(Snapshot()), i)
    {
      ghost var r := SwapField(Snapshot(), i);
      textures[i].Swap();
      SnapshotIs(r);
    }

    /* ---- CreateCells ---- */

    /**
     * One iteration of CreateCells' loop: create field `i`'s textures and, when both exist, record
     * a Clear of the write side, swap, and record a Clear of the new write side.
     */
    method CreateField(i: nat) returns (commands: seq<P.ClearCommand>, ok: bool)
      requires Valid() && i < FieldCount
      modifies device, Repr()
      ensures Valid()
      ensures Ctx() == old(Ctx())
      ensures (Snapshot(), commands, ok) == P.CreateField(old(Snapshot()), Ctx(), i)
    {
      ghost var m := Snapshot();
      ghost var ctx := Ctx();
      ok := textures[i].Create(device, state.size);
      ghost var created := Machine(m.fields[i := Created(m.fields[i], ctx.size, ctx.answer(m.calls), ctx.answer(m.calls + 1))],
                                   m.calls + CreateAttempts(ctx.answer(m.calls)));
      assert textures[i].Value() == created.fields[i];
      SnapshotIs(created);
      if !ok {
        commands := [];
        return;
      }
      var first := Clear(i);
      SwapTexture(i);
      var second := Clear(i);
      commands := first + second;
    }

    /** The GPU running one recorded Clear: the named slot of the named field fills with 0. */
    method RunClear(c: P.ClearCommand)
      requires Valid()
      modifies Repr()
      ensures Valid()
      ensures Ctx() == old(Ctx())
      ensures Snapshot() == P.Execute(old(Snapshot()), [c])
    {
      ghost var m := Snapshot();
      ghost var r := m.(fields := m.fields[c.field := StoreAt(m.fields[c.field], c.slot, Filled(Zero))]);
      assert P.Execute(m, [c]) == P.Execute(r, []);
      textures[c.field].Store(c.slot, Filled(Zero));
      assert textures[c.field].Value() == r.fields[c.field];
      SnapshotIs(r);
    }

    /** Submitting the command buffer: the recorded clears run in the order they were recorded. */
    method Submit(commands: seq<P.ClearCommand>)
      requires Valid()
      modifies Repr()
      ensures Valid()
      ensures Ctx() == old(Ctx())
      ensures Snapshot() == P.Execute(old(Snapshot()), commands)
    {
      ghost var m := Snapshot();
      var k := 0;
      while k < |commands|
        invariant Valid() && k <= |commands|
        invariant P.Execute(Snapshot(), commands[k..]) == P.Execute(m, commands)
      {
        ghost var before := Snapshot();
        RunClear(commands[k]);
        assert P.Execute(before, commands[k..]) == P.Execute(Snapshot(), commands[k + 1..]) by {
          assert commands[k..][1..] == commands[k + 1..];
        }
        k := k + 1;
      }
    }

    /**
     * Acquires a command buffer, creates and clears the six fields, and submits the clears; it
     * gives up at the first field whose textures cannot be created, without submitting.
     */
    method CreateCells() returns (ok: bool)
      requires Valid()
      modifies device, Repr()
      ensures Valid()
      ensures Ctx() == old(Ctx())
      ensures (Snapshot(), ok) == P.CreateCells(old(Snapshot()), Ctx())
    {
      ghost var m := Snapshot();
      var acquired := device.Call();
      SnapshotIs(Called(m));
      if !acquired {
        return false;
      }
      var pending: seq<P.ClearCommand> := [];
      var i := 0;
      while i < FieldCount
        invariant Valid() && i <= FieldCount
        invariant P.CreateFrom(Snapshot(), Ctx(), i, pending) == P.CreateCells(m, Ctx())
      {
        var commands, created := CreateField(i);
        if !created {
          return false;
        }
        pending := pending + commands;
        i := i + 1;
      }
      Submit(pending);
      ok := true;
    }

    /** `textures[i].Free(device)`. */
    method FreeField(i: nat)
      requires Valid() && i < FieldCount
      modifies textures[i]
      ensures Valid()
      ensures Snapshot() == old(Snapshot()).(fields := old(Snapshot()).fields[i := Freed(old(Snapshot()).fields[i])])
    {
      ghost var m := Snapshot();
      ghost var r := m.(fields := m.fields[i := Freed(m.fields[i])]);
      textures[i].Free();
      SnapshotIs(r);
    }

    /** The textures released as the program exits: every field holds no texture and keeps its read index. */
    method FreeAll()
      requires Valid()
      modifies Repr()
      ensures Valid()
      ensures Snapshot().calls == old(Snapshot()).calls
      ensures forall j :: 0 <= j < FieldCount ==> Snapshot().fields[j] == Freed(old(Snapshot()).fields[j])
    {
      ghost var m := Snapshot();
      for i := 0 to FieldCount
        invariant Valid() && Snapshot().calls == m.calls
        invariant forall j :: 0 <= j < i ==> Snapshot().fields[j] == Freed(m.fields[j])
        invariant forall j :: i <= j < FieldCount ==> Snapshot().fields[j] == m.fields[j]
      {
        FreeField(i);
      }
    }

    /* ---- the tick ---- */

    method BoundVelocity()
      requires Valid()
      modifies device, Repr()
      ensures Valid()
      ensures Ctx() == old(Ctx())
      ensures Snapshot() == P.BoundVelocity(old(Snapshot()), Ctx())
    {
      ghost var m := Snapshot();
      Bnd(VelocityX, 1);
      ghost var m1 := Snapshot();
      Bnd(VelocityY, 2);
      ghost var m2 := Snapshot();
      Bnd(VelocityZ, 3);
      assert m1 == P.Bnd(m, Ctx(), VelocityX, 1);
      assert m2 == P.Bnd(m1, Ctx(), VelocityY, 2);
    }

    /** One iteration of the velocity diffusion loop. */
    method VelocityStep(viscosity: Float)
      requires Valid()
      modifies device, Repr()
      ensures Valid()
      ensures Ctx() == old(Ctx())
      ensures Snapshot() == P.VelocityStep(old(Snapshot()), Ctx(), viscosity)
    {
      Diffuse(VelocityX, viscosity);
      Diffuse(VelocityY, viscosity);
      Diffuse(VelocityZ, viscosity);
      BoundVelocity();
    }

    /** One iteration of the pressure loop. */
    method PressureStep()
      requires Valid()
      modifies device, Repr()
      ensures Valid()
      ensures Ctx() == old(Ctx())
      ensures Snapshot() == P.PressureStep(old(Snapshot()), Ctx())
    {
      Project2();
      Bnd(Pressure, 0);
    }

    method ComputeDivergence()
      requires Valid()
      modifies device, Repr()
      ensures Valid()
      ensures Ctx() == old(Ctx())
      ensures Snapshot() == P.ComputeDivergence(old(Snapshot()), Ctx())
    {
      Project1();
      Bnd(Divergence, 0);
      Bnd(Pressure, 0);
    }

    method SubtractGradient()
      requires Valid()
      modifies device, Repr()
      ensures Valid()
      ensures Ctx() == old(Ctx())
      ensures Snapshot() == P.SubtractGradient(old(Snapshot()), Ctx())
    {
      Project3();
      BoundVelocity();
    }

    /** The three Advect1 dispatches, and only then the three velocity swaps. */
    method Advection()
      requires Valid()
      modifies device, Repr()
      ensures Valid()
      ensures Ctx() == old(Ctx())
      ensures Snapshot() == P.Advection(old(Snapshot()), Ctx())
    {
      Advect1(VelocityX);
      Advect1(VelocityY);
      Advect1(VelocityZ);
      SwapTexture(VelocityX);
      SwapTexture(VelocityY);
      SwapTexture(VelocityZ);
    }

    method VelocityAdvection()
      requires Valid()
      modifies device, Repr()
      ensures Valid()
      ensures Ctx() == old(Ctx())
      ensures Snapshot() == P.VelocityAdvection(old(Snapshot()), Ctx())
    {
      Advection();
      BoundVelocity();
    }

    method FinalProjection()
      requires Valid()
      modifies device, Repr()
      ensures Valid()
      ensures Ctx() == old(Ctx())
      ensures Snapshot() == P.FinalProjection(old(Snapshot()), Ctx())
    {
      Project1();
      Project2();
      Project3();
    }

    method DensityStep(diffusion: Float)
      requires Valid()
      modifies device, Repr()
      ensures Valid()
      ensures Ctx() == old(Ctx())
      ensures Snapshot() == P.DensityStep(old(Snapshot()), Ctx(), diffusion)
    {
      Diffuse(Density, diffusion);
      Advect2();
      Bnd(Density, 0);
    }

    /** The velocity diffusion loop, run `n` times. */
    method VelocityDiffusion(n: nat, viscosity: Float)
      requires Valid()
      modifies device, Repr()
      ensures Valid()
      ensures Ctx() == old(Ctx())
      ensures Snapshot() == P.VelocityDiffusion(old(Snapshot()), Ctx(), viscosity, n)
    {
      ghost var m := Snapshot();
      ghost var ctx := Ctx();
      var i := 0;
      while i < n
        invariant Valid() && Ctx() == ctx && 0 <= i <= n
        invariant Snapshot() == P.VelocityDiffusion(m, ctx, viscosity, i)
      {
        VelocityStep(viscosity);
        i := i + 1;
      }
    }

    /** The pressure loop, run `n` times. */
    method PressureSolve(n: nat)
      requires Valid()
      modifies device, Repr()
      ensures Valid()
      ensures Ctx() == old(Ctx())
      ensures Snapshot() == P.PressureSolve(old(Snapshot()), Ctx(), n)
    {
      ghost var m := Snapshot();
      ghost var ctx := Ctx();
      var i := 0;
      while i < n
        invariant Valid() && Ctx() == ctx && 0 <= i <= n
        invariant Snapshot() == P.PressureSolve(m, ctx, i)
      {
        PressureStep();
        i := i + 1;
      }
    }

    method Projection(n: nat)
      requires Valid()
      modifies device, Repr()
      ensures Valid()
      ensures Ctx() == old(Ctx())
      ensures Snapshot() == P.Projection(old(Snapshot()), Ctx(), n)
    {
      ghost var m := Snapshot();
      ComputeDivergence();
      ghost var m1 := Snapshot();
      PressureSolve(n);
      ghost var m2 := Snapshot();
      SubtractGradient();
      assert m1 == P.ComputeDivergence(m, Ctx());
      assert m2 == P.PressureSolve(m1, Ctx(), n);
    }

    /** The velocity diffusion and the projection that follows it. */
    method DiffuseAndProject(n: nat, viscosity: Float)
      requires Valid()
      modifies device, Repr()
      ensures Valid()
      ensures Ctx() == old(Ctx())
      ensures Snapshot() == P.Projection(P.VelocityDiffusion(old(Snapshot()), Ctx(), viscosity, n), Ctx(), n)
    {
      ghost var m := Snapshot();
      VelocityDiffusion(n, viscosity);
      ghost var m1 := Snapshot();
      Projection(n);
      assert m1 == P.VelocityDiffusion(m, Ctx(), viscosity, n);
    }

    /** The velocity advection, the final projection and the density step. */
    method AdvectAndCarry(diffusion: Float)
      requires Valid()
      modifies device, Repr()
      ensures Valid()
      ensures Ctx() == old(Ctx())
      ensures Snapshot() == P.DensityStep(P.FinalProjection(P.VelocityAdvection(old(Snapshot()), Ctx()), Ctx()), Ctx(), diffusion)
    {
      ghost var m := Snapshot();
      VelocityAdvection();
      ghost var m1 := Snapshot();
      FinalProjection();
      ghost var m2 := Snapshot();
      DensityStep(diffusion);
      assert m1 == P.VelocityAdvection(m, Ctx());
      assert m2 == P.FinalProjection(m1, Ctx());
    }

    /**
     * The body of `if (cooldown <= 0)` before `cooldown = delay`: one simulation step. Both loops
     * of the source run `state.iterations` times when that is positive and not at all otherwise,
     * which is `Loops(state.iterations)` times.
     */
    method Tick()
      requires Valid()
      modifies device, Repr()
      ensures Valid()
      ensures Ctx() == old(Ctx())
      ensures Snapshot() == P.Tick(old(Snapshot()), old(Ctx()), old(state.iterations), old(state.viscosity), old(state.diffusion))
    {
      ghost var m := Snapshot();
      ghost var ctx := Ctx();
      var n := P.Loops(state.iterations);
      var viscosity := state.viscosity;
      var diffusion := state.diffusion;
      P.TickStages(m, ctx, state.iterations, viscosity, diffusion, n);
      DiffuseAndProject(n, viscosity);
      ghost var m1 := Snapshot();
      AdvectAndCarry(diffusion);
      assert m1 == P.Projection(P.VelocityDiffusion(m, ctx, viscosity, n), ctx, n);
    }

    /* ---- the frame: UpdateImGui, UpdateSpawners, Update, the main loop and the callbacks ---- */

    /** The globals one frame reads and writes, as a value. */
    ghost function World(): App.World
      reads this, Repr(), device
      requires Valid()
    {
      App.World(Snapshot(), state, delay, cooldown, dt)
    }

    /** `state = s` and `delay = d`: nothing else changes. */
    method SetState(s: S.State, d: S.int32)
      requires Valid()
      modifies this
      ensures Valid()
      ensures state == s && delay == d && cooldown == old(cooldown) && dt == old(dt) && Snapshot() == old(Snapshot())
    {
      state := s;
      delay := d;
    }

    /** CreateCells as a step of the window's logic: only the fields and the device change. */
    method Recreate()
      requires Valid()
      modifies device, Repr()
      ensures Valid()
      ensures World() == old(World()).(machine := P.CreateCells(old(Snapshot()), old(Ctx())).0)
    {
      ghost var w := World();
      assert this !in Repr();
      var _ := CreateCells();
      assert state == w.state && delay == w.delay && cooldown == w.cooldown && dt == w.dt;
    }

    /** Reset, then the Delay, Iterations, Diffusion, Viscosity and Size widgets. */
    method Settings(c: App.Controls)
      requires Valid()
      modifies this, device, Repr()
      ensures Valid()
      ensures World() == App.Settings(old(World()), device.answer, threads, c)
    {
      ghost var w := World();
      if c.reset {
        Recreate();
      }
      SetState(state.(iterations := c.iterations, diffusion := c.diffusion, viscosity := c.viscosity), c.delay);
      if c.resize.Some? {
        SetState(state.(size := c.resize.value), delay);
        Recreate();
      }
    }

    /**
     * The spawner table of UpdateSpawners: every spawner takes its row's edits and is injected with
     * Add1, in order, while the indices whose Remove was pressed are collected in ascending order.
     * The edited list is returned, to be stored once the removals are done.
     */
    method DrawSpawners(rows: seq<App.Row>) returns (spawners: seq<S.Spawner>, removes: seq<int>)
      requires Valid()
      modifies device, Repr()
      ensures Valid()
      ensures Ctx() == old(Ctx())
      ensures spawners == App.EditAll(old(state.spawners), rows)
      ensures Snapshot() == App.Injections(old(Snapshot()), old(Ctx()), spawners)
      ensures removes == App.Pressed(rows, |spawners|)
    {
      ghost var m := Snapshot();
      ghost var ctx := Ctx();
      var table := state.spawners;
      ghost var edited := App.EditAll(table, rows);
      spawners := [];
      removes := [];
      var i := 0;
      while i < |table|
        invariant Valid() && Ctx() == ctx
        invariant 0 <= i <= |table| == |edited|
        invariant spawners == edited[..i]
        invariant Snapshot() == App.Injections(m, ctx, spawners)
        invariant removes == App.Pressed(rows, i)
      {
        assert App.Pressed(rows, i + 1) == removes + if i < |rows| && rows[i].remove then [i] else [];
        if i < |rows| && rows[i].remove {
          removes := removes + [i];
        }
        var spawner := DrawRow(table[i], i, rows);
        assert spawner == edited[i] && edited[..i + 1] == edited[..i] + [edited[i]];
        App.InjectionsAppend(m, ctx, spawners, spawner);
        spawners := spawners + [spawner];
        i := i + 1;
      }
      assert edited[..|table|] == edited;
    }

    /**
     * One row of the table: the spawner takes the row's position, value and texture choice (a
     * spawner past the last row keeps its own) and is injected with Add1.
     */
    method DrawRow(spawner: S.Spawner, i: nat, rows: seq<App.Row>) returns (edited: S.Spawner)
      requires Valid()
      modifies device, Repr()
      ensures Valid()
      ensures Ctx() == old(Ctx())
      ensures edited == if i < |rows| then App.Edited(spawner, rows[i]) else spawner
      ensures Snapshot() == P.Add1(old(Snapshot()), Ctx(), edited.texture.Index(),
                                   edited.position.x, edited.position.y, edited.position.z, edited.value)
    {
      edited := spawner;
      if i < |rows| {
        edited := App.Edited(edited, rows[i]);
      }
      Add1(edited.texture, edited.position, edited.value);
    }

    /** UpdateSpawners: the table, then the removals from the back, then the Add button. */
    method UpdateSpawners(rows: seq<App.Row>, add: bool)
      requires Valid()
      modifies this, device, Repr()
      ensures Valid()
      ensures Ctx() == old(Ctx())
      ensures World() == App.UpdateSpawners(old(World()), device.answer, threads, rows, add)
    {
      ghost var w := World();
      assert this !in Repr();
      var spawners, removes := DrawSpawners(rows);
      App.PressedAscending(rows, |spawners|);
      App.PressedMarks(rows, |spawners|);
      assert state == w.state && delay == w.delay && cooldown == w.cooldown && dt == w.dt;
      ghost var injected := Snapshot();
      assert injected == App.Injections(w.machine, App.ContextOf(w, device.answer, threads), spawners);
      var kept := L.EraseInReverse(spawners, removes);
      SetSpawners(kept);
      if add {
        SetSpawners(state.spawners + [S.NewSpawner(state.size)]);
      }
      assert state == w.state.(spawners := App.Spawners(w.state.spawners, rows, add, w.state.size));
      assert World() == w.(machine := injected, state := state);
    }

    /** `spawners = value`: nothing else changes. */
    method SetSpawners(value: seq<S.Spawner>)
      requires Valid()
      modifies this
      ensures Valid()
      ensures Ctx() == old(Ctx())
      ensures state == old(state).(spawners := value)
      ensures delay == old(delay) && cooldown == old(cooldown) && dt == old(dt) && Snapshot() == old(Snapshot())
    {
      state := state.(spawners := value);
    }

    /** `cooldown = value`: nothing else changes. */
    method SetCooldown(value: int)
      requires Valid()
      modifies this
      ensures Valid() && cooldown == value
      ensures state == old(state) && delay == old(delay) && dt == old(dt) && Snapshot() == old(Snapshot())
    {
      cooldown := value;
    }

    /** The `if (cooldown <= 0)` block: one step, then the cooldown restarts from the delay. */
    method Gated()
      requires Valid()
      modifies this, device, Repr()
      ensures Valid()
      ensures World() == App.Gated(old(World()), device.answer, threads)
    {
      ghost var w := World();
      if cooldown <= 0 {
        assert Ctx() == App.ContextOf(w, device.answer, threads);
        assert this !in Repr();
        Tick();
        assert state == w.state && delay == w.delay && dt == w.dt;
        SetCooldown(delay);
      }
    }

    /**
     * Update: acquire a command buffer and a swapchain texture, giving up when either fails or the
     * window has no area; then the window's widgets, the spawners and the gated step.
     */
    method Update(c: App.Controls, visible: bool)
      requires Valid()
      modifies this, device, Repr()
      ensures Valid()
      ensures World() == App.Update(old(World()), device.answer, threads, c, visible)
    {
      ghost var w := World();
      ghost var m := Snapshot();
      var acquired := device.Call();
      if !acquired {
        SnapshotIs(Called(m));
        App.UpdateAbandoned(w, device.answer, threads, c, visible);
        assert World() == w.(machine := Called(m));
        return;
      }
      var swapchain := device.Call();
      SnapshotIs(Called(Called(m)));
      assert World() == w.(machine := Called(Called(m)));
      if !swapchain || !visible {
        App.UpdateAbandoned(w, device.answer, threads, c, visible);
        return;
      }
      ghost var w0 := World();
      ghost var w1, w2 := Frame(c);
      App.UpdateProceeds(w, device.answer, threads, c, w0, w1, w2);
    }

    /**
     * The frame past both acquisitions: the widgets, the spawner table and the gated step. The
     * ghost results are the world after the first two.
     */
    method Frame(c: App.Controls) returns (ghost w1: App.World, ghost w2: App.World)
      requires Valid()
      modifies this, device, Repr()
      ensures Valid()
      ensures w1 == App.Settings(old(World()), device.answer, threads, c)
      ensures w2 == App.UpdateSpawners(w1, device.answer, threads, c.rows, c.add)
      ensures World() == App.Gated(w2, device.answer, threads)
    {
      Settings(c);
      w1 := World();
      UpdateSpawners(c.rows, c.add);
      w2 := World();
      Gated();
    }

    /** The main loop's bookkeeping before each Update: `dt` is the elapsed time, `cooldown -= dt`. */
    method Advance(elapsed: nat)
      requires Valid()
      modifies this
      ensures Valid()
      ensures World() == App.Advance(old(World()), elapsed)
    {
      dt := elapsed;
      cooldown := cooldown - elapsed;
    }

    /**
     * LoadCallback on what the open dialog led to. A conversion error escapes the callback and is
     * returned here, with nothing assigned.
     */
    method LoadCallback(file: App.Opened) returns (escaped: Option<S.JsonError>)
      requires Valid()
      modifies this, device, Repr()
      ensures Valid()
      ensures (World(), escaped) == App.Load(old(World()), device.answer, threads, file)
    {
      if !file.Parsed? {
        return None;
      }
      var converted := S.StateFromJson(file.json);
      if converted.Err? {
        return Some(converted.error);
      }
      SetState(converted.value, delay);
      Recreate();
      escaped := None;
    }

    /** SaveCallback on what the save dialog led to: the JSON written, if any. */
    method SaveCallback(file: App.Saved) returns (written: Option<S.Json>)
      requires Valid()
      ensures written == App.Save(World(), file)
      ensures written.Some? ==> S.StateFromJson(written.value) == Ok(state)
    {
      if file != App.Written {
        return None;
      }
      written := Some(S.StateToJson(state));
      S.StateRoundTrip(state);
    }

    /**
     * The event loop: the R key recreates the cells, a dropped file is loaded, closing the window
     * clears `running`. A conversion error escaping a load leaves the loop at once.
     */
    method Events(events: seq<App.Event>) returns (running: bool, escaped: Option<S.JsonError>)
      requires Valid()
      modifies this, device, Repr()
      ensures Valid()
      ensures (World(), running, escaped) == App.Events(old(World()), device.answer, threads, events, true)
    {
      ghost var w := World();
      running := true;
      var k := 0;
      while k < |events|
        invariant Valid() && k <= |events|
        invariant App.Events(World(), device.answer, threads, events[k..], running) == App.Events(w, device.answer, threads, events, true)
      {
        assert events[k..][1..] == events[k + 1..];
        match events[k] {
          case ResetKey =>
            Recreate();
          case Dropped(file) =>
            var e := LoadCallback(file);
            if e.Some? {
              return running, e;
            }
          case Quit =>
            running := false;
          case Camera =>
        }
        k := k + 1;
      }
      escaped := None;
    }

    /**
     * One iteration of the main loop; `going` is false when the window closed or a load error
     * escaped, and Update was then skipped.
     */
    method Iteration(elapsed: nat, events: seq<App.Event>, c: App.Controls, visible: bool)
      returns (going: bool, escaped: Option<S.JsonError>)
      requires Valid()
      modifies this, device, Repr()
      ensures Valid()
      ensures (World(), going, escaped) == App.Iteration(old(World()), device.answer, threads, elapsed, events, c, visible)
    {
      Advance(elapsed);
      var running;
      running, escaped := Events(events);
      if escaped.Some? || !running {
        return false, escaped;
      }
      Update(c, visible);
      going := true;
    }
  }
}
