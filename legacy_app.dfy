/**
 * One frame of the earlier program as a function of its globals: the fields and the device's call
 * count, `size`, `iterations`, `delay`, `cooldown`, `dt`, `diffusion` and `viscosity`. The window's
 * widgets and the frame's events are inputs.
 */
module LegacyApp {
  import opened Wrappers
  import opened Gpu
  import opened Passes
  import P = Pipeline
  import LP = LegacyPipeline
  import S = SimState

  /** The globals one frame reads and writes. */
  datatype World = World(machine: Machine, size: S.int32, iterations: S.int32, delay: S.int32,
                         cooldown: int, dt: nat, diffusion: Float, viscosity: Float)

  /** What a stage depends on besides the fields. */
  function ContextOf(w: World, answer: nat -> bool, threads: int): Context
    requires threads >= 1
  {
    Context(answer, threads, w.size, w.dt)
  }

  /** A `glm::ivec3` cell position. */
  datatype Cell = Cell(x: int, y: int, z: int)

  /** Three velocity components, as the `SliderFloat3` widgets hold them. */
  datatype Vector = Vector(x: Float, y: Float, z: Float)

  /** A velocity injected at one cell. */
  datatype Impulse = Impulse(cell: Cell, velocity: Vector)

  /** A density injected at one cell. */
  datatype Dab = Dab(cell: Cell, amount: Float)

  /**
   * What the window's widgets return in one frame: the Delay, Iterations, Diffusion and Viscosity
   * sliders; the Size slider when it moved; each Add button when it was clicked, with the values
   * and position its sliders held; Reset.
   */
  datatype Controls = Controls(delay: S.int32, iterations: S.int32, diffusion: Float, viscosity: Float,
                               resize: Option<S.int32>, addAll: Option<Vector>, addSingle: Option<Impulse>,
                               addDensity: Option<Dab>, reset: bool)

  /** CreateCells as a step of the program: only the fields and the device change. */
  function Recreated(w: World, answer: nat -> bool, threads: int): World
    requires threads >= 1
  {
    w.(machine := P.CreateCells(w.machine, ContextOf(w, answer, threads)).0)
  }

  /** Add Velocity (All): Add2 on each velocity component with its slider's value. */
  function AddAll(m: Machine, ctx: Context, v: Vector): Machine
  {
    P.Add2(P.Add2(P.Add2(m, ctx, VelocityX, v.x), ctx, VelocityY, v.y), ctx, VelocityZ, v.z)
  }

  /** Add Velocity (Single): Add1 on each velocity component at one cell. */
  function AddSingle(m: Machine, ctx: Context, p: Impulse): Machine
  {
    var c := p.cell;
    var m1 := P.Add1(m, ctx, VelocityX, c.x, c.y, c.z, p.velocity.x);
    var m2 := P.Add1(m1, ctx, VelocityY, c.x, c.y, c.z, p.velocity.y);
    P.Add1(m2, ctx, VelocityZ, c.x, c.y, c.z, p.velocity.z)
  }

  /** Add Density: Add1 on the density at one cell. */
  function AddDensity(m: Machine, ctx: Context, d: Dab): Machine
  {
    P.Add1(m, ctx, Density, d.cell.x, d.cell.y, d.cell.z, d.amount)
  }

  /** The injections of the three Add buttons, in the window's order. */
  function Injections(w: World, answer: nat -> bool, threads: int, c: Controls): Machine
    requires threads >= 1
  {
    var ctx := ContextOf(w, answer, threads);
    var m1 := if c.addAll.Some? then AddAll(w.machine, ctx, c.addAll.value) else w.machine;
    var m2 := if c.addSingle.Some? then AddSingle(m1, ctx, c.addSingle.value) else m1;
    if c.addDensity.Some? then AddDensity(m2, ctx, c.addDensity.value) else m2
  }

  /** The setting sliders, then the Size slider (which recreates the cells), the Add buttons and Reset. */
  function Widgets(w: World, answer: nat -> bool, threads: int, c: Controls): World
    requires threads >= 1
  {
    var w1 := w.(delay := c.delay, iterations := c.iterations, diffusion := c.diffusion, viscosity := c.viscosity);
    var w2 := if c.resize.Some? then Recreated(w1.(size := c.resize.value), answer, threads) else w1;
    var w3 := w2.(machine := Injections(w2, answer, threads, c));
    if c.reset then Recreated(w3, answer, threads) else w3
  }

  /** The body of `if (cooldown <= 0)`: one simulation step, then `cooldown = delay`. */
  function Gated(w: World, answer: nat -> bool, threads: int): World
    requires threads >= 1
  {
    if w.cooldown > 0 then w
    else
      w.(machine := LP.Tick(w.machine, ContextOf(w, answer, threads), w.iterations, w.viscosity, w.diffusion),
         cooldown := w.delay)
  }

  /**
   * Update: acquire a command buffer and a swapchain texture, giving up when either fails or the
   * window has no area; then the widgets and the gated step.
   */
  function Update(w: World, answer: nat -> bool, threads: int, c: Controls, visible: bool): World
    requires threads >= 1
  {
    var m := w.machine;
    if !answer(m.calls) then w.(machine := Called(m))
    else if !answer(m.calls + 1) || !visible then w.(machine := Called(Called(m)))
    else Gated(Widgets(w.(machine := Called(Called(m))), answer, threads, c), answer, threads)
  }

  /** The frame loop's bookkeeping: `dt` is the elapsed time and the cooldown runs down by it. */
  function Advance(w: World, elapsed: nat): World
  {
    w.(dt := elapsed, cooldown := w.cooldown - elapsed)
  }

  /** An event of the frame loop: the R key, the window closing, or one the camera handles. */
  datatype Event = ResetKey | Quit | Camera

  /** The event loop: R recreates the cells, closing stops the program once every event is handled. */
  function Events(w: World, answer: nat -> bool, threads: int, events: seq<Event>, running: bool): (World, bool)
    requires threads >= 1
    decreases |events|
  {
    if |events| == 0 then (w, running)
    else
      match events[0]
      case ResetKey => Events(Recreated(w, answer, threads), answer, threads, events[1..], running)
      case Quit => Events(w, answer, threads, events[1..], false)
      case Camera => Events(w, answer, threads, events[1..], running)
  }

  /**
   * One iteration of the main loop: the elapsed time, the events, and Update unless the window
   * closed. The second component says whether the loop goes on.
   */
  function Iteration(w: World, answer: nat -> bool, threads: int, elapsed: nat, events: seq<Event>,
                     c: Controls, visible: bool): (World, bool)
    requires threads >= 1
  {
    var (w1, running) := Events(Advance(w, elapsed), answer, threads, events, true);
    if !running then (w1, false) else (Update(w1, answer, threads, c, visible), true)
  }

  /* ---- properties ---- */

  /**
   * Update gives up before any widget when an acquisition fails or the window has no area: only
   * the device's calls count up, one per acquisition attempted.
   */
  lemma UpdateAbandoned(w: World, answer: nat -> bool, threads: int, c: Controls, visible: bool)
    requires threads >= 1
    requires !answer(w.machine.calls) || !answer(w.machine.calls + 1) || !visible
    ensures Update(w, answer, threads, c, visible) ==
      w.(machine := if answer(w.machine.calls) then Called(Called(w.machine)) else Called(w.machine))
  {
  }

  /** Past both acquisitions of a visible window, a frame is the widgets and then the gated step. */
  lemma UpdateProceeds(w: World, answer: nat -> bool, threads: int, c: Controls, w1: World)
    requires threads >= 1
    requires answer(w.machine.calls) && answer(w.machine.calls + 1)
    requires w1 == Widgets(w.(machine := Called(Called(w.machine))), answer, threads, c)
    ensures Update(w, answer, threads, c, true) == Gated(w1, answer, threads)
  {
  }

  /**
   * The widgets leave the settings as the sliders say; when no Add button, Reset or the Size
   * slider was used, the fields and the device are untouched.
   */
  lemma WidgetsSettings(w: World, answer: nat -> bool, threads: int, c: Controls)
    requires threads >= 1
    ensures var r := Widgets(w, answer, threads, c);
      && r.delay == c.delay && r.iterations == c.iterations
      && r.diffusion == c.diffusion && r.viscosity == c.viscosity
      && r.size == (if c.resize.Some? then c.resize.value else w.size)
      && r.cooldown == w.cooldown && r.dt == w.dt
      && (c.resize.None? && c.addAll.None? && c.addSingle.None? && c.addDensity.None? && !c.reset ==>
            r.machine == w.machine)
  {
  }

  /**
   * The step is gated on the cooldown: when Update gets past its acquisitions it runs a step
   * exactly when `cooldown <= 0`, and then sets the cooldown to the Delay slider's value.
   */
  lemma UpdateGate(w: World, answer: nat -> bool, threads: int, c: Controls)
    requires threads >= 1
    requires answer(w.machine.calls) && answer(w.machine.calls + 1)
    ensures var w1 := Widgets(w.(machine := Called(Called(w.machine))), answer, threads, c);
      var r := Update(w, answer, threads, c, true);
      && r.cooldown == (if w.cooldown <= 0 then c.delay else w.cooldown)
      && (w.cooldown <= 0 ==>
            r.machine == LP.Tick(w1.machine, ContextOf(w1, answer, threads), c.iterations, c.viscosity, c.diffusion))
      && (w.cooldown > 0 ==> r == w1)
  {
    var w0 := w.(machine := Called(Called(w.machine)));
    var w1 := Widgets(w0, answer, threads, c);
    WidgetsSettings(w0, answer, threads, c);
    UpdateProceeds(w, answer, threads, c, w1);
    GatedOutcome(w1, answer, threads);
  }

  /** The gate on its own: a step and `cooldown = delay` when the cooldown has run out, else nothing. */
  lemma GatedOutcome(w: World, answer: nat -> bool, threads: int)
    requires threads >= 1
    ensures var g := Gated(w, answer, threads);
      && (w.cooldown > 0 ==> g == w)
      && (w.cooldown <= 0 ==>
            g == w.(machine := LP.Tick(w.machine, ContextOf(w, answer, threads), w.iterations, w.viscosity, w.diffusion),
                    cooldown := w.delay))
  {
  }

  /**
   * With the frames' elapsed times in between, a step waits until the time since the previous
   * one reaches the cooldown: after `Advance` the gate opens exactly when `elapsed >= cooldown`.
   */
  lemma AdvanceOpensGate(w: World, elapsed: nat, answer: nat -> bool, threads: int)
    requires threads >= 1
    ensures var a := Advance(w, elapsed);
      var g := Gated(a, answer, threads);
      && a.dt == elapsed
      && (elapsed >= w.cooldown ==>
            g.cooldown == w.delay
            && g.machine == LP.Tick(w.machine, ContextOf(a, answer, threads), w.iterations, w.viscosity, w.diffusion))
      && (elapsed < w.cooldown ==> g.machine == w.machine && g.cooldown == w.cooldown - elapsed > 0)
  {
  }

  /** The events change nothing but the fields and the device, and the loop stops exactly on a Quit. */
  lemma {:induction false} EventsEffect(w: World, answer: nat -> bool, threads: int, events: seq<Event>, running: bool)
    requires threads >= 1
    ensures var (r, going) := Events(w, answer, threads, events, running);
      && r == w.(machine := r.machine)
      && going == (running && Quit !in events)
      && (ResetKey !in events ==> r == w)
    decreases |events|
  {
    if |events| > 0 {
      var rest := events[1..];
      assert forall e :: e in events <==> e == events[0] || e in rest;
      match events[0]
      case ResetKey => EventsEffect(Recreated(w, answer, threads), answer, threads, rest, running);
      case Quit => EventsEffect(w, answer, threads, rest, false);
      case Camera => EventsEffect(w, answer, threads, rest, running);
    }
  }

  /**
   * A frame whose events include the window closing ends the loop before Update; otherwise the
   * frame ends with Update, and without an R key Update sees the advanced globals.
   */
  lemma IterationOutcomes(w: World, answer: nat -> bool, threads: int, elapsed: nat, events: seq<Event>,
                          c: Controls, visible: bool)
    requires threads >= 1
    ensures var (r, going) := Iteration(w, answer, threads, elapsed, events, c, visible);
      && going == (Quit !in events)
      && (Quit in events ==> r == Events(Advance(w, elapsed), answer, threads, events, true).0
                             && r.cooldown == w.cooldown - elapsed && r.dt == elapsed)
      && (Quit !in events && ResetKey !in events ==> r == Update(Advance(w, elapsed), answer, threads, c, visible))
  {
    EventsEffect(Advance(w, elapsed), answer, threads, events, true);
  }
}
