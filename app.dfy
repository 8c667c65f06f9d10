/**
 * One frame of the application as a function of its globals: the fields and the device's call
 * count, the persistent `State`, `delay`, `cooldown` and `dt`. The ImGui widgets and the file
 * dialogs are inputs: what each widget returned this frame, and what the chosen file held.
 */
module App {
  import opened Wrappers
  import opened Gpu
  import opened Passes
  import P = Pipeline
  import S = SimState
  import L = SpawnerList

  /** The globals the frame reads and writes. */
  datatype World = World(machine: Machine, state: S.State, delay: S.int32, cooldown: int, dt: nat)

  /** An entry of the spawner combo box, which lists `SpawnerTextures`. */
  type Choice = j: nat | j < |S.SpawnerTextures|

  /** What the widgets of one spawner's row return: its position, its value, a clicked entry, Remove. */
  datatype Row = Row(position: S.Position, value: Float, choice: Option<Choice>, remove: bool)

  /**
   * What the settings and spawner widgets return in one frame: Reset; the Delay, Iterations,
   * Diffusion and Viscosity sliders; the Size slider when it moved; one row per spawner; Add.
   */
  datatype Controls = Controls(reset: bool, delay: S.int32, iterations: S.int32, diffusion: Float,
                               viscosity: Float, resize: Option<S.int32>, rows: seq<Row>, add: bool)

  /** What a stage depends on besides the fields. */
  function ContextOf(w: World, answer: nat -> bool, threads: int): Context
    requires threads >= 1
  {
    Context(answer, threads, w.state.size, w.dt)
  }

  /* ---- UpdateSpawners ---- */

  /** A spawner after its row's slider, drag and combo box. */
  function Edited(s: S.Spawner, row: Row): S.Spawner
  {
    var texture := if row.choice.Some? then S.SpawnerTextures[row.choice.value] else s.texture;
    S.Spawner(texture, row.position, row.value)
  }

  /** Every spawner after its row; a spawner without a row is not drawn and keeps its values. */
  function EditAll(ss: seq<S.Spawner>, rows: seq<Row>): (r: seq<S.Spawner>)
    ensures |r| == |ss|
  {
    seq(|ss|, i requires 0 <= i < |ss| => if i < |rows| then Edited(ss[i], rows[i]) else ss[i])
  }

  /** The spawners whose Remove was pressed. */
  function Removed(n: nat, rows: seq<Row>): (flags: seq<bool>)
    ensures |flags| == n
  {
    seq(n, i => 0 <= i < |rows| && rows[i].remove)
  }

  /** The indices below `n` whose Remove was pressed, in the ascending order the table visits them. */
  function Pressed(rows: seq<Row>, n: nat): seq<int>
  {
    if n == 0 then []
    else Pressed(rows, n - 1) + (if n - 1 < |rows| && rows[n - 1].remove then [n - 1] else [])
  }

  /** The collected indices are ascending and below `n`: what erasing from the back relies on. */
  lemma {:induction false} PressedAscending(rows: seq<Row>, n: nat)
    ensures L.StrictlyIncreasing(Pressed(rows, n))
    ensures forall k :: 0 <= k < |Pressed(rows, n)| ==> 0 <= Pressed(rows, n)[k] < n
  {
    if n > 0 {
      PressedAscending(rows, n - 1);
    }
  }

  /** The collected indices mark exactly the spawners whose Remove was pressed. */
  lemma {:induction false} PressedMarks(rows: seq<Row>, n: nat)
    ensures L.Marks(n, Pressed(rows, n)) == Removed(n, rows)
  {
    if n > 0 {
      PressedMarks(rows, n - 1);
      var before := Pressed(rows, n - 1);
      assert forall k :: 0 <= k < n - 1 ==> (k in before <==> Removed(n - 1, rows)[k]);
      PressedAscending(rows, n - 1);
      assert forall k :: k in Pressed(rows, n) <==> k in before || (k == n - 1 && Removed(n, rows)[n - 1]);
    }
  }

  /** Add1 of every spawner in order, each on the read side of its field. */
  function Injections(m: Machine, ctx: Context, ss: seq<S.Spawner>): Machine
    decreases |ss|
  {
    if |ss| == 0 then m
    else
      var s := ss[|ss| - 1];
      P.Add1(Injections(m, ctx, ss[..|ss| - 1]), ctx, s.texture.Index(), s.position.x, s.position.y,
             s.position.z, s.value)
  }

  /** One more spawner is one more Add1, after all the others. */
  lemma InjectionsAppend(m: Machine, ctx: Context, ss: seq<S.Spawner>, s: S.Spawner)
    ensures Injections(m, ctx, ss + [s]) ==
      P.Add1(Injections(m, ctx, ss), ctx, s.texture.Index(), s.position.x, s.position.y, s.position.z, s.value)
  {
    assert (ss + [s])[..|ss|] == ss;
  }

  /** The list after the frame: the edited spawners not removed, then the added one. */
  function Spawners(ss: seq<S.Spawner>, rows: seq<Row>, add: bool, size: S.int32): seq<S.Spawner>
  {
    L.Keep(EditAll(ss, rows), Removed(|ss|, rows)) + (if add then [S.NewSpawner(size)] else [])
  }

  /** UpdateSpawners: edit and inject every spawner, erase the removed ones, then append on Add. */
  function UpdateSpawners(w: World, answer: nat -> bool, threads: int, rows: seq<Row>, add: bool): World
    requires threads >= 1
  {
    var ss := w.state.spawners;
    w.(machine := Injections(w.machine, ContextOf(w, answer, threads), EditAll(ss, rows)),
       state := w.state.(spawners := Spawners(ss, rows, add, w.state.size)))
  }

  /* ---- UpdateImGui and Update ---- */

  /** Reset, the four setting sliders and the Size slider, in the window's order. */
  function Settings(w: World, answer: nat -> bool, threads: int, c: Controls): World
    requires threads >= 1
  {
    var m1 := if c.reset then P.CreateCells(w.machine, ContextOf(w, answer, threads)).0 else w.machine;
    var w1 := w.(machine := m1, delay := c.delay,
                 state := w.state.(iterations := c.iterations, diffusion := c.diffusion, viscosity := c.viscosity));
    if c.resize.None? then w1
    else
      var w2 := w1.(state := w1.state.(size := c.resize.value));
      w2.(machine := P.CreateCells(w2.machine, ContextOf(w2, answer, threads)).0)
  }

  /** The body of `if (cooldown <= 0)`: one simulation step, then `cooldown = delay`. */
  function Gated(w: World, answer: nat -> bool, threads: int): World
    requires threads >= 1
  {
    if w.cooldown > 0 then w
    else
      var s := w.state;
      w.(machine := P.Tick(w.machine, ContextOf(w, answer, threads), s.iterations, s.viscosity, s.diffusion),
         cooldown := w.delay)
  }

  /**
   * Update: acquire a command buffer and a swapchain texture, giving up when either fails or the
   * window has no area; then the window's widgets, the spawners and the gated step.
   */
  function Update(w: World, answer: nat -> bool, threads: int, c: Controls, visible: bool): World
    requires threads >= 1
  {
    var m := w.machine;
    if !answer(m.calls) then w.(machine := Called(m))
    else if !answer(m.calls + 1) || !visible then w.(machine := Called(Called(m)))
    else
      var w1 := Settings(w.(machine := Called(Called(m))), answer, threads, c);
      var w2 := UpdateSpawners(w1, answer, threads, c.rows, c.add);
      Gated(w2, answer, threads)
  }

  /** The frame loop's bookkeeping: `dt` is the elapsed time and the cooldown runs down by it. */
  function Advance(w: World, elapsed: nat): World
  {
    w.(dt := elapsed, cooldown := w.cooldown - elapsed)
  }

  /* ---- the file dialogs ---- */

  /** What the open dialog led to: no file, a file that does not open or parse, or its JSON. */
  datatype Opened = Cancelled | Unopenable | Unparsable | Parsed(json: S.Json)

  /**
   * LoadCallback. Only a parsed file reaches `state = json`; when that conversion fails the
   * exception leaves the callback and nothing is assigned. On success the cells are recreated.
   */
  function Load(w: World, answer: nat -> bool, threads: int, file: Opened): (World, Option<S.JsonError>)
    requires threads >= 1
  {
    if !file.Parsed? then (w, None)
    else
      match S.StateFromJson(file.json)
      case Err(e) => (w, Some(e))
      case Ok(s) =>
        var w1 := w.(state := s);
        (w1.(machine := P.CreateCells(w1.machine, ContextOf(w1, answer, threads)).0), None)
  }

  /** What the save dialog led to: no file, a file that does not open, or an open file. */
  datatype Saved = NotChosen | NotOpened | Written

  /** SaveCallback: the JSON written, when a file was chosen and opened. */
  function Save(w: World, file: Saved): Option<S.Json>
  {
    if file == Written then Some(S.StateToJson(w.state)) else None
  }

  /* ---- the main loop ---- */

  /** The R key's CreateCells: only the fields and the device change. */
  function Recreated(w: World, answer: nat -> bool, threads: int): World
    requires threads >= 1
  {
    w.(machine := P.CreateCells(w.machine, ContextOf(w, answer, threads)).0)
  }

  /** An event of the frame loop: the R key, a dropped file, the window closing, or one the camera handles. */
  datatype Event = ResetKey | Dropped(file: Opened) | Quit | Camera

  /**
   * The event loop: R recreates the cells, a dropped file goes to LoadCallback, closing stops the
   * program once every event is handled. A conversion error escaping LoadCallback leaves the loop
   * at once (and, uncaught, ends the program); it is the third component.
   */
  function Events(w: World, answer: nat -> bool, threads: int, events: seq<Event>, running: bool)
    : (World, bool, Option<S.JsonError>)
    requires threads >= 1
    decreases |events|
  {
    if |events| == 0 then (w, running, None)
    else
      match events[0]
      case ResetKey => Events(Recreated(w, answer, threads), answer, threads, events[1..], running)
      case Dropped(file) =>
        var (w1, escaped) := Load(w, answer, threads, file);
        if escaped.Some? then (w1, running, escaped)
        else Events(w1, answer, threads, events[1..], running)
      case Quit => Events(w, answer, threads, events[1..], false)
      case Camera => Events(w, answer, threads, events[1..], running)
  }

  /**
   * One iteration of the main loop: the elapsed time, the events, and Update unless the window
   * closed or a load error escaped. The second component says whether the loop goes on.
   */
  function Iteration(w: World, answer: nat -> bool, threads: int, elapsed: nat, events: seq<Event>,
                     c: Controls, visible: bool): (World, bool, Option<S.JsonError>)
    requires threads >= 1
  {
    var (w1, running, escaped) := Events(Advance(w, elapsed), answer, threads, events, true);
    if escaped.Some? then (w1, false, escaped)
    else if !running then (w1, false, None)
    else (Update(w1, answer, threads, c, visible), true, None)
  }

  /* ---- properties ---- */

  /**
   * The injections take one device answer per spawner and move no field's read side: Add1 works
   * in place, so every write side is as it was.
   */
  lemma {:induction false} InjectionsEffect(m: Machine, ctx: Context, ss: seq<S.Spawner>)
    ensures var r := Injections(m, ctx, ss);
      && r.calls == m.calls + |ss|
      && forall j :: 0 <= j < FieldCount ==>
           r.fields[j].readIndex == m.fields[j].readIndex && DoubleBuffer.Write(r.fields[j]) == DoubleBuffer.Write(m.fields[j])
  {
    var k := 0;
    while k < |ss|
      invariant k <= |ss|
      invariant Injections(m, ctx, ss[..k]).calls == m.calls + k
      invariant forall j :: 0 <= j < FieldCount ==>
        && Injections(m, ctx, ss[..k]).fields[j].readIndex == m.fields[j].readIndex
        && DoubleBuffer.Write(Injections(m, ctx, ss[..k]).fields[j]) == DoubleBuffer.Write(m.fields[j])
    {
      var p := Injections(m, ctx, ss[..k]);
      var s := ss[k];
      assert ss[..k + 1][..k] == ss[..k];
      Add1KeepsSides(p, ctx, s.texture.Index(), s.position.x, s.position.y, s.position.z, s.value);
      k := k + 1;
    }
    assert ss[..|ss|] == ss;
  }

  /** One Add1 takes one answer and moves neither side of any field. */
  lemma Add1KeepsSides(m: Machine, ctx: Context, i: nat, x: int, y: int, z: int, value: Float)
    requires i < FieldCount
    ensures var r := P.Add1(m, ctx, i, x, y, z, value);
      && r.calls == m.calls + 1
      && forall j :: 0 <= j < FieldCount ==>
           r.fields[j].readIndex == m.fields[j].readIndex && DoubleBuffer.Write(r.fields[j]) == DoubleBuffer.Write(m.fields[j])
  {
    P.Add1Effect(m, ctx, i, x, y, z, value);
  }

  /**
   * The list UpdateSpawners leaves: a spawner survives exactly when its Remove was not pressed,
   * with its row applied, in the original order; Add puts a density spawner of value 1 at
   * `size / 2 - 1` on every axis at the end.
   */
  lemma SpawnersAfterFrame(ss: seq<S.Spawner>, rows: seq<Row>, add: bool, size: S.int32)
    ensures var r := Spawners(ss, rows, add, size);
      && (add ==> (|r| >= 1 && r[|r| - 1] == S.NewSpawner(size)
                   && r[|r| - 1].texture == S.Density && r[|r| - 1].value == One))
      && (!add ==> r == L.Keep(EditAll(ss, rows), Removed(|ss|, rows)))
      && ((forall i :: 0 <= i < |rows| ==> !rows[i].remove) && !add ==> r == EditAll(ss, rows))
  {
    var kept := L.Keep(EditAll(ss, rows), Removed(|ss|, rows));
    if forall i :: 0 <= i < |rows| ==> !rows[i].remove {
      assert forall i :: 0 <= i < |ss| ==> !Removed(|ss|, rows)[i];
    }
  }

  /** Past both acquisitions of a visible window, a frame is the widgets, the spawners and the gated step. */
  lemma UpdateProceeds(w: World, answer: nat -> bool, threads: int, c: Controls, w0: World, w1: World, w2: World)
    requires threads >= 1
    requires answer(w.machine.calls) && answer(w.machine.calls + 1)
    requires w0 == w.(machine := Called(Called(w.machine)))
    requires w1 == Settings(w0, answer, threads, c)
    requires w2 == UpdateSpawners(w1, answer, threads, c.rows, c.add)
    ensures Update(w, answer, threads, c, true) == Gated(w2, answer, threads)
  {
    var m := w.machine;
    assert Settings(w.(machine := Called(Called(m))), answer, threads, c) == w1;
  }

  /**
   * Update gives up before any widget when the command buffer or the swapchain texture cannot be
   * acquired or the window has no area: only the device calls count up.
   */
  lemma UpdateAbandoned(w: World, answer: nat -> bool, threads: int, c: Controls, visible: bool)
    requires threads >= 1
    requires !answer(w.machine.calls) || !answer(w.machine.calls + 1) || !visible
    ensures var r := Update(w, answer, threads, c, visible);
      && r.state == w.state && r.delay == w.delay && r.cooldown == w.cooldown && r.dt == w.dt
      && r.machine.fields == w.machine.fields
      && r.machine.calls == w.machine.calls + (if answer(w.machine.calls) then 2 else 1)
  {
  }

  /**
   * The step is gated on the cooldown: when Update gets past its acquisitions it runs a step
   * exactly when `cooldown <= 0`, and then sets the cooldown to the Delay slider's value.
   */
  lemma UpdateGate(w: World, answer: nat -> bool, threads: int, c: Controls)
    requires threads >= 1
    requires answer(w.machine.calls) && answer(w.machine.calls + 1)
    ensures var r := Update(w, answer, threads, c, true);
      && r.delay == c.delay
      && r.cooldown == (if w.cooldown <= 0 then c.delay else w.cooldown)
      && r.state.iterations == c.iterations && r.state.viscosity == c.viscosity && r.state.diffusion == c.diffusion
      && r.state.size == (if c.resize.Some? then c.resize.value else w.state.size)
  {
    var w1 := Settings(w.(machine := Called(Called(w.machine))), answer, threads, c);
    assert w1.delay == c.delay && w1.cooldown == w.cooldown;
    assert w1.state.iterations == c.iterations && w1.state.viscosity == c.viscosity && w1.state.diffusion == c.diffusion;
    assert w1.state.size == (if c.resize.Some? then c.resize.value else w.state.size);
    var w2 := UpdateSpawners(w1, answer, threads, c.rows, c.add);
    assert Update(w, answer, threads, c, true) == Gated(w2, answer, threads);
  }

  /**
   * With the frames' elapsed times in between, a step waits until the time since the previous
   * one reaches the cooldown: after `Advance` the gate opens exactly when `elapsed >= cooldown`.
   */
  lemma AdvanceOpensGate(w: World, elapsed: nat, answer: nat -> bool, threads: int)
    requires threads >= 1
    ensures var a := Advance(w, elapsed);
      var g := Gated(a, answer, threads);
      && a.dt == elapsed && g.dt == elapsed && g.state == w.state
      && (elapsed >= w.cooldown ==>
            g.cooldown == w.delay
            && g.machine == P.Tick(w.machine, ContextOf(a, answer, threads), w.state.iterations,
                                   w.state.viscosity, w.state.diffusion))
      && (elapsed < w.cooldown ==> g.machine == w.machine && g.cooldown == w.cooldown - elapsed > 0)
  {
  }

  /**
   * A load leaves the globals as they were unless the file parsed and converted; then the state
   * is the converted one and the cells are recreated for its size.
   */
  lemma LoadOutcomes(w: World, answer: nat -> bool, threads: int, file: Opened)
    requires threads >= 1
    ensures var (r, escaped) := Load(w, answer, threads, file);
      && (!file.Parsed? ==> r == w && escaped.None?)
      && (file.Parsed? && S.StateFromJson(file.json).Err? ==>
            r == w && escaped == Some(S.StateFromJson(file.json).error))
      && (file.Parsed? && S.StateFromJson(file.json).Ok? ==>
            && escaped.None?
            && r.state == S.StateFromJson(file.json).value
            && r.delay == w.delay && r.cooldown == w.cooldown && r.dt == w.dt
            && r.machine == P.CreateCells(w.machine, ContextOf(w.(state := r.state), answer, threads)).0)
  {
  }

  /** Loading what a save wrote restores the state; the cells are recreated for its size. */
  lemma SaveThenLoad(w: World, answer: nat -> bool, threads: int)
    requires threads >= 1
    ensures Save(w, Written).Some?
    ensures var (r, escaped) := Load(w, answer, threads, Parsed(Save(w, Written).value));
      escaped.None? && r.state == w.state && r.machine == P.CreateCells(w.machine, ContextOf(w, answer, threads)).0
  {
    S.StateRoundTrip(w.state);
  }

  /** A dropped file is a load, as from the open dialog. */
  lemma DroppedLoads(w: World, answer: nat -> bool, threads: int, file: Opened, rest: seq<Event>, running: bool)
    requires threads >= 1
    ensures var (w1, escaped) := Load(w, answer, threads, file);
      Events(w, answer, threads, [Dropped(file)] + rest, running) ==
        if escaped.Some? then (w1, running, escaped) else Events(w1, answer, threads, rest, running)
  {
    assert ([Dropped(file)] + rest)[1..] == rest;
  }

  /**
   * The events never touch the delay, the cooldown or `dt`. Unless a load error escaped, the loop
   * stops exactly on a Quit; with only Quit and camera events the world is untouched.
   */
  lemma {:induction false} EventsEffect(w: World, answer: nat -> bool, threads: int, events: seq<Event>, running: bool)
    requires threads >= 1
    ensures var (r, going, escaped) := Events(w, answer, threads, events, running);
      && r.delay == w.delay && r.cooldown == w.cooldown && r.dt == w.dt
      && (escaped.None? ==> going == (running && Quit !in events))
      && ((forall k :: 0 <= k < |events| ==> events[k] == Quit || events[k] == Camera) ==>
            r == w && escaped.None?)
    decreases |events|
  {
    if |events| > 0 {
      var rest := events[1..];
      assert forall e :: e in events <==> e == events[0] || e in rest;
      assert forall k :: 0 <= k < |rest| ==> rest[k] == events[k + 1];
      match events[0]
      case ResetKey => EventsEffect(Recreated(w, answer, threads), answer, threads, rest, running);
      case Dropped(file) =>
        var (w1, escaped) := Load(w, answer, threads, file);
        LoadOutcomes(w, answer, threads, file);
        if escaped.None? {
          EventsEffect(w1, answer, threads, rest, running);
        }
      case Quit => EventsEffect(w, answer, threads, rest, false);
      case Camera => EventsEffect(w, answer, threads, rest, running);
    }
  }

  /**
   * A frame whose events include the window closing ends the loop before Update, and so does a
   * load error; otherwise the frame ends with Update.
   */
  lemma IterationOutcomes(w: World, answer: nat -> bool, threads: int, elapsed: nat, events: seq<Event>,
                          c: Controls, visible: bool)
    requires threads >= 1
    ensures var (r, going, escaped) := Iteration(w, answer, threads, elapsed, events, c, visible);
      var (w1, running, e) := Events(Advance(w, elapsed), answer, threads, events, true);
      && escaped == e
      && going == (escaped.None? && Quit !in events)
      && (!going ==> r == w1 && r.cooldown == w.cooldown - elapsed && r.dt == elapsed)
      && (going ==> r == Update(w1, answer, threads, c, visible))
  {
    EventsEffect(Advance(w, elapsed), answer, threads, events, true);
  }
}
