# Fluid simulation: a Dafny model of the solver and its host logic

The repository is a GPU fluid simulation in the style of Jos Stam's "stable fluids", in C++ on SDL3's
GPU API. It has two generations. `src/main.cpp` is the current program. `main.cpp` at the root
is the earlier one.

Both programs keep the same data. There are six double-buffered 3D textures: three velocity
components, pressure, divergence and density. Each texture has two slots and a read index. A
compute kernel samples the read side, writes the write side, and the texture is then swapped.
Every frame, once a cooldown has run out, both programs run one simulation step: diffuse the
velocity, project it, advect it, project it again, then diffuse and advect the density.

This model covers:

- **The double-buffered texture.** There is one class for each copy: `src/texture.cpp` and the root
  `rw_texture.cpp`. Both are proved to follow the value-level `DoubleBuffer` functions.
- **The `UploadBuffer` class** (`upload_buffer.hpp`). It stages elements in a mapped transfer buffer
  that grows like a vector. It then copies them into a GPU buffer that grows only when it is too
  small.
- **The current program's `State` and `Spawner` records**, with their JSON conversion. JSON is
  modelled as a value, and a round trip through it is proved.
- **The list of spawners** the window edits, removes from and appends to.
- **Every compute stage, as a function of the six fields** (`Pipeline` for the current program,
  `LegacyPipeline` for the earlier one). Kernels are uninterpreted. The contents of a texture are a
  term that records which kernel wrote it, from which inputs, with which uniforms and workgroup
  counts.
- **The global state of each program as a class** (`Solver.Simulation`, `LegacySolver.Simulation`).
  Each class has one method per host function. Every method is proved to change the textures and
  the device exactly as the matching stage function says.
- **One frame of each program as a function of its globals** (`App`, `LegacyApp`). This covers the
  widgets, the gated step, the cooldown bookkeeping, the event loop and the file callbacks.

The GPU device is an oracle `answer: nat -> bool`. Every fallible SDL call of the simulation takes
the next answer: acquiring a command buffer, beginning a compute or copy pass, creating or mapping a
texture or buffer. This covers every failure branch of the compute, copy and acquire calls. Render
passes and submission are outside the oracle (see "Left out"). For each stage, a lemma states:

- how many calls it makes;
- which fields it may touch;
- which fields change their read side, in general and when the device never fails.

The workgroup count `(size + THREADS - 1) / THREADS` is C++ integer division, which truncates
toward zero. It is modelled that way in `Gpu.Quotient`. `THREADS` itself comes from `config.hpp`;
config.hpp is not part of this model, so the value is a parameter of the context.

Modules:

- `wrappers.dfy`: Option and Result.
- `gpu.dfy`: floats as bit patterns, uniforms, kernels, texture contents, group counts, the device.
- `double_buffer.dfy`, `passes.dfy`: a field as a value; the machine of six fields; the write and
  read passes.
- `texture.dfy`, `rw_texture.dfy`: the two `ReadWriteTexture` classes.
- `upload_buffer.dfy`: `UploadBuffer`.
- `sim_state.dfy`, `spawner_list.dfy`: the `State` and its JSON form; erasing the removed spawners.
- `pipeline.dfy`, `solver.dfy`, `app.dfy`: the current program.
- `legacy_pipeline.dfy`, `legacy_solver.dfy`, `legacy_app.dfy`: the earlier program.

The two programs differ in a few ways that the model keeps:

- **Where the iteration loops are.** The earlier `Diffuse` and `Project2` loop over `iterations`
  themselves and return at the first pass that does not begin. The current program loops in
  `Update`.
- **Boundary passes.** The current program has the `Bnd1`–`Bnd5` boundary passes. `Bnd` swaps its
  texture even when none of its passes began.
- **Inputs.** The current program has spawners and JSON load and save. The earlier one has "Add
  Velocity" buttons, an "Add Density" button and a radio button that picks the texture to display.

## Model

| member | source | states |
|---|---|---|
| Gpu.Quotient | src/main.cpp:273 | C++ `/` on a positive divisor: the quotient truncates toward zero, so `q*b` lies within one divisor of `a` on the side of zero, for negative `a` as well |
| Gpu.GroupCount | src/main.cpp:273 | `(size + THREADS - 1) / THREADS` covers the volume: for `size >= 1` at least one group, `g*THREADS >= size` and `(g-1)*THREADS < size`; it is 0 or negative for sizes below 1 |
| Gpu.GroupCountIsLeast | src/main.cpp:273 | no smaller group count covers `size` cells |
| Gpu.Cube | src/main.cpp:276 | a full-volume dispatch uses the same group count on all three axes |
| Gpu.Device.constructor | src/main.cpp:122 | a device starts with no calls made and a fixed sequence of answers |
| Gpu.Device.Call | src/main.cpp:251-256 | a fallible device call succeeds exactly when the next answer says so, and consumes one answer |
| DoubleBuffer.ReadSlot | src/texture.cpp:57-60 | the read slot is `ReadIndex`, one of the two slots |
| DoubleBuffer.WriteSlot | src/texture.cpp:62-65 | the write slot is `1 - ReadIndex`: the other slot |
| DoubleBuffer.Swap | src/texture.cpp:52-55 | a swap keeps both textures and exchanges the read and write roles |
| DoubleBuffer.SwapTwice | src/texture.cpp:52-55 | two swaps restore the field |
| DoubleBuffer.SwapParity | src/texture.cpp:52-55 | `n` swaps equal no swap when `n` is even and one swap when it is odd |
| DoubleBuffer.Freed | src/texture.cpp:28-34 | Free nulls both handles and keeps the read index |
| DoubleBuffer.FreedIdempotent | src/texture.cpp:28-34 | freeing twice is freeing once |
| DoubleBuffer.Created | src/texture.cpp:5-26 | Create frees first, then allocates slot 0 and only then slot 1; a failure leaves the rest null; success holds two `size`³ textures |
| DoubleBuffer.StoreAt | src/main.cpp:489 | a dispatch's output lands in one slot only, and a null slot stays null |
| DoubleBuffer.StoreRead | src/texture.cpp:36-42 | a read pass updates the read side in place and leaves the write side alone |
| DoubleBuffer.StoreWrite | src/texture.cpp:44-50 | a write pass updates the write side and leaves the read side alone |
| DoubleBuffer.WriteThenSwap | src/main.cpp:475-491 | after a write and a swap, the field reads what was written and its write side is the old read side |
| Passes.SwapFieldEffect | src/main.cpp:899-901 | swapping one field flips its roles, touches no other field and makes no device call |
| Passes.WritePassEffect | src/texture.cpp:44-50 | a write pass takes one answer; if it begins, only the write side of its field changes, else nothing changes |
| Passes.ReadPassEffect | src/texture.cpp:36-42 | a read pass takes one answer; if it begins, only the read side of its field changes, else nothing changes |
| Texture.ReadWriteTexture.constructor | src/texture.hpp:8 | both handles start null and slot 0 is the read side |
| Texture.ReadWriteTexture.Create | src/texture.cpp:5-26 | one or two creation calls; the new slots are as `Created` says; it reports success exactly when both allocations succeeded |
| Texture.ReadWriteTexture.Free | src/texture.cpp:28-34 | both handles become null |
| Texture.ReadWriteTexture.BeginReadPass | src/texture.cpp:36-42 | takes one device answer; the pass exists exactly when it succeeds, and it binds the read slot without cycling |
| Texture.ReadWriteTexture.BeginWritePass | src/texture.cpp:44-50 | takes one device answer; the pass exists exactly when it succeeds, and it binds the write slot without cycling |
| Texture.ReadWriteTexture.Swap | src/texture.cpp:52-55 | the object's value becomes `DoubleBuffer.Swap` of the old value |
| Texture.ReadWriteTexture.GetReadTexture | src/texture.cpp:57-60 | returns the handle in the read slot |
| Texture.ReadWriteTexture.GetWriteTexture | src/texture.cpp:62-65 | returns the handle in the other slot |
| Texture.ReadWriteTexture.Store | src/main.cpp:489 | a dispatch's output written into one slot; the read index is untouched |
| RwTexture.ReadWriteTexture.constructor | src/rw_texture.hpp:8 | both handles start null and slot 0 is the read side |
| RwTexture.ReadWriteTexture.Create | rw_texture.cpp:5-27 | one or two creation calls; the slots are as `Created` says; success exactly when both allocations succeeded |
| RwTexture.ReadWriteTexture.Free | rw_texture.cpp:29-36 | both handles become null |
| RwTexture.ReadWriteTexture.BeginReadPass | rw_texture.cpp:38-44 | one device answer; binds the read slot when the pass begins |
| RwTexture.ReadWriteTexture.BeginWritePass | rw_texture.cpp:46-52 | one device answer; binds the write slot when the pass begins |
| RwTexture.ReadWriteTexture.Swap | rw_texture.cpp:54-57 | the value becomes `DoubleBuffer.Swap` of the old value |
| RwTexture.ReadWriteTexture.GetReadTexture | rw_texture.cpp:59-62 | returns the handle in the read slot |
| RwTexture.ReadWriteTexture.GetWriteTexture | rw_texture.cpp:64-67 | returns the handle in the other slot |
| RwTexture.ReadWriteTexture.GetReadTextureAddress | rw_texture.cpp:69-72 | the address is the read slot's index within the object's own handle array, and that slot holds the read texture |
| RwTexture.ReadWriteTexture.GetWriteTextureAddress | rw_texture.cpp:74-77 | the address is the write slot's index, and that slot holds the write texture |
| RwTexture.ReadWriteTexture.Store | main.cpp:316 | a dispatch's output written into one slot; the read index is untouched |
| UploadBuffer.NextCapacity | upload_buffer.hpp:65-69 | `max(10, size * 2)` in `uint32`: at least 10 and, while doubling does not wrap, larger than the full size (10 below 5, else twice it) |
| UploadBuffer.UploadBuffer.constructor | upload_buffer.hpp:24-31 | no buffers, nothing mapped, all sizes and capacities 0 |
| UploadBuffer.UploadBuffer.Destroy | upload_buffer.hpp:33-40 | both buffers released, every size and capacity 0, nothing mapped |
| UploadBuffer.UploadBuffer.DestroyTransferBuffer | upload_buffer.hpp:42-49 | the transfer buffer is released and unmapped; the GPU buffer is kept |
| UploadBuffer.UploadBuffer.Emplace | upload_buffer.hpp:51-98 | re-maps an unmapped buffer and grows a full one to `NextCapacity`; when every device call succeeds the element is appended to the staged ones, otherwise nothing is staged; exact call count |
| UploadBuffer.UploadBuffer.Remap | upload_buffer.hpp:54-64 | one map call; the buffer is mapped exactly when it succeeds; the GPU size is reset and nothing was staged |
| UploadBuffer.UploadBuffer.Grow | upload_buffer.hpp:65-95 | create and map a larger transfer buffer; on success the staged elements are carried over and the capacity is `NextCapacity`; on failure the old buffer is kept; one or two calls |
| UploadBuffer.UploadBuffer.Upload | upload_buffer.hpp:100-137 | unmaps and empties the staging area; an empty upload makes the GPU size 0; a too-small GPU buffer is replaced by one of the transfer capacity; a completed upload makes the GPU buffer hold exactly the staged elements |
| UploadBuffer.UploadBuffer.UploadInCommandBuffer | upload_buffer.hpp:139-149 | a copy pass that does not begin changes nothing but the call count; one that begins is `Upload` one call later: nothing stays staged, the calls are counted, and a completed upload makes the GPU buffer hold exactly the staged elements, `bufferSize` of them |
| UploadBuffer.UploadBuffer.UploadNow | upload_buffer.hpp:151-161 | a command buffer that is not acquired, or a copy pass that does not begin, changes nothing but the call count (one or two calls); when both are obtained it is `Upload` two calls later, with the same call count, emptied staging area and copied elements |
| UploadBuffer.UploadBuffer.GetBuffer | upload_buffer.hpp:163-166 | returns the GPU buffer |
| UploadBuffer.UploadBuffer.GetBufferSize | upload_buffer.hpp:168-171 | returns the uploaded element count |
| UploadBuffer.UploadBuffer.GetTransferBufferSize | upload_buffer.hpp:173-176 | returns the staged element count, which is the length of the staged sequence |
| SimState.ToInt32 | src/main.cpp:83-84 | a JSON integer narrowed to `int`: unchanged when it fits, congruent modulo 2^32 otherwise |
| SimState.Texture.Index | src/main.cpp:29-38 | each enumerator's value is below `TextureCount` and maps back to it |
| SimState.TextureFromIndex | src/main.cpp:29-38 | exactly the values 0 to 5 name a texture |
| SimState.TextureFromIndexInverts | src/main.cpp:29-38 | index and enumerator are inverse on 0 to 5 |
| SimState.NewSpawner | src/main.cpp:412-422 | the Add button's spawner is density 1.0 at `size / 2 - 1`, with truncating division, on all three axes |
| SimState.SpawnerToJson | src/main.cpp:47-52 | an object with exactly `texture`, `position` and `value`; the texture is its enumerator value |
| SimState.SpawnersToJson | src/main.cpp:78 | the array holds the spawners' JSON element by element, in order |
| SimState.StateToJson | src/main.cpp:72-79 | an object with exactly the five keys, and a spawner array as long as the list |
| SimState.SpawnerFromJson | src/main.cpp:54-61 | a value that is not an object is refused |
| SimState.SpawnersFromJson | src/main.cpp:87 | a converted array has one spawner per element, each the conversion of its element |
| SimState.StateFromJson | src/main.cpp:81-88 | a value that is not an object is refused |
| SimState.SpawnerRoundTrip | src/main.cpp:47-61 | `from_json(to_json(s)) == s` for every spawner |
| SimState.SpawnersRoundTrip | src/main.cpp:78 | the spawner array round-trips for every list |
| SimState.StateRoundTrip | src/main.cpp:72-88 | `from_json(to_json(s)) == s` for every state |
| SimState.StateIgnoresOtherMembers | src/main.cpp:81-88 | keys other than the five do not affect loading a state |
| SimState.SpawnerIgnoresOtherMembers | src/main.cpp:54-61 | keys other than the three do not affect loading a spawner |
| SpawnerList.Keep | src/main.cpp:408-411 | keeping the unmarked elements never lengthens the list, and with no marks keeps it whole |
| SpawnerList.Marks | src/main.cpp:398-401 | the `removes` indices mark exactly the positions they contain |
| SpawnerList.Erase | src/main.cpp:410 | `erase(begin() + i)`: one element shorter, the prefix kept, the rest shifted down by one |
| SpawnerList.EraseKept | src/main.cpp:408-411 | when no position up to `p` is marked, erasing `p` from the kept list equals also marking `p`: erasing from the back removes the right element |
| SpawnerList.EraseInReverse | src/main.cpp:408-411 | erasing ascending indices from the back removes exactly the marked spawners and keeps the order of the rest |
| Pipeline.Loops | src/main.cpp:874 | `for (i = 0; i < iterations; i++)` runs `iterations` times, or not at all when that is negative |
| Pipeline.Add1Effect | src/main.cpp:248-262 | one answer; a begun pass stores the one-group Add1 output on the read side of that field only; no field changes sides |
| Pipeline.Add2Effect | src/main.cpp:264-278 | one answer; a begun pass stores the full-volume Add2 output on the read side of that field only |
| Pipeline.DiffuseEffect | src/main.cpp:472-492 | one answer; a begun pass diffuses the read side into the write side with `dt` and the coefficient and swaps; a failed one changes no field |
| Pipeline.Project1Effect | src/main.cpp:494-520 | one answer; a begun pass writes pressure and divergence from the velocity and swaps both; nothing else moves |
| Pipeline.Project2Effect | src/main.cpp:522-540 | one answer; a begun pass relaxes the pressure from the divergence and swaps it |
| Pipeline.Project3Effect | src/main.cpp:542-572 | one answer; a begun pass writes the three velocity components from pressure and velocity and swaps all three |
| Pipeline.Advect1Effect | src/main.cpp:574-598 | one answer; writes the component's write side, swaps nothing, leaves the velocity's read sides intact |
| Pipeline.Advect2Effect | src/main.cpp:600-625 | one answer; a begun pass advects the density along the velocity with `dt` and swaps it |
| Pipeline.BoundaryPassEffect | src/main.cpp:627-722 | each Bnd pass takes one answer, samples the read side and changes only the write side of its field |
| Pipeline.BoundaryPassesEffect | src/main.cpp:727-731 | five answers; only the write side of the one field can change; with five failures nothing changes |
| Pipeline.BndEffect | src/main.cpp:724-733 | five answers, only that field touched, and it always changes sides: the field then reads what its write side holds |
| Pipeline.BndKeepsAllocation | src/main.cpp:724-733 | after Bnd the read side is allocated exactly when the old write side was |
| Pipeline.BndSwapsRegardless | src/main.cpp:724-733 | when none of the five passes begins, Bnd still swaps, so the field reads its stale write side |
| Pipeline.BoundVelocityEffect | src/main.cpp:880-882 | fifteen answers; only the velocity changes, and all three components change sides |
| Pipeline.VelocityStepEffect | src/main.cpp:876-882 | one velocity iteration makes 18 calls and touches only the velocity |
| Pipeline.VelocityDiffusionEffect | src/main.cpp:874-883 | `n` iterations make `18n` calls and touch only the velocity |
| Pipeline.PressureStepEffect | src/main.cpp:889-890 | one pressure iteration makes 6 calls and touches only the pressure |
| Pipeline.PressureSolveEffect | src/main.cpp:887-891 | `n` iterations make `6n` calls and touch only the pressure |
| Pipeline.ComputeDivergenceEffect | src/main.cpp:884-886 | 11 calls; only pressure and divergence change |
| Pipeline.SubtractGradientEffect | src/main.cpp:892-895 | 16 calls; only the velocity changes |
| Pipeline.ProjectionEffect | src/main.cpp:884-895 | `6n + 27` calls; the density is untouched |
| Pipeline.AdvectionEffect | src/main.cpp:896-901 | three answers, then three swaps: every component is advected along the velocity from before the first dispatch, and the old read sides become the write sides |
| Pipeline.VelocityAdvectionEffect | src/main.cpp:896-904 | 18 calls; only the velocity changes; each component's read index is back where it started |
| Pipeline.FinalProjectionEffect | src/main.cpp:905-907 | 3 calls; the density is untouched |
| Pipeline.DensityStepEffect | src/main.cpp:908-910 | 7 calls; only the density changes |
| Pipeline.TickStages | src/main.cpp:872-912 | the step is velocity diffusion, projection, velocity advection, the final projection and the density step, in that order |
| Pipeline.TickCalls | src/main.cpp:873-911 | one step makes `24 * iterations + 55` fallible calls, whatever the device answers |
| Pipeline.VelocityStepParity | src/main.cpp:876-882 | on a device that never fails, a velocity iteration returns every read index to where it was |
| Pipeline.VelocityDiffusionParity | src/main.cpp:874-883 | likewise for any number of iterations |
| Pipeline.PressureStepParity | src/main.cpp:889-890 | a pressure iteration leaves every read index as it was |
| Pipeline.PressureSolveParity | src/main.cpp:887-891 | likewise for any number of iterations |
| Pipeline.ProjectionParity | src/main.cpp:884-895 | the bounded projection leaves every read index as it was |
| Pipeline.FinalProjectionParity | src/main.cpp:905-907 | the final projection flips the velocity and the divergence, and the pressure twice, which leaves it in place |
| Pipeline.DensityStepParity | src/main.cpp:908-910 | the density step flips the density only |
| Pipeline.TickParity | src/main.cpp:873-911 | a full step on a device that never fails flips exactly the velocity, the divergence and the density |
| Pipeline.DensityOrder | src/main.cpp:908-910 | the density after the step is Bnd5 of the advection of the diffusion of the old density, advected along the velocity the step started the density stage with |
| Pipeline.BndLastPass | src/main.cpp:724-733 | when Bnd5 begins, the field then reads Bnd5's output, which sampled the field's read side before Bnd |
| Pipeline.ExecuteEffect | src/main.cpp:311-315 | the recorded clears run at submission: a slot holds 0 exactly when a clear named it; no read index moves |
| Pipeline.CreateFieldEffect | src/main.cpp:306-313 | create both textures, clear, swap, clear: on success two allocated slots, one swap, 4 calls and the clears of the write and then the new write slot, as far as their passes began |
| Pipeline.CreateFromFails | src/main.cpp:304-310 | a failed CreateCells submits nothing: every field is either untouched or holds only allocated, uncleared textures |
| Pipeline.CreateCellsFailureClearsNothing | src/main.cpp:296-317 | the same from the start of CreateCells |
| Pipeline.ExecuteClearsAll | src/main.cpp:311-315 | when both slots of every field were allocated and cleared, submission leaves every slot 0 |
| Pipeline.CreateFromReliable | src/main.cpp:304-316 | on a device that never fails the loop succeeds with 4 calls per field, and every field ends cleared and swapped once |
| Pipeline.CreateCellsReliable | src/main.cpp:296-317 | on a device that never fails CreateCells succeeds with 25 calls, clears both slots of all six fields and swaps each once |
| LegacyPipeline.Begun | main.cpp:303-310 | how many of at most `n` passes begin before the first failure |
| LegacyPipeline.PassEffect | main.cpp:305-318 | one loop iteration takes one answer; a begun pass writes and swaps its target only, a failed one changes no field |
| LegacyPipeline.PassIsStage | main.cpp:305-318 | a loop iteration of the earlier Diffuse or Project2 is the current program's single-pass Diffuse or Project2 |
| LegacyPipeline.PassSwaps | main.cpp:305-318 | a begun pass flips its target's read index |
| LegacyPipeline.IterateStops | main.cpp:303-310 | the loop is the first `k` passes, plus one failed call when `k < n`: it returns at the first pass that does not begin |
| LegacyPipeline.IterateCalls | main.cpp:303-319 | `k + 1` calls when a pass failed, `n` when none did |
| LegacyPipeline.IterateChanges | main.cpp:300-320 | the loop touches only its target field |
| LegacyPipeline.IterateTarget | main.cpp:303-319 | the target's read index moves by the parity of the number of begun passes |
| LegacyPipeline.IterateAllocation | main.cpp:300-320 | the loop allocates or frees no slot |
| LegacyPipeline.IterateEffect | main.cpp:300-320 | calls, touched field, read-index parity and allocation of the loop, together |
| LegacyPipeline.BegunReliable | main.cpp:303-310 | on a device that never fails every pass begins |
| LegacyPipeline.IterateReliable | main.cpp:303-319 | on such a device the loop is `n` passes, `n` calls, and flips its target when `n` is odd |
| LegacyPipeline.DiffuseEffect | main.cpp:300-320 | Diffuse touches one field and makes at most `iterations` calls, exactly that many and flipping by parity on a device that never fails |
| LegacyPipeline.Project2Effect | main.cpp:345-363 | Project2 touches only the pressure, with the same call and parity bounds |
| LegacyPipeline.VelocityDiffusionParity | main.cpp:568-570 | the three diffusions make `3n` calls, touch only the velocity and flip it when `n` is odd |
| LegacyPipeline.ProjectionParity | main.cpp:571-573 | `n + 2` calls; the density is untouched; velocity and divergence flip, and the pressure flips when `n` is even |
| LegacyPipeline.DensityStepParity | main.cpp:583-584 | `n + 1` calls; only the density changes, and it flips when `n` is even |
| LegacyPipeline.TickParity | main.cpp:566-586 | `6n + 8` calls; the velocity and the density flip when `n` is even; pressure and divergence end in place |
| LegacyPipeline.TickAdvection | main.cpp:574-579 | the step is the advection between two projections; each component is advected along the first projection's velocity and read after the swaps |
| LegacyPipeline.TickDensityLast | main.cpp:568-582 | nothing before the density step touches the density |
| LegacyPipeline.VelocityDiffusionKeepsDensity | main.cpp:568-570 | the velocity diffusion does not touch the density |
| LegacyPipeline.ProjectionKeepsDensity | main.cpp:571-573 | a projection does not touch the density |
| App.EditAll | src/main.cpp:379-397 | one edited spawner per spawner of the table: no row adds or loses one |
| App.Removed | src/main.cpp:398-401 | one remove flag per spawner |
| App.PressedAscending | src/main.cpp:372-401 | the collected `removes` are strictly ascending and in range: what erasing from the back needs |
| App.PressedMarks | src/main.cpp:398-401 | the collected indices mark exactly the rows whose Remove was pressed |
| App.InjectionsAppend | src/main.cpp:373-407 | one more spawner is one more Add1, after all the others |
| App.InjectionsEffect | src/main.cpp:402-405 | the spawners' Add1s take one answer each, move no read index and change no write side |
| App.SpawnersAfterFrame | src/main.cpp:370-423 | after the frame the list is the edited spawners not removed, then the new default spawner when Add was pressed; without removals or Add, just the edited list |
| App.UpdateProceeds | src/main.cpp:849-912 | past both acquisitions the frame is the settings, the spawner table and the gated step |
| App.UpdateAbandoned | src/main.cpp:851-869 | a failed acquisition or a window with no area changes only the call count, by one or two |
| App.UpdateGate | src/main.cpp:872-911 | once both acquisitions succeed, the cooldown is reset to the Delay slider exactly when it had run out, and is otherwise kept; delay, iterations, diffusion and viscosity follow the sliders and the size follows a resize |
| App.AdvanceOpensGate | src/main.cpp:960-963 | after `cooldown -= dt` the step runs exactly when the elapsed time reaches the cooldown, otherwise nothing moves and the cooldown stays positive |
| App.LoadOutcomes | src/main.cpp:343-368 | no file or an unreadable file changes nothing; a conversion error escapes and assigns nothing; a good file replaces the state and recreates the cells at the new size |
| App.SaveThenLoad | src/main.cpp:319-368 | converting the JSON value that Save produced back with LoadCallback's conversion restores the same state and recreates the cells |
| App.DroppedLoads | src/main.cpp:992-994 | a dropped file is LoadCallback, and an escaping error ends event handling |
| App.EventsEffect | src/main.cpp:964-999 | events never change delay, cooldown or dt; without an escape the loop goes on exactly when no Quit came; camera and quit events alone change nothing |
| App.IterationOutcomes | src/main.cpp:958-1006 | an iteration ends the program on a Quit or an escaped error, before Update; otherwise it runs Update on the world after the events |
| LegacyApp.UpdateAbandoned | main.cpp:545-563 | a failed acquisition or a window with no area changes only the call count |
| LegacyApp.UpdateProceeds | main.cpp:564-586 | past both acquisitions the frame is the widgets and then the gated step |
| LegacyApp.WidgetsSettings | main.cpp:240-293 | the settings follow the sliders, the size follows the Size slider, and with no button used and no resize the fields are untouched |
| LegacyApp.UpdateGate | main.cpp:566-586 | once both acquisitions succeed, the step runs exactly when `cooldown <= 0`, on the world after the widgets and with this frame's sliders, and the cooldown becomes the Delay slider; otherwise the frame is only the widgets |
| LegacyApp.GatedOutcome | main.cpp:566-586 | with the cooldown run out, the globals get one step and `cooldown = delay`; otherwise they are untouched |
| LegacyApp.AdvanceOpensGate | main.cpp:625-628 | after `cooldown -= dt` the step runs exactly when the elapsed time reaches the cooldown |
| LegacyApp.EventsEffect | main.cpp:629-657 | events change only the cells; the loop goes on exactly when no Quit came; without an R key nothing changes |
| LegacyApp.IterationOutcomes | main.cpp:623-663 | a Quit ends the loop before Update; otherwise Update runs, on the advanced world when no R came |
| Solver.Simulation.constructor | src/main.cpp:126-145 | six default textures, the default `State` (128, 5, 0.01, 0.01, no spawners), `delay` 16, cooldown and dt 0 |
| Solver.Simulation.Add1 | src/main.cpp:248-262 | the textures and the device end as `Pipeline.Add1` says |
| Solver.Simulation.Add2 | src/main.cpp:264-278 | as `Pipeline.Add2` says |
| Solver.Simulation.Clear | src/main.cpp:280-294 | one answer; the clear is recorded for the write slot when the pass begins |
| Solver.Simulation.Diffuse | src/main.cpp:472-492 | as `Pipeline.Diffuse` says |
| Solver.Simulation.Project1 | src/main.cpp:494-520 | as `Pipeline.Project1` says |
| Solver.Simulation.Project2 | src/main.cpp:522-540 | as `Pipeline.Project2` says |
| Solver.Simulation.Project3 | src/main.cpp:542-572 | as `Pipeline.Project3` says |
| Solver.Simulation.Advect1 | src/main.cpp:574-598 | as `Pipeline.Advect1` says |
| Solver.Simulation.Advect2 | src/main.cpp:600-625 | as `Pipeline.Advect2` says |
| Solver.Simulation.Bnd1 | src/main.cpp:627-645 | as `Pipeline.Bnd1` says: groups `(g, g, 2)` |
| Solver.Simulation.Bnd2 | src/main.cpp:647-665 | as `Pipeline.Bnd2` says: groups `(g, 2, g)` |
| Solver.Simulation.Bnd3 | src/main.cpp:667-685 | as `Pipeline.Bnd3` says: groups `(2, g, g)` |
| Solver.Simulation.Bnd4 | src/main.cpp:687-703 | as `Pipeline.Bnd4` says: one group, no type |
| Solver.Simulation.Bnd5 | src/main.cpp:705-722 | as `Pipeline.Bnd5` says: the full volume |
| Solver.Simulation.BoundaryPasses | src/main.cpp:727-731 | as `Pipeline.BoundaryPasses` says |
| Solver.Simulation.Bnd | src/main.cpp:724-733 | as `Pipeline.Bnd` says |
| Solver.Simulation.SwapTexture | src/main.cpp:899-901 | one texture swapped, nothing else |
| Solver.Simulation.CreateField | src/main.cpp:306-313 | as `Pipeline.CreateField` says |
| Solver.Simulation.Submit | src/main.cpp:315 | the recorded clears run in order |
| Solver.Simulation.CreateCells | src/main.cpp:296-317 | as `Pipeline.CreateCells` says, success flag included |
| Solver.Simulation.FreeField | src/main.cpp:1010 | one field freed |
| Solver.Simulation.FreeAll | src/main.cpp:1008-1011 | every field freed; no device call |
| Solver.Simulation.BoundVelocity | src/main.cpp:880-882 | as `Pipeline.BoundVelocity` says |
| Solver.Simulation.VelocityStep | src/main.cpp:877-882 | as `Pipeline.VelocityStep` says |
| Solver.Simulation.PressureStep | src/main.cpp:889-890 | as `Pipeline.PressureStep` says |
| Solver.Simulation.ComputeDivergence | src/main.cpp:884-886 | as `Pipeline.ComputeDivergence` says |
| Solver.Simulation.SubtractGradient | src/main.cpp:892-895 | as `Pipeline.SubtractGradient` says |
| Solver.Simulation.Advection | src/main.cpp:896-901 | as `Pipeline.Advection` says |
| Solver.Simulation.VelocityAdvection | src/main.cpp:896-904 | as `Pipeline.VelocityAdvection` says |
| Solver.Simulation.FinalProjection | src/main.cpp:905-907 | as `Pipeline.FinalProjection` says |
| Solver.Simulation.DensityStep | src/main.cpp:908-910 | as `Pipeline.DensityStep` says |
| Solver.Simulation.VelocityDiffusion | src/main.cpp:874-883 | the loop ends where `n` iterations of `Pipeline.VelocityDiffusion` do |
| Solver.Simulation.PressureSolve | src/main.cpp:887-891 | the loop ends where `n` iterations of `Pipeline.PressureSolve` do |
| Solver.Simulation.Projection | src/main.cpp:884-895 | as `Pipeline.Projection` says |
| Solver.Simulation.DiffuseAndProject | src/main.cpp:874-895 | the first half of the step |
| Solver.Simulation.AdvectAndCarry | src/main.cpp:896-910 | the second half of the step |
| Solver.Simulation.Tick | src/main.cpp:872-910 | the step with this frame's settings ends as `Pipeline.Tick` says |
| Solver.Simulation.SetState | src/main.cpp:366 | the state is replaced and nothing else changes |
| Solver.Simulation.Recreate | src/main.cpp:447 | only the textures and the device change, as `Pipeline.CreateCells` says |
| Solver.Simulation.Settings | src/main.cpp:445-457 | the world becomes `App.Settings` of the old world |
| Solver.Simulation.DrawSpawners | src/main.cpp:373-407 | returns the edited spawners and the pressed indices, after one Add1 per spawner in order |
| Solver.Simulation.DrawRow | src/main.cpp:379-405 | one row: the edited spawner, then its Add1 |
| Solver.Simulation.UpdateSpawners | src/main.cpp:370-423 | the world becomes `App.UpdateSpawners` of the old world |
| Solver.Simulation.SetSpawners | src/main.cpp:408-421 | only the spawner list changes |
| Solver.Simulation.SetCooldown | src/main.cpp:911 | only the cooldown changes |
| Solver.Simulation.Gated | src/main.cpp:872-912 | the world becomes `App.Gated` of the old world |
| Solver.Simulation.Update | src/main.cpp:849-924 | the world becomes `App.Update` of the old world |
| Solver.Simulation.Frame | src/main.cpp:870-912 | the settings, then the spawners, then the gated step |
| Solver.Simulation.Advance | src/main.cpp:960-963 | `dt` is the elapsed time and the cooldown runs down by it |
| Solver.Simulation.LoadCallback | src/main.cpp:343-368 | the world and the escaped error are `App.Load`'s |
| Solver.Simulation.SaveCallback | src/main.cpp:319-341 | writes `App.Save`'s JSON value, and that value converts back to the current state |
| Solver.Simulation.Events | src/main.cpp:964-999 | the loop over the events ends as `App.Events` says |
| Solver.Simulation.Iteration | src/main.cpp:958-1006 | one iteration of the main loop ends as `App.Iteration` says |
| LegacySolver.Simulation.constructor | main.cpp:52-61 | six default textures, size 128, 5 iterations, delay 16, cooldown and dt 0, diffusion and viscosity 0.01 |
| LegacySolver.Simulation.Add1 | main.cpp:160-174 | as `Pipeline.Add1` says |
| LegacySolver.Simulation.Add2 | main.cpp:176-190 | as `Pipeline.Add2` says |
| LegacySolver.Simulation.Clear | main.cpp:192-206 | one answer; the clear is recorded when the pass begins |
| LegacySolver.Simulation.DiffusePass | main.cpp:305-318 | one pass of the loop, reporting whether it began |
| LegacySolver.Simulation.Diffuse | main.cpp:300-320 | the loop, with its early return, ends as `LegacyPipeline.Diffuse` says |
| LegacySolver.Simulation.Project1 | main.cpp:322-343 | as `Pipeline.Project1` says |
| LegacySolver.Simulation.RelaxPass | main.cpp:350-361 | one pass of the loop, reporting whether it began |
| LegacySolver.Simulation.Project2 | main.cpp:345-363 | the loop, with its early return, ends as `LegacyPipeline.Project2` says |
| LegacySolver.Simulation.Project3 | main.cpp:365-389 | as `Pipeline.Project3` says |
| LegacySolver.Simulation.Advect1 | main.cpp:391-410 | as `Pipeline.Advect1` says |
| LegacySolver.Simulation.Advect2 | main.cpp:412-431 | as `Pipeline.Advect2` says |
| LegacySolver.Simulation.SwapTexture | main.cpp:577-579 | one texture swapped, nothing else |
| LegacySolver.Simulation.CreateField | main.cpp:218-225 | as `Pipeline.CreateField` says |
| LegacySolver.Simulation.Submit | main.cpp:227 | the recorded clears run in order |
| LegacySolver.Simulation.CreateCells | main.cpp:208-229 | as `Pipeline.CreateCells` says |
| LegacySolver.Simulation.FreeField | main.cpp:667 | one field freed |
| LegacySolver.Simulation.FreeAll | main.cpp:665-668 | every field freed; no device call |
| LegacySolver.Simulation.VelocityDiffusion | main.cpp:568-570 | as `LegacyPipeline.VelocityDiffusion` says |
| LegacySolver.Simulation.Projection | main.cpp:571-573 | as `LegacyPipeline.Projection` says |
| LegacySolver.Simulation.Advection | main.cpp:574-579 | as `Pipeline.Advection` says |
| LegacySolver.Simulation.DensityStep | main.cpp:583-584 | as `LegacyPipeline.DensityStep` says |
| LegacySolver.Simulation.DiffuseAndProject | main.cpp:568-573 | the first half of the step |
| LegacySolver.Simulation.AdvectAndCarry | main.cpp:574-584 | the second half of the step |
| LegacySolver.Simulation.Tick | main.cpp:566-584 | the step ends as `LegacyPipeline.Tick` says |
| LegacySolver.Simulation.SetSettings | main.cpp:240-243 | the four sliders assign their globals and nothing else |
| LegacySolver.Simulation.SetSize | main.cpp:244 | only the size changes |
| LegacySolver.Simulation.SetCooldown | main.cpp:585 | only the cooldown changes |
| LegacySolver.Simulation.Recreate | main.cpp:246 | only fields and device change, as CreateCells says |
| LegacySolver.Simulation.AddAll | main.cpp:262-267 | Add2 on the three components |
| LegacySolver.Simulation.AddSingle | main.cpp:272-277 | Add1 on the three components at one cell |
| LegacySolver.Simulation.AddDensity | main.cpp:283-286 | Add1 on the density |
| LegacySolver.Simulation.VelocityButtons | main.cpp:262-277 | the two velocity buttons, in order |
| LegacySolver.Simulation.Buttons | main.cpp:262-286 | the three Add buttons, in order |
| LegacySolver.Simulation.Widgets | main.cpp:240-293 | the world becomes `LegacyApp.Widgets` of the old world |
| LegacySolver.Simulation.Gated | main.cpp:566-586 | the world becomes `LegacyApp.Gated` of the old world |
| LegacySolver.Simulation.Acquire | main.cpp:545-563 | it goes on exactly when both acquisitions succeed and the window has an area; one call, or two |
| LegacySolver.Simulation.Update | main.cpp:543-593 | the world becomes `LegacyApp.Update` of the old world |
| LegacySolver.Simulation.Advance | main.cpp:625-628 | `dt` is the elapsed time and the cooldown runs down by it |
| LegacySolver.Simulation.Events | main.cpp:629-657 | the loop over the events ends as `LegacyApp.Events` says |
| LegacySolver.Simulation.Iteration | main.cpp:623-663 | one iteration of the main loop ends as `LegacyApp.Iteration` says |

## Left out

- Rendering is not modelled: `RenderCombined`, `RenderDebug`, `RenderOutline`, `RenderVoxel`, `Letterbox`, `RenderImGui` and `UpdateViewProj` only draw and do not touch the simulation.
- The camera is not modelled. Mouse wheel and motion events are `Camera` events with no effect, and the `focused`/`hovered` flags are dropped.
- The viewer radio buttons are left out: src/main.cpp:459-462 and main.cpp:249-254. They only choose what is drawn.
- `isSelected` and `SetItemDefaultFocus` in the spawner combo box are left out. They only move keyboard focus.
- Start-up and shut-down are not modelled as operations of their own. That covers Init, CreatePipelines, CreateSamplers, CreateTextures and CreateMeshes, and the release calls after the loop other than the texture Free loop. The constructors give the globals' initial values. The start-up `LoadCallback` on a command-line file and the first `CreateCells` are the modelled operations of those names.
- Compute shaders are uninterpreted: a texture holds a term naming the kernel and its inputs, and only Clear's result (0) is interpreted. SDL_BindGPUComputeSamplers, the sampler and the pipelines are not modelled; each kernel's inputs are listed in its output term instead.
- Floating point is not computed. Floats are kept as bit patterns and only passed around.
- config.hpp is not part of this model. `THREADS` (`THREADS_3D` in the earlier program) is a parameter with value at least 1.
- Time is a parameter. `dt` is the whole number of milliseconds of the last frame, as `SDL_GetTicks` differences are, so `cooldown -= dt` stays exact on `int`. The float-to-int conversion of that statement is not modelled.
- A compute pass's effect applies when it is recorded, not when its command buffer is submitted. The Update command buffer is always submitted once recorded, so the order is the same. CreateCells' clears are the exception and are modelled as recorded commands that run at submission.
- Submitting a command buffer is taken to succeed. The source ignores the result of `SDL_SubmitGPUCommandBuffer` (src/main.cpp:315, 923; main.cpp:227, 591), so no answer is consumed for it.
- The failure of `SDL_BeginGPURenderPass` is outside the model, together with the rendering it starts (src/main.cpp:742, 773, 839; main.cpp:448, 472, 533). Its failure branches only skip drawing and take no answer of the oracle.
- Command buffers that CreateCells acquires and then leaves unsubmitted on failure are not tracked as resources.
- Texture and buffer handles are values in sequences. Release calls are the switch to null. Leaks, double releases and SDL's own validation are not modelled.
- Threads and locking are left out. The file-dialog callbacks run on another thread under `mutex`. The model treats `LoadCallback` and `SaveCallback` as whole operations on the globals, and treats rendering at the same time as out of scope.
- File I/O and JSON text are left out. What a dialog led to (no file, a file that does not open, a file that does not parse, the parsed JSON) is an input. Printing with `dump(4)` and parsing text are not modelled.
- SimState.StateFromJson follows the layout `to_json` writes but is stricter than nlohmann in four ways. A float or a boolean where an integer is expected, and an integer or a boolean where a float is expected, are refused with `WrongType`; nlohmann converts between numbers and turns a boolean into 0 or 1. A missing member is refused with `MissingMember`; nlohmann's const `operator[]` only asserts that the key is present, so the source has undefined behaviour there rather than an error. A texture value outside 0 to 5 is refused; the source stores any value in the enumeration.
- SimState.SpawnerFromJson is stricter in the same four ways, for `texture`, the elements of `position` and `value`. It also refuses a `position` shorter than three elements, for which nlohmann's const `operator[]` has undefined behaviour.
- App.SaveThenLoad and Solver.Simulation.SaveCallback prove the round trip through the JSON value only. The file is written with `dump(4)`, and nlohmann prints a NaN or infinite float as `null`. Loading such a file then fails at `state = json` and the exception escapes, so the file round trip holds only when every float of the state is finite. A spawner's value comes from an unbounded `DragFloat`, so it can be non-finite.
- UploadBuffer.UploadBuffer.Grow and UploadBuffer.UploadBuffer.Upload do not model byte sizes. The source asks SDL for `capacity * sizeof(T)` bytes in a `uint32`, and that product wraps once it reaches 2^32. The model allocates `capacity` elements regardless, so it matches the source only while `capacity * sizeof(T) < 2^32`. Past that the source's buffers are too small and `Emplace` writes past the end of the mapped transfer buffer.
- UploadBuffer.UploadBuffer.Emplace requires fewer than 2^31 staged elements. Past that, the `uint32` doubling in the growth check wraps and the capacity no longer grows. The wrap itself is modelled in `NextCapacity`, but a staging area that large is not.
- UploadBuffer.UploadBuffer.Upload: the copy takes effect when it is recorded; that the GPU performs it later, at submission, is not modelled.
- An escaped JSON conversion error leaves the event loop and the frame. Unwinding out of `main` and terminating the program are not modelled further; the error is returned.
- SDL_WaitForGPUIdle (main.cpp:592) and SDL_CancelGPUCommandBuffer have no effect on the fields and are left out.
- Gpu.GroupCount computes `size + threads - 1` on unbounded integers. The source does this in `int`, which overflows for a loaded `size` near 2^31; that 32-bit overflow is not modelled.
- The slider ranges are not enforced. Slider values, including `static int center` and the injected positions and velocities, are inputs of the frame. The model accepts any value, including out-of-range ones that a loaded file, a Size change or ctrl+click input can produce.
