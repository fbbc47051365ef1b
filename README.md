# A verified model of the window loop and Vulkan setup rules of a voxel-game front end

The system opens a window, buffers user input, advances the game on a fixed 250 ms
tick and sets up a Vulkan presentation pipeline. This project models, in Dafny, the
parts of it that are exact rules rather than calls into `winit`, `ash` or `vulkano`:

- the event loop of `src/gfx/window.rs` (class `WindowLoop.Window`): inputs are
  appended to a buffer in arrival order; each `MainEventsCleared` adds the elapsed time
  to `exec_time`, runs `update(TICK_DUR, inputs)` while strictly more than one tick has
  accumulated, clears the buffer once after the last tick and calls `render` once. The
  `update`/`render` calls and the clear are a ghost trace of `Action`s; durations are
  nanoseconds in a `nat`; the clock reading is a parameter;
- the event translators of `src/gfx/events.rs` and the `Input` type and `Controls`
  defaults of `src/game/input.rs`, with Rust's saturating `f64 as i32` cast written out;
- the per-frame render state of `src/gfx/vulkan/state.rs` (class `RenderState.State`),
  with GPU futures as opaque tokens;
- the swapchain configuration rules and teardown of `src/gfx/vulkan/swapchain.rs`;
- the first-match physical-device and queue-family selection of
  `src/gfx/vulkan/device.rs`, which `src/gfx/vulkan/vulkan.rs` repeats and the model
  reuses there;
- recreation and teardown order in `src/gfx/vulkan/vulkan.rs` (class
  `VulkanContext.Vulkan`), as a ghost trace of GPU calls.

The source files come from different snapshots of the repository (`ash` and `vulkano`)
and do not fit together; each module models its own file. Panics (`expect`, indexing an empty
list, a debug-build overflow) are `Err(Panic(msg))`. The two `unwrap`s in the modelled code
are preconditions instead: `duration_since(..).unwrap()` (src/gfx/window.rs:103) is
`requires curr_time <= now` on `Handle`, `Window.Cycle` and `Window.HandleEvent`, and
`prev_frame.as_mut().unwrap()` (src/gfx/vulkan/state.rs:42) is `requires prevFrame.Some?`
on `State.CleanupFrame`.

The loop test is strict (`exec_time > TICK_DUR`), so exactly 250 ms accumulated runs
no tick (`BoundaryTick`). E > 0 accumulated nanoseconds give (E - 1) / 250 ms ticks
(`TickCountClosedForm`). The carry is at most one tick, and positive when E > 0
(`TickConservation`). Cycles at 0, 260 and 600 ms carry 100 ms (`ThreeCycleScenario`).

The modelled files do not acquire, submit or present images, and nothing in them sets
`State.stale` to true.

Files: `base.dfy` (modules `Ints`, `Wrappers`), `input.dfy` (`GameInput`),
`events.dfy` (`Events`), `window.dfy` (`WindowLoop`), `render_state.dfy`
(`RenderState`), `swapchain.dfy` (`SwapchainConfig`), `device.dfy` (`DeviceSetup`),
`vulkan.dfy` (`VulkanContext`).

## Model

| member | source | states |
|---|---|---|
| GameInput.NewControls | src/game/input.rs:39-54 | all six movement flags and both mouse buttons are off; mouse position and delta are (0, 0) |
| Events.CastToI32 | src/gfx/events.rs:20 | `x as i32` on a double: truncation toward zero, saturation at i32::MIN/MAX, NaN gives 0 |
| Events.CastExact | src/gfx/events.rs:20 | a double holding a 32-bit integer casts back to exactly that integer |
| Events.CastTowardZero | src/gfx/events.rs:20 | the cast of a finite value keeps its sign and never exceeds it in magnitude |
| Events.FromWindow | src/gfx/events.rs:5-16 | an input is produced exactly for keyboard, mouse-button and character events; key scancode, virtual keycode and state, button and state, and the character are copied unchanged |
| Events.FromDevice | src/gfx/events.rs:18-23 | an input is produced exactly for mouse motion, as `MouseDelta` of the cast deltas |
| Events.TranslatorsDisjoint | src/gfx/events.rs:5-23 | window events never yield a mouse delta; device events yield nothing else |
| Events.TranslationOnto | src/game/input.rs:8-20 | every one of the four kinds of `Input` is produced by some event: mouse deltas by the motion event carrying them, the rest by a window event |
| WindowLoop.TickCount | src/gfx/window.rs:106-113 | the strict loop runs at least once exactly when more than 250 ms has accumulated, and its ticks never use up all the accumulated time |
| WindowLoop.Carry | src/gfx/window.rs:106-113 | what the loop leaves is at most the accumulated time and at most one tick, positive iff something had accumulated, and all of it when at most one tick had |
| WindowLoop.TickConservation | src/gfx/window.rs:106-113 | after draining, carried time + ticks × 250 ms = accumulated time; carried time ≤ 250 ms, and positive unless nothing had accumulated |
| WindowLoop.TickCountClosedForm | src/gfx/window.rs:106 | E accumulated nanoseconds run max(0, ⌈E/T⌉ − 1) = (E − 1) / T ticks |
| WindowLoop.BoundaryTick | src/gfx/window.rs:101-106 | exactly 250 ms runs no tick and is carried whole; 1 ns more runs one tick |
| WindowLoop.TickSplit | src/gfx/window.rs:103-113 | splitting elapsed time over two cycles changes neither the total ticks nor the final carry |
| WindowLoop.CycleActionsShape | src/gfx/window.rs:106-115 | in one cycle every `update` gets 250 ms and the same inputs; the clear comes once, right after the last tick, only if a tick ran; `render` comes once, last |
| WindowLoop.CycleActions | src/gfx/window.rs:106-115 | a cycle's callbacks end with `render`; the buffer is cleared iff more than 250 ms had accumulated; the first callback is an `update(TICK_DUR, inputs)` exactly then, else the `render` |
| WindowLoop.Handle | src/gfx/window.rs:78-116 | the closure sets `Exit` exactly on a close request and `Poll` otherwise; `MainEventsCleared` resets the clock to now, leaves at most one tick accumulated and either empties or keeps the buffer; any other event keeps the clock and accumulated time and appends at most one input, keeping the buffer as a prefix |
| WindowLoop.HandleActions | src/gfx/window.rs:78-116 | only `MainEventsCleared` calls back, and its callbacks always end with exactly the `render` |
| WindowLoop.CloseRequestExits | src/gfx/window.rs:79-86 | control flow is `Exit` exactly after a close request, which pushes nothing; otherwise it is reset to `Poll` |
| WindowLoop.CycleConservesTime | src/gfx/window.rs:103-113 | a cycle resets the clock to now, carries at most one tick, conserves time, runs a tick iff more than 250 ms accumulated, and empties the buffer iff a tick ran |
| WindowLoop.InputsInArrivalOrder | src/gfx/window.rs:88-98 | between cycles the buffer grows by exactly the translated inputs in arrival order; untranslated events leave it and the clock alone |
| WindowLoop.TicksDependOnTotalTime | src/gfx/window.rs:1-6 | over any run of cycles with a non-decreasing clock, the number of `update` calls and the final carry depend only on the total elapsed time (replayability) |
| WindowLoop.ThreeCycleScenario | src/gfx/window.rs:100-116 | cycles at 0, 260 ms and 600 ms run two ticks in all and carry 100 ms |
| WindowLoop.Window.constructor | src/gfx/window.rs:58-60 | a new window has the clock at now, nothing accumulated, nothing buffered |
| WindowLoop.Window.Cycle | src/gfx/window.rs:100-116 | the `MainEventsCleared` arm with its loop: new `exec_time` is the carry of old `exec_time` + elapsed, the buffer is empty iff a tick ran, and the trace grows by that cycle's ticks, clear and render |
| WindowLoop.Window.HandleEvent | src/gfx/window.rs:78-120 | the event closure: the new state and the callbacks are those of the pure `Handle`/`HandleActions` step |
| RenderState.State.constructor | src/gfx/vulkan/state.rs:16-31 | not stale, previous frame the already-complete future of the device, viewports exactly `[viewport]`, every other dynamic-state field `None` |
| RenderState.State.SetViewport | src/gfx/vulkan/state.rs:33-35 | viewports become exactly `[viewport]`; no other dynamic-state field, nor `stale` nor `prev_frame`, changes |
| RenderState.State.ReplaceFrame | src/gfx/vulkan/state.rs:37-39 | the previous frame becomes `Some(frame)`; nothing else changes |
| RenderState.State.CleanupFrame | src/gfx/vulkan/state.rs:41-43 | requires a previous frame (the `unwrap`); records cleanup of that future and changes nothing else |
| RenderState.RunCalls | src/gfx/vulkan/state.rs:33-43 | any sequence of `set_viewport`, `replace_frame` and `cleanup_frame` calls on a state with a previous frame keeps one, never changes `stale`, and changes no dynamic-state field but the viewports |
| RenderState.FrameSequence | src/gfx/vulkan/state.rs:16-43 | one client sequence (new, cleanup, set_viewport, replace_frame, cleanup) keeps the previous frame and ends with the submitted future, the resized viewport and both cleanups recorded |
| SwapchainConfig.ImageCount | src/gfx/vulkan/swapchain.rs:33-40 | the count is min + 1 capped by a positive max: at most min + 1, at most max when max > 0, equal to one of them, at least 1 |
| SwapchainConfig.ImageCountAtLeastMin | src/gfx/vulkan/swapchain.rs:33-40 | with max = 0 or max ≥ min the count is at least min, and exactly min + 1 when max = 0 or max > min |
| SwapchainConfig.ChooseExtent | src/gfx/vulkan/swapchain.rs:42-48 | a current width of u32::MAX selects the window size, any other width the current extent unchanged |
| SwapchainConfig.ChooseTransform | src/gfx/vulkan/swapchain.rs:50-57 | IDENTITY iff supported (or already current); otherwise the current transform |
| SwapchainConfig.ChoosePresentMode | src/gfx/vulkan/swapchain.rs:63-67 | MAILBOX iff listed, otherwise FIFO |
| SwapchainConfig.FirstFormat | src/gfx/vulkan/swapchain.rs:25-27 | element 0 of the formats; an empty list panics |
| SwapchainConfig.CreateInfo | src/gfx/vulkan/swapchain.rs:17-83 | the create info uses format 0, the capped image count, the chosen extent, transform and present mode; it fails iff there is no format or min + 1 overflows |
| SwapchainConfig.MakeViews | src/gfx/vulkan/swapchain.rs:89-115 | one view per image, in the same order, each with the swapchain's format |
| SwapchainConfig.NewSwapchain | src/gfx/vulkan/swapchain.rs:89-122 | the swapchain keeps its handle and images and holds the view of every image, in order |
| SwapchainConfig.Destroy | src/gfx/vulkan/swapchain.rs:126-140 | every image view is destroyed, in order, then the swapchain last |
| SwapchainConfig.DestroyOrder | src/gfx/vulkan/swapchain.rs:133-138 | for a swapchain over distinct images, teardown destroys the swapchain once and last, the view of every image, and nothing twice |
| DeviceSetup.FirstSuitableFamily | src/gfx/vulkan/device.rs:31-49 | the lowest-index family having both GRAPHICS and surface support, or none iff no family has both |
| DeviceSetup.FirstMatch | src/gfx/vulkan/device.rs:24-52 | the first device in enumeration order with such a family, with its lowest such family, or none iff no device has one |
| DeviceSetup.SelectPhysicalDevice | src/gfx/vulkan/device.rs:24-53 | the first-match selection, panicking with "no suitable Vulkan physical device" exactly when nothing qualifies |
| DeviceSetup.FirstMatchUnique | src/gfx/vulkan/device.rs:24-53 | at most one device and family satisfy the first-match rule |
| DeviceSetup.NewDevice | src/gfx/vulkan/device.rs:14-84 | fails exactly when nothing qualifies; otherwise stores the chosen physical device, one queue-create entry for the chosen family, and queue 0 of it |
| DeviceSetup.NewDeviceQueueIsRequested | src/gfx/vulkan/device.rs:55-77 | the stored queue is queue 0 of the one requested family, which can draw and present |
| DeviceSetup.Destroy | src/gfx/vulkan/device.rs:87-91 | the logical device is destroyed |
| VulkanContext.Configure | src/gfx/vulkan/vulkan.rs:104-163 | same selection as `Device::new`, queue 0 of the chosen family, surface format element 0 of the chosen device's formats; panics when nothing qualifies or there is no format |
| VulkanContext.ConfigureIsFirstMatch | src/gfx/vulkan/vulkan.rs:104-136 | the device is the first one with a drawable, presentable family, and the family its first such |
| VulkanContext.TeardownIsSafe | src/gfx/vulkan/vulkan.rs:240-253 | the `Drop` order destroys no object before one that depends on it, destroys all five, and none twice |
| VulkanContext.Vulkan.constructor | src/gfx/vulkan/vulkan.rs:104-197 | stores the physical device, present queue and surface format that `Configure` chooses from the enumerated devices, and the handles; the first swapchain is built from the window's inner size |
| VulkanContext.Vulkan.CloneDevice | src/gfx/vulkan/vulkan.rs:201-203 | returns the same device |
| VulkanContext.Vulkan.GetSurfaceFormat | src/gfx/vulkan/vulkan.rs:205-207 | returns the stored surface format |
| VulkanContext.Vulkan.RecreateSwapchain | src/gfx/vulkan/vulkan.rs:221-237 | waits for idle, then drops the old swapchain, then installs a new one built from the current inner size; every drop so far followed a wait |
| VulkanContext.Vulkan.Drop | src/gfx/vulkan/vulkan.rs:240-253 | swapchain, device, surface, debug messenger, instance, in that order |
| VulkanContext.Lifetime | src/gfx/vulkan/vulkan.rs:104-253 | create with the choices of `Configure`, two recreations and drop give exactly the expected call trace, each swapchain built for the size current at its build |

## Left out

- WindowLoop.Window.Cycle: reads the clock once. The source calls `SystemTime::now()` twice (src/gfx/window.rs:103-104), so the time between the two calls is lost and is not modelled; `now` is a parameter, not the wall clock.
- WindowLoop.Handle: `duration_since(..).unwrap()` panics on a clock that went backwards (src/gfx/window.rs:103-104); the panic is not modelled as a value: `Handle`, `Window.Cycle` and `Window.HandleEvent` require `curr_time <= now`.
- `Duration` overflow in `exec_time += ...`: durations are unbounded `nat`s.
- `Window::new` building the `winit` window, `on_update`/`on_render` registration and the `unwrap`s in `run` of callbacks never registered: foreign calls and setup glue. `winit` keeping `ControlFlow::Exit` once set is `winit`'s behaviour.
- Payloads of `winit` events that the translators never read (positions, paths, scale factors, touches).
- Events.CastToI32: takes any real for a finite double; which reals are doubles is not modelled (floating point).
- GPU future semantics (`sync::now`, `cleanup_finished`, chaining, fences): futures are opaque tokens.
- The `unwrap`s on Vulkan query and create results (`get_physical_device_surface_*`, `create_swapchain`, `get_swapchain_images`, `create_image_view`, `create_device`, `enumerate_physical_devices`): these are foreign calls, assumed to succeed, and their answers are parameters.
- SwapchainConfig.ImageCount: requires min < u32::MAX. `CreateInfo` models the debug-build overflow panic; the release-build wrap-around of `min + 1` to 0 is not modelled.
- The `index as u32` conversions in the selection pipelines, since family indices are small.
- Shader modules (`create_shader_module`), instance, debug messenger, surface and window creation in `Vulkan::new`: foreign calls.
- The swapchain builder used in src/gfx/vulkan/vulkan.rs is not part of this model. A swapchain there is known by its generation and the size it was built for.
- `ManuallyDrop`/`Arc` reference counting: dropping the swapchain handle is modelled as destroying it. The rest of Rust's drop glue after `Drop::drop` is also left out.
- `Drop` does not wait for the device to go idle before destroying the swapchain and device. The model records that order as written.
- src/gfx/vulkan/instance.rs, render_pass.rs and surface.rs, the renderers and shaders, and the module wiring files: thin foreign-call wrappers, printing callbacks and shader code.
