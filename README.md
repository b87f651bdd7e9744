# Engine bootstrap core of vulkan-rt-rust, in Dafny

This project models the composition and lifecycle core of a minimal rendering-engine
shell. An `Engine` is built from one platform adapter (windowing, input, event loop)
and one graphics adapter (rendering device). It is refused unless the graphics adapter
declares itself compatible with the platform adapter. The modelled adapters are:

- the fieldless dummy platform adapter;
- the dummy graphics adapter, with its configurable `compatible` flag;
- the winit platform adapter, with its three optional resources and its event callback;
- the Vulkan graphics adapter, whose initialization is a fixed chain of fallible steps.

One module per core source file, plus `Errors`:

- `Errors` (`errors.dfy`): the error values and `Result` type (the source's `anyhow::Result`), and the incompatibility message.
- `WindowWrapper` (`engine_window_wrapper.dfy`): `EngineWindowWrapper`, a copyable carrier of a raw window handle.
- `PlatformWinit` (`platform_adapter_winit.dfy`): the winit adapter as a class whose methods update its optional fields. The event callback is the function `HandleEvent` over the state `(destroying, shutdown flag, control flow)`. `Run` folds it over a sequence. `RunEventLoop` runs the callback imperatively in a loop and is proved equal to `Run`. The shared shutdown flag (`Arc<AtomicBool>`) is the class `ShutdownFlag`.
- `Platform` (`platform_adapter.dfy`): the closed set of platform adapters `Dummy | Winit(...)` and the operations dispatched over it.
- `GraphicsVulkan` (`graphics_adapter_vulkan.dfy`): the Vulkan adapter as a class whose `Initialize` assigns `entry`.
- `Graphics` (`graphics_adapter.dfy`): the closed set `Dummy(compatible) | Vulkan(...)` and the compatibility predicate.
- `EngineBuild` (`engine.dfy`): `Engine` and `BuildEngine`, the composition gate.

Foreign outcomes are parameters of the methods that consume them:

- the event loop created by `EventLoop::new`;
- the result of building the window;
- the result of loading the Vulkan library;
- the result of `Entry::new`.

The sequence of occurrences the event loop sees has two kinds of member. A dispatched
event is passed to the callback. An `ExternalStore` is another holder of the flag (an
interrupt handler) storing `true` between two callbacks. This interleaving is how the
model shows the flag being shared.

Where the interfaces and the code disagree: the `PlatformAdapter` trait
(`crates/engine/src/platform_adapter.rs:3-5`) declares only `adapter_name`. Yet the winit
adapter implements `initialize`, `creates_window_handle`, `get_window_handle` and
`run_event_loop` against it. The `GraphicsAdapter` trait
(`crates/engine/src/graphics_adapter.rs:5-8`) likewise lacks the `initialize` that the
Vulkan adapter implements. The model follows the adapters: the interface is the set of
operations they implement. The source's dummy platform adapter implements none of the
four operations `initialize`, `creates_window_handle`, `get_window_handle` and
`run_event_loop`. The model gives it `creates_window_handle` false and a
`get_window_handle` that fails with `NoWindowHandle`, which is what an adapter without a
window should answer; it gives it no `initialize` and no `run_event_loop`.
`Graphics.VulkanNeedsWindowHandle` and `EngineBuild.VulkanComposition` refuse the dummy
platform only because of this choice.

## Model

| member | source | states |
|---|---|---|
| `Errors.Context` | crates/platform-adapter-winit/src/adapter.rs:59-61 | `Option::context` gives the value when present and the given error when absent. |
| `Errors.Message` | crates/engine/src/engine.rs:23 | Each error's text: the incompatibility format of engine.rs:23; "Window has not been created" (crates/platform-adapter-winit/src/adapter.rs lines 31 and 60); "run_event_loop called before event loop was created" (same file, line 65); "Not implemented" (crates/graphics-adapter-vulkan/src/adapter.rs line 24); a foreign error's own text. The `NoWindowHandle` text "Platform adapter does not create a window handle" is the model's own wording, with no counterpart in the source, since the dummy's answer is the model's choice. |
| `Errors.IncompatibleMessageNamesBoth` | crates/engine/src/engine.rs:23 | The incompatibility message contains the graphics adapter's name and then the platform adapter's name, each at a stated position. |
| `WindowWrapper.Create` | crates/engine/src/engine_window_wrapper.rs:9-19 | `create` is total, and `raw_window_handle` on the result returns exactly the handle it was built from. |
| `WindowWrapper.CreateInjective` | crates/engine/src/engine_window_wrapper.rs:9-13 | Two wrappers are equal exactly when their handles are. |
| `WindowWrapper.CreateOfRawHandle` | crates/engine/src/engine_window_wrapper.rs:3-19 | Any wrapper, or any copy of it, is the wrapper created from its own handle. |
| `PlatformWinit.HandleEvent` | crates/platform-adapter-winit/src/adapter.rs:69-104 | Once destroying, an event only sets the control flow to Exit. Otherwise destruction starts exactly on close, on Escape, or on MainEventsCleared with the flag raised. The flag is written (true) exactly on close or Escape. The control flow is Exit exactly when destroying, else Poll. |
| `PlatformWinit.Apply` | crates/platform-adapter-winit/src/adapter.rs:68-105 | One occurrence, a callback or another holder's store, never lowers `destroying` or the flag, and keeps coherence (destroying implies flag raised; Exit exactly when destroying). |
| `PlatformWinit.Run` | crates/platform-adapter-winit/src/adapter.rs:68-105 | Over any sequence of occurrences, neither flag is lowered and coherence is kept. |
| `PlatformWinit.RunDestroyingIff` | crates/platform-adapter-winit/src/adapter.rs:77-96 | The loop ends destroying exactly when some occurrence triggered it: a close, an Escape, or a MainEventsCleared after the flag was raised initially or by an earlier store. |
| `PlatformWinit.RunShutdownIff` | crates/platform-adapter-winit/src/adapter.rs:83-96 | The flag ends raised exactly when it started raised, another holder stored into it, or the adapter began destroying. So the adapter always publishes its own close intent. |
| `PlatformWinit.RunWhileDestroying` | crates/platform-adapter-winit/src/adapter.rs:69-73 | Once destroying, later events change nothing but the control flow (Exit after any event). Only other holders' stores touch the flag. |
| `PlatformWinit.PlatformAdapterWinit.constructor` | crates/platform-adapter-winit/src/adapter.rs:22-27 | A default adapter has no event loop, no window and no window wrapper. |
| `PlatformWinit.PlatformAdapterWinit.GetWindow` | crates/platform-adapter-winit/src/adapter.rs:30-32 | Returns the window when it exists, else fails with "Window has not been created". |
| `PlatformWinit.PlatformAdapterWinit.GetWindowHandle` | crates/platform-adapter-winit/src/adapter.rs:59-61 | Returns the stored wrapper when it exists, else fails with "Window has not been created". |
| `PlatformWinit.PlatformAdapterWinit.Initialize` | crates/platform-adapter-winit/src/adapter.rs:40-53 | If building the window fails, returns that error with all three fields unchanged. Otherwise all three become `Some`: the new event loop, the window built with the fixed title and 1920x1080 size, and its handle's wrapper. The stored wrapper's handle is the window's handle. |
| `PlatformWinit.PlatformAdapterWinit.RunEventLoop` | crates/platform-adapter-winit/src/adapter.rs:63-106 | Always leaves the adapter without an event loop, so a second call fails. Without an event loop it fails and touches nothing. Otherwise the callback loop reaches exactly the state `Run` gives, and the shared flag holds that state's flag. |
| `PlatformWinit.ShutdownFlag.constructor` | crates/platform-adapter-winit/src/adapter.rs:63 | The shared shutdown flag (`Arc<AtomicBool>`) holds the value it was created with. |
| `PlatformWinit.ShutdownFlag.Load` | crates/platform-adapter-winit/src/adapter.rs:78 | Loading returns the flag's current value and changes nothing. |
| `PlatformWinit.ShutdownFlag.Store` | crates/platform-adapter-winit/src/adapter.rs:86 | Storing sets the flag to the value stored and touches nothing else. |
| `PlatformWinit.PlatformAdapterWinit.AdapterName` | crates/platform-adapter-winit/src/adapter.rs:36-38 | The name is always "PlatformAdapterWinit". |
| `PlatformWinit.PlatformAdapterWinit.CreatesWindowHandle` | crates/platform-adapter-winit/src/adapter.rs:55-57 | The winit adapter always declares that it creates a window handle. |
| `Platform.AdapterName` | crates/engine/src/platform_adapter.rs:17-19 | The dummy is always named "DummyPlatformAdapter" and the winit adapter "PlatformAdapterWinit". |
| `Platform.Display` | crates/engine/src/platform_adapter.rs:22-26 | The display form of a platform adapter is its name. |
| `Platform.CreatesWindowHandle` | crates/platform-adapter-winit/src/adapter.rs:55-57 | Exactly the winit adapter creates window handles; the dummy does not (the model's choice for the dummy, see above). |
| `Platform.DefaultDummy` | crates/engine/src/platform_adapter.rs:10-14 | `Default` gives the dummy platform adapter. |
| `Platform.DummiesIndistinguishable` | crates/engine/src/platform_adapter.rs:8-14 | All dummy platform adapters are the same value, the default one. |
| `Platform.GetWindowHandle` | crates/platform-adapter-winit/src/adapter.rs:55-61 | An adapter that does not create window handles always fails with `NoWindowHandle`. The winit adapter succeeds exactly when its wrapper exists, and returns that wrapper. |
| `Platform.AdapterNameIdentifiesKind` | crates/engine/src/platform_adapter.rs:16-26 | The dummy and winit adapters have different names ("DummyPlatformAdapter", "PlatformAdapterWinit"), and the display form equals the name. |
| `GraphicsVulkan.GraphicsAdapterVulkan.constructor` | crates/graphics-adapter-vulkan/src/adapter.rs:14-19 | A default adapter has neither entry points nor an instance. |
| `GraphicsVulkan.GraphicsAdapterVulkan.AdapterName` | crates/graphics-adapter-vulkan/src/adapter.rs:29-31 | The name is always "GraphicsAdapterVulkan". |
| `GraphicsVulkan.GraphicsAdapterVulkan.CreateInstance` | crates/graphics-adapter-vulkan/src/adapter.rs:22-25 | Instance creation always fails with "Not implemented". |
| `GraphicsVulkan.GraphicsAdapterVulkan.IsCompatibleWithPlatformAdapter` | crates/graphics-adapter-vulkan/src/adapter.rs:33-35 | Compatible exactly when the platform adapter creates window handles, which among the modelled adapters means exactly the winit one. |
| `GraphicsVulkan.GraphicsAdapterVulkan.Initialize` | crates/graphics-adapter-vulkan/src/adapter.rs:37-54 | Runs three steps in order: load the library, create the entry points, fetch the window handle. The first failure's error is returned with `entry` unchanged. The instance-creation error is discarded. Success is exactly all three steps succeeding; `entry` then holds the created entry points. `inst` never changes. |
| `Graphics.DefaultDummy` | crates/engine/src/graphics_adapter.rs:15-21 | `Default` gives a dummy graphics adapter with `compatible == true`. |
| `Graphics.AdapterName` | crates/engine/src/graphics_adapter.rs:24-26 | The dummy is always named "DummyGraphicsAdapter" and the Vulkan adapter "GraphicsAdapterVulkan". |
| `Graphics.Display` | crates/engine/src/graphics_adapter.rs:33-37 | The display form of a graphics adapter is its name. |
| `Graphics.IsCompatibleWithPlatformAdapter` | crates/engine/src/graphics_adapter.rs:28-30 | The dummy answers its `compatible` field; the Vulkan adapter answers whether the platform creates window handles. So a compatible pair has either a dummy graphics adapter or the winit platform adapter. |
| `Graphics.DummyIgnoresPlatform` | crates/engine/src/graphics_adapter.rs:28-30 | The dummy's verdict is its `compatible` field, the same for every platform adapter. |
| `Graphics.VulkanNeedsWindowHandle` | crates/graphics-adapter-vulkan/src/adapter.rs:33-35 | The Vulkan adapter accepts a platform exactly when it creates window handles, and refuses the dummy platform. |
| `Graphics.AdapterNameIdentifiesKind` | crates/engine/src/graphics_adapter.rs:23-37 | The dummy and Vulkan adapters have different names ("DummyGraphicsAdapter", "GraphicsAdapterVulkan"), and the display form equals the name. |
| `EngineBuild.BuildEngine` | crates/engine/src/engine.rs:16-30 | Fails exactly when the graphics adapter is not compatible with the platform adapter. The error carries both display names, and its message mentions both adapter names. On success the engine holds exactly the given adapters. The function reads and changes no adapter state, so no initialization happens. |
| `EngineBuild.BuildDependsOnlyOnCompatibility` | crates/engine/src/engine.rs:22-24 | Two graphics adapters with the same compatibility verdict on a platform either both build or both fail. |
| `EngineBuild.BuildAbortsIfAdaptersAreNotCompatible` | crates/engine/src/engine.rs:41-51 | The default dummy platform with a dummy graphics adapter configured incompatible gives an error naming both dummies. |
| `EngineBuild.BuildCreatesEngineIfAdaptersAreCompatible` | crates/engine/src/engine.rs:53-61 | The default dummy platform with the default dummy graphics adapter gives an engine holding both. |
| `EngineBuild.VulkanComposition` | crates/engine/src/engine.rs:16-30 | The Vulkan adapter composes with the winit adapter. With the dummy platform it is refused, and the error names "GraphicsAdapterVulkan" and "DummyPlatformAdapter". |

## Left out

- `Engine::start` and `create_shutdown_requested` are called by the sample program but not defined in `crates/engine/src/engine.rs`, so they are not modelled. The engine's ownership of the shutdown flag, and the order of initialization in `start`, are not modelled either.
- The sample program (`crates/sample/src/main.rs`) is not modelled: logger set-up, the interrupt handler on its own thread, and exit codes. Its handler's store into the flag appears only as the `ExternalStore` occurrence.
- `crates/engine/src/lib.rs` holds the module declarations, the `assert_matches` feature gate and the `log` macro import; none of it has behaviour to model.
- Memory orderings (the relaxed load, the sequentially consistent stores): every access to the flag is taken to happen in one sequence.
- PlatformWinit.PlatformAdapterWinit.RunEventLoop: the toolkit's `EventLoop::run` never returns, so on success the real call never returns. The method stands for the loop after a finite prefix of occurrences and reports the state reached as `Dispatched`. Ending the process once the control flow is Exit is the toolkit's doing and is not modelled; every supplied occurrence is dispatched.
- Window creation, the event loop, library loading and `Entry::new` are foreign calls. Only their outcomes (success with an opaque value, or an error) are modelled, as parameters. The `unsafe` block has no counterpart.
- Raw window handles are reduced to four windowing-system shapes of opaque ids. Virtual key codes are reduced to Escape and every other key, and a keyboard event's press/release state is dropped (the callback never reads it, so releasing Escape also starts destruction).
- Log messages are not modelled. Foreign errors are carried as `External` with their text.
- The dummy platform adapter has no `initialize` or `run_event_loop` in the source, and none is given here. No polling event loop exists in the code, so no polling interval or timing is modelled.
- Exclusive ownership of the adapters is not modelled. The source moves both adapters into boxes owned by the `Engine`; the model's `Engine` holds references to the adapter objects, so a caller could keep an alias and change `windowWrapper` or `entry` after `BuildEngine`. No contract depends on this.
- Repeated `adapter_name` calls agree because Dafny functions are deterministic; there is no separate lemma.
- Dynamic dispatch over trait objects is a closed tagged union of the four adapters; no other adapter can be plugged in.
