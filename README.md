# Remote-desktop portal input translation, modelled in Dafny

This project models the input path of a RemoteDesktop portal for a Wayland compositor. Remote input reaches the portal in two ways:

- **libei events.** A `LibEIHandler` polls a libei receiver context and drains its event queue. It turns each event into calls on a virtual pointer and a virtual keyboard.
- **Legacy `Notify*` calls.** These D-Bus methods call the same virtual devices directly.

The portal also answers the session methods `CreateSession`, `SelectDevices`, `Start` and `ConnectToEIS` with fixed or error replies.

The virtual devices are modelled only as a recorded trace: a `seq<SinkCall>` that lists every call made on them, in order, with the exact arguments each caller passes. That includes the four-argument `send_axis` and the `send_axis_discrete` used by the handler, which `src/wayland_virtual_pointer.h` does not declare.

Modules:

- `Ints` (ints.dfy): `uint32_t` and `int32_t` as subset types, plus the two casts the model represents.
- `Options` (options.dfy): `Option`, which stands for the source's nullable pointers.
- `Sink` (sink.dfy): the `SinkCall` alphabet, and counts of frames and keys in a trace.
- `EiEvents` (ei_events.dfy): libei events, receiver contexts and the outcomes of polling.
- `EventTranslation` (translate.dfy): `handle_event`, `handle_pointer_event` and `handle_keyboard_event` as pure functions from one event to an ordered list of calls.
- `Handler` (handler.dfy):
  - the `LibEIHandler` class, with fields `ctx`, `seat`, `running`, `hasKeyboard`, `hasPointer` and `trace`;
  - its dispatch loop, specified by the functions `Drain` and `Loop`;
  - lemmas that describe that loop independently, through the events it delivers.
    These lemmas hold for any per-event translation. The handler instantiates them with `Devices`, which is `Translate` for its two devices.
- `RemoteDesktopPortal` (portal.dfy): the reply functions, the `Notify*` functions, lemmas comparing the legacy path with the handler path, and the `Portal` class's connection lifetime.

## Behaviour worth noting

The model follows these behaviours of the code:

- The code does not scale continuous scroll by 15.
- It sends no axis-source and no axis-stop calls.
- It forwards a discrete scroll even when both steps are 0.
- It sends no modifier calls around a key.
- It does not track session phases.
- `CreateSession` ignores the caller's handle and always replies with `/org/freedesktop/portal/desktop/session/1`.

## Model

| member | source | states |
|---|---|---|
| Ints.AsU32 | src/portal.cpp:319 | `static_cast<uint32_t>` of an `int32_t`: congruent to the input modulo 2^32, the identity on non-negative values, and at least 2^31 for negative ones |
| Ints.TruncateToU32 | src/libei_handler.cpp:234-236 | a double→uint32 cast of an in-range coordinate truncates toward zero: the result differs from the input by less than 1 and lies between 0 and the input, so a coordinate in (-1, 0) becomes 0 |
| EventTranslation.PressState | src/libei_handler.cpp:248 | the button/key state is 1 exactly for a press and 0 for a release |
| EventTranslation.PointerCalls | src/libei_handler.cpp:198-285 | a pointer event gives no calls at all without a virtual pointer; with one, it gives calls ending in a frame, exactly one frame, and no key call |
| EventTranslation.KeyboardCalls | src/libei_handler.cpp:175-196 | a key event gives one key call with the event's code and time when a keyboard exists, otherwise nothing |
| EventTranslation.Translate | src/libei_handler.cpp:109-173 | `handle_event`'s routing: an event gives calls iff it is a pointer event and a pointer exists, or a key event and a keyboard exists. `TranslationShape` and the per-event lemmas below state the rest |
| EventTranslation.TranslationShape | src/libei_handler.cpp:109-173 | an event gives calls iff it is a pointer event and a pointer exists, or a key event and a keyboard exists; pointer events end with exactly one frame; a key event gives exactly one key call and no frame; every call goes to the device matching the event's kind; every timed call carries the sampled time; connect, disconnect, seat, device, frame and unhandled events give nothing |
| EventTranslation.RelativeMotion | src/libei_handler.cpp:211-220 | relative motion gives exactly `[motion(t,dx,dy), frame]` |
| EventTranslation.AbsoluteMotionHasFixedExtent | src/libei_handler.cpp:223-238 | absolute motion gives one motion_absolute call and then a frame; the coordinates are truncated and the extent is always 1920×1080 |
| EventTranslation.ButtonEncodesPress | src/libei_handler.cpp:241-250 | a button event gives `[button(t, code, 1 if press else 0), frame]` |
| EventTranslation.ScrollDeltaOrder | src/libei_handler.cpp:253-267 | a scroll delta gives a horizontal `axis(dx, dy)` only when dx≠0 and a vertical `axis(dy, dx)` only when dy≠0, horizontal first, then exactly one frame; (0,0) gives just `[frame]` |
| EventTranslation.ScrollDiscreteUnconditional | src/libei_handler.cpp:270-278 | a discrete scroll gives `[axis_discrete(t,dx,dy), frame]` even when both steps are 0 |
| EventTranslation.KeyHasNoFrame | src/libei_handler.cpp:183-195 | a key event gives exactly `[key(t, code, 1 if press else 0)]`, with no frame |
| Handler.DrainHandlesInOrder | src/libei_handler.cpp:88-93 | draining a batch handles every queued event once, in queue order: the trace grows by their translations, concatenated, and the seat follows their seat events |
| Handler.LoopHandlesDeliveredInOrder | src/libei_handler.cpp:74-99 | the poll loop's effect equals handling, in receipt order, every event of every ready batch before the first error |
| Handler.ErrorEndsLoop | src/libei_handler.cpp:94-97 | nothing polled after an error is ever handled |
| Handler.TimeoutContinues | src/libei_handler.cpp:98 | a timeout delivers nothing and does not end the loop |
| Handler.OneFramePerPointerEvent | src/libei_handler.cpp:210-284 | with a pointer present, a run's trace holds exactly one frame per delivered pointer event |
| Handler.OneKeyPerKeyEvent | src/libei_handler.cpp:175-196 | with a keyboard present, a run's trace holds exactly one key call per delivered key event |
| Handler.NoDevicesNoCalls | src/libei_handler.cpp:176-202 | without a pointer and a keyboard, no event reaches the sink |
| Handler.NoPointerNoPointerCalls | src/libei_handler.cpp:198-202 | without a virtual pointer, no call made for any sequence of events goes to the pointer |
| Handler.NoKeyboardNoKeyCalls | src/libei_handler.cpp:175-179 | without a virtual keyboard, no call made for any sequence of events is a key call |
| Handler.SeatAfter | src/libei_handler.cpp:121-133 | SEAT_ADDED makes its seat the held one, replacing any other; SEAT_REMOVED leaves no seat held, whether or not one was; every other event keeps the held seat |
| Handler.NoSeatEventKeepsSeat | src/libei_handler.cpp:112-172 | events other than SEAT_ADDED and SEAT_REMOVED leave the held seat unchanged |
| Handler.SeatFollowsLastSeatEvent | src/libei_handler.cpp:121-133 | after a sequence of events, the held seat is the one the last seat event set: SEAT_ADDED's seat, or none after SEAT_REMOVED |
| Handler.LibEIHandler.constructor | src/libei_handler.cpp:16-18 | a new handler has no context, no seat, no devices, an empty trace, and is not running |
| Handler.LibEIHandler.Init | src/libei_handler.cpp:24-43 | stores both devices and the newly created context; succeeds iff the context was created |
| Handler.LibEIHandler.Cleanup | src/libei_handler.cpp:45-57 | afterwards running is false and both seat and context are null; devices and trace are untouched |
| Handler.LibEIHandler.Stop | src/libei_handler.cpp:104-107 | clears running and changes nothing else |
| Handler.LibEIHandler.HandleEvent | src/libei_handler.cpp:109-173 | SEAT_ADDED stores its seat, replacing any held one; SEAT_REMOVED clears it, a no-op when none is held; the trace grows by exactly the event's translation |
| Handler.LibEIHandler.DrainQueue | src/libei_handler.cpp:88-93 | the inner loop leaves the seat and trace as `Drain` of the batch |
| Handler.LibEIHandler.Run | src/libei_handler.cpp:59-102 | returns at once without a context; with a negative descriptor, returns after setting running and handles nothing; otherwise the trace grows by the translations of the delivered events in receipt order, and the seat follows them |
| Handler.LibEIHandler.AdoptAndRun | src/portal.cpp:255-259 | the launched thread's work: the handler adopts the context, then runs as `Run` says |
| RemoteDesktopPortal.CreateSession | src/portal.cpp:129-154 | always status 0 with `session_handle = /org/freedesktop/portal/desktop/session/1`, whatever the options |
| RemoteDesktopPortal.SelectDevices | src/portal.cpp:182-208 | always status 0 with `types = 7`, whatever the session and options |
| RemoteDesktopPortal.Start | src/portal.cpp:210-270 | status 0 iff a context was created with a non-negative descriptor, and then `devices = 7`, with a handler launched iff one exists; otherwise status 1 with an empty map and no launch; on a negative descriptor the context is released |
| RemoteDesktopPortal.ConnectToEIS | src/portal.cpp:392-450 | replies with the context's descriptor iff it was created with a non-negative one, launching the handler iff one exists; otherwise an `org.freedesktop.portal.Error.Failed` error and no launch; on a negative descriptor the context is released |
| RemoteDesktopPortal.StartAgreesWithConnect | src/portal.cpp:409-425 | `Start` and `ConnectToEIS` succeed on the same context attempts and release or launch the same things |
| RemoteDesktopPortal.NotifyPointerMotion | src/portal.cpp:272-299 | always an empty reply; sink calls iff a pointer is available |
| RemoteDesktopPortal.NotifyPointerButton | src/portal.cpp:301-328 | always an empty reply; with a pointer, exactly `[button(t, uint32(button), state), frame]`, with the state passed on unnormalised; without one, no calls |
| RemoteDesktopPortal.NotifyKeyboardKeycode | src/portal.cpp:330-356 | always an empty reply; with a keyboard, exactly `[key(t, uint32(keycode), state)]`, with the state unnormalised and no frame; without one, no calls |
| RemoteDesktopPortal.NotifyPointerAxis | src/portal.cpp:358-390 | always an empty reply; sink calls iff a pointer is available |
| RemoteDesktopPortal.MotionAgreesWithHandler | src/portal.cpp:289-291 | legacy motion makes exactly the calls the handler makes for a relative-motion event: `[motion(t,dx,dy), frame]`, or nothing without a pointer |
| RemoteDesktopPortal.ButtonAgreesWithHandlerIff | src/portal.cpp:318-320 | a legacy button call makes the handler's button calls iff its state is 1 for press and 0 for release |
| RemoteDesktopPortal.KeycodeAgreesWithHandlerIff | src/portal.cpp:347-349 | a legacy keycode call makes the handler's key call iff its state is 1 for press and 0 for release; neither path sends a frame |
| RemoteDesktopPortal.AxisAgreesWithHandler | src/portal.cpp:374-382 | legacy axis calls are the handler's scroll-delta calls with the secondary value dropped: a 3-argument horizontal axis only if dx≠0, then a vertical one only if dy≠0, then one frame |
| RemoteDesktopPortal.Portal.constructor | src/portal.cpp:20-21 | a new portal has no handler, no connection, no object, and is not running |
| RemoteDesktopPortal.Portal.Init | src/portal.cpp:27-88 | keeps the handler; on success holds a connection and a registered object; on failure cleans up |
| RemoteDesktopPortal.Portal.Cleanup | src/portal.cpp:90-100 | afterwards the portal is not running and holds no object and no connection |
| RemoteDesktopPortal.Portal.Run | src/portal.cpp:102-119 | without a connection returns at once; otherwise marks the portal running |
| RemoteDesktopPortal.Portal.Stop | src/portal.cpp:121-127 | clears running; the connection and object stay |

## Left out

- D-Bus plumbing is not modelled. That covers the connection, the name request, method and property registration (including the `version` property), the bus event loop, and argument decoding. Each method receives its arguments already decoded. The extraction order in the handlers does not match the registered signatures, so decoding is left out rather than modelled wrongly.
- `SelectSources` is not modelled: its registration is commented out, so it cannot be called.
- Concurrency is not modelled. `Start` and `ConnectToEIS` launch detached threads that share one handler and overwrite its context. The model records such a launch as a `LaunchHandler` effect and runs its body sequentially in `AdoptAndRun`. Cross-thread changes to `running` are not modelled.
- Handler.LibEIHandler.Run: the `while (running)` loop ends in two ways: a `break` when `select()` reports an error, or `running` cleared by `stop` or `cleanup` on another thread. The model handles the error break. It stands for the other thread's `stop` or `cleanup` by the end of the `polls` sequence, and nothing inside `Run` clears `running`. The 100 ms `select()` timeout and `ei_dispatch` are not modelled; a poll outcome (ready with its queued events, timeout, or error) is a parameter.
- Time sampling from `steady_clock` is a parameter: each queued event carries its own millisecond timestamp.
- Doubles are modelled as reals, so NaN and negative zero are not represented. `wl_fixed_from_double` belongs to the Wayland wrapper and is not part of this model.
- Ints.TruncateToU32: the model represents only absolute coordinates in (-1, 2^32), which the cast maps into `uint32_t` by truncation toward zero. A double whose truncation falls outside `uint32_t` (-1 or below, 2^32 or above) has an undefined cast in C++, so such coordinates are left out.
- Reference counts are not modelled: `ei_seat_ref`, `ei_seat_unref` and `ei_unref` appear only as fields becoming non-null or null, or as `ReleaseContext` effects. A second SEAT_ADDED replaces the held seat without releasing it; the model shows the replacement, not the leaked reference.
- The virtual pointer and keyboard (the Wayland wrappers: registry binding, protocol requests, and the memfd/mmap keymap upload) are replaced by the recorded trace. The handler's `keyboard` and `pointer` pointers become the flags `hasKeyboard` and `hasPointer`. The `Notify*` functions take "available" flags that stand for "a handler exists and its pointer (or keyboard) is non-null".
- RemoteDesktopPortal.Portal.Init: a single `busOk` flag stands for the outcome of connecting, requesting the name and registering the object. The portal keeps a `handlerPresent` flag instead of a reference to the handler. `Start` and `ConnectToEIS` receive that flag as their `handlerPresent` argument, and the `Notify*` availability flags can only be true while it is set; the model passes these values as arguments and does not link them to the field.
- Console logging and `ei_configure_name` have no observable effect in the model.
- `test_virtual_input.cpp` is not part of this model: it is a demo that drives a live compositor and makes no assertions.
