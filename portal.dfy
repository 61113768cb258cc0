/**
 * The RemoteDesktop portal object: its fixed session replies, the legacy
 * Notify* calls that drive the virtual devices directly, and the lifetime of
 * its bus connection. Arguments arrive already decoded; "available" flags say
 * whether the portal holds a handler whose pointer (or keyboard) is non-null.
 */
module RemoteDesktopPortal {
  import opened Ints
  import opened Options
  import opened Sink
  import opened EiEvents
  import opened EventTranslation

  const SessionHandlePath: string := "/org/freedesktop/portal/desktop/session/1"
  /** keyboard (1) | pointer (2) | touchscreen (4) */
  const AllDeviceTypes: u32 := 7
  const Success: u32 := 0
  const Failure: u32 := 1
  const ErrorFailed: string := "org.freedesktop.portal.Error.Failed"

  /** The `sdbus::Variant` values the replies carry. */
  datatype Variant = UInt32(u: u32) | Str(s: string)

  type Vardict = map<string, Variant>

  datatype Reply =
      /** `ua{sv}`: a response code and its results */
    | Response(status: u32, results: Vardict)
      /** a method return with no arguments */
    | EmptyReply
      /** `h`: a file descriptor handed to the caller */
    | FdReply(fd: int)
    | ErrorReply(name: string, message: string)

  /** What a handler does with a receiver context besides replying. */
  datatype Effect =
      /** `ei_unref` */
    | ReleaseContext(ctx: EiContext)
      /** a detached thread that adopts the context and runs the handler */
    | LaunchHandler(ctx: EiContext)

  datatype Handled = Handled(reply: Reply, effects: seq<Effect>)

  /** The reply of a Notify* call and the sink calls it made before replying. */
  datatype Notified = Notified(reply: Reply, calls: seq<SinkCall>)

  predicate NoLaunch(effects: seq<Effect>) {
    forall i :: 0 <= i < |effects| ==> !effects[i].LaunchHandler?
  }

  /** `CreateSession`: the same fixed session handle whatever the options. */
  function CreateSession(options: Vardict): (r: Reply)
    ensures r.Response? && r.status == Success
    ensures r.results == map["session_handle" := Str(SessionHandlePath)]
  {
    Response(Success, map["session_handle" := Str(SessionHandlePath)])
  }

  /** `SelectDevices`: grants every device type whatever was asked. */
  function SelectDevices(sessionHandle: string, options: Vardict): (r: Reply)
    ensures r.Response? && r.status == Success
    ensures r.results == map["types" := UInt32(AllDeviceTypes)]
  {
    Response(Success, map["types" := UInt32(AllDeviceTypes)])
  }

  /**
   * `Start`: `attempt` is what `ei_new_receiver` returned; its descriptor is
   * what `ei_get_fd` reports.
   */
  function Start(attempt: Option<EiContext>, handlerPresent: bool): (h: Handled)
    ensures h.reply.Response?
    ensures h.reply.status == Success <==> attempt.Some? && attempt.value.fd >= 0
    ensures h.reply.status != Success ==> h.reply.status == Failure && h.reply.results == map[] && NoLaunch(h.effects)
    ensures attempt.None? ==> h.effects == []
    ensures attempt.Some? && attempt.value.fd < 0 ==> h.effects == [ReleaseContext(attempt.value)]
    ensures h.reply.status == Success ==>
      && h.reply.results == map["devices" := UInt32(AllDeviceTypes)]
      && h.effects == if handlerPresent then [LaunchHandler(attempt.value)] else []
  {
    match attempt
    case None => Handled(Response(Failure, map[]), [])
    case Some(ctx) =>
      if ctx.fd < 0 then Handled(Response(Failure, map[]), [ReleaseContext(ctx)])
      else Handled(Response(Success, map["devices" := UInt32(AllDeviceTypes)]),
                   if handlerPresent then [LaunchHandler(ctx)] else [])
  }

  /** `ConnectToEIS`: hands the caller the context's descriptor, or fails with a named error. */
  function ConnectToEIS(attempt: Option<EiContext>, handlerPresent: bool): (h: Handled)
    ensures h.reply.FdReply? <==> attempt.Some? && attempt.value.fd >= 0
    ensures h.reply.FdReply? ==>
      && h.reply.fd == attempt.value.fd
      && h.effects == if handlerPresent then [LaunchHandler(attempt.value)] else []
    ensures !h.reply.FdReply? ==> h.reply.ErrorReply? && h.reply.name == ErrorFailed && NoLaunch(h.effects)
    ensures attempt.None? ==> h.effects == []
    ensures attempt.Some? && attempt.value.fd < 0 ==> h.effects == [ReleaseContext(attempt.value)]
  {
    match attempt
    case None => Handled(ErrorReply(ErrorFailed, "Failed to create EIS context"), [])
    case Some(ctx) =>
      if ctx.fd < 0 then Handled(ErrorReply(ErrorFailed, "Failed to get EIS file descriptor"), [ReleaseContext(ctx)])
      else Handled(FdReply(ctx.fd), if handlerPresent then [LaunchHandler(ctx)] else [])
  }

  /** `Start` and `ConnectToEIS` succeed on the same attempts and do the same with the context. */
  lemma StartAgreesWithConnect(attempt: Option<EiContext>, handlerPresent: bool)
    ensures Start(attempt, handlerPresent).effects == ConnectToEIS(attempt, handlerPresent).effects
    ensures Start(attempt, handlerPresent).reply.status == Success
        <==> ConnectToEIS(attempt, handlerPresent).reply.FdReply?
  {
  }

  /** `NotifyPointerMotion` */
  function NotifyPointerMotion(dx: real, dy: real, t: u32, pointerAvailable: bool): (n: Notified)
    ensures n.reply == EmptyReply
    ensures n.calls == [] <==> !pointerAvailable
  {
    Notified(EmptyReply, if pointerAvailable then [Motion(t, dx, dy), Sink.Frame] else [])
  }

  /** `NotifyPointerButton`: the button is cast to unsigned, the state is passed on as given. */
  function NotifyPointerButton(button: i32, state: u32, t: u32, pointerAvailable: bool): (n: Notified)
    ensures n.reply == EmptyReply
    ensures n.calls == [] <==> !pointerAvailable
    ensures pointerAvailable ==> n.calls == [Button(t, AsU32(button), state), Sink.Frame]
  {
    Notified(EmptyReply,
             if pointerAvailable then [Button(t, AsU32(button), state), Sink.Frame] else [])
  }

  /** `NotifyKeyboardKeycode`: one key call, no frame. */
  function NotifyKeyboardKeycode(keycode: i32, state: u32, t: u32, keyboardAvailable: bool): (n: Notified)
    ensures n.reply == EmptyReply
    ensures n.calls == [] <==> !keyboardAvailable
    ensures keyboardAvailable ==> n.calls == [Key(t, AsU32(keycode), state)]
  {
    Notified(EmptyReply, if keyboardAvailable then [Key(t, AsU32(keycode), state)] else [])
  }

  /** `NotifyPointerAxis`: three-argument axis calls for the non-zero deltas, then one frame. */
  function NotifyPointerAxis(dx: real, dy: real, t: u32, pointerAvailable: bool): (n: Notified)
    ensures n.reply == EmptyReply
    ensures n.calls == [] <==> !pointerAvailable
  {
    Notified(EmptyReply,
             if !pointerAvailable then []
             else (if dx != 0.0 then [Axis(t, HorizontalScroll, dx)] else [])
                  + (if dy != 0.0 then [Axis(t, VerticalScroll, dy)] else [])
                  + [Sink.Frame])
  }

  // The legacy calls against the handler's translation of the matching libei event.

  /** Motion reaches the pointer exactly as a relative-motion event would. */
  lemma MotionAgreesWithHandler(dx: real, dy: real, t: u32, pointerAvailable: bool, hasKeyboard: bool)
    ensures NotifyPointerMotion(dx, dy, t, pointerAvailable).calls
         == Translate(PointerMotion(dx, dy), t, pointerAvailable, hasKeyboard)
  {
  }

  /**
   * A button call matches the handler's button event exactly when the state
   * is the handler's 1-for-press, 0-for-release encoding.
   */
  lemma ButtonAgreesWithHandlerIff(button: i32, state: u32, isPress: bool, t: u32, hasKeyboard: bool)
    ensures NotifyPointerButton(button, state, t, true).calls
         == Translate(ButtonButton(AsU32(button), isPress), t, true, hasKeyboard)
        <==> state == PressState(isPress)
  {
    var legacy := NotifyPointerButton(button, state, t, true).calls;
    var handled := Translate(ButtonButton(AsU32(button), isPress), t, true, hasKeyboard);
    if legacy == handled {
      assert legacy[0] == handled[0];
    }
  }

  /** A keycode call matches the handler's key event exactly when the state is encoded the same way. */
  lemma KeycodeAgreesWithHandlerIff(keycode: i32, state: u32, isPress: bool, t: u32, hasPointer: bool)
    ensures NotifyKeyboardKeycode(keycode, state, t, true).calls
         == Translate(KeyboardKey(AsU32(keycode), isPress), t, hasPointer, true)
        <==> state == PressState(isPress)
  {
    var legacy := NotifyKeyboardKeycode(keycode, state, t, true).calls;
    var handled := Translate(KeyboardKey(AsU32(keycode), isPress), t, hasPointer, true);
    if legacy == handled {
      assert legacy[0] == handled[0];
    }
  }

  /**
   * An axis call makes the handler's scroll-delta calls with the secondary
   * value dropped: same axes, same order, same values, one frame.
   */
  lemma AxisAgreesWithHandler(dx: real, dy: real, t: u32, pointerAvailable: bool, hasKeyboard: bool)
    ensures NotifyPointerAxis(dx, dy, t, pointerAvailable).calls
         == DropSecondaryAll(Translate(ScrollDelta(dx, dy), t, pointerAvailable, hasKeyboard))
  {
  }

  class Portal {
    var running: bool
    /** A session-bus connection is held. */
    var connected: bool
    /** The portal object is registered on the connection. */
    var registered: bool
    /**
     * A handler is held. `Start` and `ConnectToEIS` take this flag as their
     * `handlerPresent` argument, and the `Notify*` functions' availability
     * flags can only be true while it is set.
     */
    var handlerPresent: bool

    constructor()
      ensures !running && !connected && !registered && !handlerPresent
    {
      running, connected, registered, handlerPresent := false, false, false, false;
    }

    /**
     * `init`: keep the handler, then connect, claim the name and register the
     * object; `busOk` says whether all of that succeeded. A failure cleans up.
     */
    method Init(handler: bool, busOk: bool) returns (ok: bool)
      modifies this
      ensures ok == busOk && handlerPresent == handler
      ensures connected == busOk && registered == busOk
      ensures busOk ==> running == old(running)
      ensures !busOk ==> !running
    {
      handlerPresent := handler;
      if busOk {
        connected, registered := true, true;
        return true;
      }
      Cleanup();
      return false;
    }

    /** `cleanup`: stop and drop the object and the connection. */
    method Cleanup()
      modifies this
      ensures !running && !connected && !registered
      ensures handlerPresent == old(handlerPresent)
    {
      running := false;
      if registered {
        registered := false;
      }
      if connected {
        connected := false;
      }
    }

    /** `run`: without a connection return at once; otherwise mark running and serve the bus. */
    method Run()
      modifies this
      ensures running == (old(running) || connected)
      ensures connected == old(connected) && registered == old(registered)
      ensures handlerPresent == old(handlerPresent)
    {
      if !connected {
        return;
      }
      running := true;
    }

    /** `stop`: clear the flag and leave the bus event loop. */
    method Stop()
      modifies this
      ensures !running
      ensures connected == old(connected) && registered == old(registered)
      ensures handlerPresent == old(handlerPresent)
    {
      running := false;
    }
  }
}
