/** The emulated-input (libei) side: events, receiver contexts and poll outcomes. */
module EiEvents {
  import opened Ints

  /** An `ei_seat` handle. */
  datatype Seat = Seat(id: nat)

  /** An `ei` receiver context and the descriptor `ei_get_fd` reports for it. */
  datatype EiContext = EiContext(id: nat, fd: int)

  /** One event as `ei_get_event` hands it out, with its payload already read. */
  datatype InputEvent =
    | Connect
    | Disconnect
    | SeatAdded(seat: Seat)
    | SeatRemoved
    | DeviceAdded
    | DeviceRemoved
    | PointerMotion(dx: real, dy: real)
    | PointerMotionAbsolute(x: U32Castable, y: U32Castable)
    | ButtonButton(button: u32, isPress: bool)
    | ScrollDelta(dx: real, dy: real)
    | ScrollDiscrete(discreteDx: i32, discreteDy: i32)
    | KeyboardKey(key: u32, isPress: bool)
    | Frame
      /** any other event type (device paused/resumed, scroll stop, ...) */
    | Unhandled(eventType: int)

  /** The event types `handle_event` routes to `handle_pointer_event`. */
  predicate IsPointerEvent(e: InputEvent) {
    e.PointerMotion? || e.PointerMotionAbsolute? || e.ButtonButton? || e.ScrollDelta? || e.ScrollDiscrete?
  }

  predicate IsSeatEvent(e: InputEvent) {
    e.SeatAdded? || e.SeatRemoved?
  }

  /** A queued event with the millisecond time sampled when it was handled. */
  datatype Queued = Queued(event: InputEvent, time: u32)

  /**
   * One outcome of the readiness wait on the context's descriptor: readable
   * (with every event then in the queue), a timeout, or an error.
   */
  datatype Poll = Ready(batch: seq<Queued>) | Timeout | Error

  function PointerEventCount(qs: seq<Queued>): nat {
    if qs == [] then 0 else (if IsPointerEvent(qs[0].event) then 1 else 0) + PointerEventCount(qs[1..])
  }

  function KeyEventCount(qs: seq<Queued>): nat {
    if qs == [] then 0 else (if qs[0].event.KeyboardKey? then 1 else 0) + KeyEventCount(qs[1..])
  }
}
