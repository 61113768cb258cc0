/**
 * `LibEIHandler`: the receiver context, the held seat, the running flag,
 * the two optional virtual devices, and the dispatch loop that drains the
 * event queue into them. The devices are modelled by `trace`, the calls made
 * on them so far, in order.
 */
module Handler {
  import opened Ints
  import opened Options
  import opened Sink
  import opened EiEvents
  import opened EventTranslation

  /** The part of the handler's state that handling events reads and writes. */
  datatype View = View(seat: Option<Seat>, trace: seq<SinkCall>)

  /**
   * What handling one queued event makes the devices do. The loop and drain
   * lemmas below hold for every translator; the handler uses `Devices`.
   */
  type Translator = Queued -> seq<SinkCall>

  /** `handle_event`'s calls for a handler with (or without) each device. */
  function Devices(hasPointer: bool, hasKeyboard: bool): Translator {
    (q: Queued) => Translate(q.event, q.time, hasPointer, hasKeyboard)
  }

  /** The seat `handle_event` holds after `e`. */
  function SeatAfter(held: Option<Seat>, e: InputEvent): (s: Option<Seat>)
    ensures e.SeatAdded? ==> s == Some(e.seat)
    ensures e.SeatRemoved? ==> s.None?
    ensures !IsSeatEvent(e) ==> s == held
  {
    match e
    case SeatAdded(s) => Some(s)
    case SeatRemoved => None
    case _ => held
  }

  /** `handle_event` on one queued event. */
  function Handle(v: View, q: Queued, tr: Translator): View {
    View(SeatAfter(v.seat, q.event), v.trace + tr(q))
  }

  /** The inner drain loop: every queued event of one ready cycle, first to last. */
  function Drain(v: View, batch: seq<Queued>, tr: Translator): View
    decreases |batch|
  {
    if batch == [] then v
    else Handle(Drain(v, batch[..|batch| - 1], tr), batch[|batch| - 1], tr)
  }

  /**
   * The outer loop over poll outcomes: a ready cycle drains its batch, a
   * timeout goes round again, an error leaves the loop.
   */
  function Loop(v: View, polls: seq<Poll>, tr: Translator): View
    decreases |polls|
  {
    if polls == [] then v
    else match polls[0]
      case Error => v
      case Timeout => Loop(v, polls[1..], tr)
      case Ready(batch) => Loop(Drain(v, batch, tr), polls[1..], tr)
  }

  // An independent account of the loop: the events it takes in, and what each gives.

  /** The events the loop receives: every batch before the first error, in receipt order. */
  function Delivered(polls: seq<Poll>): seq<Queued> {
    if polls == [] then []
    else match polls[0]
      case Error => []
      case Timeout => Delivered(polls[1..])
      case Ready(batch) => batch + Delivered(polls[1..])
  }

  function TranslateAll(qs: seq<Queued>, tr: Translator): seq<SinkCall>
    decreases |qs|
  {
    if qs == [] then [] else tr(qs[0]) + TranslateAll(qs[1..], tr)
  }

  function SeatAfterAll(held: Option<Seat>, qs: seq<Queued>): Option<Seat>
    decreases |qs|
  {
    if qs == [] then held else SeatAfterAll(SeatAfter(held, qs[0].event), qs[1..])
  }

  lemma {:induction false} TranslateAllAppend(a: seq<Queued>, b: seq<Queued>, tr: Translator)
    ensures TranslateAll(a + b, tr) == TranslateAll(a, tr) + TranslateAll(b, tr)
    decreases |a|
  {
    if a == [] {
      assert a + b == b;
    } else {
      assert (a + b)[1..] == a[1..] + b;
      TranslateAllAppend(a[1..], b, tr);
    }
  }

  lemma {:induction false} SeatAfterAllAppend(held: Option<Seat>, a: seq<Queued>, b: seq<Queued>)
    ensures SeatAfterAll(held, a + b) == SeatAfterAll(SeatAfterAll(held, a), b)
    decreases |a|
  {
    if a == [] {
      assert a + b == b;
    } else {
      assert (a + b)[1..] == a[1..] + b;
      SeatAfterAllAppend(SeatAfter(held, a[0].event), a[1..], b);
    }
  }

  /** Draining a batch handles each of its events once, in queue order. */
  lemma {:induction false} DrainHandlesInOrder(v: View, batch: seq<Queued>, tr: Translator)
    ensures Drain(v, batch, tr) == View(SeatAfterAll(v.seat, batch), v.trace + TranslateAll(batch, tr))
    decreases |batch|
  {
    if batch == [] {
      assert v.trace + [] == v.trace;
    } else {
      var init, last := batch[..|batch| - 1], batch[|batch| - 1];
      assert batch == init + [last];
      assert [last][1..] == [];
      DrainHandlesInOrder(v, init, tr);
      TranslateAllAppend(init, [last], tr);
      assert TranslateAll([last], tr) == tr(last) + [];
      SeatAfterAllAppend(v.seat, init, [last]);
    }
  }

  /**
   * The loop handles exactly the delivered events, in receipt order: the
   * trace grows by their translations, and the seat follows their seat events.
   */
  lemma {:induction false} LoopHandlesDeliveredInOrder(v: View, polls: seq<Poll>, tr: Translator)
    ensures Loop(v, polls, tr) == View(SeatAfterAll(v.seat, Delivered(polls)), v.trace + TranslateAll(Delivered(polls), tr))
    decreases |polls|
  {
    if polls == [] {
      assert v.trace + [] == v.trace;
    } else {
      match polls[0]
      case Error =>
        assert v.trace + [] == v.trace;
      case Timeout =>
        LoopHandlesDeliveredInOrder(v, polls[1..], tr);
      case Ready(batch) =>
        var rest := Delivered(polls[1..]);
        DrainHandlesInOrder(v, batch, tr);
        LoopHandlesDeliveredInOrder(Drain(v, batch, tr), polls[1..], tr);
        TranslateAllAppend(batch, rest, tr);
        SeatAfterAllAppend(v.seat, batch, rest);
    }
  }

  /** An error outcome ends the loop: nothing polled after it is ever handled. */
  lemma {:induction false} ErrorEndsLoop(before: seq<Poll>, after: seq<Poll>)
    ensures Delivered(before + [Error] + after) == Delivered(before)
  {
    if before == [] {
      assert (before + [Error] + after)[0] == Error;
    } else {
      assert (before + [Error] + after)[0] == before[0];
      assert (before + [Error] + after)[1..] == before[1..] + [Error] + after;
      ErrorEndsLoop(before[1..], after);
    }
  }

  /** A timeout delivers nothing and does not end the loop. */
  lemma {:induction false} TimeoutContinues(before: seq<Poll>, after: seq<Poll>)
    ensures Delivered(before + [Timeout] + after) == Delivered(before + after)
  {
    if before == [] {
      assert (before + [Timeout] + after)[0] == Timeout;
      assert (before + [Timeout] + after)[1..] == before + after;
    } else {
      assert (before + [Timeout] + after)[0] == before[0] == (before + after)[0];
      assert (before + [Timeout] + after)[1..] == before[1..] + [Timeout] + after;
      assert (before + after)[1..] == before[1..] + after;
      TimeoutContinues(before[1..], after);
    }
  }

  /** Each pointer event handled with a virtual pointer present gives exactly one frame. */
  lemma {:induction false} OneFramePerPointerEvent(qs: seq<Queued>, hasKeyboard: bool)
    ensures FrameCount(TranslateAll(qs, Devices(true, hasKeyboard))) == PointerEventCount(qs)
  {
    if qs != [] {
      var tr := Devices(true, hasKeyboard);
      OneFramePerPointerEvent(qs[1..], hasKeyboard);
      TranslationShape(qs[0].event, qs[0].time, true, hasKeyboard);
      FrameCountAppend(tr(qs[0]), TranslateAll(qs[1..], tr));
    }
  }

  /** Each key event handled with a virtual keyboard present gives exactly one key call. */
  lemma {:induction false} OneKeyPerKeyEvent(qs: seq<Queued>, hasPointer: bool)
    ensures KeyCount(TranslateAll(qs, Devices(hasPointer, true))) == KeyEventCount(qs)
  {
    if qs != [] {
      var tr := Devices(hasPointer, true);
      OneKeyPerKeyEvent(qs[1..], hasPointer);
      TranslationShape(qs[0].event, qs[0].time, hasPointer, true);
      KeyCountAppend(tr(qs[0]), TranslateAll(qs[1..], tr));
    }
  }

  /** Without devices no event reaches the sink. */
  lemma {:induction false} NoDevicesNoCalls(qs: seq<Queued>)
    ensures TranslateAll(qs, Devices(false, false)) == []
  {
    if qs != [] {
      NoDevicesNoCalls(qs[1..]);
    }
  }

  /** Without a virtual pointer no call of a whole run goes to the pointer. */
  lemma {:induction false} NoPointerNoPointerCalls(qs: seq<Queued>, hasKeyboard: bool)
    ensures forall i :: 0 <= i < |TranslateAll(qs, Devices(false, hasKeyboard))| ==>
                          !IsPointerCall(TranslateAll(qs, Devices(false, hasKeyboard))[i])
  {
    if qs != [] {
      var tr := Devices(false, hasKeyboard);
      var head, tail := tr(qs[0]), TranslateAll(qs[1..], tr);
      NoPointerNoPointerCalls(qs[1..], hasKeyboard);
      TranslationShape(qs[0].event, qs[0].time, false, hasKeyboard);
      assert head == Translate(qs[0].event, qs[0].time, false, hasKeyboard);
      assert TranslateAll(qs, tr) == head + tail;
      forall i | 0 <= i < |head + tail|
        ensures !IsPointerCall((head + tail)[i])
      {
        if i < |head| {
          assert (head + tail)[i] == head[i];
        } else {
          assert (head + tail)[i] == tail[i - |head|];
        }
      }
    }
  }

  /** Without a virtual keyboard no call of a whole run is a key call. */
  lemma {:induction false} NoKeyboardNoKeyCalls(qs: seq<Queued>, hasPointer: bool)
    ensures KeyCount(TranslateAll(qs, Devices(hasPointer, false))) == 0
  {
    if qs != [] {
      var tr := Devices(hasPointer, false);
      NoKeyboardNoKeyCalls(qs[1..], hasPointer);
      TranslationShape(qs[0].event, qs[0].time, hasPointer, false);
      KeyCountAppend(tr(qs[0]), TranslateAll(qs[1..], tr));
    }
  }

  lemma {:induction false} NoSeatEventKeepsSeat(held: Option<Seat>, qs: seq<Queued>)
    requires forall j :: 0 <= j < |qs| ==> !IsSeatEvent(qs[j].event)
    ensures SeatAfterAll(held, qs) == held
  {
    if qs != [] {
      NoSeatEventKeepsSeat(held, qs[1..]);
    }
  }

  /** The held seat is the one named by the last seat event: added replaces, removed clears. */
  lemma {:induction false} SeatFollowsLastSeatEvent(held: Option<Seat>, qs: seq<Queued>, k: nat)
    requires k < |qs| && IsSeatEvent(qs[k].event)
    requires forall j :: k < j < |qs| ==> !IsSeatEvent(qs[j].event)
    ensures SeatAfterAll(held, qs)
         == if qs[k].event.SeatAdded? then Some(qs[k].event.seat) else None
  {
    assert qs == qs[..k] + qs[k..];
    SeatAfterAllAppend(held, qs[..k], qs[k..]);
    var s := SeatAfterAll(held, qs[..k]);
    assert qs[k..][1..] == qs[k + 1..];
    NoSeatEventKeepsSeat(SeatAfter(s, qs[k].event), qs[k + 1..]);
  }

  class LibEIHandler {
    var ctx: Option<EiContext>
    var seat: Option<Seat>
    var running: bool
    var hasKeyboard: bool
    var hasPointer: bool
    /** Every call made on the virtual keyboard and pointer, in order. */
    var trace: seq<SinkCall>

    function ViewOf(): View
      reads this
    {
      View(seat, trace)
    }

    constructor()
      ensures ctx.None? && seat.None? && !running && !hasKeyboard && !hasPointer && trace == []
    {
      ctx, seat, running := None, None, false;
      hasKeyboard, hasPointer := false, false;
      trace := [];
    }

    /**
     * `init`: take the devices and a new receiver context; `created` is what
     * `ei_new_receiver` returned.
     */
    method Init(keyboard: bool, pointer: bool, created: Option<EiContext>) returns (ok: bool)
      modifies this
      ensures ok <==> created.Some?
      ensures hasKeyboard == keyboard && hasPointer == pointer && ctx == created
      ensures seat == old(seat) && running == old(running) && trace == old(trace)
    {
      hasKeyboard, hasPointer := keyboard, pointer;
      ctx := created;
      if ctx.None? {
        return false;
      }
      return true;
    }

    /** `cleanup`: stop, and release the seat and the context. */
    method Cleanup()
      modifies this
      ensures !running && seat.None? && ctx.None?
      ensures hasKeyboard == old(hasKeyboard) && hasPointer == old(hasPointer) && trace == old(trace)
    {
      running := false;
      if seat.Some? {
        seat := None;
      }
      if ctx.Some? {
        ctx := None;
      }
    }

    /** `stop`: ask the loop to end. */
    method Stop()
      modifies this
      ensures !running
      ensures ctx == old(ctx) && ViewOf() == old(ViewOf())
      ensures hasKeyboard == old(hasKeyboard) && hasPointer == old(hasPointer)
    {
      running := false;
    }

    /** `handle_event`: update the seat and forward the event to the devices. */
    method HandleEvent(e: InputEvent, t: u32)
      modifies this
      ensures seat == SeatAfter(old(seat), e)
      ensures trace == old(trace) + Translate(e, t, hasPointer, hasKeyboard)
      ensures ctx == old(ctx) && running == old(running)
      ensures hasKeyboard == old(hasKeyboard) && hasPointer == old(hasPointer)
    {
      match e {
        case SeatAdded(s) =>
          seat := Some(s);
        case SeatRemoved =>
          if seat.Some? {
            seat := None;
          }
        case _ =>
      }
      trace := trace + Translate(e, t, hasPointer, hasKeyboard);
    }

    /** The inner loop of `run`: take events off the queue and handle each until the queue is empty. */
    method DrainQueue(batch: seq<Queued>)
      modifies this
      ensures ViewOf() == Drain(old(ViewOf()), batch, Devices(hasPointer, hasKeyboard))
      ensures ctx == old(ctx) && running == old(running)
      ensures hasKeyboard == old(hasKeyboard) && hasPointer == old(hasPointer)
    {
      var j := 0;
      while j < |batch|
        invariant 0 <= j <= |batch|
        invariant ViewOf() == Drain(old(ViewOf()), batch[..j], Devices(hasPointer, hasKeyboard))
        invariant ctx == old(ctx) && running == old(running)
        invariant hasKeyboard == old(hasKeyboard) && hasPointer == old(hasPointer)
      {
        assert batch[..j + 1][..j] == batch[..j];
        HandleEvent(batch[j].event, batch[j].time);
        j := j + 1;
      }
      assert batch[..j] == batch;
    }

    /**
     * `run`: with no context return at once; with a context whose descriptor
     * is negative return after raising `running`; otherwise poll until an
     * error (or until `polls` runs out, standing for a stop request), and on
     * each ready cycle handle every queued event before polling again.
     */
    method Run(polls: seq<Poll>)
      modifies this
      ensures ctx == old(ctx) && hasKeyboard == old(hasKeyboard) && hasPointer == old(hasPointer)
      ensures old(ctx).None? ==> running == old(running) && ViewOf() == old(ViewOf())
      ensures old(ctx).Some? ==> running
      ensures old(ctx).Some? && old(ctx).value.fd < 0 ==> ViewOf() == old(ViewOf())
      ensures old(ctx).Some? && old(ctx).value.fd >= 0 ==>
        ViewOf() == Loop(old(ViewOf()), polls, Devices(hasPointer, hasKeyboard))
      ensures old(ctx).Some? && old(ctx).value.fd >= 0 ==>
        trace == old(trace) + TranslateAll(Delivered(polls), Devices(hasPointer, hasKeyboard))
        && seat == SeatAfterAll(old(seat), Delivered(polls))
    {
      if ctx.None? {
        return;
      }
      running := true;
      var fd := ctx.value.fd;
      if fd < 0 {
        return;
      }
      ghost var start := ViewOf();
      var i := 0;
      while running && i < |polls|
        invariant 0 <= i <= |polls|
        invariant running
        invariant ctx == old(ctx) && hasKeyboard == old(hasKeyboard) && hasPointer == old(hasPointer)
        invariant Loop(ViewOf(), polls[i..], Devices(hasPointer, hasKeyboard)) == Loop(start, polls, Devices(hasPointer, hasKeyboard))
        decreases |polls| - i
      {
        assert polls[i..][0] == polls[i] && polls[i..][1..] == polls[i + 1..];
        match polls[i] {
          case Ready(batch) =>
            DrainQueue(batch);
          case Timeout =>
          case Error =>
            break;
        }
        i := i + 1;
      }
      LoopHandlesDeliveredInOrder(start, polls, Devices(hasPointer, hasKeyboard));
    }

    /** The body of the thread `Start` and `ConnectToEIS` launch: adopt the context, then run. */
    method AdoptAndRun(c: EiContext, polls: seq<Poll>)
      modifies this
      ensures ctx == Some(c) && running
      ensures hasKeyboard == old(hasKeyboard) && hasPointer == old(hasPointer)
      ensures c.fd < 0 ==> ViewOf() == old(ViewOf())
      ensures c.fd >= 0 ==>
        trace == old(trace) + TranslateAll(Delivered(polls), Devices(hasPointer, hasKeyboard))
        && seat == SeatAfterAll(old(seat), Delivered(polls))
    {
      ctx := Some(c);
      Run(polls);
    }
  }
}
