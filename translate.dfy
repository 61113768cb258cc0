/**
 * Translation of one libei event into the calls `LibEIHandler` makes on its
 * virtual pointer and virtual keyboard (`handle_event`, `handle_pointer_event`,
 * `handle_keyboard_event`). The calls are returned in the order they are made.
 */
module EventTranslation {
  import opened Ints
  import opened Sink
  import opened EiEvents

  /** The absolute-motion extent is a fixed screen size, never queried. */
  const ScreenWidth: u32 := 1920
  const ScreenHeight: u32 := 1080

  /** `is_press ? 1 : 0` */
  function PressState(isPress: bool): (s: u32)
    ensures s <= 1
    ensures s == 1 <==> isPress
  {
    if isPress then 1 else 0
  }

  /**
   * `handle_pointer_event`: nothing without a virtual pointer, else the
   * calls for the event's type closed by exactly one frame.
   */
  function PointerCalls(e: InputEvent, t: u32, hasPointer: bool): (r: seq<SinkCall>)
    requires IsPointerEvent(e)
    ensures FrameCount(r) == (if hasPointer then 1 else 0) && KeyCount(r) == 0
    ensures !hasPointer ==> r == []
    ensures hasPointer ==> r != [] && r[|r| - 1] == Sink.Frame
  {
    if !hasPointer then []
    else
      var calls := match e
        case PointerMotion(dx, dy) => [Motion(t, dx, dy)]
        case PointerMotionAbsolute(x, y) =>
          [MotionAbsolute(t, TruncateToU32(x), TruncateToU32(y), ScreenWidth, ScreenHeight)]
        case ButtonButton(button, isPress) => [Button(t, button, PressState(isPress))]
        case ScrollDelta(dx, dy) =>
          (if dx != 0.0 then [AxisWithSecondary(t, HorizontalScroll, dx, dy)] else [])
          + (if dy != 0.0 then [AxisWithSecondary(t, VerticalScroll, dy, dx)] else [])
        case ScrollDiscrete(dx, dy) => [AxisDiscrete(t, dx, dy)];
      NoFramesNoKeys(calls);
      FrameCountAppend(calls, [Sink.Frame]);
      KeyCountAppend(calls, [Sink.Frame]);
      calls + [Sink.Frame]
  }

  /** `handle_keyboard_event`: one key call, no frame, nothing without a virtual keyboard. */
  function KeyboardCalls(e: InputEvent, t: u32, hasKeyboard: bool): (r: seq<SinkCall>)
    ensures r != [] <==> hasKeyboard && e.KeyboardKey?
    ensures |r| <= 1
    ensures forall i :: 0 <= i < |r| ==> r[i].Key? && r[i].time == t && r[i].key == e.key
  {
    if hasKeyboard && e.KeyboardKey? then [Key(t, e.key, PressState(e.isPress))] else []
  }

  /**
   * The sink calls `handle_event` makes for one event: pointer events go to the
   * pointer, key events to the keyboard, every other event type to neither.
   */
  function Translate(e: InputEvent, t: u32, hasPointer: bool, hasKeyboard: bool): (r: seq<SinkCall>)
    ensures r != [] <==> (IsPointerEvent(e) && hasPointer) || (e.KeyboardKey? && hasKeyboard)
  {
    if IsPointerEvent(e) then PointerCalls(e, t, hasPointer)
    else if e.KeyboardKey? then KeyboardCalls(e, t, hasKeyboard)
    else []
  }

  /**
   * What every translation looks like: calls only for an input event whose
   * device exists, one closing frame per pointer event, one key call per key
   * event, each call on the device of the event's kind, all at the sampled time.
   */
  lemma TranslationShape(e: InputEvent, t: u32, hasPointer: bool, hasKeyboard: bool)
    ensures var r := Translate(e, t, hasPointer, hasKeyboard);
      && (r != [] <==> (IsPointerEvent(e) && hasPointer) || (e.KeyboardKey? && hasKeyboard))
      && FrameCount(r) == (if IsPointerEvent(e) && hasPointer then 1 else 0)
      && (IsPointerEvent(e) && hasPointer ==> r[|r| - 1] == Sink.Frame)
      && KeyCount(r) == (if e.KeyboardKey? && hasKeyboard then 1 else 0)
      && (forall i :: 0 <= i < |r| ==> (IsPointerCall(r[i]) <==> IsPointerEvent(e)))
      && (forall i :: 0 <= i < |r| ==> StampedAt(r[i], t))
  {
  }

  lemma RelativeMotion(dx: real, dy: real, t: u32, hasKeyboard: bool)
    ensures Translate(PointerMotion(dx, dy), t, true, hasKeyboard) == [Motion(t, dx, dy), Sink.Frame]
  {
  }

  lemma AbsoluteMotionHasFixedExtent(x: U32Castable, y: U32Castable, t: u32, hasKeyboard: bool)
    ensures var r := Translate(PointerMotionAbsolute(x, y), t, true, hasKeyboard);
      && |r| == 2 && r[1] == Sink.Frame && r[0].MotionAbsolute? && r[0].time == t
      && r[0].xExtent == 1920 && r[0].yExtent == 1080
      && TruncatesTo(x, r[0].x) && TruncatesTo(y, r[0].y)
  {
  }

  lemma ButtonEncodesPress(button: u32, isPress: bool, t: u32, hasKeyboard: bool)
    ensures Translate(ButtonButton(button, isPress), t, true, hasKeyboard)
         == [Button(t, button, if isPress then 1 else 0), Sink.Frame]
  {
  }

  /**
   * A scroll delta gives a horizontal axis call only for dx != 0, a vertical
   * one only for dy != 0, horizontal first, and always one closing frame.
   */
  lemma ScrollDeltaOrder(dx: real, dy: real, t: u32, hasKeyboard: bool)
    ensures var r := Translate(ScrollDelta(dx, dy), t, true, hasKeyboard);
      && |r| == 1 + (if dx != 0.0 then 1 else 0) + (if dy != 0.0 then 1 else 0)
      && r[|r| - 1] == Sink.Frame
      && (dx != 0.0 ==> r[0] == AxisWithSecondary(t, HorizontalScroll, dx, dy))
      && (dy != 0.0 ==> r[|r| - 2] == AxisWithSecondary(t, VerticalScroll, dy, dx))
      && (dx == 0.0 && dy == 0.0 ==> r == [Sink.Frame])
  {
  }

  /** A discrete scroll is forwarded even when both steps are zero. */
  lemma ScrollDiscreteUnconditional(dx: i32, dy: i32, t: u32, hasKeyboard: bool)
    ensures Translate(ScrollDiscrete(dx, dy), t, true, hasKeyboard) == [AxisDiscrete(t, dx, dy), Sink.Frame]
  {
  }

  lemma KeyHasNoFrame(key: u32, isPress: bool, t: u32, hasPointer: bool)
    ensures Translate(KeyboardKey(key, isPress), t, hasPointer, true)
         == [Key(t, key, if isPress then 1 else 0)]
  {
  }
}
