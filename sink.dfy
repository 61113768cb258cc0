/**
 * The virtual-input sink, seen only through the calls made on it.
 * Each constructor records the arguments one call site passes; the Wayland
 * protocol requests behind the calls are not part of this model.
 */
module Sink {
  import opened Ints

  /** `wl_pointer_axis`: VERTICAL_SCROLL is 0, HORIZONTAL_SCROLL is 1 on the wire. */
  datatype ScrollAxis = VerticalScroll | HorizontalScroll

  datatype SinkCall =
      // virtual pointer
    | Motion(time: u32, dx: real, dy: real)
    | MotionAbsolute(time: u32, x: u32, y: u32, xExtent: u32, yExtent: u32)
    | Button(time: u32, button: u32, state: u32)
      /** `send_axis(time, axis, value)`, the three-argument form */
    | Axis(time: u32, axis: ScrollAxis, value: real)
      /** `send_axis(time, axis, value, other)`, the four-argument form */
    | AxisWithSecondary(time: u32, axis: ScrollAxis, value: real, other: real)
    | AxisDiscrete(time: u32, discreteDx: i32, discreteDy: i32)
    | Frame
      // virtual keyboard
    | Key(time: u32, key: u32, state: u32)

  /** True of every call that goes to the virtual pointer rather than the keyboard. */
  predicate IsPointerCall(c: SinkCall) {
    !c.Key?
  }

  /** Every timed call carries `t` (a frame carries no time). */
  predicate StampedAt(c: SinkCall, t: u32) {
    c.Frame? || c.time == t
  }

  function FrameCount(cs: seq<SinkCall>): nat {
    if cs == [] then 0 else (if cs[0].Frame? then 1 else 0) + FrameCount(cs[1..])
  }

  function KeyCount(cs: seq<SinkCall>): nat {
    if cs == [] then 0 else (if cs[0].Key? then 1 else 0) + KeyCount(cs[1..])
  }

  lemma {:induction false} FrameCountAppend(a: seq<SinkCall>, b: seq<SinkCall>)
    ensures FrameCount(a + b) == FrameCount(a) + FrameCount(b)
  {
    if a != [] {
      assert (a + b)[1..] == a[1..] + b;
      FrameCountAppend(a[1..], b);
    } else {
      assert a + b == b;
    }
  }

  lemma {:induction false} KeyCountAppend(a: seq<SinkCall>, b: seq<SinkCall>)
    ensures KeyCount(a + b) == KeyCount(a) + KeyCount(b)
  {
    if a != [] {
      assert (a + b)[1..] == a[1..] + b;
      KeyCountAppend(a[1..], b);
    } else {
      assert a + b == b;
    }
  }

  lemma {:induction false} NoFramesNoKeys(cs: seq<SinkCall>)
    requires forall i :: 0 <= i < |cs| ==> !cs[i].Frame? && !cs[i].Key?
    ensures FrameCount(cs) == 0 && KeyCount(cs) == 0
  {
    if cs != [] {
      NoFramesNoKeys(cs[1..]);
    }
  }

  /** What a four-argument axis call becomes when the secondary value is dropped. */
  function DropSecondary(c: SinkCall): (d: SinkCall)
    ensures c.AxisWithSecondary? ==> d == Axis(c.time, c.axis, c.value)
    ensures !c.AxisWithSecondary? ==> d == c
  {
    if c.AxisWithSecondary? then Axis(c.time, c.axis, c.value) else c
  }

  function DropSecondaryAll(cs: seq<SinkCall>): (ds: seq<SinkCall>)
    ensures |ds| == |cs|
    ensures forall i :: 0 <= i < |cs| ==> ds[i] == DropSecondary(cs[i])
  {
    if cs == [] then [] else [DropSecondary(cs[0])] + DropSecondaryAll(cs[1..])
  }
}
