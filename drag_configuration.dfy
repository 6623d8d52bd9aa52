/**
 * What a value-slider style reads and writes while the user drags: the bound
 * value, the optional drag offset (where inside the thumb the touch began),
 * and the last flag passed to `onEditingChanged`. Gesture callbacks arrive
 * one after another, so a session is a sequence of events replayed in order.
 */
module DragConfiguration {
  import opened Geometry

  datatype Option<T> = None | Some(value: T)
  {
    /** `x ?? default` */
    function GetOr(default: T): T
    {
      match this
      case Some(v) => v
      case None => default
    }
  }

  /** The bound value, the `dragOffset` binding, and the last argument of `onEditingChanged`. */
  datatype DragState = DragState(value: real, dragOffset: Option<real>, editing: bool)

  /** The callbacks of the thumb's drag gesture and of the interactive track's drag gesture. */
  datatype GestureEvent =
    | ThumbDragChanged(gesture: DragValue)
    | ThumbDragEnded
    | TrackDragChanged(gesture: DragValue)
    | TrackDragEnded

  /**
   * What the gesture closures capture besides the configuration's bindings:
   * the size of the view, the configuration's bounds and step, and the two
   * conversions.
   */
  datatype DragContext = DragContext(geometry: Size, bounds: ClosedRange, step: real, conv: Conversions)

  /** The last event of a non-empty sequence. */
  function Last(events: seq<GestureEvent>): GestureEvent
    requires |events| > 0
  {
    events[|events| - 1]
  }

  /** One drag of the thumb: one or more `onChanged` calls that all began at `start`. */
  predicate ThumbDrag(events: seq<GestureEvent>, start: Point)
  {
    && |events| > 0
    && forall i :: 0 <= i < |events| ==>
         events[i].ThumbDragChanged? && events[i].gesture.startLocation == start
  }

  /** Calls of the interactive track's gesture only. */
  predicate TrackOnly(events: seq<GestureEvent>)
  {
    forall i :: 0 <= i < |events| ==> events[i].TrackDragChanged? || events[i].TrackDragEnded?
  }

  /** The state after the callbacks `events` have run, in order, from `s`. */
  function Replay(next: (DragState, GestureEvent) -> DragState, s: DragState, events: seq<GestureEvent>): DragState
    decreases |events|
  {
    if events == [] then s else Replay(next, next(s, events[0]), events[1..])
  }

  /** Replaying two sequences one after the other is replaying their concatenation. */
  lemma {:induction false} ReplayAppend(next: (DragState, GestureEvent) -> DragState, s: DragState,
                                        a: seq<GestureEvent>, b: seq<GestureEvent>)
    ensures Replay(next, s, a + b) == Replay(next, Replay(next, s, a), b)
    decreases |a|
  {
    if a == [] {
      assert a + b == b;
    } else {
      assert (a + b)[0] == a[0] && (a + b)[1..] == a[1..] + b;
      ReplayAppend(next, next(s, a[0]), a[1..], b);
    }
  }

  /**
   * The slider's configuration as the styles see it: the `value` binding, the
   * `dragOffset` binding, the effect of `onEditingChanged` (its last argument),
   * and the fixed `bounds` and `step`.
   */
  class Configuration {
    var value: real
    var dragOffset: Option<real>
    var editing: bool
    const bounds: ClosedRange
    const step: real

    constructor (value: real, bounds: ClosedRange, step: real)
      ensures this.value == value && this.bounds == bounds && this.step == step
      ensures dragOffset == None && !editing
    {
      this.value := value;
      this.bounds := bounds;
      this.step := step;
      dragOffset := None;
      editing := false;
    }

    /** The part of the configuration that the gesture callbacks change. */
    function State(): DragState
      reads this
    {
      DragState(value, dragOffset, editing)
    }
  }

  /** The context a closure sees for this configuration. */
  function ContextOf(config: Configuration, geometry: Size, conv: Conversions): DragContext
  {
    DragContext(geometry, config.bounds, config.step, conv)
  }
}
