/**
 * `VerticalValueSliderStyle`: distances are measured along the height, and
 * the thumb is drawn at `height - distanceFrom(value)`, so a larger value sits
 * higher up. Dragging keeps the point of the thumb under the finger fixed in
 * that flipped axis; the interactive track and the tick marks do not flip.
 */
module VerticalStyle {
  import opened Geometry
  import opened DragConfiguration
  import opened ValueOptions
  import opened TickMarks

  datatype VerticalValueSliderStyle = VerticalValueSliderStyle(
    thumbSize: Size,
    thumbInteractiveSize: Size,
    thumbPositionOffset: real,
    options: ValueSliderOptions)
  {
    /** Both the leading and the trailing offset of every conversion: half the thumb's height. */
    function EdgeOffset(): real
    {
      thumbSize.height / 2.0
    }

    /** `valueFrom(distance:...)` along the view's height. */
    function ValueAt(ctx: DragContext, distance: real): real
    {
      ctx.conv.valueFrom(distance, ctx.geometry.height, ctx.bounds, ctx.step, EdgeOffset(), EdgeOffset())
    }

    /** `distanceFrom(value:...)` along the view's height. */
    function DistanceOf(ctx: DragContext, value: real): real
    {
      ctx.conv.distanceFrom(value, ctx.geometry.height, ctx.bounds, EdgeOffset(), EdgeOffset())
    }

    /** Where the thumb is drawn for `value`: the distance is measured up from the bottom. */
    function ThumbPosition(ctx: DragContext, value: real): (p: Point)
      ensures p.y == ctx.geometry.height - ctx.conv.distanceFrom(value, ctx.geometry.height, ctx.bounds, thumbSize.height / 2.0, thumbSize.height / 2.0)
      ensures p.x - thumbPositionOffset == ctx.geometry.width / 2.0
    {
      Point(ctx.geometry.width / 2.0 + thumbPositionOffset, ctx.geometry.height - DistanceOf(ctx, value))
    }

    /** The distance handed to `valueFrom` for a finger at `location`, given the recorded offset. */
    function DragDistance(ctx: DragContext, offset: real, location: Point): real
    {
      ctx.geometry.height - (location.y - offset)
    }

    /**
     * The thumb's `onChanged`: on the first call of a drag the offset of the
     * touch from the thumb's centre is recorded; every call sets the value
     * from the flipped finger position corrected by that offset.
     */
    function AfterThumbChanged(ctx: DragContext, s: DragState, g: DragValue): DragState
    {
      var offset := if s.dragOffset.None? then Some(g.startLocation.y - (ctx.geometry.height - DistanceOf(ctx, s.value)))
                    else s.dragOffset;
      DragState(ValueAt(ctx, DragDistance(ctx, offset.GetOr(0.0), g.location)), offset, true)
    }

    /** The thumb's `onEnded`: forget the offset, editing is over. */
    function AfterThumbEnded(s: DragState): DragState
    {
      DragState(s.value, None, false)
    }

    /**
     * The interactive track's `onChanged`: the value is the upper bound minus
     * `valueFrom` of the finger's y, with no height flip and no offset. Without
     * the interactive-track option the plain track has no gesture.
     */
    function AfterTrackChanged(ctx: DragContext, s: DragState, g: DragValue): DragState
    {
      if options.HasInteractiveTrack() then
        DragState(ctx.bounds.upperBound - ValueAt(ctx, g.location.y), s.dragOffset, true)
      else s
    }

    /** The interactive track's `onEnded`: editing is over. */
    function AfterTrackEnded(s: DragState): DragState
    {
      if options.HasInteractiveTrack() then DragState(s.value, s.dragOffset, false) else s
    }

    /** The effect of one callback. */
    function Next(ctx: DragContext, s: DragState, e: GestureEvent): DragState
    {
      match e
      case ThumbDragChanged(g) => AfterThumbChanged(ctx, s, g)
      case ThumbDragEnded => AfterThumbEnded(s)
      case TrackDragChanged(g) => AfterTrackChanged(ctx, s, g)
      case TrackDragEnded => AfterTrackEnded(s)
    }

    /** The state after a sequence of callbacks. */
    function Session(ctx: DragContext, s: DragState, events: seq<GestureEvent>): DragState
    {
      Replay((t, e) => Next(ctx, t, e), s, events)
    }

    method OnThumbChanged(config: Configuration, geometry: Size, conv: Conversions, g: DragValue)
      modifies config
      ensures config.State() == AfterThumbChanged(ContextOf(config, geometry, conv), old(config.State()), g)
      ensures config.editing
      ensures old(config.dragOffset).None? ==>
        config.dragOffset == Some(g.startLocation.y - ThumbPosition(ContextOf(config, geometry, conv), old(config.value)).y)
      ensures old(config.dragOffset).Some? ==> config.dragOffset == old(config.dragOffset)
      ensures config.dragOffset.Some? &&
        config.value == conv.valueFrom(geometry.height - (g.location.y - config.dragOffset.value), geometry.height,
                                       config.bounds, config.step, thumbSize.height / 2.0, thumbSize.height / 2.0)
    {
      var ctx := ContextOf(config, geometry, conv);
      config.editing := true;
      if config.dragOffset == None {
        config.dragOffset := Some(g.startLocation.y - (geometry.height - DistanceOf(ctx, config.value)));
      }
      var computedValue := ValueAt(ctx, geometry.height - (g.location.y - config.dragOffset.GetOr(0.0)));
      config.value := computedValue;
    }

    method OnThumbEnded(config: Configuration)
      modifies config
      ensures config.State() == AfterThumbEnded(old(config.State()))
      ensures config.dragOffset == None && !config.editing && config.value == old(config.value)
    {
      config.dragOffset := None;
      config.editing := false;
    }

    method OnTrackChanged(config: Configuration, geometry: Size, conv: Conversions, g: DragValue)
      modifies config
      ensures config.State() == AfterTrackChanged(ContextOf(config, geometry, conv), old(config.State()), g)
      ensures config.dragOffset == old(config.dragOffset)
      ensures options.HasInteractiveTrack() ==>
        (config.editing &&
         config.value == config.bounds.upperBound -
           conv.valueFrom(g.location.y, geometry.height, config.bounds, config.step,
                          thumbSize.height / 2.0, thumbSize.height / 2.0))
    {
      if options.HasInteractiveTrack() {
        config.editing := true;
        var computedValue := config.bounds.upperBound - ValueAt(ContextOf(config, geometry, conv), g.location.y);
        config.value := computedValue;
      }
    }

    method OnTrackEnded(config: Configuration)
      modifies config
      ensures config.State() == AfterTrackEnded(old(config.State()))
      ensures config.dragOffset == old(config.dragOffset) && config.value == old(config.value)
    {
      if options.HasInteractiveTrack() {
        config.editing := false;
      }
    }

    /** Where the upper or lower tick mark for `mark` is drawn: at `distanceFrom(mark)`, not flipped. */
    function TickMarkPosition(ctx: DragContext, mark: real, upper: bool): (p: Point)
      ensures p.y == ctx.conv.distanceFrom(mark, ctx.geometry.height, ctx.bounds, thumbSize.height / 2.0, thumbSize.height / 2.0)
      ensures upper <==> p.x < ctx.geometry.width / 2.0
      ensures (if upper then ctx.geometry.width / 2.0 - p.x else p.x - ctx.geometry.width / 2.0) == DefaultTickMarkPosition
    {
      Point(if upper then ctx.geometry.width / 2.0 - DefaultTickMarkPosition
            else ctx.geometry.width / 2.0 + DefaultTickMarkPosition,
            DistanceOf(ctx, mark))
    }
  }

  /**
   * No jump when a drag starts: on the first `onChanged`, with the finger still
   * where it went down, the distance handed to `valueFrom` is the thumb's own.
   */
  lemma NoJumpAtDragStart(style: VerticalValueSliderStyle, ctx: DragContext, s: DragState, g: DragValue)
    requires s.dragOffset.None? && g.location == g.startLocation
    ensures style.Next(ctx, s, ThumbDragChanged(g)).value == style.ValueAt(ctx, style.DistanceOf(ctx, s.value))
  {
  }

  /** Moving the finger down by delta (y grows) lowers the distance handed to `valueFrom` by delta. */
  lemma FingerDownLowersDistance(style: VerticalValueSliderStyle, ctx: DragContext, offset: real, p: Point, delta: real)
    ensures style.DragDistance(ctx, offset, Point(p.x, p.y + delta)) == style.DragDistance(ctx, offset, p) - delta
  {
  }

  /**
   * Once an offset is recorded, further `onChanged` calls keep it, and the
   * value follows the finger's latest y through the flipped distance.
   */
  lemma {:induction false} OffsetKeptWhileDragging(style: VerticalValueSliderStyle, ctx: DragContext,
                                                   s: DragState, events: seq<GestureEvent>, start: Point)
    requires s.dragOffset.Some? && ThumbDrag(events, start)
    ensures style.Session(ctx, s, events) ==
      DragState(style.ValueAt(ctx, style.DragDistance(ctx, s.dragOffset.value, Last(events).gesture.location)),
                s.dragOffset, true)
    decreases |events|
  {
    var t := style.Next(ctx, s, events[0]);
    if |events| == 1 {
      assert events[1..] == [];
      assert style.Session(ctx, s, events) == style.Session(ctx, t, []) == t;
    } else {
      assert ThumbDrag(events[1..], start);
      OffsetKeptWhileDragging(style, ctx, t, events[1..], start);
      assert Last(events[1..]) == Last(events);
    }
  }

  /**
   * One whole drag of the thumb from rest: the offset is set once, on the first
   * call, to where inside the thumb the touch began, and from then on the
   * distance handed to `valueFrom` is the thumb's starting distance minus how
   * far the finger has moved down since it went down.
   */
  lemma {:induction false} DragFollowsFinger(style: VerticalValueSliderStyle, ctx: DragContext,
                                             s: DragState, events: seq<GestureEvent>, start: Point)
    requires s.dragOffset.None? && ThumbDrag(events, start)
    ensures var d := style.DistanceOf(ctx, s.value);
      style.Session(ctx, s, events) ==
        DragState(style.ValueAt(ctx, d - (Last(events).gesture.location.y - start.y)),
                  Some(start.y - style.ThumbPosition(ctx, s.value).y), true)
  {
    var d := style.DistanceOf(ctx, s.value);
    var t := style.Next(ctx, s, events[0]);
    var offset := start.y - style.ThumbPosition(ctx, s.value).y;
    assert t.dragOffset == Some(offset);
    assert style.DragDistance(ctx, offset, Last(events).gesture.location) ==
           d - (Last(events).gesture.location.y - start.y);
    if |events| == 1 {
      assert events[1..] == [];
      assert style.Session(ctx, s, events) == style.Session(ctx, t, []) == t;
    } else {
      assert ThumbDrag(events[1..], start);
      OffsetKeptWhileDragging(style, ctx, t, events[1..], start);
      assert Last(events[1..]) == Last(events);
    }
  }

  /** The same holds after every `onChanged` of the drag, not only the last one. */
  lemma DragFollowsFingerAtEveryCall(style: VerticalValueSliderStyle, ctx: DragContext,
                                     s: DragState, events: seq<GestureEvent>, start: Point)
    requires s.dragOffset.None? && ThumbDrag(events, start)
    ensures forall k :: 0 <= k < |events| ==>
      style.Session(ctx, s, events[..k + 1]).value ==
        style.ValueAt(ctx, style.DistanceOf(ctx, s.value) - (events[k].gesture.location.y - start.y)) &&
      style.Session(ctx, s, events[..k + 1]).dragOffset == Some(start.y - style.ThumbPosition(ctx, s.value).y) &&
      style.Session(ctx, s, events[..k + 1]).editing
  {
    forall k | 0 <= k < |events|
      ensures style.Session(ctx, s, events[..k + 1]).value ==
        style.ValueAt(ctx, style.DistanceOf(ctx, s.value) - (events[k].gesture.location.y - start.y)) &&
      style.Session(ctx, s, events[..k + 1]).dragOffset == Some(start.y - style.ThumbPosition(ctx, s.value).y) &&
      style.Session(ctx, s, events[..k + 1]).editing
    {
      assert ThumbDrag(events[..k + 1], start);
      DragFollowsFinger(style, ctx, s, events[..k + 1], start);
    }
  }

  /**
   * `onEnded` clears the offset, so the next drag records a fresh one from
   * wherever the first drag left the thumb.
   */
  lemma NextDragRecordsFreshOffset(style: VerticalValueSliderStyle, ctx: DragContext, s: DragState,
                                   first: seq<GestureEvent>, second: seq<GestureEvent>, start: Point)
    requires ThumbDrag(second, start)
    ensures var rest := style.Session(ctx, s, first);
      style.Session(ctx, s, first + [ThumbDragEnded] + second).dragOffset ==
        Some(start.y - style.ThumbPosition(ctx, rest.value).y)
  {
    var next := (t, e) => style.Next(ctx, t, e);
    var rest := style.Session(ctx, s, first);
    ReplayAppend(next, s, first + [ThumbDragEnded], second);
    ReplayAppend(next, s, first, [ThumbDragEnded]);
    assert Replay(next, rest, [ThumbDragEnded]) == style.AfterThumbEnded(rest);
    DragFollowsFinger(style, ctx, style.AfterThumbEnded(rest), second, start);
  }

  /**
   * The interactive track never reads or writes the drag offset: the value it
   * sets is the upper bound minus `valueFrom` of the finger's y, and any run
   * of track callbacks leaves the offset as it was.
   */
  lemma TrackIgnoresOffset(style: VerticalValueSliderStyle, ctx: DragContext, s: DragState, g: DragValue)
    requires style.options.HasInteractiveTrack()
    ensures style.Next(ctx, s, TrackDragChanged(g)) ==
      DragState(ctx.bounds.upperBound - style.ValueAt(ctx, g.location.y), s.dragOffset, true)
  {
  }

  lemma {:induction false} TrackKeepsOffset(style: VerticalValueSliderStyle, ctx: DragContext,
                                            s: DragState, events: seq<GestureEvent>)
    requires TrackOnly(events)
    ensures style.Session(ctx, s, events).dragOffset == s.dragOffset
    decreases |events|
  {
    if events != [] {
      assert TrackOnly(events[1..]);
      TrackKeepsOffset(style, ctx, style.Next(ctx, s, events[0]), events[1..]);
    }
  }

  /**
   * A tick mark for a value is drawn at the mirror image, across the view's
   * height, of where the thumb would be for that value: ticks are not flipped.
   */
  lemma TickMarkMirrorsThumb(style: VerticalValueSliderStyle, ctx: DragContext, mark: real, upper: bool)
    ensures style.TickMarkPosition(ctx, mark, upper).y == ctx.geometry.height - style.ThumbPosition(ctx, mark).y
  {
  }
}
