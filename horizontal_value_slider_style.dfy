/**
 * `HorizontalValueSliderStyle`: the thumb sits at `distanceFrom(value)` along
 * the width; dragging it keeps the point of the thumb under the finger fixed;
 * the interactive track jumps the value to the touched point; tick marks are
 * spread by a private copy of the tick-mark calculation.
 */
module HorizontalStyle {
  import opened Geometry
  import opened DragConfiguration
  import opened ValueOptions
  import opened TickMarks

  datatype HorizontalValueSliderStyle = HorizontalValueSliderStyle(
    thumbSize: Size,
    thumbInteractiveSize: Size,
    thumbPositionOffset: real,
    options: ValueSliderOptions)
  {
    /** Both the leading and the trailing offset of every conversion: half the thumb's width. */
    function EdgeOffset(): real
    {
      thumbSize.width / 2.0
    }

    /** `valueFrom(distance:...)` along the view's width. */
    function ValueAt(ctx: DragContext, distance: real): real
    {
      ctx.conv.valueFrom(distance, ctx.geometry.width, ctx.bounds, ctx.step, EdgeOffset(), EdgeOffset())
    }

    /** `distanceFrom(value:...)` along the view's width. */
    function DistanceOf(ctx: DragContext, value: real): real
    {
      ctx.conv.distanceFrom(value, ctx.geometry.width, ctx.bounds, EdgeOffset(), EdgeOffset())
    }

    /** Where the thumb is drawn for `value`. */
    function ThumbPosition(ctx: DragContext, value: real): (p: Point)
      ensures p.x == ctx.conv.distanceFrom(value, ctx.geometry.width, ctx.bounds, thumbSize.width / 2.0, thumbSize.width / 2.0)
      ensures p.y - thumbPositionOffset == ctx.geometry.height / 2.0
    {
      Point(DistanceOf(ctx, value), ctx.geometry.height / 2.0 + thumbPositionOffset)
    }

    /**
     * The thumb's `onChanged`: on the first call of a drag the offset of the
     * touch from the thumb's centre is recorded; every call sets the value
     * from the finger's x minus that offset.
     */
    function AfterThumbChanged(ctx: DragContext, s: DragState, g: DragValue): DragState
    {
      var offset := if s.dragOffset.None? then Some(g.startLocation.x - DistanceOf(ctx, s.value)) else s.dragOffset;
      DragState(ValueAt(ctx, g.location.x - offset.GetOr(0.0)), offset, true)
    }

    /** The thumb's `onEnded`: forget the offset, editing is over. */
    function AfterThumbEnded(s: DragState): DragState
    {
      DragState(s.value, None, false)
    }

    /**
     * The interactive track's `onChanged`: the value comes from the finger's x
     * alone. Without the interactive-track option the plain track has no
     * gesture and nothing happens.
     */
    function AfterTrackChanged(ctx: DragContext, s: DragState, g: DragValue): DragState
    {
      if options.HasInteractiveTrack() then DragState(ValueAt(ctx, g.location.x), s.dragOffset, true) else s
    }

    /** The interactive track's `onEnded`: editing is over. */
    function AfterTrackEnded(s: DragState): DragState
    {
      if options.HasInteractiveTrack() then DragState(s.value, s.dragOffset, false) else s
    }

    /** The effect of one callback. */
    function Next(ctx: DragContext, s: DragState, e: GestureEvent): DragState
    {
      match e
      case ThumbDragChanged(g) => AfterThumbChanged(ctx, s, g)
      case ThumbDragEnded => AfterThumbEnded(s)
      case TrackDragChanged(g) => AfterTrackChanged(ctx, s, g)
      case TrackDragEnded => AfterTrackEnded(s)
    }

    /** The state after a sequence of callbacks. */
    function Session(ctx: DragContext, s: DragState, events: seq<GestureEvent>): DragState
    {
      Replay((t, e) => Next(ctx, t, e), s, events)
    }

    method OnThumbChanged(config: Configuration, geometry: Size, conv: Conversions, g: DragValue)
      modifies config
      ensures config.State() == AfterThumbChanged(ContextOf(config, geometry, conv), old(config.State()), g)
      ensures config.editing
      ensures old(config.dragOffset).None? ==>
        config.dragOffset == Some(g.startLocation.x - ThumbPosition(ContextOf(config, geometry, conv), old(config.value)).x)
      ensures old(config.dragOffset).Some? ==> config.dragOffset == old(config.dragOffset)
      ensures config.dragOffset.Some? &&
        config.value == conv.valueFrom(g.location.x - config.dragOffset.value, geometry.width, config.bounds,
                                       config.step, thumbSize.width / 2.0, thumbSize.width / 2.0)
    {
      var ctx := ContextOf(config, geometry, conv);
      config.editing := true;
      if config.dragOffset == None {
        config.dragOffset := Some(g.startLocation.x - DistanceOf(ctx, config.value));
      }
      var computedValue := ValueAt(ctx, g.location.x - config.dragOffset.GetOr(0.0));
      config.value := computedValue;
    }

    method OnThumbEnded(config: Configuration)
      modifies config
      ensures config.State() == AfterThumbEnded(old(config.State()))
      ensures config.dragOffset == None && !config.editing && config.value == old(config.value)
    {
      config.dragOffset := None;
      config.editing := false;
    }

    method OnTrackChanged(config: Configuration, geometry: Size, conv: Conversions, g: DragValue)
      modifies config
      ensures config.State() == AfterTrackChanged(ContextOf(config, geometry, conv), old(config.State()), g)
      ensures config.dragOffset == old(config.dragOffset)
      ensures options.HasInteractiveTrack() ==>
        (config.editing &&
         config.value == conv.valueFrom(g.location.x, geometry.width, config.bounds, config.step,
                                        thumbSize.width / 2.0, thumbSize.width / 2.0))
    {
      if options.HasInteractiveTrack() {
        config.editing := true;
        var computedValue := ValueAt(ContextOf(config, geometry, conv), g.location.x);
        config.value := computedValue;
      }
    }

    method OnTrackEnded(config: Configuration)
      modifies config
      ensures config.State() == AfterTrackEnded(old(config.State()))
      ensures config.dragOffset == old(config.dragOffset) && config.value == old(config.value)
    {
      if options.HasInteractiveTrack() {
        config.editing := false;
      }
    }

    /** The style's private copy of the tick-mark calculation; same body, same marks. */
    method Calculate(number: int, bounds: ClosedRange) returns (marks: seq<real>)
      requires number >= 2 ==> bounds.lowerBound < bounds.upperBound
      ensures marks == Marks(number, bounds)
    {
      var lower := bounds.lowerBound;
      var upper := bounds.upperBound;
      marks := [];
      if number <= 0 {
        return [];
      }
      if number == 1 {
        var mark := (upper - lower) / 2.0;
        marks := marks + [mark];
      } else {
        marks := StrideLoop(lower, upper, Step(number, bounds));
      }
    }

    /** Where the upper or lower tick mark for `mark` is drawn. */
    function TickMarkPosition(ctx: DragContext, mark: real, upper: bool): (p: Point)
      ensures p.x == ctx.conv.distanceFrom(mark, ctx.geometry.width, ctx.bounds, thumbSize.width / 2.0, thumbSize.width / 2.0)
      ensures upper <==> p.y < ctx.geometry.height / 2.0
      ensures (if upper then ctx.geometry.height / 2.0 - p.y else p.y - ctx.geometry.height / 2.0) == DefaultTickMarkPosition
    {
      Point(DistanceOf(ctx, mark),
            if upper then ctx.geometry.height / 2.0 - DefaultTickMarkPosition
            else ctx.geometry.height / 2.0 + DefaultTickMarkPosition)
    }
  }

  /**
   * No jump when a drag starts: on the first `onChanged`, with the finger still
   * where it went down, the distance handed to `valueFrom` is the thumb's own.
   */
  lemma NoJumpAtDragStart(style: HorizontalValueSliderStyle, ctx: DragContext, s: DragState, g: DragValue)
    requires s.dragOffset.None? && g.location == g.startLocation
    ensures style.Next(ctx, s, ThumbDragChanged(g)).value == style.ValueAt(ctx, style.DistanceOf(ctx, s.value))
  {
  }

  /**
   * Once an offset is recorded, further `onChanged` calls keep it, and the
   * value follows the finger's latest x minus that offset.
   */
  lemma {:induction false} OffsetKeptWhileDragging(style: HorizontalValueSliderStyle, ctx: DragContext,
                                                   s: DragState, events: seq<GestureEvent>, start: Point)
    requires s.dragOffset.Some? && ThumbDrag(events, start)
    ensures style.Session(ctx, s, events) ==
      DragState(style.ValueAt(ctx, Last(events).gesture.location.x - s.dragOffset.value), s.dragOffset, true)
    decreases |events|
  {
    var t := style.Next(ctx, s, events[0]);
    if |events| == 1 {
      assert events[1..] == [];
      assert style.Session(ctx, s, events) == style.Session(ctx, t, []) == t;
    } else {
      assert ThumbDrag(events[1..], start);
      OffsetKeptWhileDragging(style, ctx, t, events[1..], start);
      assert Last(events[1..]) == Last(events);
    }
  }

  /**
   * One whole drag of the thumb from rest: the offset is set once, on the first
   * call, to where inside the thumb the touch began, and from then on the
   * distance handed to `valueFrom` is the thumb's starting position plus how
   * far the finger has moved since it went down.
   */
  lemma {:induction false} DragFollowsFinger(style: HorizontalValueSliderStyle, ctx: DragContext,
                                             s: DragState, events: seq<GestureEvent>, start: Point)
    requires s.dragOffset.None? && ThumbDrag(events, start)
    ensures var thumbStart := style.ThumbPosition(ctx, s.value).x;
      style.Session(ctx, s, events) ==
        DragState(style.ValueAt(ctx, thumbStart + (Last(events).gesture.location.x - start.x)),
                  Some(start.x - thumbStart), true)
  {
    var thumbStart := style.ThumbPosition(ctx, s.value).x;
    var t := style.Next(ctx, s, events[0]);
    assert t.dragOffset == Some(start.x - thumbStart);
    if |events| == 1 {
      assert events[1..] == [];
      assert style.Session(ctx, s, events) == style.Session(ctx, t, []) == t;
    } else {
      assert ThumbDrag(events[1..], start);
      OffsetKeptWhileDragging(style, ctx, t, events[1..], start);
      assert Last(events[1..]) == Last(events);
    }
  }

  /** The same holds after every `onChanged` of the drag, not only the last one. */
  lemma DragFollowsFingerAtEveryCall(style: HorizontalValueSliderStyle, ctx: DragContext,
                                     s: DragState, events: seq<GestureEvent>, start: Point)
    requires s.dragOffset.None? && ThumbDrag(events, start)
    ensures forall k :: 0 <= k < |events| ==>
      style.Session(ctx, s, events[..k + 1]).value ==
        style.ValueAt(ctx, style.ThumbPosition(ctx, s.value).x + (events[k].gesture.location.x - start.x)) &&
      style.Session(ctx, s, events[..k + 1]).dragOffset == Some(start.x - style.ThumbPosition(ctx, s.value).x) &&
      style.Session(ctx, s, events[..k + 1]).editing
  {
    forall k | 0 <= k < |events|
      ensures style.Session(ctx, s, events[..k + 1]).value ==
        style.ValueAt(ctx, style.ThumbPosition(ctx, s.value).x + (events[k].gesture.location.x - start.x)) &&
      style.Session(ctx, s, events[..k + 1]).dragOffset == Some(start.x - style.ThumbPosition(ctx, s.value).x) &&
      style.Session(ctx, s, events[..k + 1]).editing
    {
      assert ThumbDrag(events[..k + 1], start);
      DragFollowsFinger(style, ctx, s, events[..k + 1], start);
    }
  }

  /**
   * `onEnded` clears the offset, so the next drag records a fresh one from
   * wherever the first drag left the thumb.
   */
  lemma NextDragRecordsFreshOffset(style: HorizontalValueSliderStyle, ctx: DragContext, s: DragState,
                                   first: seq<GestureEvent>, second: seq<GestureEvent>, start: Point)
    requires ThumbDrag(second, start)
    ensures var rest := style.Session(ctx, s, first);
      style.Session(ctx, s, first + [ThumbDragEnded] + second).dragOffset ==
        Some(start.x - style.ThumbPosition(ctx, rest.value).x)
  {
    var next := (t, e) => style.Next(ctx, t, e);
    var rest := style.Session(ctx, s, first);
    ReplayAppend(next, s, first + [ThumbDragEnded], second);
    ReplayAppend(next, s, first, [ThumbDragEnded]);
    assert Replay(next, rest, [ThumbDragEnded]) == style.AfterThumbEnded(rest);
    DragFollowsFinger(style, ctx, style.AfterThumbEnded(rest), second, start);
  }

  /**
   * The interactive track never reads or writes the drag offset: the value it
   * sets depends only on the finger's x, and any run of track callbacks leaves
   * the offset as it was.
   */
  lemma TrackIgnoresOffset(style: HorizontalValueSliderStyle, ctx: DragContext, s: DragState, g: DragValue)
    requires style.options.HasInteractiveTrack()
    ensures style.Next(ctx, s, TrackDragChanged(g)) ==
      DragState(style.ValueAt(ctx, g.location.x), s.dragOffset, true)
  {
  }

  lemma {:induction false} TrackKeepsOffset(style: HorizontalValueSliderStyle, ctx: DragContext,
                                            s: DragState, events: seq<GestureEvent>)
    requires TrackOnly(events)
    ensures style.Session(ctx, s, events).dragOffset == s.dragOffset
    decreases |events|
  {
    if events != [] {
      assert TrackOnly(events[1..]);
      TrackKeepsOffset(style, ctx, style.Next(ctx, s, events[0]), events[1..]);
    }
  }

  /** A tick mark for a value is drawn at the same x as the thumb would be for that value. */
  lemma TickMarkAlignsWithThumb(style: HorizontalValueSliderStyle, ctx: DragContext, mark: real, upper: bool)
    ensures style.TickMarkPosition(ctx, mark, upper).x == style.ThumbPosition(ctx, mark).x
  {
  }
}
