# Value-slider geometry, option sets and drag sessions

A model of the sequential core of a family of SwiftUI slider controls:

- **Tick-mark spacing** (`DefaultTickMark.calculate` and the private copy in the
  horizontal value-slider style): a closed range `lower...upper` and a count
  `number` become a list of evenly spaced marks, with special cases for a count
  that is not positive and for a count of one. The platform's
  `stride(from:through:by:)` is modelled by `TickMarks.StrideThrough`
  (`from + k * stride` for every k that does not pass `through`) and the
  `for mark in stride` loop by `TickMarks.StrideLoop`.
- **Option sets** (`ValueSliderOptions`, `PointSliderOptions`): bit flags whose
  raw value is an integer; the interactive track is bit 0 and the marker track
  bit 1. `contains` is a bitmask test with two's-complement `&`, and `insert`
  uses `|` (module `OptionBits`); inserting a flag a value-slider set lacks
  drops its makers. `PointSliderOptions` does not keep its makers: its
  `init(rawValue:makers:)` overwrites the type-wide static `makers`, modelled
  as the field of the one `PointOptions.Statics` object.
- **Thumb-drag sessions** in the horizontal and vertical value-slider styles:
  the configuration (`DragConfiguration.Configuration`) holds the bound
  `value`, the `dragOffset` binding (`None` or the offset of the touch inside
  the thumb) and the last argument passed to `onEditingChanged`. The gesture
  closures are methods of the style that change the configuration; each is tied
  to a pure step function (`AfterThumbChanged`, `AfterThumbEnded`,
  `AfterTrackChanged`, `AfterTrackEnded`), and a sequence of callbacks is
  replayed by `Session`. The lemmas about sessions state what a whole drag
  does: the offset is recorded once, the value follows the finger without a
  jump, `onEnded` makes the next drag record a fresh offset, and the
  interactive track never touches the offset.

The conversions `valueFrom` and `distanceFrom` are not part of this model. They
are arbitrary functions handed in as a `Geometry.Conversions` value: nothing is
assumed about clamping, rounding to the step, or their being inverse to each
other. Every fact proved about a drag holds whatever they compute.

`DefaultTickMark.number` is a mutable static read by `calculate`; the model
passes its current value as the parameter `number`, and
`TickMarks.DefaultTickMarkNumber` (5) is its initial value. The vertical style
uses `DefaultTickMark.calculate` itself
(Sources/Sliders/ValueSlider/Styles/Vertical/VerticalValueSliderStyle.swift:12),
so its marks are those of `TickMarks.Calculate`.

Two details of the code that a reader might not expect are modelled as written: with a
count of one the single mark is `(upper - lower) / 2`, half the width of the
range rather than its midpoint, and it lies outside the range unless
`upper >= 3 * lower` and `upper >= -lower` (`TickMarkProperties.SingleMarkIsHalfWidth`).
The vertical style places tick marks at `distanceFrom(mark)` while the thumb is
at `height - distanceFrom(value)`, so a tick for a value is the mirror image of
the thumb for that value (`VerticalStyle.TickMarkMirrorsThumb`).

## Model

| member | source | states |
|---|---|---|
| TickMarks.StrideThrough | Sources/Sliders/Base/DefaultTickMark.swift:32-35 | every value `from + k * stride` of the stride stays at or below `through`, and the next one would pass it |
| TickMarks.StrideLoop | Sources/Sliders/Base/DefaultTickMark.swift:32-35 | appending each value of `stride(from: lower, through: upper, by: stride)` in turn yields exactly the stride's values |
| TickMarks.Calculate | Sources/Sliders/Base/DefaultTickMark.swift:23-38 | the marks are `Marks(number, bounds)`: none for a count that is not positive, `[(upper - lower) / 2]` for one, the stride through `upper` by `(upper - lower) / (number - 1)` otherwise; a zero stride (two or more marks on a one-point range) is excluded as the platform traps on it |
| TickMarkProperties.NoMarksWhenCountNotPositive | Sources/Sliders/Base/DefaultTickMark.swift:27 | a count of zero or less gives the empty list |
| TickMarkProperties.SingleMarkIsHalfWidth | Sources/Sliders/Base/DefaultTickMark.swift:28-30 | a count of one gives the single mark `(upper - lower) / 2`, which lies in the range exactly when `upper >= 3 * lower` and `upper >= -lower` |
| TickMarkProperties.MarkCount | Sources/Sliders/Base/DefaultTickMark.swift:32-33 | with two or more marks over a proper range, in exact arithmetic, there are exactly `number` of them |
| TickMarkProperties.MarkPositions | Sources/Sliders/Base/DefaultTickMark.swift:32-34 | mark k is `lower + k * step` and lies within `[lower, upper]` |
| TickMarkProperties.MarkEnds | Sources/Sliders/Base/DefaultTickMark.swift:32-33 | the first mark is `lower` and the last is `upper`, since the stride runs `through:` the upper bound |
| TickMarkProperties.ConsecutiveMarksOneStepApart | Sources/Sliders/Base/DefaultTickMark.swift:32-33 | consecutive marks differ by exactly `(upper - lower) / (number - 1)` |
| TickMarkProperties.MarksIncrease | Sources/Sliders/Base/DefaultTickMark.swift:32-34 | the marks are appended in strictly increasing order |
| TickMarkProperties.DefaultCountOnUnitRange | Sources/Sliders/Base/DefaultTickMark.swift:21-34 | with the default count 5 the range `0...1` gives `[0, 0.25, 0.5, 0.75, 1]` |
| HorizontalStyle.HorizontalValueSliderStyle.Calculate | Sources/Sliders/ValueSlider/Styles/Horizontal/HorizontalValueSliderStyle.swift:162-177 | the style's private copy returns the same marks as `DefaultTickMark.calculate` for the same count and bounds |
| OptionBits.Flag | Sources/Sliders/ValueSlider/Styles/ValueSliderOptions.swift:7 | `1 << k` is a positive flag |
| OptionBits.FlagBit | Sources/Sliders/ValueSlider/Styles/ValueSliderOptions.swift:7 | `1 << k` has bit k set and no other bit |
| OptionBits.ContainsFlagIffBit | Sources/Sliders/ValueSlider/Styles/ValueSliderOptions.swift:15-17 | an option set contains the flag `1 << k` exactly when bit k of its raw value is set |
| OptionBits.OrBit | Sources/Sliders/ValueSlider/Styles/ValueSliderOptions.swift:3 | bit k of the bitwise or `Or(a, m)` is set exactly when bit k of a or of m is |
| OptionBits.AndBit | Sources/Sliders/ValueSlider/Styles/ValueSliderOptions.swift:3 | bit k of `a & b` is set exactly when bit k of both a and b is |
| OptionBits.SameBitsSameValue | Sources/Sliders/ValueSlider/Styles/ValueSliderOptions.swift:3-4 | two raw values with the same bits are equal |
| ValueOptions.InitRawValue | Sources/Sliders/ValueSlider/Styles/ValueSliderOptions.swift:10-13 | `init(rawValue:)` keeps the raw value and has no makers |
| ValueOptions.InitWithMakers | Sources/Sliders/ValueSlider/Styles/ValueSliderOptions.swift:27-30 | `init(rawValue:makers:)` keeps both arguments in the instance |
| ValueOptions.FlagValues | Sources/Sliders/ValueSlider/Styles/ValueSliderOptions.swift:7-25 | `.interactiveTrack` has raw value 1 and `.markerTrack` raw value 2, both without makers |
| ValueOptions.HasInteractiveTrackIffBit0 | Sources/Sliders/ValueSlider/Styles/ValueSliderOptions.swift:15-17 | `hasInteractiveTrack` holds exactly when bit 0 of the raw value is set, whatever the other bits and the makers |
| ValueOptions.HasMarkersTrackIffBit1 | Sources/Sliders/ValueSlider/Styles/ValueSliderOptions.swift:32-34 | `hasMarkersTrack` holds exactly when bit 1 of the raw value is set |
| ValueOptions.ValueSliderOptions.Insert | Sources/Sliders/ValueSlider/Styles/ValueSliderOptions.swift:3-8 | inserting a member makes the set contain it and keeps every member it contained; bit k of the result is set exactly when it is set in the set or in the member, so nothing but the union of the raw values is added; the makers are kept when the member was already contained and dropped otherwise, since the new set is built by `init(rawValue:)` |
| ValueOptions.ArrayLiteral | Sources/Sliders/ValueSlider/Styles/ValueSliderOptions.swift:8 | an array literal of options contains each of its elements and has no makers; bit k of its raw value is set exactly when it is set in some element |
| ValueOptions.InsertNewFlagDropsMakers | Sources/Sliders/ValueSlider/Styles/ValueSliderOptions.swift:10-13 | a set with makers `{7}` loses them when a flag it lacks is inserted, and keeps them when the flag is already there |
| ValueOptions.DefaultOptionsAreEmpty | Sources/Sliders/ValueSlider/Styles/ValueSliderOptions.swift:8 | `.defaultOptions` has raw value 0 and no makers, so neither predicate holds |
| PointOptions.PointSliderOptions.Insert | Sources/Sliders/PointSlider/Styles/PointSliderOptions.swift:3-7 | inserting a member makes the set contain it and keeps every member it contained; bit k of the result is set exactly when it is set in the set or in the member |
| PointOptions.ArrayLiteral | Sources/Sliders/PointSlider/Styles/PointSliderOptions.swift:7 | an array literal of options contains each of its elements, and bit k of its raw value is set exactly when it is set in some element |
| PointOptions.FlagValues | Sources/Sliders/PointSlider/Styles/PointSliderOptions.swift:6-24 | `.interactiveTrack` has raw value 1 and the private `.markerTrack` raw value 2 |
| PointOptions.HasInteractiveTrackIffBit0 | Sources/Sliders/PointSlider/Styles/PointSliderOptions.swift:13-15 | `hasInteractiveTrack` holds exactly when bit 0 of the raw value is set |
| PointOptions.HasMarkersTrackIffBit1 | Sources/Sliders/PointSlider/Styles/PointSliderOptions.swift:34-36 | `hasMarkersTrack` holds exactly when bit 1 of the raw value is set |
| PointOptions.DefaultOptionsAreMarkerTrack | Sources/Sliders/PointSlider/Styles/PointSliderOptions.swift:7 | `.defaultOptions = [.markerTrack]` has raw value 2: marker track on, interactive track off |
| PointOptions.Statics.constructor | Sources/Sliders/PointSlider/Styles/PointSliderOptions.swift:22 | the type-wide `makers` starts empty |
| PointOptions.Statics.InitRawValue | Sources/Sliders/PointSlider/Styles/PointSliderOptions.swift:9-11 | `init(rawValue:)` keeps the raw value and leaves the type-wide makers unchanged |
| PointOptions.Statics.InitWithMakers | Sources/Sliders/PointSlider/Styles/PointSliderOptions.swift:29-32 | `init(rawValue:makers:)` keeps only the raw value in the instance and makes the type-wide makers equal to the argument |
| PointOptions.Statics.MarkerTrack | Sources/Sliders/PointSlider/Styles/PointSliderOptions.swift:24-27 | `markerTrack(makers:)` gives raw value 2 (marker track on, interactive track off) whatever the makers, which overwrite the type-wide set |
| PointOptions.MakersAreTypeWide | Sources/Sliders/PointSlider/Styles/PointSliderOptions.swift:22-32 | two instances built with the same raw value and different makers are equal, and the type-wide makers are those of the later call |
| HorizontalStyle.HorizontalValueSliderStyle.ThumbPosition | Sources/Sliders/ValueSlider/Styles/Horizontal/HorizontalValueSliderStyle.swift:38-47 | the thumb's x is `distanceFrom(value)` along the width with half the thumb width as both edge offsets; its y is half the height plus `thumbPositionOffset` |
| HorizontalStyle.HorizontalValueSliderStyle.TickMarkPosition | Sources/Sliders/ValueSlider/Styles/Horizontal/HorizontalValueSliderStyle.swift:131-154 | a tick's x is `distanceFrom(mark)` along the width; the upper tick lies `DefaultTickMark.position` above the centre line and the lower one the same distance below it |
| HorizontalStyle.HorizontalValueSliderStyle.OnThumbChanged | Sources/Sliders/ValueSlider/Styles/Horizontal/HorizontalValueSliderStyle.swift:50-73 | editing starts; the offset is set only when absent, to `startLocation.x` minus the thumb's x; the value becomes `valueFrom(location.x - offset)` with half the thumb width as both edge offsets |
| HorizontalStyle.HorizontalValueSliderStyle.OnThumbEnded | Sources/Sliders/ValueSlider/Styles/Horizontal/HorizontalValueSliderStyle.swift:74-77 | the offset is cleared and editing ends; the value is kept |
| HorizontalStyle.HorizontalValueSliderStyle.OnTrackChanged | Sources/Sliders/ValueSlider/Styles/Horizontal/HorizontalValueSliderStyle.swift:102-115 | with the interactive track, editing starts and the value becomes `valueFrom(location.x)`; the offset is untouched |
| HorizontalStyle.HorizontalValueSliderStyle.OnTrackEnded | Sources/Sliders/ValueSlider/Styles/Horizontal/HorizontalValueSliderStyle.swift:116-118 | editing ends; value and offset are untouched |
| HorizontalStyle.NoJumpAtDragStart | Sources/Sliders/ValueSlider/Styles/Horizontal/HorizontalValueSliderStyle.swift:53-64 | on the first call of a drag with the finger where it went down, `valueFrom` receives `distanceFrom(current value)` |
| HorizontalStyle.OffsetKeptWhileDragging | Sources/Sliders/ValueSlider/Styles/Horizontal/HorizontalValueSliderStyle.swift:53-72 | once set, the offset survives every further `onChanged` and the value follows the latest x minus it |
| HorizontalStyle.DragFollowsFinger | Sources/Sliders/ValueSlider/Styles/Horizontal/HorizontalValueSliderStyle.swift:53-72 | over a whole drag from rest the offset is `startLocation.x` minus the thumb's starting x, and `valueFrom` receives the thumb's starting x plus `location.x - startLocation.x` |
| HorizontalStyle.DragFollowsFingerAtEveryCall | Sources/Sliders/ValueSlider/Styles/Horizontal/HorizontalValueSliderStyle.swift:53-72 | after every `onChanged` of a drag from rest, editing is on, the offset is `startLocation.x` minus the thumb's starting x, and `valueFrom` receives the thumb's starting x plus `location.x - startLocation.x` |
| HorizontalStyle.NextDragRecordsFreshOffset | Sources/Sliders/ValueSlider/Styles/Horizontal/HorizontalValueSliderStyle.swift:74-77 | after `onEnded` the next drag records its offset from where the previous drag left the thumb |
| HorizontalStyle.TrackIgnoresOffset | Sources/Sliders/ValueSlider/Styles/Horizontal/HorizontalValueSliderStyle.swift:104-115 | an interactive-track `onChanged` sets the value to `valueFrom(location.x)` whatever the offset, and keeps the offset |
| HorizontalStyle.TrackKeepsOffset | Sources/Sliders/ValueSlider/Styles/Horizontal/HorizontalValueSliderStyle.swift:102-119 | any run of interactive-track callbacks leaves the offset as it was |
| HorizontalStyle.TickMarkAlignsWithThumb | Sources/Sliders/ValueSlider/Styles/Horizontal/HorizontalValueSliderStyle.swift:131-138 | the tick for a value is drawn at the x where the thumb is for that value |
| VerticalStyle.VerticalValueSliderStyle.ThumbPosition | Sources/Sliders/ValueSlider/Styles/Vertical/VerticalValueSliderStyle.swift:57-66 | the thumb's y is `height - distanceFrom(value)` along the height with half the thumb height as both edge offsets; its x is half the width plus `thumbPositionOffset` |
| VerticalStyle.VerticalValueSliderStyle.TickMarkPosition | Sources/Sliders/ValueSlider/Styles/Vertical/VerticalValueSliderStyle.swift:150-173 | a tick's y is `distanceFrom(mark)`, not flipped; the upper tick lies `DefaultTickMark.position` left of the centre line and the lower one the same distance right of it |
| VerticalStyle.VerticalValueSliderStyle.OnThumbChanged | Sources/Sliders/ValueSlider/Styles/Vertical/VerticalValueSliderStyle.swift:69-92 | editing starts; the offset is set only when absent, to `startLocation.y - (height - distanceFrom(value))`; the value becomes `valueFrom(height - (location.y - offset))` with half the thumb height as both edge offsets |
| VerticalStyle.VerticalValueSliderStyle.OnThumbEnded | Sources/Sliders/ValueSlider/Styles/Vertical/VerticalValueSliderStyle.swift:93-96 | the offset is cleared and editing ends; the value is kept |
| VerticalStyle.VerticalValueSliderStyle.OnTrackChanged | Sources/Sliders/ValueSlider/Styles/Vertical/VerticalValueSliderStyle.swift:30-43 | with the interactive track, editing starts and the value becomes `upperBound - valueFrom(location.y)`, with no height flip; the offset is untouched |
| VerticalStyle.VerticalValueSliderStyle.OnTrackEnded | Sources/Sliders/ValueSlider/Styles/Vertical/VerticalValueSliderStyle.swift:44-46 | editing ends; value and offset are untouched |
| VerticalStyle.NoJumpAtDragStart | Sources/Sliders/ValueSlider/Styles/Vertical/VerticalValueSliderStyle.swift:72-83 | on the first call of a drag with the finger where it went down, `valueFrom` receives `distanceFrom(current value)` |
| VerticalStyle.FingerDownLowersDistance | Sources/Sliders/ValueSlider/Styles/Vertical/VerticalValueSliderStyle.swift:83 | moving the finger down by delta lowers the distance handed to `valueFrom` by exactly delta |
| VerticalStyle.OffsetKeptWhileDragging | Sources/Sliders/ValueSlider/Styles/Vertical/VerticalValueSliderStyle.swift:72-91 | once set, the offset survives every further `onChanged` and the value follows the flipped latest y |
| VerticalStyle.DragFollowsFinger | Sources/Sliders/ValueSlider/Styles/Vertical/VerticalValueSliderStyle.swift:72-91 | over a whole drag from rest the offset is `startLocation.y` minus the thumb's starting y, and `valueFrom` receives the thumb's starting distance minus `location.y - startLocation.y` |
| VerticalStyle.DragFollowsFingerAtEveryCall | Sources/Sliders/ValueSlider/Styles/Vertical/VerticalValueSliderStyle.swift:72-91 | after every `onChanged` of a drag from rest, editing is on, the offset is `startLocation.y` minus the thumb's starting y, and `valueFrom` receives the thumb's starting distance minus `location.y - startLocation.y` |
| VerticalStyle.NextDragRecordsFreshOffset | Sources/Sliders/ValueSlider/Styles/Vertical/VerticalValueSliderStyle.swift:93-96 | after `onEnded` the next drag records its offset from where the previous drag left the thumb |
| VerticalStyle.TrackIgnoresOffset | Sources/Sliders/ValueSlider/Styles/Vertical/VerticalValueSliderStyle.swift:32-43 | an interactive-track `onChanged` sets the value to `upperBound - valueFrom(location.y)` whatever the offset, and keeps the offset |
| VerticalStyle.TrackKeepsOffset | Sources/Sliders/ValueSlider/Styles/Vertical/VerticalValueSliderStyle.swift:30-46 | any run of interactive-track callbacks leaves the offset as it was |
| VerticalStyle.TickMarkMirrorsThumb | Sources/Sliders/ValueSlider/Styles/Vertical/VerticalValueSliderStyle.swift:152-158 | the tick for a value is drawn at `distanceFrom(value)`, the mirror image across the height of the thumb's `height - distanceFrom(value)` |

## Left out

- View composition: `body`, `makeBody`'s `GeometryReader`/`ZStack` trees, frames, colours, environment values, `zIndex`, previews, the track views and the field-copying initialisers. They lay out views and have no behaviour beyond that; the thumb and tick positions are kept as `ThumbPosition` and `TickMarkPosition`.
- Sources/Sliders/Base/DefaultMarker.swift: a rectangle view and one size constant.
- The bodies of `valueFrom` and `distanceFrom` are not part of this model; they are arbitrary functions, so no clamping, step rounding or inverse relation is assumed.
- `hasUpperTickMark` and `hasLowerTickMark` are defined outside the modelled files; the model takes the choice of upper or lower tick as a boolean argument of `TickMarkPosition` and leaves out the `ForEach` that draws them.
- Floating point: `CGFloat` is `real`; whether a floating-point stride exactly reaches `upper` is not modelled.
- TickMarks.StrideThrough: models only positive strides; a negative stride cannot arise because a closed range has `lower <= upper`, and a zero stride is a trap, excluded by the requirement of `TickMarks.Calculate`.
- The mutable statics `DefaultTickMark.size` and `DefaultTickMark.position` are modelled by their initial values; `DefaultTickMark.number` is passed in as a parameter.
- Raw values of option sets are unbounded integers rather than 64-bit `Int`: `&` and `|` are two's-complement on unbounded integers, which agree with 64-bit `Int` on every 64-bit value.
- Swift's synthesised equality of option sets when a `makers` field is present; `contains` is modelled as the bitmask test.
- The `tot` struct at the end of PointSliderOptions.swift: building one runs `init(rawValue:makers:)` with the makers 1 to 9, which is `PointOptions.Statics.InitWithMakers`.
- A re-layout during a drag: every session lemma replays its events under one `DragContext`, so the geometry, bounds, step and conversions stay fixed for the whole drag, whereas each `onChanged` closure sees the `geometry` of the layout current at that call.
- Gesture delivery, main-thread scheduling and binding storage: bindings are plain fields, callbacks are method calls or events replayed in order; `onEditingChanged` is recorded as its last argument.
- The commented-out `interactiveTrack` function of the vertical style.
