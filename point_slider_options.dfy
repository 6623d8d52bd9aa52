/**
 * `PointSliderOptions`: the option set of a point slider. An instance holds
 * only its raw value (interactive track is bit 0, marker track is bit 1). The
 * makers passed to `init(rawValue:makers:)` are not kept in the instance: they
 * overwrite one `makers` set shared by the whole type.
 */
module PointOptions {
  import opened OptionBits

  type Maker = int

  datatype PointSliderOptions = PointSliderOptions(rawValue: int)
  {
    /** `contains`: a bitmask test on the raw values. */
    predicate Contains(member: PointSliderOptions)
    {
      OptionBits.Contains(rawValue, member.rawValue)
    }

    /** `hasInteractiveTrack`: the set contains `.interactiveTrack`. */
    predicate HasInteractiveTrack()
    {
      Contains(InteractiveTrack)
    }

    /** `hasMarkersTrack`: the set contains the private `.markerTrack`. */
    predicate HasMarkersTrack()
    {
      Contains(MarkerTrackFlag)
    }

    /**
     * `insert`: a member already contained leaves the set as it is; otherwise
     * the set is rebuilt through `init(rawValue:)` from the union of the raw
     * values, which does not touch the shared makers.
     */
    function Insert(member: PointSliderOptions): (r: PointSliderOptions)
      ensures r.Contains(member)
      ensures forall e :: Contains(e) ==> r.Contains(e)
      ensures forall k: nat :: Bit(r.rawValue, k) <==> Bit(rawValue, k) || Bit(member.rawValue, k)
    {
      if Contains(member) then
        forall k: nat ensures Bit(member.rawValue, k) ==> Bit(rawValue, k) {
          ContainedBit(rawValue, member.rawValue, k);
        }
        this
      else
        forall k: nat ensures Bit(Or(rawValue, member.rawValue), k) <==> Bit(rawValue, k) || Bit(member.rawValue, k) {
          OrBit(rawValue, member.rawValue, k);
        }
        OrContainsRight(rawValue, member.rawValue);
        forall e | Contains(e) ensures OptionBits.Contains(Or(rawValue, member.rawValue), e.rawValue) {
          OrKeepsContained(rawValue, member.rawValue, e.rawValue);
        }
        PointSliderOptions(Or(rawValue, member.rawValue))
    }
  }

  /** `.interactiveTrack = PointSliderOptions(rawValue: 1 << 0)` */
  const InteractiveTrack: PointSliderOptions := PointSliderOptions(Flag(0))

  /** The private `static let markerTrack = PointSliderOptions(rawValue: 1 << 1)`. */
  const MarkerTrackFlag: PointSliderOptions := PointSliderOptions(Flag(1))

  /** An array literal of options: `init()` (raw value 0), then each element inserted in turn. */
  function ArrayLiteral(elements: seq<PointSliderOptions>): (o: PointSliderOptions)
    ensures forall i :: 0 <= i < |elements| ==> o.Contains(elements[i])
    ensures forall k: nat :: Bit(o.rawValue, k) <==> exists i :: 0 <= i < |elements| && Bit(elements[i].rawValue, k)
  {
    if elements == [] then
      forall k: nat ensures !Bit(0, k) {
        NoBitOfZero(k);
      }
      PointSliderOptions(0)
    else
      var front := ArrayLiteral(elements[..|elements| - 1]);
      assert forall i :: 0 <= i < |elements| - 1 ==> elements[i] == elements[..|elements| - 1][i];
      front.Insert(elements[|elements| - 1])
  }

  /** `.defaultOptions = [.markerTrack]` */
  const DefaultOptions: PointSliderOptions := ArrayLiteral([MarkerTrackFlag])

  /**
   * The type-wide storage of `PointSliderOptions`: the static `makers` set,
   * empty until some `init(rawValue:makers:)` runs.
   */
  class Statics {
    var makers: set<Maker>

    constructor ()
      ensures makers == {}
    {
      makers := {};
    }

    /** `init(rawValue:)`: builds the instance and leaves the shared makers alone. */
    method InitRawValue(rawValue: int) returns (o: PointSliderOptions)
      ensures o.rawValue == rawValue
      ensures makers == old(makers)
    {
      o := PointSliderOptions(rawValue);
    }

    /** `init(rawValue:makers:)`: the instance keeps the raw value; the makers overwrite the shared set. */
    method InitWithMakers(rawValue: int, newMakers: set<Maker>) returns (o: PointSliderOptions)
      modifies this
      ensures o.rawValue == rawValue
      ensures makers == newMakers
    {
      o := PointSliderOptions(rawValue);
      makers := newMakers;
    }

    /** `markerTrack(makers:)`: the marker-track flag, whatever the makers, which go to the shared set. */
    method MarkerTrack(newMakers: set<Maker>) returns (o: PointSliderOptions)
      modifies this
      ensures o.rawValue == 2 && o.HasMarkersTrack() && !o.HasInteractiveTrack()
      ensures makers == newMakers
    {
      o := InitWithMakers(MarkerTrackFlag.rawValue, newMakers);
      HasInteractiveTrackIffBit0(o);
      HasMarkersTrackIffBit1(o);
    }
  }

  /**
   * Two instances built with the same raw value and different makers are the
   * same value, and the shared makers are those of the later call.
   */
  method MakersAreTypeWide(statics: Statics, rawValue: int, first: set<Maker>, second: set<Maker>)
    returns (a: PointSliderOptions, b: PointSliderOptions)
    modifies statics
    ensures a == b
    ensures statics.makers == second
  {
    a := statics.InitWithMakers(rawValue, first);
    b := statics.InitWithMakers(rawValue, second);
  }

  /** The two flags: bit 0 and bit 1. */
  lemma FlagValues()
    ensures InteractiveTrack.rawValue == 1 && MarkerTrackFlag.rawValue == 2
  {
  }

  /** `hasInteractiveTrack` reads bit 0 of the raw value. */
  lemma HasInteractiveTrackIffBit0(o: PointSliderOptions)
    ensures o.HasInteractiveTrack() <==> Bit(o.rawValue, 0)
  {
    ContainsFlagIffBit(o.rawValue, 0);
  }

  /** `hasMarkersTrack` reads bit 1 of the raw value. */
  lemma HasMarkersTrackIffBit1(o: PointSliderOptions)
    ensures o.HasMarkersTrack() <==> Bit(o.rawValue, 1)
  {
    ContainsFlagIffBit(o.rawValue, 1);
  }

  /** The default options are the marker track alone: raw value 2. */
  lemma DefaultOptionsAreMarkerTrack()
    ensures DefaultOptions.rawValue == 2
    ensures DefaultOptions.HasMarkersTrack() && !DefaultOptions.HasInteractiveTrack()
  {
    forall k: nat ensures Bit(DefaultOptions.rawValue, k) <==> Bit(MarkerTrackFlag.rawValue, k) {
      assert [MarkerTrackFlag][0] == MarkerTrackFlag;
    }
    SameBitsSameValue(DefaultOptions.rawValue, MarkerTrackFlag.rawValue);
    HasInteractiveTrackIffBit0(DefaultOptions);
    HasMarkersTrackIffBit1(DefaultOptions);
  }
}
