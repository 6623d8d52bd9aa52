/**
 * `ValueSliderOptions`: the option set of a value slider. Its raw value holds
 * the flags (interactive track is bit 0, marker track is bit 1); it also
 * carries a set of makers, which only `init(rawValue:makers:)` fills.
 */
module ValueOptions {
  import opened OptionBits

  type Maker = int

  datatype ValueSliderOptions = ValueSliderOptions(rawValue: int, makers: set<Maker>)
  {
    /** `contains`: a bitmask test on the raw values; makers play no part. */
    predicate Contains(member: ValueSliderOptions)
    {
      OptionBits.Contains(rawValue, member.rawValue)
    }

    /** `hasInteractiveTrack`: the set contains `.interactiveTrack`. */
    predicate HasInteractiveTrack()
    {
      Contains(InteractiveTrack)
    }

    /** `hasMarkersTrack`: the set contains `.markerTrack`. */
    predicate HasMarkersTrack()
    {
      Contains(MarkerTrack)
    }

    /**
     * `insert`: a member already contained leaves the set as it is; otherwise
     * the set is rebuilt through `init(rawValue:)` from the union of the raw values.
     */
    function Insert(member: ValueSliderOptions): (r: ValueSliderOptions)
      ensures r.Contains(member)
      ensures forall e :: Contains(e) ==> r.Contains(e)
      ensures forall k: nat :: Bit(r.rawValue, k) <==> Bit(rawValue, k) || Bit(member.rawValue, k)
      ensures r.makers == if Contains(member) then makers else {}
    {
      if Contains(member) then
        forall k: nat ensures Bit(member.rawValue, k) ==> Bit(rawValue, k) {
          ContainedBit(rawValue, member.rawValue, k);
        }
        this
      else
        forall k: nat ensures Bit(Or(rawValue, member.rawValue), k) <==> Bit(rawValue, k) || Bit(member.rawValue, k) {
          OrBit(rawValue, member.rawValue, k);
        }
        OrContainsRight(rawValue, member.rawValue);
        forall e | Contains(e) ensures OptionBits.Contains(Or(rawValue, member.rawValue), e.rawValue) {
          OrKeepsContained(rawValue, member.rawValue, e.rawValue);
        }
        InitRawValue(Or(rawValue, member.rawValue))
    }
  }

  /** `init(rawValue:)`: keeps the raw value, with no makers. */
  function InitRawValue(rawValue: int): (o: ValueSliderOptions)
    ensures o.rawValue == rawValue && o.makers == {}
  {
    ValueSliderOptions(rawValue, {})
  }

  /** `init(rawValue:makers:)`: keeps both arguments in the instance. */
  function InitWithMakers(rawValue: int, makers: set<Maker>): (o: ValueSliderOptions)
    ensures o.rawValue == rawValue && o.makers == makers
  {
    ValueSliderOptions(rawValue, makers)
  }

  /** `.interactiveTrack = ValueSliderOptions(rawValue: 1 << 0)` */
  const InteractiveTrack: ValueSliderOptions := InitRawValue(Flag(0))

  /** `.markerTrack = ValueSliderOptions(rawValue: 1 << 1, makers: [])` */
  const MarkerTrack: ValueSliderOptions := InitWithMakers(Flag(1), {})

  /**
   * An array literal `[e0, e1, ...]` of options: the empty set `init()`
   * (raw value 0), then each element inserted in turn.
   */
  function ArrayLiteral(elements: seq<ValueSliderOptions>): (o: ValueSliderOptions)
    ensures o.makers == {}
    ensures forall i :: 0 <= i < |elements| ==> o.Contains(elements[i])
    ensures forall k: nat :: Bit(o.rawValue, k) <==> exists i :: 0 <= i < |elements| && Bit(elements[i].rawValue, k)
  {
    if elements == [] then
      forall k: nat ensures !Bit(0, k) {
        NoBitOfZero(k);
      }
      InitRawValue(0)
    else
      var front := ArrayLiteral(elements[..|elements| - 1]);
      assert forall i :: 0 <= i < |elements| - 1 ==> elements[i] == elements[..|elements| - 1][i];
      front.Insert(elements[|elements| - 1])
  }

  /** `.defaultOptions = []` */
  const DefaultOptions: ValueSliderOptions := ArrayLiteral([])

  /** The two flags: bit 0 and bit 1, neither with makers. */
  lemma FlagValues()
    ensures InteractiveTrack.rawValue == 1 && InteractiveTrack.makers == {}
    ensures MarkerTrack.rawValue == 2 && MarkerTrack.makers == {}
  {
  }

  /** `hasInteractiveTrack` reads bit 0 of the raw value and nothing else. */
  lemma HasInteractiveTrackIffBit0(o: ValueSliderOptions)
    ensures o.HasInteractiveTrack() <==> Bit(o.rawValue, 0)
  {
    ContainsFlagIffBit(o.rawValue, 0);
  }

  /** `hasMarkersTrack` reads bit 1 of the raw value and nothing else. */
  lemma HasMarkersTrackIffBit1(o: ValueSliderOptions)
    ensures o.HasMarkersTrack() <==> Bit(o.rawValue, 1)
  {
    ContainsFlagIffBit(o.rawValue, 1);
  }

  /**
   * Inserting a flag that is not yet there drops the makers: the set with
   * makers `{7}` and the interactive track loses them once the marker track
   * is inserted.
   */
  lemma InsertNewFlagDropsMakers()
    ensures InitWithMakers(1, {7}).Insert(MarkerTrack).makers == {}
    ensures InitWithMakers(1, {7}).Insert(InteractiveTrack).makers == {7}
  {
    assert And(1, 2) == 0;
    AndSelf(1);
  }

  /** The default options are empty: raw value 0, no makers, neither track. */
  lemma DefaultOptionsAreEmpty()
    ensures DefaultOptions.rawValue == 0 && DefaultOptions.makers == {}
    ensures !DefaultOptions.HasInteractiveTrack() && !DefaultOptions.HasMarkersTrack()
  {
    HasInteractiveTrackIffBit0(DefaultOptions);
    HasMarkersTrackIffBit1(DefaultOptions);
  }
}
