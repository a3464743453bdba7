/** The mask-versus-threshold dispatch as written tests Python truthiness; on
    a NumPy mask that raises, and a zero threshold or sigma reads as absent.
    This module exhibits both and gives the dispatch by presence
    (`is not None`) that the constructor's documentation describes. */
module IntendedDispatch {
  import opened PyValues
  import opened PlaquesImageRgb

  /** As written, `if plaques_mask:` accepts a 2-D mask only if it is 1x1 and
      its one element is truthy. */
  lemma GivenMaskIsOneByOne(a: Args)
    requires Decide(a) == UseGiven
    ensures a.plaquesMask.arr.shape == [1, 1] && a.plaquesMask.arr.truths == [true]
  {
  }

  /** As written, every other 2-D mask makes line 40 raise NumPy's ValueError. */
  lemma EveryRealMaskRaises(a: Args)
    requires NameAndImageValid(a) && IsArrayOfRank(a.plaquesMask, 2)
    requires a.plaquesMask.arr.shape != [1, 1]
    ensures Decide(a) in {Reject(AmbiguousManyError), Reject(AmbiguousEmptyError)}
  {
  }

  /** The 64x64 image of zeros with a 64x64 all-true mask: a typical
      use of the constructor, which raises as written. */
  lemma TypicalMaskRaises()
    ensures var image := ArrayData([64, 64, 3], seq(64 * 64 * 3, _ => false));
            var mask := ArrayData([64, 64], seq(64 * 64, _ => true));
            Decide(Args(Str("well"), Array(image), Array(mask), NoneValue, Int(5), Bool(false)))
              == Reject(AmbiguousManyError)
  {
  }

  /** The dispatch by presence: a mask is used when one is given, otherwise
      both threshold and sigma must be given; the type checks stay as they are. */
  function DecideIntended(a: Args): (d: Decision)
    // no truth test of an array, so NumPy's ambiguity error cannot arise
    ensures d.Reject? ==> d.error in {NameNotStr, ImageNot3D, MaskNot2D, NoMaskOrThreshold}
    // the name and image checks are those of the code as written
    ensures !NameAndImageValid(a) ==> d == Decide(a)
    // every 2-D mask is used, whatever its contents, including an all-false one
    ensures NameAndImageValid(a) ==> (d == UseGiven <==> IsArrayOfRank(a.plaquesMask, 2))
    ensures NameAndImageValid(a) ==> (d == Reject(MaskNot2D) <==> a.plaquesMask != NoneValue && !IsArrayOfRank(a.plaquesMask, 2))
    // without a mask any given threshold and sigma are used, zero included
    ensures NameAndImageValid(a) ==>
              (d == Derive <==> a.plaquesMask == NoneValue && a.threshold != NoneValue && a.sigma != NoneValue)
    ensures NameAndImageValid(a) ==>
              (d == Reject(NoMaskOrThreshold) <==>
                 a.plaquesMask == NoneValue && (a.threshold == NoneValue || a.sigma == NoneValue))
  {
    if !IsStr(a.name) then Reject(NameNotStr)
    else if !IsArrayOfRank(a.image, 3) then Reject(ImageNot3D)
    else if a.plaquesMask != NoneValue then
      if IsArrayOfRank(a.plaquesMask, 2) then UseGiven else Reject(MaskNot2D)
    else if a.threshold != NoneValue && a.sigma != NoneValue then Derive
    else Reject(NoMaskOrThreshold)
  }

  /** Whatever the code as written accepts, the intended dispatch accepts the
      same way, except that a falsy mask other than None is no longer ignored. */
  lemma IntendedKeepsAcceptedCalls(a: Args)
    ensures Decide(a) == UseGiven ==> DecideIntended(a) == UseGiven
    ensures Decide(a) == Derive && a.plaquesMask == NoneValue ==> DecideIntended(a) == Derive
  {
  }

  /** With the intended dispatch a real mask is stored and handed on. */
  lemma IntendedStoresEveryMask(before: Attributes, a: Args, fixedThreshold: FixedThreshold, superInit: SuperInit)
    requires NameAndImageValid(a) && IsArrayOfRank(a.plaquesMask, 2)
    ensures var o := Apply(before, a, DecideIntended(a), fixedThreshold, superInit);
            o.after.plaquesMask == Some(a.plaquesMask)
            && o.after.handOff == Some(HandOff(a.name, a.plaquesMask, a.usePicks))
  {
  }
}
