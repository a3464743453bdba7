/** Properties of PlaquesImageRGB construction that relate several calls or
    fix particular arguments. */
module ConstructionLemmas {
  import opened PyValues
  import opened PlaquesImageRgb

  /** A usable mask wins: neither threshold, sigma nor fixed_threshold has any
      influence on the outcome, so fixed_threshold is never consulted. */
  lemma GivenMaskIgnoresThreshold(before: Attributes, a: Args, threshold: PyValue, sigma: PyValue,
                                  ft1: FixedThreshold, ft2: FixedThreshold, superInit: SuperInit)
    requires Decide(a) == UseGiven
    ensures Decide(a.(threshold := threshold, sigma := sigma)) == UseGiven
    ensures Apply(before, a, Decide(a), ft1, superInit)
            == Apply(before, a.(threshold := threshold, sigma := sigma),
                     Decide(a.(threshold := threshold, sigma := sigma)), ft2, superInit)
  {
  }

  /** Every TypeError the constructor raises itself is raised whatever
      threshold and sigma are, so none of them can give way to the
      "neither mask nor threshold" ValueError. */
  lemma TypeErrorsPrecedeValueError(a: Args, threshold: PyValue, sigma: PyValue)
    requires Decide(a).Reject? && Decide(a).error.cls == TypeError
    ensures Decide(a.(threshold := threshold, sigma := sigma)) == Decide(a)
    ensures Decide(a) != Reject(NoMaskOrThreshold)
  {
  }

  /** A threshold or sigma of zero counts as not provided. */
  lemma ZeroThresholdOrSigmaRejected(a: Args)
    requires NameAndImageValid(a) && Truth(a.plaquesMask) == Ok(false)
    requires a.threshold in {Int(0), Float(0.0)} || (Truth(a.threshold) == Ok(true) && a.sigma in {Int(0), Float(0.0)})
    ensures Decide(a) == Reject(NoMaskOrThreshold)
  {
  }

  /** The default threshold is None, so a call that gives only sigma (as the
      module's demonstration call `PlaquesImageRGB(name="test", image=test, sigma=1)`
      does) raises the ValueError. */
  lemma OnlySigmaGivenRaises(name: string, image: NdArray)
    requires |image.shape| == 3
    ensures Decide(WithDefaults(Str(name), Array(image)).(sigma := Int(1))) == Reject(NoMaskOrThreshold)
  {
  }

  /** On a new object, a raising call leaves attributes behind only when the
      superclass initialiser raised: plaques_mask is assigned at lines 44/50,
      before the hand-off at line 55, while image is never assigned. */
  lemma RaisingConstructionOnNewObject(a: Args, fixedThreshold: FixedThreshold, superInit: SuperInit)
    requires Apply(Attributes(None, None, None), a, Decide(a), fixedThreshold, superInit).raised.Some?
    ensures var o := Apply(Attributes(None, None, None), a, Decide(a), fixedThreshold, superInit);
            o.after.image == None
            && (o.after != Attributes(None, None, None) ==>
                  !Decide(a).Reject? && o.after.handOff.Some? && o.raised == superInit(o.after.handOff.value))
  {
  }

  /** A successful construction on a new object: every attribute is assigned,
      and which mask was chosen follows the decision. */
  lemma SuccessfulConstruction(a: Args, fixedThreshold: FixedThreshold, superInit: SuperInit)
    requires Apply(Attributes(None, None, None), a, Decide(a), fixedThreshold, superInit).raised.None?
    ensures var o := Apply(Attributes(None, None, None), a, Decide(a), fixedThreshold, superInit);
            NameAndImageValid(a)
            && o.after.image == Some(a.image)
            && (Decide(a) == UseGiven ==> o.after.plaquesMask == Some(a.plaquesMask))
            && (Decide(a) == Derive ==>
                  fixedThreshold(a.image, a.threshold, a.sigma).Ok?
                  && o.after.plaquesMask == Some(fixedThreshold(a.image, a.threshold, a.sigma).value))
            && o.after.handOff == Some(HandOff(a.name, o.after.plaquesMask.value, a.usePicks))
  {
  }
}
