/** The construction of a PlaquesImageRGB specimen: the type checks on the
    name, the image and the mask, the choice between the caller's mask and a
    mask derived by fixed_threshold, the attribute assignments and the
    hand-off to the PlaquesMask initialiser. */
module PlaquesImageRgb {
  import opened PyValues

  /** The constructor's arguments, as the caller passes them. */
  datatype Args = Args(
    name: PyValue,
    image: PyValue,
    plaquesMask: PyValue,
    threshold: PyValue,
    sigma: PyValue,
    usePicks: PyValue)

  /** A call that passes only name and image: plaques_mask=None,
      threshold=None, sigma=5, use_picks=False. */
  function WithDefaults(name: PyValue, image: PyValue): (a: Args)
    ensures a.name == name && a.image == image
    ensures Truth(a.plaquesMask) == Ok(false) && Truth(a.threshold) == Ok(false)
    ensures Truth(a.sigma) == Ok(true) && Truth(a.usePicks) == Ok(false)
  {
    Args(name, image, NoneValue, NoneValue, Int(5), Bool(false))
  }

  /** fixed_threshold(image, threshold, sigma), whose body is not part of
      this model: any function of its arguments, which may raise. */
  type FixedThreshold = (PyValue, PyValue, PyValue) -> Result<PyValue>

  /** The arguments handed to PlaquesMask.__init__: name, plaques_mask, use_picks. */
  datatype HandOff = HandOff(name: PyValue, plaquesMask: PyValue, usePicks: PyValue)

  /** PlaquesMask.__init__, whose body is not part of this model: given its
      arguments it either returns normally (None) or raises. */
  type SuperInit = HandOff -> Option<Exception>

  const NameNotStr := Exception(TypeError, "Image name atribute must be a str")
  const ImageNot3D := Exception(TypeError, "Image atribute must be a 3D (RGB) numpy array")
  const MaskNot2D := Exception(TypeError, "Mask atribute must be a 2D numpy array")
  const NoMaskOrThreshold := Exception(ValueError, "Either mask or fixed threshold must be provided")

  /** What the guarded checks decide before any collaborator is called. */
  datatype Decision =
    | Reject(error: Exception)   // the constructor raises `error` itself
    | UseGiven                   // store the caller's mask
    | Derive                     // store fixed_threshold(image, threshold, sigma)

  /** The checks preceding each outcome hold of the arguments. */
  predicate NameAndImageValid(a: Args)
  {
    IsStr(a.name) && IsArrayOfRank(a.image, 3)
  }

  /** The sequential checks of the constructor, in source order: name, image,
      the truth of the mask and its type, then the truth of `threshold and sigma`. */
  function Decide(a: Args): (d: Decision)
    // the name is checked before anything else
    ensures d == Reject(NameNotStr) <==> !IsStr(a.name)
    // the image is checked second, before any mask or threshold logic
    ensures d == Reject(ImageNot3D) <==> IsStr(a.name) && !IsArrayOfRank(a.image, 3)
    // a truthy mask must be a 2-D ndarray
    ensures d == Reject(MaskNot2D) <==>
              NameAndImageValid(a) && Truth(a.plaquesMask) == Ok(true) && !IsArrayOfRank(a.plaquesMask, 2)
    ensures d == UseGiven <==>
              NameAndImageValid(a) && Truth(a.plaquesMask) == Ok(true) && IsArrayOfRank(a.plaquesMask, 2)
    ensures d == Derive <==>
              NameAndImageValid(a) && Truth(a.plaquesMask) == Ok(false)
              && Truth(a.threshold) == Ok(true) && Truth(a.sigma) == Ok(true)
    // neither source usable: only after every type check has passed
    ensures d == Reject(NoMaskOrThreshold) <==>
              NameAndImageValid(a) && Truth(a.plaquesMask) == Ok(false) && TruthOfAnd(a.threshold, a.sigma) == Ok(false)
    // the only other outcome: a truth test on an ndarray raised NumPy's ValueError
    ensures d.Reject? && d.error !in {NameNotStr, ImageNot3D, MaskNot2D, NoMaskOrThreshold} ==>
              NameAndImageValid(a) && d.error.cls == ValueError
              && (Truth(a.plaquesMask) == Raise(d.error)
                  || (Truth(a.plaquesMask) == Ok(false) && TruthOfAnd(a.threshold, a.sigma) == Raise(d.error)))
  {
    if !IsStr(a.name) then Reject(NameNotStr)
    else if !IsArrayOfRank(a.image, 3) then Reject(ImageNot3D)
    else match Truth(a.plaquesMask)
      case Raise(e) => Reject(e)
      case Ok(true) => if IsArrayOfRank(a.plaquesMask, 2) then UseGiven else Reject(MaskNot2D)
      case Ok(false) =>
        match TruthOfAnd(a.threshold, a.sigma)
        case Raise(e) => Reject(e)
        case Ok(true) => Derive
        case Ok(false) => Reject(NoMaskOrThreshold)
  }

  /** The instance attributes of a PlaquesImageRGB object; None while unassigned. */
  datatype Attributes = Attributes(
    plaquesMask: Option<PyValue>,   // self.plaques_mask
    image: Option<PyValue>,         // self.image
    handOff: Option<HandOff>)       // the arguments PlaquesMask.__init__ was called with

  /** The attributes after __init__ and the exception it raised, if any. */
  datatype InitOutcome = InitOutcome(after: Attributes, raised: Option<Exception>)

  /** The effect of __init__, once the checks have come to `decision`, on an
      object whose attributes were `before`. */
  function Apply(before: Attributes, a: Args, decision: Decision,
                 fixedThreshold: FixedThreshold, superInit: SuperInit): (o: InitOutcome)
    // every raising check leaves the object as it was
    ensures decision.Reject? ==> o == InitOutcome(before, Some(decision.error))
    // the caller's mask is stored and handed on, and fixed_threshold plays no part
    ensures decision == UseGiven ==>
              o.after.plaquesMask == Some(a.plaquesMask)
              && o.after.handOff == Some(HandOff(a.name, a.plaquesMask, a.usePicks))
              && o.raised == superInit(HandOff(a.name, a.plaquesMask, a.usePicks))
    // the derived mask is fixed_threshold(image, threshold, sigma); its exception propagates
    ensures decision == Derive ==>
              match fixedThreshold(a.image, a.threshold, a.sigma)
              case Raise(e) => o == InitOutcome(before, Some(e))
              case Ok(m) =>
                o.after.plaquesMask == Some(m)
                && o.after.handOff == Some(HandOff(a.name, m, a.usePicks))
                && o.raised == superInit(HandOff(a.name, m, a.usePicks))
    // success: the superclass got the original name, the chosen mask and use_picks, and image is the caller's
    ensures o.raised.None? ==>
              !decision.Reject? && o.after.plaquesMask.Some? && o.after.image == Some(a.image)
              && o.after.handOff == Some(HandOff(a.name, o.after.plaquesMask.value, a.usePicks))
    // self.image is assigned only after the superclass initialiser returned
    ensures o.raised.Some? ==> o.after.image == before.image
  {
    match decision
    case Reject(e) => InitOutcome(before, Some(e))
    case _ =>
      var chosen := if decision == UseGiven then Ok(a.plaquesMask)
                    else fixedThreshold(a.image, a.threshold, a.sigma);
      match chosen
      case Raise(e) => InitOutcome(before, Some(e))
      case Ok(mask) =>
        // lines 44/50 store the mask, line 55 hands it on, line 57 stores the image
        var h := HandOff(a.name, mask, a.usePicks);
        var raised := superInit(h);
        InitOutcome(Attributes(Some(mask), if raised.None? then Some(a.image) else before.image, Some(h)), raised)
  }

  class PlaquesImageRGB {
    var plaquesMask: Option<PyValue>
    var image: Option<PyValue>
    var handOff: Option<HandOff>

    function Attrs(): Attributes
      reads this
    {
      Attributes(plaquesMask, image, handOff)
    }

    /** object.__new__: an instance with no attributes assigned yet. */
    constructor ()
      ensures Attrs() == Attributes(None, None, None)
    {
      plaquesMask, image, handOff := None, None, None;
    }

    /** __init__: returns the exception it raises, or None when it returns normally. */
    method Init(a: Args, fixedThreshold: FixedThreshold, superInit: SuperInit) returns (raised: Option<Exception>)
      modifies this
      ensures InitOutcome(Attrs(), raised) == Apply(old(Attrs()), a, Decide(a), fixedThreshold, superInit)
    {
      if !IsStr(a.name) {
        return Some(NameNotStr);
      }
      if !IsArrayOfRank(a.image, 3) {
        return Some(ImageNot3D);
      }
      var mask := a.plaquesMask;
      var maskTruth := Truth(mask);
      if maskTruth.Raise? {
        return Some(maskTruth.error);
      }
      if maskTruth.value {
        if !IsArrayOfRank(mask, 2) {
          return Some(MaskNot2D);
        }
        plaquesMask := Some(mask);
      } else {
        var both := TruthOfAnd(a.threshold, a.sigma);
        if both.Raise? {
          return Some(both.error);
        }
        if !both.value {
          return Some(NoMaskOrThreshold);
        }
        var derived := fixedThreshold(a.image, a.threshold, a.sigma);
        if derived.Raise? {
          return Some(derived.error);
        }
        mask := derived.value;
        plaquesMask := Some(mask);
      }
      handOff := Some(HandOff(a.name, mask, a.usePicks));
      raised := superInit(HandOff(a.name, mask, a.usePicks));
      if raised.None? {
        image := Some(a.image);
      }
    }
  }
}
