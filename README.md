# PlaquesImageRGB construction, modelled in Dafny

PyPlaque quantifies virological plaques in microscopy images. A
`PlaquesImageRGB` specimen holds an RGB image, held as a 3-D NumPy array,
together with a binary plaque mask, held as a 2-D array. Its constructor
checks what it is given, in this order:

1. the name must be a `str`;
2. the image must be a 3-D `ndarray`;
3. if the mask is truthy, it must be a 2-D `ndarray`, and it is stored;
4. otherwise, if `threshold and sigma` is truthy, the stored mask is
   `fixed_threshold(image, threshold, sigma)`;
5. otherwise the constructor raises `ValueError`.

After that it hands the name, the chosen mask and `use_picks` to the
`PlaquesMask` initialiser and stores the image.

The model has four modules:

- `PyValues` (`python_values.dfy`) covers the Python values the arguments
  can be, Python exceptions, and truthiness. Truthiness includes NumPy's
  rule that an array's truth value is defined only when it holds exactly one
  element.
- `PlaquesImageRgb` (`plaques_image_rgb.dfy`) has three layers:
  - `Decide`, the decision the guarded checks reach;
  - `Apply`, the effect of that decision on the object's attributes;
  - the class `PlaquesImageRGB`. Its constructor stands for `object.__new__`,
    which creates an object with no attributes. Its method `Init` is
    `__init__`, written step by step. `Init` is proved to leave the
    attributes, and to raise, exactly as `Apply(old attributes, args,
    Decide(args), …)` says.
- `ConstructionLemmas` (`construction_lemmas.dfy`) holds properties that
  relate several calls or fix particular arguments.
- `IntendedDispatch` (`intended_dispatch.dfy`) holds the two findings below
  and the corrected dispatch.

`fixed_threshold` and `PlaquesMask.__init__` are not part of this model.
They become function-typed parameters, `FixedThreshold` and `SuperInit`.
Each is an arbitrary function of its arguments that may return or raise, and
every property holds for every such function. Their other possible effects
are not modelled; the list under "## Left out" says which.

The specification of the system and the code disagree in places. The model
follows the code:

- The specification asks for a non-empty name. The code accepts any `str`,
  including `""`.
- The specification says the mask must match the image's extent. The code
  does not compare them.
- The specification says exactly one of mask and (threshold, sigma) is
  provided. The code accepts both at once, and then the usable mask wins
  (`ConstructionLemmas.GivenMaskIgnoresThreshold`).
- The specification treats a threshold or sigma of 0 as valid. The code
  reads 0 as absent (`ConstructionLemmas.ZeroThresholdOrSigmaRejected`).
- The specification says a specimen owns its image and mask exclusively.
  The code stores the caller's own objects, without copying them, so the
  caller still shares them. The model represents arrays as values and does
  not capture this sharing.
- The module ends with a demonstration block whose guard
  `__name__ == __name__` is always true, so it runs on every import. Its
  call passes only `sigma=1`, so importing the module raises the
  "Either mask or fixed threshold must be provided" ValueError
  (`ConstructionLemmas.OnlySigmaGivenRaises`).

## Model

| member | source | states |
|---|---|---|
| `PyValues.Truth` | PyPlaque/specimen/plaques_image_rgb.py:40 | the truth test `if` applies. None, False, 0, 0.0 and "" are falsy. Non-arrays never raise. An ndarray has a truth value iff every dimension is 1, and then it is the truth of its one element. Any failure is a ValueError |
| `PyValues.TruthOfAnd` | PyPlaque/specimen/plaques_image_rgb.py:45 | `threshold and sigma` is truthy iff both are truthy. It is falsy iff threshold is falsy, or threshold is truthy and sigma falsy. An exception from either truth test propagates: from threshold's, or from sigma's when threshold is truthy |
| `PyValues.SizeIsOneIff` | PyPlaque/specimen/plaques_image_rgb.py:40 | an array holds exactly one element iff every dimension has length 1. This decides when the truth test of line 40 succeeds on an ndarray |
| `PlaquesImageRgb.WithDefaults` | PyPlaque/specimen/plaques_image_rgb.py:31-34 | the defaults: the mask and threshold are falsy (None), sigma is truthy (5) and use_picks is falsy (False) |
| `PlaquesImageRgb.Decide` | PyPlaque/specimen/plaques_image_rgb.py:36-52 | one iff per outcome. TypeError for the name iff the name is not a str, whatever else is passed. TypeError for the image iff the name passes and the image is not a 3-D ndarray. TypeError for the mask iff both pass and the mask is truthy but not a 2-D ndarray. The caller's mask is used iff it is truthy and 2-D. fixed_threshold is used iff the mask is falsy and threshold and sigma are both truthy. ValueError iff the mask is falsy and `threshold and sigma` is falsy. Any other outcome is NumPy's ValueError from a truth test: after the name and image checks, and for the mask before its type check, so a multi-element mask of the wrong rank gets that ValueError rather than the TypeError |
| `PlaquesImageRgb.Apply` | PyPlaque/specimen/plaques_image_rgb.py:44-57 | a rejection leaves every attribute as it was. The direct branch stores and hands on the caller's mask, and the result does not depend on fixed_threshold. The derived branch stores and hands on `fixed_threshold(image, threshold, sigma)`, or leaves the object unchanged if that call raises. On success the superclass received the original name, the chosen mask and use_picks, and `image` is the caller's image. `image` is assigned only if the superclass initialiser returned |
| `PlaquesImageRgb.PlaquesImageRGB.constructor` | PyPlaque/specimen/plaques_image_rgb.py:6 | a new instance has no attributes assigned |
| `PlaquesImageRgb.PlaquesImageRGB.Init` | PyPlaque/specimen/plaques_image_rgb.py:28-57 | the step-by-step `__init__` leaves the attributes, and raises, exactly as `Apply(old attributes, args, Decide(args), …)` says |
| `ConstructionLemmas.GivenMaskIgnoresThreshold` | PyPlaque/specimen/plaques_image_rgb.py:40-44 | once the mask is usable, changing threshold, sigma or fixed_threshold does not change the outcome, so fixed_threshold is not called |
| `ConstructionLemmas.TypeErrorsPrecedeValueError` | PyPlaque/specimen/plaques_image_rgb.py:36-52 | every TypeError raised by the checks is raised whatever threshold and sigma are, so it is never the no-source ValueError |
| `ConstructionLemmas.ZeroThresholdOrSigmaRejected` | PyPlaque/specimen/plaques_image_rgb.py:45-52 | with a falsy mask, a threshold of 0 or 0.0, or a truthy threshold with a sigma of 0 or 0.0, raises the no-source ValueError |
| `ConstructionLemmas.OnlySigmaGivenRaises` | PyPlaque/specimen/plaques_image_rgb.py:32-33 | a call that passes name, a 3-D image and only sigma=1 (the module's demonstration call, line 61) raises the no-source ValueError |
| `ConstructionLemmas.RaisingConstructionOnNewObject` | PyPlaque/specimen/plaques_image_rgb.py:36-57 | when construction of a new object raises, `image` stays unassigned. Any attribute is assigned only if the checks passed and the superclass initialiser raised |
| `ConstructionLemmas.SuccessfulConstruction` | PyPlaque/specimen/plaques_image_rgb.py:36-57 | a successful construction had a valid name and image. `image` is the caller's. The stored mask is the caller's in the direct branch and fixed_threshold's result in the derived one. The superclass received the name, that mask and use_picks |
| `IntendedDispatch.GivenMaskIsOneByOne` | PyPlaque/specimen/plaques_image_rgb.py:40-44 | as written, the caller's mask is used only if it is a 1x1 array whose element is truthy |
| `IntendedDispatch.EveryRealMaskRaises` | PyPlaque/specimen/plaques_image_rgb.py:40 | as written, every 2-D mask other than a 1x1 one makes the truth test raise NumPy's ValueError |
| `IntendedDispatch.TypicalMaskRaises` | PyPlaque/specimen/plaques_image_rgb.py:40 | a 64x64 all-true mask with a 64x64x3 image raises the "more than one element is ambiguous" ValueError |
| `IntendedDispatch.DecideIntended` | PyPlaque/specimen/plaques_image_rgb.py:36-52 | the dispatch by presence. It never raises a truth-test error, and its name and image checks are those of the code. Every 2-D mask is used, whatever its contents. A non-None mask that is not 2-D is a TypeError. Without a mask, any threshold and sigma that are given (zero included) are used. The no-source ValueError is raised iff no mask is given and threshold or sigma is None |
| `IntendedDispatch.IntendedKeepsAcceptedCalls` | PyPlaque/specimen/plaques_image_rgb.py:40-50 | every call the code accepts with its own mask, or derives a mask for from no mask, the corrected dispatch accepts the same way |
| `IntendedDispatch.IntendedStoresEveryMask` | PyPlaque/specimen/plaques_image_rgb.py:44-55 | with the corrected dispatch, any 2-D mask is stored and passed to the superclass initialiser |

## Findings

| source | as written | input that shows it | evidently intended | confidence | as-written member | corrected member |
|---|---|---|---|---|---|---|
| PyPlaque/specimen/plaques_image_rgb.py:40 | `if plaques_mask:` tests the truth of a NumPy array | any 2-D mask with more than one element, e.g. a 64x64 mask and a 64x64x3 image: NumPy raises ValueError, so the documented direct-mask use always fails | `if plaques_mask is not None:` | high; not executed | `IntendedDispatch.EveryRealMaskRaises` | `IntendedDispatch.DecideIntended` |
| PyPlaque/specimen/plaques_image_rgb.py:45 | `elif threshold and sigma:` tests truthiness | no mask and `threshold=0` (or `sigma=0`): it raises "Either mask or fixed threshold must be provided" although both were given | `threshold is not None and sigma is not None` | medium; not executed | `ConstructionLemmas.ZeroThresholdOrSigmaRejected` | `IntendedDispatch.DecideIntended` |

The class `PlaquesImageRGB` models the code as written. The corrected
dispatch plugs into the same `Apply`; `IntendedDispatch.IntendedStoresEveryMask`
proves what it then stores.

## Left out

- `fixed_threshold` (Gaussian smoothing, normalisation, floating-point comparison) is not part of this model. It is an arbitrary function of the image, threshold and sigma that may raise.
- `PlaquesMask.__init__` is not part of this model, and neither is what it computes or assigns (name, picks, areas). Only the arguments it receives are recorded, and it may return or raise.
- NumPy array contents are reduced to each element's truth value. Only shape, rank and, for one-element arrays, the element's truth are used.
- An empty array's truth test raises `ValueError`, as in NumPy 2.2 and later. Earlier NumPy versions returned False with a deprecation warning. Those versions would send an empty mask to the threshold branch.
- The truth of any other object is taken as a given boolean. A `__bool__` that raises is not modelled.
- Float NaN and infinities are not modelled. NaN is truthy in Python.
- Subclasses of `str` and `ndarray` are not distinguished, since `isinstance` accepts them.
- The module-level demonstration block (lines 59-63) calls `np.random.rand` and `print`. Both are random or I/O and are left out. Its call is captured by `ConstructionLemmas.OnlySigmaGivenRaises`.
- `PyPlaque/utils/__init__.py` only re-exports other modules and has no logic to model.
- `SuperInit`: `PlaquesMask.__init__` is taken to depend only on its three arguments and to change nothing the model tracks. So the model does not capture it assigning `self.plaques_mask` or `self.image`, or reading the object's earlier state.
- `FixedThreshold`: `fixed_threshold` is taken to depend only on its arguments and not to change them. An in-place change to the image is not captured.
- Arrays and other arguments are values. The source stores and hands on the caller's own objects, shared and not copied, and the model does not capture that aliasing. A later change the caller makes to its array is therefore not represented.
- Calling `__init__` for a second time on the same object is covered by `Init` (the attributes are stated relative to their old values). No lemma singles that case out.
