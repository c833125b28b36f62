# Rational activation functions in Dafny

This project models the evaluation engine of learnable rational activation
functions (Padé activation units). Each one is an elementwise function
f(x) = P(x) / Q(x) with numerator coefficients `a` and denominator
coefficients `b`:

| version | Q(x) |
|---|---|
| A | 1 + \|b[0] x\| + \|b[1] x^2\| + ... (absolute value per term) |
| B | 1 + \|b[0] x + b[1] x^2 + ...\| (one absolute value of the sum) |
| C | 0.1 + \|b[0] + b[1] x + ...\| (b[0] is a constant term) |
| D | as B, with every coefficient multiplied by a noise factor in [1 - r, 1 + r] in training mode |

P(x) = a[0] + a[1] x + a[2] x^2 + ... for every version.

The model covers three parts of the repository:

- the TensorFlow/Keras back end, which builds one power table by repeated
  multiplication and implements versions a, b and c, with d as a stub that raises;
- the MXNet back end, which builds separate numerator and denominator tables
  and implements versions A to D;
- the version dispatch of the PyTorch `Rational` module (construction,
  `forward`, `change_version`, `cpu`) and the `AugmentedRational` affine wrapper.

One input element is modelled: `x: real` with `a, b: seq<real>`. Arithmetic is
exact real arithmetic.

Modules:

- `Results` (results.dfy): `Result`/`Option` and the Python exceptions raised
  (`ValueError`, `AssertionError`, `NotImplementedError`, `AttributeError`, and
  `RuntimeError` for moving the weights to a CUDA device the machine lacks).
- `Poly` (poly.dfy): `Pow` (x^0 = 1, x^(k+1) = x^k * x), the power table
  `Powers`, the table-based evaluator `WeightedSum`/`AbsWeightedSum`
  (coefficient i reads table entry i + offset), and the closed forms
  `Eval`/`AbsEval`.
- `Formulas` (formulas.dfy): the `Version` enumeration, the closed-form
  denominators and versions, version D's noise as a caller-supplied draw, and
  the dispatch `Evaluate`.
- `KerasVersions` (keras_versions.dfy) and `MxnetVersions` (mxnet_versions.dfy):
  the two back ends. Each version there is computed from that back end's own
  tables and proved equal to the closed form. The two back ends are proved
  to agree.
- `TorchRationals` (torch_rationals.dfy): the dispatch state and the affine wrapper.

Exponent conventions, as the code has them. For A, B and D, denominator
coefficient b[j] multiplies x^(j+1). For C it multiplies x^j: the MXNet back
end builds C's denominator from the numerator table, and Keras reads table
entry j instead of j + 1. The docstrings of the PyTorch classes write C's
denominator without a constant term. The code has one, and the model follows
the code (`Formulas.CConstantTerm`).

The docstring of `_get_xps_denom` says its table ends at x^(n+1). The code
ends it at x^n, with n entries x^1 ... x^n, and the model follows the code
(`MxnetVersions.XpsDenom`). This matches the version formulas, whose last
denominator term is b[m] x^(m+1) for m + 1 coefficients.

Likewise, the docstring of `_get_xps_num` (rational/mxnet/versions.py:15) says
its table ends at x^{weights_len}. The loop runs weights_len - 1 times, so the
code ends it at x^(weights_len - 1), one power per numerator coefficient. The
model follows the code (`MxnetVersions.XpsNum`).

## Model

| member | source | states |
|---|---|---|
| Poly.Powers | rational/keras/versions.py:14-22 | The table built by multiplying the previous entry by x has n entries. Entry i is x^i, so entry 0 is 1 for every x, including 0 and negative x. |
| Poly.AbsWeightedSum | rational/keras/versions.py:48-51 | The sum of per-term absolute values is never negative. This is what keeps version A's denominator at least 1. |
| Poly.TableSums | rational/keras/versions.py:43-51 | On a table whose entries from offset o are x^e, x^(e+1), ..., the table sums equal the closed-form polynomial. This holds with and without per-term absolute values. |
| Poly.SumsReadOnlyPrefix | rational/keras/versions.py:44-51 | A sum over \|w\| coefficients at offset o reads only entries below \|w\| + o. Two tables that agree there give equal sums. |
| KerasVersions.GetXps | rational/keras/versions.py:4-22 | The loop that starts from [x], appends last * x max(len a, len b) times and then inserts a 1 gives a table of max + 2 entries. Entry i is x^i. |
| KerasVersions.DegreeInvariance | rational/keras/versions.py:41-115 | Every power table long enough for a and b gives the same values for versions a, b and c. Higher powers are never read. |
| KerasVersions.DegreeInvarianceC | rational/keras/versions.py:103-115 | Version c needs only as many table entries as it has coefficients: any power table with at least \|a\| and \|b\| entries gives the closed form. |
| KerasVersions.VersionA | rational/keras/versions.py:41-53 | Version a equals sum a[i] x^i / (1 + sum \|b[j] x^(j+1)\|) for every x, a, b and training flag. |
| KerasVersions.VersionB | rational/keras/versions.py:72-84 | Version b equals sum a[i] x^i / (1 + \|sum b[j] x^(j+1)\|). |
| KerasVersions.VersionC | rational/keras/versions.py:103-115 | Version c equals sum a[i] x^i / (0.1 + \|sum b[j] x^j\|), so b[0] is a constant term. |
| KerasVersions.VersionDAlwaysRaises | rational/keras/versions.py:118-136 | Version d never returns a value. It always fails with NotImplementedError. |
| KerasVersions.EmptyDenominator | rational/keras/versions.py:43-115 | With empty b, versions a and b return the numerator polynomial and version c returns 10 times it. |
| KerasVersions.WorkedExampleB | rational/keras/versions.py:72-84 | For a = [1, 2] and b = [0.5], version b maps x = 0, 1, 2 to 1, 2, 2.5. |
| Formulas.DenominatorA | rational/keras/versions.py:48-53 | Version A's denominator is at least 1, so its division is always defined. |
| Formulas.DenominatorB | rational/keras/versions.py:79-84 | Version B's denominator is at least 1. It exceeds 1 by at least the sum and by at least its negation. |
| Formulas.DenominatorC | rational/keras/versions.py:110-115 | Version C's denominator is at least 0.1. It exceeds 0.1 by at least the sum and by at least its negation. |
| Formulas.DenominatorADominatesB | rational/keras/versions.py:48-84 | For the same b and x, version A's denominator is never smaller than version B's. |
| Formulas.MixedSignsSeparateAAndB | rational/keras/versions.py:48-84 | With mixed-sign terms the versions differ. For b = [1, -1] at x = 1, Q_A = 3 and Q_B = 1, so A and B give different outputs for a = [1]. |
| Formulas.CConstantTerm | rational/mxnet/versions.py:154-166 | Version C's denominator is 0.1 + \|b[0] + sum over j >= 1 of b[j] x^j\|. That is B's denominator polynomial of b[1..] plus the constant b[0]. |
| Formulas.PerturbWithinDeviation | rational/mxnet/versions.py:202-215 | Each noised coefficient lies within r * \|w[i]\| of its coefficient w[i]. So it is between (1 - r) w[i] and (1 + r) w[i]. |
| Formulas.NoisyDenominatorAtLeastOne | rational/mxnet/versions.py:213-224 | Version D's denominator on noised coefficients is at least 1 for every noise draw. |
| Formulas.UnitNoiseIsVersionB | rational/mxnet/versions.py:199-224 | For every deviation r >= 0, the all-one draw is a legal draw, and it makes training-mode version D equal to version B. |
| Formulas.EmptyDenominator | rational/mxnet/versions.py:53-224 | With empty b, versions A and B and inference-mode D return the numerator polynomial, and version C returns 10 times it. |
| Formulas.TrainingOnlyAffectsD | rational/mxnet/versions.py:194-197 | The training flag changes nothing for A, B and C. Version D in inference mode equals version B. |
| MxnetVersions.XpsNum | rational/mxnet/versions.py:7-27 | The numerator table for n weights has n entries, or 1 entry when n = 0. Entry i is x^i and entry 0 is 1. |
| MxnetVersions.XpsDenom | rational/mxnet/versions.py:30-50 | The denominator table for n >= 1 weights has n entries. Entry j is x^(j+1), so the last entry is x^n. |
| MxnetVersions.SumOfOnes | rational/mxnet/versions.py:160 | A sum over n ones is n. |
| MxnetVersions.VersionCBias | rational/mxnet/versions.py:159-161 | The version-C bias, computed as 1 divided by the sum of a row of ten ones, is exactly 0.1. |
| MxnetVersions.NumeratorSum | rational/mxnet/versions.py:72-76 | The numerator read from the numerator table is the polynomial sum a[i] x^i. |
| MxnetVersions.VersionA | rational/mxnet/versions.py:71-88 | Version A equals sum a[i] x^i / (1 + sum \|b[j] x^(j+1)\|). |
| MxnetVersions.VersionB | rational/mxnet/versions.py:109-126 | Version B equals sum a[i] x^i / (1 + \|sum b[j] x^(j+1)\|). |
| MxnetVersions.VersionC | rational/mxnet/versions.py:147-168 | Version C equals sum a[i] x^i / (0.1 + \|sum b[j] x^j\|). Reusing the numerator table puts the constant term b[0] in the denominator. |
| MxnetVersions.VersionD | rational/mxnet/versions.py:194-224 | Without training, version D is exactly version B. With training, it is version B on coefficients each multiplied by its own factor, drawn separately for numerator and denominator. |
| MxnetVersions.TrainingIgnored | rational/mxnet/versions.py:53-168 | Versions A, B and C give the same output for both values of the training flag. |
| MxnetVersions.UnitNoiseIsVersionB | rational/mxnet/versions.py:203-224 | For every deviation r >= 0, the all-one draw is legal, and in training mode it makes version D equal to version B. |
| MxnetVersions.AgreesWithKeras | rational/mxnet/versions.py:53-168 | The MXNet and Keras versions A, B and C agree for every x, a, b and training flag. |
| TorchRationals.ParseVersion | rational/torch/rationals.py:207-216 | A tag is accepted exactly when it is one of "A", "B", "C", "D", and it maps back to itself. Any other tag is a ValueError. |
| TorchRationals.TagRoundTrip | rational/torch/rationals.py:193-216 | Every version's tag is accepted and parses back to that version. |
| TorchRationals.Select | rational/torch/rationals.py:193-218 | The selected formula has the requested version. It is a CUDA kernel exactly when the device is CUDA. |
| TorchRationals.New | rational/torch/rationals.py:168-218 | CUDA is used when requested, or when available and not specified. Construction fails with RuntimeError when CUDA is used on a machine without it, because moving the weights there fails before the tag is read. Otherwise it succeeds exactly for the four tags and fails with ValueError for any other. On success, the formula matches the version and device, and the training flag and coefficients are the given ones. |
| TorchRationals.ForwardFollowsVersion | rational/torch/rationals.py:224-227 | In a dispatched state, forward is the state's version formula applied to x, the coefficients and the training flag. |
| TorchRationals.ChangeVersion | rational/torch/rationals.py:383-413 | A tag outside A to D fails with AssertionError. The current tag leaves the state unchanged. Any other valid tag sets the version to it and stores the formula that version selects on the unchanged device, even from a state whose stored formula was stale. Coefficients and training are kept, and the dispatch invariant is preserved. |
| TorchRationals.ChangeVersionIdempotent | rational/torch/rationals.py:383-413 | Changing to the same valid tag twice is the same as doing it once. |
| TorchRationals.ToCpu | rational/torch/rationals.py:234-248 | cpu() keeps the version and coefficients, sets the device to CPU and selects the CPU formula for that version. |
| TorchRationals.ToCpuCommutesWithChangeVersion | rational/torch/rationals.py:383-413 | On a dispatched state, moving to the CPU and changing the version give the same state in either order. |
| TorchRationals.AugmentedAsWrittenAlwaysFails | rational/torch/rationals.py:533-578 | The constructor as written accepts every argument, sets the affine parameters to their initial values and assigns no activation. Forward on any wrapper it builds fails with AttributeError for every input. |
| TorchRationals.NewAugmented | rational/torch/rationals.py:565-572 | The corrected wrapper is constructed exactly when the inner Rational is. It has in/out bias 0 and both scales 1. |
| TorchRationals.InitialAugmentedIsRational | rational/torch/rationals.py:569-578 | vertical_scale * R(horizontal_scale * x + in_bias) + out_bias with the initial parameters equals R(x). |

## Findings

| source | as written | input that shows it | evidently intended | confidence | as-written member | corrected member |
|---|---|---|---|---|---|---|
| rational/torch/rationals.py:533-578 | `AugmentedRational` derives from the plain module base and its constructor only creates the four affine parameters. `forward` then reads `activation_function`, `numerator` and `denominator`, which are never assigned. | Any input, e.g. x = 0 with default constructor arguments: forward raises AttributeError. The model: `NewAugmentedAsWritten` builds a wrapper with no activation, and `AugmentedForwardAsWritten` fails on the lookup. | The class docstring says the wrapper is inherited from `Rational`. It should build the rational activation from its constructor arguments and wrap it affinely. | high; not executed | TorchRationals.AugmentedAsWrittenAlwaysFails | TorchRationals.InitialAugmentedIsRational |

## Left out

- Floating-point rounding and summation order. The model uses exact reals, so the MXNet back end's direct powers and Keras's repeated multiplication give the same table.
- Tensor shapes, broadcasting, `expand_dims` and `concat`. One scalar input element is modelled.
- MXNet's `num_len` and `denom_len` arguments are taken to be the coefficient vector lengths. With zero weights, the one-row table against zero weights is taken to give an empty sum of 0.
- Random number generation. Version D's noise is a caller-supplied draw (`Formulas.Noise`) whose factors lie in [1 - r, 1 + r].
- Gradients. The backward formulas live in kernels that are not part of this model.
- The PyTorch activation functions themselves (`Rational_PYTORCH_*_F`, `Rational_CUDA_*_F`) are not part of this model. A stored formula is modelled as computing the closed-form version it names, on either device, with the default deviation 0.1 for version D.
- Weight initialisation (`get_parameters`). The initial coefficients are constructor inputs, and the errors that lookup may raise are not modelled.
- `cuda()`, `to()`, `_apply()` and CUDA availability detection. Availability is an input to construction. The exception torch raises for a missing CUDA device depends on how it was built, so it is modelled as one `RuntimeError`. The failed import of the CUDA kernels at module load is not modelled separately, because construction fails at the weight transfer first.
- Input histograms (`input_retrieve_mode`, `training_mode`, `_save_input*`, `_cleared_arrays`), `show`, `numpy`, `fit` and `best_fit`. These are plotting, conversion and fitting.
- `_from_old` and the `RecurrentRational` wrappers.
- The console messages printed by `change_version` and at import.
- src/setup.py: code generation and packaging.
