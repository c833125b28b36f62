/** The PyTorch `Rational` module as a dispatch state: a version tag and a
    device select one activation formula, and the operations that change
    either re-select it. Coefficients are carried along unchanged. */
module TorchRationals {
  import opened Results
  import opened Formulas

  datatype Device = Cpu | Cuda

  /** The two families of activation functions: the plain PyTorch ones
      (Rational_PYTORCH_*_F) and the CUDA kernels (Rational_CUDA_*_F.apply). */
  datatype Kernel = PytorchKernel | CudaKernel

  /** The function stored in `activation_function`: which family and which
      version of the formula. */
  datatype Formula = Formula(kernel: Kernel, version: Version)

  /** The version tags the module accepts. */
  const VersionTags: seq<string> := ["A", "B", "C", "D"]

  function Tag(v: Version): string
  {
    match v
    case A => "A"
    case B => "B"
    case C => "C"
    case D => "D"
  }

  /** The if/elif chain on the tag: one version per accepted tag, a
      ValueError for anything else. */
  function ParseVersion(tag: string): (r: Result<Version>)
    ensures r.Ok? <==> tag in VersionTags
    ensures r.Ok? ==> Tag(r.value) == tag
    ensures r.Err? ==> r.error.ValueError?
  {
    if tag == "A" then Ok(A)
    else if tag == "B" then Ok(B)
    else if tag == "C" then Ok(C)
    else if tag == "D" then Ok(D)
    else Err(ValueError("version " + tag + " not implemented"))
  }

  lemma TagRoundTrip(v: Version)
    ensures Tag(v) in VersionTags
    ensures ParseVersion(Tag(v)) == Ok(v)
  {
  }

  /** The formula for a version on a device: CUDA kernels on CUDA, the
      PyTorch functions on the CPU. */
  function Select(d: Device, v: Version): (f: Formula)
    ensures f.version == v
    ensures f.kernel == CudaKernel <==> d == Cuda
  {
    Formula(if d == Cuda then CudaKernel else PytorchKernel, v)
  }

  datatype Rational = Rational(
    numerator: seq<real>,
    denominator: seq<real>,
    device: Device,
    version: Version,
    training: bool,
    activation: Formula)

  /** The state invariant: the stored formula is the one its version and
      device select. */
  ghost predicate Dispatched(s: Rational)
  {
    s.activation == Select(s.device, s.version)
  }

  /** The constructor's `cuda` argument: `None` (use CUDA when the machine
      has it), `True` or `False`. */
  datatype CudaArg = Unspecified | UseCuda(enabled: bool)

  /** Whether the constructor places the module on CUDA. */
  function WantsCuda(cuda: CudaArg, cudaAvailable: bool): bool
  {
    match cuda
    case Unspecified => cudaAvailable
    case UseCuda(enabled) => enabled
  }

  /** Construction. The coefficients are the initial weights. Moving them to
      CUDA fails on a machine without CUDA before the tag is examined;
      otherwise the tag selects the formula for the chosen device. */
  function New(tag: string, cuda: CudaArg, cudaAvailable: bool,
               numerator: seq<real>, denominator: seq<real>, trainable: bool): (r: Result<Rational>)
    ensures r.Ok? <==> tag in VersionTags && (WantsCuda(cuda, cudaAvailable) ==> cudaAvailable)
    ensures WantsCuda(cuda, cudaAvailable) && !cudaAvailable ==> r.Err? && r.error.RuntimeError?
    ensures r.Err? && (cudaAvailable || !WantsCuda(cuda, cudaAvailable)) ==> r.error.ValueError?
    ensures r.Ok? ==> Dispatched(r.value) && Tag(r.value.version) == tag
    ensures r.Ok? ==> r.value.device == (if WantsCuda(cuda, cudaAvailable) then Cuda else Cpu)
    ensures r.Ok? ==> r.value.training == trainable
    ensures r.Ok? ==> r.value.numerator == numerator && r.value.denominator == denominator
  {
    var device := if WantsCuda(cuda, cudaAvailable) then Cuda else Cpu;
    if device == Cuda && !cudaAvailable then Err(RuntimeError("CUDA is not available"))
    else
      match ParseVersion(tag)
      case Err(e) => Err(e)
      case Ok(v) => Ok(Rational(numerator, denominator, device, v, trainable, Select(device, v)))
  }

  /** Running a stored formula: both families compute the version's formula. */
  function Apply(f: Formula, x: real, a: seq<real>, b: seq<real>, training: bool, noise: Noise): real
    requires f.version == D && training ==> Drawn(noise, |a|, |b|, DefaultDeviation)
  {
    Evaluate(f.version, x, a, b, training, noise, DefaultDeviation)
  }

  /** `forward`: the stored formula applied to the input, the coefficients
      and the training flag. */
  function Forward(s: Rational, x: real, noise: Noise): real
    requires s.activation.version == D && s.training ==>
               Drawn(noise, |s.numerator|, |s.denominator|, DefaultDeviation)
  {
    Apply(s.activation, x, s.numerator, s.denominator, s.training, noise)
  }

  /** In a dispatched state `forward` computes the formula of the state's
      version, whatever the device. */
  lemma ForwardFollowsVersion(s: Rational, x: real, noise: Noise)
    requires Dispatched(s)
    requires s.version == D && s.training ==>
               Drawn(noise, |s.numerator|, |s.denominator|, DefaultDeviation)
    ensures Forward(s, x, noise) == Evaluate(s.version, x, s.numerator, s.denominator, s.training, noise, DefaultDeviation)
  {
  }

  /** `change_version`: an AssertionError for a tag outside A to D, no change
      for the current version, otherwise the new version and its formula on
      the current device. */
  function ChangeVersion(s: Rational, tag: string): (r: Result<Rational>)
    ensures r.Ok? <==> tag in VersionTags
    ensures r.Err? ==> r.error == AssertionError
    ensures r.Ok? ==> Tag(r.value.version) == tag
    ensures r.Ok? ==> r.value.device == s.device && r.value.training == s.training
    ensures r.Ok? ==> r.value.numerator == s.numerator && r.value.denominator == s.denominator
    ensures r.Ok? && Tag(s.version) == tag ==> r.value == s
    ensures r.Ok? && Tag(s.version) != tag ==> r.value.activation == Select(s.device, r.value.version)
    ensures r.Ok? && Dispatched(s) ==> Dispatched(r.value)
  {
    match ParseVersion(tag)
    case Err(_) => Err(AssertionError)
    case Ok(v) =>
      if v == s.version then Ok(s)
      else Ok(s.(version := v, activation := Select(s.device, v)))
  }

  /** `cpu()`: same version and coefficients, CPU device, CPU formula. */
  function ToCpu(s: Rational): (r: Rational)
    ensures r.device == Cpu && r.version == s.version
    ensures r.training == s.training
    ensures r.numerator == s.numerator && r.denominator == s.denominator
    ensures Dispatched(r)
  {
    s.(device := Cpu, activation := Select(Cpu, s.version))
  }

  /** Changing the version twice to the same tag is the same as once. */
  lemma ChangeVersionIdempotent(s: Rational, tag: string)
    requires tag in VersionTags
    ensures ChangeVersion(ChangeVersion(s, tag).value, tag) == ChangeVersion(s, tag)
  {
  }

  /** Moving to the CPU and changing the version commute on a dispatched
      state. */
  lemma ToCpuCommutesWithChangeVersion(s: Rational, tag: string)
    requires Dispatched(s)
    requires tag in VersionTags
    ensures ToCpu(ChangeVersion(s, tag).value) == ChangeVersion(ToCpu(s), tag).value
  {
  }

  // ---------------------------------------------------------------------
  // AugmentedRational: an affine wrapper around a rational activation.

  /** The learnable affine parameters. */
  datatype Affine = Affine(inBias: real, outBias: real, verticalScale: real, horizontalScale: real)

  /** The parameters at construction: biases 0, scales 1. */
  const InitialAffine: Affine := Affine(0.0, 0.0, 1.0, 1.0)

  /** The wrapper as written: the class derives from the plain module base,
      not from Rational, so an instance holds the affine parameters and
      whatever `activation_function` was assigned to it. */
  datatype AugmentedAsWritten = AugmentedAsWritten(affine: Affine, activation: Option<Rational>)

  /** The constructor as written: it accepts every argument, assigns only the
      four affine parameters and never builds or dispatches a Rational. */
  function NewAugmentedAsWritten(tag: string, cuda: CudaArg, cudaAvailable: bool,
                                 numerator: seq<real>, denominator: seq<real>, trainable: bool): AugmentedAsWritten
  {
    AugmentedAsWritten(InitialAffine, None)
  }

  /** `forward` as written: rescale and shift the input, then look up the
      rational activation; a missing attribute raises AttributeError. */
  function AugmentedForwardAsWritten(g: AugmentedAsWritten, x: real, noise: Noise): Result<real>
    requires g.activation.Some? && g.activation.value.activation.version == D && g.activation.value.training ==>
               Drawn(noise, |g.activation.value.numerator|, |g.activation.value.denominator|, DefaultDeviation)
  {
    var p := g.affine;
    var z := p.horizontalScale * x + p.inBias;
    match g.activation
    case None => Err(AttributeError("activation_function"))
    case Some(s) => Ok(p.verticalScale * Forward(s, z, noise) + p.outBias)
  }

  /** Every wrapper the constructor builds, for every tag (valid or not),
      fails on every input: the activation it reads was never assigned. */
  lemma AugmentedAsWrittenAlwaysFails(tag: string, cuda: CudaArg, cudaAvailable: bool,
                                      numerator: seq<real>, denominator: seq<real>, trainable: bool,
                                      x: real, noise: Noise)
    ensures NewAugmentedAsWritten(tag, cuda, cudaAvailable, numerator, denominator, trainable).affine == InitialAffine
    ensures AugmentedForwardAsWritten(NewAugmentedAsWritten(tag, cuda, cudaAvailable, numerator, denominator, trainable), x, noise)
              == Err(AttributeError("activation_function"))
  {
  }

  /** The wrapper as its documentation describes it: a Rational built from
      the same constructor arguments, plus the affine parameters. */
  datatype Augmented = Augmented(affine: Affine, rational: Rational)

  function NewAugmented(tag: string, cuda: CudaArg, cudaAvailable: bool,
                        numerator: seq<real>, denominator: seq<real>, trainable: bool): (r: Result<Augmented>)
    ensures r.Ok? <==> New(tag, cuda, cudaAvailable, numerator, denominator, trainable).Ok?
    ensures r.Ok? ==> r.value.affine == InitialAffine
    ensures r.Ok? ==> New(tag, cuda, cudaAvailable, numerator, denominator, trainable) == Ok(r.value.rational)
  {
    match New(tag, cuda, cudaAvailable, numerator, denominator, trainable)
    case Err(e) => Err(e)
    case Ok(s) => Ok(Augmented(InitialAffine, s))
  }

  /** vertical_scale * R(horizontal_scale * x + in_bias) + out_bias */
  function AugmentedForward(g: Augmented, x: real, noise: Noise): real
    requires g.rational.activation.version == D && g.rational.training ==>
               Drawn(noise, |g.rational.numerator|, |g.rational.denominator|, DefaultDeviation)
  {
    var p := g.affine;
    p.verticalScale * Forward(g.rational, p.horizontalScale * x + p.inBias, noise) + p.outBias
  }

  /** With the initial affine parameters the wrapper is the rational itself. */
  lemma InitialAugmentedIsRational(s: Rational, x: real, noise: Noise)
    requires s.activation.version == D && s.training ==>
               Drawn(noise, |s.numerator|, |s.denominator|, DefaultDeviation)
    ensures AugmentedForward(Augmented(InitialAffine, s), x, noise) == Forward(s, x, noise)
  {
  }
}
