/** `dispatch!` and the `is_*_available` probes: the choice of one backend
    kernel from the instruction sets the build enables and the CPU reports.
    The CPU's report is an input (the `detected` set); the model does not
    execute CPUID. */
module Dispatch {
  import opened IntMath

  datatype Arch = X86 | X86_64 | Aarch64 | OtherArch
  datatype Feature = Avx512fFeature | Avx2Feature | FmaFeature | NeonFeature

  /** The build and the machine: the target architecture, whether the
      `nightly` and `std` crate features are on, the features enabled at
      compile time (`cfg!(target_feature = ..)`), and those the run-time
      detection macros report. */
  datatype Target = Target(arch: Arch, nightly: bool, std: bool, compiled: set<Feature>, detected: set<Feature>)

  predicate IsX86(arch: Arch) {
    arch == X86 || arch == X86_64
  }

  /** `is_avx512_available`, `is_avx2_available`, `is_fma_available` and
      `is_neon_available`: true when the feature is enabled at compile time;
      otherwise, with `std`, whatever run-time detection reports; otherwise
      false. */
  function IsAvailable(target: Target, f: Feature): (r: bool)
    ensures f in target.compiled ==> r
    ensures !target.std && f !in target.compiled ==> !r
    ensures r ==> f in target.compiled || f in target.detected
  {
    if f in target.compiled then true
    else if target.std && f in target.detected then true
    else false
  }

  /** Run-time detection can only add to what the build enables: a machine
      that reports more features never makes a probe false. */
  lemma AvailableMonotone(target: Target, more: set<Feature>, f: Feature)
    requires target.detected <= more
    ensures IsAvailable(target, f) ==> IsAvailable(target.(detected := more), f)
  {
  }

  /** The backends, one per arm of the macro. */
  datatype Backend = Avx512 | Avx2Fma | Avx2 | Neon | Fallback

  /** Which optional arms an invocation names; `fallback` is mandatory and
      always present. */
  datatype Arms = Arms(avx512: bool, avx2fma: bool, avx2: bool, neon: bool)

  /** The arms every operation of the crate names when it has an FMA
      variant, and the arms of those that have none. */
  const AllArms := Arms(true, true, true, true)
  const NoFmaArms := Arms(true, false, true, true)

  /** The priority of the arms, highest first, as the macro lists them. */
  function Rank(b: Backend): (r: nat)
    ensures r < 5
  {
    match b
    case Avx512 => 0
    case Avx2Fma => 1
    case Avx2 => 2
    case Neon => 3
    case Fallback => 4
  }

  /** Whether arm `b` would run if control reached it: it is named, it is
      compiled for this architecture (the AVX-512 arm also needs
      `nightly`), and its probes are true. */
  predicate Fires(target: Target, arms: Arms, b: Backend) {
    match b
    case Avx512 => arms.avx512 && IsX86(target.arch) && target.nightly && IsAvailable(target, Avx512fFeature)
    case Avx2Fma => arms.avx2fma && IsX86(target.arch) && IsAvailable(target, Avx2Feature) && IsAvailable(target, FmaFeature)
    case Avx2 => arms.avx2 && IsX86(target.arch) && IsAvailable(target, Avx2Feature)
    case Neon => arms.neon && target.arch == Aarch64 && IsAvailable(target, NeonFeature)
    case Fallback => true
  }

  /** The macro's expansion: each arm `return`s, so the first arm whose
      guard holds runs, and the mandatory fallback is the final
      expression. The result is the highest-priority arm that fires. */
  function Select(target: Target, arms: Arms): (b: Backend)
    ensures Fires(target, arms, b)
    ensures forall c :: Rank(c) < Rank(b) ==> !Fires(target, arms, c)
  {
    var x86 := IsX86(target.arch);
    if arms.avx512 && x86 && target.nightly && IsAvailable(target, Avx512fFeature) then Avx512
    else if arms.avx2fma && x86 && IsAvailable(target, Avx2Feature) && IsAvailable(target, FmaFeature) then Avx2Fma
    else if arms.avx2 && x86 && IsAvailable(target, Avx2Feature) then Avx2
    else if arms.neon && target.arch == Aarch64 && IsAvailable(target, NeonFeature) then Neon
    else Fallback
  }

  /** Exactly one arm runs: any arm that fires with no higher-priority arm
      firing is the one selected. */
  lemma SelectUnique(target: Target, arms: Arms, c: Backend)
    requires Fires(target, arms, c)
    requires forall d :: Rank(d) < Rank(c) ==> !Fires(target, arms, d)
    ensures c == Select(target, arms)
  {
  }

  /** The AVX2 + FMA arm runs only when both probes are true, and when both
      are true and no AVX-512 arm fires, nothing below it runs. */
  lemma Avx2FmaNeedsBoth(target: Target, arms: Arms)
    ensures Select(target, arms) == Avx2Fma ==> IsAvailable(target, Avx2Feature) && IsAvailable(target, FmaFeature)
    ensures arms.avx2fma && IsX86(target.arch) && IsAvailable(target, Avx2Feature) && IsAvailable(target, FmaFeature) ==>
      Select(target, arms) in {Avx512, Avx2Fma}
  {
  }

  /** The fallback runs exactly when no optional arm fires. */
  lemma FallbackWhenNothingElse(target: Target, arms: Arms)
    ensures Select(target, arms) == Fallback <==>
      forall c :: c != Fallback ==> !Fires(target, arms, c)
  {
    var b := Select(target, arms);
    if b != Fallback {
      assert Fires(target, arms, b);
    }
  }

  /** Without `std` the choice is made at compile time only: a build that
      enables no target feature always runs the fallback, whatever the CPU
      reports. */
  lemma NoStdNoFeatures(target: Target, arms: Arms)
    requires !target.std && target.compiled == {}
    ensures Select(target, arms) == Fallback
  {
  }

  /** The x86 arms never run on ARM and the NEON arm never runs on x86. */
  lemma ArchSeparates(target: Target, arms: Arms)
    ensures target.arch == Aarch64 ==> Select(target, arms) in {Neon, Fallback}
    ensures IsX86(target.arch) ==> Select(target, arms) != Neon
  {
  }

  /** An operation without an FMA variant never selects it, and otherwise
      chooses as the full chain would except where that chain picks FMA,
      in which case it drops to plain AVX2. */
  lemma NoFmaArmsFallThrough(target: Target)
    ensures Select(target, NoFmaArms) != Avx2Fma
    ensures Select(target, AllArms) != Avx2Fma ==> Select(target, NoFmaArms) == Select(target, AllArms)
    ensures Select(target, AllArms) == Avx2Fma ==> Select(target, NoFmaArms) == Avx2
  {
  }

  /** Element width in bits of each integer type. */
  function Bits(t: IntType): (r: nat)
    ensures r in {8, 16, 32, 64}
  {
    match t
    case I8 => 8
    case U8 => 8
    case I16 => 16
    case U16 => 16
    case I32 => 32
    case U32 => 32
    case I64 => 64
    case U64 => 64
  }

  /** Elements per register of each backend: 512-bit, 256-bit and 128-bit
      registers, and the fallback's one-element "register". */
  function LanesOf(b: Backend, t: IntType): (r: nat)
    ensures r >= 1
    ensures b == Fallback <==> r == 1
  {
    match b
    case Avx512 => 512 / Bits(t)
    case Avx2Fma => 256 / Bits(t)
    case Avx2 => 256 / Bits(t)
    case Neon => 128 / Bits(t)
    case Fallback => 1
  }
}
