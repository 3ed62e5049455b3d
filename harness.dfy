/** What every kernel of the suite shares: the variant identifiers, the
    compile-time configuration that decides which `case` labels of a
    kernel's `runKernel` switch exist, and the per-variant checksum map
    that `updateChecksum` accumulates into. */
module Harness {

  /** The execution variants a kernel's `runKernel` switch can be asked for.
      The stream kernels spell the hand-written ones `Baseline_*`; they are
      the same identifiers as `Base_*` here. */
  datatype VariantID =
    | BaseSeq | RajaSeq
    | BaseOpenMP | RajaLikeOpenMP | RajaOpenMP
    | BaseOpenMPTarget | RajaOpenMPTarget
    | BaseCuda | RajaCuda
    | BaseOpenMP4x | RajaOpenMP4x

  /** The preprocessor symbols that guard groups of `case` labels. */
  datatype Build = Build(openmp: bool, targetOpenmp: bool, cuda: bool)

  /** What one call of `runKernel` does for a variant: run the timed
      repetition loop, run nothing at all (a `case` with an empty body),
      or fall into `default`, which only prints a diagnostic. */
  datatype Branch = Sweep | NoOp | Unknown

  /** The variants whose `case` label is compiled in for the kernels whose
      OpenMP-target cases sit inside the OpenMP guard. */
  function CompiledVariants(build: Build): set<VariantID>
  {
    {BaseSeq, RajaSeq}
    + (if build.openmp then {BaseOpenMP, RajaOpenMP} else {})
    + (if build.openmp && build.targetOpenmp then {BaseOpenMPTarget, RajaOpenMPTarget} else {})
    + (if build.cuda then {BaseCuda, RajaCuda} else {})
  }

  /** The `switch (vid)` of REDUCE3_INT, FIR, PRESSURE and POLYBENCH_2MM.
      Every compiled case runs the kernel body; the parallel and device
      cases are given the meaning of the sequential one. */
  function Dispatch(build: Build, vid: VariantID): (r: Branch)
    ensures r != NoOp
    ensures vid == BaseSeq || vid == RajaSeq ==> r == Sweep
    ensures r == Sweep <==> vid in CompiledVariants(build)
  {
    match vid
    case BaseSeq | RajaSeq => Sweep
    case BaseOpenMP | RajaOpenMP => if build.openmp then Sweep else Unknown
    case BaseOpenMPTarget | RajaOpenMPTarget =>
      if build.openmp && build.targetOpenmp then Sweep else Unknown
    case BaseCuda | RajaCuda => if build.cuda then Sweep else Unknown
    case _ => Unknown
  }

  /** `checksum[vid]` as `std::map::operator[]` reads it: a missing entry is 0. */
  function Entry(checksum: map<VariantID, real>, vid: VariantID): real
  {
    if vid in checksum then checksum[vid] else 0.0
  }

  /** `checksum[vid] += x`: the entry for `vid` grows by `x` (from 0 when it
      was missing) and every other entry is kept. */
  function Accumulate(checksum: map<VariantID, real>, vid: VariantID, x: real): (r: map<VariantID, real>)
    ensures r.Keys == checksum.Keys + {vid}
    ensures Entry(r, vid) == Entry(checksum, vid) + x
    ensures forall v :: v in checksum && v != vid ==> r[v] == checksum[v]
  {
    checksum[vid := Entry(checksum, vid) + x]
  }

  /** `allocAndInitData` for a buffer of reals: a fresh array holding the
      values the initialiser supplies, which are a parameter here. */
  method NewBuffer(data: seq<real>) returns (a: array<real>)
    ensures fresh(a) && a[..] == data
  {
    a := new real[|data|](i requires 0 <= i < |data| => data[i]);
  }
}
