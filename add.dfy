/** ADD, from the STREAM group: `c[i] = a[i] + b[i]` over the whole run,
    repeated once per sample. */
module StreamAdd {
  import opened Harness

  const DefaultSize: nat := 1000000
  const DefaultSamples: nat := 800

  /** The `switch (vid)` of ADD. Its OpenMP cases sit under the compiler's
      own OpenMP macro, taken here as the same `openmp` flag; it has no
      OpenMP-target cases; `RAJALike_OpenMP` is compiled in but has an empty
      body; the two `OpenMP4x` cases are disabled and fall into `default`. */
  function AddDispatch(build: Build, vid: VariantID): (r: Branch)
    ensures vid == BaseSeq || vid == RajaSeq ==> r == Sweep
    ensures r == Sweep <==>
              Dispatch(build, vid) == Sweep && vid != BaseOpenMPTarget && vid != RajaOpenMPTarget
    ensures r == NoOp <==> vid == RajaLikeOpenMP && build.openmp
  {
    match vid
    case BaseSeq | RajaSeq => Sweep
    case BaseOpenMP | RajaOpenMP => if build.openmp then Sweep else Unknown
    case RajaLikeOpenMP => if build.openmp then NoOp else Unknown
    case BaseCuda | RajaCuda => if build.cuda then Sweep else Unknown
    case _ => Unknown
  }

  datatype Buffer = ABuf | BBuf | CBuf

  const AllBuffers: set<Buffer> := {ABuf, BBuf, CBuf}

  class AddKernel {
    /** `setDefaultSize` and `setDefaultSamples`. */
    const defaultSize: nat
    const defaultSamples: nat
    const runSize: nat
    const runSamples: nat
    const build: Build

    var a: array<real>
    var b: array<real>
    var c: array<real>
    var live: set<Buffer>
    var checksum: map<VariantID, real>

    /** While allocated, the buffers hold `runSize` entries and `c`, the only
        one written, shares storage with neither input. */
    ghost predicate Valid()
      reads this
    {
      live == AllBuffers ==>
        a.Length == runSize && b.Length == runSize && c.Length == runSize && c != a && c != b
    }

    constructor (runSize: nat, runSamples: nat, build: Build)
      ensures Valid()
      ensures defaultSize == DefaultSize && defaultSamples == DefaultSamples
      ensures this.runSize == runSize && this.runSamples == runSamples && this.build == build
      ensures live == {} && checksum == map[]
    {
      defaultSize, defaultSamples := DefaultSize, DefaultSamples;
      this.runSize := runSize;
      this.runSamples := runSamples;
      this.build := build;
      a := new real[0];
      b := new real[0];
      c := new real[0];
      live := {};
      checksum := map[];
    }

    /** Allocates `a`, `b` and `c` with the contents the data initialiser
        supplies. */
    method SetUp(vid: VariantID, aData: seq<real>, bData: seq<real>, cData: seq<real>)
      requires |aData| == runSize && |bData| == runSize && |cData| == runSize
      modifies this`a, this`b, this`c, this`live
      ensures Valid() && fresh(a) && fresh(b) && fresh(c)
      ensures a[..] == aData && b[..] == bData && c[..] == cData
      ensures live == AllBuffers
    {
      a := NewBuffer(aData);
      b := NewBuffer(bData);
      c := NewBuffer(cData);
      live := AllBuffers;
    }

    /** One sample: `ADD_BODY` for every index of the run. */
    method Sample()
      requires Valid() && live == AllBuffers
      modifies c
      ensures forall i :: 0 <= i < runSize ==> c[i] == a[i] + b[i]
    {
      var i := 0;
      while i < runSize
        invariant 0 <= i <= runSize
        invariant forall k :: 0 <= k < i ==> c[k] == a[k] + b[k]
      {
        c[i] := a[i] + b[i];
        i := i + 1;
      }
    }

    /** The timed loop. `a` and `b` are only read, so every sample writes
        the same `c` and any number of samples from one on leaves what one
        leaves; a case with an empty body or an unknown variant leaves `c`
        as it was. */
    method RunKernel(vid: VariantID)
      requires Valid() && live == AllBuffers
      modifies c
      ensures a[..] == old(a[..]) && b[..] == old(b[..])
      ensures AddDispatch(build, vid) == Sweep && runSamples > 0 ==>
                forall i :: 0 <= i < runSize ==> c[i] == a[i] + b[i]
      ensures AddDispatch(build, vid) != Sweep || runSamples == 0 ==> c[..] == old(c[..])
    {
      if AddDispatch(build, vid) == Sweep {
        var isamp := 0;
        while isamp < runSamples
          invariant 0 <= isamp <= runSamples
          invariant isamp == 0 ==> c[..] == old(c[..])
          invariant isamp > 0 ==> forall i :: 0 <= i < runSize ==> c[i] == a[i] + b[i]
        {
          Sample();
          isamp := isamp + 1;
        }
      }
    }

    /** Adds the checksum of the `runSize` entries of `c` into this
        variant's entry. */
    method UpdateChecksum(vid: VariantID, calcChecksum: seq<real> -> real)
      requires Valid() && live == AllBuffers
      modifies this`checksum
      ensures checksum == Accumulate(old(checksum), vid, calcChecksum(c[..runSize]))
    {
      checksum := Accumulate(checksum, vid, calcChecksum(c[..runSize]));
    }

    /** Frees `a`, `b` and `c`: exactly the buffers `SetUp` allocated. */
    method TearDown(vid: VariantID)
      modifies this`live
      ensures live == old(live) - AllBuffers
    {
      live := live - AllBuffers;
    }
  }
}
