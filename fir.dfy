/** FIR: a 16-tap finite impulse response filter. Output position `i` is
    the weighted sum of the input window starting at `i`; the index domain
    is shrunk by the filter length so that no window reads past the input. */
module Fir {
  import opened Harness

  const CoeffLen: nat := 16

  /** The fixed filter coefficients. */
  const Coeff: seq<real> :=
    [ 3.0, -1.0, -1.0, -1.0,
     -1.0,  3.0, -1.0, -1.0,
     -1.0, -1.0,  3.0, -1.0,
     -1.0, -1.0, -1.0,  3.0]

  const DefaultSize: nat := 100000
  const DefaultReps: nat := 1600

  /** The sum of `coeff[j] * input[i + j]` for `j < n`, added left to right. */
  function Dot(coeff: seq<real>, input: seq<real>, i: nat, n: nat): real
    requires n <= |coeff| && i + n <= |input|
  {
    if n == 0 then 0.0 else Dot(coeff, input, i, n - 1) + coeff[n - 1] * input[i + n - 1]
  }

  /** The sum of the first `n` entries of `coeff`. */
  function PrefixSum(coeff: seq<real>, n: nat): real
    requires n <= |coeff|
  {
    if n == 0 then 0.0 else PrefixSum(coeff, n - 1) + coeff[n - 1]
  }

  /** `sum` after `n` steps of the body's inner loop at output position `i`. */
  function WindowSum(input: seq<real>, i: nat, n: nat): real
    requires n <= CoeffLen && i + n <= |input|
  {
    Dot(Coeff, input, i, n)
  }

  /** Each group of four coefficients holds one 3 and three -1. */
  lemma CoeffsSumToZero()
    ensures PrefixSum(Coeff, CoeffLen) == 0.0
  {
    assert PrefixSum(Coeff, 4) == 0.0;
    assert PrefixSum(Coeff, 8) == 0.0;
    assert PrefixSum(Coeff, 12) == 0.0;
  }

  /** Over a window of equal values `c`, the dot product is `c` times the
      sum of the coefficients. */
  lemma {:induction false} DotOfConstant(coeff: seq<real>, input: seq<real>, i: nat, c: real, n: nat)
    requires n <= |coeff| && i + n <= |input|
    requires forall k :: i <= k < i + n ==> input[k] == c
    ensures Dot(coeff, input, i, n) == c * PrefixSum(coeff, n)
  {
    if n > 0 {
      DotOfConstant(coeff, input, i, c, n - 1);
      assert input[i + n - 1] == c;
    }
  }

  /** The coefficients sum to zero, so the filter maps a constant input
      window to zero. */
  lemma ConstantWindowIsZero(input: seq<real>, i: nat, c: real)
    requires i + CoeffLen <= |input|
    requires forall k :: i <= k < i + CoeffLen ==> input[k] == c
    ensures WindowSum(input, i, CoeffLen) == 0.0
  {
    DotOfConstant(Coeff, input, i, c, CoeffLen);
    CoeffsSumToZero();
  }

  /** `out` after one repetition over `[0, |input| - CoeffLen)`: the positions
      in the domain hold their window sums, the others keep `out`'s values. */
  function Filtered(input: seq<real>, out: seq<real>): (r: seq<real>)
    requires |input| == |out|
    ensures |r| == |out|
    ensures forall i :: 0 <= i < |out| - CoeffLen ==> r[i] == WindowSum(input, i, CoeffLen)
    ensures forall i :: 0 <= i < |out| && i >= |out| - CoeffLen ==> r[i] == out[i]
  {
    seq(|out|, i requires 0 <= i < |out| =>
      if i < |input| - CoeffLen then WindowSum(input, i, CoeffLen) else out[i])
  }

  /** A second repetition over the same input writes what the first wrote. */
  lemma FilteredIdempotent(input: seq<real>, out: seq<real>)
    requires |input| == |out|
    ensures Filtered(input, Filtered(input, out)) == Filtered(input, out)
  {
  }

  /** With no more input than the filter is long, nothing is written. */
  lemma ShortInputUnchanged(input: seq<real>, out: seq<real>)
    requires |input| == |out| <= CoeffLen
    ensures Filtered(input, out) == out
  {
  }

  /** `FIR_BODY`'s inner loop at output position `i`. */
  method WindowLoop(input: array<real>, i: nat) returns (sum: real)
    requires i + CoeffLen <= input.Length
    ensures sum == WindowSum(input[..], i, CoeffLen)
  {
    sum := 0.0;
    var j := 0;
    while j < CoeffLen
      invariant 0 <= j <= CoeffLen
      invariant sum == WindowSum(input[..], i, j)
    {
      sum := sum + Coeff[j] * input[i + j];
      j := j + 1;
    }
  }

  datatype Buffer = In | Out

  class FirKernel {
    /** `setDefaultSize` and `setDefaultReps`. */
    const defaultSize: nat
    const defaultReps: nat
    const runSize: nat
    const runReps: nat
    const build: Build
    const coefflen: nat

    var input: array<real>
    var output: array<real>
    var live: set<Buffer>
    var checksum: map<VariantID, real>

    ghost predicate Valid()
      reads this
    {
      && coefflen == CoeffLen
      && (live == {In, Out} ==> input.Length == runSize && output.Length == runSize && input != output)
    }

    /** Iterations per repetition: the size of the shrunk index domain,
        negative when the run is shorter than the filter. The window
        `in[i .. i + coefflen)` of the last counted position, and so of every
        earlier one, lies inside the input; there is no counted position
        exactly when the run is no longer than the filter. */
    function ItsPerRep(): (r: int)
      ensures r > 0 ==> (r - 1) + coefflen < runSize
      ensures r <= 0 <==> runSize <= coefflen
    {
      runSize - coefflen
    }

    constructor (runSize: nat, runReps: nat, build: Build)
      ensures Valid()
      ensures defaultSize == DefaultSize && defaultReps == DefaultReps
      ensures this.runSize == runSize && this.runReps == runReps && this.build == build
      ensures coefflen == 16
      ensures live == {} && checksum == map[]
    {
      defaultSize, defaultReps := DefaultSize, DefaultReps;
      this.runSize := runSize;
      this.runReps := runReps;
      this.build := build;
      coefflen := CoeffLen;
      input := new real[0];
      output := new real[0];
      live := {};
      checksum := map[];
    }

    /** Allocates `in` and `out` with the contents the data initialiser
        supplies. */
    method SetUp(vid: VariantID, inData: seq<real>, outData: seq<real>)
      requires Valid()
      requires |inData| == runSize && |outData| == runSize
      modifies this
      ensures Valid() && fresh(input) && fresh(output)
      ensures input[..] == inData && output[..] == outData
      ensures live == {In, Out} && checksum == old(checksum)
    {
      input := NewBuffer(inData);
      output := NewBuffer(outData);
      live := {In, Out};
    }

    /** The timed loop: every repetition recomputes the output positions of
        the shrunk domain `[0, runSize - coefflen)` from `in`; `in` and the
        tail of `out` are never written, so any number of repetitions from
        one on leaves what one leaves. */
    method RunKernel(vid: VariantID)
      requires Valid() && live == {In, Out}
      modifies output
      ensures input[..] == old(input[..])
      ensures Dispatch(build, vid) == Sweep && runReps > 0 ==>
                output[..] == Filtered(input[..], old(output[..]))
      ensures Dispatch(build, vid) == Sweep && runReps > 0 ==>
                forall i :: 0 <= i < ItsPerRep() ==> output[i] == WindowSum(input[..], i, coefflen)
      ensures forall i :: 0 <= i < runSize && i >= ItsPerRep() ==> output[i] == old(output[i])
      ensures Dispatch(build, vid) != Sweep || runReps == 0 ==> output[..] == old(output[..])
    {
      if Dispatch(build, vid) == Sweep {
        var iend := runSize - coefflen;
        var irep := 0;
        while irep < runReps
          invariant 0 <= irep <= runReps
          invariant irep == 0 ==> output[..] == old(output[..])
          invariant irep > 0 ==> output[..] == Filtered(input[..], old(output[..]))
        {
          ghost var before := output[..];
          var i := 0;
          while i < iend
            invariant 0 <= i <= if iend < 0 then 0 else iend
            invariant forall k :: 0 <= k < i ==> output[k] == WindowSum(input[..], k, CoeffLen)
            invariant forall k :: i <= k < output.Length ==> output[k] == before[k]
          {
            var sum := WindowLoop(input, i);
            output[i] := sum;
            i := i + 1;
          }
          assert output[..] == Filtered(input[..], before);
          FilteredIdempotent(input[..], old(output[..]));
          irep := irep + 1;
        }
      }
    }

    /** Adds the checksum of all `runSize` entries of `out`, the unwritten
        tail included, into this variant's entry. */
    method UpdateChecksum(vid: VariantID, calcChecksum: seq<real> -> real)
      requires Valid() && live == {In, Out}
      modifies this`checksum
      ensures checksum == Accumulate(old(checksum), vid, calcChecksum(output[..runSize]))
      ensures Entry(checksum, vid) == Entry(old(checksum), vid) + calcChecksum(output[..])
    {
      assert output[..runSize] == output[..];
      checksum := Accumulate(checksum, vid, calcChecksum(output[..runSize]));
    }

    /** Frees `in` and `out`. */
    method TearDown(vid: VariantID)
      modifies this`live
      ensures live == old(live) - {In, Out}
    {
      live := live - {In, Out};
    }
  }
}
