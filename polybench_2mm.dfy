/** POLYBENCH_2MM: `D := alpha*A*B*C + beta*D` in two phases over flat
    row-major buffers. Phase one computes `tmp = alpha*A*B` cell by cell,
    zeroing each cell before accumulating; then `D` is restored from its
    saved copy `DD`; phase two scales each cell of `D` by `beta` and adds
    the row-by-column sum of `tmp` and `C`. */
module Polybench2mm {
  import opened Harness

  // Flat row-major indexing

  /** Multiplication by a natural number is monotone. */
  lemma MulLe(a: nat, b: nat, c: nat)
    requires a <= b
    ensures a * c <= b * c
  {
  }

  /** The offset of cell `(r, c)` of a `rows` by `cols` matrix lies inside
      its buffer of `rows * cols` entries. */
  lemma FlatOffset(r: nat, c: nat, rows: nat, cols: nat)
    requires r < rows && c < cols
    ensures r * cols + c < rows * cols
  {
    MulLe(r + 1, rows, cols);
  }

  /** A flat index below `rows * cols` splits into a row `ii / cols` and a
      column `ii % cols` that are in range and recompose to `ii`. */
  lemma Decompose(ii: nat, rows: nat, cols: nat)
    requires ii < rows * cols
    ensures cols > 0
    ensures ii / cols < rows && ii % cols < cols
    ensures (ii / cols) * cols + ii % cols == ii
  {
  }

  /** Splitting the offset of `(r, c)` gives back `r` and `c`. */
  lemma Compose(r: nat, c: nat, cols: nat)
    requires c < cols
    ensures (r * cols + c) / cols == r && (r * cols + c) % cols == c
  {
    var ii := r * cols + c;
    var q, m := ii / cols, ii % cols;
    assert q * cols + m == r * cols + c;
    if q < r {
      MulLe(q + 1, r, cols);
    } else if q > r {
      MulLe(r + 1, q, cols);
    }
  }

  // Problem sizes

  /** The size classes of the run parameters; `Other` is any value the
      constructor's switch sends to `default`. */
  datatype SizeSpec = Mini | Small | Medium | Large | Extralarge | Other

  /** The matrix extents: `A` is `ni x nk`, `B` is `nk x nj`, `tmp` is
      `ni x nj`, `C` is `nj x nl`, `D` and `DD` are `ni x nl`. */
  datatype Dims = Dims(ni: nat, nj: nat, nk: nat, nl: nat)

  /** The extents and the default repetition count of a size class. */
  datatype Config = Config(dims: Dims, runReps: nat)

  /** The constructor's switch on the size class. */
  function SizeTable(spec: SizeSpec): Config
  {
    match spec
    case Mini => Config(Dims(16, 18, 22, 24), 10000)
    case Small => Config(Dims(40, 50, 70, 80), 1000)
    case Medium => Config(Dims(180, 190, 210, 220), 100)
    case Large => Config(Dims(800, 900, 1100, 1200), 1)
    case Extralarge => Config(Dims(1600, 1800, 2200, 2400), 1)
    case Other => Config(Dims(180, 190, 210, 220), 100)
  }

  /** Every extent grows strictly from one class to the next, the
      repetition count never grows, and an unrecognised class runs Medium's
      problem. */
  lemma SizeClassesOrdered()
    ensures forall s, t :: Rank(s) < Rank(t) ==>
              && SizeTable(s).dims.ni < SizeTable(t).dims.ni
              && SizeTable(s).dims.nj < SizeTable(t).dims.nj
              && SizeTable(s).dims.nk < SizeTable(t).dims.nk
              && SizeTable(s).dims.nl < SizeTable(t).dims.nl
              && SizeTable(s).runReps >= SizeTable(t).runReps
    ensures SizeTable(Other) == SizeTable(Medium)
  {
  }

  /** The position of a class in the order Mini < Small < Medium < Large
      < Extralarge; `Other` ranks with Medium. */
  function Rank(s: SizeSpec): nat
  {
    match s
    case Mini => 0
    case Small => 1
    case Medium | Other => 2
    case Large => 3
    case Extralarge => 4
  }

  /** `setDefaultSize`: one zeroing plus `nk` accumulations per `tmp` cell,
      one scaling plus `nj` accumulations per `D` cell. */
  function DefaultSize(d: Dims): nat
  {
    d.ni * d.nj * (1 + d.nk) + d.ni * d.nl * (1 + d.nj)
  }

  const Alpha: real := 1.5
  const Beta: real := 1.2

  // What the two phases compute

  /** `tmp[i*nj + j]` after BODY1 and `n` executions of BODY2:
      the sum of `alpha * A[i*nk + k] * B[k*nj + j]` for `k < n`. */
  function TmpSum(d: Dims, alpha: real, A: seq<real>, B: seq<real>, i: nat, j: nat, n: nat): real
    requires i < d.ni && j < d.nj && n <= d.nk
    requires |A| == d.ni * d.nk && |B| == d.nk * d.nj
  {
    if n == 0 then 0.0
    else
      FlatOffset(i, n - 1, d.ni, d.nk);
      FlatOffset(n - 1, j, d.nk, d.nj);
      TmpSum(d, alpha, A, B, i, j, n - 1) + alpha * A[i * d.nk + (n - 1)] * B[(n - 1) * d.nj + j]
  }

  /** `tmp` after phase one, cell `ii` being row `ii / nj`, column `ii % nj`. */
  function Tmp(d: Dims, alpha: real, A: seq<real>, B: seq<real>): (r: seq<real>)
    requires |A| == d.ni * d.nk && |B| == d.nk * d.nj
    ensures |r| == d.ni * d.nj
  {
    seq(d.ni * d.nj, ii requires 0 <= ii < d.ni * d.nj =>
      Decompose(ii, d.ni, d.nj);
      TmpSum(d, alpha, A, B, ii / d.nj, ii % d.nj, d.nk))
  }

  /** Cell `(i, j)` of phase one's `tmp`, at offset `ij`, is the full sum
      over `k < nk`. */
  lemma TmpCellValue(d: Dims, alpha: real, A: seq<real>, B: seq<real>, i: nat, j: nat, ij: nat)
    requires i < d.ni && j < d.nj && ij == i * d.nj + j
    requires |A| == d.ni * d.nk && |B| == d.nk * d.nj
    ensures ij < d.ni * d.nj
    ensures Tmp(d, alpha, A, B)[ij] == TmpSum(d, alpha, A, B, i, j, d.nk)
  {
    FlatOffset(i, j, d.ni, d.nj);
    Compose(i, j, d.nj);
    var r := Tmp(d, alpha, A, B);
    assert r[ij] == TmpSum(d, alpha, A, B, ij / d.nj, ij % d.nj, d.nk);
  }

  /** The sum of `tmp[i*nj + j] * C[j*nl + l]` for `j < n`, added left to
      right as BODY4 does. */
  function RowColSum(d: Dims, tmp: seq<real>, C: seq<real>, i: nat, l: nat, n: nat): real
    requires i < d.ni && l < d.nl && n <= d.nj
    requires |tmp| == d.ni * d.nj && |C| == d.nj * d.nl
  {
    if n == 0 then 0.0
    else
      FlatOffset(i, n - 1, d.ni, d.nj);
      FlatOffset(n - 1, l, d.nj, d.nl);
      RowColSum(d, tmp, C, i, l, n - 1) + tmp[i * d.nj + (n - 1)] * C[(n - 1) * d.nl + l]
  }

  /** Cell `(i, l)` of `D` after BODY3 and `nj` executions of BODY4, from
      the value `start`: scaled by `beta`, plus the row-by-column sum. */
  function DCellOut(d: Dims, beta: real, tmp: seq<real>, C: seq<real>, start: real, i: nat, l: nat): real
    requires i < d.ni && l < d.nl
    requires |tmp| == d.ni * d.nj && |C| == d.nj * d.nl
  {
    start * beta + RowColSum(d, tmp, C, i, l, d.nj)
  }

  /** `D` after phase two, started from `D0`: every cell scaled by `beta`
      plus its row-by-column sum. */
  function DOut(d: Dims, beta: real, tmp: seq<real>, C: seq<real>, D0: seq<real>): (r: seq<real>)
    requires |tmp| == d.ni * d.nj && |C| == d.nj * d.nl && |D0| == d.ni * d.nl
    ensures |r| == d.ni * d.nl
  {
    seq(d.ni * d.nl, ii requires 0 <= ii < d.ni * d.nl =>
      Decompose(ii, d.ni, d.nl);
      DCellOut(d, beta, tmp, C, D0[ii], ii / d.nl, ii % d.nl))
  }

  /** Cell `(i, l)` of phase two's `D` is `beta` times its starting value
      plus the full sum over `j < nj`. */
  lemma DCellValue(d: Dims, beta: real, tmp: seq<real>, C: seq<real>, D0: seq<real>, i: nat, l: nat, il: nat)
    requires i < d.ni && l < d.nl && il == i * d.nl + l
    requires |tmp| == d.ni * d.nj && |C| == d.nj * d.nl && |D0| == d.ni * d.nl
    ensures il < d.ni * d.nl
    ensures DOut(d, beta, tmp, C, D0)[il] == DCellOut(d, beta, tmp, C, D0[il], i, l)
  {
    FlatOffset(i, l, d.ni, d.nl);
    Compose(i, l, d.nl);
    var r := DOut(d, beta, tmp, C, D0);
    assert r[il] == DCellOut(d, beta, tmp, C, D0[il], il / d.nl, il % d.nl);
  }

  /** A row of `D` whose cells hold their scaled value plus row-by-column
      sum agrees with phase two's `D` on that row. */
  lemma DRowValue(d: Dims, beta: real, tmp: seq<real>, C: seq<real>, D0: seq<real>, D1: seq<real>, i: nat, base: nat)
    requires i < d.ni && base == i * d.nl && |D1| == d.ni * d.nl
    requires |tmp| == d.ni * d.nj && |C| == d.nj * d.nl && |D0| == d.ni * d.nl
    requires base + d.nl <= |D1|
    requires forall ii :: base <= ii < base + d.nl ==>
               D1[ii] == DCellOut(d, beta, tmp, C, D0[ii], i, ii - base)
    ensures forall ii :: base <= ii < base + d.nl ==> D1[ii] == DOut(d, beta, tmp, C, D0)[ii]
  {
    forall ii | base <= ii < base + d.nl
      ensures D1[ii] == DOut(d, beta, tmp, C, D0)[ii]
    {
      DCellValue(d, beta, tmp, C, D0, i, ii - base, ii);
    }
  }

  /** A prefix of whole rows plus part of the next one stays inside the
      buffer. */
  lemma RowPrefix(i: nat, j: nat, rows: nat, cols: nat)
    requires i < rows && j <= cols
    ensures i * cols + j <= rows * cols
    ensures (i + 1) * cols == i * cols + cols
  {
  }

  datatype Buffer = TmpBuf | ABuf | BBuf | CBuf | DBuf | DDBuf

  const AllBuffers: set<Buffer> := {TmpBuf, ABuf, BBuf, CBuf, DBuf, DDBuf}

  class Polybench2mmKernel {
    const ni: nat
    const nj: nat
    const nk: nat
    const nl: nat
    /** `m_run_reps`, the size class's default repetition count. */
    const defaultReps: nat
    /** The repetition count the run parameters ask for. */
    const runReps: nat
    const defaultSize: nat
    const alpha: real
    const beta: real
    const build: Build

    const tmp: array<real>
    const A: array<real>
    const B: array<real>
    const C: array<real>
    const D: array<real>
    const DD: array<real>
    var live: set<Buffer>
    var checksum: map<VariantID, real>

    function Sizes(): Dims
    {
      Dims(ni, nj, nk, nl)
    }

    /** The buffers have their matrices' sizes and the two that are written
        share storage with no other. */
    ghost predicate Valid()
    {
      && tmp.Length == ni * nj && A.Length == ni * nk && B.Length == nk * nj
      && C.Length == nj * nl && D.Length == ni * nl && DD.Length == ni * nl
      && tmp != D
      && tmp != A && tmp != B && tmp != C && tmp != DD
      && D != A && D != B && D != C && D != DD
    }

    /** Picks the extents and default repetitions from the size class and
        allocates the six buffers with the contents the data initialiser
        supplies. */
    constructor (spec: SizeSpec, runReps: nat, build: Build,
                 tmpData: seq<real>, aData: seq<real>, bData: seq<real>,
                 cData: seq<real>, dData: seq<real>, ddData: seq<real>)
      requires var d := SizeTable(spec).dims;
        && |tmpData| == d.ni * d.nj && |aData| == d.ni * d.nk && |bData| == d.nk * d.nj
        && |cData| == d.nj * d.nl && |dData| == d.ni * d.nl && |ddData| == d.ni * d.nl
      ensures Valid()
      ensures Sizes() == SizeTable(spec).dims && defaultReps == SizeTable(spec).runReps
      ensures defaultSize == DefaultSize(Sizes())
      ensures alpha == Alpha && beta == Beta
      ensures this.runReps == runReps && this.build == build
      ensures fresh(tmp) && fresh(A) && fresh(B) && fresh(C) && fresh(D) && fresh(DD)
      ensures tmp[..] == tmpData && A[..] == aData && B[..] == bData
      ensures C[..] == cData && D[..] == dData && DD[..] == ddData
      ensures live == AllBuffers && checksum == map[]
    {
      var cfg := SizeTable(spec);
      ni, nj, nk, nl := cfg.dims.ni, cfg.dims.nj, cfg.dims.nk, cfg.dims.nl;
      defaultReps := cfg.runReps;
      defaultSize := DefaultSize(cfg.dims);
      alpha, beta := Alpha, Beta;
      this.runReps := runReps;
      this.build := build;
      var t := NewBuffer(tmpData);
      var a := NewBuffer(aData);
      var b := NewBuffer(bData);
      var c := NewBuffer(cData);
      var d := NewBuffer(dData);
      var dd := NewBuffer(ddData);
      tmp, A, B, C, D, DD := t, a, b, c, d, dd;
      live := AllBuffers;
      checksum := map[];
    }

    /** Frees the six buffers, as the destructor does: exactly those the
        constructor allocated. */
    method Release()
      modifies this`live
      ensures live == old(live) - AllBuffers
    {
      live := live - AllBuffers;
    }

    /** `setUp` and `tearDown` have empty bodies: the buffers live from the
        constructor to the destructor, and these change nothing. */
    method SetUp(vid: VariantID)
      ensures unchanged(this, tmp, A, B, C, D, DD)
    {
    }

    method TearDown(vid: VariantID)
      ensures unchanged(this, tmp, A, B, C, D, DD)
    {
    }

    /** BODY1 and the `k` loop of BODY2 for cell `(i, j)` of `tmp`, kept at
        offset `ij`: only that cell changes, and it ends as the full sum.
        `TmpRow` passes `ij == i * nj + j`; the contract holds for any
        offset in range. */
    method TmpCell(i: nat, j: nat, ij: nat, ghost a: seq<real>, ghost b: seq<real>)
      requires A.Length == ni * nk && B.Length == nk * nj && tmp != A && tmp != B
      requires i < ni && j < nj && ij < tmp.Length
      requires a == A[..] && b == B[..]
      modifies tmp
      ensures tmp[ij] == TmpSum(Sizes(), alpha, a, b, i, j, nk)
      ensures forall q :: 0 <= q < tmp.Length && q != ij ==> tmp[q] == old(tmp[q])
    {
      ghost var d := Sizes();
      tmp[ij] := 0.0;
      var k := 0;
      while k < nk
        invariant k <= nk
        invariant tmp[ij] == TmpSum(d, alpha, a, b, i, j, k)
        invariant forall q :: 0 <= q < tmp.Length && q != ij ==> tmp[q] == old(tmp[q])
      {
        FlatOffset(i, k, ni, nk);
        FlatOffset(k, j, nk, nj);
        var prod := alpha * A[i * nk + k] * B[k * nj + j];
        assert TmpSum(d, alpha, a, b, i, j, k + 1) == TmpSum(d, alpha, a, b, i, j, k) + prod;
        tmp[ij] := tmp[ij] + prod;
        k := k + 1;
      }
    }

    /** Phase one: every cell of `tmp` is recomputed from `A` and `B`, row
        by row. */
    method Phase1()
      requires tmp.Length == ni * nj && A.Length == ni * nk && B.Length == nk * nj
      requires tmp != A && tmp != B
      modifies tmp
      ensures tmp[..] == Tmp(Sizes(), alpha, A[..], B[..])
    {
      ghost var a, b := A[..], B[..];
      ghost var want := Tmp(Sizes(), alpha, a, b);
      var i := 0;
      var base := 0;
      while i < ni
        invariant i <= ni && base == i * nj
        invariant base <= tmp.Length
        invariant forall ii :: 0 <= ii < base ==> tmp[ii] == want[ii]
      {
        RowPrefix(i, nj, ni, nj);
        TmpRow(i, base, a, b);
        forall ii | base <= ii < base + nj
          ensures tmp[ii] == want[ii]
        {
          TmpCellValue(Sizes(), alpha, a, b, i, ii - base, ii);
        }
        i, base := i + 1, base + nj;
      }
      assert tmp[..] == want;
    }

    /** The `j` loop of phase one for row `i`, whose cells start at offset
        `base`: the row's cells are recomputed and every other cell is
        kept. */
    method TmpRow(i: nat, base: nat, ghost a: seq<real>, ghost b: seq<real>)
      requires A.Length == ni * nk && B.Length == nk * nj && tmp != A && tmp != B
      requires i < ni && base == i * nj && base + nj <= tmp.Length
      requires a == A[..] && b == B[..]
      modifies tmp
      ensures forall ii :: base <= ii < base + nj ==> tmp[ii] == TmpSum(Sizes(), alpha, a, b, i, ii - base, nk)
      ensures forall ii :: 0 <= ii < tmp.Length && !(base <= ii < base + nj) ==> tmp[ii] == old(tmp[ii])
    {
      var j := 0;
      while j < nj
        invariant j <= nj
        invariant forall ii :: base <= ii < base + j ==> tmp[ii] == TmpSum(Sizes(), alpha, a, b, i, ii - base, nk)
        invariant forall ii :: 0 <= ii < tmp.Length && !(base <= ii < base + j) ==> tmp[ii] == old(tmp[ii])
      {
        TmpCell(i, j, base + j, a, b);
        j := j + 1;
      }
    }

    /** The `memcpy` that restores `D` from `DD`. */
    method RestoreD()
      requires Valid()
      modifies D
      ensures D[..] == DD[..]
    {
      forall k | 0 <= k < ni * nl {
        D[k] := DD[k];
      }
    }

    /** BODY3 and the `j` loop of BODY4 for cell `(i, l)` of `D`, at offset
        `il`, right after `D` was restored from `DD`: only that cell
        changes. `DRow` passes `il == i * nl + l`; the contract holds for
        any offset in range. */
    method DCell(i: nat, l: nat, il: nat, ghost t: seq<real>, ghost c: seq<real>, ghost dd: seq<real>)
      requires tmp.Length == ni * nj && C.Length == nj * nl && D != tmp && D != C && D != DD
      requires i < ni && l < nl && il < D.Length && il < |dd|
      requires t == tmp[..] && c == C[..] && dd == DD[..]
      requires D[il] == dd[il]
      modifies D
      ensures D[il] == DCellOut(Sizes(), beta, t, c, dd[il], i, l)
      ensures forall q :: 0 <= q < D.Length && q != il ==> D[q] == old(D[q])
    {
      ghost var d := Sizes();
      D[il] := D[il] * beta;
      var j := 0;
      while j < nj
        invariant j <= nj
        invariant D[il] == dd[il] * beta + RowColSum(d, t, c, i, l, j)
        invariant forall q :: 0 <= q < D.Length && q != il ==> D[q] == old(D[q])
      {
        FlatOffset(i, j, ni, nj);
        FlatOffset(j, l, nj, nl);
        var prod := tmp[i * nj + j] * C[j * nl + l];
        assert RowColSum(d, t, c, i, l, j + 1) == RowColSum(d, t, c, i, l, j) + prod;
        D[il] := D[il] + prod;
        j := j + 1;
      }
    }

    /** Phase two, which follows the restore of `D` from `DD`: every cell of
        `D` is scaled and accumulated, row by row. */
    method Phase2()
      requires tmp.Length == ni * nj && C.Length == nj * nl && D.Length == ni * nl && DD.Length == ni * nl
      requires D != tmp && D != C && D != DD
      requires D[..] == DD[..]
      modifies D
      ensures D[..] == DOut(Sizes(), beta, tmp[..], C[..], DD[..])
    {
      ghost var t, c, dd := tmp[..], C[..], DD[..];
      ghost var want := DOut(Sizes(), beta, t, c, dd);
      var i := 0;
      var base := 0;
      while i < ni
        invariant i <= ni && base == i * nl
        invariant base <= D.Length
        invariant forall ii :: 0 <= ii < base ==> D[ii] == want[ii]
        invariant forall ii :: base <= ii < D.Length ==> D[ii] == dd[ii]
      {
        RowPrefix(i, nl, ni, nl);
        DRow(i, base, t, c, dd);
        DRowValue(Sizes(), beta, t, c, dd, D[..], i, base);
        i, base := i + 1, base + nl;
      }
      assert D[..] == want;
    }

    /** The `l` loop of phase two for row `i`, whose cells start at offset
        `base`: the row's cells are updated and every other cell is kept. */
    method DRow(i: nat, base: nat, ghost t: seq<real>, ghost c: seq<real>, ghost dd: seq<real>)
      requires tmp.Length == ni * nj && C.Length == nj * nl && D != tmp && D != C && D != DD
      requires i < ni && base == i * nl && base + nl <= D.Length && D.Length == |dd|
      requires t == tmp[..] && c == C[..] && dd == DD[..]
      requires forall ii :: base <= ii < base + nl ==> D[ii] == dd[ii]
      modifies D
      ensures forall ii :: base <= ii < base + nl ==> D[ii] == DCellOut(Sizes(), beta, t, c, dd[ii], i, ii - base)
      ensures forall ii :: 0 <= ii < D.Length && !(base <= ii < base + nl) ==> D[ii] == old(D[ii])
    {
      var l := 0;
      while l < nl
        invariant l <= nl
        invariant forall ii :: base <= ii < base + l ==> D[ii] == DCellOut(Sizes(), beta, t, c, dd[ii], i, ii - base)
        invariant forall ii :: 0 <= ii < D.Length && !(base <= ii < base + l) ==> D[ii] == old(D[ii])
      {
        DCell(i, l, base + l, t, c, dd);
        l := l + 1;
      }
    }

    /** The timed loop. Every repetition recomputes `tmp` from `A` and `B`
        and restores `D` from `DD` before phase two, so one repetition or
        many leave the same `tmp` and `D`. `A`, `B`, `C` and `DD` are never
        written. */
    method RunKernel(vid: VariantID)
      requires Valid() && live == AllBuffers
      modifies tmp, D
      ensures A[..] == old(A[..]) && B[..] == old(B[..]) && C[..] == old(C[..])
      ensures DD[..] == old(DD[..])
      ensures Dispatch(build, vid) == Sweep && runReps > 0 ==>
                && tmp[..] == Tmp(Sizes(), alpha, A[..], B[..])
                && D[..] == DOut(Sizes(), beta, Tmp(Sizes(), alpha, A[..], B[..]), C[..], DD[..])
      ensures Dispatch(build, vid) != Sweep || runReps == 0 ==>
                tmp[..] == old(tmp[..]) && D[..] == old(D[..])
    {
      if Dispatch(build, vid) == Sweep {
        var irep := 0;
        while irep < runReps
          invariant irep <= runReps
          invariant irep == 0 ==> tmp[..] == old(tmp[..]) && D[..] == old(D[..])
          invariant irep > 0 ==>
                      && tmp[..] == Tmp(Sizes(), alpha, A[..], B[..])
                      && D[..] == DOut(Sizes(), beta, tmp[..], C[..], DD[..])
        {
          Phase1();
          RestoreD();
          Phase2();
          irep := irep + 1;
        }
      }
    }

    /** Adds the checksum of the `ni * nl` entries of `D` into this
        variant's entry. */
    method UpdateChecksum(vid: VariantID, calcChecksum: seq<real> -> real)
      requires Valid()
      modifies this`checksum
      ensures checksum == Accumulate(old(checksum), vid, calcChecksum(D[..ni * nl]))
      ensures Entry(checksum, vid) == Entry(old(checksum), vid) + calcChecksum(D[..])
    {
      assert D[..ni * nl] == D[..];
      checksum := Accumulate(checksum, vid, calcChecksum(D[..ni * nl]));
    }
  }
}
