/** REDUCE3_INT: a sum, a minimum and a maximum of an integer vector,
    recomputed from fixed initial values in every repetition and folded
    into running totals that are never reset between repetitions. */
module Reduce3Int {
  import opened Harness

  /** The range of `Int_type`. */
  const IntMin: int := -0x8000_0000
  const IntMax: int := 0x7fff_ffff

  /** `runKernel` runs exactly this many repetitions; the kernel's
      configured repetition count is ignored. */
  const RunReps: nat := 100

  const DefaultSize: nat := 1000000
  const DefaultReps: nat := 5000

  predicate IsInt(x: int)
  {
    IntMin <= x <= IntMax
  }

  /** `RAJA_MIN` and `RAJA_MAX`. */
  function Min(a: int, b: int): int
  {
    if a < b then a else b
  }

  function Max(a: int, b: int): int
  {
    if a > b then a else b
  }

  /** A (sum, min, max) triple: the running totals, their initial values,
      or one repetition's local accumulators. */
  datatype Totals = Totals(sum: int, min: int, max: int)

  /** The identities `setUp` installs, both as running totals and as the
      per-repetition initial values. */
  const Identity: Totals := Totals(0, IntMax, IntMin)

  /** The element sum, folded left to right as the loop does. */
  function Sum(s: seq<int>): int
  {
    if s == [] then 0 else Sum(s[..|s| - 1]) + s[|s| - 1]
  }

  function FoldMin(init: int, s: seq<int>): int
  {
    if s == [] then init else Min(FoldMin(init, s[..|s| - 1]), s[|s| - 1])
  }

  function FoldMax(init: int, s: seq<int>): int
  {
    if s == [] then init else Max(FoldMax(init, s[..|s| - 1]), s[|s| - 1])
  }

  /** One repetition's local accumulators after the inner loop, started
      from `init`. The `RAJA_Seq` reducers are this fold. */
  function RepTotals(init: Totals, vec: seq<int>): Totals
  {
    Totals(init.sum + Sum(vec), FoldMin(init.min, vec), FoldMax(init.max, vec))
  }

  /** The minimum fold is a lower bound of the initial value and of every
      element, and it is one of them. */
  lemma {:induction false} FoldMinIsMinimum(init: int, s: seq<int>)
    ensures FoldMin(init, s) <= init
    ensures forall i :: 0 <= i < |s| ==> FoldMin(init, s) <= s[i]
    ensures FoldMin(init, s) == init || FoldMin(init, s) in s
  {
    if s != [] {
      var front := s[..|s| - 1];
      FoldMinIsMinimum(init, front);
      assert forall i :: 0 <= i < |front| ==> front[i] == s[i];
      assert FoldMin(init, front) in front ==> FoldMin(init, front) in s;
    }
  }

  lemma {:induction false} FoldMaxIsMaximum(init: int, s: seq<int>)
    ensures init <= FoldMax(init, s)
    ensures forall i :: 0 <= i < |s| ==> s[i] <= FoldMax(init, s)
    ensures FoldMax(init, s) == init || FoldMax(init, s) in s
  {
    if s != [] {
      var front := s[..|s| - 1];
      FoldMaxIsMaximum(init, front);
      assert forall i :: 0 <= i < |front| ==> front[i] == s[i];
      assert FoldMax(init, front) in front ==> FoldMax(init, front) in s;
    }
  }

  /** One repetition's inner loop: the locals start from `init` and every
      element is added to the sum and taken into the minimum and maximum. */
  method RepetitionSweep(vec: array<int>, init: Totals) returns (rep: Totals)
    ensures rep == RepTotals(init, vec[..])
    ensures rep.sum == init.sum + Sum(vec[..])
    ensures forall i :: 0 <= i < vec.Length ==> rep.min <= vec[i] <= rep.max
    ensures rep.min <= init.min && init.max <= rep.max
  {
    var vsum, vmin, vmax := init.sum, init.min, init.max;
    var i := 0;
    while i < vec.Length
      invariant 0 <= i <= vec.Length
      invariant vsum == init.sum + Sum(vec[..i])
      invariant vmin == FoldMin(init.min, vec[..i])
      invariant vmax == FoldMax(init.max, vec[..i])
    {
      assert vec[..i + 1][..i] == vec[..i];
      vsum := vsum + vec[i];
      vmin := Min(vmin, vec[i]);
      vmax := Max(vmax, vec[i]);
      i := i + 1;
    }
    assert vec[..i] == vec[..];
    FoldMinIsMinimum(init.min, vec[..]);
    FoldMaxIsMaximum(init.max, vec[..]);
    rep := Totals(vsum, vmin, vmax);
  }

  /** Folding one repetition's result into the running totals: the sum
      grows by the repetition's sum, the minimum can only fall and the
      maximum can only rise. */
  function Combine(running: Totals, rep: Totals): (r: Totals)
    ensures r.sum - running.sum == rep.sum
    ensures r.min <= running.min && r.min <= rep.min && (r.min == running.min || r.min == rep.min)
    ensures r.max >= running.max && r.max >= rep.max && (r.max == running.max || r.max == rep.max)
  {
    Totals(running.sum + rep.sum, Min(running.min, rep.min), Max(running.max, rep.max))
  }

  /** The running totals after `n` repetitions that each produce `rep`. */
  function Repeat(n: nat, running: Totals, rep: Totals): Totals
  {
    if n == 0 then running else Combine(Repeat(n - 1, running, rep), rep)
  }

  /** Reduction accumulation law: n >= 1 repetitions add n copies of the
      repetition's sum, and min and max are taken once, whatever n is. */
  lemma {:induction false} RepeatClosedForm(n: nat, running: Totals, rep: Totals)
    requires n >= 1
    ensures Repeat(n, running, rep)
         == Totals(running.sum + n * rep.sum, Min(running.min, rep.min), Max(running.max, rep.max))
  {
    if n > 1 {
      RepeatClosedForm(n - 1, running, rep);
    }
  }

  /** From the `setUp` state with a nonempty vector of `Int_type` values,
      `runKernel` ends with 100 times the element sum, the least element
      and the greatest element. */
  lemma SetUpRunTotals(vec: seq<int>)
    requires |vec| > 0
    requires forall i :: 0 <= i < |vec| ==> IsInt(vec[i])
    ensures Repeat(RunReps, Identity, RepTotals(Identity, vec)).sum == RunReps * Sum(vec)
    ensures Repeat(RunReps, Identity, RepTotals(Identity, vec)).min in vec
    ensures forall i :: 0 <= i < |vec| ==> Repeat(RunReps, Identity, RepTotals(Identity, vec)).min <= vec[i]
    ensures Repeat(RunReps, Identity, RepTotals(Identity, vec)).max in vec
    ensures forall i :: 0 <= i < |vec| ==> vec[i] <= Repeat(RunReps, Identity, RepTotals(Identity, vec)).max
  {
    var rep := RepTotals(Identity, vec);
    RepeatClosedForm(RunReps, Identity, rep);
    FoldMinIsMinimum(IntMax, vec);
    FoldMaxIsMaximum(IntMin, vec);
    assert IsInt(vec[0]);
    if rep.min == IntMax {
      assert vec[0] == IntMax;
    }
    if rep.max == IntMin {
      assert vec[0] == IntMin;
    }
  }

  /** With run size 0 the running totals stay at the identities, however
      many repetitions run (`runKernel` runs `RunReps` of them). */
  lemma {:induction false} EmptyRunKeepsIdentity(n: nat)
    ensures Repeat(n, Identity, RepTotals(Identity, [])) == Identity
  {
    var rep := RepTotals(Identity, []);
    assert rep == Identity;
    if n >= 1 {
      RepeatClosedForm(n, Identity, rep);
      assert n * rep.sum == 0;
    }
  }

  /** The buffers this kernel allocates. */
  datatype Buffer = Vec

  class Reduce3IntKernel {
    /** `setDefaultSize` and `setDefaultReps`; `runKernel` ignores the
        repetition count. */
    const defaultSize: nat
    const defaultReps: nat
    const runSize: nat
    const build: Build

    var vec: array<int>
    var vsum: int
    var vmin: int
    var vmax: int
    var vsumInit: int
    var vminInit: int
    var vmaxInit: int
    /** The buffers currently allocated. */
    var live: set<Buffer>
    var checksum: map<VariantID, real>

    ghost predicate Valid()
      reads this, vec
    {
      Vec in live ==>
        && vec.Length == runSize
        && forall i :: 0 <= i < vec.Length ==> IsInt(vec[i])
    }

    function Running(): Totals
      reads this
    {
      Totals(vsum, vmin, vmax)
    }

    function Init(): Totals
      reads this
    {
      Totals(vsumInit, vminInit, vmaxInit)
    }

    constructor (runSize: nat, build: Build)
      ensures Valid()
      ensures defaultSize == DefaultSize && defaultReps == DefaultReps
      ensures this.runSize == runSize && this.build == build
      ensures live == {} && checksum == map[]
    {
      defaultSize, defaultReps := DefaultSize, DefaultReps;
      this.runSize := runSize;
      this.build := build;
      vec := new int[0];
      live := {};
      checksum := map[];
    }

    /** Allocates `vec` with the contents the data initialiser supplies and
        puts the running totals and the initial values at the identities. */
    method SetUp(vid: VariantID, data: seq<int>)
      requires |data| == runSize
      requires forall i :: 0 <= i < |data| ==> IsInt(data[i])
      modifies this
      ensures Valid() && fresh(vec)
      ensures vec[..] == data
      ensures live == old(live) + {Vec}
      ensures Running() == Identity && Init() == Identity
      ensures checksum == old(checksum)
    {
      vec := new int[|data|](i requires 0 <= i < |data| => data[i]);
      live := live + {Vec};
      vsum, vsumInit := 0, 0;
      vmin, vminInit := IntMax, IntMax;
      vmax, vmaxInit := IntMin, IntMin;
    }

    /** The timed loop: 100 repetitions, each starting its locals from the
        initial values (never from the running totals) and folding its
        result into the running totals. */
    method RunKernel(vid: VariantID)
      requires Valid() && Vec in live
      modifies this`vsum, this`vmin, this`vmax
      ensures Dispatch(build, vid) == Sweep ==>
                Running() == Repeat(RunReps, old(Running()), RepTotals(Init(), vec[..]))
      ensures Dispatch(build, vid) != Sweep ==> Running() == old(Running())
      ensures vmin <= old(vmin) && vmax >= old(vmax)
    {
      if Dispatch(build, vid) == Sweep {
        var irep := 0;
        while irep < RunReps
          invariant 0 <= irep <= RunReps
          invariant Running() == Repeat(irep, old(Running()), RepTotals(Init(), vec[..]))
          invariant vmin <= old(vmin) && vmax >= old(vmax)
        {
          var rep: Totals;
          if vid == RajaSeq {
            rep := RepTotals(Init(), vec[..]);
          } else {
            rep := RepetitionSweep(vec, Init());
          }
          vsum := vsum + rep.sum;
          vmin := Min(vmin, rep.min);
          vmax := Max(vmax, rep.max);
          irep := irep + 1;
        }
      }
    }

    /** Adds the three running totals into this variant's checksum entry. */
    method UpdateChecksum(vid: VariantID)
      modifies this`checksum
      ensures checksum.Keys == old(checksum).Keys + {vid}
      ensures Entry(checksum, vid) == Entry(old(checksum), vid) + vsum as real + vmin as real + vmax as real
      ensures forall v :: v in old(checksum) && v != vid ==> checksum[v] == old(checksum)[v]
    {
      checksum := Accumulate(checksum, vid, vsum as real);
      checksum := Accumulate(checksum, vid, vmin as real);
      checksum := Accumulate(checksum, vid, vmax as real);
    }

    /** Frees `vec`. */
    method TearDown(vid: VariantID)
      modifies this`live
      ensures live == old(live) - {Vec}
    {
      live := live - {Vec};
    }
  }
}
