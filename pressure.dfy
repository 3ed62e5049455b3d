/** PRESSURE: an equation-of-state update in two sweeps. The first sweep
    computes `bvc` from `compression`; the second computes `p_new` from
    `bvc` and `e_old`, then clamps it: to 0 below the cut-off `p_cut`, to 0
    at or above the volume limit `eosvmax`, and finally up to the floor
    `pmin`. */
module Pressure {
  import opened Harness

  const DefaultSize: nat := 100000
  const DefaultReps: nat := 7000

  /** `fabs`. */
  function Abs(x: real): real
  {
    if x < 0.0 then -x else x
  }

  /** `PRESSURE_BODY1` at one position. */
  function Bvc(cls: real, compression: real): real
  {
    cls * (compression + 1.0)
  }

  /** `PRESSURE_BODY2` at one position: the product, then the three clamps
      in the order the body applies them. Its outcome is the piecewise rule
      of the postconditions: the floor holds always; a cut-off or volume
      clamp gives `pmin` when `pmin` is positive and 0 otherwise; with
      neither, the product survives unless it is below `pmin`. */
  function PNew(bvc: real, eOld: real, vnewc: real, pCut: real, eosvmax: real, pmin: real): (p: real)
    ensures p >= pmin
    ensures Abs(bvc * eOld) < pCut || vnewc >= eosvmax ==>
              p == (if pmin > 0.0 then pmin else 0.0)
    ensures Abs(bvc * eOld) >= pCut && vnewc < eosvmax && bvc * eOld >= pmin ==>
              p == bvc * eOld
    ensures Abs(bvc * eOld) >= pCut && vnewc < eosvmax && bvc * eOld < pmin ==>
              p == pmin
  {
    var p0 := bvc * eOld;
    var p1 := if Abs(p0) < pCut then 0.0 else p0;
    var p2 := if vnewc >= eosvmax then 0.0 else p1;
    if p2 < pmin then pmin else p2
  }

  datatype Buffer = Compression | BvcBuf | PNewBuf | EOld | Vnewc

  const AllBuffers: set<Buffer> := {Compression, BvcBuf, PNewBuf, EOld, Vnewc}

  class PressureKernel {
    /** `setDefaultSize` and `setDefaultReps`. */
    const defaultSize: nat
    const defaultReps: nat
    const runSize: nat
    const runReps: nat
    const build: Build

    var compression: array<real>
    var bvc: array<real>
    var pNew: array<real>
    var eOld: array<real>
    var vnewc: array<real>
    var cls: real
    var pCut: real
    var pmin: real
    var eosvmax: real
    var live: set<Buffer>
    var checksum: map<VariantID, real>

    ghost predicate Valid()
      reads this
    {
      live == AllBuffers ==>
        && compression.Length == runSize && bvc.Length == runSize && pNew.Length == runSize
        && eOld.Length == runSize && vnewc.Length == runSize
        && bvc != pNew
        && bvc != compression && bvc != eOld && bvc != vnewc
        && pNew != compression && pNew != eOld && pNew != vnewc
    }

    constructor (runSize: nat, runReps: nat, build: Build)
      ensures Valid()
      ensures defaultSize == DefaultSize && defaultReps == DefaultReps
      ensures this.runSize == runSize && this.runReps == runReps && this.build == build
      ensures live == {} && checksum == map[]
    {
      defaultSize, defaultReps := DefaultSize, DefaultReps;
      this.runSize := runSize;
      this.runReps := runReps;
      this.build := build;
      compression := new real[0];
      bvc := new real[0];
      pNew := new real[0];
      eOld := new real[0];
      vnewc := new real[0];
      live := {};
      checksum := map[];
    }

    /** Allocates the five buffers with the values the data initialiser
        supplies and sets the four scalars, also the initialiser's values. */
    method SetUp(vid: VariantID, compressionData: seq<real>, bvcData: seq<real>, pNewData: seq<real>,
                 eOldData: seq<real>, vnewcData: seq<real>,
                 cls: real, pCut: real, pmin: real, eosvmax: real)
      requires |compressionData| == runSize && |bvcData| == runSize && |pNewData| == runSize
      requires |eOldData| == runSize && |vnewcData| == runSize
      modifies this
      ensures Valid()
      ensures fresh(compression) && fresh(bvc) && fresh(pNew) && fresh(eOld) && fresh(vnewc)
      ensures compression[..] == compressionData && bvc[..] == bvcData && pNew[..] == pNewData
      ensures eOld[..] == eOldData && vnewc[..] == vnewcData
      ensures this.cls == cls && this.pCut == pCut && this.pmin == pmin && this.eosvmax == eosvmax
      ensures live == AllBuffers && checksum == old(checksum)
    {
      this.cls, this.pCut, this.pmin, this.eosvmax := cls, pCut, pmin, eosvmax;
      AllocBuffers(compressionData, bvcData, pNewData, eOldData, vnewcData);
    }

    /** The five `allocAndInitData` calls. */
    method AllocBuffers(compressionData: seq<real>, bvcData: seq<real>, pNewData: seq<real>,
                        eOldData: seq<real>, vnewcData: seq<real>)
      requires |compressionData| == runSize && |bvcData| == runSize && |pNewData| == runSize
      requires |eOldData| == runSize && |vnewcData| == runSize
      modifies this`compression, this`bvc, this`pNew, this`eOld, this`vnewc, this`live
      ensures Valid()
      ensures fresh(compression) && fresh(bvc) && fresh(pNew) && fresh(eOld) && fresh(vnewc)
      ensures compression[..] == compressionData && bvc[..] == bvcData && pNew[..] == pNewData
      ensures eOld[..] == eOldData && vnewc[..] == vnewcData
      ensures live == AllBuffers
    {
      var c := NewBuffer(compressionData);
      var b := NewBuffer(bvcData);
      var p := NewBuffer(pNewData);
      var e := NewBuffer(eOldData);
      var v := NewBuffer(vnewcData);
      compression, bvc, pNew, eOld, vnewc := c, b, p, e, v;
      live := AllBuffers;
    }

    /** The first sweep of one repetition. */
    method Sweep1()
      requires Valid() && live == AllBuffers
      modifies bvc
      ensures forall i :: 0 <= i < runSize ==> bvc[i] == Bvc(cls, compression[i])
    {
      var i := 0;
      while i < runSize
        invariant 0 <= i <= runSize
        invariant forall k :: 0 <= k < i ==> bvc[k] == Bvc(cls, compression[k])
      {
        bvc[i] := cls * (compression[i] + 1.0);
        i := i + 1;
      }
    }

    /** The second sweep of one repetition: `p_new[i]` is written from the
        `bvc[i]` of the first sweep and then conditionally overwritten three
        times, in order. */
    method Sweep2()
      requires Valid() && live == AllBuffers
      modifies pNew
      ensures forall i :: 0 <= i < runSize ==>
                pNew[i] == PNew(bvc[i], eOld[i], vnewc[i], pCut, eosvmax, pmin)
    {
      var i := 0;
      while i < runSize
        invariant 0 <= i <= runSize
        invariant forall k :: 0 <= k < i ==> pNew[k] == PNew(bvc[k], eOld[k], vnewc[k], pCut, eosvmax, pmin)
      {
        pNew[i] := bvc[i] * eOld[i];
        if Abs(pNew[i]) < pCut {
          pNew[i] := 0.0;
        }
        if vnewc[i] >= eosvmax {
          pNew[i] := 0.0;
        }
        if pNew[i] < pmin {
          pNew[i] := pmin;
        }
        i := i + 1;
      }
    }

    /** The timed loop. Only `bvc` and `p_new` are written, both from
        buffers no repetition writes, so one repetition or many leave the
        same values. */
    method RunKernel(vid: VariantID)
      requires Valid() && live == AllBuffers
      modifies bvc, pNew
      ensures Dispatch(build, vid) == Sweep && runReps > 0 ==>
                forall i :: 0 <= i < runSize ==>
                  && bvc[i] == Bvc(cls, compression[i])
                  && pNew[i] == PNew(Bvc(cls, compression[i]), eOld[i], vnewc[i], pCut, eosvmax, pmin)
                  && pNew[i] >= pmin
      ensures Dispatch(build, vid) != Sweep || runReps == 0 ==>
                bvc[..] == old(bvc[..]) && pNew[..] == old(pNew[..])
      ensures compression[..] == old(compression[..]) && eOld[..] == old(eOld[..])
      ensures vnewc[..] == old(vnewc[..])
    {
      if Dispatch(build, vid) == Sweep {
        var irep := 0;
        while irep < runReps
          invariant 0 <= irep <= runReps
          invariant irep == 0 ==> bvc[..] == old(bvc[..]) && pNew[..] == old(pNew[..])
          invariant irep > 0 ==> forall i :: 0 <= i < runSize ==>
                      bvc[i] == Bvc(cls, compression[i])
                      && pNew[i] == PNew(bvc[i], eOld[i], vnewc[i], pCut, eosvmax, pmin)
        {
          Sweep1();
          Sweep2();
          irep := irep + 1;
        }
      }
    }

    /** Adds the checksum of `p_new` into this variant's entry. */
    method UpdateChecksum(vid: VariantID, calcChecksum: seq<real> -> real)
      requires Valid() && live == AllBuffers
      modifies this`checksum
      ensures checksum == Accumulate(old(checksum), vid, calcChecksum(pNew[..runSize]))
    {
      checksum := Accumulate(checksum, vid, calcChecksum(pNew[..runSize]));
    }

    /** Frees the five buffers `SetUp` allocated. */
    method TearDown(vid: VariantID)
      modifies this`live
      ensures live == old(live) - AllBuffers
    {
      live := live - AllBuffers;
    }
  }
}
