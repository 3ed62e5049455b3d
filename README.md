# RAJA Performance Suite kernels: a verified model

This project models five kernels of the RAJA Performance Suite in Dafny:

- REDUCE3_INT, an integer sum/min/max reduction;
- FIR, a 16-tap filter;
- POLYBENCH_2MM, two chained matrix products over flat row-major buffers;
- PRESSURE, an equation-of-state update with a clamp chain;
- ADD, the STREAM `c = a + b` kernel.

Each kernel is a class with the fields of the C++ kernel object. The
buffers are `array<real>` (`array<int>` for REDUCE3_INT), the per-variant
checksums are a `map`, and the methods are the kernel's `setUp`,
`runKernel`, `updateChecksum` and `tearDown`.

`runKernel` is modelled by its sequential branches (`Base_Seq`,
`RAJA_Seq`). The repetition loop and the `Base_Seq` index loops are Dafny
loops proved against specification functions or pointwise formulas. The
`RAJA_Seq` reducers of REDUCE3_INT are the fold itself, and the `memcpy`
of POLYBENCH_2MM is a parallel assignment.

The `switch (vid)` is modelled by `Harness.Dispatch` (and
`StreamAdd.AddDispatch` for ADD). It tells whether a variant's `case`
label is compiled in for a given build:

- a compiled case runs the sweep;
- a case with an empty body does nothing;
- an uncompiled variant falls into `default`, which changes no state.

The parallel and device variants are given the meaning of the sequential
one.

Shared pieces live in `harness.dfy`:

- the variant identifiers;
- the build flags;
- `checksum[vid] += x`, with `std::map` default insertion;
- `allocAndInitData`, as a fresh array holding contents supplied as a
  parameter.

`calcChecksum` is a function parameter. Buffer lifetime is tracked as the
set `live` of allocated buffers, which `setUp` (or the constructor) fills
and `tearDown` (or the destructor) empties.

## Model

| member | source | states |
|---|---|---|
| Harness.Dispatch | src/basic/REDUCE3_INT.cpp:158-422 | the sequential variants always run the sweep; a variant runs it exactly when its `case` is compiled in under the OpenMP, OpenMP-target (nested in OpenMP) and CUDA guards; no case of these kernels is empty |
| Harness.Accumulate | src/basic/REDUCE3_INT.cpp:428 | `checksum[vid] += x`: the key set gains `vid`, its entry grows by `x` from 0 when missing, every other entry is kept |
| Harness.NewBuffer | src/stream/ADD.cpp:97-99 | an allocation is a fresh array holding exactly the initialiser's values |
| Reduce3Int.FoldMinIsMinimum | src/basic/REDUCE3_INT.cpp:51-54 | the folded minimum is at most the initial value and every element, and it is one of them |
| Reduce3Int.FoldMaxIsMaximum | src/basic/REDUCE3_INT.cpp:51-54 | the folded maximum is at least the initial value and every element, and it is one of them |
| Reduce3Int.RepetitionSweep | src/basic/REDUCE3_INT.cpp:167-173 | one repetition's locals start from the init values and end as init sum plus the element sum, with `vmin <= vec[i] <= vmax` for every `i`; equal to the fold `RepTotals` that the `RAJA_Seq` reducers compute |
| Reduce3Int.Combine | src/basic/REDUCE3_INT.cpp:175-177 | folding a repetition into the running totals adds exactly its sum, never raises the minimum, never lowers the maximum, and picks one of the two |
| Reduce3Int.RepeatClosedForm | src/basic/REDUCE3_INT.cpp:165-179 | n >= 1 identical repetitions add n times the repetition's sum and take the minimum and maximum once |
| Reduce3Int.SetUpRunTotals | src/basic/REDUCE3_INT.cpp:143-179 | from the `setUp` identities and a nonempty vector of `Int_type` values, 100 repetitions give 100 times the element sum, the least element and the greatest element |
| Reduce3Int.EmptyRunKeepsIdentity | src/basic/REDUCE3_INT.cpp:165-177 | with run size 0 the running totals stay 0, the largest and the smallest `Int_type` |
| Reduce3Int.Reduce3IntKernel.constructor | src/basic/REDUCE3_INT.cpp:128-133 | default size 1000000 and default repetitions 5000; a kernel with the given run size, nothing allocated and no checksum |
| Reduce3Int.Reduce3IntKernel.SetUp | src/basic/REDUCE3_INT.cpp:139-149 | `vec` is allocated with the initialiser's values; running totals and init values are both the identities (0, largest, smallest `Int_type`) |
| Reduce3Int.Reduce3IntKernel.RunKernel | src/basic/REDUCE3_INT.cpp:151-424 | a dispatched run ends with the running totals after 100 repetitions, each started from the init values (never the running totals); the minimum never rises and the maximum never falls; `default` leaves the totals unchanged |
| Reduce3Int.Reduce3IntKernel.UpdateChecksum | src/basic/REDUCE3_INT.cpp:426-431 | the variant's entry grows by `m_vsum + m_vmin + m_vmax`; other entries are kept |
| Reduce3Int.Reduce3IntKernel.TearDown | src/basic/REDUCE3_INT.cpp:433-437 | frees `vec` |
| Fir.CoeffsSumToZero | src/apps/FIR.cpp:52-56 | the sixteen coefficients sum to zero |
| Fir.DotOfConstant | src/apps/FIR.cpp:69-75 | over a window of equal values `c`, the inner loop's sum is `c` times the sum of the coefficients used |
| Fir.ConstantWindowIsZero | src/apps/FIR.cpp:52-75 | the filter maps a constant input window to 0 |
| Fir.WindowLoop | src/apps/FIR.cpp:69-75 | the inner loop at position `i` reads only `in[i .. i+16)` (bounds are checked) and yields the window sum `WindowSum` |
| Fir.Filtered | src/apps/FIR.cpp:179-194 | one repetition writes every position of `[0, runSize - 16)` with its window sum and keeps every other position |
| Fir.FilteredIdempotent | src/apps/FIR.cpp:190-196 | a second repetition over the same input writes what the first wrote |
| Fir.ShortInputUnchanged | src/apps/FIR.cpp:179-194 | when the run is no longer than the filter, a repetition writes nothing |
| Fir.FirKernel.constructor | src/apps/FIR.cpp:152-159 | default size 100000, default repetitions 1600, filter length `m_coefflen` 16; nothing is allocated |
| Fir.FirKernel.ItsPerRep | src/apps/FIR.cpp:165-167 | the iteration count `runSize - coefflen`: the last counted position's window lies inside `in`, and the count is 0 or negative exactly when the run is no longer than the filter |
| Fir.FirKernel.SetUp | src/apps/FIR.cpp:169-173 | `in` and `out` are allocated with the initialiser's values |
| Fir.FirKernel.RunKernel | src/apps/FIR.cpp:175-377 | `in` is unchanged; a dispatched run with at least one repetition gives `out` as one repetition does: window sums on `[0, getItsPerRep())` and the tail unchanged; otherwise `out` is unchanged |
| Fir.FirKernel.UpdateChecksum | src/apps/FIR.cpp:379-382 | the checksum covers all `runSize` entries of `out`, unwritten tail included |
| Fir.FirKernel.TearDown | src/apps/FIR.cpp:384-390 | frees `in` and `out` |
| Pressure.PNew | src/apps/PRESSURE.cpp:59-63 | the outcome of the clamp chain: always at least `pmin`; `pmin` if positive and 0 otherwise when the cut-off or the volume limit hits; else the product, unless it is below `pmin` |
| Pressure.PressureKernel.constructor | src/apps/PRESSURE.cpp:124-129 | default size 100000 and default repetitions 7000; nothing is allocated and there is no checksum |
| Pressure.PressureKernel.SetUp | src/apps/PRESSURE.cpp:135-147 | the five buffers are allocated with the initialiser's values and the four scalars are set |
| Pressure.PressureKernel.AllocBuffers | src/apps/PRESSURE.cpp:137-141 | the five allocations: fresh, with the initialiser's values, and `bvc` and `p_new` share storage with no other buffer |
| Pressure.PressureKernel.Sweep1 | src/apps/PRESSURE.cpp:164-166 | `bvc[i] = cls * (compression[i] + 1)` for every `i` |
| Pressure.PressureKernel.Sweep2 | src/apps/PRESSURE.cpp:168-170 | `p_new[i]` is the clamp-chain outcome of `bvc[i] * e_old[i]` for every `i` |
| Pressure.PressureKernel.RunKernel | src/apps/PRESSURE.cpp:149-382 | a dispatched run with at least one repetition leaves what one leaves: `bvc` from `compression`, `p_new` from that same-repetition `bvc`, and `p_new >= pmin`; otherwise no buffer changes; `compression`, `e_old`, `vnewc` are never written |
| Pressure.PressureKernel.UpdateChecksum | src/apps/PRESSURE.cpp:384-387 | adds the checksum of `p_new` |
| Pressure.PressureKernel.TearDown | src/apps/PRESSURE.cpp:389-398 | frees the five buffers `setUp` allocated |
| Polybench2mm.FlatOffset | src/polybench/POLYBENCH_2MM.cpp:65-75 | the flat offset of an in-range cell is below the buffer's length |
| Polybench2mm.Decompose | src/polybench/POLYBENCH_2MM.cpp:116-120 | a flat index below `rows * cols` splits into an in-range row `ii / cols` and column `ii % cols` that recompose to `ii` |
| Polybench2mm.Compose | src/polybench/POLYBENCH_2MM.cpp:136-138 | splitting the offset of `(r, c)` gives back `r` and `c` |
| Polybench2mm.SizeClassesOrdered | src/polybench/POLYBENCH_2MM.cpp:154-179 | the size-class table grows every extent from class to class, never grows the repetition count, and gives unknown classes Medium's values |
| Polybench2mm.TmpCellValue | src/polybench/POLYBENCH_2MM.cpp:65-69 | cell `(i, j)` of phase one's `tmp`, at offset `i*nj + j`, is the full sum over `k` of `alpha * A * B` |
| Polybench2mm.DCellValue | src/polybench/POLYBENCH_2MM.cpp:71-75 | cell `(i, l)` of phase two's `D` is `beta` times its start value plus the full sum over `j` of `tmp * C` |
| Polybench2mm.DRowValue | src/polybench/POLYBENCH_2MM.cpp:237-244 | a row whose cells hold their phase-two value agrees with phase two's `D` on that row |
| Polybench2mm.Polybench2mmKernel.constructor | src/polybench/POLYBENCH_2MM.cpp:148-192 | extents and default repetitions from the size class, `alpha = 1.5`, `beta = 1.2`, default size `ni*nj*(1+nk) + ni*nl*(1+nj)`, six fresh buffers of their matrices' sizes |
| Polybench2mm.Polybench2mmKernel.Release | src/polybench/POLYBENCH_2MM.cpp:194-202 | the destructor frees exactly the six buffers the constructor allocated |
| Polybench2mm.Polybench2mmKernel.SetUp | src/polybench/POLYBENCH_2MM.cpp:204-207 | changes nothing |
| Polybench2mm.Polybench2mmKernel.TearDown | src/polybench/POLYBENCH_2MM.cpp:552-556 | changes nothing |
| Polybench2mm.Polybench2mmKernel.TmpCell | src/polybench/POLYBENCH_2MM.cpp:228-231 | BODY1 then the `k` loop of BODY2: only the cell changes, and it ends as the full sum (the zeroing discards its old value) |
| Polybench2mm.Polybench2mmKernel.TmpRow | src/polybench/POLYBENCH_2MM.cpp:227-232 | the `j` loop recomputes row `i` of `tmp`, which starts at offset `i*nj`, and keeps every other cell |
| Polybench2mm.Polybench2mmKernel.Phase1 | src/polybench/POLYBENCH_2MM.cpp:226-233 | `tmp` becomes `alpha * A * B`, whatever it held |
| Polybench2mm.Polybench2mmKernel.RestoreD | src/polybench/POLYBENCH_2MM.cpp:235 | the `memcpy` makes `D` equal to `DD` |
| Polybench2mm.Polybench2mmKernel.DCell | src/polybench/POLYBENCH_2MM.cpp:239-242 | BODY3 then the `j` loop of BODY4: only the cell changes, and it ends as `beta * DD` plus the row-by-column sum |
| Polybench2mm.Polybench2mmKernel.DRow | src/polybench/POLYBENCH_2MM.cpp:238-243 | the `l` loop updates row `i` of `D`, which starts at offset `i*nl`, and keeps every other cell |
| Polybench2mm.Polybench2mmKernel.Phase2 | src/polybench/POLYBENCH_2MM.cpp:237-244 | from the restored `D`, `D` becomes `beta * DD + tmp * C` |
| Polybench2mm.Polybench2mmKernel.RunKernel | src/polybench/POLYBENCH_2MM.cpp:209-545 | `A`, `B`, `C`, `DD` are unchanged; a dispatched run with at least one repetition leaves `tmp = alpha*A*B` and `D = beta*DD + tmp*C`, whatever the number of repetitions; otherwise `tmp` and `D` are unchanged |
| Polybench2mm.Polybench2mmKernel.UpdateChecksum | src/polybench/POLYBENCH_2MM.cpp:547-550 | adds the checksum of the `ni*nl` entries of `D`, which is all of `D` |
| StreamAdd.AddDispatch | src/stream/ADD.cpp:108-241 | the sequential variants run the sweep; `RAJALike_OpenMP` does nothing when OpenMP is compiled in; ADD has no OpenMP-target cases and its `OpenMP4x` cases are disabled, so those fall into `default` |
| StreamAdd.AddKernel.constructor | src/stream/ADD.cpp:83-88 | default size 1000000 and default samples 800; nothing is allocated and there is no checksum |
| StreamAdd.AddKernel.SetUp | src/stream/ADD.cpp:95-100 | `a`, `b` and `c` are allocated with the initialiser's values |
| StreamAdd.AddKernel.Sample | src/stream/ADD.cpp:117-119 | `c[i] = a[i] + b[i]` for every `i` |
| StreamAdd.AddKernel.RunKernel | src/stream/ADD.cpp:102-243 | `a` and `b` are unchanged; a dispatched run with at least one sample leaves `c = a + b` whatever the number of samples; an empty case or `default` leaves `c` unchanged |
| StreamAdd.AddKernel.UpdateChecksum | src/stream/ADD.cpp:245-248 | adds the checksum of `c` |
| StreamAdd.AddKernel.TearDown | src/stream/ADD.cpp:250-256 | frees `a`, `b` and `c` |

## Left out

- The OpenMP, OpenMP-target and CUDA branches are not modelled. This leaves out parallel loops, device data mapping, kernel launches, atomics and shared-memory tree reductions. A compiled parallel or device case is given the sequential case's meaning.
- Pressure.PressureKernel.RunKernel: the CUDA case and both OpenMP-target cases copy only `p_new` back to the host, never `bvc` (the target cases map `bvc` with `delete`). With those compiled in, the host `bvc` the contract describes is the sequential one, not what those cases leave.
- Polybench2mm.Polybench2mmKernel.RunKernel: the CUDA cases (whose copy-back copies only `D`) and the OpenMP-target cases (whose `target exit data` maps `tmp` with `delete`, never `from`) never copy `tmp` back to the host. With those compiled in, the host `tmp` the contract describes is the sequential one. `D` is restored on the device every repetition in all of them and matches the sequential result.
- Reduce3Int.Reduce3IntKernel.RunKernel: in the `Base_CUDA` case every thread's partial sum starts from `m_vsum_init`, and so does the device total it is added into. That matches the sequential sum only because `setUp` makes `m_vsum_init` 0. The model gives that case the sequential meaning.
- The RAJA library calls (`forall`, `forallN`, the reducers) are plain sequential loops and folds.
- `startTimer`/`stopTimer` are not modelled, because wall-clock time is not part of the state. This also covers the point that ADD's `RAJALike_OpenMP` case starts no timer.
- `std::cout` diagnostics in `default` are not modelled; only the fact that `default` changes no state is.
- `calcChecksum` and the data initialisers are not modelled. They live in common/DataUtils, which is not part of this model. `calcChecksum` is a function parameter and the initial buffer contents are method parameters.
- The run parameters are not modelled. The run size, the repetition and sample counts, and (for POLYBENCH_2MM) the size class are constructor parameters. `KernelBase` is not part of this model.
- Floating point is idealised: `Real_type` is `real`, with no rounding and no NaN.
- StreamAdd.AddDispatch: ADD's `Baseline_Seq`, `Baseline_OpenMP`, `Baseline_CUDA` and `Baseline_OpenMP4x` labels are taken to be the same identifiers as the other kernels' `Base_*` ones. The `VariantID` enumeration is declared outside the modelled files, so this is an assumption of the model.
- ADD's OpenMP cases are guarded by the compiler's own `_OPENMP` macro, not `RAJA_ENABLE_OPENMP`; both are taken as the single `openmp` build flag.
- Reduce3Int.Reduce3IntKernel.RunKernel: `Int_type` is an unbounded `int`, so C++ signed overflow of `m_vsum` is not modelled. Elements are required to be `Int_type` values, but the sums are not bounded.
- Reduce3Int.Reduce3IntKernel.RunKernel: the `Real_type` casts of the `RAJA_OpenMPTarget` case are not modelled, because that case is device-only.
- The `std::copy` of FIR's coefficient array into a local is not modelled; the constant `Coeff` is read directly.
- Polybench2mm.Polybench2mmKernel.Phase2: specified only when it starts right after the restore from `DD`, which is the only way `runKernel` calls it.
