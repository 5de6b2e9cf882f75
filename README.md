# cfavml in Dafny

cfavml is a Rust library of vector kernels: element-wise arithmetic, comparison masks, sums, minima and maxima, dot products, norms, squared Euclidean distance and cosine distance over slices of integers and floats. It also includes the small crates around those kernels. This project models the library's portable core and proves what each layer promises.

- **Element math.** `IntMath` covers the integer element types, with two's-complement wrap-around written out. `FloatMath` keeps only the float facts the kernels depend on: the sentinels, NaN-ignoring max/min and the bit-level `f32_abs_fast`. `ScalarOps` is the `Math` trait, and `Monoids` covers the folds the reductions compute.
- **The SIMD abstraction.** `SimdApi` holds the register of `L` lanes, the eight-register dense block and the lane-wise lifts of the scalar operations. `ImplFallback` is the one-lane fallback backend.
- **Memory.** `Buffer` is the write-only output buffer. `MemLoader` holds the slice and broadcast-scalar loaders, including projection and the `data_cursor` that advances.
- **Kernels.** `Boilerplate` and `VerticalKernel` are the three-phase loops (dense blocks, single registers, scalar tail). `VectorXValueOps` and `VectorXVectorOps`, plus the `Arithmetic*Ops` and `Cmp*Ops` modules, build the arithmetic and mask operations on top of them. `MaxMinOps`, `AggregateOps` and `Reductions` cover the horizontal and vertical reductions and the distances. `DangerUtils` holds the helpers.
- **Portable fallbacks.** These are the eight-accumulator loops:
  - `FallbackReductions`, with `FallbackAlgebra` for the regrouping proofs;
  - `FallbackVertical`;
  - `FallbackElementwise`.
- **The safe layer.**
  - `Dispatch`: selecting a backend from the CPU features, which are given as inputs.
  - `SafeTraitOps`: the trait methods with their length assertions.
  - `SafeSliceOps`: the slice functions.
  - `SafeFunctionOps`: the free functions.
  - `TestUtils`: the reference implementations the tests compare against.
- **cfavml-gemm.** `GemmManipulation` covers row-wise and column-block sub-buffer selection. `GemmTranspose` covers the blocked transpose and the `transpose_matrix` entry. `GemmLayout` covers the 16-wide and 4-wide stripe copies that prepare the operands of the FMA matrix multiply.
- **Aligned buffers.** `AlignedBuffer` is the zeroed, chunk-aligned buffer of `cfavml-utils`. `AlignedRepr` is the growable block buffer of the top-level `src/aligned_buffer.rs`.
- **`cfavml-ndarray`.** `Broadcast` covers the `co_broadcast` shape rule.

Stateful code is written as methods over arrays and classes, proved against specification functions. The all-inputs lemmas tie each kernel to its scalar reference (a fold, or an element-wise map), and tie each fallback's regrouped accumulators to the plain fold.

## Model

| member | source | states |
|---|---|---|
| IntMath.Wrap | cfavml/src/math/default.rs:236-249 | the wrapped result always lies in the type's range, and equals the exact result whenever that fits |
| IntMath.RangeIsModulus | cfavml/src/math/default.rs:201-209 | `T::MAX - T::MIN + 1` is 2 to the bit width; signed types start at minus half of it, unsigned at 0 |
| IntMath.WrapIsReduce | cfavml/src/math/default.rs:236-249 | every type wraps by the same rule: reduction into `[T::MIN, T::MIN + 2^bits)` |
| IntMath.WrapCongruent | cfavml/src/math/default.rs:236-249 | the wrapped result differs from the exact one by a multiple of 2 to the bit width |
| IntMath.WrapAddLeft | cfavml/src/math/default.rs:236-239 | wrapping an addend early does not change a wrapping sum |
| IntMath.WrapAddRight | cfavml/src/math/default.rs:236-239 | the same for the right addend |
| IntMath.WrapMulLeft | cfavml/src/math/default.rs:246-249 | wrapping a factor early does not change a wrapping product |
| IntMath.WrapMulRight | cfavml/src/math/default.rs:246-249 | the same for the right factor |
| IntMath.AddAssoc | cfavml/src/math/default.rs:236-239 | `wrapping_add` is associative, so a sum may be regrouped |
| IntMath.AddWrapped | cfavml/src/math/default.rs:236-239 | adding two wrapped partial sums gives the wrapped total |
| IntMath.WrapAroundExamples | cfavml/src/math/default.rs:236-249 | `i8::MAX + 1` is `i8::MIN`, `0u8 - 1` is `u8::MAX`, `256i16 * 256` is 0 |
| IntMath.DivWraps | cfavml/src/math/default.rs:251-254 | `wrapping_div` is the quotient rounded toward zero, except `T::MIN / -1`, which wraps to `T::MIN` |
| IntMath.Constants | cfavml/src/math/default.rs:191-209 | zero, one, max and min are 0, 1, `T::MAX` and `T::MIN`, shown for i8, u8, i32, i64 and u64 |
| IntMath.SentinelIdentities | cfavml/src/math/default.rs:201-209 | `min()` is the identity of `cmp_max` and `max()` the identity of `cmp_min`, on both sides, for every value of the type |
| IntMath.CmpMinMax | cfavml/src/math/default.rs:221-234 | `cmp_min`/`cmp_max` return one of their operands, the smaller/larger; `cmp_eq` is equality |
| IntMath.AbsSpec | cfavml/src/math/default.rs:216-219 | signed `abs` is the absolute value except at `T::MIN`, which wraps to itself as in a release build; unsigned `abs` (lines 289-292) is the identity |
| ScalarOps.Apply | cfavml/src/math/mod.rs:36-54 | each scalar op keeps in-range operands in range |
| ScalarOps.Zip | cfavml/src/danger/impl_fallback.rs:29-46 | a register-wide op applies the scalar op lane by lane, keeping the length and the range |
| ScalarOps.Fill | cfavml/src/danger/impl_fallback.rs:19-22 | `filled(v)` holds `v` in every lane |
| ScalarOps.MaskSpec | cfavml/src/danger/op_cmp_value.rs:35-200 | a comparison mask is 0 or 1, and 1 exactly when the comparison holds with the left operand first |
| ScalarOps.MaskComplements | cfavml/src/danger/op_cmp_value.rs:35-68 | `neq = 1 - eq`, `gte = 1 - lt`, `gt = 1 - lte` on integers |
| ScalarOps.ZipConcat | cfavml/src/danger/core_routine_boilerplate.rs:38-61 | an element-wise op over a buffer is the op over each of its pieces, as the three kernel phases apply it |
| ScalarOps.ZipSlice | cfavml/src/danger/core_routine_boilerplate.rs:38-61 | an element-wise op commutes with taking a slice |
| FloatMath.SentinelIdentities | cfavml/src/math/default.rs:17-67 | `-inf` is the identity of `cmp_max` and `+inf` of `cmp_min` for every non-NaN float, a NaN operand is ignored, and NaN equals nothing |
| FloatMath.CmpMaxMin | cfavml/src/math/default.rs:58-67 | on non-NaN floats `cmp_max` returns an operand no smaller than either, `cmp_min` one no larger |
| FloatMath.AbsFast | cfavml/src/math/default.rs:362-367 | `f32_abs_fast` clears the sign bit and changes no other bit |
| FloatMath.AbsFastSign | cfavml/src/math/default.rs:362-367 | a pattern and its negation have the same absolute value; a pattern with the sign clear is its own |
| Monoids.Identity | cfavml/src/danger/op_sum.rs:23 | each reduction starts from a value of the type: `zero()` for sum, `min()` for max, `max()` for min |
| Monoids.CombineIsApply | cfavml/src/danger/core_simd_api.rs:213-275 | the register op each reduction uses (`add`, `max`, `min`) computes that reduction's combination |
| Monoids.CombineAssoc | cfavml/src/danger/op_sum.rs:25-53 | the combination of every reduction is associative, so the dense and register phases may regroup it |
| Monoids.CombineComm | cfavml/src/danger/op_sum.rs:25-53 | the combination is commutative, so lanes may be reordered |
| Monoids.CombineIdentity | cfavml/src/danger/op_max.rs:23 | the start value is an identity on both sides for every value of the type |
| Monoids.Swap4 | cfavml/src/danger/core_simd_api.rs:340-350 | `(a.b).(c.d) == (a.c).(b.d)`: two lane-wise partial results merge in either order |
| Monoids.FoldInRange | cfavml/src/danger/op_sum.rs:12-56 | a reduction of values of the type is a value of the type |
| Monoids.FoldAppend | cfavml/src/danger/op_sum.rs:25-53 | the reduction of a concatenation combines the reductions of the pieces |
| Monoids.FoldPointwise | cfavml/src/danger/op_sum.rs:25-53 | reducing a lane-wise combination of two sequences combines their reductions: the step of every multi-accumulator loop |
| Monoids.FoldOfIdentities | cfavml/src/danger/op_sum.rs:23 | a zeroed or `filled(min())` accumulator contributes nothing |
| Monoids.FoldSingleton | cfavml/src/danger/op_sum.rs:46-53 | reducing one value gives the value |
| Monoids.Tree8IsFold | cfavml/src/danger/utils.rs:215-237 | the balanced eight-leaf tree `rollup_scalar_x8` and `*_to_register` build equals the sequential fold of its leaves |
| Monoids.Quad | cfavml/src/danger/core_simd_api.rs:340-350 | the four-leaf tree equals the fold of its leaves |
| Monoids.Pair | cfavml/src/danger/core_simd_api.rs:340-350 | the two-leaf tree equals the fold of its leaves |
| Monoids.FoldSumIsWrappedSum | cfavml/src/danger/op_sum.rs:25-53 | a wrapping sum is the exact sum truncated to the type, whatever the grouping |
| Monoids.FoldSumOfWrapped | cfavml/src/danger/op_norm.rs:12-56 | summing per-element wrapped products or squares is wrapping the exact total |
| Monoids.FoldMaxMinBound | cfavml/src/danger/op_max.rs:12-56 | the max reduction bounds every element from above and the min from below; empty inputs give `min()` and `max()` |
| Monoids.FoldMaxMinMember | cfavml/src/danger/op_max.rs:12-56 | a non-empty max or min reduction is one of the elements |
| SimdApi.Copy | cfavml/src/danger/core_simd_api.rs:92-103 | `DenseLane::copy` puts the same register in all eight slots |
| SimdApi.FlattenLength | cfavml/src/danger/core_simd_api.rs:115-118 | a dense lane of `L`-element registers holds `elements_per_dense = 8 * L` elements |
| SimdApi.FilledDenseFlatten | cfavml/src/danger/core_simd_api.rs:154-157 | `filled_dense(v)` is `8 * L` copies of `v` in memory order |
| SimdApi.Load | cfavml/src/danger/core_simd_api.rs:127 | `load` reads exactly one register of `L` elements |
| SimdApi.LoadDenseFlatten | cfavml/src/danger/core_simd_api.rs:139-152 | `load_dense` reads slot `k` at `k * elements_per_lane`, so its eight registers are exactly the `8 * L` elements from the offset |
| SimdApi.LoadFirstHalf | cfavml/src/danger/core_simd_api.rs:139-152 | the first four loaded registers are the first `4 * L` of those elements |
| SimdApi.LoadNext | cfavml/src/danger/core_simd_api.rs:139-152 | a window followed by the next loaded register is the window one register longer |
| SimdApi.Store | cfavml/src/danger/core_simd_api.rs:386-389 | `write` keeps the memory's length |
| SimdApi.StoreAdjacent | cfavml/src/danger/core_simd_api.rs:397-406 | two adjacent register writes are one write of their concatenation |
| SimdApi.StoreLoadedDense | cfavml/src/danger/core_simd_api.rs:139-152 | writing back a dense lane loaded from the same offset leaves memory unchanged: `load_dense` and `write_dense` (lines 397-406) use the same slot offsets |
| SimdApi.DenseOp | cfavml/src/danger/core_simd_api.rs:213-334 | a default `*_dense` op yields a lane of the same shape |
| SimdApi.DenseOpFlatten | cfavml/src/danger/core_simd_api.rs:213-334 | `apply_dense!` of a register op is that op applied element by element over the `8 * L` elements |
| SimdApi.LoadDefined | cfavml/src/danger/core_simd_api.rs:139-152 | a register loaded from divisors that are all non-zero holds only non-zero divisors |
| SimdApi.LoadDenseDefined | cfavml/src/danger/core_simd_api.rs:139-152 | the same for all eight registers of a dense load |
| SimdApi.FmAddDenseFlatten | cfavml/src/danger/core_simd_api.rs:247-255 | `fmadd_dense` is `fmadd` element by element over the flattened lanes |
| SimdApi.FoldFlatten | cfavml/src/danger/core_simd_api.rs:340-350 | the reduction of a dense lane's elements is the reduction of its eight registers' reductions |
| SimdApi.FoldQuad | cfavml/src/danger/core_simd_api.rs:340-350 | the reduction of four concatenated pieces is the reduction of their four reductions |
| SimdApi.FoldStep | cfavml/src/danger/op_sum.rs:25-53 | appending one more piece adds its reduction as one more term |
| SimdApi.ToRegisterFold | cfavml/src/danger/core_simd_api.rs:340-382 | `sum_to_register`, `max_to_register` and `min_to_register` keep the register width, and the result's lanes reduce to the reduction of all `8 * L` elements |
| ImplFallback.FallbackIsWidthOne | cfavml/src/danger/impl_fallback.rs:172-250 | the fallback backend is the generic register model at width one: `load`/`write` touch one element, each op is the scalar `AutoMath` op, `fmadd` is `add(mul(l1, l2), acc)`, and `*_to_value` returns the register |
| Buffer.BumpAdjacent | cfavml/src/danger/core_simd_api.rs:397-406 | recording two adjacent runs of writes is recording one run over both |
| Buffer.Item | cfavml/src/buffer.rs:69-113 | an initialised slice and a `MaybeUninit` slice of the same primitive expose that primitive as their item |
| Buffer.WriteOnlyBuffer.WriteAt | cfavml/src/buffer.rs:31-34 | `write_at` replaces exactly slot `idx` and records one write there |
| Buffer.WriteOnlyBuffer.Write | cfavml/src/danger/core_simd_api.rs:386-389 | a register write replaces the `L` slots from the offset with the register's lanes, each written once |
| Buffer.WriteOnlyBuffer.WriteDense | cfavml/src/danger/core_simd_api.rs:397-406 | `write_dense` stores the flattened lane in one window of `8 * L` slots and writes each of them exactly once |
| Buffer.WriteOnlyBuffer.WriteQuad | cfavml/src/danger/core_simd_api.rs:397-406 | four registers written one after another extend the written window by all four |
| Buffer.WriteOnlyBuffer.WriteNext | cfavml/src/danger/core_simd_api.rs:397-406 | one more register written after a window extends it by that register |
| MemLoader.ProjectedLen | cfavml/src/mem_loader.rs:74-81 | projecting succeeds exactly when the operand is a scalar or a slice of the requested length, and then has that length; otherwise the `assert_eq!` panics |
| MemLoader.UnprojectedLen | cfavml/src/mem_loader.rs:83-90 | an unprojected loader has the slice's own length, or 1 for a scalar (lines 105-111) |
| MemLoader.Elements | cfavml/src/mem_loader.rs:180-209 | a loader of length `n` stands for `n` elements; a scalar's are all its value |
| MemLoader.LoadFill | cfavml/src/mem_loader.rs:194-199 | any window of a broadcast value loads as `filled_dense(value)` |
| MemLoader.LoadFillOne | cfavml/src/mem_loader.rs:201-204 | one register of a broadcast value loads as `filled(value)` |
| MemLoader.Loader.TrueLen | cfavml/src/mem_loader.rs:140-143 | `true_len` is the slice length, or 1 for a scalar (lines 184-187) |
| MemLoader.Loader.LoadDense | cfavml/src/mem_loader.rs:150-157 | `load_dense` returns the dense lane at the cursor and advances it by `elements_per_dense`; a scalar returns `filled_dense(value)` and does not move (lines 194-199) |
| MemLoader.Loader.Load | cfavml/src/mem_loader.rs:159-164 | `load` returns the register at the cursor and advances it by `elements_per_lane`; a scalar returns `filled(value)` |
| MemLoader.Loader.Read | cfavml/src/mem_loader.rs:166-170 | `read` returns the element at the cursor and advances it by one; a scalar returns its value |
| MemLoader.IntoMemLoader | cfavml/src/mem_loader.rs:83-90 | `into_mem_loader` never panics and starts its cursor at 0 |
| MemLoader.IntoProjectedMemLoader | cfavml/src/mem_loader.rs:74-81 | `into_projected_mem_loader` fails exactly when a slice's length is not the projected length (scalars, lines 98-103, always project) |
| MemLoader.ReadPrefix | cfavml/src/mem_loader.rs:166-170 | `n` successive reads yield the first `n` elements in order, or `n` copies of a scalar |
| MemLoader.LoaderExamples | cfavml/src/mem_loader.rs:215-247 | a scalar projected onto 10 reads its value ten times, a slice reads its elements in order, and projecting a 3-slice onto 10 panics |
| Boilerplate.StoreNext | cfavml/src/danger/core_routine_boilerplate.rs:38-44 | writing the next piece of the result after a prefix that already holds it extends the prefix |
| Boilerplate.UpdateNext | cfavml/src/danger/core_routine_boilerplate.rs:56-61 | the same for one element written with `write_at` |
| Boilerplate.DensePiece | cfavml/src/danger/core_routine_boilerplate.rs:96-100 | `op_dense` of the dense lanes of `a` and `b` at `i` is the element-wise op over the window `[i, i + 8L)` |
| Boilerplate.RegPiece | cfavml/src/danger/core_routine_boilerplate.rs:107-111 | the register op of the registers of `a` and `b` at `i` is the element-wise op over `[i, i + L)` |
| Boilerplate.WriteDensePiece | cfavml/src/danger/core_routine_boilerplate.rs:41 | writing the next dense piece extends the finished prefix by `8 * L` slots, each written once |
| Boilerplate.WriteRegPiece | cfavml/src/danger/core_routine_boilerplate.rs:51 | writing the next register extends the finished prefix by `L` slots |
| Boilerplate.WriteElement | cfavml/src/danger/core_routine_boilerplate.rs:58 | `write_at` of the next element extends the finished prefix by one slot |
| Boilerplate.DenseMask | cfavml/src/danger/core_routine_boilerplate.rs:39-40 | the dense lane of `a` at `i` combined with `value_dense` (or the lane of `b`) is the next `8 * L` elements of the result |
| Boilerplate.DenseStep | cfavml/src/danger/core_routine_boilerplate.rs:38-44 | one dense iteration extends the finished prefix by `8 * L` |
| Boilerplate.RegMask | cfavml/src/danger/core_routine_boilerplate.rs:49-50 | the register of `a` at `i` combined with `value_reg` (or `b`'s register) is the next `L` elements of the result |
| Boilerplate.RegStep | cfavml/src/danger/core_routine_boilerplate.rs:48-54 | one register iteration extends the finished prefix by `L` |
| Boilerplate.DensePhase | cfavml/src/danger/core_routine_boilerplate.rs:37-44 | the dense loop ends at `dims - dims % 8L` with exactly that prefix finished |
| Boilerplate.RegPhase | cfavml/src/danger/core_routine_boilerplate.rs:47-54 | the register loop ends at `dims - (dims % 8L) % L` with that prefix finished |
| Boilerplate.TailPhase | cfavml/src/danger/core_routine_boilerplate.rs:56-61 | the scalar tail ends at `dims` with the whole result finished |
| Boilerplate.ThreePhases | cfavml/src/danger/core_routine_boilerplate.rs:32-61 | the three phases together write `op(a[i], rhs[i])` to every slot below `dims`, each exactly once, and leave the slots from `dims` on untouched |
| Boilerplate.ApplyVectorXValue | cfavml/src/danger/core_routine_boilerplate.rs:6-62 | `result[i] = op(a[i], value)` for every `i < dims`, each slot written once, nothing past `dims` touched, `a` unchanged |
| Boilerplate.ApplyVectorXVector | cfavml/src/danger/core_routine_boilerplate.rs:65-123 | `result[i] = op(a[i], b[i])` for every `i < dims`, each slot written once, nothing past `dims` touched, `a` and `b` unchanged |
| VerticalKernel.DenseStep | cfavml/src/mem_loader.rs:150-157 | one dense step through two loaders advances both to `j` and extends the finished prefix to `j` |
| VerticalKernel.RegStep | cfavml/src/mem_loader.rs:159-164 | one register step through two loaders advances both by `L` and extends the finished prefix |
| VerticalKernel.ElementStep | cfavml/src/mem_loader.rs:166-170 | one element read from each loader extends the finished prefix by one |
| VerticalKernel.DensePhase | cfavml/src/mem_loader.rs:150-157 | the dense loop through two loaders finishes the prefix up to `end` |
| VerticalKernel.RegPhase | cfavml/src/mem_loader.rs:159-164 | the register loop through two loaders finishes the prefix up to `end` |
| VerticalKernel.TailPhase | cfavml/src/mem_loader.rs:166-170 | the element loop finishes the whole buffer |
| VerticalKernel.Phases | cfavml/src/danger/op_arithmetic_vertical.rs:26-33 | the three phases through two loaders write `op(a[i], b[i])` to every slot exactly once |
| VerticalKernel.ApplyVertical | cfavml/src/danger/op_arithmetic_vertical.rs:26-33 | panics with nothing written unless both operands project onto the result length; otherwise `result[i] = op(a[i], b[i])` over the whole buffer, a scalar standing for its value at every index, each slot written once |
| MaxMinOps.MaxHorizontal | cfavml/src/danger/op_max.rs:12-56 | the horizontal max is the `cmp_max` fold from `M::min()`: it bounds every element, is one of them, and is `M::min()` when `dims` is 0 |
| MaxMinOps.MinHorizontal | cfavml/src/danger/op_min.rs:12-56 | the horizontal min is the `cmp_min` fold from `M::max()`: a lower bound of every element, one of them, `M::max()` when empty |
| MaxMinOps.MaxVertical | cfavml/src/danger/op_max.rs:73-120 | `result[i] = cmp_max(a[i], b[i])` below `dims`, each slot written once, nothing past `dims` touched; `result` only needs `dims` slots |
| MaxMinOps.MinVertical | cfavml/src/danger/op_min.rs:73-120 | `result[i] = cmp_min(a[i], b[i])` below `dims`, each slot written once, nothing past `dims` touched |
| MaxMinOps.MaxVectorXValue | cfavml/src/danger/op_max.rs:134-180 | `result[i] = cmp_max(a[i], value)` below `dims`, each slot written once |
| MaxMinOps.MinVectorXValue | cfavml/src/danger/op_min.rs:131-177 | `result[i] = cmp_min(a[i], value)` below `dims`, each slot written once |
| MaxMinOps.GenericCmpMax | cfavml/src/danger/op_cmp_max.rs:14-59 | the `cmp_max` fold over the loader's `projected_len` elements; an unprojected single value is its own max, an empty slice gives `M::min()` |
| MaxMinOps.GenericCmpMin | cfavml/src/danger/op_cmp_min.rs:15-60 | the `cmp_min` fold over the loader's elements; a single value is its own min, an empty slice gives `M::max()` |
| MaxMinOps.CmpMaxVertical | cfavml/src/danger/op_cmp_max.rs:73-95 | panics with nothing written unless both operands project onto the result length; otherwise `result[i] = cmp_max(a[i], b[i])`, a single value standing for itself at every index |
| MaxMinOps.CmpMinVertical | cfavml/src/danger/op_cmp_min.rs:74-96 | the same with `cmp_min` |
| AggregateOps.Products | cfavml/src/test_utils.rs:74-86 | the exact products `x[i] * y[i]`, one per index of `x` |
| AggregateOps.SquaredDiffs | cfavml/src/test_utils.rs:106-119 | the exact squared differences `(x[i] - y[i])^2`, one per index of `x` |
| AggregateOps.AccumulateProduct | cfavml/src/danger/op_norm.rs:48-53 | one more `add(acc, mul(x[i], y[i]))` on a running total that is the wrapped exact sum of the first `i` products gives the wrapped exact sum of `i + 1` |
| AggregateOps.AccumulateSquaredDiff | cfavml/src/danger/op_euclidean.rs:29-49 | one more `fmadd(diff, diff, total)` with `diff = sub(x[i], y[i])` extends the wrapped exact sum of squared differences by one term |
| AggregateOps.SquaredDiffWraps | cfavml/src/danger/op_euclidean.rs:29-49 | the wrapped square of a wrapped difference is the wrapped square of the exact difference |
| AggregateOps.DotIsWrappedSum | cfavml/src/danger/op_cosine.rs:66 | the dot-product reduction is the exact dot product wrapped once, whatever the grouping |
| AggregateOps.NormIsWrappedSum | cfavml/src/danger/op_norm.rs:12-56 | the squared-norm reduction is the exact sum of squares wrapped once |
| AggregateOps.EuclideanIsWrappedSum | cfavml/src/danger/op_euclidean.rs:12-64 | the Euclidean reduction is the exact sum of squared differences wrapped once |
| AggregateOps.SumHorizontal | cfavml/src/danger/op_sum.rs:12-56 | the `M::add` fold from `M::zero()`, equal to the exact sum wrapped to the type; zero for an empty input |
| AggregateOps.SquaredNorm | cfavml/src/danger/op_norm.rs:12-56 | the exact sum of `a[i] * a[i]`, wrapped; zero for an empty input |
| AggregateOps.Euclidean | cfavml/src/danger/op_euclidean.rs:12-64 | the exact sum of `(a[i] - b[i])^2`, wrapped; zero for empty inputs |
| AggregateOps.DotProduct | cfavml/src/danger/op_cosine.rs:66 | the dot product `generic_cosine` calls is the exact sum of `a[i] * b[i]`, wrapped |
| AggregateOps.Cosine | cfavml/src/danger/op_cosine.rs:71-83 | zero when both norms are zero, one when exactly one is, otherwise `1 - dot / sqrt(norm_x * norm_y)`; the only failure is an integer division by a zero root |
| AggregateOps.GenericCosine | cfavml/src/danger/op_cosine.rs:12-68 | `cosine` of the exact dot product and the two exact squared norms, each wrapped once |
| Reductions.Terms | cfavml/src/danger/op_euclidean.rs:29-49 | one term per index: `a[i]`, `a[i]^2`, `a[i] * b[i]` or `(a[i] - b[i])^2` as the kernel requires |
| Reductions.Seed | cfavml/src/danger/op_sum.rs:23 | the dense accumulator starts as `8 * L` copies of the reduction's start value: `zeroed_dense()`, or `filled_dense(M::min())` for max (op_max.rs:23) |
| Reductions.RegStep | cfavml/src/danger/op_sum.rs:38-43 | a register step keeps the accumulator's width |
| Reductions.TermsInRange | cfavml/src/danger/op_norm.rs:12-56 | every term of in-range operands is in range |
| Reductions.ScalarStepFold | cfavml/src/danger/op_sum.rs:48-53 | the scalar tail step (`M::add(sum, a)`, `cmp_max`, `M::add(total, M::mul(a, a))`, ...) combines the accumulator with the next term |
| Reductions.RegStepFold | cfavml/src/danger/op_sum.rs:38-43 | the register step combines the accumulator's reduction with the reduction of the next register's terms |
| Reductions.DenseStepFlatten | cfavml/src/danger/op_sum.rs:27-32 | the dense step (`add_dense`, `max_dense`, `min_dense`) is the register step over the flattened lanes |
| Reductions.FmAddStepFlatten | cfavml/src/danger/op_norm.rs:25-33 | the `fmadd_dense` steps of the norm, dot and Euclidean kernels are the register step over the flattened lanes |
| Reductions.FoldExtend | cfavml/src/danger/op_sum.rs:25-53 | reducing the terms before `i` and then those in `[i, j)` reduces the terms before `j` |
| Reductions.DenseApply | cfavml/src/danger/op_sum.rs:28-29 | one dense step at `i` applies the register step to the window `[i, j)` |
| Reductions.DenseAccumulate | cfavml/src/danger/op_sum.rs:27-32 | after a dense step the accumulator reduces to the reduction of the terms before `j` |
| Reductions.WindowStep | cfavml/src/danger/op_sum.rs:38-43 | a step over the window `[i, j)` keeps the accumulator equal to the reduction of the terms before `j` |
| Reductions.RegAccumulate | cfavml/src/danger/op_sum.rs:39-40 | after a register step the accumulator reduces to the reduction of the terms before `j` |
| Reductions.SeedAccumulator | cfavml/src/danger/op_sum.rs:23 | the seeded accumulator holds no contribution |
| Reductions.Collapse | cfavml/src/danger/op_sum.rs:34 | `sum_to_register` (and the max/min forms) collapse the dense accumulator to one register with the same reduction |
| Reductions.DensePhase | cfavml/src/danger/op_sum.rs:26-32 | after the dense loop the accumulator reduces to the reduction of the terms before `dims - dims % 8L` |
| Reductions.RegPhase | cfavml/src/danger/op_sum.rs:37-43 | after the register loop the accumulator reduces to the terms before `dims - (dims % 8L) % L` |
| Reductions.TailPhase | cfavml/src/danger/op_sum.rs:46-55 | after `sum_to_value` and the scalar tail the result is the reduction of all the terms |
| Reductions.Horizontal | cfavml/src/danger/op_sum.rs:12-56 | every horizontal kernel (sum, max, min, norm, dot, Euclidean) returns the sequential fold of its terms, whatever the register width `L` |
| DangerUtils.MmShuffleFields | cfavml/src/danger/utils.rs:10-12 | for selectors below 4 `_MM_SHUFFLE` fits in one byte and each selector sits in its own two bits, `z` highest |
| DangerUtils.Cosine | cfavml/src/danger/utils.rs:15-27 | `utils::cosine` gives zero when either norm is zero, and fails only on an integer division by a zero root |
| DangerUtils.CosineVariants | cfavml/src/danger/utils.rs:15-27 | the two `cosine`s agree except when exactly one norm is zero, where this one gives zero and `op_cosine`'s (op_cosine.rs:71-83) gives one |
| DangerUtils.RollupScalarX8 | cfavml/src/danger/utils.rs:218-237 | the rollup is a value of the type |
| DangerUtils.RollupIsWrappedSum | cfavml/src/danger/utils.rs:218-237 | `rollup_scalar_x8` is the exact sum of the eight accumulators wrapped once: the pairing order does not matter |
| DangerUtils.RollupIsTree8 | cfavml/src/danger/utils.rs:218-237 | the rollup is the balanced pairwise tree of the sum reduction |
| DangerUtils.RollupExamples | cfavml/src/danger/utils.rs:377-385 | eight zeros roll up to 0 and eight ones to 8, in every integer type |
| DangerUtils.Offsets | cfavml/src/danger/utils.rs:166-213 | a chunk has exactly four register offsets |
| DangerUtils.OffsetsAvx2Ps | cfavml/src/danger/utils.rs:166-175 | `offsets_avx2_ps::<C>` are the four offsets of chunk `C` for eight-lane registers |
| DangerUtils.OffsetsAvx2Pd | cfavml/src/danger/utils.rs:178-187 | `offsets_avx2_pd::<C>` are those for four-lane registers |
| DangerUtils.OffsetsAvx512Ps | cfavml/src/danger/utils.rs:191-200 | `offsets_avx512_ps::<C>` are those for sixteen-lane registers |
| DangerUtils.OffsetsAvx512Pd | cfavml/src/danger/utils.rs:204-213 | `offsets_avx512_pd::<C>` are those for eight-lane registers |
| DangerUtils.OffsetsTile | cfavml/src/danger/utils.rs:166-213 | offset `k` of chunk `C` starts register `4C + k`, so the registers of successive chunks tile memory with no gap and no overlap |
| DangerUtils.OffsetsChunkZero | cfavml/src/danger/utils.rs:357-375 | chunk 0 gives 0, 8, 16, 24 for `avx2_ps` and 0, 16, 32, 48 for `avx512_ps`, as the tests expect |
| DangerUtils.CopyMaskedRegisterTo | cfavml/src/danger/utils.rs:308-330 | copies exactly `min(len, register width)` elements to the front of `arr` and leaves the rest untouched |
| DangerUtils.CopyRegisterTo | cfavml/src/danger/utils.rs:336-348 | copies the whole register to the front of `arr` and leaves the rest untouched |
| FallbackAlgebra.Tree8Seed | cfavml/src/danger/generic_fallback_max.rs:18-25 | seven accumulators still at the start value add nothing to the roll-up |
| FallbackAlgebra.FoldPrefixStep | cfavml/src/danger/generic_fallback_max.rs:28-36 | one more element on a running fold of a prefix (a one-step unfolding the loop invariants use) |
| FallbackAlgebra.FoldSliceStep | cfavml/src/danger/generic_fallback_sum.rs:101-109 | one more element on a running fold of a slice (a one-step unfolding the loop invariants use) |
| FallbackAlgebra.FoldSplit | cfavml/src/danger/generic_fallback_sum.rs:72-109 | the fold of the whole combines the folds of a prefix and of the rest, in either order, so the tail may be added last |
| FallbackAlgebra.LanesRollup | cfavml/src/danger/generic_fallback_max.rs:57-65 | eight lanes rolled up through the pairwise tree give their sequential fold |
| FallbackAlgebra.SumLanesRollup | cfavml/src/danger/utils.rs:218-237 | the nest of wrapping adds the sum kernels write out adds eight lanes that fold to the fold of `s` up to that fold |
| FallbackAlgebra.LanesSeed | cfavml/src/danger/generic_fallback_max.rs:18-25 | a value in the first lane and the start value in the other seven fold to that value |
| FallbackAlgebra.LanesStep | cfavml/src/danger/generic_fallback_max.rs:38-55 | one pass of the eight-wide loop, each lane combined with its own term, extends the consumed window by eight and keeps the lanes folding to its fold |
| FallbackAlgebra.LanesZip | cfavml/src/danger/generic_fallback_max.rs:38-55 | eight lanes combined lane by lane with eight terms are the lane-wise application of the reduction's op |
| FallbackElementwise.ValueBlock | cfavml/src/danger/generic_fallback_vector_x_value.rs:78-96 | one eight-wide pass rewrites slots `i..i+8` as `op(old, value)` and leaves every other slot alone |
| FallbackElementwise.ValueBlocks | cfavml/src/danger/generic_fallback_vector_x_value.rs:76-97 | the eight-wide loop rewrites exactly the slots below `len - len % 8` |
| FallbackElementwise.ValueTail | cfavml/src/danger/generic_fallback_vector_x_value.rs:99-104 | the one-slot loop rewrites exactly the slots from its start to `len` |
| FallbackElementwise.ValueImpl | cfavml/src/danger/generic_fallback_vector_x_value.rs:68-105 | `generic_xany_fallback_{mul,add,sub}_impl`: the contents become `op(old[i], value)` at every index, each slot rewritten once, the length kept |
| FallbackElementwise.MulValue | cfavml/src/danger/generic_fallback_vector_x_value.rs:27-33 | every `arr[i]` becomes `M::mul(old arr[i], multiplier)` |
| FallbackElementwise.AddValue | cfavml/src/danger/generic_fallback_vector_x_value.rs:43-49 | every `arr[i]` becomes `M::add(old arr[i], value)` |
| FallbackElementwise.SubValue | cfavml/src/danger/generic_fallback_vector_x_value.rs:59-65 | every `arr[i]` becomes `M::sub(old arr[i], value)` |
| FallbackElementwise.DivValue | cfavml/src/danger/generic_fallback_vector_x_value.rs:11-17 | panics, changing nothing, exactly when the divider is zero; otherwise multiplies every element by `div(one, divider)` rather than dividing it |
| FallbackElementwise.Reciprocal | cfavml/src/danger/generic_fallback_vector_x_value.rs:11-17 | for integers `div(one, d)` is 0 when `d` has magnitude above one and 1 when `d` is one |
| FallbackElementwise.DivValueByReciprocal | cfavml/src/danger/generic_fallback_vector_x_value.rs:11-17 | so `div_value` by an integer of magnitude above one writes zeros everywhere, and by one leaves every element as it was |
| FallbackElementwise.SubValueUndoesAddValue | cfavml/src/danger/generic_fallback_vector_x_value.rs:108-185 | `sub_value` by `v` after `add_value` by `v` gives back every element |
| FallbackElementwise.SubUndoesAdd | cfavml/src/math/default.rs:236-244 | `sub(add(a, v), v) == a` in every integer type |
| FallbackElementwise.OpBlock | cfavml/src/danger/generic_fallback_vector_x_vector.rs:112-139 | one eight-wide pass rewrites `x[i..i+8]` as `op(old x, y)` and leaves every other slot alone |
| FallbackElementwise.OpBlocks | cfavml/src/danger/generic_fallback_vector_x_vector.rs:110-140 | the eight-wide loop rewrites exactly the slots below `len - len % 8` |
| FallbackElementwise.OpTail | cfavml/src/danger/generic_fallback_vector_x_vector.rs:142-149 | the one-slot loop rewrites exactly the slots from its start to `len` |
| FallbackElementwise.OpVertical | cfavml/src/danger/generic_fallback_vector_x_vector.rs:100-150 | `f32_op_vertical`: `x[i]` becomes `op(old x[i], y[i])` at every index, and `y` is not modified |
| FallbackElementwise.DivVertical | cfavml/src/danger/generic_fallback_vector_x_vector.rs:19-25 | every `x[i]` becomes `div(old x[i], y[i])` |
| FallbackElementwise.MulVertical | cfavml/src/danger/generic_fallback_vector_x_vector.rs:43-49 | every `x[i]` becomes `mul(old x[i], y[i])` |
| FallbackElementwise.AddVertical | cfavml/src/danger/generic_fallback_vector_x_vector.rs:67-73 | every `x[i]` becomes `add(old x[i], y[i])` |
| FallbackElementwise.SubVertical | cfavml/src/danger/generic_fallback_vector_x_vector.rs:91-97 | every `x[i]` becomes `sub(old x[i], y[i])`: it subtracts, whatever its doc comment says |
| FallbackElementwise.SubVerticalUndoesAddVertical | cfavml/src/danger/generic_fallback_vector_x_vector.rs:67-97 | `sub_vertical` with the same `y` after `add_vertical` gives back `x` |
| FallbackReductions.MaxBlock | cfavml/src/danger/generic_fallback_max.rs:35-55 | one pass of the eight-wide loop extends the consumed prefix by eight and the accumulators still fold to its max |
| FallbackReductions.MinBlock | cfavml/src/danger/generic_fallback_min.rs:35-55 | the same for the min kernel |
| FallbackReductions.SumBlock | cfavml/src/danger/generic_fallback_sum.rs:72-92 | one eight-wide pass of `sum` keeps the accumulators summing to the sum of the consumed prefix |
| FallbackReductions.DotBlock | cfavml/src/danger/generic_fallback_dot_product.rs:55-84 | one eight-wide pass of `fallback_dot` keeps the accumulators summing to the sum of the consumed products |
| FallbackReductions.EuclidBlock | cfavml/src/danger/generic_fallback_euclidean.rs:62-100 | one eight-wide pass of `fallback_euclidean` keeps the accumulators summing to the consumed squared differences |
| FallbackReductions.MaxHorizontal | cfavml/src/danger/generic_fallback_max.rs:10-66 | the `len % 8` leading elements and then the eight-wide loop give the `cmp_max` fold from `min()`: an upper bound of every element, one of them, `min()` when empty |
| FallbackReductions.MinHorizontal | cfavml/src/danger/generic_fallback_min.rs:10-66 | the `cmp_min` fold from `max()`: a lower bound of every element, one of them, `max()` when empty |
| FallbackReductions.SumLanes | cfavml/src/danger/generic_fallback_sum.rs:71-92 | the eight-wide loop over the first `len - len % 8` elements leaves accumulators summing to that prefix |
| FallbackReductions.SumTail | cfavml/src/danger/generic_fallback_sum.rs:94-99 | `extra` is the sum of the leftover elements |
| FallbackReductions.SumHorizontal | cfavml/src/danger/generic_fallback_sum.rs:53-110 | the horizontal sum, with the leftovers added last, is the `add` fold from zero, equal to the exact sum wrapped once; zero when empty |
| FallbackReductions.DotPrefix | cfavml/src/danger/generic_fallback_dot_product.rs:46-53 | the leading loop puts the sum of the first `len % 8` products in `acc1` |
| FallbackReductions.DotLanes | cfavml/src/danger/generic_fallback_dot_product.rs:55-84 | after the eight-wide loop the accumulators sum to the sum of all the products |
| FallbackReductions.Dot | cfavml/src/danger/generic_fallback_dot_product.rs:20-87 | `fallback_dot` is the exact dot product wrapped once, which is also the fold the SIMD dot kernel computes |
| FallbackReductions.EuclidPrefix | cfavml/src/danger/generic_fallback_euclidean.rs:51-60 | the leading loop puts the sum of the first `len % 8` squared differences in `extra` |
| FallbackReductions.EuclidLanes | cfavml/src/danger/generic_fallback_euclidean.rs:62-100 | after the eight-wide loop the accumulators sum to the rest of the squared differences |
| FallbackReductions.Euclidean | cfavml/src/danger/generic_fallback_euclidean.rs:24-104 | `rollup_scalar_x8(...) + extra` is the exact sum of squared differences wrapped once |
| FallbackReductions.Cosine | cfavml/src/danger/generic_fallback_cosine.rs:15-24 | the fallback cosine is `op_cosine`'s `cosine` of the exact dot product and the two exact squared norms, each wrapped once |
| FallbackVertical.Column | cfavml/src/danger/generic_fallback_max.rs:101-103 | column `j` of the matrix, one entry per row, top to bottom |
| FallbackVertical.ColumnInRange | cfavml/src/danger/generic_fallback_max.rs:77-152 | the column of an in-range matrix is in range |
| FallbackVertical.ColumnMaxMin | cfavml/src/danger/generic_fallback_max.rs:77-152 | the max fold of a column bounds every entry and is one of them; the min fold likewise from below |
| FallbackVertical.ColumnBlock | cfavml/src/danger/generic_fallback_max.rs:90-134 | the inner row loop of an eight-wide pass leaves each of the eight accumulators holding the fold of its own column |
| FallbackVertical.ColumnPass | cfavml/src/danger/generic_fallback_max.rs:136-149 | the inner row loop of a single-column pass leaves the accumulator holding the fold of the column |
| FallbackVertical.StoreBlock | cfavml/src/danger/generic_fallback_max.rs:124-131 | the eight stores of a pass put the eight accumulators in their slots and touch no earlier slot |
| FallbackVertical.BlockPass | cfavml/src/danger/generic_fallback_max.rs:90-134 | one eight-wide pass stores the folds of columns `i..i+8` and keeps the earlier slots |
| FallbackVertical.BlockedColumns | cfavml/src/danger/generic_fallback_max.rs:89-134 | the eight-wide passes leave every slot below their end holding its column's fold |
| FallbackVertical.TailColumns | cfavml/src/danger/generic_fallback_max.rs:136-149 | the single-column passes finish every slot up to `len` |
| FallbackVertical.AccumulateColumn | cfavml/src/danger/generic_fallback_sum.rs:124-134 | one leading column of `sum_vertical` is summed in place into its zeroed slot; no other slot changes |
| FallbackVertical.LeadingColumns | cfavml/src/danger/generic_fallback_sum.rs:123-135 | the first `len % 8` columns of `sum_vertical`, one at a time, hold their sums |
| FallbackVertical.MaxMinVertical | cfavml/src/danger/generic_fallback_max.rs:77-152 | the vertical max (and, in generic_fallback_min.rs, min) gives `len` slots, slot `j` the fold of column `j` |
| FallbackVertical.MaxVertical | cfavml/src/danger/generic_fallback_max.rs:77-152 | panics on an empty matrix; otherwise the output has the first row's length and slot `j` is the max of column `j`: an upper bound of the column and one of its entries |
| FallbackVertical.MinVertical | cfavml/src/danger/generic_fallback_min.rs:77-152 | panics on an empty matrix; otherwise slot `j` is the min of column `j`: a lower bound of the column and one of its entries |
| FallbackVertical.SumVertical | cfavml/src/danger/generic_fallback_sum.rs:113-183 | panics on an empty matrix; otherwise slot `j` is the sum of column `j`, the exact column sum wrapped once |
| Dispatch.IsAvailable | cfavml/src/dispatch.rs:88-156 | a probe is true whenever the feature is enabled at compile time, false without `std` and without that feature, and otherwise true only if run-time detection reports it |
| Dispatch.AvailableMonotone | cfavml/src/dispatch.rs:88-156 | a machine that reports more features never turns a probe false |
| Dispatch.Rank | cfavml/src/dispatch.rs:50-78 | the five arms have distinct places in the order avx512, avx2fma, avx2, neon, fallback |
| Dispatch.Select | cfavml/src/dispatch.rs:42-80 | the arm that runs fires, and no arm earlier in the priority order fires |
| Dispatch.SelectUnique | cfavml/src/dispatch.rs:50-78 | exactly one arm runs: any firing arm with no higher-priority arm firing is the selected one |
| Dispatch.Avx2FmaNeedsBoth | cfavml/src/dispatch.rs:57-62 | the avx2fma arm runs only when both the AVX2 and the FMA probes are true, and with both true nothing below it runs |
| Dispatch.FallbackWhenNothingElse | cfavml/src/dispatch.rs:42-80 | the mandatory fallback runs if and only if no optional arm fires |
| Dispatch.NoStdNoFeatures | cfavml/src/dispatch.rs:88-118 | without `std`, a build that enables no target feature always runs the fallback, whatever the CPU reports |
| Dispatch.ArchSeparates | cfavml/src/dispatch.rs:50-76 | the x86 arms never run on aarch64 and the NEON arm never runs on x86 |
| Dispatch.NoFmaArmsFallThrough | cfavml/src/safe_trait_agg_ops.rs:36-42 | an invocation without an avx2fma arm never picks it; it chooses as the full chain does except that it drops from FMA to plain AVX2 |
| SafeTraitOps.PrimitiveOf | cfavml/src/safe_trait_arithmetic_ops.rs:424-431 | the eight integer instantiations of the macros are none of the float ones |
| SafeTraitOps.DistanceArms | cfavml/src/safe_trait_distance_ops.rs:97-231 | `float_distance_ops!` names the avx2fma arm and `scalar_distance_ops!` does not; both name avx512, avx2 and neon |
| SafeTraitOps.IntegerDistanceNeverFma | cfavml/src/safe_trait_distance_ops.rs:170-228 | no integer instantiation of a distance op ever runs an FMA kernel |
| SafeTraitOps.ValueOp | cfavml/src/safe_trait_arithmetic_ops.rs:239-259 | panics, writing nothing, unless `a` and `result` both have length `dims`; otherwise `result[i] = op(a[i], value)`, each slot written once, whatever backend is selected |
| SafeTraitOps.VectorOp | cfavml/src/safe_trait_arithmetic_ops.rs:261-282 | panics, writing nothing, unless `a`, `b` and `result` all have length `dims`; otherwise `result[i] = op(a[i], b[i])`, each slot written once |
| SafeTraitOps.AddValue | cfavml/src/safe_trait_arithmetic_ops.rs:239-259 | the length panic exactly when `a` or `result` differs from `dims`; otherwise wrapping `a[i] + value` |
| SafeTraitOps.SubValue | cfavml/src/safe_trait_arithmetic_ops.rs:284-304 | the same checks; otherwise `a[i] - value`, the vector on the left |
| SafeTraitOps.MulValue | cfavml/src/safe_trait_arithmetic_ops.rs:329-349 | the same checks; otherwise wrapping `a[i] * value` |
| SafeTraitOps.DivValue | cfavml/src/safe_trait_arithmetic_ops.rs:374-394 | the same checks; otherwise `a[i] / value`, the vector on the left |
| SafeTraitOps.AddVector | cfavml/src/safe_trait_arithmetic_ops.rs:261-282 | the length panic exactly when `a`, `b` or `result` differs from `dims`; otherwise wrapping `a[i] + b[i]` |
| SafeTraitOps.SubVector | cfavml/src/safe_trait_arithmetic_ops.rs:306-327 | the same checks; otherwise `a[i] - b[i]` |
| SafeTraitOps.MulVector | cfavml/src/safe_trait_arithmetic_ops.rs:351-372 | the same checks; otherwise wrapping `a[i] * b[i]` |
| SafeTraitOps.DivVector | cfavml/src/safe_trait_arithmetic_ops.rs:396-417 | the same checks; otherwise `a[i] / b[i]` |
| SafeTraitOps.Max | cfavml/src/safe_trait_cmp_ops.rs:603-615 | panics exactly when `a.len() != dims`; otherwise the horizontal max: bounds every element, is one of them, `T::MIN` when empty |
| SafeTraitOps.Min | cfavml/src/safe_trait_cmp_ops.rs:662-674 | panics exactly when `a.len() != dims`; otherwise the horizontal min: below every element, one of them, `T::MAX` when empty |
| SafeTraitOps.MaxValue | cfavml/src/safe_trait_cmp_ops.rs:617-637 | the length panic exactly when `a` or `result` differs from `dims`; otherwise `result[i]` is the larger of `value` and `a[i]` |
| SafeTraitOps.MaxVector | cfavml/src/safe_trait_cmp_ops.rs:639-660 | the length panic exactly when `a`, `b` or `result` differs from `dims`; otherwise `result[i]` is the larger of `a[i]` and `b[i]` |
| SafeTraitOps.MinValue | cfavml/src/safe_trait_cmp_ops.rs:676-696 | as `max_value` with the smaller |
| SafeTraitOps.MinVector | cfavml/src/safe_trait_cmp_ops.rs:698-719 | as `max_vector` with the smaller |
| SafeTraitOps.Dot | cfavml/src/safe_trait_distance_ops.rs:185-198 | panics exactly when `a` or `b` differs from `dims`; otherwise the exact dot product wrapped once |
| SafeTraitOps.SquaredEuclidean | cfavml/src/safe_trait_distance_ops.rs:200-214 | panics exactly when `a` or `b` differs from `dims`; otherwise the sum of `(a[i] - b[i])^2` wrapped once |
| SafeTraitOps.SquaredNorm | cfavml/src/safe_trait_distance_ops.rs:216-228 | panics exactly when `a.len() != dims`; otherwise the sum of squares wrapped once |
| SafeTraitOps.Cosine | cfavml/src/safe_trait_distance_ops.rs:170-183 | panics when `a` or `b` differs from `dims`; otherwise the documented cosine distance (0 when both norms are zero, 1 when one is) of the wrapped dot product and norms |
| SafeTraitOps.Sum | cfavml/src/safe_trait_agg_ops.rs:32-44 | panics exactly when `a.len() != dims`; otherwise the `add` fold from zero, which is the exact sum wrapped once, and zero when empty |
| SafeSliceOps.XconstValueOp | cfavml/src/safe_arithmetic_ops.rs:126-147 | panics, writing nothing, exactly when `a` or the result is not `DIMS` long; otherwise `result[i] = op(a[i], value)` (also the `xconst` min/max value ops, cfavml/src/safe_min_max_sum_ops.rs:149-170) |
| SafeSliceOps.XanyValueOp | cfavml/src/safe_arithmetic_ops.rs:150-166 | panics, writing nothing, exactly when `a` and the result differ in length; otherwise `result[i] = op(a[i], value)` (also cfavml/src/safe_min_max_sum_ops.rs:173-189) |
| SafeSliceOps.XconstVectorOp | cfavml/src/safe_arithmetic_ops.rs:186-208 | panics, writing nothing, exactly when `a`, `b` or the result is not `DIMS` long; otherwise `result[i] = op(a[i], b[i])` (also the `xconst` min/max vertical ops, cfavml/src/safe_min_max_sum_ops.rs:83-105) |
| SafeSliceOps.XanyVectorOp | cfavml/src/safe_arithmetic_ops.rs:211-232 | panics, writing nothing, exactly when `b` or the result differs from `a` in length; otherwise `result[i] = op(a[i], b[i])` (also cfavml/src/safe_min_max_sum_ops.rs:108-129) |
| SafeSliceOps.UnitValueOps | cfavml/src/safe_arithmetic_ops.rs:1419-1466 | adding one then subtracting one gives `a` back, and multiplying or dividing by one leaves `a` unchanged |
| SafeSliceOps.ValueDocExamples | cfavml/src/safe_arithmetic_ops.rs:27-62 | `add_value(1, [1, 2, 3]) == [2, 3, 4]` and `sub_value(1, [1, 2, 3]) == [0, 1, 2]` |
| SafeSliceOps.VectorDocExamples | cfavml/src/safe_arithmetic_ops.rs:27-81 | `[1, 2, 3]` added to itself is `[2, 4, 6]` and multiplied by itself is `[1, 4, 9]` |
| SafeSliceOps.HorizontalKernel | cfavml/src/safe_min_max_sum_ops.rs:38-63 | whatever backend is dispatched, the horizontal kernel returns the monoid's fold of the input |
| SafeSliceOps.XconstHorizontal | cfavml/src/safe_min_max_sum_ops.rs:38-50 | panics exactly when `a.len() != DIMS`; otherwise the fold of `add`, `cmp_max` or `cmp_min` from `zero()`, `min()` or `max()` |
| SafeSliceOps.XanyHorizontal | cfavml/src/safe_min_max_sum_ops.rs:53-63 | no check; the sum is the exact sum wrapped once, the max and min bound every element and are one of them, and an empty input gives the identity, as the tests at 1256-1310 expect |
| SafeSliceOps.XconstDistanceAsWritten | cfavml/src/safe_distance_ops.rs:49-61 | as written: panics exactly when `a.len() != b.len()`; reads out of bounds exactly when the lengths agree but `DIMS` exceeds them; otherwise reduces only the first `DIMS` elements |
| SafeSliceOps.XconstDistanceGuardGap | cfavml/src/safe_distance_ops.rs:49-61 | with `DIMS = 4` and `[1, 2, 3]` the guard lets an out-of-bounds read through; with `DIMS = 2` the dot of `[1, 2, 3]` with itself comes out 5 instead of 14 |
| SafeSliceOps.XconstDistanceGuardFixed | cfavml/src/safe_distance_ops.rs:49-61 | with both slices `DIMS` long, the as-written function gives the full reduction |
| SafeSliceOps.XconstDot | cfavml/src/safe_distance_ops.rs:49-61 | with the intended guard: panics exactly when a slice is not `DIMS` long; otherwise the exact dot product wrapped once |
| SafeSliceOps.XconstSquaredEuclidean | cfavml/src/safe_distance_ops.rs:49-61 | with the intended guard: panics exactly when a slice is not `DIMS` long; otherwise the sum of squared differences wrapped once |
| SafeSliceOps.XconstCosine | cfavml/src/safe_distance_ops.rs:49-61 | with the intended guard: panics on a length mismatch; otherwise the documented cosine distance of the wrapped dot product and norms |
| SafeSliceOps.XanyDot | cfavml/src/safe_distance_ops.rs:65-77 | panics exactly when `a.len() != b.len()`; otherwise the exact dot product wrapped once |
| SafeSliceOps.XanySquaredEuclidean | cfavml/src/safe_distance_ops.rs:65-77 | panics exactly when `a.len() != b.len()`; otherwise the sum of squared differences wrapped once |
| SafeSliceOps.XanyCosine | cfavml/src/safe_distance_ops.rs:65-77 | panics on a length mismatch; otherwise the documented cosine distance of the wrapped dot product and norms |
| SafeSliceOps.DistanceTestValues | cfavml/src/safe_distance_ops.rs:583-614 | `[1, 2, 3, 4, 5]` dotted with itself is 55 and its squared Euclidean distance to itself is 0, as `simple_dot` and `simple_euclidean` give |
| SafeSliceOps.SumZeros | cfavml/src/safe_distance_ops.rs:605-614 | a sequence of zeros sums to zero, so identical vectors are at distance 0 |
| SafeSliceOps.NormArms | cfavml/src/safe_norm_ops.rs:112-264 | the `squared_norm` dispatch names the avx2fma arm exactly for `f32` and `f64` |
| SafeSliceOps.XconstSquaredNorm | cfavml/src/safe_norm_ops.rs:85-96 | panics exactly when `a.len() != DIMS`; otherwise the sum of squares wrapped once |
| SafeSliceOps.XanySquaredNorm | cfavml/src/safe_norm_ops.rs:99-109 | no check; the sum of squares over `a.len()` elements wrapped once, zero when empty |
| SafeFunctionOps.Cosine | cfavml/src/safe_function_ops.rs:40-70 | panics on a length mismatch (and, for integers, on a zero root); otherwise 0 when both norms are zero, 1 when exactly one is, else `1 - dot / sqrt(norm_a * norm_b)` |
| SafeFunctionOps.Dot | cfavml/src/safe_function_ops.rs:108-117 | panics exactly on a length mismatch; otherwise the exact dot product wrapped once |
| SafeFunctionOps.SquaredEuclidean | cfavml/src/safe_function_ops.rs:156-165 | panics exactly on a length mismatch; otherwise the sum of squared differences wrapped once |
| SafeFunctionOps.SquaredNorm | cfavml/src/safe_function_ops.rs:198-205 | the sum of squares wrapped once; no panic |
| SafeFunctionOps.Sum | cfavml/src/safe_function_ops.rs:239-246 | the exact sum wrapped once, zero when empty |
| SafeFunctionOps.Max | cfavml/src/safe_function_ops.rs:251-290 | bounds every element from above, is one of them when there is one, and is `T::MIN` for an empty input |
| SafeFunctionOps.Min | cfavml/src/safe_function_ops.rs:419-456 | bounds every element from below, is one of them when there is one, and is `T::MAX` for an empty input |
| SafeFunctionOps.MaxVertical | cfavml/src/safe_function_ops.rs:311-412 | panics, writing nothing, exactly when an operand cannot be projected to the result's length; otherwise each slot is the larger of the two operands there |
| SafeFunctionOps.MinVertical | cfavml/src/safe_function_ops.rs:568-578 | the same panic; otherwise each slot is the smaller of the two operands there |
| SafeFunctionOps.EqVertical | cfavml/src/safe_function_ops.rs:611-726 | the same panic; otherwise each slot is 1 if the operands are equal there and 0 if not |
| SafeFunctionOps.NeqVertical | cfavml/src/safe_function_ops.rs:864-874 | the same panic; otherwise a 1/0 mask that is 1 exactly where the operands differ |
| SafeFunctionOps.LtVertical | cfavml/src/safe_function_ops.rs:1013-1023 | the same panic; otherwise a 1/0 mask that is 1 exactly where `lhs < rhs` |
| SafeFunctionOps.LteVertical | cfavml/src/safe_function_ops.rs:1163-1173 | the same panic; otherwise 1 exactly where `lhs <= rhs` |
| SafeFunctionOps.GtVertical | cfavml/src/safe_function_ops.rs:1312-1322 | the same panic; otherwise 1 exactly where `lhs > rhs` |
| SafeFunctionOps.GteVertical | cfavml/src/safe_function_ops.rs:1461-1471 | the same panic; otherwise 1 exactly where `lhs >= rhs` |
| SafeFunctionOps.AddVertical | cfavml/src/safe_function_ops.rs:1582-1592 | the same panic; otherwise each slot is the wrapping sum of the operands there |
| SafeFunctionOps.SubVertical | cfavml/src/safe_function_ops.rs:1703-1713 | the same panic; otherwise the wrapping difference `lhs - rhs` |
| SafeFunctionOps.MulVertical | cfavml/src/safe_function_ops.rs:1824-1834 | the same panic; otherwise the wrapping product |
| SafeFunctionOps.DivVertical | cfavml/src/safe_function_ops.rs:1965-1975 | the same panic; otherwise `lhs / rhs` truncated toward zero and wrapped |
| SafeFunctionOps.BroadcastFillsEverySlot | cfavml/src/safe_function_ops.rs:345-351 | two broadcast values always fit the result and fill every slot with `op(x, y)` |
| SafeFunctionOps.AddVerticalBroadcastExample | cfavml/src/safe_function_ops.rs:1527-1531 | `add_vertical(5, 5)` into four slots gives `[10, 10, 10, 10]` |
| SafeFunctionOps.SliceFitsOnlyItsOwnLength | cfavml/src/safe_function_ops.rs:381-384 | two slices fit a result exactly when both have its length; a slice beside a broadcast value fits exactly when the slice has the result's length |
| SafeFunctionOps.MasksAreZeroOrOne | cfavml/src/safe_function_ops.rs:611-615 | every slot of a comparison result is 0 or 1 |
| SafeFunctionOps.EmptyMaxMin | cfavml/src/safe_function_ops.rs:251-256 | the max of an empty input is `T::MIN` and the min is `T::MAX` |
| GemmTranspose.TransposeCell | cfavml-gemm/src/test_utils.rs:24-38 | `basic_transpose` gives a `width * height` buffer with `result[i * height + j] = data[j * width + i]` for every column `i` and row `j` |
| GemmTranspose.TransposeInvolution | cfavml-gemm/src/test_utils.rs:24-38 | transposing the transpose, with the dimensions swapped, gives the matrix back, so no cell is lost or duplicated |
| GemmTranspose.ThinMatrixIsItsTranspose | cfavml-gemm/src/transpose/mod.rs:20-23 | a matrix with one row or one column is its own transpose, which is why copying it is correct |
| GemmTranspose.Load4x4 | cfavml-gemm/src/transpose/impl_avx2_64bit.rs:111-124 | register `k` holds the four values at `offset + k * width`, one matrix row per register |
| GemmTranspose.TransposeDense | cfavml-gemm/src/transpose/impl_avx2_64bit.rs:139-157 | the 4x4 register transpose: value `c` of output register `k` is value `k` of input register `c` |
| GemmTranspose.StoreRegister | cfavml-gemm/src/transpose/impl_avx2_64bit.rs:133-136 | one store puts register `k` in rows `r0..r0+4` of result column `c0 + k` and writes nothing else |
| GemmTranspose.Store4x4 | cfavml-gemm/src/transpose/impl_avx2_64bit.rs:126-137 | register `k` lands at `offset + k * height`: the four registers fill exactly the 4x4 block of the result at the mirrored position |
| GemmTranspose.BlockDone | cfavml-gemm/src/transpose/impl_avx2_64bit.rs:30-34 | a loaded, transposed and stored 4x4 block leaves each of its cells holding the transposed value |
| GemmTranspose.Block4x4 | cfavml-gemm/src/transpose/impl_avx2_64bit.rs:30-34 | one load, transpose and store finishes exactly the 4x4 block at rows `r0..r0+4`, columns `c0..c0+4`; nothing outside it changes |
| GemmTranspose.Block8x8 | cfavml-gemm/src/transpose/impl_avx2_64bit.rs:24-70 | the four 4x4 sub-blocks at offsets 0 and 4 in each direction finish the 8x8 block and touch nothing outside it |
| GemmTranspose.BlockRowStep | cfavml-gemm/src/transpose/impl_avx2_64bit.rs:24-70 | one more 8x8 block extends the finished part of the row band by eight columns |
| GemmTranspose.BlockRow | cfavml-gemm/src/transpose/impl_avx2_64bit.rs:24-71 | the inner block loop finishes the row band up to `width - width % 8` and touches nothing else |
| GemmTranspose.Blocks | cfavml-gemm/src/transpose/impl_avx2_64bit.rs:18-74 | the block phase finishes every cell in rows below `height - height % 8` and columns below `width - width % 8` and nothing else |
| GemmTranspose.CopyCell | cfavml-gemm/src/transpose/impl_avx2_64bit.rs:80-81 | the scalar assignment `result[i * height + j] = data[j * width + i]` finishes that one cell |
| GemmTranspose.RowTail | cfavml-gemm/src/transpose/impl_avx2_64bit.rs:78-85 | for one row, the columns from `width - width % 8` to `width` |
| GemmTranspose.RowTails | cfavml-gemm/src/transpose/impl_avx2_64bit.rs:75-88 | the row-tail loop finishes, for every row the blocks cover, the columns right of the blocks, and nothing else |
| GemmTranspose.ColumnTail | cfavml-gemm/src/transpose/impl_avx2_64bit.rs:91-97 | for one row, every column |
| GemmTranspose.ColumnTails | cfavml-gemm/src/transpose/impl_avx2_64bit.rs:89-100 | the column-tail loop finishes every row from `height - height % 8` on, all columns, and nothing else |
| GemmTranspose.AllDone | cfavml-gemm/src/transpose/impl_avx2_64bit.rs:21-100 | a result whose every cell is finished equals the reference transpose |
| GemmTranspose.Transpose64 | cfavml-gemm/src/transpose/impl_avx2_64bit.rs:9-101 | the three regions partition the matrix, so the kernel's result equals `basic_transpose`, as the tests at 373-431 check |
| GemmTranspose.TransposeMatrix | cfavml-gemm/src/transpose/mod.rs:9-36 | panics exactly on a shape mismatch; an empty matrix leaves `result` unchanged; a one-row or one-column matrix is copied, which is its transpose; otherwise `f32`/`u32` on an AVX2 CPU give the transpose and anything else leaves `result` unchanged |
| GemmLayout.Layout16 | cfavml-gemm/src/danger/f32_avx2fma.rs:151-170 | the 16-wide stripe layout has exactly `width * height` values |
| GemmLayout.LayoutBound | cfavml-gemm/src/danger/f32_avx2fma.rs:153-170 | with `width` a multiple of 16, every position of the layout reads a cell inside the matrix |
| GemmLayout.StripeCell | cfavml-gemm/src/danger/f32_avx2fma.rs:157-166 | stripe `i`, row `j`, column `k` is layout position `i * height + 16 * j + k`, which reads matrix cell `i + j * width + k` |
| GemmLayout.LayoutCell | cfavml-gemm/src/danger/f32_avx2fma.rs:157-166 | `to[(i / 16) * height * 16 + j * 16 + k] = from[i + j * width + k]` for every stripe, row and `k < 16` |
| GemmLayout.CopyRowOfStripe | cfavml-gemm/src/danger/f32_avx2fma.rs:158-163 | the two 8-wide load/store pairs copy the 16 values at `offset` to `write_offset..write_offset+16` and write nothing else |
| GemmLayout.StripeRowDone | cfavml-gemm/src/danger/f32_avx2fma.rs:158-165 | a row of a stripe copied to its place agrees with the layout there |
| GemmLayout.CopyStripe | cfavml-gemm/src/danger/f32_avx2fma.rs:157-166 | the row loop of one stripe advances `write_offset` by `16 * height`, leaving the layout correct up to it and everything after it unchanged |
| GemmLayout.CopyLayout16 | cfavml-gemm/src/danger/f32_avx2fma.rs:151-170 | with `width % 16 == 0`, exactly the first `width * height` values of `to` are written, and they are the stripe layout of `from` |
| GemmLayout.CopyLayout4 | cfavml-gemm/src/danger/f32_avx2fma.rs:172-194 | the same result as `copy_16wide_layout`, because the body is the same |
| GemmLayout.OneStripeIsIdentity | cfavml-gemm/src/danger/f32_avx2fma.rs:151-170 | a matrix exactly 16 wide is laid out unchanged |
| GemmLayout.PositionOfCell | cfavml-gemm/src/danger/f32_avx2fma.rs:151-170 | every matrix cell has a position in the layout, and the layout reads that cell back from there |
| GemmLayout.Unlayout16 | cfavml-gemm/src/danger/f32_avx2fma.rs:151-170 | reading each cell back from its layout position gives a buffer of the matrix's size |
| GemmLayout.UnlayoutLayout | cfavml-gemm/src/danger/f32_avx2fma.rs:151-170 | the layout is a permutation: reading it back cell by cell gives the original matrix |
| GemmLayout.LayoutExample | cfavml-gemm/src/danger/f32_avx2fma.rs:233-325 | on a 32 x 16 matrix, position 16 holds the start of row 1, position 256 holds column 16 of row 0, and the last position holds the last cell, as the test's expected layout shows |
| GemmLayout.PrepColumn | cfavml-gemm/src/danger/f32_avx2fma.rs:138-142 | a fresh zeroed aligned buffer of `width * height` values holding the stripe layout of `data` |
| GemmLayout.PrepRowAsWritten | cfavml-gemm/src/danger/f32_avx2fma.rs:144-149 | as written, succeeds only when `data` is empty and the declared shape is empty; every other input panics |
| GemmLayout.PrepRowPanicsOnAnyData | cfavml-gemm/src/danger/f32_avx2fma.rs:144-149 | the 1 x 1 matrix `[7]` already panics |
| GemmLayout.PrepRow | cfavml-gemm/src/danger/f32_avx2fma.rs:144-149 | as intended: panics exactly on a shape mismatch; otherwise a buffer of `data`'s length holding its transpose (or, without AVX2 on a wider matrix, the copy `transpose_matrix` leaves) |
| GemmLayout.PrepRowOneByOne | cfavml-gemm/src/danger/f32_avx2fma.rs:144-149 | the intended version prepares `[7]` as `[7]` where the written one panics |
| GemmLayout.MatmulShape | cfavml-gemm/src/danger/f32_avx2fma.rs:38-41 | `matmul` goes on exactly when all four dimensions are multiples of 16 |
| GemmLayout.MatmulShapeEnablesLayout | cfavml-gemm/src/danger/f32_avx2fma.rs:25-41 | a shape `matmul` accepts lets it lay out `b` in stripes without losing a value |
| GemmManipulation.RowBlock | cfavml-gemm/src/manipulation.rs:14-33 | the `offset`-th group of `N` rows holds `N * width` values |
| GemmManipulation.SelectRowWise | cfavml-gemm/src/manipulation.rs:14-33 | `output[k] = input[offset * N * width + k]` for `k < width * N`; every later slot of `output` is unchanged |
| GemmManipulation.RowBlocksTile | cfavml-gemm/src/manipulation.rs:14-33 | the first `count` row groups, one after another, are the first `count * N` rows |
| GemmManipulation.ColumnBlock | cfavml-gemm/src/manipulation.rs:46-80 | the column block holds `height * N` values |
| GemmManipulation.ColumnSource | cfavml-gemm/src/manipulation.rs:61-79 | every position of a column block reads inside the matrix |
| GemmManipulation.ColumnBlockRow | cfavml-gemm/src/manipulation.rs:61-79 | `output[r * N + c] = input[r * width + offset * N + c]` for row `r` and `c < N` |
| GemmManipulation.RowDone | cfavml-gemm/src/manipulation.rs:61-79 | a row copied to its place in the output agrees with the column block there |
| GemmManipulation.CopyRowSlice | cfavml-gemm/src/manipulation.rs:71-75 | one bulk copy moves the `N` values of the row from column `offset * N` to `output[step..step+N]` and nothing else |
| GemmManipulation.SelectColumnBlocks | cfavml-gemm/src/manipulation.rs:46-80 | the loop runs `height` times and fills exactly the first `height * N` slots with the column block; later slots are unchanged |
| GemmManipulation.CopyRow | cfavml-gemm/src/manipulation.rs:70-79 | one iteration extends the finished prefix by `N` and leaves everything after it unchanged |
| GemmManipulation.WidthOfRows | cfavml-gemm/src/manipulation.rs:55-62 | under the debug assertions the row width `input.len() / height` is non-zero and divides the input exactly |
| GemmManipulation.NextRow | cfavml-gemm/src/manipulation.rs:68-79 | `x_offset = r * width` is below `input.len()` exactly while `r` is a row, so the loop runs `height` times |
| GemmManipulation.FullWidthBlock | cfavml-gemm/src/manipulation.rs:46-80 | with `N` as wide as the matrix the only column block is the whole matrix |
| GemmManipulation.Counting16 | cfavml-gemm/src/manipulation.rs:454-536 | the 4 x 4 test matrix holds 0 to 15 in order |
| GemmManipulation.RowWiseExamples | cfavml-gemm/src/manipulation.rs:454-492 | two rows at a time: offset 0 selects values 0 to 7 and offset 1 values 8 to 15 |
| GemmManipulation.ColumnBlockExamples | cfavml-gemm/src/manipulation.rs:494-536 | two columns at a time: offset 0 selects `[0, 1, 4, 5, 8, 9, 12, 13]` and offset 1 `[2, 3, 6, 7, 10, 11, 14, 15]` |
| ArithmeticValueOps.AddValue | cfavml/src/danger/op_arithmetic_value.rs:14-34 | result[i] = M::add(a[i], value) for all i < dims (wrapping), each slot written once |
| ArithmeticValueOps.SubValue | cfavml/src/danger/op_arithmetic_value.rs:44-64 | result[i] = M::sub(a[i], value) for all i < dims (wrapping), each slot written once |
| ArithmeticValueOps.MulValue | cfavml/src/danger/op_arithmetic_value.rs:74-94 | result[i] = M::mul(a[i], value) for all i < dims (wrapping), each slot written once |
| ArithmeticValueOps.DivValue | cfavml/src/danger/op_arithmetic_value.rs:99-129 | result[i] = M::div(a[i], value) for all i < dims (wrapping), each slot written once; a true division, no reciprocal |
| ArithmeticVectorOps.AddVector | cfavml/src/danger/op_arithmetic_vector.rs:14-34 | result[i] = M::add(a[i], b[i]) for all i < dims (wrapping), each slot written once |
| ArithmeticVectorOps.SubVector | cfavml/src/danger/op_arithmetic_vector.rs:44-64 | result[i] = M::sub(a[i], b[i]) for all i < dims (wrapping), each slot written once |
| ArithmeticVectorOps.MulVector | cfavml/src/danger/op_arithmetic_vector.rs:74-94 | result[i] = M::mul(a[i], b[i]) for all i < dims (wrapping), each slot written once |
| ArithmeticVectorOps.DivVector | cfavml/src/danger/op_arithmetic_vector.rs:104-124 | result[i] = M::div(a[i], b[i]) for all i < dims (wrapping), each slot written once |
| ArithmeticVerticalOps.AddVertical | cfavml/src/danger/op_arithmetic_vertical.rs:15-34 | panics iff an operand cannot be projected onto the result length; otherwise result[i] = M::add(a[i], b[i]) with scalars broadcast, each slot written once |
| ArithmeticVerticalOps.SubVertical | cfavml/src/danger/op_arithmetic_vertical.rs:44-63 | panics iff an operand cannot be projected onto the result length; otherwise result[i] = M::sub(a[i], b[i]) with scalars broadcast, each slot written once |
| ArithmeticVerticalOps.MulVertical | cfavml/src/danger/op_arithmetic_vertical.rs:73-92 | panics iff an operand cannot be projected onto the result length; otherwise result[i] = M::mul(a[i], b[i]) with scalars broadcast, each slot written once |
| ArithmeticVerticalOps.DivVertical | cfavml/src/danger/op_arithmetic_vertical.rs:102-121 | panics iff an operand cannot be projected onto the result length; otherwise result[i] = M::div(a[i], b[i]) with scalars broadcast, each slot written once |
| CmpValueOps.EqValue | cfavml/src/danger/op_cmp_value.rs:17-37 | result[i] is 1 iff a[i] == value and 0 otherwise, for all i < dims, each slot written once |
| CmpValueOps.NeqValue | cfavml/src/danger/op_cmp_value.rs:50-70 | result[i] is 1 iff a[i] != value and 0 otherwise, for all i < dims, each slot written once |
| CmpValueOps.LtValue | cfavml/src/danger/op_cmp_value.rs:83-103 | result[i] is 1 iff a[i] < value and 0 otherwise, for all i < dims, each slot written once |
| CmpValueOps.LteValue | cfavml/src/danger/op_cmp_value.rs:116-136 | result[i] is 1 iff a[i] <= value and 0 otherwise, for all i < dims, each slot written once |
| CmpValueOps.GtValue | cfavml/src/danger/op_cmp_value.rs:149-169 | result[i] is 1 iff a[i] > value and 0 otherwise, for all i < dims, each slot written once |
| CmpValueOps.GteValue | cfavml/src/danger/op_cmp_value.rs:182-202 | result[i] is 1 iff a[i] >= value and 0 otherwise, for all i < dims, each slot written once |
| CmpVectorOps.EqVector | cfavml/src/danger/op_cmp_vector.rs:17-37 | result[i] is 1 iff a[i] == b[i] and 0 otherwise, for all i < dims, each slot written once |
| CmpVectorOps.NeqVector | cfavml/src/danger/op_cmp_vector.rs:50-70 | result[i] is 1 iff a[i] != b[i] and 0 otherwise, for all i < dims, each slot written once |
| CmpVectorOps.LtVector | cfavml/src/danger/op_cmp_vector.rs:83-103 | result[i] is 1 iff a[i] < b[i] and 0 otherwise, for all i < dims, each slot written once |
| CmpVectorOps.LteVector | cfavml/src/danger/op_cmp_vector.rs:116-136 | result[i] is 1 iff a[i] <= b[i] and 0 otherwise, for all i < dims, each slot written once |
| CmpVectorOps.GtVector | cfavml/src/danger/op_cmp_vector.rs:149-169 | result[i] is 1 iff a[i] > b[i] and 0 otherwise, for all i < dims, each slot written once |
| CmpVectorOps.GteVector | cfavml/src/danger/op_cmp_vector.rs:182-202 | result[i] is 1 iff a[i] >= b[i] and 0 otherwise, for all i < dims, each slot written once |
| CmpVerticalOps.EqVertical | cfavml/src/danger/op_cmp_vertical.rs:18-40 | panics iff an operand cannot be projected; otherwise result[i] is 1 iff a[i] == b[i] (scalars broadcast) and 0 otherwise |
| CmpVerticalOps.NeqVertical | cfavml/src/danger/op_cmp_vertical.rs:53-75 | panics iff an operand cannot be projected; otherwise result[i] is 1 iff a[i] != b[i] (scalars broadcast) and 0 otherwise |
| CmpVerticalOps.LtVertical | cfavml/src/danger/op_cmp_vertical.rs:88-110 | panics iff an operand cannot be projected; otherwise result[i] is 1 iff a[i] < b[i] (scalars broadcast) and 0 otherwise |
| CmpVerticalOps.LteVertical | cfavml/src/danger/op_cmp_vertical.rs:123-145 | panics iff an operand cannot be projected; otherwise result[i] is 1 iff a[i] <= b[i] (scalars broadcast) and 0 otherwise |
| CmpVerticalOps.GtVertical | cfavml/src/danger/op_cmp_vertical.rs:158-180 | panics iff an operand cannot be projected; otherwise result[i] is 1 iff a[i] > b[i] (scalars broadcast) and 0 otherwise |
| CmpVerticalOps.GteVertical | cfavml/src/danger/op_cmp_vertical.rs:193-215 | panics iff an operand cannot be projected; otherwise result[i] is 1 iff a[i] >= b[i] (scalars broadcast) and 0 otherwise |
| VectorXValueOps.AddValue | cfavml/src/danger/op_vector_x_value.rs:13-64 | result[i] = M::add(a[i], value) for all i < dims (wrapping), each slot written once |
| VectorXValueOps.SubValue | cfavml/src/danger/op_vector_x_value.rs:74-125 | result[i] = M::sub(a[i], value) for all i < dims (wrapping), each slot written once |
| VectorXValueOps.MulValue | cfavml/src/danger/op_vector_x_value.rs:135-186 | result[i] = M::mul(a[i], value) for all i < dims (wrapping), each slot written once |
| VectorXValueOps.DivValue | cfavml/src/danger/op_vector_x_value.rs:191-252 | result[i] = M::div(a[i], value) for all i < dims (wrapping), each slot written once; a true division, no reciprocal |
| VectorXVectorOps.AddVector | cfavml/src/danger/op_vector_x_vector.rs:13-66 | result[i] = M::add(a[i], b[i]) for all i < dims (wrapping), each slot written once |
| VectorXVectorOps.SubVector | cfavml/src/danger/op_vector_x_vector.rs:76-129 | result[i] = M::sub(a[i], b[i]) for all i < dims (wrapping), each slot written once |
| VectorXVectorOps.MulVector | cfavml/src/danger/op_vector_x_vector.rs:139-192 | result[i] = M::mul(a[i], b[i]) for all i < dims (wrapping), each slot written once |
| VectorXVectorOps.DivVector | cfavml/src/danger/op_vector_x_vector.rs:202-255 | result[i] = M::div(a[i], b[i]) for all i < dims (wrapping), each slot written once |
| AlignedBuffer.AllocatedSize | cfavml-utils/src/aligned_buffer.rs:30-52 | `zeroed` goes on exactly when `64 % size_of::<T>() == 0`, and then the allocated size is more than `len` and less than one chunk more |
| AlignedBuffer.ChunkCover | cfavml-utils/src/aligned_buffer.rs:38-48 | `len / per_chunk + 1` chunks hold more than `len` values but no more than a chunk beyond it |
| AlignedBuffer.AllocatedSizeExamples | cfavml-utils/src/aligned_buffer.rs:121-134 | 16 slots for 0 `f32`s, 64 for 4 `i8`s, 160 for 128 `u16`s |
| AlignedBuffer.AlignedBuffer.Zeroed | cfavml-utils/src/aligned_buffer.rs:30-52 | a fresh buffer of `len` zeros whose allocated size is the chunk cover of `len` |
| AlignedBuffer.AlignedBuffer.AsSlice | cfavml-utils/src/aligned_buffer.rs:70-99 | the slice has length `len` and shows the first `len` slots |
| AlignedBuffer.AlignedBuffer.CopyFromSlice | cfavml-utils/src/aligned_buffer.rs:61-68 | panics, changing nothing, exactly when `data.len() != len`; otherwise the slice becomes `data` and the slots beyond `len` keep their contents |
| AlignedBuffer.ZeroedExample | cfavml-utils/src/aligned_buffer.rs:137-140 | five `f32` zeros in a buffer of 16 slots |
| AlignedBuffer.CopyExample | cfavml-utils/src/aligned_buffer.rs:136-144 | copying `[1, 2, 3, 4, 5]` into a five-value buffer shows exactly those values |
| AlignedRepr.FitsCapacity | src/aligned_buffer.rs:135-137 | values whose bytes fit in the blocks fit in `capacity()` |
| AlignedRepr.CapacityGrows | src/aligned_buffer.rs:135-137 | more blocks never give a smaller capacity |
| AlignedRepr.BlocksCover | src/aligned_buffer.rs:129-130 | `missing / 64 + 1` new blocks give more than `missing` bytes |
| AlignedRepr.AlignedOwnedRepr.WithSize | src/aligned_buffer.rs:51-67 | whatever size is asked for, the buffer is empty with no block and capacity 0, as the tests at 164-177 check |
| AlignedRepr.AlignedOwnedRepr.AsSlice | src/aligned_buffer.rs:73-78 | the slice shows `len` values |
| AlignedRepr.AlignedOwnedRepr.SpareBytes | src/aligned_buffer.rs:139-142 | as intended (see Findings): the free bytes and the stored values' bytes together make up the blocks, both counted in bytes |
| AlignedRepr.AlignedOwnedRepr.ReserveCapacity | src/aligned_buffer.rs:121-133 | as intended (see Findings), with the spare counted in bytes: a no-op when the spare bytes already hold `num_extra` values; otherwise exactly `missing / 64 + 1` blocks are appended; afterwards they fit, no block is removed and the stored values stay |
| AlignedRepr.AlignedOwnedRepr.Push | src/aligned_buffer.rs:94-102 | as intended: `len` grows by one and the slice gains `item` at its end; blocks are appended only when the spare bytes are short |
| AlignedRepr.AlignedOwnedRepr.ExtendFromSlice | src/aligned_buffer.rs:104-119 | as intended: `len` grows by `s.len()` and the slice gains `s` at its end |
| AlignedRepr.CopyFromSlice | src/aligned_buffer.rs:42-46 | a fresh buffer whose slice is `data` |
| AlignedRepr.PushExamples | src/aligned_buffer.rs:179-197 | one `u8` push gives length 1 and capacity 64; one `[u64; 32]` push gives capacity 1 |
| AlignedRepr.PushTwoWords | src/aligned_buffer.rs:94-102 | the intended buffer shows both of two `u64` pushes, in order, and still has one block |
| AlignedRepr.Shown | src/aligned_buffer.rs:73-78 | `as_slice` as written: the first `len` slots, defined exactly when `len` is within the capacity |
| AlignedRepr.ReserveAsWritten | src/aligned_buffer.rs:121-133 | as written: keeps `len` and the written slots and never removes a block |
| AlignedRepr.PushAsWritten | src/aligned_buffer.rs:90-102 | as written: a push that stays in bounds grows `len` by one |
| AlignedRepr.WriteAt | src/aligned_buffer.rs:109-116 | storing `s` from slot `at` sets exactly those slots and keeps every other written slot |
| AlignedRepr.ExtendAsWritten | src/aligned_buffer.rs:104-119 | as written: an extend that stays in bounds grows `len` by `s.len()` |
| AlignedRepr.PushBytesAsWritten | src/aligned_buffer.rs:90-102 | for one-byte values the written push is right: the slice gains the item at its end |
| AlignedRepr.PushMisplacedAsWritten | src/aligned_buffer.rs:90-102 | for wider values the slot the slice newly shows keeps its old content, because the item went to slot `len * size` |
| AlignedRepr.CopyFromSliceAsWritten | src/aligned_buffer.rs:42-46 | `copy_from_slice` is right as written, since it extends an empty buffer from slot 0 |
| AlignedRepr.FirstPushAsWritten | src/aligned_buffer.rs:94-102 | the first push of a value smaller than a block allocates one block and puts the value in slot 0 |
| AlignedRepr.PushWrongSlotAsWritten | src/aligned_buffer.rs:90-102 | two `u64` pushes as written put the second value in slot 8, so the slice shows `[x, 0]` |
| AlignedRepr.SpareMixesUnitsAsWritten | src/aligned_buffer.rs:139-142 | as written, after one `u64` push the spare is 8 values less 8 bytes, 0, so the second push appends a second block |
| AlignedRepr.SpareUnderflowAsWritten | src/aligned_buffer.rs:139-142 | as written, after one 16-byte push the spare is 4 values less 16 bytes, below 0, so the second push overflows the subtraction |
| AlignedRepr.ExtendPastEndAsWritten | src/aligned_buffer.rs:104-119 | a `u8` push then a one-value extend aims the value at slot 64 of a 64-slot buffer, outside it |
| AlignedRepr.PushThenExtend | src/aligned_buffer.rs:104-119 | the intended buffer after a `u8` push and a one-value extend shows both values |
| Broadcast.Join | cfavml-ndarray/src/broadcast_shim.rs:68-76 | two compatible dimensions join to the one that is not 1, whichever side the 1 is on |
| Broadcast.Padded | cfavml-ndarray/src/broadcast_shim.rs:63-68 | the shorter shape aligned from the right: leading 1s, then the shape itself |
| Broadcast.BroadcastShape | cfavml-ndarray/src/broadcast_shim.rs:52-78 | a broadcast shape has as many dimensions as the longer input |
| Broadcast.BroadcastCommutes | cfavml-ndarray/src/broadcast_shim.rs:58-62 | swapping the shapes does not change the outcome, which justifies the swap |
| Broadcast.BroadcastWithScalarShape | cfavml-ndarray/src/broadcast_shim.rs:104 | any shape with the 0-d shape is itself |
| Broadcast.BroadcastWithItself | cfavml-ndarray/src/broadcast_shim.rs:107-108 | any shape with itself is itself |
| Broadcast.Rejects | cfavml-ndarray/src/broadcast_shim.rs:68-74 | one incompatible aligned pair makes the broadcast fail with `IncompatibleShape` |
| Broadcast.Accepts | cfavml-ndarray/src/broadcast_shim.rs:64-77 | an output that copies the leading dimensions and joins every aligned pair is the broadcast shape |
| Broadcast.CoBroadcast | cfavml-ndarray/src/broadcast_shim.rs:52-78 | the swap, the copy and the loop over aligned dimensions return exactly the NumPy broadcast shape, or `IncompatibleShape` exactly when a pair is incompatible |
| Broadcast.BroadcastExamples | cfavml-ndarray/src/broadcast_shim.rs:102-112 | `[2, 3]` with `[4, 1, 3]` gives `[4, 2, 3]`, a 1 broadcasts to 0, and the other accepted cases of the test |
| Broadcast.IncompatibleExamples | cfavml-ndarray/src/broadcast_shim.rs:103-113 | `[1, 2, 2]` with `[1, 3, 4]`, `[2, 1, 2]` with `[0]`, and `[1, 3, 0, 1, 1]` with `[1, 2, 3, 1]` are rejected |
| TestUtils.GetSampleVectors | cfavml/src/test_utils.rs:13-40 | two vectors of length `size`, each element the generator's draw except that a zero is replaced by `one()`, so no element is zero and draws of the type give values of the type |
| TestUtils.SimpleDot | cfavml/src/test_utils.rs:74-86 | the left fold of `add(acc, mul(x[i], y[i]))` from zero over `x.len()` is the exact dot product wrapped once, the value every dot kernel is proved to give |
| TestUtils.SimpleEuclidean | cfavml/src/test_utils.rs:106-119 | the fold of `add(acc, (x[i] - y[i])^2)` from zero is the exact sum of squared differences wrapped once |
| TestUtils.SimpleCosine | cfavml/src/test_utils.rs:88-104 | the dot product and both norms accumulated in one loop, then `cosine`, give the same cosine distance as the three separate reductions |

## Left out

- **Floating-point arithmetic.** The kernels are modelled and proved for the eight integer element types, where `wrapping_*` arithmetic is exact and written out.
  - For `f32`/`f64`, only `FloatMath` is kept: the reduction sentinels, the NaN-ignoring `max`/`min`, equality and `f32_abs_fast`.
  - IEEE 754 rounding is not modelled: a finite float is a real number. The float kernels' sums are not modelled either, because their rounding depends on the grouping each kernel chooses.
- **`sqrt`.** It is a function parameter of the cosine routines, and nothing is assumed about it.
  - `hypot`, `f32_sqrt_fast`, the nightly fast-math intrinsics and the float hyperplane fallbacks are not modelled.
- **SIMD instruction sets.** The AVX2, AVX-512, AVX2+FMA and NEON register implementations are not modelled.
  - A backend is modelled by its register width `L`, with every register operation the scalar one lifted lane by lane. That is the condition under which all backends run the same generic kernels.
  - Bit-level shuffles and masked loads are not modelled.
- **CPU feature detection.** CPUID and the runtime detection are not executed. The detected features are an input set of `Dispatch`.
- **`dispatch!` invocations.** The safe trait layer calls `dispatch!` with an `args = (...)` form that none of the macro's arms (cfavml/src/dispatch.rs:42-80) accepts. `Dispatch` follows the macro's evident meaning: the first available arm in its order, then the fallback.
- **Comparison trait methods.** `CmpOps` declares `eq` to `gte` (cfavml/src/safe_trait_cmp_ops.rs:188-597), but the `cmp_ops!` macro implements only the max and min methods. The mask kernels themselves are modelled in `CmpValueOps`, `CmpVectorOps` and `CmpVerticalOps`, and the free functions that forward to them in `SafeFunctionOps`.
- **`Math` trait gaps.**
  - The trait as given has no `cmp_lt`, `cmp_lte`, `cmp_gt`, `cmp_gte` or `cast_bool`, although the mask kernels call them.
  - `ScalarOps` defines them as the plain integer comparisons, with `cast_bool(true) = one()` and `cast_bool(false) = zero()`.
- **`apply_vertical_kernel`.** Its definition is not part of this model. `VerticalKernel` rebuilds it from the loader rules: project both operands onto the result length, then the three phases.
- **`op_dot_product`.** cfavml/src/danger/op_dot_product.rs is not part of this model.
  - `AggregateOps.DotProduct` gives the dot product `op_cosine` calls the same three-phase shape as `op_norm`, with `a[i] * b[i]` as the term.
  - The module file cfavml/src/danger/mod.rs is not part of this model.
- **Division by zero.** For integer kernels, a zero divisor panics in `wrapping_div` partway through a kernel, after earlier slots have been written. The model makes a non-zero divisor a precondition of the element-wise division routines, listed below. The integer cosine instead returns `None` for a zero divisor.
- VectorXValueOps.DivValue: requires a non-zero `value`, because the panic partway through is not modelled.
- VectorXVectorOps.DivVector: requires every `b[i]` to be non-zero, for the same reason.
- ArithmeticValueOps.DivValue: requires a non-zero `value`, for the same reason.
- ArithmeticVectorOps.DivVector: requires every `b[i]` to be non-zero, for the same reason.
- ArithmeticVerticalOps.DivVertical: requires the projected divisor operand to be all non-zero, for the same reason.
- SafeTraitOps.DivValue: requires a non-zero `value`, for the same reason.
- SafeTraitOps.DivVector: requires every `b[i]` to be non-zero, for the same reason.
- SafeFunctionOps.DivVertical: requires the projected divisor operand to be all non-zero, for the same reason.
- FallbackElementwise.DivVertical: requires every `y[i]` to be non-zero, for the same reason. By contrast, `FallbackElementwise.DivValue` models the zero-divider panic, which happens before any write.
- **usize overflow.** Lengths and offsets are unbounded naturals, so `usize` overflow in `dims * n`, offsets and capacities is not modelled.
- **Zero-sized types.**
  - In `AlignedBuffer`, a size of 0 is the panic of `zeroed`.
  - `AlignedRepr` requires a size above 0, because `capacity()` divides by the size. Any positive size is allowed, including values wider than a block.
- **cfavml-gemm.**
  - The matrix multiply body and `compute_16x16_matrix` are not modelled: they are FMA register arithmetic on floats. Only the operand layouts `prep_column`, `prep_row`, `copy_16wide` and `copy_4wide` are kept.
  - `transpose_matrix` calls `impl_avx2::transpose_32bit`, which is not part of this model. `GemmTranspose` models it with the blocked algorithm of the 64-bit kernel, with the 8x8 block stated by its result. The register shuffles inside a block are not modelled.
  - The `avx2_transpose` module of manipulation.rs is not modelled.
  - The `get_sample_vectors` of cfavml-gemm/src/test_utils.rs is not modelled. It only returns the draws of a seeded `ChaCha8Rng`, without the zero replacement. In the `get_sample_vectors` of cfavml/src/test_utils.rs, which is modelled, the same kind of generator's draws are parameters.
- GemmLayout.CopyLayout16: requires `width` to be a multiple of 16. The source leaves this to its caller: `matmul` asserts it before calling `prep_column_matrix_component`.
- GemmLayout.CopyLayout4: requires `width` to be a multiple of 16. It reads 16 values from each row of every 16-column stripe, and nothing in the crate calls it.
- GemmLayout.PrepColumn: requires `width` to be a multiple of 16 and `data` to have `width * height` values, as `matmul` ensures.
- GemmManipulation.SelectRowWise: requires the selected rows to lie inside `input`. The source reads them through a raw pointer without that check.
- GemmManipulation.SelectColumnBlocks: requires the selected columns to lie inside each row, for the same reason.
- **Buffers.**
  - `as_mut_ptr`, the raw pointers and `MaybeUninit` are not modelled. A slot is a plain value, and the ghost write counts stand for "written".
  - The minimum capacity argument of `with_size` is only a reservation hint: the buffer starts empty either way.
  - Memory alignment itself is not modelled, since the model has no addresses. Only the block and chunk counts that alignment imposes are kept.
- **cfavml-ndarray.** `broadcast_mut_with`, the ndarray views and the extension traits are not modelled. Only the shape rule `co_broadcast` is kept.
- **Other crates and concurrency.** The thread pool, core pinning, the `cfavml-complex` crate, the stub files and the per-target `export_*` re-export wrappers are not modelled.
- IntMath.AbsSpec: states release-build semantics, where `a.abs()` of `T::MIN` wraps to `T::MIN`. In a debug build that call panics on overflow. The debug panic is not modelled.
- TestUtils.SimpleDot: requires `|x| <= |y|`. The source indexes `y[i]` for every `i < x.len()` and panics on a shorter `y`; that panic is not modelled. Every caller passes equal lengths.
- TestUtils.SimpleEuclidean: requires `|x| <= |y|`, for the same reason.
- TestUtils.SimpleCosine: requires `|x| <= |y|`, for the same reason.
- **Free distance and reduction functions.** `cfavml::cosine`, `dot`, `squared_euclidean`, `squared_norm`, `sum`, `max` and `min` (cfavml/src/safe_function_ops.rs) take `IntoMemLoader` operands and call the trait method with those operands only. The trait methods as given take `(dims, &[T], &[T])` (cfavml/src/safe_trait_distance_ops.rs:57), so the call as written does not match them. The model follows the trait: it takes slices and passes `dims = a.len()`. Broadcast scalar operands of these functions are therefore not modelled.
- SafeFunctionOps.Cosine: takes slice operands only; a scalar operand is not modelled.
- SafeFunctionOps.Dot: takes slice operands only; a scalar operand is not modelled.
- SafeFunctionOps.SquaredEuclidean: takes slice operands only; a scalar operand is not modelled.
- SafeFunctionOps.SquaredNorm: takes a slice operand only; a scalar operand is not modelled.
- SafeFunctionOps.Sum: takes a slice operand only; a scalar operand is not modelled.
- SafeFunctionOps.Max: takes a slice operand only; a scalar operand is not modelled.
- SafeFunctionOps.Min: takes a slice operand only; a scalar operand is not modelled.
- **Cosine.** Two cosine definitions are kept. `op_cosine` returns one when exactly one norm is zero; `danger::utils` returns zero. The reference `simple_cosine` uses the former.

## Findings

| source | as written | input that shows it | evidently intended | confidence | as-written member | corrected member |
|---|---|---|---|---|---|---|
| cfavml/src/safe_distance_ops.rs:49-61 | the `xconst` distance functions check only `a.len() == b.len()` and then run the kernel over `DIMS`, never comparing `DIMS` with the slice length | `DIMS = 4` with `a = b = [1, 2, 3]` reads past the end; `DIMS = 2` with `[1, 2, 3]` gives dot 5 instead of 14 | also assert `a.len() == DIMS`, as the `xconst` arithmetic functions do | not executed | `SafeSliceOps.XconstDistanceAsWritten` (gap shown by `SafeSliceOps.XconstDistanceGuardGap`) | `SafeSliceOps.XconstDot` (proved by `SafeSliceOps.XconstDistanceGuardFixed`) |
| cfavml-gemm/src/danger/f32_avx2fma.rs:144-149 | `prep_row` calls `copy_from_slice` on a freshly made empty `Vec`, which panics unless `data` is empty | the 1 x 1 matrix `[7]` | a buffer of `width * height` values that `transpose_matrix` then fills with the transpose of `data` | not executed | `GemmLayout.PrepRowAsWritten` (shown by `GemmLayout.PrepRowPanicsOnAnyData`) | `GemmLayout.PrepRow` (shown by `GemmLayout.PrepRowOneByOne`) |
| src/aligned_buffer.rs:90-102 | `push` writes to the slot whose index is the byte offset `len * size_of::<A>()` inside the block, not the element index `len` | two pushes of `u64` values `x` then `y`: the slice shows `[x, 0]` | write slot `len` so the slice shows `[x, y]` | not executed | `AlignedRepr.PushWrongSlotAsWritten` | `AlignedRepr.AlignedOwnedRepr.Push` (shown by `AlignedRepr.PushTwoWords`) |
| src/aligned_buffer.rs:139-142 | `spare_capacity` subtracts the stored values' bytes `size_of::<A>() * len` from `capacity()`, a count of values, and `reserve_capacity` (lines 121-133) acts on that difference | two `u64` pushes: the spare is 8 - 8 = 0, so a second block is appended where 56 bytes are free; for a 16-byte type the second push computes 4 - 16 and the `usize` subtraction overflows | count the spare in bytes, `buffer.len() * 64 - size_of::<A>() * len` | not executed | `AlignedRepr.ReserveAsWritten` (shown by `AlignedRepr.SpareMixesUnitsAsWritten` and `AlignedRepr.SpareUnderflowAsWritten`) | `AlignedRepr.AlignedOwnedRepr.ReserveCapacity` (shown by `AlignedRepr.PushTwoWords`) |
| src/aligned_buffer.rs:104-119 | `extend_from_slice` adds the byte offset `len * size_of::<A>()` to a pointer to 64-byte blocks, so the copy starts that many whole blocks in | a `u8` push of 1, then extending by `[2]`: the write aims at slot 64 of a 64-slot buffer | copy the values to slots `len ..` of the aligned storage | not executed | `AlignedRepr.ExtendPastEndAsWritten` | `AlignedRepr.AlignedOwnedRepr.ExtendFromSlice` (shown by `AlignedRepr.PushThenExtend`) |
