# memcpy routines in x86-64 assembly: a Dafny model

The repository benchmarks ways of copying a byte buffer on x86-64. The
library `src/lib.rs` has fifteen copy routines, each an inline assembly
loop or one `rep movs`:
- 32- and 64-bit general-purpose moves;
- 128-bit `movdqa` and 256-bit `vmovdqa` vector moves;
- the same loops unrolled eight times (`_pl`);
- variants with non-temporal stores (`movnti`, `movntdq`, `vmovntdq`), unrolled or not;
- `rep movsb` and `rep movsq`.

The benchmark `benches/memcpy.rs` has its own copies of eight of these
routines. Its driver maps two equal-length anonymous buffers for each
routine and has criterion time the copy at 2 KiB, 4 MiB and 1 GiB.

The model proves what each loop leaves in memory, when it terminates, and
that the driver always meets every routine's precondition.

Modules, in dependency order:

- `Arith` (arith.dfy): facts about multiplication and Euclidean division
  that the other proofs need.
- `DoWhile` (do_while.dfy): the shared loop shape.
  - The body runs before the first `cmp`/`jne` test.
  - The loop is left only when the counter equals the bound.
  - Such a loop exits exactly when the bound is a positive multiple of the step.
- `Machine` (machine.dfy): byte memory as `array<bv8>` and the store primitives.
  - A store takes an explicit temporal/non-temporal hint that does not change memory.
  - The aligned vector load and store require their absolute address to be a multiple of their width.
  - `RepMovs` models REP MOVS as an RCX loop.
  - `Copied(dst, src, n)` specifies every routine: the destination with its first `n` bytes taken from the source.
- `Routines` (routines.dfy): the fifteen library routines as data.
  - `ShapeOf` says how each loop counts: elements against `size / w`, or bytes against `size`.
  - Also: which routines need AVX, their alignment demand, `SizeOk` (the termination precondition), `BytesCopied`, and `Plain` (the plain routine of the same width).
- `Memcpy` (memcpy.dfy): one method per library routine.
  - Each routine's own loop moves its own chunk widths.
  - The unrolled variants do eight loads and then eight stores.
  - Each method is proved against `Copied`.
  - `Run` dispatches on the routine and states the result as `Routines.BytesCopied`.
- `Bench` (bench.dfy): the benchmark's copies of eight routines, proved against their library counterparts.
  - The catalogue of named entries.
  - The `ByteSize` entry points.
  - Anonymous mappings: fresh, zero-filled and page-aligned.
  - The driver, with criterion reduced to the list of benchmarks registered with it and the number of times it calls each routine.

Two behaviours of the code that a caller might not expect from a memcpy:

- A zero length is not a no-op for the loop routines. Every loop runs its
  body before the first test, and the counter has already passed a bound
  of 0 when it is first compared, so the loop does not exit
  (`Routines.ZeroSize`, `DoWhile.ZeroBoundDiverges`). Only `rep movsb` and
  `rep movsq` copy nothing at size 0.
- A length that is not a multiple of the element width does not make the
  element-counted routines undefined. They count `size / w` elements and
  leave the trailing `size % w` bytes of the destination unchanged
  (`Routines.BytesCopiedBounds`). Only the byte-counted loops need an exact
  multiple to end.

## Model

| member | source | states |
|---|---|---|
| DoWhile.FirstExit | src/lib.rs:9-11 | the first iteration after which the counter equals the bound is the one after which the loop exits: no earlier test falls through |
| DoWhile.ExitCount | src/lib.rs:48-50 | a loop that exits after `k` iterations has a bound that is a multiple of the step, and `k` is the bound divided by the step |
| DoWhile.TerminatesIff | src/lib.rs:48-50 | the do-while loop terminates if and only if the bound is a positive multiple of the step |
| DoWhile.ZeroBoundDiverges | src/lib.rs:6-11 | a bound of 0 is never met: the counter has passed it before the first test |
| Machine.Store | src/lib.rs:8 | a store writes the register's bytes at the offset and leaves every other byte unchanged, whether or not the store is non-temporal |
| Machine.VectorLoad | src/lib.rs:46 | an aligned vector load is allowed only at a multiple of its width and returns the bytes at the offset |
| Machine.VectorStore | src/lib.rs:47 | an aligned vector store is allowed only at a multiple of its width and overwrites exactly its bytes |
| Machine.RepMovs | src/lib.rs:391-397 | REP MOVS with the direction flag clear moves RCX elements forward from source to destination, ends with RCX = 0, copies nothing when RCX is 0 and never writes the source |
| Machine.CopiedChunk | src/lib.rs:7-8 | storing the source chunk `[k, k + w)` at offset `k` extends the copied prefix from `k` to `k + w` |
| Machine.CopiedTwice | benches/memcpy.rs:200 | copying the same prefix again leaves memory as it was |
| Routines.Alignment | src/lib.rs:46-47 | every routine demands alignment 1, 16 or 32 |
| Routines.SizeOkIffLoopExits | src/lib.rs:9-15 | the size precondition of each loop routine is exactly its do-while termination condition: against `size / w` with step 1 for element-counted loops, against `size` with the routine's step for byte-counted ones |
| Routines.BytesCopiedBounds | src/lib.rs:15 | no routine copies more than `size` bytes; element-counted routines and block moves leave exactly the trailing `size % w` bytes uncopied; byte-counted routines copy all `size` bytes |
| Routines.ZeroSize | src/lib.rs:388-399 | size 0 meets the precondition only for the block moves, and they then copy nothing |
| Routines.VariantsAgree | src/lib.rs:82-120 | wherever an unrolled or non-temporal variant may run, the plain routine of its width may run too, with the same alignment and AVX needs, and both copy the same bytes |
| Memcpy.VariantMatchesPlain | src/lib.rs:82-120 | an unrolled or non-temporal variant and the plain routine of its width, run on the same source and on equal destinations, leave equal destinations |
| Routines.WholeBufferCopy | src/lib.rs:41-59 | for a size that ends the loop and is a whole number of elements, copying a buffer into an equal-length destination reproduces the source |
| Routines.ShortSizeDiverges | src/lib.rs:3-20 | a size below one element gives an element-counted loop the bound 0, which it never meets |
| Memcpy.MemcpyMov32 | src/lib.rs:3-20 | runs exactly `size / 4` iterations, copies the first `4 * (size / 4)` bytes, leaves the rest of the destination and all of the source unchanged; requires `size >= 4` |
| Memcpy.MemcpyMov64 | src/lib.rs:22-39 | the same as MemcpyMov32 with 8-byte elements |
| Memcpy.MemcpyMov128 | src/lib.rs:41-59 | for a positive multiple of 16 and 16-aligned buffers, runs `size / 16` iterations and copies all `size` bytes without writing the source |
| Memcpy.MemcpyMov256 | src/lib.rs:61-80 | the same as MemcpyMov128 with 32-byte `vmovdqa` moves and 32-byte alignment |
| Memcpy.MemcpyMov64Pl | src/lib.rs:82-120 | for a positive multiple of 64, runs `size / 64` iterations of eight loads then eight stores and copies all `size` bytes |
| Memcpy.MemcpyMov128Pl | src/lib.rs:122-161 | for a positive multiple of 128 and 16-aligned buffers, eight aligned loads into xmm0..xmm7 then eight stores per iteration copy all `size` bytes |
| Memcpy.MemcpyMov256Pl | src/lib.rs:163-203 | for a positive multiple of 256 and 32-aligned buffers, eight aligned loads into ymm0..ymm7 then eight stores per iteration copy all `size` bytes |
| Memcpy.MemcpyMov64Nt | src/lib.rs:205-222 | the same as MemcpyMov64 although the stores are `movnti` |
| Memcpy.MemcpyMov128Nt | src/lib.rs:224-242 | the same as MemcpyMov128 although the stores are `movntdq` |
| Memcpy.MemcpyMov256Nt | src/lib.rs:244-263 | the same as MemcpyMov256 although the stores are `vmovntdq` |
| Memcpy.MemcpyMov64NtPl | src/lib.rs:265-303 | the same as MemcpyMov64Pl although the stores are `movnti` |
| Memcpy.MemcpyMov128NtPl | src/lib.rs:305-344 | the same as MemcpyMov128Pl although the stores are `movntdq` |
| Memcpy.MemcpyMov256NtPl | src/lib.rs:346-386 | the same as MemcpyMov256Pl although the stores are `vmovntdq` |
| Memcpy.MemcpyRepMovsb | src/lib.rs:388-399 | copies exactly `size` bytes forward, none when `size` is 0, without writing the source |
| Memcpy.MemcpyRepMovsq | src/lib.rs:401-412 | copies `size / 8` quadwords, that is `8 * (size / 8)` bytes, and leaves the trailing `size % 8` destination bytes unchanged |
| Memcpy.Run | src/lib.rs:3-412 | every library routine, called under its precondition, copies exactly `Routines.BytesCopied` leading bytes and never writes the source |
| Bench.MemcpyMov32 | benches/memcpy.rs:7-24 | the bench copy counts 4-byte elements against `size / 4`: it copies `4 * (size / 4)` bytes and needs `size >= 4` |
| Bench.MemcpyMov64 | benches/memcpy.rs:26-43 | the bench copy counts 8-byte elements against `size / 8`: it copies `8 * (size / 8)` bytes and needs `size >= 8` |
| Bench.MemcpyMov128 | benches/memcpy.rs:45-62 | for a positive multiple of 16 and 16-aligned buffers, copies all `size` bytes |
| Bench.MemcpyMov256 | benches/memcpy.rs:64-82 | for a positive multiple of 32 and 32-aligned buffers, copies all `size` bytes |
| Bench.MemcpyMov128Nt | benches/memcpy.rs:84-101 | the same as Bench.MemcpyMov128 although the stores are `movntdq` |
| Bench.MemcpyMov256Nt | benches/memcpy.rs:103-121 | the same as Bench.MemcpyMov256 although the stores are `vmovntdq` |
| Bench.MemcpyRepMovsb | benches/memcpy.rs:123-133 | the size goes into RCX unchanged, so exactly `size` bytes are copied |
| Bench.MemcpyRepMovsq | benches/memcpy.rs:135-146 | after the in-place `_size /= 8`, `8 * (size / 8)` bytes are copied |
| Bench.LibraryCounterparts | benches/memcpy.rs:7-146 | the eight bench routines correspond to eight distinct library routines, none unrolled, and exactly `mov 256` and `mov 256 (nt)` need AVX |
| Bench.Call | benches/memcpy.rs:196-200 | each bench routine, called as the `memcpy` argument of `run_benchmark`, copies exactly what its library counterpart copies |
| Bench.CatalogueShape | benches/memcpy.rs:204-213 | the catalogue has eight entries with AVX and six without; the AVX build adds `mov 256` after `mov 128` and `mov 256 (nt)` after `mov 128 (nt)`; names are distinct; an entry needing AVX appears only in the AVX build |
| Bench.DriverSizeMeets | benches/memcpy.rs:204-213 | a positive multiple of 16, and of 32 in the AVX build, ends the loop of every routine that the build contains |
| Bench.DriverSizeCopiesWhole | benches/memcpy.rs:194-213 | at a driver size, every routine that the build contains copies the whole buffer: all `size` bytes, not just a prefix |
| Bench.DriverSizeMeetsAll | benches/memcpy.rs:204-213 | for all routines that the build contains at once: the loop ends (DriverSizeMeets), and all `size` bytes are copied (DriverSizeCopiesWhole) |
| Bench.DriverSizeCondition | benches/memcpy.rs:204-213 | every catalogued routine's loop ends for a size exactly when it is a positive multiple of 16, or of 32 with AVX |
| Bench.BenchSizes | benches/memcpy.rs:216-226 | the entry points pass 2048, 4194304 and 1073741824 bytes, each a positive multiple of 32 |
| Bench.PageAligned | benches/memcpy.rs:197-198 | a page-aligned buffer meets every routine's alignment |
| Bench.MapAnon | benches/memcpy.rs:197-198 | each mapping is a fresh, zero-filled, page-aligned buffer of the requested length |
| Bench.TimedCopies | benches/memcpy.rs:199-201 | criterion's repeated calls leave what one call leaves: the routine's copied prefix, or the untouched destination if it never calls |
| Bench.RunBenchmark | benches/memcpy.rs:196-202 | needs only a `raw_size` that ends the routine's loop: the fresh page-aligned buffers of `raw_size` bytes it maps meet the rest of the routine's precondition; it registers exactly the named benchmark |
| Bench.Optional | benches/memcpy.rs:207-211 | a registration under `#[cfg(target_feature = "avx")]` adds at most one entry, and adds it exactly when the build has AVX |
| Bench.CatalogueInOrder | benches/memcpy.rs:204-213 | the eight `run_benchmark` calls, in source order and with the two AVX-only ones conditional, register exactly the catalogue |
| Bench.RunBenchmarkMemcpy | benches/memcpy.rs:194-214 | registers exactly the catalogue entries in order, given a size that ends every catalogued loop |
| Bench.BenchmarkMemcpy2Kib | benches/memcpy.rs:216-218 | at 2 KiB every precondition holds and the whole catalogue is registered |
| Bench.BenchmarkMemcpy4Mib | benches/memcpy.rs:220-222 | at 4 MiB every precondition holds and the whole catalogue is registered |
| Bench.BenchmarkMemcpy1Gib | benches/memcpy.rs:224-226 | at 1 GiB every precondition holds and the whole catalogue is registered |

## Left out

- Timing: the criterion measurement, the results table in the doc comment and `criterion_group!`/`criterion_main!` are not modelled. Wall-clock statistics have no counterpart in the model. Criterion is reduced to the list of benchmarks registered with it and to `reps`, the number of times it calls a routine.
- Bench.MapAnon: a failing `map_anon` and the driver's `unwrap` are not modelled. Absolute addresses are not modelled beyond a ghost base that is a multiple of the 4 KiB page size.
- `ByteSize` formatting (`to_string_as`) and the benchmark id built with `format!` are not modelled. The registered entry is the bare name.
- Bench.Kib, Bench.Mib, Bench.Gib: a product past `u64` is excluded by a precondition. It would panic or wrap depending on the build. The entry points never come near it.
- Cache, write-combining and memory-ordering effects of the non-temporal stores are not modelled. The store hint has no effect on the sequential memory state.
- `vzeroall`, the register operands declared as clobbered and the commented-out `ymm` clobbers are not modelled. The clobbered operands are scratch registers: general-purpose ones (`temp = out(reg)` at src/lib.rs:16 and 35, `temp0` to `temp7` at src/lib.rs:109-116 and 291-298) and vector ones. None of them is memory, and the model tracks memory only. `vzeroall` is an AVX instruction, yet it starts the library's 128-bit routines, which are not gated on AVX. The model does not track instruction-set availability, so it does not capture that these routines need AVX too.
- Memcpy.MemcpyMov32 (and every loop routine): the 64-bit counter is an unbounded integer. A loop whose bound is never met (size 0, a size below one element, a size that is not a multiple of the step) is excluded by a precondition. On the machine, such a counter would wrap around or fault.
- Alignment faults are not modelled as traps. They are excluded by the alignment preconditions.
- Machine.RepMovs: the final RSI and RDI, which `rep movs` advances by RCX times the element width, are not modelled. The source declares both registers input-only (`in("rsi")` and `in("rdi")` at src/lib.rs:393-394 and 406-407, and at benches/memcpy.rs:127-128 and 140-141). Because the instruction changes them, this breaks the operand contract of `asm!`. The model keeps only the memory effect and the final RCX = 0.
- The direction flag is taken as clear, as the ABI guarantees, so `rep movs` always copies forward.
- `#![feature(asm)]` and `cfg` compilation are modelled only as the Boolean `avx` of the bench catalogue. The library model keeps all fifteen routines, with `Routines.NeedsAvx` marking the AVX-only ones.
- Bench.RunBenchmark: in the source the buffers are locals of the closure and are unmapped when it returns. The model drops them on return and does not model the unmapping.
