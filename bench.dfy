/**
 * The benchmark (benches/memcpy.rs): its own copies of eight of the
 * library routines, the catalogue it runs them from, and the driver that
 * maps the buffers and fixes the copy size. Timing, the criterion framework
 * and the printed results are not modelled; the number of times criterion
 * calls a routine is a parameter.
 */
module Bench {
  import opened Machine
  import Routines
  import DoWhile
  import Arith

  // ---------------------------------------------------------------------
  // The bench's copies of the routines, without the library's `vzeroall`.
  // ---------------------------------------------------------------------

  /**
   * The bench's `memcpy_mov_32`: one 32-bit `mov` load and store per iteration.
   * The counter counts 4-byte elements against `size / 4`, so the
   * trailing `size % 4` bytes are not copied, and the body runs once
   * before the first test, so `size` must hold at least one element.
   */
  method MemcpyMov32(size: usize, source: array<byte>, destination: array<byte>) returns (ghost iterations: nat)
    requires source != destination
    requires size <= source.Length && size <= destination.Length
    requires 4 <= size
    modifies destination
    ensures DoWhile.ExitsAfter(size / 4, 1, iterations) && iterations == size / 4
    ensures destination[..] == Copied(old(destination[..]), source[..], 4 * (size / 4))
    ensures unchanged(source)
  {
    ghost var dst0, src := destination[..], source[..];
    var bound: usize := size / 4;
    var counter: usize := 0;
    iterations := 0;
    while true
      invariant counter < bound && iterations == counter
      invariant destination[..] == Copied(dst0, src, 4 * counter)
      decreases bound - counter
    {
      assert 4 * counter + 4 <= size;
      var temp := source[4 * counter..4 * counter + 4];
      Store(destination, 4 * counter, temp, Temporal);
      CopiedChunk(dst0, src, 4 * counter, 4);
      counter := counter + 1;
      iterations := iterations + 1;
      if counter == bound { break; }
    }
    DoWhile.FirstExit(bound, 1, iterations);
  }

  /**
   * The bench's `memcpy_mov_64`: one 64-bit `mov` load and store per iteration.
   * The counter counts 8-byte elements against `size / 8`, so the
   * trailing `size % 8` bytes are not copied, and the body runs once
   * before the first test, so `size` must hold at least one element.
   */
  method MemcpyMov64(size: usize, source: array<byte>, destination: array<byte>) returns (ghost iterations: nat)
    requires source != destination
    requires size <= source.Length && size <= destination.Length
    requires 8 <= size
    modifies destination
    ensures DoWhile.ExitsAfter(size / 8, 1, iterations) && iterations == size / 8
    ensures destination[..] == Copied(old(destination[..]), source[..], 8 * (size / 8))
    ensures unchanged(source)
  {
    ghost var dst0, src := destination[..], source[..];
    var bound: usize := size / 8;
    var counter: usize := 0;
    iterations := 0;
    while true
      invariant counter < bound && iterations == counter
      invariant destination[..] == Copied(dst0, src, 8 * counter)
      decreases bound - counter
    {
      assert 8 * counter + 8 <= size;
      var temp := source[8 * counter..8 * counter + 8];
      Store(destination, 8 * counter, temp, Temporal);
      CopiedChunk(dst0, src, 8 * counter, 8);
      counter := counter + 1;
      iterations := iterations + 1;
      if counter == bound { break; }
    }
    DoWhile.FirstExit(bound, 1, iterations);
  }

  /**
   * The bench's `memcpy_mov_128`: one `movdqa` load and store per iteration.
   * The counter counts bytes in steps of 16 and the loop leaves only when
   * it equals `size`, so `size` must be a positive multiple of 16.
   */
  method MemcpyMov128(size: usize, source: array<byte>, destination: array<byte>, ghost sourceBase: nat, ghost destinationBase: nat) returns (ghost iterations: nat)
    requires source != destination
    requires size <= source.Length && size <= destination.Length
    requires 0 < size && size % 16 == 0
    requires Aligned(sourceBase, 16) && Aligned(destinationBase, 16)
    modifies destination
    ensures DoWhile.ExitsAfter(size, 16, iterations) && iterations == size / 16
    ensures destination[..] == Copied(old(destination[..]), source[..], size)
    ensures unchanged(source)
  {
    ghost var dst0, src := destination[..], source[..];
    AlignedBlock(sourceBase, 16);
    AlignedBlock(destinationBase, 16);
    ghost var sourceBlock, destinationBlock := sourceBase / 16, destinationBase / 16;
    var counter: usize := 0;
    iterations := 0;
    while true
      invariant counter < size && counter == 16 * iterations
      invariant sourceBase + counter == sourceBlock * 16 && destinationBase + counter == destinationBlock * 16
      invariant destination[..] == Copied(dst0, src, counter)
      decreases size - counter
    {
      assert counter + 16 <= size;
      var temp := VectorLoad(source, sourceBase, counter, 16, sourceBlock);
      VectorStore(destination, destinationBase, counter, 16, destinationBlock, temp, Temporal);
      CopiedChunk(dst0, src, counter, 16);
      sourceBlock, destinationBlock := sourceBlock + 1, destinationBlock + 1;
      counter := counter + 16;
      iterations := iterations + 1;
      if counter == size { break; }
    }
    DoWhile.FirstExit(size, 16, iterations);
  }

  /**
   * The bench's `memcpy_mov_256` (AVX only): one `vmovdqa` load and store per iteration.
   * The counter counts bytes in steps of 32 and the loop leaves only when
   * it equals `size`, so `size` must be a positive multiple of 32.
   */
  method MemcpyMov256(size: usize, source: array<byte>, destination: array<byte>, ghost sourceBase: nat, ghost destinationBase: nat) returns (ghost iterations: nat)
    requires source != destination
    requires size <= source.Length && size <= destination.Length
    requires 0 < size && size % 32 == 0
    requires Aligned(sourceBase, 32) && Aligned(destinationBase, 32)
    modifies destination
    ensures DoWhile.ExitsAfter(size, 32, iterations) && iterations == size / 32
    ensures destination[..] == Copied(old(destination[..]), source[..], size)
    ensures unchanged(source)
  {
    ghost var dst0, src := destination[..], source[..];
    AlignedBlock(sourceBase, 32);
    AlignedBlock(destinationBase, 32);
    ghost var sourceBlock, destinationBlock := sourceBase / 32, destinationBase / 32;
    var counter: usize := 0;
    iterations := 0;
    while true
      invariant counter < size && counter == 32 * iterations
      invariant sourceBase + counter == sourceBlock * 32 && destinationBase + counter == destinationBlock * 32
      invariant destination[..] == Copied(dst0, src, counter)
      decreases size - counter
    {
      assert counter + 32 <= size;
      var temp := VectorLoad(source, sourceBase, counter, 32, sourceBlock);
      VectorStore(destination, destinationBase, counter, 32, destinationBlock, temp, Temporal);
      CopiedChunk(dst0, src, counter, 32);
      sourceBlock, destinationBlock := sourceBlock + 1, destinationBlock + 1;
      counter := counter + 32;
      iterations := iterations + 1;
      if counter == size { break; }
    }
    DoWhile.FirstExit(size, 32, iterations);
  }

  /**
   * The bench's `memcpy_mov_128_nt`: a `movdqa` load and a `movntdq` store per iteration.
   * The counter counts bytes in steps of 16 and the loop leaves only when
   * it equals `size`, so `size` must be a positive multiple of 16.
   */
  method MemcpyMov128Nt(size: usize, source: array<byte>, destination: array<byte>, ghost sourceBase: nat, ghost destinationBase: nat) returns (ghost iterations: nat)
    requires source != destination
    requires size <= source.Length && size <= destination.Length
    requires 0 < size && size % 16 == 0
    requires Aligned(sourceBase, 16) && Aligned(destinationBase, 16)
    modifies destination
    ensures DoWhile.ExitsAfter(size, 16, iterations) && iterations == size / 16
    ensures destination[..] == Copied(old(destination[..]), source[..], size)
    ensures unchanged(source)
  {
    ghost var dst0, src := destination[..], source[..];
    AlignedBlock(sourceBase, 16);
    AlignedBlock(destinationBase, 16);
    ghost var sourceBlock, destinationBlock := sourceBase / 16, destinationBase / 16;
    var counter: usize := 0;
    iterations := 0;
    while true
      invariant counter < size && counter == 16 * iterations
      invariant sourceBase + counter == sourceBlock * 16 && destinationBase + counter == destinationBlock * 16
      invariant destination[..] == Copied(dst0, src, counter)
      decreases size - counter
    {
      assert counter + 16 <= size;
      var temp := VectorLoad(source, sourceBase, counter, 16, sourceBlock);
      VectorStore(destination, destinationBase, counter, 16, destinationBlock, temp, NonTemporal);
      CopiedChunk(dst0, src, counter, 16);
      sourceBlock, destinationBlock := sourceBlock + 1, destinationBlock + 1;
      counter := counter + 16;
      iterations := iterations + 1;
      if counter == size { break; }
    }
    DoWhile.FirstExit(size, 16, iterations);
  }

  /**
   * The bench's `memcpy_mov_256_nt` (AVX only): a `vmovdqa` load and a `vmovntdq` store per iteration.
   * The counter counts bytes in steps of 32 and the loop leaves only when
   * it equals `size`, so `size` must be a positive multiple of 32.
   */
  method MemcpyMov256Nt(size: usize, source: array<byte>, destination: array<byte>, ghost sourceBase: nat, ghost destinationBase: nat) returns (ghost iterations: nat)
    requires source != destination
    requires size <= source.Length && size <= destination.Length
    requires 0 < size && size % 32 == 0
    requires Aligned(sourceBase, 32) && Aligned(destinationBase, 32)
    modifies destination
    ensures DoWhile.ExitsAfter(size, 32, iterations) && iterations == size / 32
    ensures destination[..] == Copied(old(destination[..]), source[..], size)
    ensures unchanged(source)
  {
    ghost var dst0, src := destination[..], source[..];
    AlignedBlock(sourceBase, 32);
    AlignedBlock(destinationBase, 32);
    ghost var sourceBlock, destinationBlock := sourceBase / 32, destinationBase / 32;
    var counter: usize := 0;
    iterations := 0;
    while true
      invariant counter < size && counter == 32 * iterations
      invariant sourceBase + counter == sourceBlock * 32 && destinationBase + counter == destinationBlock * 32
      invariant destination[..] == Copied(dst0, src, counter)
      decreases size - counter
    {
      assert counter + 32 <= size;
      var temp := VectorLoad(source, sourceBase, counter, 32, sourceBlock);
      VectorStore(destination, destinationBase, counter, 32, destinationBlock, temp, NonTemporal);
      CopiedChunk(dst0, src, counter, 32);
      sourceBlock, destinationBlock := sourceBlock + 1, destinationBlock + 1;
      counter := counter + 32;
      iterations := iterations + 1;
      if counter == size { break; }
    }
    DoWhile.FirstExit(size, 32, iterations);
  }

  /**
   * The bench's `memcpy_rep_movsb`: the size parameter goes into RCX
   * unchanged as the byte count of one `rep movsb`.
   */
  method MemcpyRepMovsb(size: usize, source: array<byte>, destination: array<byte>)
    requires source != destination
    requires size <= source.Length && size <= destination.Length
    modifies destination
    ensures destination[..] == Copied(old(destination[..]), source[..], size)
    ensures unchanged(source)
  {
    var count := size;
    count := RepMovs(1, count, source, destination);
  }

  /**
   * The bench's `memcpy_rep_movsq`: the size parameter is divided by 8 in
   * place, then goes into RCX as the quadword count of one `rep movsq`.
   */
  method MemcpyRepMovsq(size: usize, source: array<byte>, destination: array<byte>)
    requires source != destination
    requires size <= source.Length && size <= destination.Length
    modifies destination
    ensures destination[..] == Copied(old(destination[..]), source[..], 8 * (size / 8))
    ensures unchanged(source)
  {
    var count := size;
    count := count / 8;
    count := RepMovs(8, count, source, destination);
  }

  // ---------------------------------------------------------------------
  // The catalogue.
  // ---------------------------------------------------------------------

  /** The routines the bench file defines, each the counterpart of a library routine. */
  datatype BenchRoutine = Mov32 | Mov64 | Mov128 | Mov256 | Mov128Nt | Mov256Nt | RepMovsb | RepMovsq

  /** The library routine (src/lib.rs) with the same instructions as a bench routine. */
  function Library(b: BenchRoutine): (r: Routines.Routine)
  {
    match b
    case Mov32 => Routines.Mov32
    case Mov64 => Routines.Mov64
    case Mov128 => Routines.Mov128
    case Mov256 => Routines.Mov256
    case Mov128Nt => Routines.Mov128Nt
    case Mov256Nt => Routines.Mov256Nt
    case RepMovsb => Routines.RepMovsb
    case RepMovsq => Routines.RepMovsq
  }

  /**
   * The bench routines are eight distinct library routines, none of them
   * unrolled; exactly `mov 256` and `mov 256 (nt)` need AVX.
   */
  lemma LibraryCounterparts()
    ensures forall b, c :: Library(b) == Library(c) ==> b == c
    ensures forall b :: !Routines.Unrolled(Library(b))
    ensures forall b :: Routines.NeedsAvx(Library(b)) <==> b in {Mov256, Mov256Nt}
  {
  }

  /**
   * Calls the routine passed to `run_benchmark` as `memcpy`: each bench routine
   * copies what its library counterpart copies (Routines.BytesCopied).
   */
  method Call(b: BenchRoutine, size: usize, source: array<byte>, destination: array<byte>,
              ghost sourceBase: nat, ghost destinationBase: nat)
    requires source != destination
    requires Routines.Pre(Library(b), size, source.Length, destination.Length, sourceBase, destinationBase)
    modifies destination
    ensures destination[..] == Copied(old(destination[..]), source[..], Routines.BytesCopied(Library(b), size))
    ensures unchanged(source)
  {
    match b
    case Mov32 =>
      assert Library(b) == Routines.Mov32;
      var _ := MemcpyMov32(size, source, destination);
    case Mov64 =>
      assert Library(b) == Routines.Mov64;
      var _ := MemcpyMov64(size, source, destination);
    case Mov128 =>
      assert Library(b) == Routines.Mov128;
      var _ := MemcpyMov128(size, source, destination, sourceBase, destinationBase);
    case Mov256 =>
      assert Library(b) == Routines.Mov256;
      var _ := MemcpyMov256(size, source, destination, sourceBase, destinationBase);
    case Mov128Nt =>
      assert Library(b) == Routines.Mov128Nt;
      var _ := MemcpyMov128Nt(size, source, destination, sourceBase, destinationBase);
    case Mov256Nt =>
      assert Library(b) == Routines.Mov256Nt;
      var _ := MemcpyMov256Nt(size, source, destination, sourceBase, destinationBase);
    case RepMovsb =>
      assert Library(b) == Routines.RepMovsb;
      MemcpyRepMovsb(size, source, destination);
    case RepMovsq =>
      assert Library(b) == Routines.RepMovsq;
      MemcpyRepMovsq(size, source, destination);
  }

  /** The benchmark names `run_benchmark_memcpy` passes to `run_benchmark`. */
  const MOV_32: string := "mov 32"
  const MOV_64: string := "mov 64"
  const MOV_128: string := "mov 128"
  const MOV_256: string := "mov 256"
  const MOV_128_NT: string := "mov 128 (nt)"
  const MOV_256_NT: string := "mov 256 (nt)"
  const REP_MOVSB: string := "rep movsb"
  const REP_MOVSQ: string := "rep movsq"

  /** One `run_benchmark` call: the benchmark's name and the routine it times. */
  datatype Entry = Entry(name: string, routine: BenchRoutine)

  /**
   * The entries `run_benchmark_memcpy` runs, in order; `avx` is the
   * `target_feature = "avx"` configuration, which adds `mov 256` and
   * `mov 256 (nt)`.
   */
  function Catalogue(avx: bool): (c: seq<Entry>)
  {
    if avx then
      [Entry(MOV_32, Mov32), Entry(MOV_64, Mov64), Entry(MOV_128, Mov128), Entry(MOV_256, Mov256),
       Entry(MOV_128_NT, Mov128Nt), Entry(MOV_256_NT, Mov256Nt),
       Entry(REP_MOVSB, RepMovsb), Entry(REP_MOVSQ, RepMovsq)]
    else
      [Entry(MOV_32, Mov32), Entry(MOV_64, Mov64), Entry(MOV_128, Mov128),
       Entry(MOV_128_NT, Mov128Nt), Entry(REP_MOVSB, RepMovsb), Entry(REP_MOVSQ, RepMovsq)]
  }

  /**
   * The catalogue has eight entries with AVX and six without; the AVX build
   * inserts `mov 256` after `mov 128` and `mov 256 (nt)` after
   * `mov 128 (nt)` and changes nothing else; names are distinct, and an
   * entry needing AVX appears only in the AVX build.
   */
  lemma CatalogueShape(avx: bool)
    ensures |Catalogue(avx)| == if avx then 8 else 6
    ensures Catalogue(true) == Catalogue(false)[..3] + [Entry(MOV_256, Mov256)] +
      [Catalogue(false)[3]] + [Entry(MOV_256_NT, Mov256Nt)] + Catalogue(false)[4..]
    ensures forall i, j :: 0 <= i < j < |Catalogue(avx)| ==> Catalogue(avx)[i].name != Catalogue(avx)[j].name
    ensures forall e :: e in Catalogue(avx) && Routines.NeedsAvx(Library(e.routine)) ==> avx
  {
  }

  // ---------------------------------------------------------------------
  // Sizes and buffers.
  // ---------------------------------------------------------------------

  type u64 = x: int | 0 <= x < 0x1_0000_0000_0000_0000

  /** A byte count as the `bytesize` crate holds it. */
  datatype ByteSize = ByteSize(bytes: u64)

  const KIB: u64 := 1024
  const MIB: u64 := 1024 * 1024
  const GIB: u64 := 1024 * 1024 * 1024

  /** `ByteSize::kib`. */
  function Kib(n: u64): (s: ByteSize)
    requires n * KIB < 0x1_0000_0000_0000_0000
  {
    ByteSize(n * KIB)
  }

  /** `ByteSize::mib`. */
  function Mib(n: u64): (s: ByteSize)
    requires n * MIB < 0x1_0000_0000_0000_0000
  {
    ByteSize(n * MIB)
  }

  /** `ByteSize::gib`. */
  function Gib(n: u64): (s: ByteSize)
    requires n * GIB < 0x1_0000_0000_0000_0000
  {
    ByteSize(n * GIB)
  }

  /** `size.as_u64() as usize`: on a 64-bit target the cast keeps every value. */
  function RawSize(size: ByteSize): (raw: usize)
  {
    size.bytes
  }

  /**
   * The copy size the driver needs so that every catalogued routine's loop
   * exits: a positive multiple of the largest step in the catalogue.
   */
  predicate DriverSizeOk(avx: bool, size: nat)
  {
    0 < size && size % (if avx then 32 else 16) == 0
  }

  /** A driver size lets the loop of every routine the build has exit. */
  lemma DriverSizeMeets(avx: bool, size: nat, b: BenchRoutine)
    requires DriverSizeOk(avx, size) && (Routines.NeedsAvx(Library(b)) ==> avx)
    ensures Routines.SizeOk(Library(b), size)
  {
    if avx {
      Arith.MultipleOfFactor(size, 16, 2);
    }
    Arith.MultipleAtLeast(size / 16, 16);
  }

  /**
   * At a driver size every routine the build contains copies the whole
   * buffer: no element-counted routine or block move leaves a `size % w`
   * tail (with Routines.WholeBufferCopy, equal-length buffers end up equal).
   */
  lemma DriverSizeCopiesWhole(avx: bool, size: nat, b: BenchRoutine)
    requires DriverSizeOk(avx, size) && (Routines.NeedsAvx(Library(b)) ==> avx)
    ensures Routines.BytesCopied(Library(b), size) == size
  {
    if avx {
      Arith.MultipleOfFactor(size, 16, 2);
    }
    assert size % 16 == 0;
    match b
    case Mov32 =>
      Arith.MultipleOfFactor(size, 4, 4);
    case Mov64 | RepMovsq =>
      Arith.MultipleOfFactor(size, 8, 2);
    case _ =>
  }

  /** DriverSizeMeets and DriverSizeCopiesWhole for each routine of the catalogue. */
  lemma DriverSizeMeetsAll(avx: bool, size: nat)
    requires DriverSizeOk(avx, size)
    ensures forall b :: (Routines.NeedsAvx(Library(b)) ==> avx) ==> Routines.SizeOk(Library(b), size)
    ensures forall b :: (Routines.NeedsAvx(Library(b)) ==> avx) ==> Routines.BytesCopied(Library(b), size) == size
  {
    forall b | Routines.NeedsAvx(Library(b)) ==> avx
      ensures Routines.SizeOk(Library(b), size) && Routines.BytesCopied(Library(b), size) == size
    {
      DriverSizeMeets(avx, size, b);
      DriverSizeCopiesWhole(avx, size, b);
    }
  }

  /** DriverSizeOk is exactly "every catalogued routine's loop exits for `size`". */
  lemma DriverSizeCondition(avx: bool, size: nat)
    ensures (forall e :: e in Catalogue(avx) ==> Routines.SizeOk(Library(e.routine), size)) <==> DriverSizeOk(avx, size)
  {
    var c := Catalogue(avx);
    if DriverSizeOk(avx, size) {
      forall e | e in c
        ensures Routines.SizeOk(Library(e.routine), size)
      {
        DriverSizeMeets(avx, size, e.routine);
      }
    } else {
      var e := if avx && 0 < size && size % 16 == 0 then c[3] else c[2];
      assert e in c && !Routines.SizeOk(Library(e.routine), size);
    }
  }

  /** The three sizes the entry points pass: 2 KiB, 4 MiB and 1 GiB, each a positive multiple of 32. */
  lemma BenchSizes(avx: bool)
    ensures RawSize(Kib(2)) == 2048 && DriverSizeOk(avx, RawSize(Kib(2)))
    ensures RawSize(Mib(4)) == 4194304 && DriverSizeOk(avx, RawSize(Mib(4)))
    ensures RawSize(Gib(1)) == 1073741824 && DriverSizeOk(avx, RawSize(Gib(1)))
  {
  }

  /** Anonymous mappings start on a page boundary; x86-64 pages are 4 KiB. */
  const PAGE_SIZE: nat := 4096

  /** A page-aligned address meets the alignment of every routine (1, 16 or 32). */
  lemma PageAligned(address: nat, r: Routines.Routine)
    requires Aligned(address, PAGE_SIZE)
    ensures Aligned(address, Routines.Alignment(r))
  {
    Arith.MultipleOfFactor(address, 16, 256);
    Arith.MultipleOfFactor(address, 32, 128);
  }

  /** `n` zero bytes. */
  function Zeros(n: nat): (z: seq<byte>)
    ensures |z| == n && forall i :: 0 <= i < n ==> z[i] == 0
  {
    seq(n, _ => 0)
  }

  /**
   * `MmapMut::map_anon(len)`: a fresh zero-filled buffer of `len` bytes at a
   * page-aligned address. A failed mapping, which the driver unwraps, is
   * not modelled.
   */
  method MapAnon(len: usize) returns (buffer: array<byte>, ghost base: nat)
    ensures fresh(buffer) && buffer[..] == Zeros(len)
    ensures Aligned(base, PAGE_SIZE)
  {
    buffer := new byte[len](_ => 0);
    base := 0;
  }

  // ---------------------------------------------------------------------
  // The driver.
  // ---------------------------------------------------------------------

  /**
   * `b.iter(|| memcpy(raw_size, source, destination))`: criterion calls the
   * routine `reps` times on the same buffers. Every call after the first
   * leaves memory as the first left it.
   */
  method TimedCopies(memcpy: BenchRoutine, rawSize: usize, reps: nat,
                     source: array<byte>, destination: array<byte>,
                     ghost sourceBase: nat, ghost destinationBase: nat)
    requires source != destination
    requires Routines.Pre(Library(memcpy), rawSize, source.Length, destination.Length, sourceBase, destinationBase)
    modifies destination
    ensures destination[..] == if reps == 0 then old(destination[..])
      else Copied(old(destination[..]), source[..], Routines.BytesCopied(Library(memcpy), rawSize))
    ensures unchanged(source)
  {
    ghost var dst0, src := destination[..], source[..];
    ghost var n := Routines.BytesCopied(Library(memcpy), rawSize);
    Routines.BytesCopiedBounds(Library(memcpy), rawSize);
    for k := 0 to reps
      invariant source[..] == src
      invariant destination[..] == if k == 0 then dst0 else Copied(dst0, src, n)
    {
      Call(memcpy, rawSize, source, destination, sourceBase, destinationBase);
      CopiedTwice(dst0, src, n);
    }
  }

  /**
   * The `run_benchmark` closure: maps a fresh source and a fresh destination
   * of `rawSize` bytes each, which meet the routine's precondition, and
   * registers with criterion (`benchmarks`, the names registered so far) a
   * benchmark that copies `rawSize` bytes between them `reps` times.
   */
  method RunBenchmark(benchmarks: seq<Entry>, name: string, memcpy: BenchRoutine, rawSize: usize, reps: nat)
    returns (registered: seq<Entry>)
    requires Routines.SizeOk(Library(memcpy), rawSize)
    ensures registered == benchmarks + [Entry(name, memcpy)]
  {
    var source, sourceBase := MapAnon(rawSize);
    var destination, destinationBase := MapAnon(rawSize);
    PageAligned(sourceBase, Library(memcpy));
    PageAligned(destinationBase, Library(memcpy));
    registered := benchmarks + [Entry(name, memcpy)];
    TimedCopies(memcpy, rawSize, reps, source, destination, sourceBase, destinationBase);
  }

  /**
   * `run_benchmark_memcpy`: registers the catalogue entries in order, each
   * with copy size `size.as_u64() as usize` and buffers of that length; the
   * AVX-only entries are registered only when `avx` holds.
   */
  /** The entry a `#[cfg(target_feature = "avx")]` registration adds: none without AVX. */
  function Optional(avx: bool, e: Entry): (s: seq<Entry>)
    ensures |s| <= 1 && (avx <==> e in s)
  {
    if avx then [e] else []
  }

  /** The driver's registrations, in source order, add up to the catalogue. */
  lemma CatalogueInOrder(c: seq<Entry>, avx: bool)
    ensures c + [Entry(MOV_32, Mov32)] + [Entry(MOV_64, Mov64)] + [Entry(MOV_128, Mov128)]
            + Optional(avx, Entry(MOV_256, Mov256)) + [Entry(MOV_128_NT, Mov128Nt)]
            + Optional(avx, Entry(MOV_256_NT, Mov256Nt)) + [Entry(REP_MOVSB, RepMovsb)]
            + [Entry(REP_MOVSQ, RepMovsq)] == c + Catalogue(avx)
  {
    if avx {
      assert Optional(avx, Entry(MOV_256, Mov256)) == [Entry(MOV_256, Mov256)];
    } else {
      assert Optional(avx, Entry(MOV_256, Mov256)) == [];
    }
  }

  method RunBenchmarkMemcpy(c: seq<Entry>, size: ByteSize, avx: bool, reps: nat) returns (registered: seq<Entry>)
    requires DriverSizeOk(avx, RawSize(size))
    ensures registered == c + Catalogue(avx)
  {
    var rawSize := RawSize(size);
    DriverSizeMeetsAll(avx, rawSize);
    registered := RunBenchmark(c, MOV_32, Mov32, rawSize, reps);
    registered := RunBenchmark(registered, MOV_64, Mov64, rawSize, reps);
    registered := RunBenchmark(registered, MOV_128, Mov128, rawSize, reps);
    ghost var before := registered;
    if avx {
      registered := RunBenchmark(registered, MOV_256, Mov256, rawSize, reps);
    }
    assert registered == before + Optional(avx, Entry(MOV_256, Mov256));
    registered := RunBenchmark(registered, MOV_128_NT, Mov128Nt, rawSize, reps);
    before := registered;
    if avx {
      registered := RunBenchmark(registered, MOV_256_NT, Mov256Nt, rawSize, reps);
    }
    assert registered == before + Optional(avx, Entry(MOV_256_NT, Mov256Nt));
    registered := RunBenchmark(registered, REP_MOVSB, RepMovsb, rawSize, reps);
    registered := RunBenchmark(registered, REP_MOVSQ, RepMovsq, rawSize, reps);
    CatalogueInOrder(c, avx);
  }

  /** `benchmark_memcpy_2kib`. */
  method BenchmarkMemcpy2Kib(c: seq<Entry>, avx: bool, reps: nat) returns (registered: seq<Entry>)
    ensures registered == c + Catalogue(avx)
  {
    BenchSizes(avx);
    registered := RunBenchmarkMemcpy(c, Kib(2), avx, reps);
  }

  /** `benchmark_memcpy_4mib`. */
  method BenchmarkMemcpy4Mib(c: seq<Entry>, avx: bool, reps: nat) returns (registered: seq<Entry>)
    ensures registered == c + Catalogue(avx)
  {
    BenchSizes(avx);
    registered := RunBenchmarkMemcpy(c, Mib(4), avx, reps);
  }

  /** `benchmark_memcpy_1gib`. */
  method BenchmarkMemcpy1Gib(c: seq<Entry>, avx: bool, reps: nat) returns (registered: seq<Entry>)
    ensures registered == c + Catalogue(avx)
  {
    BenchSizes(avx);
    registered := RunBenchmarkMemcpy(c, Gib(1), avx, reps);
  }
}
