/**
 * The library's copy routines (src/lib.rs), one method per routine. Each
 * copies from `source` into `destination` in place and never writes to
 * `source`. Every loop has the do-while shape described in module DoWhile.
 * The `vzeroall` that the vector routines run first clears vector
 * registers only and is not modelled.
 */
module Memcpy {
  import opened Machine
  import opened Routines
  import DoWhile

  /**
   * `memcpy_mov_32`: one 32-bit `mov` load and store per iteration.
   * The counter counts 4-byte elements against `size / 4`, so the
   * trailing `size % 4` bytes are not copied, and the body runs once
   * before the first test, so `size` must hold at least one element.
   */
  method MemcpyMov32(size: usize, source: array<byte>, destination: array<byte>) returns (ghost iterations: nat)
    requires source != destination
    requires size <= source.Length && size <= destination.Length
    requires 4 <= size
    modifies destination
    ensures DoWhile.ExitsAfter(size / 4, 1, iterations) && iterations == size / 4
    ensures destination[..] == Copied(old(destination[..]), source[..], 4 * (size / 4))
    ensures unchanged(source)
  {
    ghost var dst0, src := destination[..], source[..];
    var bound: usize := size / 4;
    var counter: usize := 0;
    iterations := 0;
    while true
      invariant counter < bound && iterations == counter
      invariant destination[..] == Copied(dst0, src, 4 * counter)
      decreases bound - counter
    {
      assert 4 * counter + 4 <= size;
      var temp := source[4 * counter..4 * counter + 4];
      Store(destination, 4 * counter, temp, Temporal);
      CopiedChunk(dst0, src, 4 * counter, 4);
      counter := counter + 1;
      iterations := iterations + 1;
      if counter == bound { break; }
    }
    DoWhile.FirstExit(bound, 1, iterations);
  }

  /**
   * `memcpy_mov_64`: one 64-bit `mov` load and store per iteration.
   * The counter counts 8-byte elements against `size / 8`, so the
   * trailing `size % 8` bytes are not copied, and the body runs once
   * before the first test, so `size` must hold at least one element.
   */
  method MemcpyMov64(size: usize, source: array<byte>, destination: array<byte>) returns (ghost iterations: nat)
    requires source != destination
    requires size <= source.Length && size <= destination.Length
    requires 8 <= size
    modifies destination
    ensures DoWhile.ExitsAfter(size / 8, 1, iterations) && iterations == size / 8
    ensures destination[..] == Copied(old(destination[..]), source[..], 8 * (size / 8))
    ensures unchanged(source)
  {
    ghost var dst0, src := destination[..], source[..];
    var bound: usize := size / 8;
    var counter: usize := 0;
    iterations := 0;
    while true
      invariant counter < bound && iterations == counter
      invariant destination[..] == Copied(dst0, src, 8 * counter)
      decreases bound - counter
    {
      assert 8 * counter + 8 <= size;
      var temp := source[8 * counter..8 * counter + 8];
      Store(destination, 8 * counter, temp, Temporal);
      CopiedChunk(dst0, src, 8 * counter, 8);
      counter := counter + 1;
      iterations := iterations + 1;
      if counter == bound { break; }
    }
    DoWhile.FirstExit(bound, 1, iterations);
  }

  /**
   * `memcpy_mov_128`: one `movdqa` load and store per iteration.
   * The counter counts bytes in steps of 16 and the loop leaves only when
   * it equals `size`, so `size` must be a positive multiple of 16.
   */
  method MemcpyMov128(size: usize, source: array<byte>, destination: array<byte>, ghost sourceBase: nat, ghost destinationBase: nat) returns (ghost iterations: nat)
    requires source != destination
    requires size <= source.Length && size <= destination.Length
    requires 0 < size && size % 16 == 0
    requires Aligned(sourceBase, 16) && Aligned(destinationBase, 16)
    modifies destination
    ensures DoWhile.ExitsAfter(size, 16, iterations) && iterations == size / 16
    ensures destination[..] == Copied(old(destination[..]), source[..], size)
    ensures unchanged(source)
  {
    ghost var dst0, src := destination[..], source[..];
    AlignedBlock(sourceBase, 16);
    AlignedBlock(destinationBase, 16);
    ghost var sourceBlock, destinationBlock := sourceBase / 16, destinationBase / 16;
    var counter: usize := 0;
    iterations := 0;
    while true
      invariant counter < size && counter == 16 * iterations
      invariant sourceBase + counter == sourceBlock * 16 && destinationBase + counter == destinationBlock * 16
      invariant destination[..] == Copied(dst0, src, counter)
      decreases size - counter
    {
      assert counter + 16 <= size;
      var temp := VectorLoad(source, sourceBase, counter, 16, sourceBlock);
      VectorStore(destination, destinationBase, counter, 16, destinationBlock, temp, Temporal);
      CopiedChunk(dst0, src, counter, 16);
      sourceBlock, destinationBlock := sourceBlock + 1, destinationBlock + 1;
      counter := counter + 16;
      iterations := iterations + 1;
      if counter == size { break; }
    }
    DoWhile.FirstExit(size, 16, iterations);
  }

  /**
   * `memcpy_mov_256` (AVX only): one `vmovdqa` load and store per iteration.
   * The counter counts bytes in steps of 32 and the loop leaves only when
   * it equals `size`, so `size` must be a positive multiple of 32.
   */
  method MemcpyMov256(size: usize, source: array<byte>, destination: array<byte>, ghost sourceBase: nat, ghost destinationBase: nat) returns (ghost iterations: nat)
    requires source != destination
    requires size <= source.Length && size <= destination.Length
    requires 0 < size && size % 32 == 0
    requires Aligned(sourceBase, 32) && Aligned(destinationBase, 32)
    modifies destination
    ensures DoWhile.ExitsAfter(size, 32, iterations) && iterations == size / 32
    ensures destination[..] == Copied(old(destination[..]), source[..], size)
    ensures unchanged(source)
  {
    ghost var dst0, src := destination[..], source[..];
    AlignedBlock(sourceBase, 32);
    AlignedBlock(destinationBase, 32);
    ghost var sourceBlock, destinationBlock := sourceBase / 32, destinationBase / 32;
    var counter: usize := 0;
    iterations := 0;
    while true
      invariant counter < size && counter == 32 * iterations
      invariant sourceBase + counter == sourceBlock * 32 && destinationBase + counter == destinationBlock * 32
      invariant destination[..] == Copied(dst0, src, counter)
      decreases size - counter
    {
      assert counter + 32 <= size;
      var temp := VectorLoad(source, sourceBase, counter, 32, sourceBlock);
      VectorStore(destination, destinationBase, counter, 32, destinationBlock, temp, Temporal);
      CopiedChunk(dst0, src, counter, 32);
      sourceBlock, destinationBlock := sourceBlock + 1, destinationBlock + 1;
      counter := counter + 32;
      iterations := iterations + 1;
      if counter == size { break; }
    }
    DoWhile.FirstExit(size, 32, iterations);
  }

  /**
   * `memcpy_mov_64_pl`: the 64-bit `mov` loop unrolled eight times.
   * Each iteration loads eight 8-byte chunks at offsets `counter`, ...,
   * `counter + 56` into eight registers, then stores all eight. The
   * counter counts bytes in steps of 64 and the loop leaves only when it
   * equals `size`, so `size` must be a positive multiple of 64.
   */
  method MemcpyMov64Pl(size: usize, source: array<byte>, destination: array<byte>) returns (ghost iterations: nat)
    requires source != destination
    requires size <= source.Length && size <= destination.Length
    requires 0 < size && size % 64 == 0
    modifies destination
    ensures DoWhile.ExitsAfter(size, 64, iterations) && iterations == size / 64
    ensures destination[..] == Copied(old(destination[..]), source[..], size)
    ensures unchanged(source)
  {
    ghost var dst0, src := destination[..], source[..];
    var counter: usize := 0;
    iterations := 0;
    while true
      invariant counter < size && counter == 64 * iterations
      invariant destination[..] == Copied(dst0, src, counter)
      decreases size - counter
    {
      assert counter + 64 <= size;
      var temp0 := source[counter..counter + 8];
      var temp1 := source[counter + 8..counter + 16];
      var temp2 := source[counter + 16..counter + 24];
      var temp3 := source[counter + 24..counter + 32];
      var temp4 := source[counter + 32..counter + 40];
      var temp5 := source[counter + 40..counter + 48];
      var temp6 := source[counter + 48..counter + 56];
      var temp7 := source[counter + 56..counter + 64];
      Store(destination, counter, temp0, Temporal);
      CopiedChunk(dst0, src, counter, 8);
      Store(destination, counter + 8, temp1, Temporal);
      CopiedChunk(dst0, src, counter + 8, 8);
      Store(destination, counter + 16, temp2, Temporal);
      CopiedChunk(dst0, src, counter + 16, 8);
      Store(destination, counter + 24, temp3, Temporal);
      CopiedChunk(dst0, src, counter + 24, 8);
      Store(destination, counter + 32, temp4, Temporal);
      CopiedChunk(dst0, src, counter + 32, 8);
      Store(destination, counter + 40, temp5, Temporal);
      CopiedChunk(dst0, src, counter + 40, 8);
      Store(destination, counter + 48, temp6, Temporal);
      CopiedChunk(dst0, src, counter + 48, 8);
      Store(destination, counter + 56, temp7, Temporal);
      CopiedChunk(dst0, src, counter + 56, 8);
      counter := counter + 64;
      iterations := iterations + 1;
      if counter == size { break; }
    }
    DoWhile.FirstExit(size, 64, iterations);
  }

  /**
   * `memcpy_mov_128_pl`: the `movdqa` loop unrolled eight times over xmm0..xmm7.
   * Each iteration loads eight 16-byte chunks at offsets `counter`, ...,
   * `counter + 112` into eight registers, then stores all eight. The
   * counter counts bytes in steps of 128 and the loop leaves only when it
   * equals `size`, so `size` must be a positive multiple of 128.
   */
  method MemcpyMov128Pl(size: usize, source: array<byte>, destination: array<byte>, ghost sourceBase: nat, ghost destinationBase: nat) returns (ghost iterations: nat)
    requires source != destination
    requires size <= source.Length && size <= destination.Length
    requires 0 < size && size % 128 == 0
    requires Aligned(sourceBase, 16) && Aligned(destinationBase, 16)
    modifies destination
    ensures DoWhile.ExitsAfter(size, 128, iterations) && iterations == size / 128
    ensures destination[..] == Copied(old(destination[..]), source[..], size)
    ensures unchanged(source)
  {
    ghost var dst0, src := destination[..], source[..];
    AlignedBlock(sourceBase, 16);
    AlignedBlock(destinationBase, 16);
    ghost var sourceBlock, destinationBlock := sourceBase / 16, destinationBase / 16;
    var counter: usize := 0;
    iterations := 0;
    while true
      invariant counter < size && counter == 128 * iterations
      invariant sourceBase + counter == sourceBlock * 16 && destinationBase + counter == destinationBlock * 16
      invariant destination[..] == Copied(dst0, src, counter)
      decreases size - counter
    {
      assert counter + 128 <= size;
      var xmm0 := VectorLoad(source, sourceBase, counter, 16, sourceBlock);
      var xmm1 := VectorLoad(source, sourceBase, counter + 16, 16, sourceBlock + 1);
      var xmm2 := VectorLoad(source, sourceBase, counter + 32, 16, sourceBlock + 2);
      var xmm3 := VectorLoad(source, sourceBase, counter + 48, 16, sourceBlock + 3);
      var xmm4 := VectorLoad(source, sourceBase, counter + 64, 16, sourceBlock + 4);
      var xmm5 := VectorLoad(source, sourceBase, counter + 80, 16, sourceBlock + 5);
      var xmm6 := VectorLoad(source, sourceBase, counter + 96, 16, sourceBlock + 6);
      var xmm7 := VectorLoad(source, sourceBase, counter + 112, 16, sourceBlock + 7);
      VectorStore(destination, destinationBase, counter, 16, destinationBlock, xmm0, Temporal);
      CopiedChunk(dst0, src, counter, 16);
      VectorStore(destination, destinationBase, counter + 16, 16, destinationBlock + 1, xmm1, Temporal);
      CopiedChunk(dst0, src, counter + 16, 16);
      VectorStore(destination, destinationBase, counter + 32, 16, destinationBlock + 2, xmm2, Temporal);
      CopiedChunk(dst0, src, counter + 32, 16);
      VectorStore(destination, destinationBase, counter + 48, 16, destinationBlock + 3, xmm3, Temporal);
      CopiedChunk(dst0, src, counter + 48, 16);
      VectorStore(destination, destinationBase, counter + 64, 16, destinationBlock + 4, xmm4, Temporal);
      CopiedChunk(dst0, src, counter + 64, 16);
      VectorStore(destination, destinationBase, counter + 80, 16, destinationBlock + 5, xmm5, Temporal);
      CopiedChunk(dst0, src, counter + 80, 16);
      VectorStore(destination, destinationBase, counter + 96, 16, destinationBlock + 6, xmm6, Temporal);
      CopiedChunk(dst0, src, counter + 96, 16);
      VectorStore(destination, destinationBase, counter + 112, 16, destinationBlock + 7, xmm7, Temporal);
      CopiedChunk(dst0, src, counter + 112, 16);
      sourceBlock, destinationBlock := sourceBlock + 8, destinationBlock + 8;
      counter := counter + 128;
      iterations := iterations + 1;
      if counter == size { break; }
    }
    DoWhile.FirstExit(size, 128, iterations);
  }

  /**
   * `memcpy_mov_256_pl` (AVX only): the `vmovdqa` loop unrolled eight times over ymm0..ymm7.
   * Each iteration loads eight 32-byte chunks at offsets `counter`, ...,
   * `counter + 224` into eight registers, then stores all eight. The
   * counter counts bytes in steps of 256 and the loop leaves only when it
   * equals `size`, so `size` must be a positive multiple of 256.
   */
  method MemcpyMov256Pl(size: usize, source: array<byte>, destination: array<byte>, ghost sourceBase: nat, ghost destinationBase: nat) returns (ghost iterations: nat)
    requires source != destination
    requires size <= source.Length && size <= destination.Length
    requires 0 < size && size % 256 == 0
    requires Aligned(sourceBase, 32) && Aligned(destinationBase, 32)
    modifies destination
    ensures DoWhile.ExitsAfter(size, 256, iterations) && iterations == size / 256
    ensures destination[..] == Copied(old(destination[..]), source[..], size)
    ensures unchanged(source)
  {
    ghost var dst0, src := destination[..], source[..];
    AlignedBlock(sourceBase, 32);
    AlignedBlock(destinationBase, 32);
    ghost var sourceBlock, destinationBlock := sourceBase / 32, destinationBase / 32;
    var counter: usize := 0;
    iterations := 0;
    while true
      invariant counter < size && counter == 256 * iterations
      invariant sourceBase + counter == sourceBlock * 32 && destinationBase + counter == destinationBlock * 32
      invariant destination[..] == Copied(dst0, src, counter)
      decreases size - counter
    {
      assert counter + 256 <= size;
      var ymm0 := VectorLoad(source, sourceBase, counter, 32, sourceBlock);
      var ymm1 := VectorLoad(source, sourceBase, counter + 32, 32, sourceBlock + 1);
      var ymm2 := VectorLoad(source, sourceBase, counter + 64, 32, sourceBlock + 2);
      var ymm3 := VectorLoad(source, sourceBase, counter + 96, 32, sourceBlock + 3);
      var ymm4 := VectorLoad(source, sourceBase, counter + 128, 32, sourceBlock + 4);
      var ymm5 := VectorLoad(source, sourceBase, counter + 160, 32, sourceBlock + 5);
      var ymm6 := VectorLoad(source, sourceBase, counter + 192, 32, sourceBlock + 6);
      var ymm7 := VectorLoad(source, sourceBase, counter + 224, 32, sourceBlock + 7);
      VectorStore(destination, destinationBase, counter, 32, destinationBlock, ymm0, Temporal);
      CopiedChunk(dst0, src, counter, 32);
      VectorStore(destination, destinationBase, counter + 32, 32, destinationBlock + 1, ymm1, Temporal);
      CopiedChunk(dst0, src, counter + 32, 32);
      VectorStore(destination, destinationBase, counter + 64, 32, destinationBlock + 2, ymm2, Temporal);
      CopiedChunk(dst0, src, counter + 64, 32);
      VectorStore(destination, destinationBase, counter + 96, 32, destinationBlock + 3, ymm3, Temporal);
      CopiedChunk(dst0, src, counter + 96, 32);
      VectorStore(destination, destinationBase, counter + 128, 32, destinationBlock + 4, ymm4, Temporal);
      CopiedChunk(dst0, src, counter + 128, 32);
      VectorStore(destination, destinationBase, counter + 160, 32, destinationBlock + 5, ymm5, Temporal);
      CopiedChunk(dst0, src, counter + 160, 32);
      VectorStore(destination, destinationBase, counter + 192, 32, destinationBlock + 6, ymm6, Temporal);
      CopiedChunk(dst0, src, counter + 192, 32);
      VectorStore(destination, destinationBase, counter + 224, 32, destinationBlock + 7, ymm7, Temporal);
      CopiedChunk(dst0, src, counter + 224, 32);
      sourceBlock, destinationBlock := sourceBlock + 8, destinationBlock + 8;
      counter := counter + 256;
      iterations := iterations + 1;
      if counter == size { break; }
    }
    DoWhile.FirstExit(size, 256, iterations);
  }

  /**
   * `memcpy_mov_64_nt`: a 64-bit `mov` load and a `movnti` store per iteration.
   * The counter counts 8-byte elements against `size / 8`, so the
   * trailing `size % 8` bytes are not copied, and the body runs once
   * before the first test, so `size` must hold at least one element.
   */
  method MemcpyMov64Nt(size: usize, source: array<byte>, destination: array<byte>) returns (ghost iterations: nat)
    requires source != destination
    requires size <= source.Length && size <= destination.Length
    requires 8 <= size
    modifies destination
    ensures DoWhile.ExitsAfter(size / 8, 1, iterations) && iterations == size / 8
    ensures destination[..] == Copied(old(destination[..]), source[..], 8 * (size / 8))
    ensures unchanged(source)
  {
    ghost var dst0, src := destination[..], source[..];
    var bound: usize := size / 8;
    var counter: usize := 0;
    iterations := 0;
    while true
      invariant counter < bound && iterations == counter
      invariant destination[..] == Copied(dst0, src, 8 * counter)
      decreases bound - counter
    {
      assert 8 * counter + 8 <= size;
      var temp := source[8 * counter..8 * counter + 8];
      Store(destination, 8 * counter, temp, NonTemporal);
      CopiedChunk(dst0, src, 8 * counter, 8);
      counter := counter + 1;
      iterations := iterations + 1;
      if counter == bound { break; }
    }
    DoWhile.FirstExit(bound, 1, iterations);
  }

  /**
   * `memcpy_mov_128_nt`: a `movdqa` load and a `movntdq` store per iteration.
   * The counter counts bytes in steps of 16 and the loop leaves only when
   * it equals `size`, so `size` must be a positive multiple of 16.
   */
  method MemcpyMov128Nt(size: usize, source: array<byte>, destination: array<byte>, ghost sourceBase: nat, ghost destinationBase: nat) returns (ghost iterations: nat)
    requires source != destination
    requires size <= source.Length && size <= destination.Length
    requires 0 < size && size % 16 == 0
    requires Aligned(sourceBase, 16) && Aligned(destinationBase, 16)
    modifies destination
    ensures DoWhile.ExitsAfter(size, 16, iterations) && iterations == size / 16
    ensures destination[..] == Copied(old(destination[..]), source[..], size)
    ensures unchanged(source)
  {
    ghost var dst0, src := destination[..], source[..];
    AlignedBlock(sourceBase, 16);
    AlignedBlock(destinationBase, 16);
    ghost var sourceBlock, destinationBlock := sourceBase / 16, destinationBase / 16;
    var counter: usize := 0;
    iterations := 0;
    while true
      invariant counter < size && counter == 16 * iterations
      invariant sourceBase + counter == sourceBlock * 16 && destinationBase + counter == destinationBlock * 16
      invariant destination[..] == Copied(dst0, src, counter)
      decreases size - counter
    {
      assert counter + 16 <= size;
      var temp := VectorLoad(source, sourceBase, counter, 16, sourceBlock);
      VectorStore(destination, destinationBase, counter, 16, destinationBlock, temp, NonTemporal);
      CopiedChunk(dst0, src, counter, 16);
      sourceBlock, destinationBlock := sourceBlock + 1, destinationBlock + 1;
      counter := counter + 16;
      iterations := iterations + 1;
      if counter == size { break; }
    }
    DoWhile.FirstExit(size, 16, iterations);
  }

  /**
   * `memcpy_mov_256_nt` (AVX only): a `vmovdqa` load and a `vmovntdq` store per iteration.
   * The counter counts bytes in steps of 32 and the loop leaves only when
   * it equals `size`, so `size` must be a positive multiple of 32.
   */
  method MemcpyMov256Nt(size: usize, source: array<byte>, destination: array<byte>, ghost sourceBase: nat, ghost destinationBase: nat) returns (ghost iterations: nat)
    requires source != destination
    requires size <= source.Length && size <= destination.Length
    requires 0 < size && size % 32 == 0
    requires Aligned(sourceBase, 32) && Aligned(destinationBase, 32)
    modifies destination
    ensures DoWhile.ExitsAfter(size, 32, iterations) && iterations == size / 32
    ensures destination[..] == Copied(old(destination[..]), source[..], size)
    ensures unchanged(source)
  {
    ghost var dst0, src := destination[..], source[..];
    AlignedBlock(sourceBase, 32);
    AlignedBlock(destinationBase, 32);
    ghost var sourceBlock, destinationBlock := sourceBase / 32, destinationBase / 32;
    var counter: usize := 0;
    iterations := 0;
    while true
      invariant counter < size && counter == 32 * iterations
      invariant sourceBase + counter == sourceBlock * 32 && destinationBase + counter == destinationBlock * 32
      invariant destination[..] == Copied(dst0, src, counter)
      decreases size - counter
    {
      assert counter + 32 <= size;
      var temp := VectorLoad(source, sourceBase, counter, 32, sourceBlock);
      VectorStore(destination, destinationBase, counter, 32, destinationBlock, temp, NonTemporal);
      CopiedChunk(dst0, src, counter, 32);
      sourceBlock, destinationBlock := sourceBlock + 1, destinationBlock + 1;
      counter := counter + 32;
      iterations := iterations + 1;
      if counter == size { break; }
    }
    DoWhile.FirstExit(size, 32, iterations);
  }

  /**
   * `memcpy_mov_64_nt_pl`: eight 64-bit `mov` loads, then eight `movnti` stores.
   * Each iteration loads eight 8-byte chunks at offsets `counter`, ...,
   * `counter + 56` into eight registers, then stores all eight. The
   * counter counts bytes in steps of 64 and the loop leaves only when it
   * equals `size`, so `size` must be a positive multiple of 64.
   */
  method MemcpyMov64NtPl(size: usize, source: array<byte>, destination: array<byte>) returns (ghost iterations: nat)
    requires source != destination
    requires size <= source.Length && size <= destination.Length
    requires 0 < size && size % 64 == 0
    modifies destination
    ensures DoWhile.ExitsAfter(size, 64, iterations) && iterations == size / 64
    ensures destination[..] == Copied(old(destination[..]), source[..], size)
    ensures unchanged(source)
  {
    ghost var dst0, src := destination[..], source[..];
    var counter: usize := 0;
    iterations := 0;
    while true
      invariant counter < size && counter == 64 * iterations
      invariant destination[..] == Copied(dst0, src, counter)
      decreases size - counter
    {
      assert counter + 64 <= size;
      var temp0 := source[counter..counter + 8];
      var temp1 := source[counter + 8..counter + 16];
      var temp2 := source[counter + 16..counter + 24];
      var temp3 := source[counter + 24..counter + 32];
      var temp4 := source[counter + 32..counter + 40];
      var temp5 := source[counter + 40..counter + 48];
      var temp6 := source[counter + 48..counter + 56];
      var temp7 := source[counter + 56..counter + 64];
      Store(destination, counter, temp0, NonTemporal);
      CopiedChunk(dst0, src, counter, 8);
      Store(destination, counter + 8, temp1, NonTemporal);
      CopiedChunk(dst0, src, counter + 8, 8);
      Store(destination, counter + 16, temp2, NonTemporal);
      CopiedChunk(dst0, src, counter + 16, 8);
      Store(destination, counter + 24, temp3, NonTemporal);
      CopiedChunk(dst0, src, counter + 24, 8);
      Store(destination, counter + 32, temp4, NonTemporal);
      CopiedChunk(dst0, src, counter + 32, 8);
      Store(destination, counter + 40, temp5, NonTemporal);
      CopiedChunk(dst0, src, counter + 40, 8);
      Store(destination, counter + 48, temp6, NonTemporal);
      CopiedChunk(dst0, src, counter + 48, 8);
      Store(destination, counter + 56, temp7, NonTemporal);
      CopiedChunk(dst0, src, counter + 56, 8);
      counter := counter + 64;
      iterations := iterations + 1;
      if counter == size { break; }
    }
    DoWhile.FirstExit(size, 64, iterations);
  }

  /**
   * `memcpy_mov_128_nt_pl`: eight `movdqa` loads into xmm0..xmm7, then eight `movntdq` stores.
   * Each iteration loads eight 16-byte chunks at offsets `counter`, ...,
   * `counter + 112` into eight registers, then stores all eight. The
   * counter counts bytes in steps of 128 and the loop leaves only when it
   * equals `size`, so `size` must be a positive multiple of 128.
   */
  method MemcpyMov128NtPl(size: usize, source: array<byte>, destination: array<byte>, ghost sourceBase: nat, ghost destinationBase: nat) returns (ghost iterations: nat)
    requires source != destination
    requires size <= source.Length && size <= destination.Length
    requires 0 < size && size % 128 == 0
    requires Aligned(sourceBase, 16) && Aligned(destinationBase, 16)
    modifies destination
    ensures DoWhile.ExitsAfter(size, 128, iterations) && iterations == size / 128
    ensures destination[..] == Copied(old(destination[..]), source[..], size)
    ensures unchanged(source)
  {
    ghost var dst0, src := destination[..], source[..];
    AlignedBlock(sourceBase, 16);
    AlignedBlock(destinationBase, 16);
    ghost var sourceBlock, destinationBlock := sourceBase / 16, destinationBase / 16;
    var counter: usize := 0;
    iterations := 0;
    while true
      invariant counter < size && counter == 128 * iterations
      invariant sourceBase + counter == sourceBlock * 16 && destinationBase + counter == destinationBlock * 16
      invariant destination[..] == Copied(dst0, src, counter)
      decreases size - counter
    {
      assert counter + 128 <= size;
      var xmm0 := VectorLoad(source, sourceBase, counter, 16, sourceBlock);
      var xmm1 := VectorLoad(source, sourceBase, counter + 16, 16, sourceBlock + 1);
      var xmm2 := VectorLoad(source, sourceBase, counter + 32, 16, sourceBlock + 2);
      var xmm3 := VectorLoad(source, sourceBase, counter + 48, 16, sourceBlock + 3);
      var xmm4 := VectorLoad(source, sourceBase, counter + 64, 16, sourceBlock + 4);
      var xmm5 := VectorLoad(source, sourceBase, counter + 80, 16, sourceBlock + 5);
      var xmm6 := VectorLoad(source, sourceBase, counter + 96, 16, sourceBlock + 6);
      var xmm7 := VectorLoad(source, sourceBase, counter + 112, 16, sourceBlock + 7);
      VectorStore(destination, destinationBase, counter, 16, destinationBlock, xmm0, NonTemporal);
      CopiedChunk(dst0, src, counter, 16);
      VectorStore(destination, destinationBase, counter + 16, 16, destinationBlock + 1, xmm1, NonTemporal);
      CopiedChunk(dst0, src, counter + 16, 16);
      VectorStore(destination, destinationBase, counter + 32, 16, destinationBlock + 2, xmm2, NonTemporal);
      CopiedChunk(dst0, src, counter + 32, 16);
      VectorStore(destination, destinationBase, counter + 48, 16, destinationBlock + 3, xmm3, NonTemporal);
      CopiedChunk(dst0, src, counter + 48, 16);
      VectorStore(destination, destinationBase, counter + 64, 16, destinationBlock + 4, xmm4, NonTemporal);
      CopiedChunk(dst0, src, counter + 64, 16);
      VectorStore(destination, destinationBase, counter + 80, 16, destinationBlock + 5, xmm5, NonTemporal);
      CopiedChunk(dst0, src, counter + 80, 16);
      VectorStore(destination, destinationBase, counter + 96, 16, destinationBlock + 6, xmm6, NonTemporal);
      CopiedChunk(dst0, src, counter + 96, 16);
      VectorStore(destination, destinationBase, counter + 112, 16, destinationBlock + 7, xmm7, NonTemporal);
      CopiedChunk(dst0, src, counter + 112, 16);
      sourceBlock, destinationBlock := sourceBlock + 8, destinationBlock + 8;
      counter := counter + 128;
      iterations := iterations + 1;
      if counter == size { break; }
    }
    DoWhile.FirstExit(size, 128, iterations);
  }

  /**
   * `memcpy_mov_256_nt_pl` (AVX only): eight `vmovdqa` loads into ymm0..ymm7, then eight `vmovntdq` stores.
   * Each iteration loads eight 32-byte chunks at offsets `counter`, ...,
   * `counter + 224` into eight registers, then stores all eight. The
   * counter counts bytes in steps of 256 and the loop leaves only when it
   * equals `size`, so `size` must be a positive multiple of 256.
   */
  method MemcpyMov256NtPl(size: usize, source: array<byte>, destination: array<byte>, ghost sourceBase: nat, ghost destinationBase: nat) returns (ghost iterations: nat)
    requires source != destination
    requires size <= source.Length && size <= destination.Length
    requires 0 < size && size % 256 == 0
    requires Aligned(sourceBase, 32) && Aligned(destinationBase, 32)
    modifies destination
    ensures DoWhile.ExitsAfter(size, 256, iterations) && iterations == size / 256
    ensures destination[..] == Copied(old(destination[..]), source[..], size)
    ensures unchanged(source)
  {
    ghost var dst0, src := destination[..], source[..];
    AlignedBlock(sourceBase, 32);
    AlignedBlock(destinationBase, 32);
    ghost var sourceBlock, destinationBlock := sourceBase / 32, destinationBase / 32;
    var counter: usize := 0;
    iterations := 0;
    while true
      invariant counter < size && counter == 256 * iterations
      invariant sourceBase + counter == sourceBlock * 32 && destinationBase + counter == destinationBlock * 32
      invariant destination[..] == Copied(dst0, src, counter)
      decreases size - counter
    {
      assert counter + 256 <= size;
      var ymm0 := VectorLoad(source, sourceBase, counter, 32, sourceBlock);
      var ymm1 := VectorLoad(source, sourceBase, counter + 32, 32, sourceBlock + 1);
      var ymm2 := VectorLoad(source, sourceBase, counter + 64, 32, sourceBlock + 2);
      var ymm3 := VectorLoad(source, sourceBase, counter + 96, 32, sourceBlock + 3);
      var ymm4 := VectorLoad(source, sourceBase, counter + 128, 32, sourceBlock + 4);
      var ymm5 := VectorLoad(source, sourceBase, counter + 160, 32, sourceBlock + 5);
      var ymm6 := VectorLoad(source, sourceBase, counter + 192, 32, sourceBlock + 6);
      var ymm7 := VectorLoad(source, sourceBase, counter + 224, 32, sourceBlock + 7);
      VectorStore(destination, destinationBase, counter, 32, destinationBlock, ymm0, NonTemporal);
      CopiedChunk(dst0, src, counter, 32);
      VectorStore(destination, destinationBase, counter + 32, 32, destinationBlock + 1, ymm1, NonTemporal);
      CopiedChunk(dst0, src, counter + 32, 32);
      VectorStore(destination, destinationBase, counter + 64, 32, destinationBlock + 2, ymm2, NonTemporal);
      CopiedChunk(dst0, src, counter + 64, 32);
      VectorStore(destination, destinationBase, counter + 96, 32, destinationBlock + 3, ymm3, NonTemporal);
      CopiedChunk(dst0, src, counter + 96, 32);
      VectorStore(destination, destinationBase, counter + 128, 32, destinationBlock + 4, ymm4, NonTemporal);
      CopiedChunk(dst0, src, counter + 128, 32);
      VectorStore(destination, destinationBase, counter + 160, 32, destinationBlock + 5, ymm5, NonTemporal);
      CopiedChunk(dst0, src, counter + 160, 32);
      VectorStore(destination, destinationBase, counter + 192, 32, destinationBlock + 6, ymm6, NonTemporal);
      CopiedChunk(dst0, src, counter + 192, 32);
      VectorStore(destination, destinationBase, counter + 224, 32, destinationBlock + 7, ymm7, NonTemporal);
      CopiedChunk(dst0, src, counter + 224, 32);
      sourceBlock, destinationBlock := sourceBlock + 8, destinationBlock + 8;
      counter := counter + 256;
      iterations := iterations + 1;
      if counter == size { break; }
    }
    DoWhile.FirstExit(size, 256, iterations);
  }

  /**
   * `memcpy_rep_movsb`: RCX is set to `size` and one `rep movsb` moves that
   * many bytes forward; a zero size moves nothing.
   */
  method MemcpyRepMovsb(size: usize, source: array<byte>, destination: array<byte>)
    requires source != destination
    requires size <= source.Length && size <= destination.Length
    modifies destination
    ensures destination[..] == Copied(old(destination[..]), source[..], size)
    ensures unchanged(source)
  {
    var count := size;
    count := RepMovs(1, count, source, destination);
  }

  /**
   * `memcpy_rep_movsq`: RCX is set to `size / 8` and one `rep movsq` moves
   * that many quadwords forward, so the trailing `size % 8` bytes are not
   * copied.
   */
  method MemcpyRepMovsq(size: usize, source: array<byte>, destination: array<byte>)
    requires source != destination
    requires size <= source.Length && size <= destination.Length
    modifies destination
    ensures destination[..] == Copied(old(destination[..]), source[..], 8 * (size / 8))
    ensures unchanged(source)
  {
    var count := size / 8;
    count := RepMovs(8, count, source, destination);
  }

  /**
   * Runs the routine `r`: each routine, called under its entry in
   * Routines.Pre, copies exactly Routines.BytesCopied(r, size) leading bytes.
   * Plain, unrolled and non-temporal routines of one width thus leave the
   * same memory (Routines.VariantsAgree).
   */
  method Run(r: Routine, size: usize, source: array<byte>, destination: array<byte>,
             ghost sourceBase: nat, ghost destinationBase: nat)
    requires source != destination
    requires Pre(r, size, source.Length, destination.Length, sourceBase, destinationBase)
    modifies destination
    ensures destination[..] == Copied(old(destination[..]), source[..], BytesCopied(r, size))
    ensures unchanged(source)
  {
    match r
    case Mov32 => var _ := MemcpyMov32(size, source, destination);
    case Mov64 => var _ := MemcpyMov64(size, source, destination);
    case Mov128 => var _ := MemcpyMov128(size, source, destination, sourceBase, destinationBase);
    case Mov256 => var _ := MemcpyMov256(size, source, destination, sourceBase, destinationBase);
    case Mov64Pl => var _ := MemcpyMov64Pl(size, source, destination);
    case Mov128Pl => var _ := MemcpyMov128Pl(size, source, destination, sourceBase, destinationBase);
    case Mov256Pl => var _ := MemcpyMov256Pl(size, source, destination, sourceBase, destinationBase);
    case Mov64Nt => var _ := MemcpyMov64Nt(size, source, destination);
    case Mov128Nt => var _ := MemcpyMov128Nt(size, source, destination, sourceBase, destinationBase);
    case Mov256Nt => var _ := MemcpyMov256Nt(size, source, destination, sourceBase, destinationBase);
    case Mov64NtPl => var _ := MemcpyMov64NtPl(size, source, destination);
    case Mov128NtPl => var _ := MemcpyMov128NtPl(size, source, destination, sourceBase, destinationBase);
    case Mov256NtPl => var _ := MemcpyMov256NtPl(size, source, destination, sourceBase, destinationBase);
    case RepMovsb => MemcpyRepMovsb(size, source, destination);
    case RepMovsq => MemcpyRepMovsq(size, source, destination);
  }

  /**
   * An unrolled or non-temporal routine and the plain routine of the same
   * width, run on equal destinations, leave equal destinations: wherever
   * `r` may run, `Plain(r)` may run too, and both copy the same bytes.
   */
  method VariantMatchesPlain(r: Routine, size: usize, source: array<byte>,
                             variant: array<byte>, plain: array<byte>,
                             ghost sourceBase: nat, ghost variantBase: nat, ghost plainBase: nat)
    requires source != variant && source != plain && variant != plain
    requires variant[..] == plain[..]
    requires Pre(r, size, source.Length, variant.Length, sourceBase, variantBase)
    requires Aligned(plainBase, Alignment(r))
    modifies variant, plain
    ensures variant[..] == plain[..]
    ensures variant[..] == Copied(old(variant[..]), source[..], BytesCopied(r, size))
    ensures unchanged(source)
  {
    VariantsAgree(r, size);
    Run(r, size, source, variant, sourceBase, variantBase);
    Run(Plain(r), size, source, plain, sourceBase, plainBase);
  }
}
