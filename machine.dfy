/**
 * The slice of an x86-64 machine the copy routines touch: 64-bit words,
 * byte memory, the plain and cache-bypassing stores, the aligned vector
 * moves and the REP-prefixed string move.
 *
 * A memory region is a Dafny `array<byte>`; an operand `[region + off]` is
 * the offset `off` into that array.  The absolute address of a region is
 * needed only to state the alignment requirement of the vector moves, and
 * appears as a ghost `base` parameter.
 */
module Machine {
  import Arith

  /** `usize` on a 64-bit target: the width of every general-purpose register. */
  type usize = x: int | 0 <= x < 0x1_0000_0000_0000_0000

  type byte = bv8

  predicate Aligned(address: nat, alignment: nat)
    requires 0 < alignment
  {
    address % alignment == 0
  }

  /** An aligned address is a whole number of alignment-sized blocks from 0. */
  lemma AlignedBlock(address: nat, alignment: nat)
    requires 0 < alignment && Aligned(address, alignment)
    ensures address == (address / alignment) * alignment
  {
  }

  /** `mem` with the bytes at `[off, off + |value|)` replaced by `value` (see OverwriteAt). */
  function Overwrite(mem: seq<byte>, off: nat, value: seq<byte>): (r: seq<byte>)
    requires off + |value| <= |mem|
    ensures |r| == |mem|
  {
    mem[..off] + value + mem[off + |value|..]
  }

  /** Byte `i` of an overwritten region comes from `value` inside `[off, off + |value|)` and from `mem` elsewhere. */
  lemma OverwriteAt(mem: seq<byte>, off: nat, value: seq<byte>, i: nat)
    requires off + |value| <= |mem| && i < |mem|
    ensures Overwrite(mem, off, value)[i] == if off <= i < off + |value| then value[i - off] else mem[i]
  {
  }

  /**
   * The destination `dst` after its first `n` bytes have been copied from
   * `src` (see CopiedAt).
   */
  function Copied(dst: seq<byte>, src: seq<byte>, n: nat): (r: seq<byte>)
    requires n <= |src| && n <= |dst|
    ensures |r| == |dst|
  {
    src[..n] + dst[n..]
  }

  /** Bytes before `n` come from the source; bytes from `n` on are the destination's own. */
  lemma CopiedAt(dst: seq<byte>, src: seq<byte>, n: nat, i: nat)
    requires n <= |src| && n <= |dst| && i < |dst|
    ensures Copied(dst, src, n)[i] == if i < n then src[i] else dst[i]
  {
  }

  /** Storing source chunk `[k, k + w)` at offset `k` extends the copied prefix from `k` to `k + w`. */
  lemma CopiedChunk(dst: seq<byte>, src: seq<byte>, k: nat, w: nat)
    requires k + w <= |src| && k + w <= |dst|
    ensures Overwrite(Copied(dst, src, k), k, src[k..k + w]) == Copied(dst, src, k + w)
  {
    var lhs := Overwrite(Copied(dst, src, k), k, src[k..k + w]);
    forall i | 0 <= i < |dst|
      ensures lhs[i] == Copied(dst, src, k + w)[i]
    {
      OverwriteAt(Copied(dst, src, k), k, src[k..k + w], i);
      CopiedAt(dst, src, k, i);
      CopiedAt(dst, src, k + w, i);
    }
  }

  /** Copying the same prefix again changes nothing. */
  lemma CopiedTwice(dst: seq<byte>, src: seq<byte>, n: nat)
    requires n <= |src| && n <= |dst|
    ensures Copied(Copied(dst, src, n), src, n) == Copied(dst, src, n)
  {
  }

  /** Copying zero bytes leaves the destination as it was. */
  lemma CopiedNothing(dst: seq<byte>, src: seq<byte>)
    ensures Copied(dst, src, 0) == dst
  {
  }

  /** Copying a whole equal-length buffer makes the destination equal to the source. */
  lemma CopiedEverything(dst: seq<byte>, src: seq<byte>)
    requires |dst| == |src|
    ensures Copied(dst, src, |src|) == src
  {
  }

  /**
   * Which kind of store instruction writes the bytes: a plain `mov`/`movdqa`/
   * `vmovdqa`, or a non-temporal `movnti`/`movntdq`/`vmovntdq`. The hint steers
   * the caches only; what memory holds afterwards is the same.
   */
  datatype StoreHint = Temporal | NonTemporal

  /** A store of the register `value` to `[mem + off]`. */
  method Store(mem: array<byte>, off: nat, value: seq<byte>, hint: StoreHint)
    requires off + |value| <= mem.Length
    modifies mem
    ensures mem[..] == Overwrite(old(mem[..]), off, value)
  {
    forall i | off <= i < off + |value| {
      mem[i] := value[i - off];
    }
    forall i | 0 <= i < mem.Length
      ensures mem[..][i] == Overwrite(old(mem[..]), off, value)[i]
    {
      OverwriteAt(old(mem[..]), off, value, i);
    }
  }

  /**
   * An aligned vector load (`movdqa` for 16 bytes, `vmovdqa` for 32) from
   * `[mem + off]`, whose absolute address is `base + off`: that address must
   * be a multiple of the vector width, here the ghost `block` times it.
   */
  method VectorLoad(mem: array<byte>, ghost base: nat, off: nat, width: nat, ghost block: nat)
    returns (value: seq<byte>)
    requires 0 < width && off + width <= mem.Length
    requires base + off == block * width
    ensures |value| == width && value == mem[off..off + width]
  {
    value := mem[off..off + width];
  }

  /**
   * An aligned vector store (`movdqa`/`movntdq` for 16 bytes,
   * `vmovdqa`/`vmovntdq` for 32) to `[mem + off]`, whose absolute address
   * `base + off` must be the ghost `block` times the vector width.
   */
  method VectorStore(mem: array<byte>, ghost base: nat, off: nat, width: nat, ghost block: nat,
                     value: seq<byte>, hint: StoreHint)
    requires 0 < width && |value| == width && off + width <= mem.Length
    requires base + off == block * width
    modifies mem
    ensures mem[..] == Overwrite(old(mem[..]), off, value)
  {
    Store(mem, off, value, hint);
  }

  /**
   * `rep movsb` (width 1) or `rep movsq` (width 8) with RSI at the start of
   * `source`, RDI at the start of `destination`, RCX = `count` and the
   * direction flag clear: while RCX is not zero, move one element from [RSI]
   * to [RDI], advance both by the element width and decrement RCX
   * (REP MOVS in the Intel 64 and IA-32 Architectures Software Developer's
   * Manual, Volume 2). Returns the final RCX.
   */
  method RepMovs(width: nat, count: usize, source: array<byte>, destination: array<byte>) returns (rcx: usize)
    requires width == 1 || width == 8
    requires source != destination
    requires width * count <= source.Length && width * count <= destination.Length
    modifies destination
    ensures rcx == 0
    ensures destination[..] == Copied(old(destination[..]), source[..], width * count)
    ensures unchanged(source)
  {
    ghost var dst0, src := destination[..], source[..];
    rcx := count;
    var rsi, rdi := 0, 0;
    while rcx != 0
      invariant rsi == rdi
      invariant rsi + width * rcx == width * count
      invariant destination[..] == Copied(dst0, src, rsi)
    {
      Arith.PeelOne(width, rcx);
      var element := source[rsi..rsi + width];
      Store(destination, rdi, element, Temporal);
      CopiedChunk(dst0, src, rsi, width);
      rsi, rdi, rcx := rsi + width, rdi + width, rcx - 1;
    }
  }
}
