/**
 * The catalogue of library copy routines as data: how each one counts its
 * loop, what it demands of its caller and how many bytes it copies. The
 * methods in module Memcpy are checked against these functions, through
 * Memcpy.Run.
 */
module Routines {
  import opened Machine
  import DoWhile
  import Arith

  datatype Routine =
    | Mov32 | Mov64 | Mov128 | Mov256
    | Mov64Pl | Mov128Pl | Mov256Pl
    | Mov64Nt | Mov128Nt | Mov256Nt
    | Mov64NtPl | Mov128NtPl | Mov256NtPl
    | RepMovsb | RepMovsq

  /**
   * How a routine's loop counts:
   * - ElementCounted(w): the counter steps by 1 against `size / w`, each
   *   iteration moving `w` bytes at offset `w * counter`;
   * - ByteCounted(w, step): the counter steps by `step` bytes against `size`,
   *   each iteration moving `step` bytes with moves of `w` bytes;
   * - BlockMove(w): a `rep movs` of `size / w` elements of `w` bytes.
   */
  datatype Shape = ElementCounted(w: nat) | ByteCounted(w: nat, step: nat) | BlockMove(w: nat)

  function ShapeOf(r: Routine): (s: Shape)
  {
    match r
    case Mov32 => ElementCounted(4)
    case Mov64 | Mov64Nt => ElementCounted(8)
    case Mov128 | Mov128Nt => ByteCounted(16, 16)
    case Mov256 | Mov256Nt => ByteCounted(32, 32)
    case Mov64Pl | Mov64NtPl => ByteCounted(8, 64)
    case Mov128Pl | Mov128NtPl => ByteCounted(16, 128)
    case Mov256Pl | Mov256NtPl => ByteCounted(32, 256)
    case RepMovsb => BlockMove(1)
    case RepMovsq => BlockMove(8)
  }

  /** The routines built only when the target has AVX (`#[cfg(target_feature = "avx")]`). */
  predicate NeedsAvx(r: Routine)
  {
    r in {Mov256, Mov256Pl, Mov256Nt, Mov256NtPl}
  }

  /** The routines whose loop body is unrolled eight times. */
  predicate Unrolled(r: Routine)
  {
    r in {Mov64Pl, Mov128Pl, Mov256Pl, Mov64NtPl, Mov128NtPl, Mov256NtPl}
  }

  /** The plain routine of the same move width: unrolling and non-temporal stores removed. */
  function Plain(r: Routine): (p: Routine)
  {
    match r
    case Mov64Pl | Mov64Nt | Mov64NtPl => Mov64
    case Mov128Pl | Mov128Nt | Mov128NtPl => Mov128
    case Mov256Pl | Mov256Nt | Mov256NtPl => Mov256
    case _ => r
  }

  /**
   * The alignment the routine's moves demand of both buffers: the vector
   * moves (MOVDQA, MOVNTDQ; VMOVDQA, VMOVNTDQ) fault on an address that is
   * not a multiple of their 16 or 32 bytes; general-purpose moves and
   * `rep movs` demand nothing.
   */
  function Alignment(r: Routine): (a: nat)
    ensures a in {1, 16, 32}
  {
    match ShapeOf(r)
    case ByteCounted(w, _) => if w == 16 || w == 32 then w else 1
    case _ => 1
  }

  /** The size makes the routine's loop exit (see SizeOkIffLoopExits). */
  predicate SizeOk(r: Routine, size: nat)
  {
    match ShapeOf(r)
    case ElementCounted(w) => w <= size
    case ByteCounted(_, step) => 0 < size && size % step == 0
    case BlockMove(_) => true
  }

  /** The number of leading bytes the routine copies for a given `size`. */
  function BytesCopied(r: Routine, size: nat): (n: nat)
  {
    match ShapeOf(r)
    case ElementCounted(w) => w * (size / w)
    case ByteCounted(_, _) => size
    case BlockMove(w) => w * (size / w)
  }

  /**
   * What a caller must guarantee: both buffers hold `size` bytes, the size
   * lets the loop exit, and both base addresses meet the alignment.
   */
  predicate Pre(r: Routine, size: nat, sourceLength: nat, destinationLength: nat,
                sourceBase: nat, destinationBase: nat)
  {
    size <= sourceLength && size <= destinationLength && SizeOk(r, size) &&
    Aligned(sourceBase, Alignment(r)) && Aligned(destinationBase, Alignment(r))
  }

  /**
   * SizeOk is exactly the termination condition of the routine's do-while
   * loop: an element-counted loop runs against `size / w` with step 1, a
   * byte-counted one against `size` with its step; a block move has no loop
   * of this shape and always finishes.
   */
  lemma SizeOkIffLoopExits(r: Routine, size: nat)
    ensures ShapeOf(r).ElementCounted? ==>
      (SizeOk(r, size) <==> DoWhile.Terminates(size / ShapeOf(r).w, 1))
    ensures ShapeOf(r).ByteCounted? ==>
      (SizeOk(r, size) <==> DoWhile.Terminates(size, ShapeOf(r).step))
  {
    match ShapeOf(r)
    case ElementCounted(w) =>
      DoWhile.TerminatesIff(size / w, 1);
    case ByteCounted(_, step) =>
      DoWhile.TerminatesIff(size, step);
    case BlockMove(_) =>
  }

  /**
   * No routine copies more than `size` bytes. Element-counted routines and
   * block moves leave exactly the trailing `size % w` bytes uncopied;
   * byte-counted routines copy all `size` bytes.
   */
  lemma BytesCopiedBounds(r: Routine, size: nat)
    ensures BytesCopied(r, size) <= size
    ensures ShapeOf(r).ByteCounted? ==> BytesCopied(r, size) == size
    ensures !ShapeOf(r).ByteCounted? ==>
      size - BytesCopied(r, size) == size % ShapeOf(r).w < ShapeOf(r).w
  {
  }

  /**
   * A zero size is a no-op only for the block moves: every loop routine
   * runs its body before the first test and never meets a bound of 0.
   */
  lemma ZeroSize(r: Routine)
    ensures SizeOk(r, 0) <==> ShapeOf(r).BlockMove?
    ensures ShapeOf(r).BlockMove? ==> BytesCopied(r, 0) == 0
  {
  }

  /**
   * Unrolled and non-temporal variants agree with the plain routine of the
   * same width: wherever a variant may run, so may the plain routine, with
   * the same alignment demand, and both copy the same bytes.
   */
  lemma VariantsAgree(r: Routine, size: nat)
    requires SizeOk(r, size)
    ensures SizeOk(Plain(r), size)
    ensures Alignment(Plain(r)) == Alignment(r)
    ensures NeedsAvx(Plain(r)) == NeedsAvx(r)
    ensures BytesCopied(r, size) == BytesCopied(Plain(r), size)
  {
    match r
    case Mov64Pl | Mov64NtPl =>
      Arith.MultipleOfFactor(size, 8, 8);
    case Mov128Pl | Mov128NtPl =>
      Arith.MultipleOfFactor(size, 16, 8);
    case Mov256Pl | Mov256NtPl =>
      Arith.MultipleOfFactor(size, 32, 8);
    case _ =>
  }

  /**
   * Copying a whole buffer into an equal-length destination reproduces the
   * source exactly when the size lets the loop exit and is a whole number
   * of the routine's elements.
   */
  lemma WholeBufferCopy(r: Routine, dst: seq<byte>, src: seq<byte>)
    requires |dst| == |src| && SizeOk(r, |src|) && |src| % ShapeOf(r).w == 0
    ensures Copied(dst, src, BytesCopied(r, |src|)) == src
  {
    BytesCopiedBounds(r, |src|);
    CopiedEverything(dst, src);
  }

  /** A size below one element gives an element-counted routine the bound 0, which its loop never meets. */
  lemma ShortSizeDiverges(r: Routine, size: nat)
    requires ShapeOf(r).ElementCounted? && size < ShapeOf(r).w
    ensures !DoWhile.Terminates(size / ShapeOf(r).w, 1)
  {
    DoWhile.ZeroBoundDiverges(1);
  }
}
