/** Machine words, page arithmetic and the size computation of a buffer request.
    The model fixes the 32-bit layout of the original: words of 4 bytes, pages of 4096. */
module Words {

  const PAGE: nat := 4096
  const MODULUS: nat := 0x1_0000_0000

  /** `sizeof(struct binder_buffer)`: any word-aligned size that, with 4 bytes more, is below a page. */
  type HeaderSize = h: nat | h % 4 == 0 && 0 < h && h + 4 < 4096 witness 40

  const HEADER: HeaderSize

  type Word = x: int | 0 <= x < MODULUS

  /** What a `size_t` or `uint32_t` keeps of an exact result. */
  function Wrap(x: int): Word {
    x % MODULUS
  }

  /** The kernel's ALIGN(x, sizeof(void *)), computed in a machine word. */
  function AlignWord(x: Word): Word {
    var y := Wrap(x + 3);
    y - y % 4
  }

  /** The exact value ALIGN stands for. */
  function Align(x: nat): nat {
    var y := x + 3;
    y - y % 4
  }

  /** The size of a request, as the allocator adds it up in a machine word. */
  function RequestSize(dataSize: Word, offsetsSize: Word): Word {
    Wrap(AlignWord(dataSize) + AlignWord(offsetsSize))
  }

  predicate SizeGuard(dataSize: Word, offsetsSize: Word) {
    var size := RequestSize(dataSize, offsetsSize);
    size < dataSize || size < offsetsSize
  }

  lemma AlignWordExact(x: Word)
    ensures AlignWord(x) == if Align(x) == MODULUS then 0 else Align(x)
    ensures x <= Align(x) <= MODULUS && Align(x) % 4 == 0 && Align(x) - x < 4
  {
  }

  /** The guard on the wrapped sum refuses exactly the requests whose true sum does not fit a word. */
  lemma SizeGuardExact(dataSize: Word, offsetsSize: Word)
    ensures SizeGuard(dataSize, offsetsSize) <==> Align(dataSize) + Align(offsetsSize) >= MODULUS
    ensures !SizeGuard(dataSize, offsetsSize) ==>
              RequestSize(dataSize, offsetsSize) == Align(dataSize) + Align(offsetsSize)
  {
    hide AlignWord, Align;
    AlignWordExact(dataSize);
    AlignWordExact(offsetsSize);
    AlignedGuard(dataSize, offsetsSize, Align(dataSize), Align(offsetsSize),
                 AlignWord(dataSize), AlignWord(offsetsSize));
  }

  /** The guard in terms of exact (`a`, `b`) and wrapped (`a'`, `b'`) aligned sizes. */
  lemma AlignedGuard(d: Word, o: Word, a: nat, b: nat, a': Word, b': Word)
    requires d <= a <= MODULUS && o <= b <= MODULUS && a - d < 4 && b - o < 4 && a % 4 == 0 && b % 4 == 0
    requires a' == (if a == MODULUS then 0 else a) && b' == (if b == MODULUS then 0 else b)
    ensures var size := Wrap(a' + b');
            && (size < d || size < o <==> a + b >= MODULUS)
            && (a + b < MODULUS ==> size == a + b)
  {
    assert Wrap(a' + b') == if a' + b' >= MODULUS then a' + b' - MODULUS else a' + b';
  }

  lemma WrapOnce(x: nat)
    requires x < 2 * MODULUS
    ensures Wrap(x) == if x < MODULUS then x else x - MODULUS
  {
  }
}
