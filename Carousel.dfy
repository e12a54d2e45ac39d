/**
 * The index arithmetic of the Projects slider: the arrows and the autoplay
 * tick rotate the current index modulo the number of filtered listings, and
 * the window width decides how many cards are shown at once.
 */
module Carousel {

  /** `nextSlide` and the autoplay tick: `n ? (i + 1) % n : 0`. */
  function NextIndex(i: nat, n: nat): (r: nat)
    ensures n > 0 ==> r < n
    ensures n == 0 ==> r == 0
  {
    if n > 0 then (i + 1) % n else 0
  }

  /** `prevSlide`: `n ? (i - 1 + n) % n : 0`; the operands are never negative. */
  function PrevIndex(i: nat, n: nat): (r: nat)
    ensures n > 0 ==> r < n
    ensures n == 0 ==> r == 0
  {
    if n > 0 then (i - 1 + n) % n else 0
  }

  lemma MulAtLeastOnce(d: int, n: int)
    requires d >= 1 && n > 0
    ensures d * n >= n
  {
  }

  /** The remainder is the unique `r` in `[0, n)` with `a == q * n + r`. */
  lemma ModUnique(a: int, n: int, q: int, r: int)
    requires n > 0 && 0 <= r < n && a == q * n + r
    ensures a % n == r
  {
    var q' := a / n;
    assert (q - q') * n == a % n - r;
    if q > q' {
      MulAtLeastOnce(q - q', n);
    } else if q < q' {
      MulAtLeastOnce(q' - q, n);
    }
  }

  /** From an index in range, `next` then `prev` (and `prev` then `next`) come back to it. */
  lemma NextPrevInverse(i: nat, n: nat)
    requires i < n
    ensures PrevIndex(NextIndex(i, n), n) == i
    ensures NextIndex(PrevIndex(i, n), n) == i
  {
    if i + 1 < n {
      ModUnique(i + 1, n, 0, i + 1);
      ModUnique(i + n, n, 1, i);
    } else {
      ModUnique(i + 1, n, 1, 0);
      ModUnique(n - 1, n, 0, n - 1);
    }
    if i > 0 {
      ModUnique(i - 1 + n, n, 1, i - 1);
      ModUnique(i, n, 0, i);
    } else {
      ModUnique(n - 1, n, 0, n - 1);
      ModUnique(n, n, 1, 0);
    }
  }

  /** The index after `k` consecutive `next` steps. */
  function NextTimes(i: nat, n: nat, k: nat): nat {
    if k == 0 then i else NextIndex(NextTimes(i, n, k - 1), n)
  }

  lemma ModSucc(a: nat, n: nat)
    requires n > 0
    ensures ((a % n) + 1) % n == (a + 1) % n
  {
    var q, r := a / n, a % n;
    if r + 1 < n {
      ModUnique(r + 1, n, 0, r + 1);
      ModUnique(a + 1, n, q, r + 1);
    } else {
      ModUnique(r + 1, n, 1, 0);
      ModUnique(a + 1, n, q + 1, 0);
    }
  }

  /** `k` steps from `i` land on `(i + k) mod n`, whether or not `i` was in range. */
  lemma {:induction false} NextTimesIsRotation(i: nat, n: nat, k: nat)
    requires n > 0 && k > 0
    ensures NextTimes(i, n, k) == (i + k) % n
  {
    if k > 1 {
      NextTimesIsRotation(i, n, k - 1);
      ModSucc(i + k - 1, n);
    }
  }

  /** `n` consecutive `next` steps bring an in-range index back to where it started. */
  lemma FullRotation(i: nat, n: nat)
    requires i < n
    ensures NextTimes(i, n, n) == i
  {
    NextTimesIsRotation(i, n, n);
    ModUnique(i + n, n, 1, i);
  }

  /** The viewport rule: the whole built-in catalogue from 1024 pixels up, otherwise one card. */
  function CardsForWidth(width: int, catalogueSize: nat): nat {
    if width >= 1024 then catalogueSize else 1
  }

  /**
   * With a non-empty catalogue, widening the window never shows fewer cards;
   * below the breakpoint the view is one card wide (the slider), and from it
   * up the whole catalogue is shown.
   */
  lemma WiderNeverFewerCards(narrow: int, wide: int, catalogueSize: nat)
    requires narrow <= wide && catalogueSize >= 1
    ensures CardsForWidth(narrow, catalogueSize) <= CardsForWidth(wide, catalogueSize)
    ensures narrow < 1024 ==> CardsForWidth(narrow, catalogueSize) == 1
    ensures wide >= 1024 ==> CardsForWidth(wide, catalogueSize) == catalogueSize
  {
  }
}
