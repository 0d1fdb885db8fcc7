/** The 64-bit unsigned words of the queue's counters and the comparisons made on them. */
module Words {

  /** 2 to the 64th: `index_t` and `size_t` count modulo it. */
  const WORD: int := 0x1_0000_0000_0000_0000
  const HALF: int := 0x8000_0000_0000_0000

  function Wrap(x: int): (w: int)
    ensures 0 <= w < WORD
  {
    x % WORD
  }

  /** `circular_less_than`: a - b, as a word, is more than half the range. */
  predicate CircularLess(a: int, b: int) { Wrap(a - b) > HALF }

  /** static_cast to the signed type of the same width. */
  function Signed(w: int): int
    requires 0 <= w < WORD
  {
    if w < HALF then w else w - WORD
  }

  lemma WrapUnique(x: int, w: int, k: int)
    requires x == w + k * WORD && 0 <= w < WORD
    ensures Wrap(x) == w
  {
  }

  /** The comparison sees only the words of its operands. */
  lemma CircularLessOnWords(a: int, b: int)
    ensures CircularLess(Wrap(a), Wrap(b)) == CircularLess(a, b)
  {
    var ka, kb := a / WORD, b / WORD;
    assert a == ka * WORD + Wrap(a) && b == kb * WORD + Wrap(b);
    var d := Wrap(a) - Wrap(b);
    assert a - b == d + (ka - kb) * WORD;
    if d >= 0 {
      WrapUnique(a - b, d, ka - kb);
      WrapUnique(d, d, 0);
    } else {
      WrapUnique(a - b, d + WORD, ka - kb - 1);
      WrapUnique(d, d + WORD, -1);
    }
  }

  /** Exactly the distances for which the circular comparison tells the order of two unbounded
      counters, as long as they are less than a whole turn apart: below half a turn either way,
      and half a turn back.  At half a turn ahead it is wrong. */
  lemma CircularLessIsExactWithinHalfATurn(a: int, b: int)
    requires -WORD < b - a < WORD
    ensures (CircularLess(a, b) <==> a < b) <==> -HALF <= b - a < HALF
  {
    var d := b - a;
    if d > 0 {
      WrapUnique(a - b, WORD - d, -1);
    } else {
      WrapUnique(a - b, -d, 0);
    }
  }
}
