/** Facts about whole-number division shared by the slide index arithmetic and the marquee's
    card positions. */
module Remainders {

  /** A positive multiple of `len` is at least `len`. */
  lemma MultipleAtLeast(x: int, len: int)
    ensures x >= 1 && len >= 0 ==> x * len >= len
  {
    if x >= 1 && len >= 0 {
      assert x * len == (x - 1) * len + len;
    }
  }

  /** Division with remainder is unique: whenever a = q·len + r with r < len, r is a % len. */
  lemma ModOf(a: nat, q: nat, r: nat, len: nat)
    requires r < len && a == q * len + r
    ensures a % len == r
  {
    var q', r' := a / len, a % len;
    assert a == q' * len + r';
    if q > q' {
      MultipleAtLeast(q - q', len);
      assert false;
    } else if q < q' {
      MultipleAtLeast(q' - q, len);
      assert false;
    }
  }
}
