/** The integer widths of the i686 build, and the facts about floor division that the tick
    conversions rest on. */
module Words {

  /** `unsigned long`, `unsigned int` and `u32`. */
  type Word = x: int | 0 <= x < 0x1_0000_0000

  /** `int`. */
  type Int32 = x: int | -0x8000_0000 <= x < 0x8000_0000

  /** Storing a mathematical integer into a 32-bit unsigned variable. */
  function Wrap32(x: int): Word {
    x % 0x1_0000_0000
  }

  /** Returning a 32-bit unsigned value as an `int`. */
  function Signed32(x: Word): (r: Int32)
    ensures Wrap32(r) == x
  {
    if x < 0x8000_0000 then x else x - 0x1_0000_0000
  }

  /** Storing a mathematical integer into an `unsigned long long`. */
  function Wrap64(x: int): (r: nat)
    ensures r < 0x1_0000_0000_0000_0000
  {
    x % 0x1_0000_0000_0000_0000
  }

  lemma MulMono(a: int, b: int, c: int)
    requires a <= b && 0 <= c
    ensures a * c <= b * c
  {
  }

  /** The bracket that characterises a floor division. */
  lemma DivBracket(x: int, d: int)
    requires 0 < d
    ensures (x / d) * d <= x < (x / d) * d + d
  {
  }

  lemma DivUnique(x: int, d: int, q: int)
    requires 0 < d
    requires q * d <= x < q * d + d
    ensures x / d == q
  {
    var p := x / d;
    if p < q {
      MulMono(p + 1, q, d);
    } else if q < p {
      MulMono(q + 1, p, d);
    }
  }

  lemma DivMono(x: int, y: int, d: int)
    requires x <= y && 0 < d
    ensures x / d <= y / d
  {
    if y / d < x / d {
      MulMono(y / d + 1, x / d, d);
    }
  }

  /** A dividend below `q * d` has a quotient below `q`. */
  lemma DivBelow(x: int, d: int, q: int)
    requires 0 < d
    requires x < q * d
    ensures x / d < q
  {
  }

  /** A dividend of at least `q * d` has a quotient of at least `q`. */
  lemma DivAtLeast(x: int, d: int, q: int)
    requires 0 < d
    requires q * d <= x
    ensures q <= x / d
  {
    if x / d < q {
      MulMono(x / d + 1, q, d);
    }
  }

  /** Division rounded up. */
  function CeilDiv(x: nat, d: nat): (q: nat)
    requires 0 < d
    ensures q * d - d < x <= q * d
  {
    var q := (x + d - 1) / d;
    DivBracket(x + d - 1, d);
    DivAtLeast(x + d - 1, d, 0);
    q
  }
}
