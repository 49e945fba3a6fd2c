/**
 IPv4 blocks in prefix notation (section 3.1 of RFC 4632): a block of 2^n addresses starts at a
 multiple of its size.
 */
module Cidr {
  function Pow2(n: nat): (p: nat)
    ensures p >= 1
  {
    if n == 0 then 1 else 2 * Pow2(n - 1)
  }

  /** A /30, a /24 and a /16. */
  lemma BlockSizes()
    ensures Pow2(2) == 4 && Pow2(8) == 256 && Pow2(16) == 65536
  {
    assert Pow2(4) == 16 && Pow2(6) == 64;
    assert Pow2(10) == 1024 && Pow2(12) == 4096 && Pow2(14) == 16384;
  }

  lemma {:induction false} Pow2Grows(m: nat, n: nat)
    requires m <= n
    ensures Pow2(m) <= Pow2(n)
    decreases n
  {
    if m < n {
      Pow2Grows(m, n - 1);
    }
  }

  /** `bits` is the number of host bits: 32 minus the prefix length. */
  datatype Block = Block(base: int, bits: nat)

  function Size(b: Block): nat {
    Pow2(b.bits)
  }

  predicate Canonical(b: Block) {
    0 <= b.base && b.base % Size(b) == 0
  }

  function Last(b: Block): int {
    b.base + Size(b) - 1
  }

  predicate Holds(b: Block, a: int) {
    b.base <= a <= Last(b)
  }

  /** The test as it is computed: an end of one block lies in the other. */
  predicate Overlaps(b: Block, c: Block) {
    Holds(b, c.base) || Holds(b, Last(c)) || Holds(c, b.base) || Holds(c, Last(b))
  }

  predicate Within(b: Block, c: Block) {
    c.base <= b.base && Last(b) <= Last(c)
  }

  lemma {:induction false} Pow2Divides(m: nat, n: nat) returns (k: nat)
    requires m <= n
    ensures k >= 1 && Pow2(n) == Pow2(m) * k
    decreases n
  {
    if m == n {
      k := 1;
    } else {
      var j := Pow2Divides(m, n - 1);
      k := 2 * j;
      assert Pow2(m) * (2 * j) == 2 * (Pow2(m) * j);
    }
  }

  // Multiplication is kept out of the other proofs.

  lemma ScaleLess(m: nat, x: int, y: int)
    requires x <= y
    ensures m * x <= m * y
  {
  }

  lemma CancelLess(m: nat, x: int, y: int)
    requires m >= 1 && m * x < m * y
    ensures x < y
  {
  }

  lemma Distribute(m: int, x: int, y: int)
    ensures m * (x + y) == m * x + m * y && m * (x - y) == m * x - m * y
  {
  }

  lemma Exchange(m: int, x: int, y: int)
    ensures (m * x) * y == m * (x * y)
  {
  }

  lemma SmallMultiple(n: nat, d: int)
    requires n >= 1 && 0 - n < n * d < n
    ensures d == 0
  {
  }

  /** Two multiples of `m`, the smaller block one step long, the larger `z` steps. */
  lemma StepsNest(m: nat, x: int, y: int, z: nat, a: int)
    requires m >= 1
    requires m * x <= a < m * x + m
    requires m * y <= a < m * y + m * z
    ensures m * y <= m * x && m * x + m <= m * y + m * z
  {
    Distribute(m, x, 1);
    Distribute(m, y, z);
    CancelLess(m, y, x + 1);
    CancelLess(m, x, y + z);
    ScaleLess(m, y, x);
    ScaleLess(m, x + 1, y + z);
  }

  lemma MultipleOf(x: int, m: nat) returns (k: int)
    requires m >= 1 && x % m == 0
    ensures x == m * k
  {
    k := x / m;
  }

  /** A block that shares an address with one at least as large lies inside it. */
  lemma SmallerIsWithin(b: Block, c: Block, a: int)
    requires Canonical(b) && Canonical(c) && b.bits <= c.bits && Holds(b, a) && Holds(c, a)
    ensures Within(b, c)
  {
    var z := Pow2Divides(b.bits, c.bits);
    var x := MultipleOf(b.base, Size(b));
    var k := MultipleOf(c.base, Size(c));
    Exchange(Size(b), z, k);
    StepsNest(Size(b), x, z * k, z, a);
  }

  /** Canonical blocks overlap exactly when one lies inside the other, and exactly when they share an address. */
  lemma OverlapIsNesting(b: Block, c: Block)
    requires Canonical(b) && Canonical(c)
    ensures Overlaps(b, c) <==> Within(b, c) || Within(c, b)
    ensures Overlaps(b, c) <==> exists a :: Holds(b, a) && Holds(c, a)
  {
    if a :| Holds(b, a) && Holds(c, a) {
      if b.bits <= c.bits {
        SmallerIsWithin(b, c, a);
      } else {
        SmallerIsWithin(c, b, a);
      }
    }
    if Overlaps(b, c) {
      var a := if Holds(b, c.base) then c.base else if Holds(b, Last(c)) then Last(c) else if Holds(c, b.base) then b.base else Last(b);
      assert Holds(b, a) && Holds(c, a);
    }
  }

  // ----- Offsets counted round a ring -----

  lemma ModUnique(x: int, n: nat, q: int, r: int)
    requires n >= 1 && 0 <= r < n && x == n * q + r
    ensures x % n == r
  {
    Distribute(n, x / n, q);
    SmallMultiple(n, x / n - q);
  }

  lemma ModShift(x: int, q: int, n: nat)
    requires n >= 1
    ensures (n * q + x) % n == x % n
  {
    Distribute(n, q, x / n);
    ModUnique(n * q + x, n, q + x / n, x % n);
  }

  lemma ModAdd(a: nat, i: nat, n: nat)
    requires n >= 1
    ensures (a + i) % n == (a % n + i) % n
  {
    ModShift(a % n + i, a / n, n);
  }

  function RingOffset(start: nat, i: nat, n: nat): (o: nat)
    requires n >= 1 && start >= 1
    ensures 1 <= o <= n
  {
    (start - 1 + i) % n + 1
  }

  /** Going once round from any start reaches every offset. */
  lemma RingCovers(start: nat, n: nat, o: nat) returns (i: nat)
    requires n >= 1 && start >= 1 && 1 <= o <= n
    ensures i < n && RingOffset(start, i, n) == o
  {
    var q := (start - 1) % n;
    if o - 1 >= q {
      i := o - 1 - q;
      ModAdd(start - 1, i, n);
      ModUnique(q + i, n, 0, o - 1);
    } else {
      i := o - 1 - q + n;
      ModAdd(start - 1, i, n);
      ModUnique(q + i, n, 1, o - 1);
    }
  }
}
