/** `size_t` arithmetic: values below 2^64, wrapping addition and subtraction, and
    the bitwise "and" that turns a free-running counter into a slot number. */
module Words {
  const TWO64: nat := 0x1_0000_0000_0000_0000

  type Word = x: nat | x < TWO64

  function Inc(x: Word): Word {
    (x + 1) % TWO64
  }

  /** Unsigned subtraction modulo 2^64. */
  function Sub(x: Word, y: Word): Word {
    (x - y) % TWO64
  }

  function Pow2(k: nat): (p: nat)
    ensures p > 0
  {
    if k == 0 then 1 else 2 * Pow2(k - 1)
  }

  /** Bitwise conjunction of two naturals, least significant bit first. */
  function BitAnd(x: nat, y: nat): (z: nat)
    ensures z <= x && z <= y
  {
    if x == 0 || y == 0 then 0
    else (if x % 2 == 1 && y % 2 == 1 then 1 else 0) + 2 * BitAnd(x / 2, y / 2)
  }

  /** Masking with 2^k - 1 keeps exactly the remainder modulo 2^k. */
  lemma {:induction false} MaskIsRemainder(x: nat, k: nat)
    ensures BitAnd(x, Pow2(k) - 1) == x % Pow2(k)
    decreases k
  {
    if k == 0 {
    } else {
      MaskIsRemainder(x / 2, k - 1);
      MaskOneMoreBit(x, Pow2(k - 1));
    }
  }

  lemma MaskOneMoreBit(x: nat, p: nat)
    requires p > 0 && BitAnd(x / 2, p - 1) == (x / 2) % p
    ensures BitAnd(x, 2 * p - 1) == x % (2 * p)
  {
    MaskLowBit(x, p);
    HalvedRemainder(x, p);
  }

  lemma MaskLowBit(x: nat, p: nat)
    requires p > 0
    ensures BitAnd(x, 2 * p - 1) == x % 2 + 2 * BitAnd(x / 2, p - 1)
  {
    assert (2 * p - 1) / 2 == p - 1 && (2 * p - 1) % 2 == 1;
  }

  lemma HalvedRemainder(x: nat, p: nat)
    requires p > 0
    ensures x % (2 * p) == x % 2 + 2 * ((x / 2) % p)
  {
    var q, r := (x / 2) / p, (x / 2) % p;
    assert x == q * (2 * p) + (x % 2 + 2 * r);
    RemainderUnique(x, 2 * p, q, x % 2 + 2 * r);
  }

  lemma MulAtLeast(m: int, d: int)
    requires m >= 1 && d > 0
    ensures m * d >= d
  {}

  lemma RemainderUnique(x: nat, d: nat, q: nat, r: nat)
    requires d > 0 && x == q * d + r && r < d
    ensures x % d == r
  {
    var q', r' := x / d, x % d;
    SameQuotient(d, q, r, q', r');
  }

  lemma SameQuotient(d: int, q: int, r: int, q': int, r': int)
    requires q * d + r == q' * d + r'
    requires 0 <= r < d && 0 <= r' < d
    ensures q == q' && r == r'
  {
    assert (q - q') * d == r' - r;
    if q > q' {
      MulAtLeast(q - q', d);
    } else if q < q' {
      assert (q' - q) * d == r - r';
      MulAtLeast(q' - q, d);
    }
  }

  lemma {:induction false} Pow2Sum(a: nat, b: nat)
    ensures Pow2(a + b) == Pow2(a) * Pow2(b)
  {
    if a == 0 {
    } else {
      Pow2Sum(a - 1, b);
      assert Pow2(a) * Pow2(b) == 2 * (Pow2(a - 1) * Pow2(b));
    }
  }

  lemma Pow2Square(n: nat, p: nat)
    requires Pow2(n) == p
    ensures Pow2(n + n) == p * p
  {
    Pow2Sum(n, n);
  }

  lemma Pow2Of64()
    ensures Pow2(64) == TWO64
  {
    Pow2Square(4, 16);
    Pow2Square(8, 256);
    Pow2Square(16, 0x1_0000);
    Pow2Square(32, 0x1_0000_0000);
  }

  /** Reducing first modulo 2^64 and then modulo a smaller power of two loses nothing,
      so a wrapped counter still names the right slot. */
  lemma WrapKeepsSlot(n: nat, k: nat)
    requires k <= 64
    ensures (n % TWO64) % Pow2(k) == n % Pow2(k)
  {
    Pow2Sum(k, 64 - k);
    Pow2Of64();
    NestedRemainder(n, Pow2(k), Pow2(64 - k));
  }

  lemma NestedRemainder(n: nat, s: nat, m: nat)
    requires s > 0 && m > 0 && s * m > 0
    ensures (n % (s * m)) % s == n % s
  {
    var q, r := n / (s * m), n % (s * m);
    var q2, r2 := r / s, r % s;
    assert n == q * (s * m) + (q2 * s + r2);
    Regroup(q, s, m, q2);
    RemainderUnique(n, s, q * m + q2, r2);
  }

  lemma Regroup(q: int, s: int, m: int, q2: int)
    ensures q * (s * m) + q2 * s == (q * m + q2) * s
  {}

  lemma Pow2AtMost63(k: nat)
    requires k <= 63
    ensures 2 * Pow2(k) <= TWO64
  {
    Pow2Sum(k + 1, 63 - k);
    Pow2Of64();
    assert Pow2(k + 1) * 1 <= Pow2(k + 1) * Pow2(63 - k);
  }

  /** Two counts less than 2^64 apart are recovered exactly by wrapped subtraction. */
  lemma SubOfCounts(hi: nat, lo: nat)
    requires lo <= hi < lo + TWO64
    ensures Sub(hi % TWO64, lo % TWO64) == hi - lo
  {
    var a, b := hi / TWO64, lo / TWO64;
    assert hi == a * TWO64 + hi % TWO64 && lo == b * TWO64 + lo % TWO64;
  }

  /** Distinct counts less than one buffer length apart use distinct slots. */
  lemma SlotsDistinct(i: nat, j: nat, size: nat)
    requires size > 0 && i < j < i + size
    ensures i % size != j % size
  {
    if i % size == j % size {
      SlotsRepeat(j / size - i / size, size, j - i);
      assert false;
    }
  }

  lemma SlotsRepeat(m: int, size: nat, gap: nat)
    requires 0 < gap < size
    ensures gap != m * size
  {
    if m >= 1 {
      MulAtLeast(m, size);
    } else {
      assert m * size <= 0;
    }
  }

  /** The slot of the n-th element of a circular buffer, by repeated subtraction. */
  function Cell(n: nat, size: nat): (c: nat)
    requires size > 0
    ensures c < size
  {
    if n < size then n else Cell(n - size, size)
  }

  lemma {:induction false} CellIsRemainder(n: nat, size: nat)
    requires size > 0
    ensures Cell(n, size) == n % size
  {
    if n < size {
    } else {
      CellIsRemainder(n - size, size);
      RemainderOneLapOn(n - size, size);
    }
  }

  lemma RemainderOneLapOn(m: nat, size: nat)
    requires size > 0
    ensures (m + size) % size == m % size
  {
    Regroup(1, size, 1, m / size);
    RemainderUnique(m + size, size, 1 + m / size, m % size);
  }

  lemma CellsDistinct(i: nat, j: nat, size: nat)
    requires size > 0 && i < j < i + size
    ensures Cell(i, size) != Cell(j, size)
  {
    CellIsRemainder(i, size);
    CellIsRemainder(j, size);
    SlotsDistinct(i, j, size);
  }

  lemma CellOneLapOn(n: nat, size: nat)
    requires size > 0
    ensures Cell(n + size, size) == Cell(n, size)
  {}

  /** Masking the wrapped counter finds the cell of the unwrapped count. */
  lemma MaskedCounterIsCell(n: nat, k: nat)
    requires k <= 63
    ensures BitAnd(n % TWO64, Pow2(k) - 1) == Cell(n, Pow2(k))
  {
    MaskIsRemainder(n % TWO64, k);
    WrapKeepsSlot(n, k);
    CellIsRemainder(n, Pow2(k));
  }
}
