/** Machine words as the queues use them: power-of-two rounding, `&` with a mask,
    and the signed difference of two unsigned 64-bit counters.  Words are naturals
    below WORD; every wrap-around is written out. */
module Words {
  const WORD: nat := 0x1_0000_0000_0000_0000
  const HALF: nat := 0x8000_0000_0000_0000

  function Pow2(k: nat): (p: nat)
    ensures p >= 1
  {
    if k == 0 then 1 else 2 * Pow2(k - 1)
  }

  /** Bitwise conjunction, bit by bit. */
  function And(a: nat, b: nat): (r: nat)
    ensures r <= a && r <= b
  {
    if a == 0 || b == 0 then 0 else 2 * And(a / 2, b / 2) + (a % 2) * (b % 2)
  }

  /** The cast from std::size_t to std::intptr_t. */
  function Signed(x: nat): int {
    if x < HALF then x else x - WORD
  }

  /** The only multiple of m strictly between -m and m is 0. */
  lemma MultipleBounds(m: int, x: int)
    requires m > 0
    ensures x >= 1 ==> m * x >= m
    ensures x <= -1 ==> m * x <= -m
    ensures -m < m * x < m ==> x == 0
  {
    assert m * x == m + m * (x - 1);
    assert m * x == -m + m * (x + 1);
  }

  lemma DivModUnique(a: int, m: int, d: int, r: int)
    requires m > 0 && 0 <= r < m && a == m * d + r
    ensures a / m == d && a % m == r
  {
    var d', r' := a / m, a % m;
    assert a == m * d' + r';
    assert m * (d - d') == m * d - m * d';
    MultipleBounds(m, d - d');
  }

  /** Two integers less than m apart with the same remainder are equal. */
  lemma ModWindow(a: int, b: int, m: int)
    requires m > 0 && -m < a - b < m
    ensures a % m == b % m ==> a == b
  {
    var da, db := a / m, b / m;
    assert m * (da - db) == m * da - m * db;
    MultipleBounds(m, da - db);
  }

  lemma ModShift(a: int, m: int, d: int)
    requires m > 0
    ensures (a + m * d) % m == a % m
  {
    assert m * (a / m + d) == m * (a / m) + m * d;
    DivModUnique(a + m * d, m, a / m + d, a % m);
  }

  /** The member of [top - m, top) that shares its remainder with `pos`. */
  lemma Representative(pos: int, top: int, m: int) returns (j: int)
    requires m > 0 && pos <= top
    ensures top - m <= j < top && j % m == pos % m
    ensures pos == top ==> j == top - m
    ensures pos < top ==> pos <= j
  {
    var d := (top - 1 - pos) / m;
    j := pos + m * d;
    assert top - 1 - pos == m * d + (top - 1 - pos) % m;
    ModShift(pos, m, d);
    MultipleBounds(m, d);
    if pos == top {
      DivModUnique(-1, m, -1, m - 1);
    }
  }

  lemma HalveMod(pos: nat, p: nat)
    requires p > 0
    ensures pos % (2 * p) == 2 * ((pos / 2) % p) + pos % 2
  {
    var q := pos / 2;
    var d, r := q / p, q % p;
    assert q == p * d + r;
    assert pos == 2 * q + pos % 2;
    assert (2 * p) * d == 2 * (p * d);
    DivModUnique(pos, 2 * p, d, 2 * r + pos % 2);
  }

  /** One bit of the mask. */
  lemma AndHalve(pos: nat, p: nat)
    requires p >= 1
    ensures And(pos, 2 * p - 1) == 2 * And(pos / 2, p - 1) + pos % 2
  {
    assert (2 * p - 1) / 2 == p - 1 && (2 * p - 1) % 2 == 1;
    if pos == 0 {
      assert And(0, p - 1) == 0;
    } else {
      assert (pos % 2) * 1 == pos % 2;
    }
  }

  lemma AndMaskNext(pos: nat, p: nat)
    requires p >= 1 && And(pos / 2, p - 1) == (pos / 2) % p
    ensures And(pos, 2 * p - 1) == pos % (2 * p)
  {
    hide And;
    AndHalve(pos, p);
    HalveMod(pos, p);
  }

  lemma AndNone(pos: nat)
    ensures And(pos, 0) == 0
  {
  }

  /** Indexing with `pos & mask_` is `pos mod capacity` for a power-of-two capacity. */
  lemma {:induction false} AndMask(pos: nat, k: nat)
    ensures And(pos, Pow2(k) - 1) == pos % Pow2(k)
    decreases k
  {
    hide And;
    if k == 0 {
      AndNone(pos);
    } else {
      AndMask(pos / 2, k - 1);
      AndMaskNext(pos, Pow2(k - 1));
    }
  }

  lemma {:induction false} Pow2Monotone(i: nat, j: nat)
    requires i <= j
    ensures Pow2(i) <= Pow2(j)
    ensures i < j ==> 2 * Pow2(i) <= Pow2(j)
    decreases j
  {
    if i < j {
      Pow2Monotone(i, j - 1);
    }
  }

  lemma {:induction false} Pow2Add(i: nat, j: nat)
    ensures Pow2(i + j) == Pow2(i) * Pow2(j)
  {
    if i > 0 {
      Pow2Add(i - 1, j);
      assert 2 * Pow2(i - 1) * Pow2(j) == 2 * (Pow2(i - 1) * Pow2(j));
    }
  }

  lemma Pow2Double(k: nat, p: nat)
    requires Pow2(k) == p
    ensures Pow2(2 * k) == p * p
  {
    Pow2Add(k, k);
  }

  lemma Pow2Word()
    ensures Pow2(63) == HALF && Pow2(64) == WORD
  {
    Pow2Double(1, 2);
    Pow2Double(2, 4);
    Pow2Double(4, 0x10);
    Pow2Double(8, 0x100);
    Pow2Double(16, 0x1_0000);
    Pow2Double(32, 0x1_0000_0000);
  }

  ghost predicate IsPow2(p: nat) {
    exists k: nat :: p == Pow2(k)
  }

  /** The value of `p` after k passes of `p <<= 1` on a 64-bit word. */
  function Shifted(k: nat): nat {
    if k == 0 then 1 else (2 * Shifted(k - 1)) % WORD
  }

  lemma ShiftWord(p: nat)
    ensures p < HALF ==> (2 * p) % WORD == 2 * p
    ensures p == HALF ==> (2 * p) % WORD == 0
  {
  }

  lemma PowZero()
    ensures Pow2(0) == 1
  {
  }

  lemma Pow2Next(k: nat)
    ensures Pow2(k + 1) == 2 * Pow2(k)
    ensures k < 63 ==> Pow2(k) < HALF
    ensures k == 63 ==> Pow2(k) == HALF
  {
    Pow2Word();
    if k < 63 {
      Pow2Monotone(k, 63);
    }
  }

  lemma {:induction false} ShiftedIsPow2(k: nat)
    ensures Shifted(k) == if k <= 63 then Pow2(k) else 0
  {
    hide Pow2;
    if k == 0 {
      PowZero();
    } else {
      ShiftedIsPow2(k - 1);
      ShiftWord(Shifted(k - 1));
      Pow2Next(k - 1);
    }
  }

  /** The loop `while (p < n) p <<= 1` ends exactly for n <= 2^63: above that the
      shifted bit falls off the word and p stays 0. */
  lemma RoundUpHalts(n: nat)
    ensures (exists k: nat :: !(Shifted(k) < n)) <==> n <= HALF
  {
    if n <= HALF {
      ShiftedIsPow2(63);
      Pow2Word();
      assert !(Shifted(63) < n);
    } else {
      forall k: nat
        ensures Shifted(k) < n
      {
        ShiftedIsPow2(k);
        Pow2Word();
        if k <= 63 {
          Pow2Monotone(k, 63);
        }
      }
    }
  }

  /** round_up_pow2: the least power of two that is at least n. */
  method RoundUpPow2(n: nat) returns (p: nat)
    requires n <= HALF
    ensures IsPow2(p) && n <= p <= HALF
    ensures forall j: nat :: n <= Pow2(j) ==> p <= Pow2(j)
    ensures n >= 2 ==> p >= 2
  {
    p := 1;
    ghost var k := 0;
    Pow2Word();
    while p < n
      invariant p == Pow2(k) && k <= 63 && p <= HALF
      invariant forall j: nat :: j < k ==> Pow2(j) < n
      decreases 63 - k
    {
      if k == 63 {
        assert false;
      }
      p := (2 * p) % WORD;
      k := k + 1;
      Pow2Monotone(k, 63);
    }
    forall j: nat | n <= Pow2(j)
      ensures p <= Pow2(j)
    {
      if j >= k {
        Pow2Monotone(k, j);
      }
    }
  }

  /** The capacity guard of ShmRing::create. */
  predicate CreateAccepts(capacity: nat) {
    !(capacity < 2 || And(capacity, capacity - 1) != 0)
  }

  lemma {:induction false} AndSelf(a: nat)
    ensures And(a, a) == a
  {
    if a > 0 {
      AndSelf(a / 2);
    }
  }

  lemma {:induction false} AndPred(c: nat)
    requires c >= 1
    ensures And(c, c - 1) == 0 <==> IsPow2(c)
  {
    if c == 1 {
      assert c == Pow2(0);
    } else if c % 2 == 0 {
      AndPred(c / 2);
      assert (c - 1) / 2 == c / 2 - 1;
      if IsPow2(c / 2) {
        var k: nat :| c / 2 == Pow2(k);
        assert c == Pow2(k + 1);
      }
      if IsPow2(c) {
        var k: nat :| c == Pow2(k);
        assert c / 2 == Pow2(k - 1);
      }
    } else {
      AndSelf(c / 2);
      assert (c - 1) / 2 == c / 2;
      forall k: nat
        ensures c != Pow2(k)
      {
        if k > 0 {
          assert Pow2(k) == 2 * Pow2(k - 1);
        }
      }
    }
  }

  /** ShmRing::create lets through exactly the powers of two from 2 upwards, the
      capacities for which the slot protocol is sound. */
  lemma CreateAcceptsPowersOfTwo(capacity: nat)
    ensures CreateAccepts(capacity) <==> capacity >= 2 && IsPow2(capacity)
  {
    if capacity >= 1 {
      AndPred(capacity);
    }
  }
}
