/**
 The probe sequence of the combining hash table (exec/combiner.go): steps
 1, 2, 3, ... added modulo a power-of-two size.
 */
module Probing {

  predicate PowerOfTwo(n: int)
    decreases n
  {
    n == 1 || (n > 1 && n % 2 == 0 && PowerOfTwo(n / 2))
  }

  /** The sum of the first k steps. */
  function Tri(k: nat): nat {
    if k == 0 then 0 else Tri(k - 1) + k
  }

  /** The slot of the (k+1)'th try for hash value h. */
  function Slot(h: nat, k: nat, n: nat): (slot: nat)
    requires n > 0
    ensures slot < n
  {
    (h + Tri(k)) % n
  }

  lemma {:induction false} AtLeastFactor(n: nat, k: nat)
    requires k >= 1
    ensures n * k >= n
  {
    if k > 1 {
      AtLeastFactor(n, k - 1);
      assert n * k == n * (k - 1) + n;
    }
  }

  lemma NonNegativeFactor(n: int, q: int)
    requires n > 0 && n * q > -n
    ensures q >= 0
  {
    if q < 0 {
      AtLeastFactor(n, -q);
    }
  }

  /** Quotient and remainder are unique. */
  lemma ModUnique(a: int, q: int, r: int, n: int)
    requires n > 0 && a == n * q + r && 0 <= r < n
    ensures a % n == r && a / n == q
  {
    var q0, r0 := a / n, a % n;
    assert a == n * q0 + r0;
    assert n * (q - q0) == n * q - n * q0;
    NonNegativeFactor(n, q - q0);
    assert n * (q0 - q) == n * q0 - n * q;
    NonNegativeFactor(n, q0 - q);
  }

  lemma ModMultiple(a: int, q: int, n: int)
    requires n > 0
    ensures (a + n * q) % n == a % n
  {
    assert a == n * (a / n) + a % n;
    assert n * (a / n + q) == n * (a / n) + n * q;
    ModUnique(a + n * q, a / n + q, a % n, n);
  }

  lemma AddMod(a: nat, b: nat, n: nat)
    requires n > 0
    ensures (a % n + b) % n == (a + b) % n
  {
    assert a == n * (a / n) + a % n;
    ModMultiple(a % n + b, a / n, n);
  }

  /** The probing step used by the table leads to the next slot of the sequence. */
  lemma NextSlot(h: nat, k: nat, n: nat)
    requires n > 0
    ensures Slot(h, 0, n) == h % n
    ensures (Slot(h, k, n) + (k + 1)) % n == Slot(h, k + 1, n)
  {
    AddMod(h + Tri(k), k + 1, n);
  }

  lemma {:induction false} TriFormula(k: nat)
    ensures 2 * Tri(k) == k * (k + 1)
  {
    if k > 0 {
      TriFormula(k - 1);
    }
  }

  /** An odd factor does not help to reach a power of two. */
  lemma {:induction false} OddFactor(n: nat, a: nat, b: nat, q: nat)
    requires PowerOfTwo(n) && a % 2 == 1 && a * b == n * q
    ensures b % n == 0
    decreases n
  {
    if n > 1 {
      var m := n / 2;
      assert n == 2 * m;
      assert a * b == 2 * (m * q);
      OddTimes(a, b);
      var b' := b / 2;
      assert b == 2 * b';
      assert a * b' == m * q by {
        assert a * b == 2 * (a * b');
      }
      OddFactor(m, a, b', q);
      assert b' == m * (b' / m);
      assert b == n * (b' / m) by {
        assert 2 * (m * (b' / m)) == (2 * m) * (b' / m);
      }
      ModUnique(b, b' / m, 0, n);
    }
  }

  lemma OddTimes(a: nat, b: nat)
    requires a % 2 == 1 && (a * b) % 2 == 0
    ensures b % 2 == 0
  {
    var x := a / 2;
    assert a == 2 * x + 1;
    assert a * b == 2 * (x * b) + b;
  }

  /** Numbers with the same remainder differ by a multiple. */
  lemma SameRemainder(a: nat, b: nat, n: nat) returns (q: nat)
    requires n > 0 && a <= b && a % n == b % n
    ensures b == a + n * q
  {
    assert a == n * (a / n) + a % n;
    assert b == n * (b / n) + b % n;
    assert n * (b / n - a / n) == n * (b / n) - n * (a / n);
    NonNegativeFactor(n, b / n - a / n);
    q := b / n - a / n;
  }

  lemma {:induction false} TriMono(i: nat, j: nat)
    requires i <= j
    ensures Tri(i) <= Tri(j)
    decreases j
  {
    if i < j {
      TriMono(i, j - 1);
    }
  }

  lemma TriDifference(i: nat, j: nat)
    requires i <= j
    ensures 2 * (Tri(j) - Tri(i)) == (j - i) * (i + j + 1)
  {
    TriFormula(i);
    TriFormula(j);
  }

  /** One of two factors of opposite parity would have to be a multiple of the power of two. */
  lemma NoMultiple(n: nat, a: nat, b: nat, q: nat)
    requires PowerOfTwo(n) && 0 < a < n && 0 < b < n && (a % 2 == 1 || b % 2 == 1)
    ensures a * b != n * q
  {
    hide PowerOfTwo;
    ModUnique(a, 0, a, n);
    ModUnique(b, 0, b, n);
    if a * b == n * q {
      if a % 2 == 1 {
        OddFactor(n, a, b, q);
      } else {
        OddFactor(n, b, a, q);
      }
    }
  }

  lemma DoublePower(n: nat)
    requires PowerOfTwo(n)
    ensures PowerOfTwo(2 * n)
  {
    assert (2 * n) / 2 == n;
  }

  /** Within n tries, no slot is probed twice. */
  lemma SlotsDiffer(h: nat, i: nat, j: nat, n: nat)
    requires PowerOfTwo(n) && i < j < n
    ensures Slot(h, i, n) != Slot(h, j, n)
  {
    hide PowerOfTwo, Tri;
    if Slot(h, i, n) == Slot(h, j, n) {
      TriMono(i, j);
      var q := SameRemainder(h + Tri(i), h + Tri(j), n);
      TriMultiple(i, j, n, q);
      OppositeParity(i, j);
      DoublePower(n);
      NoMultiple(2 * n, j - i, i + j + 1, q);
    }
  }

  lemma TriMultiple(i: nat, j: nat, n: nat, q: nat)
    requires i <= j && Tri(j) - Tri(i) == n * q
    ensures (j - i) * (i + j + 1) == (2 * n) * q
  {
    hide Tri;
    TriDifference(i, j);
    assert (2 * n) * q == 2 * (n * q);
  }

  lemma OppositeParity(i: nat, j: nat)
    requires i <= j
    ensures (j - i) % 2 == 1 || (i + j + 1) % 2 == 1
  {
  }

  ghost function Range(n: nat): set<nat> {
    if n == 0 then {} else Range(n - 1) + {n - 1}
  }

  lemma {:induction false} RangeSize(n: nat)
    ensures |Range(n)| == n
    ensures forall i: nat :: i in Range(n) <==> i < n
  {
    if n > 0 {
      RangeSize(n - 1);
    }
  }

  ghost function Probed(h: nat, k: nat, n: nat): set<nat>
    requires n > 0
  {
    set i: nat | i < k :: Slot(h, i, n)
  }

  lemma {:induction false} ProbedSize(h: nat, k: nat, n: nat)
    requires PowerOfTwo(n) && k <= n
    ensures |Probed(h, k, n)| == k
  {
    if k > 0 {
      ProbedSize(h, k - 1, n);
      forall i: nat | i < k - 1
        ensures Slot(h, i, n) != Slot(h, k - 1, n)
      {
        SlotsDiffer(h, i, k - 1, n);
      }
      assert Probed(h, k, n) == Probed(h, k - 1, n) + {Slot(h, k - 1, n)};
    }
  }

  /** Probe coverage: n tries reach every slot of a table of size n. */
  lemma ProbesCover(h: nat, slot: nat, n: nat) returns (k: nat)
    requires PowerOfTwo(n) && slot < n
    ensures k < n && Slot(h, k, n) == slot
  {
    ProbedSize(h, n, n);
    RangeSize(n);
    if slot !in Probed(h, n, n) {
      assert Probed(h, n, n) + {slot} <= Range(n);
      SubsetSize(Probed(h, n, n) + {slot}, Range(n));
    }
    k :| k < n && Slot(h, k, n) == slot;
  }

  lemma {:induction false} SubsetSize<T>(a: set<T>, b: set<T>)
    requires a <= b
    ensures |a| <= |b|
  {
    if a != {} {
      var x :| x in a;
      SubsetSize(a - {x}, b - {x});
    }
  }
}
