/** pid_generator (source/syscall.c:28-34): 32-bit unsigned arithmetic. */
module PidGenerator {
  const WORD := 0x1_0000_0000

  /** The values `pow` runs through: ten times the last one, modulo 2^32. */
  const POWERS: seq<nat> := [
    10, 100, 1000, 10000, 100000, 1000000, 10000000, 100000000, 1000000000, 1410065408, 1215752192, 3567587328,
    1316134912, 276447232, 2764472320, 1874919424, 1569325056, 2808348672, 2313682944, 1661992960, 3735027712,
    2990538752, 4135583744, 2701131776, 1241513984, 3825205248, 3892314112, 268435456, 2684354560, 1073741824,
    2147483648, 0]

  /** The largest of them, 10^23 modulo 2^32, at index 22. */
  const LARGEST: nat := 4135583744

  lemma TableStep(i: nat)
    requires i < 31
    ensures |POWERS| == 32 && POWERS[i + 1] == POWERS[i] * 10 % WORD
  {
    if i < 8 {
      assert i == 0 || i == 1 || i == 2 || i == 3 || i == 4 || i == 5 || i == 6 || i == 7;
    } else if i < 16 {
      assert i == 8 || i == 9 || i == 10 || i == 11 || i == 12 || i == 13 || i == 14 || i == 15;
    } else if i < 24 {
      assert i == 16 || i == 17 || i == 18 || i == 19 || i == 20 || i == 21 || i == 22 || i == 23;
    } else {
      assert i == 24 || i == 25 || i == 26 || i == 27 || i == 28 || i == 29 || i == 30;
    }
  }

  /** From LARGEST on the loop never ends: whatever `pow` holds, it is at most
      y, and stays a value of the table. */
  lemma {:induction false} LoopsForever(y: nat, pow: nat)
    requires y >= LARGEST && pow in POWERS
    ensures y >= pow && pow * 10 % WORD in POWERS
  {
    var i :| 0 <= i < |POWERS| && POWERS[i] == pow;
    if i < 31 {
      TableStep(i);
    } else {
      assert POWERS[31] == 0;
    }
  }

  /** What `pow` holds after i rounds. */
  function PowAfter(i: nat): nat {
    if i == 0 then 10 else PowAfter(i - 1) * 10 % WORD
  }

  lemma {:induction false} PowIsListed(i: nat)
    ensures PowAfter(i) in POWERS && (i < 32 ==> PowAfter(i) == POWERS[i])
  {
    if i == 0 {
      assert POWERS[0] == 10;
    } else {
      PowIsListed(i - 1);
      LoopsForever(LARGEST, PowAfter(i - 1));
      if i < 32 {
        TableStep(i - 1);
      }
    }
  }

  /** The loop ends iff the counter is below 10^23 modulo 2^32: from there on no
      value that `pow` ever holds exceeds it. */
  lemma {:induction false} LoopEndsIff(y: nat)
    ensures (exists i :: PowAfter(i) > y) <==> y < LARGEST
  {
    PowIsListed(22);
    assert POWERS[22] == LARGEST;
    if y >= LARGEST {
      forall i: nat
        ensures PowAfter(i) <= y
      {
        PowIsListed(i);
        LoopsForever(y, PowAfter(i));
      }
    }
  }

  /** Where the loop stops, from the i-th value on. */
  function StopFrom(y: nat, i: nat): nat
    requires i <= 22 && y < LARGEST
    decreases 22 - i
  {
    if y < POWERS[i] || i == 22 then POWERS[i] else StopFrom(y, i + 1)
  }

  /** The value returned. */
  function PidOf(x: nat, y: nat): nat
    requires y < LARGEST
  {
    (x * StopFrom(y, 0) % WORD + y) % WORD
  }

  method Generate(x: nat, y: nat) returns (pid: nat)
    requires x < WORD && y < LARGEST
    ensures pid == PidOf(x, y) && pid < WORD
  {
    var pow := 10;
    ghost var i := 0;
    while y >= pow
      invariant i <= 22 && pow == POWERS[i] && StopFrom(y, i) == StopFrom(y, 0)
      decreases 22 - i
    {
      TableStep(i);
      pow := pow * 10 % WORD;
      i := i + 1;
    }
    pid := (x * pow % WORD + y) % WORD;
  }

  // ----- decimal concatenation --------------------------------------------

  function Digits(n: nat): seq<nat> {
    if n < 10 then [n] else Digits(n / 10) + [n % 10]
  }

  /** The least power of ten, from 10 on, above y. */
  function TenAbove(y: nat): (p: nat)
    ensures p > y && p >= 10
  {
    if y < 10 then 10 else 10 * TenAbove(y / 10)
  }

  function PowerOfTen(i: nat): (p: nat)
    ensures p >= 1
  {
    if i == 0 then 1 else 10 * PowerOfTen(i - 1)
  }

  /** It is a power of ten above y, and none from 10 up to it is. */
  lemma {:induction false} TenAboveIsLeast(y: nat) returns (i: nat)
    ensures i >= 1 && TenAbove(y) == PowerOfTen(i)
    ensures forall j: nat :: 1 <= j < i ==> PowerOfTen(j) <= y
  {
    if y < 10 {
      i := 1;
      assert PowerOfTen(0) == 1;
    } else {
      var h := TenAboveIsLeast(y / 10);
      i := h + 1;
      forall j: nat | 1 <= j < i
        ensures PowerOfTen(j) <= y
      {
        assert PowerOfTen(j) == 10 * PowerOfTen(j - 1);
        if j == 1 {
          assert PowerOfTen(0) == 1;
        } else {
          assert PowerOfTen(j - 1) <= y / 10;
        }
      }
    }
  }

  function Concat(x: nat, y: nat): nat {
    x * TenAbove(y) + y
  }

  /** Below 10^9 the loop finds that power. */
  lemma StopIsTenAbove(y: nat)
    requires y < 1000000000
    ensures StopFrom(y, 0) == TenAbove(y)
  {
    var i := 0;
    while y >= POWERS[i]
      invariant i <= 8 && StopFrom(y, i) == StopFrom(y, 0)
      invariant i > 0 ==> y >= POWERS[i - 1]
      decreases 8 - i
    {
      i := i + 1;
    }
    TenAboveIs(y, i);
  }

  lemma {:induction false} TenAboveIs(y: nat, i: nat)
    requires i <= 8 && y < POWERS[i] && (i > 0 ==> y >= POWERS[i - 1])
    ensures TenAbove(y) == POWERS[i]
  {
    if i > 0 {
      SmallStep(i);
      TenAboveIs(y / 10, i - 1);
    }
  }

  lemma SmallStep(i: nat)
    requires 0 < i <= 8
    ensures POWERS[i] == 10 * POWERS[i - 1] && POWERS[0] == 10
    ensures i > 1 ==> POWERS[i - 1] == 10 * POWERS[i - 2]
  {
    assert i == 1 || i == 2 || i == 3 || i == 4 || i == 5 || i == 6 || i == 7 || i == 8;
  }

  /** While nothing overflows the pid is x and y written side by side. */
  lemma PidIsConcat(x: nat, y: nat)
    requires y < 1000000000 && Concat(x, y) < WORD
    ensures PidOf(x, y) == Concat(x, y)
  {
    StopIsTenAbove(y);
    ModSmall(x * TenAbove(y), WORD);
    ModSmall(Concat(x, y), WORD);
  }

  lemma ModSmall(a: nat, m: nat)
    requires a < m
    ensures a % m == a
  {
  }

  /** The last digit of y is the last of x and y written together. */
  lemma ConcatStep(x: nat, y: nat)
    requires x >= 1
    ensures Concat(x, y) == if y < 10 then 10 * x + y else 10 * Concat(x, y / 10) + y % 10
    ensures y >= 10 ==> Concat(x, y / 10) >= 1
  {
    if y >= 10 {
      var p := TenAbove(y / 10);
      assert x * (10 * p) == 10 * (x * p);
      assert x * p >= 1;
    }
  }

  lemma {:induction false} ConcatDigits(x: nat, y: nat)
    requires x >= 1
    ensures Digits(Concat(x, y)) == Digits(x) + Digits(y)
  {
    hide TenAbove;
    ConcatStep(x, y);
    hide Concat;
    if y >= 10 {
      ConcatDigits(x, y / 10);
      assert Digits(x) + (Digits(y / 10) + [y % 10]) == (Digits(x) + Digits(y / 10)) + [y % 10];
    }
  }

  /** x and y can be read back, given how long y is. */
  lemma ConcatInverse(x: nat, y: nat)
    ensures Concat(x, y) / TenAbove(y) == x && Concat(x, y) % TenAbove(y) == y
  {
    var p, c := TenAbove(y), Concat(x, y);
    Euclid(c, p);
    QuotientUnique(p, c / p, c % p, x, y);
  }

  lemma Euclid(c: nat, p: nat)
    requires p > 0
    ensures c == (c / p) * p + c % p && 0 <= c % p < p
  {
  }

  lemma QuotientUnique(p: nat, q: int, r: nat, x: int, y: nat)
    requires r < p && y < p && q * p + r == x * p + y
    ensures q == x && r == y
  {
    var d := q - x;
    Times(d, p);
    assert d * p == q * p - x * p;
  }

  lemma Times(d: int, p: int)
    requires p >= 0
    ensures d >= 1 ==> d * p >= p
    ensures d <= -1 ==> d * p <= -p
  {
  }

  lemma {:induction false} TenAboveGap(y: nat, z: nat)
    ensures TenAbove(y) < TenAbove(z) ==> 10 * TenAbove(y) <= TenAbove(z)
  {
    if z >= 10 && y >= 10 {
      TenAboveGap(y / 10, z / 10);
    }
  }

  /** Different counters give different pids, whatever their lengths. */
  lemma ConcatInjective(x: nat, y: nat, z: nat)
    requires x >= 1 && y != z
    ensures Concat(x, y) != Concat(x, z)
  {
    if TenAbove(y) < TenAbove(z) {
      ConcatLess(x, y, z);
    } else if TenAbove(z) < TenAbove(y) {
      ConcatLess(x, z, y);
    }
  }

  lemma ConcatLess(x: nat, y: nat, z: nat)
    requires x >= 1 && TenAbove(y) < TenAbove(z)
    ensures Concat(x, y) < Concat(x, z)
  {
    TenAboveGap(y, z);
    LessByGap(x, y, z, TenAbove(y), TenAbove(z));
  }

  lemma LessByGap(x: nat, y: nat, z: nat, p: nat, q: nat)
    requires x >= 1 && y < p && 10 * p <= q
    ensures x * p + y < x * q + z
  {
    var d := q - p;
    Larger(x, d);
    assert x * q == x * p + x * d;
  }

  lemma Larger(x: nat, d: nat)
    requires x >= 1
    ensures x * d >= d
  {
  }

  /** Counters of one length never share a pid, however the product wraps. */
  lemma SameStopDiffers(x: nat, y: nat, z: nat)
    requires y < LARGEST && z < LARGEST && y != z && StopFrom(y, 0) == StopFrom(z, 0)
    ensures PidOf(x, y) != PidOf(x, z)
  {
    SumsDiffer(x * StopFrom(y, 0) % WORD, y, z);
  }

  lemma SumsDiffer(a: nat, y: nat, z: nat)
    requires a < WORD && y < WORD && z < WORD && y != z
    ensures (a + y) % WORD != (a + z) % WORD
  {
    SumMod(a, y);
    SumMod(a, z);
  }

  lemma SumMod(a: nat, y: nat)
    requires a < WORD && y < WORD
    ensures (a + y) % WORD == if a + y < WORD then a + y else a + y - WORD
  {
  }

  /** Two counters share a pid iff the loop stops at different values for them
      and the unwrapped results agree modulo 2^32: x times the difference of the
      stops makes up for the difference of the counters. */
  lemma {:induction false} PidsCollideIff(x: nat, y: nat, z: nat)
    requires y < LARGEST && z < LARGEST && y != z
    ensures PidOf(x, y) == PidOf(x, z) <==>
      StopFrom(y, 0) != StopFrom(z, 0) && (x * (StopFrom(z, 0) - StopFrom(y, 0)) - (y - z)) % WORD == 0
  {
    hide StopFrom;
    var s: int, u: int := StopFrom(y, 0), StopFrom(z, 0);
    if s == u {
      SameStopDiffers(x, y, z);
    } else {
      Distribute(x, u, s);
      CollideSums(x * s, x * u, y, z, x * (u - s) - (y - z));
    }
  }

  lemma Distribute(x: int, u: int, s: int)
    ensures x * (u - s) == x * u - x * s
  {
  }

  lemma CollideSums(a: int, b: int, y: int, z: int, d: int)
    requires d == (b + z) - (a + y)
    ensures (a % WORD + y) % WORD == (b % WORD + z) % WORD <==> d % WORD == 0
  {
    Unwrapped(a, y);
    Unwrapped(b, z);
    CongruentIff(b + z, a + y);
  }

  lemma Unwrapped(a: int, y: int)
    ensures (a % WORD + y) % WORD == (a + y) % WORD
  {
    assert a == (a / WORD) * WORD + a % WORD;
    ModShift(a % WORD + y, a / WORD);
  }

  lemma ModShift(b: int, q: int)
    ensures (b + q * WORD) % WORD == b % WORD
  {
  }

  lemma CongruentIff(b: int, a: int)
    ensures b % WORD == a % WORD <==> (b - a) % WORD == 0
  {
    var q := b / WORD - a / WORD;
    assert b - a == q * WORD + (b % WORD - a % WORD);
    ModShift(b % WORD - a % WORD, q);
  }

  lemma StopsOfWitness()
    ensures StopFrom(968, 0) == 1000 && StopFrom(1000, 0) == 10000
  {
    assert StopFrom(968, 2) == 1000 && StopFrom(1000, 3) == 10000;
    assert StopFrom(968, 1) == 1000 && StopFrom(1000, 2) == 10000;
    assert StopFrom(1000, 1) == 10000;
  }

  /** So the counters 968 and 1000 share a pid for the aligned address 8112716:
      9000 times it, and 32, is 17 times 2^32. */
  lemma WrapCollides()
    ensures 8112716 % 4 == 0 && PidOf(8112716, 968) == PidOf(8112716, 1000)
  {
    hide StopFrom, PidOf;
    StopsOfWitness();
    assert 8112716 * (10000 - 1000) - (968 - 1000) == 17 * WORD;
    PidsCollideIff(8112716, 968, 1000);
  }
}
