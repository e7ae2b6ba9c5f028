/** Whole numbers as doubles: which ones a double can hold, what an integer literal rounds to, and the shortest
    decimal digits that still round to a given double (section 3.2.2.3 of RFC 8785, the ECMAScript number form). */
module Doubles {

  const TWO_53: nat := 0x20_0000_0000_0000
  const EXPONENT_FROM: nat := 1_000_000_000_000_000_000_000

  // ---- Rounding to 53 significant bits, ties to even ----

  /** The first 53 bits, the value of the last of them, and the number they make. */
  function Mantissa(n: nat): nat { if n < TWO_53 then n else Mantissa(n / 2) }

  function Unit(n: nat): nat { if n < TWO_53 then 1 else 2 * Unit(n / 2) }

  function Floor(n: nat): nat { if n < TWO_53 then n else 2 * Floor(n / 2) }

  function Nearest(n: nat): nat {
    var below, unit := Floor(n), Unit(n);
    var rest := n - below;
    if 2 * rest < unit || (2 * rest == unit && Mantissa(n) % 2 == 0) then below else below + unit
  }

  predicate IsDouble(v: nat) { Nearest(v) == v }

  lemma {:induction false} FloorLarge(n: nat)
    ensures Floor(n) <= n < Floor(n) + Unit(n)
    ensures n >= TWO_53 ==> Floor(n) >= TWO_53
  {
    if n >= TWO_53 { FloorLarge(n / 2); }
  }

  lemma SmallIsDouble(n: nat)
    requires n < TWO_53
    ensures IsDouble(n)
  {
  }

  /** Below 2^53 only a number itself rounds to it. */
  lemma OnlyItself(n: nat, v: nat)
    requires v < TWO_53 && Nearest(n) == v
    ensures n == v
  {
    FloorLarge(n);
  }

  // ---- The shortest digits ----

  function PowerAbove(v: nat, unit: nat): (u: nat)
    requires unit > 0
    ensures u > v && u > 0
    decreases v + 1 - unit
  {
    if unit > v then unit else PowerAbove(v, 10 * unit)
  }

  /** The multiples of `unit` on either side of `v`; the nearer one that reads back as `v`, and of two equally
      near the one with an even last digit. */
  function Candidate(v: nat, unit: nat): nat
    requires unit > 0
  {
    var low := v - v % unit;
    var high := low + unit;
    if Nearest(low) != v then high
    else if Nearest(high) != v then low
    else if v - low < high - v then low
    else if high - v < v - low then high
    else if low / unit % 2 == 0 then low else high
  }

  function Spell(v: nat, unit: nat): nat {
    if unit <= 1 then v
    else if Nearest(Candidate(v, unit)) == v then Candidate(v, unit)
    else Spell(v, unit / 10)
  }

  /** The integer that the shortest digits of `v` spell: from the largest power of ten down, the first multiple of one
      that reads back as `v`; `SpelledShortest` shows that none ends in more zeros. */
  function Spelled(v: nat): nat { Spell(v, PowerAbove(v, 1)) }

  lemma {:induction false} SpellReadsBack(v: nat, unit: nat)
    requires IsDouble(v)
    ensures Nearest(Spell(v, unit)) == v
  {
    if unit > 1 && Nearest(Candidate(v, unit)) != v { SpellReadsBack(v, unit / 10); }
  }

  /** What is written reads back as the same double. */
  lemma SpelledReadsBack(v: nat)
    requires IsDouble(v)
    ensures Nearest(Spelled(v)) == v
  {
    SpellReadsBack(v, PowerAbove(v, 1));
  }

  /** Different doubles are spelled differently, and only a double of more than 53 bits is spelled inexactly. */
  lemma SpelledInjective(v: nat, w: nat)
    requires IsDouble(v) && IsDouble(w) && Spelled(v) == Spelled(w)
    ensures v == w
  {
    SpelledReadsBack(v);
    SpelledReadsBack(w);
  }

  lemma SpelledSmall(v: nat)
    requires v < TWO_53
    ensures Spelled(v) == v
  {
    SmallIsDouble(v);
    SpelledReadsBack(v);
    OnlyItself(Spelled(v), v);
  }

  lemma SpelledWide(v: nat)
    requires IsDouble(v) && v >= TWO_53
    ensures Spelled(v) >= TWO_53
  {
    SpelledReadsBack(v);
    if Spelled(v) < TWO_53 { SmallIsDouble(Spelled(v)); }
  }

  // ---- How far rounding goes ----

  lemma {:induction false} UnitIsSmall(n: nat)
    ensures n >= TWO_53 ==> Unit(n) * 0x10_0000_0000_0000 <= n
  {
    if n >= TWO_53 { UnitIsSmall(n / 2); }
  }

  /** A number further from `v` than one part in 2^52 does not round to it. */
  lemma FarIsNot(n: nat, v: nat)
    requires (v - n) * 0x10_0000_0000_0000 > n || (n - v) * 0x10_0000_0000_0000 > n
    ensures Nearest(n) != v
  {
    FloorLarge(n);
    UnitIsSmall(n);
  }

  lemma CandidateIs(v: nat, unit: nat, low: nat)
    requires unit > 0 && low == v - v % unit
    ensures Candidate(v, unit) == low || Candidate(v, unit) == low + unit
  {
    hide Nearest;
  }

  lemma SpellGoesOn(v: nat, unit: nat)
    requires unit > 1 && Nearest(Candidate(v, unit)) != v
    ensures Spell(v, unit) == Spell(v, unit / 10)
  {
  }

  lemma Skips(v: nat, unit: nat, low: nat)
    requires unit > 1 && low == v - v % unit
    requires (v - low) * 0x10_0000_0000_0000 > low && (low + unit - v) * 0x10_0000_0000_0000 > low + unit
    ensures Spell(v, unit) == Spell(v, unit / 10)
  {
    CandidateIs(v, unit, low);
    hide Candidate, Spell, Nearest;
    FarIsNot(low, v);
    FarIsNot(low + unit, v);
    SpellGoesOn(v, unit);
  }

  function Pow2(k: nat): nat { if k == 0 then 1 else 2 * Pow2(k - 1) }

  function Shifted(m: nat, k: nat): nat { if k == 0 then m else 2 * Shifted(m, k - 1) }

  /** A number in the interval of the 53-bit mantissa `m` at the power `k` of two. */
  lemma {:induction false} Parts(n: nat, m: nat, k: nat)
    requires 0x10_0000_0000_0000 <= m < TWO_53 && Shifted(m, k) <= n < Shifted(m, k) + Pow2(k)
    ensures Floor(n) == Shifted(m, k) && Unit(n) == Pow2(k) && Mantissa(n) == m
  {
    if k > 0 {
      AtLeast(m, k - 1);
      Parts(n / 2, m, k - 1);
    }
  }

  lemma {:induction false} AtLeast(m: nat, k: nat)
    ensures Shifted(m, k) >= m
  {
    if k > 0 { AtLeast(m, k - 1); }
  }

  // ---- Whole doubles below 10^21 are spelled below it ----

  lemma {:induction false} FloorMonotone(n: nat, m: nat)
    requires n <= m
    ensures Floor(n) <= Floor(m)
  {
    FloorLarge(m);
    if n >= TWO_53 { FloorMonotone(n / 2, m / 2); }
  }

  lemma {:induction false} FloorWithin(n: nat, x: nat)
    requires Floor(n) <= x < Floor(n) + Unit(n)
    ensures Floor(x) == Floor(n)
  {
    if n >= TWO_53 {
      FloorLarge(n);
      FloorWithin(n / 2, x / 2);
    }
  }

  lemma DoubleIsFloor(w: nat)
    requires IsDouble(w)
    ensures Floor(w) == w
  {
    FloorLarge(w);
  }

  /** Rounding does not pass a double. */
  lemma RoundsUpTo(n: nat, w: nat)
    requires IsDouble(w) && n <= w
    ensures Nearest(n) <= w
  {
    FloorLarge(n);
    DoubleIsFloor(w);
    if Floor(n) < n && w < Floor(n) + Unit(n) { FloorWithin(n, w); }
  }

  lemma RoundsDownTo(n: nat, w: nat)
    requires IsDouble(w) && w <= n
    ensures w <= Nearest(n)
  {
    DoubleIsFloor(w);
    FloorMonotone(w, n);
  }

  function Ten(k: nat): (t: nat)
    ensures t > 0
  {
    if k == 0 then 1 else 10 * Ten(k - 1)
  }

  lemma {:induction false} TenMonotone(j: nat, k: nat)
    requires j <= k
    ensures Ten(j) <= Ten(k)
  {
    if j < k { TenMonotone(j, k - 1); }
  }

  lemma {:induction false} TenAbove(v: nat, j: nat, k: nat)
    requires j <= k && Ten(k) > v && (k > 0 ==> Ten(k - 1) <= v)
    ensures PowerAbove(v, Ten(j)) == Ten(k)
    decreases k - j
  {
    if j < k {
      TenMonotone(j, k - 1);
      TenAbove(v, j + 1, k);
    }
  }

  lemma ShiftedTimes(m: nat, k: nat)
    ensures Shifted(m, k) == m * Pow2(k)
  {
  }

  lemma TwoTo17()
    ensures Pow2(17) == 131072
  {
    assert Pow2(6) == 64;
    assert Pow2(12) == 4096;
  }

  lemma Tens()
    ensures Ten(0) == 1 && Ten(20) == 100_000_000_000_000_000_000
    ensures Ten(21) == EXPONENT_FROM && Ten(22) == 10 * EXPONENT_FROM
  {
    assert Ten(7) == 10_000_000;
    assert Ten(14) == 100_000_000_000_000;
  }

  /** A number nearest to the double of mantissa `m` at the power `k` of two. */
  lemma RoundsTo(n: nat, m: nat, k: nat, v: nat)
    requires 0x10_0000_0000_0000 <= m < TWO_53 && v == m * Pow2(k) && v <= n && 2 * (n - v) < Pow2(k)
    ensures Nearest(n) == v
  {
    ShiftedTimes(m, k);
    Parts(n, m, k);
  }

  lemma SpelledFrom(v: nat, k: nat)
    requires k > 0 && Ten(k) > v && Ten(k - 1) <= v
    ensures Spelled(v) == Spell(v, Ten(k))
  {
    TenAbove(v, 0, k);
  }

  /** The nearer of the two multiples, if it reads back, is what is spelled. */
  lemma SpellsNearer(v: nat, unit: nat, c: nat)
    requires unit > 1 && Nearest(c) == v
    requires var low := v - v % unit;
             if c == low then 2 * (v - low) < unit else c == low + unit && 2 * (v - low) > unit
    ensures Spell(v, unit) == c
  {
    hide Nearest;
  }

  /** 10^21 is a double, and is spelled as itself. */
  lemma TenTo21(v: nat)
    requires v == EXPONENT_FROM
    ensures IsDouble(v) && Spelled(v) == v
  {
    Tens();
    TwoTo17();
    hide Ten, Pow2, Spelled, Spell, Nearest;
    RoundsTo(v, 7629394531250000, 17, v);
    SpelledFrom(v, 22);
    Skips(v, 10 * v, 0);
    SpellsNearer(v, v, v);
  }

  lemma SpelledSide(v: nat, w: nat)
    requires IsDouble(v) && IsDouble(w) && Spelled(w) == w
    ensures Spelled(v) < w <==> v < w
  {
    SpelledReadsBack(v);
    var s := Spelled(v);
    if s < w { RoundsUpTo(s, w); } else { RoundsDownTo(s, w); }
  }

  /** So a double is written without an exponent exactly below 10^21. */
  lemma SpelledLarge(v: nat)
    requires IsDouble(v)
    ensures Spelled(v) < EXPONENT_FROM <==> v < EXPONENT_FROM
  {
    hide *;
    var w: nat :| w == EXPONENT_FROM;
    TenTo21(w);
    SpelledSide(v, w);
  }

  // ---- Rounding gives the nearest double ----

  lemma {:induction false} NextIsDouble(n: nat)
    ensures Floor(Floor(n) + Unit(n)) == Floor(n) + Unit(n)
  {
    if n >= TWO_53 {
      NextIsDouble(n / 2);
      FloorLarge(n);
    }
  }

  lemma FloorIsDouble(v: nat)
    requires Floor(v) == v
    ensures IsDouble(v)
  {
    FloorLarge(v);
  }

  lemma NearestIsDouble(n: nat)
    ensures IsDouble(Nearest(n))
  {
    FloorLarge(n);
    FloorWithin(n, Floor(n));
    NextIsDouble(n);
    FloorIsDouble(Nearest(n));
  }

  /** No double is nearer to a number than the one it rounds to. */
  lemma NearestIsNearest(n: nat, w: nat)
    requires IsDouble(w)
    ensures var d := if n < Nearest(n) then Nearest(n) - n else n - Nearest(n);
            var e := if n < w then w - n else n - w;
            d <= e
  {
    FloorLarge(n);
    DoubleIsFloor(w);
    if w <= n { FloorMonotone(w, n); } else if w < Floor(n) + Unit(n) { FloorWithin(n, w); }
  }

  lemma NearestMonotone(n: nat, m: nat)
    requires n <= m
    ensures Nearest(n) <= Nearest(m)
  {
    FloorLarge(n);
    FloorLarge(m);
    if m < Floor(n) + Unit(n) {
      FloorWithin(n, m);
      SameCell(n, m);
    } else {
      FloorMonotone(Floor(n) + Unit(n), m);
      NextIsDouble(n);
    }
  }

  lemma {:induction false} SameCell(n: nat, m: nat)
    requires Floor(n) <= m < Floor(n) + Unit(n)
    ensures Unit(m) == Unit(n) && Mantissa(m) == Mantissa(n)
  {
    if n >= TWO_53 {
      FloorLarge(n);
      SameCell(n / 2, m / 2);
    }
  }

  // ---- The digits are the shortest ----

  /** If any multiple of a unit reads back as `v`, the one that is tried does. */
  lemma CandidateReads(v: nat, unit: nat, q: nat)
    requires unit > 0 && IsDouble(v) && Nearest(q * unit) == v
    ensures Nearest(Candidate(v, unit)) == v
  {
    var low := v - v % unit;
    var high := low + unit;
    var x := q * unit;
    Beside(v, unit, q);
    if x <= v { NearestMonotone(x, low); NearestMonotone(low, v); } else { NearestMonotone(high, x); NearestMonotone(v, high); }
    hide Nearest;
  }

  lemma Beside(v: nat, unit: nat, q: nat)
    requires unit > 0
    ensures var low := v - v % unit;
            if q * unit <= v then q * unit <= low <= v else v < low + unit <= q * unit
  {
    var p := v / unit;
    assert v == p * unit + v % unit;
    if q > p { TimesMonotone(p + 1, q, unit); } else { TimesMonotone(q, p, unit); }
  }

  lemma TimesMonotone(a: nat, b: nat, unit: nat)
    requires a <= b
    ensures a * unit <= b * unit
  {
  }

  lemma CandidateMultiple(v: nat, unit: nat)
    requires unit > 0
    ensures exists q: nat :: Candidate(v, unit) == q * unit
  {
    var p := v / unit;
    assert v - v % unit == p * unit && v - v % unit + unit == (p + 1) * unit;
    CandidateIs(v, unit, v - v % unit);
    hide Candidate;
    assert Candidate(v, unit) == p * unit || Candidate(v, unit) == (p + 1) * unit;
  }

  lemma {:induction false} TenTimes(j: nat, k: nat)
    requires k <= j
    ensures exists r: nat :: Ten(j) == r * Ten(k)
  {
    if j == k {
      assert Ten(j) == 1 * Ten(k);
    } else {
      TenTimes(j - 1, k);
      var r: nat :| Ten(j - 1) == r * Ten(k);
      assert Ten(j) == (10 * r) * Ten(k);
    }
  }

  lemma MultipleOf(c: nat, j: nat, k: nat)
    requires k <= j && exists q: nat :: c == q * Ten(j)
    ensures exists q: nat :: c == q * Ten(k)
  {
    TenTimes(j, k);
    var q: nat :| c == q * Ten(j);
    var r: nat :| Ten(j) == r * Ten(k);
    assert c == (q * r) * Ten(k);
  }

  lemma {:induction false} SpellShortest(v: nat, j: nat, k: nat, q: nat)
    requires IsDouble(v) && k <= j && Nearest(q * Ten(k)) == v
    ensures exists p: nat :: Spell(v, Ten(j)) == p * Ten(k)
    decreases j
  {
    CandidateMultiple(v, Ten(j));
    if j == 0 {
      assert Spell(v, 1) == v * Ten(0);
    } else if Nearest(Candidate(v, Ten(j))) == v {
      hide Nearest, Candidate;
      MultipleOf(Candidate(v, Ten(j)), j, k);
    } else {
      if j == k { CandidateReads(v, Ten(k), q); }
      assert Ten(j) / 10 == Ten(j - 1);
      SpellShortest(v, j - 1, k, q);
    }
  }

  /** If a number that ends in `k` zeros reads back as `v`, what is spelled ends in as many. */
  lemma SpelledShortest(v: nat, top: nat, k: nat, q: nat)
    requires IsDouble(v) && Nearest(q * Ten(k)) == v
    requires top > 0 && Ten(top - 1) <= v < Ten(top) && k <= top
    ensures exists p: nat :: Spelled(v) == p * Ten(k)
  {
    SpelledFrom(v, top);
    SpellShortest(v, top, k, q);
  }

  // ---- A double that is spelled as another integer ----

  const TWO_69: nat := 590295810358705651712

  /** 2^69 is spelled 590295810358705700000, a different integer below 10^21. */
  lemma TwoTo69(v: nat)
    requires v == TWO_69
    ensures IsDouble(v) && Spelled(v) == 590295810358705700000
  {
    Tens();
    TwoTo17();
    hide Ten, Pow2, Spelled, Spell, Nearest;
    RoundsTo(v, 4503599627370496, 17, v);
    RoundsTo(590295810358705700000, 4503599627370496, 17, v);
    SpelledFrom(v, 21);
    Skips(v, 1000000000000000000000, 0);
    Skips(v, 100000000000000000000, 500000000000000000000);
    Skips(v, 10000000000000000000, 590000000000000000000);
    Skips(v, 1000000000000000000, 590000000000000000000);
    Skips(v, 100000000000000000, 590200000000000000000);
    Skips(v, 10000000000000000, 590290000000000000000);
    Skips(v, 1000000000000000, 590295000000000000000);
    Skips(v, 100000000000000, 590295800000000000000);
    Skips(v, 10000000000000, 590295810000000000000);
    Skips(v, 1000000000000, 590295810000000000000);
    Skips(v, 100000000000, 590295810300000000000);
    Skips(v, 10000000000, 590295810350000000000);
    Skips(v, 1000000000, 590295810358000000000);
    Skips(v, 100000000, 590295810358700000000);
    Skips(v, 10000000, 590295810358700000000);
    Skips(v, 1000000, 590295810358705000000);
    SpellsNearer(v, 100000, 590295810358705700000);
  }
}
