/** The payout formula of the game: the multiplier earned after `revealed` safe
    reveals on a board with `booms` booms, and the winnings it pays on a bet.
    JavaScript's double `0.3` is the exact rational 3/10 here. */
module Payout {
  import opened Board

  function Max(a: int, b: int): int { if a < b then b else a }

  function Min(a: int, b: int): int { if a < b then a else b }

  /** `Math.max(1, safeSpots - revealed)`: the divisor of the formula, never below 1. */
  function Denominator(booms: int, revealed: int): (d: int)
    ensures d >= 1
    ensures d >= GridSize - booms - revealed
    ensures d == 1 || d == GridSize - booms - revealed
  {
    Max(1, (GridSize - booms) - revealed)
  }

  /** `calculateMultiplier(booms, revealed)`. */
  function Multiplier(booms: int, revealed: int): real
  {
    if revealed == 0 then 1.0
    else 1.0 + (booms as real * (3.0 / 10.0) * revealed as real) / Denominator(booms, revealed) as real
  }

  /** `Math.floor(betAmount * multiplier)`. */
  function Winnings(bet: int, multiplier: real): int
  {
    (bet as real * multiplier).Floor
  }

  /** The winnings of a bet at the multiplier of (booms, revealed), computed
      with integers only. */
  function IntegerWinnings(bet: int, booms: int, revealed: int): int
  {
    bet + (bet * booms * 3 * revealed) / (10 * Denominator(booms, revealed))
  }

  lemma MultiplierAtStart(booms: int)
    ensures Multiplier(booms, 0) == 1.0
  {
  }

  /** x1/d1 < x2/d2 when the numerator grows and the divisor does not. */
  lemma QuotientGrows(x1: real, x2: real, d1: real, d2: real)
    requires 0.0 <= x1 < x2
    requires d1 >= d2 > 0.0
    ensures x1 / d1 < x2 / d2
  {
    var q1, q2 := x1 / d1, x2 / d2;
    assert q1 * d1 == x1;
    assert q2 * d2 == x2;
    assert x1 * d2 <= x1 * d1;
    assert x1 * d1 < x2 * d1;
    assert q1 * d1 * d2 == x1 * d2;
    assert q2 * d2 * d1 == x2 * d1;
    assert q1 * (d1 * d2) < q2 * (d1 * d2);
  }

  /** The numerator of the formula, booms * 0.3 * revealed. */
  lemma NumeratorIs(booms: int, revealed: int)
    ensures booms as real * (3.0 / 10.0) * revealed as real == (booms * 3 * revealed) as real / 10.0
  {
  }

  /** Any reveal on a board with at least one boom pays more than the stake. */
  lemma MultiplierAboveOne(booms: int, revealed: int)
    requires booms >= 1 && revealed >= 1
    ensures Multiplier(booms, revealed) > 1.0
  {
    var d := Denominator(booms, revealed) as real;
    NumeratorIs(booms, revealed);
    assert booms * 3 * revealed >= 1 by {
      assert booms * revealed >= 1;
    }
    QuotientGrows(0.0, (booms * 3 * revealed) as real / 10.0, d, d);
  }

  /** No boom or no reveal: the multiplier is never below 1. */
  lemma MultiplierAtLeastOne(booms: int, revealed: int)
    requires booms >= 0 && revealed >= 0
    ensures Multiplier(booms, revealed) >= 1.0
  {
    if booms >= 1 && revealed >= 1 {
      MultiplierAboveOne(booms, revealed);
    } else if revealed != 0 {
      assert booms == 0;
      NumeratorIs(booms, revealed);
    }
  }

  /** For a fixed number of booms, every further safe reveal raises the
      multiplier, also past 25 - booms where the divisor stays at 1. */
  lemma MultiplierIncreasesWithReveals(booms: int, r1: int, r2: int)
    requires booms >= 1
    requires 0 <= r1 < r2
    ensures Multiplier(booms, r1) < Multiplier(booms, r2)
  {
    if r1 == 0 {
      MultiplierAboveOne(booms, r2);
    } else {
      NumeratorIs(booms, r1);
      NumeratorIs(booms, r2);
      assert booms * 3 * r1 < booms * 3 * r2 by {
        assert booms * r1 < booms * r2;
      }
      QuotientGrows((booms * 3 * r1) as real / 10.0, (booms * 3 * r2) as real / 10.0,
                    Denominator(booms, r1) as real, Denominator(booms, r2) as real);
    }
  }

  /** For a fixed number of reveals, more booms give a higher multiplier. */
  lemma MultiplierIncreasesWithBooms(b1: int, b2: int, revealed: int)
    requires 0 <= b1 < b2
    requires revealed >= 1
    ensures Multiplier(b1, revealed) < Multiplier(b2, revealed)
  {
    var n1, n2 := b1 * 3 * revealed, b2 * 3 * revealed;
    var d1, d2 := Denominator(b1, revealed), Denominator(b2, revealed);
    NumeratorIs(b1, revealed);
    NumeratorIs(b2, revealed);
    ScaleKeepsOrder(b1 * 3, b2 * 3, revealed);
    assert n1 >= 0 by { ProductNonNegative(b1 * 3, revealed); }
    QuotientGrows(n1 as real / 10.0, n2 as real / 10.0, d1 as real, d2 as real);
  }

  lemma ScaleKeepsOrder(a: int, b: int, c: int)
    requires a < b && c > 0
    ensures a * c < b * c
  {
    assert b * c - a * c == (b - a) * c;
  }

  lemma ProductNonNegative(a: int, b: int)
    requires a >= 0 && b >= 0
    ensures a * b >= 0
  {
  }

  /** Flooring an exact quotient is Dafny's integer division for a positive divisor. */
  lemma FloorOfQuotient(a: int, c: int)
    requires c > 0
    ensures (a as real / c as real).Floor == a / c
  {
    var q, m := a / c, a % c;
    assert a == q * c + m && 0 <= m < c;
    assert a as real / c as real == q as real + m as real / c as real;
    assert 0.0 <= m as real / c as real < 1.0;
  }

  /** The multiplier written with one integer numerator and divisor. */
  lemma MultiplierAsQuotient(booms: int, revealed: int)
    ensures Multiplier(booms, revealed)
         == 1.0 + (booms * 3 * revealed) as real / (10 * Denominator(booms, revealed)) as real
  {
    var d := Denominator(booms, revealed);
    var n := booms * 3 * revealed;
    NumeratorIs(booms, revealed);
    assert (n as real / 10.0) / d as real == n as real / (10 * d) as real;
    if revealed == 0 {
      assert n == 0;
    }
  }

  /** Scaling an exact quotient by an integer. */
  lemma ScaleQuotient(k: int, n: int, d: int)
    requires d > 0
    ensures k as real * (n as real / d as real) == (k * n) as real / d as real
  {
  }

  /** Moving an integer out of a floor. */
  lemma FloorShift(k: int, x: real)
    ensures (k as real + x).Floor == k + x.Floor
  {
  }

  /** The floored payout equals the integer formula, for every integer bet. */
  lemma WinningsFormula(bet: int, booms: int, revealed: int)
    ensures Winnings(bet, Multiplier(booms, revealed)) == IntegerWinnings(bet, booms, revealed)
  {
    var d := 10 * Denominator(booms, revealed);
    var n := booms * 3 * revealed;
    var q := n as real / d as real;
    MultiplierAsQuotient(booms, revealed);
    assert Multiplier(booms, revealed) == 1.0 + q;
    assert bet as real * (1.0 + q) == bet as real + bet as real * q;
    ScaleQuotient(bet, n, d);
    FloorShift(bet, (bet * n) as real / d as real);
    FloorOfQuotient(bet * n, d);
    assert bet * n == bet * booms * 3 * revealed;
    assert IntegerWinnings(bet, booms, revealed) == bet + (bet * n) / d;
  }

  lemma DivNonNegative(n: int, d: int)
    requires n >= 0 && d > 0
    ensures n / d >= 0
  {
  }

  /** A cash-out never pays back less than the stake. */
  lemma WinningsCoverBet(bet: int, booms: int, revealed: int)
    requires bet >= 0 && booms >= 0 && revealed >= 0
    ensures Winnings(bet, Multiplier(booms, revealed)) >= bet
  {
    var n, d := bet * booms * 3 * revealed, 10 * Denominator(booms, revealed);
    ProductNonNegative(bet, booms);
    ProductNonNegative(bet * booms * 3, revealed);
    DivNonNegative(n, d);
    assert IntegerWinnings(bet, booms, revealed) >= bet;
    WinningsFormula(bet, booms, revealed);
  }
}
