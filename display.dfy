/**
 * The countdown display of internal/bot/bot.go: the eight-cell progress bar
 * and the cycling clock face shown next to it.
 */
module Display {

  /** Go's integer division, which truncates toward zero. */
  function GoQuot(a: int, b: int): (q: int)
    requires b != 0
    ensures b > 0 && a >= 0 ==> q == a / b
  {
    var m := (if a < 0 then -a else a) / (if b < 0 then -b else b);
    if (a < 0) == (b < 0) then m else -m
  }

  const Cells: nat := 8
  const Black: char := '\U{2B1B}'
  const Green: char := '\U{1F7E9}'

  /** How many green cells the bar shows: filled = min(remaining*8/total, 8), none when total <= 0. */
  function GreenCells(total: int, remaining: int): int {
    if total <= 0 then 0
    else
      var filled := GoQuot(remaining * Cells, total);
      if filled > Cells then Cells else filled
  }

  /** strings.Repeat panics on a negative count: the bar exists only when the filled count is not negative. */
  predicate BarDefined(total: int, remaining: int) {
    total <= 0 || GoQuot(remaining * Cells, total) >= 0
  }

  function Repeat(c: char, n: nat): (s: string)
    ensures |s| == n && forall i :: 0 <= i < n ==> s[i] == c
  {
    seq(n, _ => c)
  }

  /** Number of occurrences of `c` in `s` (strings.Count for a one-rune pattern). */
  function Count(s: string, c: char): nat
    decreases |s|
  {
    if |s| == 0 then 0 else (if s[0] == c then 1 else 0) + Count(s[1..], c)
  }

  lemma {:induction false} CountConcat(a: string, b: string, c: char)
    ensures Count(a + b, c) == Count(a, c) + Count(b, c)
    decreases |a|
  {
    if |a| > 0 {
      assert (a + b)[1..] == a[1..] + b;
      CountConcat(a[1..], b, c);
    } else {
      assert a + b == b;
    }
  }

  lemma {:induction false} CountRepeat(x: char, n: nat, c: char)
    ensures Count(Repeat(x, n), c) == if x == c then n else 0
    decreases n
  {
    if n > 0 {
      assert Repeat(x, n)[1..] == Repeat(x, n - 1);
      CountRepeat(x, n - 1, c);
    }
  }

  /**
   * progressBar: "[" + black cells + green cells + "]", ten runes in all;
   * the green cells stand for the time remaining.
   */
  function ProgressBar(total: int, remaining: int): string
    requires BarDefined(total, remaining)
  {
    var filled := GreenCells(total, remaining);
    "[" + Repeat(Black, Cells - filled) + Repeat(Green, filled) + "]"
  }

  /**
   * The bar is ten runes framed by brackets, with as many green cells as
   * GreenCells says, the rest black, and no black cell after a green one.
   */
  lemma ProgressBarShape(total: int, remaining: int)
    requires BarDefined(total, remaining)
    ensures var bar := ProgressBar(total, remaining);
            |bar| == Cells + 2 && bar[0] == '[' && bar[Cells + 1] == ']'
            && 0 <= GreenCells(total, remaining) <= Cells
            && Count(bar, Green) == GreenCells(total, remaining)
            && Count(bar, Black) == Cells - GreenCells(total, remaining)
            && forall i, j :: 1 <= i < j <= Cells && bar[i] == Green ==> bar[j] == Green
  {
    var filled := GreenCells(total, remaining);
    var bar := ProgressBar(total, remaining);
    CountConcat("[" + Repeat(Black, Cells - filled), Repeat(Green, filled) + "]", Green);
    CountConcat("[", Repeat(Black, Cells - filled), Green);
    CountConcat(Repeat(Green, filled), "]", Green);
    CountRepeat(Black, Cells - filled, Green);
    CountRepeat(Green, filled, Green);
    CountConcat("[" + Repeat(Black, Cells - filled), Repeat(Green, filled) + "]", Black);
    CountConcat("[", Repeat(Black, Cells - filled), Black);
    CountConcat(Repeat(Green, filled), "]", Black);
    CountRepeat(Black, Cells - filled, Black);
    CountRepeat(Green, filled, Black);
    assert bar == ("[" + Repeat(Black, Cells - filled)) + (Repeat(Green, filled) + "]");
  }

  /** The cell counts of one bar, once its green-cell count is known. */
  lemma BarCounts(total: int, remaining: int, green: nat)
    requires BarDefined(total, remaining) && GreenCells(total, remaining) == green
    ensures Count(ProgressBar(total, remaining), Green) == green
    ensures Count(ProgressBar(total, remaining), Black) == Cells - green
  {
    ProgressBarShape(total, remaining);
  }

  /** The cases the source's tests check: (10,10), (10,5), (10,0), (0,0) and (5,10). */
  lemma ProgressBarExamples()
    ensures Count(ProgressBar(10, 10), Green) == 8 && Count(ProgressBar(10, 10), Black) == 0
    ensures Count(ProgressBar(10, 5), Green) == 4 && Count(ProgressBar(10, 5), Black) == 4
    ensures Count(ProgressBar(10, 0), Green) == 0 && Count(ProgressBar(10, 0), Black) == 8
    ensures Count(ProgressBar(0, 0), Black) == 8
    ensures Count(ProgressBar(5, 10), Green) == 8
  {
    assert GoQuot(80, 10) == 8;
    BarCounts(10, 10, 8);
    assert GoQuot(40, 10) == 4;
    BarCounts(10, 5, 4);
    assert GoQuot(0, 10) == 0;
    BarCounts(10, 0, 0);
    BarCounts(0, 0, 0);
    assert GoQuot(80, 5) == 16;
    BarCounts(5, 10, 8);
  }

  /** More time left never shows fewer green cells. */
  lemma GreenCellsMonotone(total: int, r1: int, r2: int)
    requires total > 0 && 0 <= r1 <= r2
    ensures GreenCells(total, r1) <= GreenCells(total, r2)
  {
    DivMonotone(r1 * Cells, r2 * Cells, total);
  }

  lemma DivMonotone(a: nat, b: nat, d: int)
    requires a <= b && d > 0
    ensures a / d <= b / d
  {
    var qa, qb := a / d, b / d;
    assert d * qa <= a;
    assert b < d * qb + d;
    assert d * qa < d * (qb + 1);
    MulLessCancel(d, qa, qb + 1);
  }

  lemma MulLessCancel(d: int, x: int, y: int)
    requires d > 0 && d * x < d * y
    ensures x < y
  {
    if x >= y {
      MulMonotone(d, y, x);
      assert false;
    }
  }

  lemma MulMonotone(d: int, y: int, x: int)
    requires d > 0 && y <= x
    ensures d * y <= d * x
  {
    assert d * x - d * y == d * (x - y);
  }

  /** A full countdown (remaining == total) is all green; an exhausted one (remaining == 0) all black. */
  lemma GreenCellsEnds(total: int)
    requires total > 0
    ensures GreenCells(total, total) == Cells
    ensures GreenCells(total, 0) == 0
  {
    assert (total * Cells) / total == Cells;
  }

  /** The 24 clock faces, on the hour and on the half hour, from 12:00 to 11:30, one constant per source line. */
  const ClockLine1: string := "\U{1F55B}\U{1F567}\U{1F550}\U{1F55C}\U{1F551}\U{1F55D}\U{1F552}\U{1F55E}"
  const ClockLine2: string := "\U{1F553}\U{1F55F}\U{1F554}\U{1F560}\U{1F555}\U{1F561}\U{1F556}\U{1F562}"
  const ClockLine3: string := "\U{1F557}\U{1F563}\U{1F558}\U{1F564}\U{1F559}\U{1F565}\U{1F55A}\U{1F566}"
  const ClockFaces: string := ClockLine1 + ClockLine2 + ClockLine3

  /** nextClockEmoji: the face for tick `i`; Go's % would index out of range for a negative tick. */
  function NextClockEmoji(i: int): string
    requires i >= 0
  {
    [ClockFaces[i % |ClockFaces|]]
  }

  /** Every tick shows exactly one of the 24 clock faces. */
  lemma ClockFaceOf(i: int)
    requires i >= 0
    ensures |NextClockEmoji(i)| == 1 && NextClockEmoji(i)[0] in ClockFaces
  {
  }

  /** The faces cycle with period 24. */
  lemma ClockPeriodic(i: nat)
    ensures |ClockFaces| == 24
    ensures NextClockEmoji(i + 24) == NextClockEmoji(i)
  {
    assert |ClockLine1| == 8 && |ClockLine2| == 8 && |ClockLine3| == 8;
    assert (i + 24) % 24 == i % 24;
  }
}
