/** The duration texts of renderer.js: formatTime for one play, formatTotalTime for a beatmap. */
module Formatting {
  import opened Text

  /** JavaScript's `Math.trunc(a / b)` for a positive divisor: the quotient rounded toward zero. */
  function JsQuot(a: int, b: int): (q: int)
    requires b > 0
    ensures a >= 0 ==> q == a / b
    ensures a < 0 ==> q <= 0
  {
    if a >= 0 then a / b else -((-a) / b)
  }

  /**
   * JavaScript's `a % b` for a positive divisor: the remainder keeps the sign of `a`, and
   * with the truncated quotient it gives `a` back, which fixes its value.
   */
  function JsRem(a: int, b: int): (r: int)
    requires b > 0
    ensures a >= 0 ==> r == a % b
    ensures a < 0 ==> -b < r <= 0
    ensures a == JsQuot(a, b) * b + r
    ensures (a - r) % b == 0
  {
    if a >= 0 then
      assert a - a % b == (a / b) * b;
      MultipleRem(a / b, b);
      a % b
    else
      var n := -a;
      var q := -(n / b);
      assert n == (n / b) * b + n % b;
      assert -((n / b) * b) == q * b;
      assert a - -(n % b) == q * b;
      MultipleRem(q, b);
      -(n % b)
  }

  /** A multiple of `b` leaves no Euclidean remainder. */
  lemma MultipleRem(m: int, b: int)
    requires b > 0
    ensures (m * b) % b == 0
  {
    var x := m * b;
    var d := x / b;
    assert x == d * b + x % b;
    assert (m - d) * b == m * b - d * b;
    if m - d >= 1 {
      ProductAtLeast(m - d, b);
    } else {
      ProductAtMost(m - d, b);
    }
  }

  lemma {:induction false} ProductAtLeast(k: int, b: int)
    requires k >= 1 && b > 0
    ensures k * b >= b
  {
    if k > 1 {
      ProductAtLeast(k - 1, b);
      assert k * b == (k - 1) * b + b;
    }
  }

  lemma {:induction false} ProductAtMost(k: int, b: int)
    requires k <= 0 && b > 0
    ensures k * b <= 0
    decreases -k
  {
    if k < 0 {
      ProductAtMost(k + 1, b);
      assert k * b == (k + 1) * b - b;
    }
  }

  /** formatTime: "0s" for zero, otherwise the minutes, a colon and the seconds padded to two digits. */
  function FormatTime(seconds: int): (r: string)
    ensures seconds == 0 ==> r == "0s"
    ensures seconds != 0 ==> ':' in r
  {
    if seconds == 0 then "0s"
    else
      var m := seconds / 60;
      var s := JsRem(seconds, 60);
      IntToString(m) + ":" + PadTwo(IntToString(s))
  }

  /** `r` is the digits `x`, then `sep`, then the digits `y`, then `tail`; `x` and `y` denote `v1` and `v2`. */
  predicate Shows(r: string, x: string, sep: string, y: string, tail: string, v1: nat, v2: nat) {
    && r == x + sep + y + tail
    && x != [] && y != []
    && AllDigits(x) && AllDigits(y)
    && DigitsValue(x) == v1 && DigitsValue(y) == v2
  }

  /**
   * For a positive number of seconds the text reads back: minutes, a colon and two digits
   * of seconds below 60 that together give the input.
   */
  lemma FormatTimeReadsBack(seconds: int)
    requires seconds > 0
    ensures exists x, y, m: nat, s: nat ::
      && Shows(FormatTime(seconds), x, ":", y, "", m, s)
      && |y| == 2 && s < 60 && m * 60 + s == seconds
  {
    var m, s := seconds / 60, seconds % 60;
    var x, y := NatToString(m), PadTwo(NatToString(s));
    assert FormatTime(seconds) == x + ":" + y + "";
    NarrowNumber(s);
    DigitsRoundTrip(m);
    DigitsRoundTrip(s);
    PadTwoValue(NatToString(s));
    assert DigitsValue(y) == s;
    assert Shows(FormatTime(seconds), x, ":", y, "", m, s);
  }

  /**
   * formatTotalTime: hours and minutes from one hour on, minutes and seconds from one
   * minute on, seconds alone below that.
   */
  function FormatTotalTime(totalSeconds: int): (r: string)
    ensures totalSeconds >= 3600 ==>
      r == NatToString(totalSeconds / 3600) + "h " + NatToString(totalSeconds % 3600 / 60) + "m"
    ensures 60 <= totalSeconds < 3600 ==>
      r == NatToString(totalSeconds / 60) + "m " + NatToString(totalSeconds % 60) + "s"
    ensures 0 <= totalSeconds < 60 ==> r == NatToString(totalSeconds) + "s"
    ensures totalSeconds < 0 ==> r == IntToString(JsRem(totalSeconds, 60)) + "s"
  {
    var h := totalSeconds / 3600;
    var m := JsRem(totalSeconds, 3600) / 60;
    var s := JsRem(totalSeconds, 60);
    if h > 0 then IntToString(h) + "h " + IntToString(m) + "m"
    else if m > 0 then IntToString(m) + "m " + IntToString(s) + "s"
    else IntToString(s) + "s"
  }

  /**
   * The numbers formatTotalTime shows, read back, are the whole hours and the minutes left
   * over (from one hour on), or the whole minutes and the seconds left over (from one
   * minute on); they account for the total up to the unit left out.
   */
  lemma FormatTotalTimeReadsBack(t: int)
    requires t >= 60
    ensures t >= 3600 ==> exists x, y, h: nat, m: nat ::
      && Shows(FormatTotalTime(t), x, "h ", y, "m", h, m)
      && h >= 1 && m < 60 && h * 3600 + m * 60 <= t < h * 3600 + m * 60 + 60
    ensures t < 3600 ==> exists x, y, m: nat, s: nat ::
      && Shows(FormatTotalTime(t), x, "m ", y, "s", m, s)
      && 1 <= m < 60 && s < 60 && m * 60 + s == t
  {
    if t >= 3600 {
      var h, m := t / 3600, t % 3600 / 60;
      var x, y := NatToString(h), NatToString(m);
      DigitsRoundTrip(h);
      DigitsRoundTrip(m);
      assert Shows(FormatTotalTime(t), x, "h ", y, "m", h, m);
    } else {
      var m, s := t / 60, t % 60;
      var x, y := NatToString(m), NatToString(s);
      DigitsRoundTrip(m);
      DigitsRoundTrip(s);
      assert Shows(FormatTotalTime(t), x, "m ", y, "s", m, s);
    }
  }
}
