/** The speaking rate of `process_audio` (app.py lines 79-81): the clip lasts
    `ms` milliseconds, so `minutes = ms / 60000`, and the rate is
    `round(words / minutes)`, or 0 for a clip of no length. Python's `round`
    goes to the nearest integer and breaks a tie towards the even one. The
    model computes with exact rationals, as the fraction `words * 60000 / ms`. */
module Rate {

  /** Milliseconds in a minute: `len(audio) / 1000 / 60`. */
  const MillisPerMinute: nat := 60000

  /** `round(n / d)` for n >= 0 and d > 0, with ties to the even integer. The
      first two postconditions say |r - n/d| <= 1/2, the third that an exact
      tie went to the even neighbour. */
  function RoundHalfEven(n: nat, d: nat): (r: nat)
    requires d > 0
    ensures -(d as int) <= 2 * (r * d - n) <= d
    ensures 2 * (r * d - n) == d || 2 * (r * d - n) == -(d as int) ==> r % 2 == 0
  {
    var q, m := n / d, n % d;
    assert n == q * d + m;
    if 2 * m < d then q
    else if 2 * m > d then q + 1
    else if q % 2 == 0 then q
    else
      assert (q + 1) * d == q * d + d;
      q + 1
  }

  /** The rounding is the nearest integer: no integer k lies closer to n/d. */
  lemma RoundIsNearest(n: nat, d: nat, k: int)
    requires d > 0
    ensures Abs(RoundHalfEven(n, d) * d - n) <= Abs(k * d - n)
  {
    var r := RoundHalfEven(n, d);
    if k > r {
      MulGap(k, r, d);
    } else if k < r {
      MulGap(r, k, d);
    }
  }

  /** The two postconditions of RoundHalfEven pin its result down: any integer
      within 1/2 of n/d that is even on a tie is that result. */
  lemma RoundHalfEvenUnique(n: nat, d: nat, k: int)
    requires d > 0
    requires -(d as int) <= 2 * (k * d - n) <= d
    requires 2 * (k * d - n) == d || 2 * (k * d - n) == -(d as int) ==> k % 2 == 0
    ensures k == RoundHalfEven(n, d)
  {
    var r := RoundHalfEven(n, d);
    MulGap(k, r, d);
    MulGap(r, k, d);
  }

  /** More words over the same duration never round to a smaller integer. */
  lemma RoundHalfEvenMonotone(n1: nat, n2: nat, d: nat)
    requires d > 0 && n1 <= n2
    ensures RoundHalfEven(n1, d) <= RoundHalfEven(n2, d)
  {
    MulGap(RoundHalfEven(n1, d), RoundHalfEven(n2, d), d);
  }

  function Abs(x: int): nat {
    if x < 0 then -x else x
  }

  /** Integers one or more apart, scaled by d, are d or more apart. */
  lemma MulGap(a: int, b: int, d: nat)
    ensures a > b ==> a * d >= b * d + d
    ensures a > b + 1 ==> a * d >= b * d + 2 * d
  {
    var c := a - b;
    assert a * d == b * d + c * d;
    if c >= 1 {
      var e: nat := c - 1;
      assert c * d == e * d + d;
      assert e * d >= 0;
      if c >= 2 {
        assert e * d == (e - 1) * d + d;
        assert (e - 1) * d >= 0;
      }
    }
  }

  /** `round(word_count / total_time_minutes) if total_time_minutes > 0 else 0`
      for a clip of `ms` milliseconds: the zero guard means no division happens
      on an empty clip; otherwise the rate is the integer nearest to
      words / (ms / 60000), a tie going to the even integer. */
  function Wpm(words: nat, ms: nat): (wpm: nat)
    ensures ms == 0 ==> wpm == 0
    ensures ms > 0 ==> -(ms as int) <= 2 * (wpm * ms - words * MillisPerMinute) <= ms
    ensures ms > 0 && Abs(2 * (wpm * ms - words * MillisPerMinute)) == ms ==> wpm % 2 == 0
  {
    if ms > 0 then RoundHalfEven(words * MillisPerMinute, ms) else 0
  }

  /** For a fixed duration, the rate does not decrease as the word count grows. */
  lemma WpmMonotoneInWords(w1: nat, w2: nat, ms: nat)
    requires w1 <= w2
    ensures Wpm(w1, ms) <= Wpm(w2, ms)
  {
    if ms > 0 {
      RoundHalfEvenMonotone(w1 * MillisPerMinute, w2 * MillisPerMinute, ms);
    }
  }

  /** Ten words over five minutes are two words per minute. */
  lemma TenWordsInFiveMinutes()
    ensures Wpm(10, 5 * MillisPerMinute) == 2
  {
    RoundHalfEvenUnique(10 * MillisPerMinute, 5 * MillisPerMinute, 2);
  }
}
