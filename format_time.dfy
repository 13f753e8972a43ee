/**
 * `formatTime(seconds)` (index.js:132-137) for a whole, non-negative number
 * of seconds below 2^53: hours, minutes and seconds, then the text
 * "<h>h <m>m <s>s".
 * No caller in the handler uses it.
 */
module FormatTime {
  import Decimal

  /** The three numbers `formatTime` computes. */
  datatype Clock = Clock(hours: nat, minutes: nat, seconds: nat)

  /** `Math.floor(seconds / 3600)`, `Math.floor((seconds % 3600) / 60)`, `Math.floor(seconds % 60)`. */
  function Decompose(total: nat): (c: Clock)
    ensures c.minutes < 60 && c.seconds < 60
    ensures c.hours == total / 3600
    ensures c.hours * 3600 + c.minutes * 60 + c.seconds == total
  {
    Clock(total / 3600, (total % 3600) / 60, total % 60)
  }

  /** The decomposition is the only one with minutes and seconds below 60. */
  lemma DecomposeUnique(h: nat, m: nat, s: nat)
    requires m < 60 && s < 60
    ensures Decompose(h * 3600 + m * 60 + s) == Clock(h, m, s)
  {
  }

  /** The template `${h}h ${m}m ${s}s`. */
  function FormatTime(total: nat): string {
    ClockText(Decompose(total))
  }

  function ClockText(c: Clock): string {
    Decimal.DecimalText(c.hours) + "h " + Decimal.DecimalText(c.minutes) + "m "
      + Decimal.DecimalText(c.seconds) + "s"
  }

  /** Equal texts that end in the same unit agree before it. */
  lemma DropUnit(a1: string, a2: string, unit: string)
    requires a1 + unit == a2 + unit
    ensures a1 == a2
  {
    assert a1 == (a1 + unit)[..|a1|] && a2 == (a2 + unit)[..|a2|];
  }

  /** The text names its hours, minutes and seconds unambiguously. */
  lemma {:induction false} ClockTextInjective(c1: Clock, c2: Clock)
    requires ClockText(c1) == ClockText(c2)
    ensures c1 == c2
  {
    var h1, m1, s1 := Decimal.DecimalText(c1.hours), Decimal.DecimalText(c1.minutes), Decimal.DecimalText(c1.seconds);
    var h2, m2, s2 := Decimal.DecimalText(c2.hours), Decimal.DecimalText(c2.minutes), Decimal.DecimalText(c2.seconds);
    DropUnit(h1 + "h " + m1 + "m " + s1, h2 + "h " + m2 + "m " + s2, "s");
    Decimal.DigitSuffixUnique(h1 + "h " + m1 + "m ", s1, h2 + "h " + m2 + "m ", s2);
    DropUnit(h1 + "h " + m1, h2 + "h " + m2, "m ");
    Decimal.DigitSuffixUnique(h1 + "h ", m1, h2 + "h ", m2);
    DropUnit(h1, h2, "h ");
    Decimal.DecimalTextInjective(c1.hours, c2.hours);
    Decimal.DecimalTextInjective(c1.minutes, c2.minutes);
    Decimal.DecimalTextInjective(c1.seconds, c2.seconds);
  }

  /** Different inputs give different texts: the text determines the number of seconds. */
  lemma FormatTimeInjective(t1: nat, t2: nat)
    requires FormatTime(t1) == FormatTime(t2)
    ensures t1 == t2
  {
    ClockTextInjective(Decompose(t1), Decompose(t2));
  }
}
