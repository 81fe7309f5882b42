/**
 * The countdown both front-end pages show next to a cutting date: a whole number of days
 * until the cutting date, classified as today, in the future, or past. A JavaScript `Date`
 * is a count of milliseconds on a clock without offset or daylight saving; a date text
 * that does not parse is the invalid date, whose arithmetic gives NaN.
 *
 * `calculateDaysToCutting` returns one of four messages. The model returns which one, as
 * an `Outcome`, and `Message` renders it; `MessagesDistinct` shows that the rendering tells
 * the four kinds apart, so nothing is lost by reasoning about outcomes.
 */
module Countdown {
  import opened Wrappers
  import opened Text
  import opened Stats

  const MillisPerDay: int := 86400000

  /** The four kinds of message: no cutting date, today, in `days` days, or passed. */
  datatype Outcome = Relax | Today | InDays(days: nat) | Passed

  const RelaxMessage: Text := "Relax, take it easy"
  const TodayMessage: Text := "Today is your ideal cutting day 🚜"
  const PassedMessage: Text := "The cutting period has passed ⏳"

  /** `Your Optimal Cutting Period is in ${difference} days`. */
  function InDaysMessage(n: nat): Text
  {
    "Your Optimal Cutting Period is in " + NatText(n) + " days"
  }

  /** The text the page returns for an outcome; only a missing cutting date reads "Relax". */
  function Message(o: Outcome): (m: Text)
    ensures m == RelaxMessage <==> o == Relax
  {
    assert RelaxMessage[0] == 'R' && TodayMessage[0] == 'T' && PassedMessage[0] == 'T';
    assert o.InDays? ==> InDaysMessage(o.days)[0] == 'Y';
    match o
    case Relax => RelaxMessage
    case Today => TodayMessage
    case InDays(n) => InDaysMessage(n)
    case Passed => PassedMessage
  }

  /** Different kinds of outcome are shown as different messages. */
  lemma MessagesDistinct(a: Outcome, b: Outcome)
    requires !(a.InDays? && b.InDays?)
    ensures Message(a) == Message(b) <==> a == b
  {
    assert TodayMessage[1] == 'o' && PassedMessage[1] == 'h' && RelaxMessage[0] == 'R' && TodayMessage[0] == 'T';
    if a.InDays? {
      assert Message(a)[0] == 'Y';
    }
    if b.InDays? {
      assert Message(b)[0] == 'Y';
    }
  }

  /**
   * The `if (difference === 0) ... else if (difference > 0) ... else ...` chain; NaN (None)
   * is neither equal to 0 nor positive, so it reads as passed. It never gives the relaxed
   * message, which only the missing cutting date gives.
   */
  function DifferenceOutcome(difference: Option<int>): (o: Outcome)
    ensures o != Relax
    ensures o == Today <==> difference == Some(0)
    ensures o == Passed <==> difference.None? || difference.value < 0
    ensures o.InDays? <==> difference.Some? && difference.value > 0
    ensures o.InDays? ==> o.days == difference.value
  {
    match difference
    case None => Passed
    case Some(d) => if d == 0 then Today else if d > 0 then InDays(d) else Passed
  }

  /**
   * `Math.ceil(ms / (1000 * 3600 * 24))`: the whole days of a millisecond gap, rounded up,
   * computed as the negated floor of the negated quotient (Dafny's `/` rounds down for a
   * positive divisor).
   */
  function CeilDays(ms: int): (d: int)
    ensures (d - 1) * MillisPerDay < ms <= d * MillisPerDay
  {
    -((-ms) / MillisPerDay)
  }

  /** A gap of whole days is that many days. */
  lemma CeilDaysOfWholeDays(n: int)
    ensures CeilDays(n * MillisPerDay) == n
  {
    var d := CeilDays(n * MillisPerDay);
    assert (d - 1) * MillisPerDay < n * MillisPerDay <= d * MillisPerDay;
  }
}
