/**
 * The parsers and renderers the Python services call, taken as parameters: the model does
 * not reimplement `strptime`, `strftime`, `fromisoformat`, `float` or `str`. An instant is
 * a whole number of seconds on the naive local clock the services use.
 */
module Formats {
  import opened Wrappers
  import opened Text

  datatype Formats = Formats(
    /** `datetime.strptime(s, '%Y-%m-%d %H:%M:%S')`, None where it raises ValueError. */
    parseTimestamp: Text -> Option<int>,
    /** `t.strftime('%Y-%m-%d %H:%M:%S')`. */
    formatTimestamp: int -> Text,
    /** `datetime.fromisoformat(s)`, None where it raises ValueError. */
    parseIso: Text -> Option<int>,
    /** `float(s)`, None where it raises ValueError. */
    parseNumber: Text -> Option<real>,
    /** `str(x)` of a float, which `f"{x}"` uses. */
    formatNumber: real -> Text)

  /** The number `n / 100`: every value `round(x, 2)` can return is one of these. */
  function Hundredths(n: int): real
  {
    n as real / 100.0
  }

  /**
   * What the CSV framing relies on: a rendered timestamp parses back to itself, a rendered
   * number with two decimals parses back to itself (Python's `repr` of a float round-trips),
   * and neither contains a comma (`%Y-%m-%d %H:%M:%S` renders digits, dashes, colons and one
   * space; a float renders digits, a sign, a point and an exponent).
   */
  ghost predicate RoundTrips(f: Formats)
  {
    && (forall t :: f.parseTimestamp(f.formatTimestamp(t)) == Some(t))
    && (forall n :: f.parseNumber(f.formatNumber(Hundredths(n))) == Some(Hundredths(n)))
    && (forall t :: ',' !in f.formatTimestamp(t))
    && (forall x :: ',' !in f.formatNumber(x))
  }

  /** The integer a text of a sign and tally marks stands for. */
  function TallyValue(s: Text): int
  {
    if |s| == 0 then 0 else if s[0] == '+' then |s| - 1 else -(|s| - 1)
  }

  /** An integer as a sign followed by that many tally marks; it reads back as itself. */
  function Tally(n: int): (s: Text)
    ensures TallyValue(s) == n && ',' !in s
  {
    (if n >= 0 then "+" else "-") + seq(if n >= 0 then n else -n, _ => '1')
  }

  /** A renderer and parser pair, on tallies, that has every property `RoundTrips` asks for. */
  const TallyFormats: Formats := Formats(
    s => Some(TallyValue(s)),
    t => Tally(t),
    s => None,
    s => Some(Hundredths(TallyValue(s))),
    x => Tally((x * 100.0).Floor))

  /** `RoundTrips` is a requirement some formats meet. */
  lemma TallyFormatsRoundTrip()
    ensures RoundTrips(TallyFormats)
  {
    forall n: int ensures TallyFormats.parseNumber(TallyFormats.formatNumber(Hundredths(n))) == Some(Hundredths(n)) {
      assert Hundredths(n) * 100.0 == n as real;
    }
  }
}
