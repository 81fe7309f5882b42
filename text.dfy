/**
 * Text as the model sees it: Python and TypeScript strings are sequences of characters.
 * Row keys and dates are compared as text, which is what Azure Table Storage does with
 * `RowKey ge '...'` and `RowKey le '...'`; for the fixed-width forms `YYYY-MM-DD` and
 * `YYYY-MM-DD HH:MM:SS` that order is the chronological one.
 */
module Text {

  type Text = seq<char>

  /** Lexicographic order on text (a proper prefix comes first). */
  predicate LexLe(a: Text, b: Text)
  {
    |a| == 0 || (|b| > 0 && (a[0] < b[0] || (a[0] == b[0] && LexLe(a[1..], b[1..]))))
  }

  predicate LexLt(a: Text, b: Text)
  {
    LexLe(a, b) && a != b
  }

  lemma {:induction false} LexLeReflexive(a: Text)
    ensures LexLe(a, a)
  {
    if |a| > 0 {
      LexLeReflexive(a[1..]);
    }
  }

  lemma {:induction false} LexLeAntisymmetric(a: Text, b: Text)
    requires LexLe(a, b) && LexLe(b, a)
    ensures a == b
  {
    if |a| > 0 {
      assert a[0] == b[0];
      LexLeAntisymmetric(a[1..], b[1..]);
      assert a == [a[0]] + a[1..] && b == [b[0]] + b[1..];
    }
  }

  lemma {:induction false} LexLeTransitive(a: Text, b: Text, c: Text)
    requires LexLe(a, b) && LexLe(b, c)
    ensures LexLe(a, c)
  {
    if |a| > 0 && a[0] == b[0] && b[0] == c[0] {
      LexLeTransitive(a[1..], b[1..], c[1..]);
    }
  }

  lemma {:induction false} LexLeTotal(a: Text, b: Text)
    ensures LexLe(a, b) || LexLe(b, a)
  {
    if |a| > 0 && |b| > 0 && a[0] == b[0] {
      LexLeTotal(a[1..], b[1..]);
    }
  }

  /** A proper prefix followed by anything is strictly below the longer text. */
  lemma {:induction false} PrefixBelow(a: Text, rest: Text)
    ensures LexLe(a, a + rest)
    ensures rest != [] ==> !LexLe(a + rest, a)
  {
    if |a| > 0 {
      assert (a + rest)[1..] == a[1..] + rest;
      PrefixBelow(a[1..], rest);
    }
  }

  /** Texts that agree up to a first differing character are ordered by that character. */
  lemma {:induction false} LexLtAtDifference(c: Text, x: char, y: char, r: Text, s: Text)
    requires x < y
    ensures LexLt(c + [x] + r, c + [y] + s)
    ensures !LexLe(c + [y] + s, c + [x] + r)
  {
    if |c| > 0 {
      assert (c + [x] + r)[1..] == c[1..] + [x] + r;
      assert (c + [y] + s)[1..] == c[1..] + [y] + s;
      LexLtAtDifference(c[1..], x, y, r, s);
    } else {
      assert (c + [x] + r)[0] == x && (c + [y] + s)[0] == y;
    }
  }

  /**
   * Python's `s.split(sep)` with an explicit separator: the pieces between separators,
   * one more piece than there are separators, empty pieces kept.
   */
  function Split(s: Text, sep: char): (parts: seq<Text>)
    ensures |parts| >= 1
    ensures forall i :: 0 <= i < |parts| ==> sep !in parts[i]
  {
    if |s| == 0 then [[]]
    else
      var rest := Split(s[1..], sep);
      if s[0] == sep then [[]] + rest
      else [[s[0]] + rest[0]] + rest[1..]
  }

  /** How often `c` occurs in `s`. */
  function Count(s: Text, c: char): nat
  {
    if |s| == 0 then 0 else (if s[0] == c then 1 else 0) + Count(s[1..], c)
  }

  lemma {:induction false} SplitLength(s: Text, sep: char)
    ensures |Split(s, sep)| == Count(s, sep) + 1
  {
    if |s| > 0 {
      SplitLength(s[1..], sep);
    }
  }

  /** A text without the separator is a single piece. */
  lemma {:induction false} SplitNoSeparator(s: Text, sep: char)
    requires sep !in s
    ensures Split(s, sep) == [s]
  {
    if |s| > 0 {
      assert sep !in s[1..];
      SplitNoSeparator(s[1..], sep);
      assert [s[0]] + s[1..] == s;
    }
  }

  /** Splitting `a + sep + b` gives `a` and then the pieces of `b`, when `a` has no separator. */
  lemma {:induction false} SplitJoin(a: Text, sep: char, b: Text)
    requires sep !in a
    ensures Split(a + [sep] + b, sep) == [a] + Split(b, sep)
  {
    if |a| == 0 {
      assert a + [sep] + b == [sep] + b;
      assert ([sep] + b)[1..] == b;
    } else {
      assert (a + [sep] + b)[1..] == a[1..] + [sep] + b;
      assert sep !in a[1..];
      SplitJoin(a[1..], sep, b);
      assert [a[0]] + a[1..] == a;
    }
  }

  /** The text before the first space: `key.split(" ")[0]` and, for well-formed keys, the date of a timestamp. */
  function DatePart(key: Text): (d: Text)
    ensures ' ' !in d
  {
    Split(key, ' ')[0]
  }

  /** The date part is a prefix of the key, and the whole key when it holds no space. */
  lemma {:induction false} DatePartPrefix(key: Text)
    ensures |DatePart(key)| <= |key| && DatePart(key) == key[..|DatePart(key)|]
    ensures ' ' !in key ==> DatePart(key) == key
  {
    if |key| > 0 {
      DatePartPrefix(key[1..]);
    }
  }

  /** A key with a time part below `bound` has its date part strictly below `bound`. */
  lemma DatePartBelow(key: Text, bound: Text)
    requires ' ' in key
    requires LexLe(key, bound)
    ensures LexLt(DatePart(key), bound)
  {
    var d := DatePart(key);
    DatePartPrefix(key);
    var rest := key[|d|..];
    assert key == d + rest;
    assert rest != [];
    PrefixBelow(d, rest);
    LexLeTransitive(d, key, bound);
  }

  lemma DatePartOfTimestamp(date: Text, time: Text)
    requires ' ' !in date
    ensures DatePart(date + " " + time) == date
  {
    SplitJoin(date, ' ', time);
  }

  /** Python's `s.replace(c, r)`: every occurrence of `c` replaced by `r`. */
  function Replace(s: Text, c: char, r: Text): (t: Text)
    ensures c !in r ==> c !in t
  {
    if |s| == 0 then [] else (if s[0] == c then r else [s[0]]) + Replace(s[1..], c, r)
  }

  lemma {:induction false} ReplaceAbsent(s: Text, c: char, r: Text)
    requires c !in s
    ensures Replace(s, c, r) == s
  {
    if |s| > 0 {
      assert c !in s[1..];
      ReplaceAbsent(s[1..], c, r);
      assert [s[0]] + s[1..] == s;
    }
  }

  /** Decimal rendering of a natural number, as `${n}` prints it. */
  function NatText(n: nat): (t: Text)
    ensures |t| >= 1
    ensures forall i :: 0 <= i < |t| ==> '0' <= t[i] <= '9'
  {
    if n < 10 then [DigitChar(n)] else NatText(n / 10) + [DigitChar(n % 10)]
  }

  function DigitChar(d: nat): (c: char)
    requires d < 10
    ensures '0' <= c <= '9'
  {
    ['0', '1', '2', '3', '4', '5', '6', '7', '8', '9'][d]
  }

  /** Decimal rendering of an integer, with a leading minus sign when negative. */
  function IntText(n: int): Text
  {
    if n < 0 then "-" + NatText(-n) else NatText(n)
  }
}
