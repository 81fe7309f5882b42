/**
 * Orders over text keys: the ascending order in which Azure Table Storage returns the
 * entities of a partition, and Python's `sorted(..., key=lambda x: x["date"])`.
 */
module Ordering {
  import opened Text

  /** `k` is the least element of `s`. */
  predicate IsLeast(k: Text, s: set<Text>)
  {
    k in s && forall j :: j in s ==> LexLe(k, j)
  }

  lemma {:induction false} LeastExists(s: set<Text>)
    requires s != {}
    ensures exists k :: IsLeast(k, s)
    decreases |s|
  {
    var x :| x in s;
    if s == {x} {
      LexLeReflexive(x);
      assert IsLeast(x, s);
    } else {
      LeastExists(s - {x});
      var m :| IsLeast(m, s - {x});
      LexLeTotal(x, m);
      if LexLe(x, m) {
        LexLeReflexive(x);
        forall j | j in s ensures LexLe(x, j) {
          if j != x { LexLeTransitive(x, m, j); }
        }
        assert IsLeast(x, s);
      } else {
        assert IsLeast(m, s);
      }
    }
  }

  lemma LeastUnique(a: Text, b: Text, s: set<Text>)
    requires IsLeast(a, s) && IsLeast(b, s)
    ensures a == b
  {
    LexLeAntisymmetric(a, b);
  }

  lemma LeastsUnique(s: set<Text>)
    ensures forall a, b :: IsLeast(a, s) && IsLeast(b, s) ==> a == b
  {
    forall a, b | IsLeast(a, s) && IsLeast(b, s) ensures a == b {
      LeastUnique(a, b, s);
    }
  }

  /** Strictly ascending keys, hence without repetition. */
  predicate Ascending(ks: seq<Text>)
  {
    forall i, j :: 0 <= i < j < |ks| ==> LexLt(ks[i], ks[j])
  }

  /** The keys of `s` in ascending order (the canonical listing of a key set). */
  function SortedKeys(s: set<Text>): (ks: seq<Text>)
    ensures Ascending(ks)
    ensures forall k :: k in ks <==> k in s
    ensures |ks| == |s|
    decreases |s|
  {
    if s == {} then []
    else
      LeastExists(s);
      LeastsUnique(s);
      var k :| IsLeast(k, s);
      var rest := SortedKeys(s - {k});
      LeastPrepend(k, s, rest);
      [k] + rest
  }

  /** Putting the least key in front of an ascending listing of the others lists all of them. */
  lemma LeastPrepend(k: Text, s: set<Text>, rest: seq<Text>)
    requires IsLeast(k, s) && Ascending(rest)
    requires forall x :: x in rest <==> x in s - {k}
    ensures Ascending([k] + rest)
    ensures forall x :: x in [k] + rest <==> x in s
  {
    var ks := [k] + rest;
    forall i, j | 0 <= i < j < |ks| ensures LexLt(ks[i], ks[j]) {
      if i > 0 {
        assert ks[i] == rest[i - 1] && ks[j] == rest[j - 1];
      } else {
        assert ks[j] == rest[j - 1] && rest[j - 1] in rest;
      }
    }
  }

  /** Two ascending listings of the same keys are the same listing. */
  lemma {:induction false} AscendingUnique(a: seq<Text>, b: seq<Text>)
    requires Ascending(a) && Ascending(b)
    requires forall k :: k in a <==> k in b
    ensures a == b
  {
    NonEmptyHasElement(a);
    NonEmptyHasElement(b);
    if |a| > 0 {
      var sa := set k | k in a;
      AscendingLeast(a);
      AscendingLeast(b);
      assert IsLeast(a[0], sa);
      assert IsLeast(b[0], sa);
      LeastUnique(a[0], b[0], sa);
      forall k ensures k in a[1..] <==> k in b[1..] {
        AscendingTail(a, k);
        AscendingTail(b, k);
      }
      AscendingUnique(a[1..], b[1..]);
      assert a == [a[0]] + a[1..] && b == [b[0]] + b[1..];
    }
  }

  lemma NonEmptyHasElement<T>(s: seq<T>)
    ensures |s| > 0 <==> exists k :: k in s
  {
    if |s| > 0 {
      assert s[0] in s;
    }
  }

  lemma AscendingLeast(a: seq<Text>)
    requires Ascending(a) && |a| > 0
    ensures IsLeast(a[0], set k | k in a)
  {
    LexLeReflexive(a[0]);
    forall j | j in a ensures LexLe(a[0], j) {
      var i :| 0 <= i < |a| && a[i] == j;
      if i > 0 { assert LexLt(a[0], a[i]); }
    }
  }

  lemma AscendingTail(a: seq<Text>, k: Text)
    requires Ascending(a) && |a| > 0
    ensures k in a[1..] <==> (k in a && k != a[0])
  {
    if k in a[1..] {
      var i :| 1 <= i < |a| && a[i] == k;
      assert LexLt(a[0], a[i]);
    }
    if k in a && k != a[0] {
      var i :| 0 <= i < |a| && a[i] == k;
      assert a[1..][i - 1] == k;
    }
  }

  /** A row of a result list: a date and the value reported for it. */
  datatype Dated<V> = Dated(date: Text, value: V)

  function Dates<V>(rs: seq<Dated<V>>): (ds: seq<Text>)
    ensures |ds| == |rs|
    ensures forall i :: 0 <= i < |rs| ==> ds[i] == rs[i].date
  {
    seq(|rs|, i requires 0 <= i < |rs| => rs[i].date)
  }

  /** Non-decreasing by date, which is what `sorted` with a date key produces. */
  predicate SortedByDate<V>(rs: seq<Dated<V>>)
  {
    forall i, j :: 0 <= i < j < |rs| ==> LexLe(rs[i].date, rs[j].date)
  }

  /** A row no later than every row of a sorted list can go in front of it. */
  lemma SortedCons<V>(x: Dated<V>, rs: seq<Dated<V>>)
    requires SortedByDate(rs)
    requires forall j :: 0 <= j < |rs| ==> LexLe(x.date, rs[j].date)
    ensures SortedByDate([x] + rs)
  {
    var r := [x] + rs;
    forall i, j | 0 <= i < j < |r| ensures LexLe(r[i].date, r[j].date) {
      assert r[j] == rs[j - 1];
      if i > 0 {
        assert r[i] == rs[i - 1];
      }
    }
  }

  /** Inserts `x` after every row whose date is not later, keeping the sort stable. */
  function Insert<V>(x: Dated<V>, rs: seq<Dated<V>>): (r: seq<Dated<V>>)
    ensures multiset(r) == multiset(rs) + multiset{x}
    ensures |r| == |rs| + 1
    ensures forall i :: 0 <= i < |r| ==> r[i] == x || r[i] in rs
  {
    if rs == [] then [x]
    else if !LexLe(rs[0].date, x.date) then [x] + rs
    else
      assert rs == [rs[0]] + rs[1..];
      [rs[0]] + Insert(x, rs[1..])
  }

  lemma {:induction false} InsertSorted<V>(x: Dated<V>, rs: seq<Dated<V>>)
    requires SortedByDate(rs)
    ensures SortedByDate(Insert(x, rs))
    ensures forall i :: 0 <= i < |Insert(x, rs)| ==> Insert(x, rs)[i] == x || Insert(x, rs)[i] in rs
  {
    if rs == [] {
      SortedCons(x, rs);
    } else if LexLe(rs[0].date, x.date) {
      SortedTail(rs);
      InsertSorted(x, rs[1..]);
      var t := Insert(x, rs[1..]);
      forall j | 0 <= j < |t| ensures LexLe(rs[0].date, t[j].date) {
        if t[j] != x {
          var k :| 0 <= k < |rs[1..]| && rs[1..][k] == t[j];
          assert rs[k + 1] == t[j];
        }
      }
      SortedCons(rs[0], t);
    } else {
      LexLeTotal(x.date, rs[0].date);
      forall j | 0 <= j < |rs| ensures LexLe(x.date, rs[j].date) {
        if j > 0 { LexLeTransitive(x.date, rs[0].date, rs[j].date); }
      }
      SortedCons(x, rs);
    }
  }

  lemma SortedTail<V>(rs: seq<Dated<V>>)
    requires SortedByDate(rs) && rs != []
    ensures SortedByDate(rs[1..])
  {
    var t := rs[1..];
    forall i, j | 0 <= i < j < |t| ensures LexLe(t[i].date, t[j].date) {
      assert t[i] == rs[i + 1] && t[j] == rs[j + 1];
    }
  }

  /** Python's stable `sorted(rows, key=date)`, as an insertion sort. */
  function SortByDate<V>(rs: seq<Dated<V>>): (r: seq<Dated<V>>)
    ensures multiset(r) == multiset(rs)
    ensures |r| == |rs|
  {
    if rs == [] then []
    else
      var n := |rs| - 1;
      assert rs == rs[..n] + [rs[n]];
      Insert(rs[n], SortByDate(rs[..n]))
  }

  lemma {:induction false} SortByDateSorted<V>(rs: seq<Dated<V>>)
    ensures SortedByDate(SortByDate(rs))
  {
    if rs != [] {
      var n := |rs| - 1;
      SortByDateSorted(rs[..n]);
      InsertSorted(rs[n], SortByDate(rs[..n]));
    }
  }

  /** Appending a row no earlier than all others is what inserting it does. */
  lemma {:induction false} InsertLast<V>(x: Dated<V>, rs: seq<Dated<V>>)
    requires forall i :: 0 <= i < |rs| ==> LexLe(rs[i].date, x.date)
    ensures Insert(x, rs) == rs + [x]
  {
    if rs != [] {
      InsertLast(x, rs[1..]);
      assert [rs[0]] + (rs[1..] + [x]) == rs + [x];
    }
  }

  /** Sorting rows that are already in date order leaves them as they are. */
  lemma {:induction false} SortByDateOfSorted<V>(rs: seq<Dated<V>>)
    requires SortedByDate(rs)
    ensures SortByDate(rs) == rs
  {
    if rs != [] {
      var n := |rs| - 1;
      SortByDateOfSorted(rs[..n]);
      InsertLast(rs[n], rs[..n]);
      assert rs[..n] + [rs[n]] == rs;
    }
  }

  /** No two rows share a date. */
  predicate DistinctDates<V>(rs: seq<Dated<V>>)
  {
    forall i, j :: 0 <= i < |rs| && 0 <= j < |rs| && i != j ==> rs[i].date != rs[j].date
  }

  /** A row whose date no other row has can go in front without repeating a date. */
  lemma ConsDistinct<V>(x: Dated<V>, rs: seq<Dated<V>>)
    requires DistinctDates(rs)
    requires forall y :: y in rs ==> y.date != x.date
    ensures DistinctDates([x] + rs)
  {
    var r := [x] + rs;
    forall i, j | 0 <= i < |r| && 0 <= j < |r| && i != j ensures r[i].date != r[j].date {
      if i > 0 && j > 0 {
        assert r[i] == rs[i - 1] && r[j] == rs[j - 1];
      } else if i == 0 {
        assert r[j] == rs[j - 1] && rs[j - 1] in rs;
      } else {
        assert r[i] == rs[i - 1] && rs[i - 1] in rs;
      }
    }
  }

  /** The tail keeps distinct dates and holds only rows of the whole, none with the head's date. */
  lemma DistinctTail<V>(rs: seq<Dated<V>>)
    requires DistinctDates(rs) && rs != []
    ensures DistinctDates(rs[1..])
    ensures forall y :: y in rs[1..] ==> y in rs && y.date != rs[0].date
  {
    var t := rs[1..];
    forall i, j | 0 <= i < |t| && 0 <= j < |t| && i != j ensures t[i].date != t[j].date {
      assert t[i] == rs[i + 1] && t[j] == rs[j + 1];
    }
    forall y | y in t ensures y in rs && y.date != rs[0].date {
      var k :| 0 <= k < |t| && t[k] == y;
      assert rs[k + 1] == y;
    }
  }

  lemma {:induction false} InsertDistinct<V>(x: Dated<V>, rs: seq<Dated<V>>)
    requires DistinctDates(rs)
    requires forall y :: y in rs ==> y.date != x.date
    ensures DistinctDates(Insert(x, rs))
  {
    if rs == [] {
      ConsDistinct(x, rs);
    } else if LexLe(rs[0].date, x.date) {
      DistinctTail(rs);
      InsertDistinct(x, rs[1..]);
      var t := Insert(x, rs[1..]);
      forall y | y in t ensures y.date != rs[0].date {
        var i :| 0 <= i < |t| && t[i] == y;
      }
      ConsDistinct(rs[0], t);
    } else {
      ConsDistinct(x, rs);
    }
  }

  /** All rows but the last keep distinct dates, and none has the last row's date. */
  lemma DistinctInit<V>(rs: seq<Dated<V>>)
    requires DistinctDates(rs) && rs != []
    ensures DistinctDates(rs[..|rs| - 1])
    ensures forall y :: y in rs[..|rs| - 1] ==> y.date != rs[|rs| - 1].date
  {
    var n := |rs| - 1;
    var pre := rs[..n];
    forall y | y in pre ensures y.date != rs[n].date {
      var k :| 0 <= k < n && pre[k] == y;
    }
  }

  /** Sorting rows with distinct dates yields strictly ascending dates. */
  lemma {:induction false} SortByDateAscending<V>(rs: seq<Dated<V>>)
    requires DistinctDates(rs)
    ensures Ascending(Dates(SortByDate(rs)))
    ensures DistinctDates(SortByDate(rs))
  {
    if rs != [] {
      var n := |rs| - 1;
      var pre := rs[..n];
      DistinctInit(rs);
      SortByDateAscending(pre);
      var s := SortByDate(pre);
      forall y | y in s ensures y.date != rs[n].date {
        assert y in multiset(s);
      }
      InsertDistinct(rs[n], s);
    }
    SortByDateSorted(rs);
  }
}
