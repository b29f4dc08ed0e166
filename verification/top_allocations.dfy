/** The history table's "Top Allocations" cell: the portfolio's entries with a
    positive weight, largest first, at most three of them, shown as
    `name (value%)` and joined with ", ".

    The portfolio object is a sequence of entries in key order
    (`Object.entries`); the sort is JavaScript's stable `Array.prototype.sort`
    with the comparator `b - a`, modelled as a stable insertion sort. */
module TopAllocations {

  datatype Entry = Entry(name: string, value: real)

  /** How many entries the cell shows. */
  const TopCount: nat := 3

  function Min(a: nat, b: nat): nat
  {
    if a <= b then a else b
  }

  /** `.filter(([_, value]) => value > 0)`: keeps exactly the positive entries,
      each as often as it occurs, in their original order. */
  function Positive(entries: seq<Entry>): (r: seq<Entry>)
    ensures forall i :: 0 <= i < |r| ==> r[i].value > 0.0
  {
    if entries == [] then []
    else if entries[0].value > 0.0 then [entries[0]] + Positive(entries[1..])
    else Positive(entries[1..])
  }

  /** The filter keeps every positive entry as often as it occurs and drops
      every other entry. */
  lemma {:induction false} PositiveIsFilter(entries: seq<Entry>)
    ensures forall e :: multiset(Positive(entries))[e] == (if e.value > 0.0 then multiset(entries)[e] else 0)
  {
    if entries != [] {
      PositiveIsFilter(entries[1..]);
      assert entries == [entries[0]] + entries[1..];
    }
  }

  predicate Descending(s: seq<Entry>)
  {
    forall i, j :: 0 <= i < j < |s| ==> s[i].value >= s[j].value
  }

  /** Places `e` before the first entry whose value does not exceed its own,
      so that it stays ahead of entries it ties with. */
  function Insert(e: Entry, xs: seq<Entry>): (r: seq<Entry>)
    ensures |r| == |xs| + 1
  {
    if xs == [] || xs[0].value <= e.value then [e] + xs
    else [xs[0]] + Insert(e, xs[1..])
  }

  lemma {:induction false} InsertIsPermutation(e: Entry, xs: seq<Entry>)
    ensures multiset(Insert(e, xs)) == multiset(xs) + multiset{e}
  {
    if xs != [] && xs[0].value > e.value {
      InsertIsPermutation(e, xs[1..]);
      assert xs == [xs[0]] + xs[1..];
    }
  }

  /** `.sort(([, a], [, b]) => b - a)`: a stable sort into non-increasing value order. */
  function SortDescending(s: seq<Entry>): (r: seq<Entry>)
    ensures |r| == |s|
  {
    if s == [] then []
    else Insert(s[0], SortDescending(s[1..]))
  }

  /** The sort neither loses nor adds entries. */
  lemma {:induction false} SortIsPermutation(s: seq<Entry>)
    ensures multiset(SortDescending(s)) == multiset(s)
  {
    if s != [] {
      SortIsPermutation(s[1..]);
      InsertIsPermutation(s[0], SortDescending(s[1..]));
      assert s == [s[0]] + s[1..];
    }
  }

  /** Inserting an entry no larger than `b` among entries no larger than `b`
      keeps every entry no larger than `b`. */
  lemma {:induction false} InsertBoundedBy(e: Entry, xs: seq<Entry>, b: real)
    requires e.value <= b
    requires forall k :: 0 <= k < |xs| ==> xs[k].value <= b
    ensures forall k :: 0 <= k < |Insert(e, xs)| ==> Insert(e, xs)[k].value <= b
  {
    if xs != [] && xs[0].value > e.value {
      InsertBoundedBy(e, xs[1..], b);
      assert Insert(e, xs) == [xs[0]] + Insert(e, xs[1..]);
    }
  }

  lemma {:induction false} InsertKeepsDescending(e: Entry, xs: seq<Entry>)
    requires Descending(xs)
    ensures Descending(Insert(e, xs))
  {
    if xs == [] || xs[0].value <= e.value {
    } else {
      var rest := Insert(e, xs[1..]);
      InsertKeepsDescending(e, xs[1..]);
      InsertBoundedBy(e, xs[1..], xs[0].value);
      var r := Insert(e, xs);
      assert r == [xs[0]] + rest;
      forall i, j | 0 <= i < j < |r|
        ensures r[i].value >= r[j].value
      {
        if i == 0 {
          assert r[j] == rest[j - 1];
        } else {
          assert r[i] == rest[i - 1] && r[j] == rest[j - 1];
        }
      }
    }
  }

  lemma {:induction false} SortIsDescending(s: seq<Entry>)
    ensures Descending(SortDescending(s))
  {
    if s != [] {
      SortIsDescending(s[1..]);
      InsertKeepsDescending(s[0], SortDescending(s[1..]));
    }
  }

  /** The entries of `s` whose value is exactly `v`, in order. */
  function WithValue(s: seq<Entry>, v: real): seq<Entry>
  {
    if s == [] then []
    else (if s[0].value == v then [s[0]] else []) + WithValue(s[1..], v)
  }

  lemma {:induction false} InsertWithValue(e: Entry, xs: seq<Entry>, v: real)
    ensures WithValue(Insert(e, xs), v) ==
            if e.value == v then [e] + WithValue(xs, v) else WithValue(xs, v)
  {
    var r := Insert(e, xs);
    if xs == [] || xs[0].value <= e.value {
      assert r[0] == e && r[1..] == xs;
    } else {
      InsertWithValue(e, xs[1..], v);
      assert r[0] == xs[0] && r[1..] == Insert(e, xs[1..]);
      if e.value == v {
        assert xs[0].value != v;
      }
    }
  }

  /** Stability: for every value, the entries carrying it appear in the sorted
      sequence in the order they had in the input. */
  lemma {:induction false} SortIsStable(s: seq<Entry>, v: real)
    ensures WithValue(SortDescending(s), v) == WithValue(s, v)
  {
    if s != [] {
      SortIsStable(s[1..], v);
      InsertWithValue(s[0], SortDescending(s[1..]), v);
    }
  }

  /** The filter keeps, for every positive value, the entries carrying it
      in their portfolio order. */
  lemma {:induction false} PositiveKeepsOrder(entries: seq<Entry>, v: real)
    requires v > 0.0
    ensures WithValue(Positive(entries), v) == WithValue(entries, v)
  {
    if entries != [] {
      PositiveKeepsOrder(entries[1..], v);
      if entries[0].value > 0.0 {
        var rest := Positive(entries[1..]);
        assert ([entries[0]] + rest)[0] == entries[0];
        assert ([entries[0]] + rest)[1..] == rest;
      }
    }
  }

  /** Positive entries of equal value reach the sorted cell list in the
      order they have in the portfolio. */
  lemma SortedPositivesKeepPortfolioOrder(entries: seq<Entry>, v: real)
    requires v > 0.0
    ensures WithValue(SortDescending(Positive(entries)), v) == WithValue(entries, v)
  {
    SortIsStable(Positive(entries), v);
    PositiveKeepsOrder(entries, v);
  }

  /** `.slice(0, 3)` of the sorted positive entries. */
  function TopEntries(entries: seq<Entry>): seq<Entry>
  {
    var sorted := SortDescending(Positive(entries));
    sorted[..Min(TopCount, |sorted|)]
  }

  /** A prefix of a descending sequence is descending, is drawn from it, and
      nothing after the prefix exceeds anything in it. */
  lemma PrefixOfDescending(s: seq<Entry>, k: nat)
    requires Descending(s) && k <= |s|
    ensures Descending(s[..k])
    ensures multiset(s[..k]) + multiset(s[k..]) == multiset(s)
    ensures forall i, j :: 0 <= i < k <= j < |s| ==> s[j].value <= s[i].value
  {
    assert s == s[..k] + s[k..];
  }

  /** A prefix of the sorted sequence is descending and drawn from the input. */
  lemma SortedPrefix(p: seq<Entry>, k: nat)
    requires k <= |p|
    ensures Descending(SortDescending(p)[..k])
    ensures multiset(SortDescending(p)[..k]) <= multiset(p)
    ensures forall x :: x in SortDescending(p)[..k] ==> x in p
  {
    var sorted := SortDescending(p);
    SortIsDescending(p);
    SortIsPermutation(p);
    PrefixOfDescending(sorted, k);
    forall x | x in sorted[..k]
      ensures x in p
    {
      assert x in multiset(sorted[..k]);
      assert x in multiset(p);
    }
  }

  /** The cell lists as many positive weights as there are, up to three, all
      positive, largest first, and all drawn from the portfolio. */
  lemma TopEntriesShape(entries: seq<Entry>)
    ensures var r := TopEntries(entries);
      |r| == Min(TopCount, |Positive(entries)|) &&
      (forall i :: 0 <= i < |r| ==> r[i].value > 0.0) &&
      Descending(r) &&
      multiset(r) <= multiset(Positive(entries))
  {
    var p := Positive(entries);
    var k := Min(TopCount, |p|);
    SortedPrefix(p, k);
    var r := SortDescending(p)[..k];
    assert TopEntries(entries) == r;
    forall i | 0 <= i < |r|
      ensures r[i].value > 0.0
    {
      assert r[i] in r;
      var m :| 0 <= m < |p| && p[m] == r[i];
    }
  }

  /** Nothing left out of a prefix of a descending sequence exceeds anything in the prefix. */
  lemma LeftOutOfPrefix(s: seq<Entry>, k: nat)
    requires Descending(s) && k <= |s|
    ensures forall e, x :: e in multiset(s) - multiset(s[..k]) && x in s[..k] ==> e.value <= x.value
  {
    PrefixOfDescending(s, k);
    forall e: Entry, x: Entry | e in multiset(s) - multiset(s[..k]) && x in s[..k]
      ensures e.value <= x.value
    {
      assert e in multiset(s[k..]);
      assert e in s[k..];
      var j :| 0 <= j < |s[k..]| && s[k..][j] == e;
      var i :| 0 <= i < k && s[..k][i] == x;
      assert s[i] == x && s[k + j] == e;
    }
  }

  /** Nothing of `p` left out of a prefix of its sorted order exceeds anything in the prefix. */
  lemma LeftOutOfSortedPrefix(p: seq<Entry>, k: nat)
    requires k <= |p|
    ensures forall e, x :: e in multiset(p) - multiset(SortDescending(p)[..k]) && x in SortDescending(p)[..k]
                           ==> e.value <= x.value
  {
    SortIsDescending(p);
    SortIsPermutation(p);
    LeftOutOfPrefix(SortDescending(p), k);
  }

  /** No positive weight left out of the cell is larger than any weight shown. */
  lemma TopEntriesAreTheLargest(entries: seq<Entry>)
    ensures var r := TopEntries(entries);
      forall e, x :: e in multiset(Positive(entries)) - multiset(r) && x in r ==> e.value <= x.value
  {
    LeftOutOfSortedPrefix(Positive(entries), Min(TopCount, |Positive(entries)|));
  }

  /** The first entry shown is the largest positive weight of the portfolio. */
  lemma FirstIsLargest(entries: seq<Entry>)
    requires Positive(entries) != []
    ensures var r := TopEntries(entries);
      r != [] && forall e :: e in Positive(entries) ==> e.value <= r[0].value
  {
    var p := Positive(entries);
    var sorted := SortDescending(p);
    SortIsDescending(p);
    SortIsPermutation(p);
    forall e | e in p
      ensures e.value <= sorted[0].value
    {
      assert e in multiset(sorted);
      var j :| 0 <= j < |sorted| && sorted[j] == e;
    }
  }

  /** One label, `${name} (${value}%)`; `show` is JavaScript's number-to-text conversion. */
  function Label(e: Entry, show: real -> string): string
  {
    e.name + " (" + show(e.value) + "%)"
  }

  /** `Array.prototype.join`. */
  function Join(parts: seq<string>, sep: string): string
  {
    if parts == [] then ""
    else if |parts| == 1 then parts[0]
    else parts[0] + sep + Join(parts[1..], sep)
  }

  lemma JoinStartsWithFirst(parts: seq<string>, sep: string)
    requires parts != []
    ensures parts[0] <= Join(parts, sep)
  {
    if |parts| > 1 {
      assert Join(parts, sep) == parts[0] + (sep + Join(parts[1..], sep));
    }
  }

  function Labels(top: seq<Entry>, show: real -> string): (ls: seq<string>)
    ensures |ls| == |top|
    ensures forall i :: 0 <= i < |top| ==> ls[i] == Label(top[i], show)
  {
    seq(|top|, i requires 0 <= i < |top| => Label(top[i], show))
  }

  /** `getTopAllocations(portfolio)`: the cell is empty exactly when no weight
      is positive, and otherwise opens with the largest weight's label. */
  function Describe(entries: seq<Entry>, show: real -> string): (r: string)
    ensures r == "" <==> Positive(entries) == []
    ensures Positive(entries) != [] ==> Label(TopEntries(entries)[0], show) <= r
  {
    var top := TopEntries(entries);
    var ls := Labels(top, show);
    if ls == [] then
      assert Positive(entries) == [] by { assert |SortDescending(Positive(entries))| == 0; }
      Join(ls, ", ")
    else
      JoinStartsWithFirst(ls, ", ");
      assert |ls[0]| >= 2 by { assert ls[0] == top[0].name + " (" + show(top[0].value) + "%)"; }
      Join(ls, ", ")
  }

  lemma FilterFiveExample(f: Entry, b: Entry, s: Entry, g: Entry, v: Entry)
    requires f.value > 0.0 && b.value == 0.0 && s.value > 0.0 && g.value > 0.0 && v.value > 0.0
    ensures Positive([f, b, s, g, v]) == [f, s, g, v]
  {
    assert Positive([v]) == [v];
    assert Positive([g, v]) == [g, v];
    assert Positive([s, g, v]) == [s, g, v];
    assert Positive([b, s, g, v]) == [s, g, v];
    assert [f, b, s, g, v][1..] == [b, s, g, v];
  }

  lemma SortFourExample(f: Entry, s: Entry, g: Entry, v: Entry)
    requires s.value > f.value > g.value > v.value
    ensures SortDescending([f, s, g, v]) == [s, f, g, v]
  {
    assert SortDescending([s, g, v]) == [s, g, v] by {
      assert SortDescending([v]) == [v];
      assert SortDescending([g, v]) == [g, v];
    }
    assert Insert(f, [s, g, v]) == [s, f, g, v] by {
      assert [s, g, v][1..] == [g, v];
      assert Insert(f, [g, v]) == [f, g, v];
    }
    assert [f, s, g, v][1..] == [s, g, v];
  }

  /** A portfolio with FD, Bank, SIP, Gold and Silver weights 25, 0, 40, 15
      and 5: SIP, FD and Gold are shown, and Silver and the zero Bank weight
      are not. */
  lemma MediumPortfolioExample(fd: string, bank: string, sip: string, gold: string, silver: string)
    ensures TopEntries([Entry(fd, 25.0), Entry(bank, 0.0), Entry(sip, 40.0),
                        Entry(gold, 15.0), Entry(silver, 5.0)])
         == [Entry(sip, 40.0), Entry(fd, 25.0), Entry(gold, 15.0)]
  {
    var f, b, s, g, v :=
      Entry(fd, 25.0), Entry(bank, 0.0), Entry(sip, 40.0), Entry(gold, 15.0), Entry(silver, 5.0);
    FilterFiveExample(f, b, s, g, v);
    SortFourExample(f, s, g, v);
    assert [s, f, g, v][..3] == [s, f, g];
  }

  /** Equal weights keep their portfolio order. */
  lemma TieExample(gold: string, silver: string)
    ensures TopEntries([Entry(gold, 15.0), Entry(silver, 15.0)])
         == [Entry(gold, 15.0), Entry(silver, 15.0)]
  {
    var g, v := Entry(gold, 15.0), Entry(silver, 15.0);
    assert Positive([g, v]) == [g, v] by {
      assert [g, v][1..] == [v];
      assert Positive([v]) == [v];
    }
    assert SortDescending([g, v]) == [g, v] by {
      assert [g, v][1..] == [v];
      assert SortDescending([v]) == [v];
    }
    assert [g, v][..2] == [g, v];
  }
}
