/** Best-effort extraction of a price from free text: the first match of the
    pattern `[\d,]+\.?\d*`, its commas removed, read as a decimal number. */
module PriceText {
  import opened Results
  import Calculators

  predicate IsDigit(c: char)
  {
    '0' <= c <= '9'
  }

  /** A character of the class `[\d,]`. */
  predicate IsRunChar(c: char)
  {
    IsDigit(c) || c == ','
  }

  predicate AllDigits(s: string)
  {
    forall k :: 0 <= k < |s| ==> IsDigit(s[k])
  }

  predicate HasDigit(s: string)
  {
    exists k :: 0 <= k < |s| && IsDigit(s[k])
  }

  /** The length of the longest prefix of `s` in `[\d,]*`. */
  function RunLength(s: string): (n: nat)
    ensures n <= |s|
    ensures forall k :: 0 <= k < n ==> IsRunChar(s[k])
    ensures n < |s| ==> !IsRunChar(s[n])
  {
    if |s| == 0 || !IsRunChar(s[0]) then 0 else 1 + RunLength(s[1..])
  }

  /** The length of the longest prefix of `s` in `\d*`. */
  function DigitLength(s: string): (n: nat)
    ensures n <= |s|
    ensures AllDigits(s[..n])
    ensures n < |s| ==> !IsDigit(s[n])
  {
    if |s| == 0 || !IsDigit(s[0]) then 0 else 1 + DigitLength(s[1..])
  }

  /** Whether all of `t` is matched by `[\d,]+\.?\d*`: a non-empty run of
      digits and commas, then optionally a dot followed by digits. */
  predicate FullMatch(t: string)
  {
    var n := RunLength(t);
    n >= 1 && (n == |t| || (t[n] == '.' && AllDigits(t[n + 1..])))
  }

  /** The greedy match of `[\d,]+\.?\d*` at the start of `s`. */
  function MatchAt(s: string): (t: string)
    requires |s| > 0 && IsRunChar(s[0])
    ensures |t| <= |s| && t == s[..|t|]
    ensures FullMatch(t)
    ensures forall k :: |t| < k <= |s| ==> !FullMatch(s[..k])
  {
    var n := RunLength(s);
    if n < |s| && s[n] == '.' then
      var m := n + 1 + DigitLength(s[n + 1..]);
      MatchAtDot(s, n, m);
      s[..m]
    else
      MatchAtRun(s, n);
      s[..n]
  }

  /** Every prefix of `s` at least `n` long has a run of exactly `n` when `s`'s run is `n` long. */
  lemma PrefixRun(s: string, n: nat, k: nat)
    requires n == RunLength(s) && n <= k <= |s|
    ensures RunLength(s[..k]) == n
    decreases n
  {
    if n > 0 {
      assert s[..k][1..] == s[1..][..k - 1];
      PrefixRun(s[1..], n - 1, k - 1);
    } else if k > 0 {
      assert s[..k][0] == s[0];
    }
  }

  /** The match is the run alone when no dot follows it, and no longer prefix matches. */
  lemma MatchAtRun(s: string, n: nat)
    requires |s| > 0 && IsRunChar(s[0]) && n == RunLength(s)
    requires !(n < |s| && s[n] == '.')
    ensures FullMatch(s[..n])
    ensures forall k :: n < k <= |s| ==> !FullMatch(s[..k])
  {
    PrefixRun(s, n, n);
    forall k | n < k <= |s|
      ensures !FullMatch(s[..k])
    {
      PrefixRun(s, n, k);
      assert s[..k][n] == s[n];
    }
  }

  /** The match runs on through the dot and the digits after it, and no longer prefix matches. */
  lemma MatchAtDot(s: string, n: nat, m: nat)
    requires |s| > 0 && IsRunChar(s[0]) && n == RunLength(s)
    requires n < |s| && s[n] == '.' && m == n + 1 + DigitLength(s[n + 1..])
    ensures m <= |s|
    ensures FullMatch(s[..m])
    ensures forall k :: m < k <= |s| ==> !FullMatch(s[..k])
  {
    var d := DigitLength(s[n + 1..]);
    PrefixRun(s, n, m);
    assert s[..m][n + 1..] == s[n + 1..][..d];
    forall k | m < k <= |s|
      ensures !FullMatch(s[..k])
    {
      PrefixRun(s, n, k);
      assert s[..k][n + 1..][d] == s[n + 1..][d];
    }
  }

  lemma SuffixPrefixes(s: string, i: nat)
    requires i <= |s|
    ensures forall k :: i <= k <= |s| ==> s[i..k] == s[i..][..k - i]
  {
  }

  /** A match found by `re.search`: where it starts and its text. */
  datatype Match = Match(start: nat, text: string)

  /** `re.search(r'[\d,]+\.?\d*', s)`, looking from index `i` on. */
  function SearchFrom(s: string, i: nat): (m: Option<Match>)
    requires i <= |s|
    ensures m.None? <==> forall k :: i <= k < |s| ==> !IsRunChar(s[k])
    ensures m.Some? ==>
      && i <= m.value.start < |s|
      && m.value.start + |m.value.text| <= |s|
      && s[m.value.start..m.value.start + |m.value.text|] == m.value.text
      && (forall k :: i <= k < m.value.start ==> !IsRunChar(s[k]))
      && FullMatch(m.value.text)
      && (forall k :: m.value.start + |m.value.text| < k <= |s| ==> !FullMatch(s[m.value.start..k]))
    decreases |s| - i
  {
    if i == |s| then None
    else if IsRunChar(s[i]) then
      var t := MatchAt(s[i..]);
      SuffixPrefixes(s, i);
      Some(Match(i, t))
    else SearchFrom(s, i + 1)
  }

  /** The leftmost match in `s`: no match can start before it, since every
      match starts with a digit or a comma, and it is the longest match at
      its start. */
  function Search(s: string): (m: Option<Match>)
    ensures m.None? <==> forall k :: 0 <= k < |s| ==> !IsRunChar(s[k])
    ensures m.Some? ==>
      && m.value.start + |m.value.text| <= |s|
      && s[m.value.start..m.value.start + |m.value.text|] == m.value.text
      && (forall k :: 0 <= k < m.value.start ==> !IsRunChar(s[k]))
      && FullMatch(m.value.text)
      && (forall k :: m.value.start + |m.value.text| < k <= |s| ==> !FullMatch(s[m.value.start..k]))
  {
    SearchFrom(s, 0)
  }

  /** `str.replace(',', '')`. */
  function StripCommas(s: string): (r: string)
    ensures forall k :: 0 <= k < |r| ==> r[k] != ','
  {
    if |s| == 0 then ""
    else if s[0] == ',' then StripCommas(s[1..])
    else [s[0]] + StripCommas(s[1..])
  }

  /** Removing the commas keeps every other character, as often as it occurs. */
  lemma {:induction false} StripCommasKeepsOthers(s: string)
    ensures forall c :: c != ',' ==> multiset(StripCommas(s))[c] == multiset(s)[c]
  {
    if |s| > 0 {
      StripCommasKeepsOthers(s[1..]);
      assert s == [s[0]] + s[1..];
    }
  }

  lemma {:induction false} StripCommasAppend(a: string, b: string)
    ensures StripCommas(a + b) == StripCommas(a) + StripCommas(b)
  {
    if |a| == 0 {
      assert a + b == b;
    } else {
      assert (a + b)[0] == a[0];
      assert (a + b)[1..] == a[1..] + b;
      StripCommasAppend(a[1..], b);
    }
  }

  lemma {:induction false} StripCommasOfDigits(s: string)
    requires AllDigits(s)
    ensures StripCommas(s) == s
  {
    if |s| > 0 {
      StripCommasOfDigits(s[1..]);
    }
  }

  /** The value of a string of decimal digits. */
  function DigitsValue(s: string): nat
    requires AllDigits(s)
  {
    if |s| == 0 then 0 else 10 * DigitsValue(s[..|s| - 1]) + (s[|s| - 1] as int - '0' as int)
  }

  lemma {:induction false} DigitsValueZero(s: string)
    requires AllDigits(s)
    ensures DigitsValue(s) == 0 <==> forall k :: 0 <= k < |s| ==> s[k] == '0'
  {
    if |s| > 0 {
      DigitsValueZero(s[..|s| - 1]);
    }
  }

  /** Python's `float()` on a string of the form `\d*(\.\d*)?`: it succeeds
      exactly when there is at least one digit, and gives the exact decimal
      value. Any other form is refused (it cannot come out of `Search`). */
  function ParseDecimal(u: string): (v: Option<real>)
    ensures v.Some? ==> v.value >= 0.0
  {
    var n := DigitLength(u);
    if n == |u| then
      if n == 0 then None else Some(DigitsValue(u) as real)
    else if u[n] == '.' && AllDigits(u[n + 1..]) then
      var frac := u[n + 1..];
      if n == 0 && |frac| == 0 then None
      else
        Calculators.PowAtLeastOne(10.0, |frac|);
        Some(DigitsValue(u[..n]) as real + DigitsValue(frac) as real / Calculators.Pow(10.0, |frac|))
    else None
  }

  /** The price in a piece of text: the first match, commas removed, parsed;
      `None` when there is no match or the match does not parse. */
  function PriceFromText(s: string): (v: Option<real>)
    ensures v.Some? ==> v.value >= 0.0
    ensures v.Some? ==> Search(s).Some?
  {
    match Search(s)
    case None => None
    case Some(m) => ParseDecimal(StripCommas(m.text))
  }

  /** Removing the commas from a run of digits and commas leaves digits, and
      leaves something exactly when the run has a digit. */
  lemma {:induction false} StripRun(s: string)
    requires forall k :: 0 <= k < |s| ==> IsRunChar(s[k])
    ensures AllDigits(StripCommas(s))
    ensures |StripCommas(s)| > 0 <==> HasDigit(s)
  {
    if |s| > 0 {
      StripRun(s[1..]);
      if HasDigit(s[1..]) {
        var k :| 0 <= k < |s[1..]| && IsDigit(s[1..][k]);
        assert IsDigit(s[k + 1]);
      }
      if HasDigit(s) && !IsDigit(s[0]) {
        var k :| 0 <= k < |s| && IsDigit(s[k]);
        assert k > 0 && IsDigit(s[1..][k - 1]);
      }
    }
  }

  /** The digit prefix of a digit string followed by a non-digit is that string. */
  lemma {:induction false} DigitLengthAppend(d: string, rest: string)
    requires AllDigits(d)
    requires |rest| == 0 || !IsDigit(rest[0])
    ensures DigitLength(d + rest) == |d|
  {
    if |d| == 0 {
      assert d + rest == rest;
    } else {
      assert (d + rest)[0] == d[0];
      assert (d + rest)[1..] == d[1..] + rest;
      DigitLengthAppend(d[1..], rest);
    }
  }

  lemma ParseDigits(d: string)
    requires AllDigits(d)
    ensures ParseDecimal(d).Some? <==> |d| > 0
  {
    DigitLengthAppend(d, "");
    assert d + "" == d;
  }

  lemma ParseDigitsDot(d: string, ds: string)
    requires AllDigits(d) && AllDigits(ds)
    ensures ParseDecimal(d + "." + ds).Some? <==> |d| + |ds| > 0
  {
    var u := d + "." + ds;
    assert u == d + ("." + ds);
    DigitLengthAppend(d, "." + ds);
    assert u[|d|] == '.' && u[|d| + 1..] == ds;
  }

  lemma HasDigitSplit(run: string, ds: string)
    requires AllDigits(ds)
    ensures HasDigit(run + "." + ds) <==> HasDigit(run) || |ds| > 0
  {
    var t := run + "." + ds;
    if HasDigit(t) && !HasDigit(run) {
      var k :| 0 <= k < |t| && IsDigit(t[k]);
      assert k > |run|;
      assert IsDigit(ds[k - |run| - 1]);
    }
    if |ds| > 0 {
      assert IsDigit(t[|run| + 1]);
    }
    if HasDigit(run) {
      var k :| 0 <= k < |run| && IsDigit(run[k]);
      assert IsDigit(t[k]);
    }
  }

  lemma MatchParsesRun(t: string)
    requires FullMatch(t) && RunLength(t) == |t|
    ensures ParseDecimal(StripCommas(t)).Some? <==> HasDigit(t)
  {
    assert t[..|t|] == t;
    StripRun(t);
    ParseDigits(StripCommas(t));
  }

  /** A run, a dot and digits lose only the commas of the run. */
  lemma StripCommasDot(run: string, ds: string)
    requires AllDigits(ds)
    ensures StripCommas(run + "." + ds) == StripCommas(run) + "." + ds
  {
    assert run + "." + ds == run + ("." + ds);
    StripCommasAppend(run, "." + ds);
    StripCommasAppend(".", ds);
    StripCommasOfDigits(ds);
    assert StripCommas(".") == ".";
  }

  lemma MatchParsesDot(run: string, ds: string)
    requires forall k :: 0 <= k < |run| ==> IsRunChar(run[k])
    requires AllDigits(ds)
    ensures ParseDecimal(StripCommas(run + "." + ds)).Some? <==> HasDigit(run + "." + ds)
  {
    StripRun(run);
    StripCommasDot(run, ds);
    ParseDigitsDot(StripCommas(run), ds);
    HasDigitSplit(run, ds);
  }

  /** Every match of the pattern parses once its commas are removed, unless it
      holds no digit at all (a run of commas, perhaps with a dot). */
  lemma MatchParses(t: string)
    requires FullMatch(t)
    ensures ParseDecimal(StripCommas(t)).Some? <==> HasDigit(t)
  {
    var n := RunLength(t);
    if n == |t| {
      MatchParsesRun(t);
    } else {
      assert t == t[..n] + "." + t[n + 1..];
      MatchParsesDot(t[..n], t[n + 1..]);
    }
  }

  /** A text yields a price exactly when it has a match and that match holds a digit. */
  lemma PriceFromTextSomeIff(s: string)
    ensures PriceFromText(s).Some? <==> Search(s).Some? && HasDigit(Search(s).value.text)
  {
    if Search(s).Some? {
      MatchParses(Search(s).value.text);
    }
  }
}
