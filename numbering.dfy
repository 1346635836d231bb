/** Document numbering: `PREFIX-YYYYMM-NNNN`, where NNNN is one more than the
    largest numeric suffix already issued under the same prefix and period. */
module Numbering {
  import opened Common

  // ---------------------------------------------------------------------
  // Decimal text: Python's str(n), str.zfill and int(s)

  predicate IsDigit(c: char)
  {
    '0' <= c <= '9'
  }

  predicate AllDigits(s: string)
  {
    forall i :: 0 <= i < |s| ==> IsDigit(s[i])
  }

  function DigitChar(d: int): (c: char)
    requires 0 <= d < 10
    ensures IsDigit(c)
  {
    ('0' as int + d) as char
  }

  /** The decimal digits of n, most significant first. */
  function Digits(n: nat): (s: string)
    ensures |s| > 0 && AllDigits(s)
  {
    if n < 10 then [DigitChar(n)] else Digits(n / 10) + [DigitChar(n % 10)]
  }

  /** The number a string of decimal digits denotes. */
  function ValueOf(s: string): nat
    requires AllDigits(s)
  {
    if s == [] then 0 else ValueOf(s[..|s| - 1]) * 10 + (s[|s| - 1] as int - '0' as int)
  }

  lemma {:induction false} DigitsRoundTrip(n: nat)
    ensures ValueOf(Digits(n)) == n
  {
    if n >= 10 {
      DigitsRoundTrip(n / 10);
      var s := Digits(n);
      assert s[..|s| - 1] == Digits(n / 10);
    }
  }

  function Zeros(k: nat): (s: string)
    ensures |s| == k && AllDigits(s)
  {
    seq(k, i => '0')
  }

  /** Leading zeros do not change the value of a digit string. */
  lemma {:induction false} LeadingZerosValue(k: nat, ds: string)
    requires AllDigits(ds)
    ensures AllDigits(Zeros(k) + ds)
    ensures ValueOf(Zeros(k) + ds) == ValueOf(ds)
  {
    var s := Zeros(k) + ds;
    assert AllDigits(s) by {
      forall i | 0 <= i < |s| ensures IsDigit(s[i]) {
        if i >= k { assert s[i] == ds[i - k]; }
      }
    }
    if ds == [] {
      ZerosValue(k);
      assert s == Zeros(k);
    } else {
      var init := ds[..|ds| - 1];
      LeadingZerosValue(k, init);
      assert s[..|s| - 1] == Zeros(k) + init;
    }
  }

  lemma {:induction false} ZerosValue(k: nat)
    ensures ValueOf(Zeros(k)) == 0
  {
    if k > 0 {
      ZerosValue(k - 1);
      assert Zeros(k)[..k - 1] == Zeros(k - 1);
    }
  }

  /** Python `str(n)`. */
  function IntToStr(n: int): string
  {
    if n < 0 then "-" + Digits(-n) else Digits(n)
  }

  /** Python `s.zfill(width)`: pads with '0' after any leading sign. */
  function ZFill(s: string, width: nat): (r: string)
    ensures |r| == if |s| >= width then |s| else width
    ensures |s| >= width ==> r == s
    ensures |s| > 0 && (s[0] == '-' || s[0] == '+') ==> r[0] == s[0]
    ensures AllDigits(s) ==> AllDigits(r) && ValueOf(r) == ValueOf(s)
  {
    if |s| >= width then s
    else if |s| > 0 && (s[0] == '-' || s[0] == '+') then [s[0]] + Zeros(width - |s|) + s[1..]
    else
      var padded := Zeros(width - |s|) + s;
      assert AllDigits(s) ==> AllDigits(padded) && ValueOf(padded) == ValueOf(s) by {
        if AllDigits(s) { LeadingZerosValue(width - |s|, s); }
      }
      padded
  }

  /** Python `int(s)` on an optionally signed run of ASCII digits; anything
      else is the ValueError the numbering code skips. */
  function ParseInt(s: string): Option<int>
  {
    if |s| > 0 && (s[0] == '-' || s[0] == '+') then
      if |s| > 1 && AllDigits(s[1..]) then
        var v: int := ValueOf(s[1..]);
        Some(if s[0] == '-' then -v else v)
      else None
    else if |s| > 0 && AllDigits(s) then Some(ValueOf(s))
    else None
  }

  /** The four-or-more-character suffix written for sequence number n. */
  function Suffix(n: int): string
  {
    ZFill(IntToStr(n), 4)
  }

  lemma ParseUnsigned(s: string)
    requires |s| > 0 && AllDigits(s)
    ensures ParseInt(s) == Some(ValueOf(s))
  {
    assert IsDigit(s[0]);
  }

  lemma ParseNegative(s: string)
    requires |s| > 1 && s[0] == '-' && AllDigits(s[1..])
    ensures ParseInt(s) == Some(-(ValueOf(s[1..]) as int))
  {
  }

  /** The suffix of a non-negative number is its digits, padded with zeros. */
  lemma NonNegativeSuffix(n: nat)
    ensures |Suffix(n)| >= 4 && AllDigits(Suffix(n))
    ensures ParseInt(Suffix(n)) == Some(n)
  {
    var ds := Digits(n);
    DigitsRoundTrip(n);
    assert IntToStr(n) == ds;
    if |ds| < 4 {
      LeadingZerosValue(4 - |ds|, ds);
      assert Suffix(n) == Zeros(4 - |ds|) + ds;
    } else {
      assert Suffix(n) == ds;
    }
    ParseUnsigned(Suffix(n));
  }

  /** Padding a negated digit string keeps the sign in front of the zeros. */
  lemma PadNegative(ds: string)
    requires AllDigits(ds)
    ensures |ZFill("-" + ds, 4)| >= 4 && ZFill("-" + ds, 4)[0] == '-'
    ensures AllDigits(ZFill("-" + ds, 4)[1..])
    ensures ValueOf(ZFill("-" + ds, 4)[1..]) == ValueOf(ds)
  {
    var str := "-" + ds;
    assert str[1..] == ds;
    if |str| < 4 {
      LeadingZerosValue(4 - |str|, ds);
      assert ZFill(str, 4)[1..] == Zeros(4 - |str|) + ds;
    }
  }

  /** The suffix of a negative number is '-', zeros, then the digits of -n. */
  lemma NegativeSuffix(n: int)
    requires n < 0
    ensures |Suffix(n)| >= 4 && AllDigits(Suffix(n)[1..])
    ensures ParseInt(Suffix(n)) == Some(n)
  {
    var ds := Digits(-n);
    var s := Suffix(n);
    assert s == ZFill("-" + ds, 4);
    PadNegative(ds);
    DigitsRoundTrip(-n);
    ParseNegative(s);
  }

  /** The written suffix reads back as the same number, and only its first
      character can be anything other than a digit. */
  lemma SuffixRoundTrip(n: int)
    ensures ParseInt(Suffix(n)) == Some(n)
    ensures |Suffix(n)| >= 4
    ensures forall k :: 0 < k < |Suffix(n)| ==> IsDigit(Suffix(n)[k])
  {
    var s := Suffix(n);
    if n >= 0 {
      NonNegativeSuffix(n);
    } else {
      NegativeSuffix(n);
      assert forall k :: 0 < k < |s| ==> s[k] == s[1..][k - 1];
    }
  }

  // ---------------------------------------------------------------------
  // Prefix matching and Python's str.replace(p, "")

  predicate StartsWith(s: string, p: string)
  {
    |p| <= |s| && s[..|p|] == p
  }

  /** `s.replace(p, "")`: every non-overlapping occurrence of p, scanning from
      the left, is removed. */
  function RemoveAll(s: string, p: string): (r: string)
    requires |p| > 0
    ensures |r| <= |s|
    ensures forall c :: c in r ==> c in s
    decreases |s|
  {
    if |s| < |p| then s
    else if s[..|p|] == p then RemoveAll(s[|p|..], p)
    else [s[0]] + RemoveAll(s[1..], p)
  }

  /** A text with '-' at most in front contains no occurrence of a pattern
      with two '-' characters, so removing the pattern leaves it as it is. */
  lemma {:induction false} RemoveAllAbsent(s: string, p: string, a: nat, b: nat)
    requires a < b < |p| && p[a] == '-' && p[b] == '-'
    requires forall k :: 0 < k < |s| ==> s[k] != '-'
    ensures RemoveAll(s, p) == s
    decreases |s|
  {
    if |s| >= |p| {
      assert s[..|p|] != p;
      var rest := s[1..];
      assert forall k :: 0 <= k < |rest| ==> rest[k] == s[k + 1];
      RemoveAllAbsent(rest, p, a, b);
      assert [s[0]] + rest == s;
    }
  }

  // ---------------------------------------------------------------------
  // next_no (main.py) and next_invoice_no (app.py)

  /** `f"{prefix}-{YYYYMM}-"` */
  function NumberPrefix(prefix: string, period: string): (p: string)
    ensures |p| == |prefix| + |period| + 2
    ensures p[|prefix|] == '-' && p[|prefix| + 1 + |period|] == '-'
  {
    prefix + "-" + period + "-"
  }

  /** The suffix number of an existing document number, when it has prefix p
      and what is left after removing p parses as an integer. */
  function SuffixNumber(x: string, p: string): Option<int>
    requires |p| > 0
  {
    if |x| > 0 && StartsWith(x, p) then ParseInt(RemoveAll(x, p)) else None
  }

  /** The list `nums` the numbering loop collects, in table order. */
  function Numbers(existing: seq<string>, p: string): seq<int>
    requires |p| > 0
  {
    if existing == [] then []
    else
      Numbers(existing[..|existing| - 1], p)
        + (match SuffixNumber(existing[|existing| - 1], p) case Some(v) => [v] case None => [])
  }

  /** Python `max`. */
  function MaxOf(s: seq<int>): (m: int)
    requires |s| > 0
    ensures m in s && forall v :: v in s ==> v <= m
  {
    if |s| == 1 then s[0]
    else
      var m := MaxOf(s[..|s| - 1]);
      assert forall v :: v in s ==> v in s[..|s| - 1] || v == s[|s| - 1];
      if s[|s| - 1] > m then s[|s| - 1] else m
  }

  function NextNumber(nums: seq<int>): int
  {
    if |nums| > 0 then MaxOf(nums) + 1 else 1
  }

  /** The number `next_no` issues for `prefix` in `period` given the numbers
      already in the table. */
  function NextNoOf(prefix: string, period: string, existing: seq<string>): string
  {
    var p := NumberPrefix(prefix, period);
    p + Suffix(NextNumber(Numbers(existing, p)))
  }

  lemma {:induction false} NumbersContains(existing: seq<string>, p: string, j: nat, v: int)
    requires |p| > 0 && j < |existing|
    requires SuffixNumber(existing[j], p) == Some(v)
    ensures v in Numbers(existing, p)
  {
    if j < |existing| - 1 {
      NumbersContains(existing[..|existing| - 1], p, j, v);
    }
  }

  /** A number written with prefix p and suffix n reads back as n. */
  lemma WrittenNumberReadsBack(prefix: string, period: string, n: int)
    ensures SuffixNumber(NumberPrefix(prefix, period) + Suffix(n), NumberPrefix(prefix, period)) == Some(n)
  {
    var p := NumberPrefix(prefix, period);
    var s := Suffix(n);
    SuffixRoundTrip(n);
    assert (p + s)[..|p|] == p && (p + s)[|p|..] == s;
    RemoveAllAbsent(s, p, |prefix|, |prefix| + 1 + |period|);
  }

  /** The issued number differs from every number already in the table. */
  lemma NextNoIsFresh(prefix: string, period: string, existing: seq<string>)
    ensures NextNoOf(prefix, period, existing) !in existing
  {
    var p := NumberPrefix(prefix, period);
    var nums := Numbers(existing, p);
    var n := NextNumber(nums);
    var s := Suffix(n);
    if no: nat :| no < |existing| && existing[no] == p + s {
      WrittenNumberReadsBack(prefix, period, n);
      NumbersContains(existing, p, no, n);
      assert false;
    }
  }

  /** The sequence continues from the largest suffix, not from the count:
      with 0001 and 0003 issued, the next invoice number is 0004. */
  lemma MaxPlusOneNotCount()
    ensures NextNoOf("INV", "202501", ["INV-202501-0001", "INV-202501-0003"]) == "INV-202501-0004"
  {
    var p := NumberPrefix("INV", "202501");
    assert p == "INV-202501-";
    assert Suffix(1) == "0001" by { assert Digits(1) == "1"; }
    assert Suffix(3) == "0003" by { assert Digits(3) == "3"; }
    assert Suffix(4) == "0004" by { assert Digits(4) == "4"; }
    WrittenNumberReadsBack("INV", "202501", 1);
    WrittenNumberReadsBack("INV", "202501", 3);
    var e := [p + Suffix(1), p + Suffix(3)];
    assert p + Suffix(1) == "INV-202501-0001";
    assert p + Suffix(3) == "INV-202501-0003";
    assert p + Suffix(4) == "INV-202501-0004";
    assert e[..1] == [p + Suffix(1)];
    assert [p + Suffix(1)][..0] == [];
    assert Numbers([p + Suffix(1)], p) == [1];
    assert Numbers(e, p) == [1, 3];
    assert MaxOf([1, 3]) == 3;
  }

  /** The prefix and period chosen are the ones written. */
  lemma NextNoHasPrefix(prefix: string, period: string, existing: seq<string>)
    ensures StartsWith(NextNoOf(prefix, period, existing), NumberPrefix(prefix, period))
  {
    var p := NumberPrefix(prefix, period);
    var r := NextNoOf(prefix, period, existing);
    assert r[..|p|] == p;
  }

  /** A number of another prefix or period, or with an unparseable suffix, does
      not move the sequence. */
  lemma NextNoIgnores(prefix: string, period: string, existing: seq<string>, x: string)
    requires SuffixNumber(x, NumberPrefix(prefix, period)).None?
    ensures NextNoOf(prefix, period, existing + [x]) == NextNoOf(prefix, period, existing)
  {
    var p := NumberPrefix(prefix, period);
    var e := existing + [x];
    assert e[..|e| - 1] == existing && e[|e| - 1] == x;
    assert Numbers(e, p) == Numbers(existing, p) + [];
    assert Numbers(e, p) == Numbers(existing, p);
  }

  lemma NumbersStep(existing: seq<string>, p: string, i: int)
    requires |p| > 0 && 0 <= i < |existing|
    ensures Numbers(existing[..i + 1], p)
      == Numbers(existing[..i], p) + (match SuffixNumber(existing[i], p) case Some(v) => [v] case None => [])
  {
    assert existing[..i + 1][..i] == existing[..i];
  }

  /** `next_no`: collects the parseable suffixes of the existing numbers with
      this prefix and period, then writes max + 1, or 1, zero-padded to four. */
  method NextNo(prefix: string, period: string, existing: seq<string>) returns (no: string)
    ensures no == NextNoOf(prefix, period, existing)
    ensures no !in existing
    ensures StartsWith(no, NumberPrefix(prefix, period))
  {
    var p := NumberPrefix(prefix, period);
    var nums: seq<int> := [];
    var i := 0;
    while i < |existing|
      invariant 0 <= i <= |existing|
      invariant nums == Numbers(existing[..i], p)
    {
      var x := existing[i];
      NumbersStep(existing, p, i);
      if |x| > 0 && StartsWith(x, p) {
        var parsed := ParseInt(RemoveAll(x, p));
        if parsed.Some? {
          nums := nums + [parsed.value];
        }
      }
      i := i + 1;
    }
    assert nums == Numbers(existing, p) by {
      assert existing[..i] == existing;
    }
    var n := if |nums| > 0 then MaxOf(nums) + 1 else 1;
    assert n == NextNumber(nums);
    no := p + ZFill(IntToStr(n), 4);
    assert no == NextNoOf(prefix, period, existing);
    NextNoIsFresh(prefix, period, existing);
    NextNoHasPrefix(prefix, period, existing);
  }

  /** The rows the query `invoice_no.startswith(p)` returns. */
  function WithPrefix(existing: seq<string>, p: string): (r: seq<string>)
    ensures forall x :: x in r <==> x in existing && StartsWith(x, p)
  {
    if existing == [] then []
    else
      var last := existing[|existing| - 1];
      WithPrefix(existing[..|existing| - 1], p) + (if StartsWith(last, p) then [last] else [])
  }

  /** The parseable suffixes of rows already known to carry prefix p. */
  function ParsedSuffixes(matching: seq<string>, p: string): seq<int>
    requires |p| > 0
  {
    if matching == [] then []
    else
      ParsedSuffixes(matching[..|matching| - 1], p)
        + (match ParseInt(RemoveAll(matching[|matching| - 1], p)) case Some(v) => [v] case None => [])
  }

  lemma ParsedSuffixesStep(matching: seq<string>, p: string, i: int)
    requires |p| > 0 && 0 <= i < |matching|
    ensures ParsedSuffixes(matching[..i + 1], p)
      == ParsedSuffixes(matching[..i], p)
         + (match ParseInt(RemoveAll(matching[i], p)) case Some(v) => [v] case None => [])
  {
    assert matching[..i + 1][..i] == matching[..i];
  }

  lemma {:induction false} FilteredNumbers(existing: seq<string>, p: string)
    requires |p| > 0
    ensures ParsedSuffixes(WithPrefix(existing, p), p) == Numbers(existing, p)
  {
    if existing != [] {
      var init := existing[..|existing| - 1];
      var last := existing[|existing| - 1];
      FilteredNumbers(init, p);
      var m := WithPrefix(init, p);
      if StartsWith(last, p) {
        assert (m + [last])[..|m|] == m;
      } else {
        assert m + [] == m;
      }
    }
  }

  /** `next_invoice_no` of app.py: "0001" when no invoice number has this
      month's prefix, otherwise max + 1 of the parseable suffixes. It issues
      exactly the number `next_no("INV")` of main.py would. */
  method NextInvoiceNo(period: string, existing: seq<string>) returns (no: string)
    ensures no == NextNoOf("INV", period, existing)
    ensures no !in existing
  {
    var prefix := NumberPrefix("INV", period);
    var matching := WithPrefix(existing, prefix);
    if |matching| == 0 {
      FilteredNumbers(existing, prefix);
      NextNoIsFresh("INV", period, existing);
      assert Numbers(existing, prefix) == [];
      assert ZFill(IntToStr(1), 4) == "0001";
      return prefix + "0001";
    }
    var nums: seq<int> := [];
    var i := 0;
    while i < |matching|
      invariant 0 <= i <= |matching|
      invariant nums == ParsedSuffixes(matching[..i], prefix)
    {
      var x := matching[i];
      ParsedSuffixesStep(matching, prefix, i);
      var parsed := ParseInt(RemoveAll(x, prefix));
      if parsed.Some? {
        nums := nums + [parsed.value];
      }
      i := i + 1;
    }
    assert matching[..i] == matching;
    FilteredNumbers(existing, prefix);
    NextNoIsFresh("INV", period, existing);
    var n := if |nums| > 0 then MaxOf(nums) + 1 else 1;
    no := prefix + ZFill(IntToStr(n), 4);
  }
}
