/** Decimal text, as `std::to_string` and `operator<<` write unsigned integers, and the
    fixed line templates the diagnostic tool prints, with a reader that takes a line
    apart again so that each formatter can be shown to lose nothing. */
module Decimal {

  import opened Wrappers

  predicate IsDigit(c: char) { '0' <= c <= '9' }

  predicate AllDigits(s: string) { forall i :: 0 <= i < |s| ==> IsDigit(s[i]) }

  function DigitChar(d: nat): (c: char)
    requires d < 10
    ensures IsDigit(c) && (c as int) - ('0' as int) == d
  {
    (('0' as int) + d) as char
  }

  /** std::to_string of an unsigned value: no sign, no leading zeros. */
  function DecimalString(n: nat): (s: string)
    ensures |s| >= 1 && AllDigits(s)
    ensures s[0] == '0' ==> n == 0
    decreases n
  {
    if n < 10 then [DigitChar(n)] else DecimalString(n / 10) + [DigitChar(n % 10)]
  }

  /** The value of a string of digits, most significant first. */
  function DigitsValue(s: string): nat
    requires AllDigits(s)
    decreases |s|
  {
    if s == [] then 0
    else DigitsValue(s[..|s| - 1]) * 10 + ((s[|s| - 1] as int) - ('0' as int))
  }

  /** Reading the digits back gives the number that was written. */
  lemma {:induction false} DecimalRoundTrip(n: nat)
    ensures DigitsValue(DecimalString(n)) == n
    decreases n
  {
    var s := DecimalString(n);
    if n >= 10 {
      DecimalRoundTrip(n / 10);
      assert s[..|s| - 1] == DecimalString(n / 10);
    }
  }

  /** Two different numbers never print the same. */
  lemma DecimalStringInjective(m: nat, n: nat)
    requires DecimalString(m) == DecimalString(n)
    ensures m == n
  {
    DecimalRoundTrip(m);
    DecimalRoundTrip(n);
  }

  /** The length of the longest run of digits at the front of `s`. */
  function DigitSpan(s: string): (k: nat)
    ensures k <= |s| && AllDigits(s[..k])
    ensures k < |s| ==> !IsDigit(s[k])
    decreases |s|
  {
    if s != [] && IsDigit(s[0]) then
      var k := 1 + DigitSpan(s[1..]);
      assert s[..k] == [s[0]] + s[1..][..k - 1];
      k
    else 0
  }

  lemma {:induction false} DigitSpanOfDigits(ds: string, t: string)
    requires AllDigits(ds)
    requires t == [] || !IsDigit(t[0])
    ensures DigitSpan(ds + t) == |ds|
    decreases |ds|
  {
    if ds != [] {
      assert (ds + t)[1..] == ds[1..] + t;
      DigitSpanOfDigits(ds[1..], t);
    } else {
      assert ds + t == t;
    }
  }

  /** A line made of literal pieces with a number between each two of them:
      lits[0] + n0 + lits[1] + n1 + ... + lits[k]. */
  function Render(lits: seq<string>, nums: seq<nat>): string
    requires |lits| == |nums| + 1
    decreases |nums|
  {
    if nums == [] then lits[0]
    else lits[0] + DecimalString(nums[0]) + Render(lits[1..], nums[1..])
  }

  /** Every number in the template is followed by a non-digit or by the end of the line,
      so the templates can be read back unambiguously. */
  predicate Separated(lits: seq<string>)
  {
    forall k :: 1 <= k < |lits| ==>
      (lits[k] == [] ==> k == |lits| - 1) && (lits[k] != [] ==> !IsDigit(lits[k][0]))
  }

  /** Reads one field of a line: the literal `lit`, then a non-empty run of digits; gives
      the number and what follows it. */
  function ParseField(lit: string, s: string): Option<(nat, string)>
  {
    if !(|lit| <= |s| && s[..|lit|] == lit) then None
    else
      var rest := s[|lit|..];
      var k := DigitSpan(rest);
      if k == 0 then None else Some((DigitsValue(rest[..k]), rest[k..]))
  }

  /** Reads a line of the given template back into its numbers. */
  function Parse(lits: seq<string>, s: string): Option<seq<nat>>
    requires |lits| >= 1
    decreases |lits|
  {
    if |lits| == 1 then (if s == lits[0] then Some([]) else None)
    else match ParseField(lits[0], s)
      case None => None
      case Some((n, rest)) =>
        match Parse(lits[1..], rest)
        case None => None
        case Some(ns) => Some([n] + ns)
  }

  lemma RenderStartsWith(lits: seq<string>, nums: seq<nat>)
    requires |lits| == |nums| + 1
    ensures |lits[0]| <= |Render(lits, nums)| && Render(lits, nums)[..|lits[0]|] == lits[0]
  {
  }

  /** One field of the reader: a literal, then a run of digits that ends the line or is
      followed by a non-digit. */
  lemma ParseFieldOf(lit: string, d: string, tail: string)
    requires d != [] && AllDigits(d)
    requires tail == [] || !IsDigit(tail[0])
    ensures ParseField(lit, lit + d + tail) == Some((DigitsValue(d), tail))
  {
    var s := lit + d + tail;
    var rest := s[|lit|..];
    assert s[..|lit|] == lit && rest == d + tail;
    assert DigitSpan(rest) == |d| by {
      DigitSpanOfDigits(d, tail);
    }
    assert rest[..|d|] == d && rest[|d|..] == tail;
  }

  /** One step of the reader: a literal, a run of digits, then the rest of the template. */
  lemma ParseStep(lits: seq<string>, d: string, tail: string, ns: seq<nat>)
    requires |lits| >= 2 && d != [] && AllDigits(d)
    requires tail == [] || !IsDigit(tail[0])
    requires Parse(lits[1..], tail) == Some(ns)
    ensures Parse(lits, lits[0] + d + tail) == Some([DigitsValue(d)] + ns)
  {
    ParseFieldOf(lits[0], d, tail);
  }

  lemma SeparatedTail(lits: seq<string>)
    requires |lits| >= 1 && Separated(lits)
    ensures Separated(lits[1..])
  {
    forall k | 1 <= k < |lits[1..]|
      ensures (lits[1..][k] == [] ==> k == |lits[1..]| - 1)
      ensures (lits[1..][k] != [] ==> !IsDigit(lits[1..][k][0]))
    {
      assert lits[1..][k] == lits[k + 1];
    }
  }

  /** What follows the first number of a rendered line is empty or starts with a non-digit. */
  lemma RenderTailStart(lits: seq<string>, nums: seq<nat>)
    requires |lits| == |nums| + 1 && |nums| >= 1 && Separated(lits)
    ensures Render(lits[1..], nums[1..]) == [] || !IsDigit(Render(lits[1..], nums[1..])[0])
  {
    var tail := Render(lits[1..], nums[1..]);
    RenderStartsWith(lits[1..], nums[1..]);
    if lits[1] == [] {
      assert |nums| == 1;
    } else {
      assert tail[0] == lits[1][0];
    }
  }

  /** Parsing a rendered line recovers exactly the numbers that were rendered. */
  lemma {:induction false} ParseRender(lits: seq<string>, nums: seq<nat>)
    requires |lits| == |nums| + 1 && Separated(lits)
    ensures Parse(lits, Render(lits, nums)) == Some(nums)
    decreases |nums|
  {
    if nums != [] {
      var d, tail := DecimalString(nums[0]), Render(lits[1..], nums[1..]);
      RenderTailStart(lits, nums);
      SeparatedTail(lits);
      ParseRender(lits[1..], nums[1..]);
      DecimalRoundTrip(nums[0]);
      ParseStep(lits, d, tail, nums[1..]);
      assert [nums[0]] + nums[1..] == nums;
    }
  }
}
