/**
 * Personal links: the bot writes a user id in decimal into the `start`
 * parameter of a deep link, and the /start handler reads it back with
 * Python's `args.isdigit()` followed by `int(args)`.
 *
 * Digits are the ASCII digits '0'..'9'. Python's `str.isdigit` also accepts
 * other Unicode digit characters; those are not modelled.
 */
module Links {
  import opened Wrappers

  predicate IsDigit(c: char) {
    '0' <= c <= '9'
  }

  predicate AllDigits(s: string) {
    forall i :: 0 <= i < |s| ==> IsDigit(s[i])
  }

  /** Python's `s.isdigit()`: at least one character, and every character a digit. */
  predicate IsDigitString(s: string) {
    |s| > 0 && AllDigits(s)
  }

  /** A digit string without redundant leading zeros, as `str` writes numbers. */
  predicate Canonical(s: string) {
    IsDigitString(s) && (|s| > 1 ==> s[0] != '0')
  }

  function DigitValue(c: char): (d: nat)
    requires IsDigit(c)
    ensures d < 10
  {
    c as int - '0' as int
  }

  function DigitChar(d: nat): (c: char)
    requires d < 10
    ensures IsDigit(c) && DigitValue(c) == d
  {
    ('0' as int + d) as char
  }

  /** Python's `int(s)` on a string of digits: the most significant digit first. */
  function DigitsValue(s: string): (v: nat)
    requires AllDigits(s)
  {
    if s == [] then 0 else DigitsValue(s[..|s| - 1]) * 10 + DigitValue(s[|s| - 1])
  }

  /** Python's `str(n)` for a natural number. */
  function NatToString(n: nat): (s: string)
    ensures Canonical(s)
    ensures s[0] == '0' ==> n == 0
    decreases n
  {
    if n < 10 then [DigitChar(n)] else NatToString(n / 10) + [DigitChar(n % 10)]
  }

  /** Python's `str(i)` for any integer: a minus sign before the magnitude of a negative one. */
  function IntToString(i: int): (s: string)
    ensures |s| > 0
    ensures i < 0 ==> s[0] == '-'
    ensures i >= 0 ==> Canonical(s)
  {
    if i >= 0 then NatToString(i) else "-" + NatToString(-i)
  }

  /** What `int` disregards: leading zeros, down to one digit. */
  function StripLeadingZeros(s: string): (t: string)
    ensures IsDigitString(s) ==> Canonical(t)
  {
    if |s| > 1 && s[0] == '0' then StripLeadingZeros(s[1..]) else s
  }

  /**
   * The argument of /start as the handler reads it: `args and args.isdigit()`
   * selects a target, `int(args)` gives its id; anything else (no argument,
   * an empty one, a sign, a letter) selects none.
   */
  function ParseStartArg(args: Option<string>): (target: Option<int>)
    ensures target.Some? ==> target.value >= 0
  {
    if args.Some? && IsDigitString(args.value) then Some(DigitsValue(args.value)) else None
  }

  /** The fixed part of a personal link, up to the `start` parameter. */
  function LinkPrefix(botUsername: string): (prefix: string) {
    "https://t.me/" + botUsername + "?start="
  }

  /**
   * The personal link of `userId`: the start parameter after the prefix
   * reads back as `userId` itself (no target for a negative id, whose
   * minus sign fails `isdigit`).
   */
  function MyLink(botUsername: string, userId: int): (link: string)
    ensures |LinkPrefix(botUsername)| < |link|
    ensures link[..|LinkPrefix(botUsername)|] == LinkPrefix(botUsername)
    ensures ParseStartArg(Some(link[|LinkPrefix(botUsername)|..]))
            == if userId >= 0 then Some(userId) else None
  {
    var param := IntToString(userId);
    assert (LinkPrefix(botUsername) + param)[|LinkPrefix(botUsername)|..] == param;
    StartParamReadsBack(userId);
    LinkPrefix(botUsername) + param
  }

  /** Encoding then decoding: `int(str(i))` gives back `i`, and a negative `i` fails `isdigit`. */
  lemma StartParamReadsBack(i: int)
    ensures ParseStartArg(Some(IntToString(i))) == if i >= 0 then Some(i) else None
  {
    if i >= 0 {
      EncodeThenDecode(i);
    } else {
      assert !IsDigit(IntToString(i)[0]);
    }
  }

  lemma {:induction false} EncodeThenDecode(n: nat)
    ensures DigitsValue(NatToString(n)) == n
    decreases n
  {
    var s := NatToString(n);
    if n >= 10 {
      EncodeThenDecode(n / 10);
      assert s[..|s| - 1] == NatToString(n / 10);
    }
  }

  /** A leading zero does not change the value `int` reads. */
  lemma {:induction false} LeadingZeroValue(s: string)
    requires AllDigits(s)
    ensures AllDigits("0" + s) && DigitsValue("0" + s) == DigitsValue(s)
    decreases |s|
  {
    var z := "0" + s;
    assert AllDigits(z) by {
      forall i | 0 <= i < |z| ensures IsDigit(z[i]) {
        if i > 0 { assert z[i] == s[i - 1]; }
      }
    }
    if s != [] {
      var init := s[..|s| - 1];
      LeadingZeroValue(init);
      assert z[..|z| - 1] == "0" + init;
    }
  }

  lemma {:induction false} StripPreservesValue(s: string)
    requires AllDigits(s)
    ensures AllDigits(StripLeadingZeros(s))
    ensures DigitsValue(StripLeadingZeros(s)) == DigitsValue(s)
    decreases |s|
  {
    if |s| > 1 && s[0] == '0' {
      var rest := s[1..];
      StripPreservesValue(rest);
      LeadingZeroValue(rest);
      assert s == "0" + rest;
    }
  }

  /** The leading digit bounds the value from below. */
  lemma {:induction false} LeadingDigitBound(s: string)
    requires IsDigitString(s)
    ensures DigitsValue(s) >= DigitValue(s[0])
    decreases |s|
  {
    if |s| > 1 {
      var init := s[..|s| - 1];
      LeadingDigitBound(init);
    }
  }

  /** A canonical digit string is exactly what `str` writes for its value. */
  lemma {:induction false} CanonicalIsPrinted(s: string)
    requires Canonical(s)
    ensures NatToString(DigitsValue(s)) == s
    decreases |s|
  {
    if |s| > 1 {
      var init, last := s[..|s| - 1], s[|s| - 1];
      assert init[0] == s[0];
      CanonicalIsPrinted(init);
      LeadingDigitBound(init);
      var v := DigitsValue(init);
      var n := DigitsValue(s);
      assert n == v * 10 + DigitValue(last);
      assert n / 10 == v && n % 10 == DigitValue(last);
      assert DigitChar(DigitValue(last)) == last;
      assert s == init + [last];
    } else {
      assert DigitChar(DigitValue(s[0])) == s[0];
    }
  }

  /**
   * Decoding then encoding: a parameter the handler accepts reads as the
   * number whose decimal form is that parameter without its leading zeros.
   * So "0042" and "42" select the same target, and nothing else does.
   */
  lemma ParsedTargetPrintsCanonically(s: string, n: int)
    requires ParseStartArg(Some(s)) == Some(n)
    ensures IntToString(n) == StripLeadingZeros(s)
  {
    StripPreservesValue(s);
    CanonicalIsPrinted(StripLeadingZeros(s));
  }

  /** Leading zeros on the parameter select the same target as without them. */
  lemma LeadingZeroSameTarget(s: string)
    ensures ParseStartArg(Some("0" + s)) == (if s == [] then Some(0) else ParseStartArg(Some(s)))
  {
    if AllDigits(s) {
      LeadingZeroValue(s);
    } else {
      var i :| 0 <= i < |s| && !IsDigit(s[i]);
      assert ("0" + s)[i + 1] == s[i];
    }
  }
}
