/** The event alphabet of the microwave controller and the way IDLE reads a
    typed digit. An event is whatever string the driver stored in the
    machine's `event` field; the empty string means "no key this tick". */
module Events {

  /** The Start button (microwave.py:22). */
  const Start: string := "S"
  /** The Pause button (microwave.py:23). */
  const PauseKey: string := "P"
  /** The cancel key, written as a literal in both COOKING and Pause. */
  const Quit: string := "Q"
  /** The string IDLE tests an event against. */
  const Digits: string := "0123456789"

  /** Python's `e in s` on two strings: `e` occurs as a contiguous run of `s`.
      The empty string occurs in every string. */
  predicate IsSubstring(e: string, s: string)
    decreases |s|
  {
    e <= s || (s != [] && IsSubstring(e, s[1..]))
  }

  /** Reference definition of a substring, by slicing. */
  ghost predicate OccursIn(e: string, s: string)
  {
    exists i, j :: 0 <= i <= j <= |s| && s[i..j] == e
  }

  lemma {:induction false} SubstringHasSlice(e: string, s: string)
    requires IsSubstring(e, s)
    ensures OccursIn(e, s)
    decreases |s|
  {
    if e <= s {
      assert s[0..|e|] == e;
    } else {
      SubstringHasSlice(e, s[1..]);
      var i, j :| 0 <= i <= j <= |s[1..]| && s[1..][i..j] == e;
      assert s[i + 1..j + 1] == e;
    }
  }

  lemma {:induction false} SliceIsSubstring(e: string, s: string, i: nat, j: nat)
    requires i <= j <= |s| && s[i..j] == e
    ensures IsSubstring(e, s)
    decreases i
  {
    if i == 0 {
      assert e <= s;
    } else {
      assert s[1..][i - 1..j - 1] == e;
      SliceIsSubstring(e, s[1..], i - 1, j - 1);
    }
  }

  /** The recursive test agrees with the definition by slicing. */
  lemma SubstringIffSlice(e: string, s: string)
    ensures IsSubstring(e, s) <==> OccursIn(e, s)
  {
    if IsSubstring(e, s) {
      SubstringHasSlice(e, s);
    }
    if OccursIn(e, s) {
      var i, j :| 0 <= i <= j <= |s| && s[i..j] == e;
      SliceIsSubstring(e, s, i, j);
    }
  }

  /** A one-character event passes the substring test exactly when it is one
      of the characters of `s`. */
  lemma {:induction false} SingleCharSubstring(c: char, s: string)
    ensures IsSubstring([c], s) <==> c in s
    decreases |s|
  {
    if s != [] {
      SingleCharSubstring(c, s[1..]);
      assert s == [s[0]] + s[1..];
    }
  }

  predicate IsDigit(c: char)
  {
    '0' <= c <= '9'
  }

  predicate AllDigits(s: string)
  {
    forall k :: 0 <= k < |s| ==> IsDigit(s[k])
  }

  /** Any run of `Digits` consists of decimal digits only. */
  lemma DigitRunsAreDigits(e: string)
    requires IsSubstring(e, Digits)
    ensures AllDigits(e)
  {
    SubstringIffSlice(e, Digits);
    var i, j :| 0 <= i <= j <= |Digits| && Digits[i..j] == e;
    forall k | 0 <= k < |e|
      ensures IsDigit(e[k])
    {
      assert e[k] == Digits[i + k];
      assert Digits[i + k] in Digits;
    }
  }

  /** The guard of the digit branch in IDLE (microwave.py:113): a non-empty
      event that occurs in "0123456789". Without the non-emptiness test the
      empty event (no key pressed) would pass, see `EmptyEventPassesSubstringTest`. */
  function IsDigitRun(e: string): (r: bool)
    ensures r ==> e != [] && AllDigits(e)
  {
    if e != [] && IsSubstring(e, Digits) then
      DigitRunsAreDigits(e);
      true
    else
      false
  }

  /** The characters of `Digits` are exactly the decimal digits. */
  lemma DigitsAreDecimalDigits(c: char)
    ensures c in Digits <==> IsDigit(c)
  {
    if IsDigit(c) {
      assert Digits[(c as int) - ('0' as int)] == c;
    }
  }

  /** A single key is a digit run exactly when it is a decimal digit. */
  lemma SingleKeyIsDigitRun(c: char)
    ensures IsDigitRun([c]) <==> IsDigit(c)
  {
    SingleCharSubstring(c, Digits);
    DigitsAreDecimalDigits(c);
  }

  /** Why the `machine.event and` guard is there: "" is in every string. */
  lemma EmptyEventPassesSubstringTest()
    ensures IsSubstring("", Digits) && !IsDigitRun("")
  {
  }

  function DigitValue(c: char): (d: nat)
    requires IsDigit(c)
    ensures d < 10
  {
    (c as int) - ('0' as int)
  }

  function Pow10(n: nat): (p: nat)
    ensures p >= 1
  {
    if n == 0 then 1 else 10 * Pow10(n - 1)
  }

  /** Python's `int(s)` on a string of decimal digits (leading zeros
      allowed); k digits spell a number below 10^k. */
  function DecimalValue(s: string): (n: nat)
    requires AllDigits(s)
    ensures n < Pow10(|s|)
  {
    if s == [] then 0 else DecimalValue(s[..|s| - 1]) * 10 + DigitValue(s[|s| - 1])
  }
}
