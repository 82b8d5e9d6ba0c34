/**
 * The input filter shared by the mobile-number and OTP text fields:
 * `text.replace(/[^0-9]/g, '').slice(0, maxLen)`.
 */
module DigitInput {

  predicate IsDigit(c: char) {
    '0' <= c <= '9'
  }

  predicate AllDigits(s: seq<char>) {
    forall i :: 0 <= i < |s| ==> IsDigit(s[i])
  }

  /** `replace(/[^0-9]/g, '')`: the digits of `s`, in their original order. */
  function KeepDigits(s: seq<char>): (r: seq<char>)
    ensures AllDigits(r)
    ensures |r| <= |s|
  {
    if s == [] then []
    else if IsDigit(s[0]) then [s[0]] + KeepDigits(s[1..])
    else KeepDigits(s[1..])
  }

  /** `slice(0, n)`: at most the first `n` characters. */
  function Take(s: seq<char>, n: nat): seq<char> {
    if |s| <= n then s else s[..n]
  }

  /** The whole filter applied by `onChangeText`. */
  function Sanitize(text: seq<char>, maxLen: nat): (r: seq<char>)
    ensures AllDigits(r)
    ensures |r| <= maxLen
  {
    Take(KeepDigits(text), maxLen)
  }

  /** Removing non-digits distributes over concatenation, so it keeps the digits' order. */
  lemma {:induction false} KeepDigitsAppend(a: seq<char>, b: seq<char>)
    ensures KeepDigits(a + b) == KeepDigits(a) + KeepDigits(b)
  {
    if a == [] {
      assert a + b == b;
    } else {
      assert (a + b)[0] == a[0];
      assert (a + b)[1..] == a[1..] + b;
      KeepDigitsAppend(a[1..], b);
    }
  }

  /** A single non-digit is dropped by the filter. */
  lemma KeepDigitsDropsNonDigit(c: char)
    requires !IsDigit(c)
    ensures KeepDigits([c]) == []
  {
  }

  /** A string made of digits only passes the digit filter unchanged. */
  lemma {:induction false} KeepDigitsOfDigits(s: seq<char>)
    requires AllDigits(s)
    ensures KeepDigits(s) == s
  {
    if s != [] {
      assert IsDigit(s[0]);
      KeepDigitsOfDigits(s[1..]);
    }
  }

  /** The output is the input's digit sequence cut to `maxLen`: a prefix of the digits, in order. */
  lemma SanitizeIsDigitPrefix(text: seq<char>, maxLen: nat)
    ensures Sanitize(text, maxLen) <= KeepDigits(text)
    ensures |Sanitize(text, maxLen)| == if |KeepDigits(text)| <= maxLen then |KeepDigits(text)| else maxLen
  {
  }

  /** Filtering an already filtered value changes nothing. */
  lemma SanitizeIdempotent(text: seq<char>, maxLen: nat)
    ensures Sanitize(Sanitize(text, maxLen), maxLen) == Sanitize(text, maxLen)
  {
    var once := Sanitize(text, maxLen);
    KeepDigitsOfDigits(once);
  }

  /** Text that is already a short enough digit string is accepted as typed. */
  lemma SanitizeKeepsValidInput(text: seq<char>, maxLen: nat)
    requires AllDigits(text) && |text| <= maxLen
    ensures Sanitize(text, maxLen) == text
  {
    KeepDigitsOfDigits(text);
  }
}
