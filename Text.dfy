/**
 * The string handling the command handlers rely on: lower-casing a plan name,
 * joining command arguments with single spaces, and rendering a whole number of
 * seconds in decimal (the suffix of a tip identifier).
 */
module Text {

  /** Lower-cases one ASCII letter; every other character is kept. */
  function LowerChar(c: char): (r: char)
    ensures 'A' <= c <= 'Z' ==> 'a' <= r <= 'z' && r as int - c as int == 32
    ensures !('A' <= c <= 'Z') ==> r == c
  {
    if 'A' <= c <= 'Z' then (c as int + 32) as char else c
  }

  /** The lower-case form of a string, character by character. */
  function Lower(s: string): (r: string)
    ensures |r| == |s|
    ensures forall i :: 0 <= i < |s| ==> r[i] == LowerChar(s[i])
    // Follows from the clause above and LowerChar's contract; kept for readers.
    ensures forall i :: 0 <= i < |s| ==> !('A' <= r[i] <= 'Z')
  {
    seq(|s|, i requires 0 <= i < |s| => LowerChar(s[i]))
  }

  /** Lower-casing twice is lower-casing once. */
  lemma LowerIdempotent(s: string)
    ensures Lower(Lower(s)) == Lower(s)
  {
  }

  /** The words of `parts` separated by single spaces (an empty list gives ""). */
  function JoinWords(parts: seq<string>): (r: string)
    ensures |parts| == 0 ==> r == ""
    ensures |parts| == 1 ==> r == parts[0]
    ensures |parts| >= 1 ==> |parts[0]| <= |r| && r[..|parts[0]|] == parts[0]
    ensures |parts| >= 2 ==> ' ' in r
  {
    if |parts| == 0 then ""
    else if |parts| == 1 then parts[0]
    else parts[0] + " " + JoinWords(parts[1..])
  }

  /** Index of the first `c` in `s`, or |s| when there is none. */
  function FirstIndexOf(s: string, c: char): (i: nat)
    ensures i <= |s|
    ensures i < |s| <==> c in s
    ensures i < |s| ==> s[i] == c
    ensures c !in s[..i]
  {
    if |s| == 0 then 0
    else if s[0] == c then 0
    else
      assert s[1..][..FirstIndexOf(s[1..], c)] == s[1..FirstIndexOf(s[1..], c) + 1];
      1 + FirstIndexOf(s[1..], c)
  }

  /** Index of the last `c` in `s`, or -1 when there is none. */
  function LastIndexOf(s: string, c: char): (i: int)
    ensures -1 <= i < |s|
    ensures i >= 0 ==> s[i] == c
    ensures forall j :: i < j < |s| ==> s[j] != c
  {
    if |s| == 0 then -1
    else if s[|s| - 1] == c then |s| - 1
    else LastIndexOf(s[..|s| - 1], c)
  }

  /** In `w`, `c`, `rest` with no `c` inside `rest`, the last `c` is the one after `w`. */
  lemma {:induction false} LastIndexBeforeRest(w: string, c: char, rest: string)
    requires c !in rest
    ensures LastIndexOf(w + [c] + rest, c) == |w|
    decreases |rest|
  {
    var s := w + [c] + rest;
    if |rest| > 0 {
      var shorter := rest[..|rest| - 1];
      assert s[|s| - 1] == rest[|rest| - 1];
      assert s[..|s| - 1] == w + [c] + shorter;
      LastIndexBeforeRest(w, c, shorter);
    }
  }

  /** Splits `s` at every single space, keeping empty pieces. */
  function SplitWords(s: string): (r: seq<string>)
    ensures |r| >= 1
    decreases |s|
  {
    var i := FirstIndexOf(s, ' ');
    if i == |s| then [s] else [s[..i]] + SplitWords(s[i + 1..])
  }

  /** In `w`, `c`, `rest` with no `c` inside `w`, the first `c` is the one after `w`. */
  lemma FirstIndexAfterWord(w: string, c: char, rest: string)
    requires c !in w
    ensures FirstIndexOf(w + [c] + rest, c) == |w|
  {
    var s := w + [c] + rest;
    assert s[|w|] == c;
    assert forall k :: 0 <= k < |w| ==> s[k] == w[k];
  }

  /** Splitting a word, a space and more text gives the word, then the pieces of the rest. */
  lemma SplitAfterWord(w: string, rest: string)
    requires ' ' !in w
    ensures SplitWords(w + [' '] + rest) == [w] + SplitWords(rest)
  {
    var s := w + [' '] + rest;
    FirstIndexAfterWord(w, ' ', rest);
    assert s[..|w|] == w;
    assert s[|w| + 1..] == rest;
  }

  /**
   * Joining words that contain no space loses nothing: splitting the joined
   * text at its spaces gives the same words back.
   */
  lemma {:induction false} SplitJoinWords(parts: seq<string>)
    requires |parts| >= 1
    requires forall k :: 0 <= k < |parts| ==> ' ' !in parts[k]
    ensures SplitWords(JoinWords(parts)) == parts
  {
    if |parts| == 1 {
      assert JoinWords(parts) == parts[0];
      assert ' ' !in parts[0];
    } else {
      var tail := parts[1..];
      assert JoinWords(parts) == parts[0] + [' '] + JoinWords(tail);
      SplitAfterWord(parts[0], JoinWords(tail));
      SplitJoinWords(tail);
      assert [parts[0]] + tail == parts;
    }
  }

  /** The decimal digit for 0..9. */
  function DigitChar(d: nat): (c: char)
    requires d < 10
    ensures '0' <= c <= '9' && c as int - '0' as int == d
  {
    ((d + '0' as int) as char)
  }

  /** Decimal rendering of a natural number, without leading zeros. */
  function NatToString(n: nat): (s: string)
    ensures |s| >= 1
    ensures forall k :: 0 <= k < |s| ==> '0' <= s[k] <= '9'
    decreases n
  {
    if n < 10 then [DigitChar(n)] else NatToString(n / 10) + [DigitChar(n % 10)]
  }

  /** The value of a string of decimal digits. */
  function DigitsValue(s: string): (v: nat)
    requires forall k :: 0 <= k < |s| ==> '0' <= s[k] <= '9'
  {
    if |s| == 0 then 0
    else DigitsValue(s[..|s| - 1]) * 10 + (s[|s| - 1] as int - '0' as int)
  }

  /** Reading back a rendered natural number gives the number. */
  lemma {:induction false} NatToStringRoundTrip(n: nat)
    ensures DigitsValue(NatToString(n)) == n
    decreases n
  {
    if n >= 10 {
      var s := NatToString(n);
      assert s[..|s| - 1] == NatToString(n / 10);
      NatToStringRoundTrip(n / 10);
    }
  }

  /** Python's `str` of an integer: decimal digits with a leading '-' when negative. */
  function IntToString(i: int): (s: string)
    ensures |s| >= 1
    ensures s[0] == '-' <==> i < 0
  {
    if i < 0 then "-" + NatToString(-i) else NatToString(i)
  }

  /** Parses what IntToString produces: an optional '-' followed by digits. */
  function ParseInt(s: string): (i: int)
  {
    if |s| > 0 && s[0] == '-' && forall k :: 1 <= k < |s| ==> '0' <= s[k] <= '9' then
      -(DigitsValue(s[1..]) as int)
    else if forall k :: 0 <= k < |s| ==> '0' <= s[k] <= '9' then
      DigitsValue(s)
    else 0
  }

  /** Python's `str` of an integer holds no underscore. */
  lemma NoUnderscoreInInt(i: int)
    ensures '_' !in IntToString(i)
  {
    var s := IntToString(i);
    if i < 0 {
      assert forall k :: 1 <= k < |s| ==> s[k] == NatToString(-i)[k - 1];
    }
  }

  /** ParseInt undoes IntToString, so distinct integers render differently. */
  lemma IntToStringRoundTrip(i: int)
    ensures ParseInt(IntToString(i)) == i
  {
    var s := IntToString(i);
    if i < 0 {
      var digits := NatToString(-i);
      assert s[1..] == digits;
      assert forall k :: 1 <= k < |s| ==> s[k] == digits[k - 1];
      NatToStringRoundTrip(-i);
    } else {
      assert s[0] != '-';
      NatToStringRoundTrip(i);
    }
  }

  /** Two integers have the same decimal text exactly when they are equal. */
  lemma IntToStringInjective(a: int, b: int)
    ensures IntToString(a) == IntToString(b) <==> a == b
  {
    IntToStringRoundTrip(a);
    IntToStringRoundTrip(b);
  }
}
