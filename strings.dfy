/** The pieces of Go's standard library that the query builder uses on text:
    `strings.Join`, decimal formatting by `fmt`'s `%d` and decimal parsing by
    `strconv.ParseInt`, plus a character count used to state how many
    placeholders a statement holds. */
module Strings {

  /** Number of occurrences of `c` in `s`. */
  function Count(c: char, s: string): nat
    decreases |s|
  {
    if |s| == 0 then 0 else (if s[0] == c then 1 else 0) + Count(c, s[1..])
  }

  /** Counting distributes over concatenation. */
  lemma {:induction false} CountConcat(c: char, a: string, b: string)
    ensures Count(c, a + b) == Count(c, a) + Count(c, b)
    decreases |a|
  {
    if |a| > 0 {
      assert (a + b)[1..] == a[1..] + b;
      CountConcat(c, a[1..], b);
    } else {
      assert a + b == b;
    }
  }

  /** A text holds no `c` exactly when `c` does not occur in it. */
  lemma {:induction false} Absent(c: char, s: string)
    ensures Count(c, s) == 0 <==> c !in s
    decreases |s|
  {
    if |s| > 0 {
      Absent(c, s[1..]);
      assert s == [s[0]] + s[1..];
    }
  }

  /** Text without `c` around a middle part adds no `c`. */
  lemma CountBetween(c: char, head: string, mid: string, tail: string)
    requires c !in head && c !in tail
    ensures Count(c, head + mid + tail) == Count(c, mid)
  {
    Absent(c, head);
    Absent(c, tail);
    CountConcat(c, head, mid);
    CountConcat(c, head + mid, tail);
  }

  /** `strings.Join(parts, sep)`. */
  function Join(parts: seq<string>, sep: string): (r: string)
    ensures |parts| == 0 ==> r == ""
    ensures |parts| > 0 ==> |parts[0]| <= |r| && r[..|parts[0]|] == parts[0]
    decreases |parts|
  {
    if |parts| == 0 then ""
    else if |parts| == 1 then parts[0]
    else parts[0] + sep + Join(parts[1..], sep)
  }

  /** `n` copies of `s`, as a list of parts to be joined. */
  function Repeat(s: string, n: nat): (r: seq<string>)
    ensures |r| == n && forall i :: 0 <= i < n ==> r[i] == s
  {
    if n == 0 then [] else [s] + Repeat(s, n - 1)
  }

  /** Total number of occurrences of `c` over all `parts`. */
  function CountAll(c: char, parts: seq<string>): nat
    decreases |parts|
  {
    if |parts| == 0 then 0 else Count(c, parts[0]) + CountAll(c, parts[1..])
  }

  /** Joining adds only the separators' characters to the parts'. */
  lemma {:induction false} CountJoin(c: char, parts: seq<string>, sep: string)
    requires Count(c, sep) == 0
    ensures Count(c, Join(parts, sep)) == CountAll(c, parts)
    decreases |parts|
  {
    if |parts| > 1 {
      CountJoin(c, parts[1..], sep);
      CountConcat(c, parts[0], sep);
      CountConcat(c, parts[0] + sep, Join(parts[1..], sep));
    }
  }

  lemma {:induction false} CountAllRepeat(c: char, s: string, n: nat)
    ensures CountAll(c, Repeat(s, n)) == n * Count(c, s)
  {
    if n > 0 {
      assert Repeat(s, n)[1..] == Repeat(s, n - 1);
      CountAllRepeat(c, s, n - 1);
    }
  }

  /** `strings.Join` of `n` question marks holds exactly `n` of them when the
      separator holds none. */
  lemma MarksJoined(n: nat, sep: string)
    requires Count('?', sep) == 0
    ensures Count('?', Join(Repeat("?", n), sep)) == n
  {
    CountJoin('?', Repeat("?", n), sep);
    CountAllRepeat('?', "?", n);
    assert Count('?', "?") == 1;
  }

  predicate IsDigit(ch: char) {
    '0' <= ch <= '9'
  }

  predicate AllDigits(s: string) {
    forall i :: 0 <= i < |s| ==> IsDigit(s[i])
  }

  predicate AllZeros(s: string) {
    forall i :: 0 <= i < |s| ==> s[i] == '0'
  }

  function DigitValue(ch: char): nat
    requires IsDigit(ch)
  {
    ch as int - '0' as int
  }

  function DigitChar(d: nat): (ch: char)
    requires d < 10
    ensures IsDigit(ch) && DigitValue(ch) == d
  {
    ('0' as int + d) as char
  }

  /** The number a run of decimal digits denotes (`strconv.ParseInt(s, 10, 0)`
      on digits, without its 64-bit range check). */
  function DigitsValue(s: string): (r: nat)
    requires AllDigits(s)
    ensures r == 0 <==> AllZeros(s)
    ensures |s| > 0 ==> r % 10 == DigitValue(s[|s| - 1])
    decreases |s|
  {
    if |s| == 0 then 0 else 10 * DigitsValue(s[..|s| - 1]) + DigitValue(s[|s| - 1])
  }

  /** `fmt.Sprintf("%d", n)` for a non-negative `n`. */
  function DecimalString(n: nat): (r: string)
    ensures |r| > 0 && AllDigits(r)
    ensures n > 0 ==> r[0] != '0'
    ensures (n < 10) <==> |r| == 1
  {
    if n < 10 then [DigitChar(n)] else DecimalString(n / 10) + [DigitChar(n % 10)]
  }

  /** Parsing the decimal rendering gives the number back. */
  lemma {:induction false} DecimalRoundTrip(n: nat)
    ensures DigitsValue(DecimalString(n)) == n
  {
    if n >= 10 {
      var r := DecimalString(n);
      assert r[..|r| - 1] == DecimalString(n / 10);
      DecimalRoundTrip(n / 10);
    }
  }

  /** A run of digits holds no character other than a digit. */
  lemma DigitsHoldNo(c: char, s: string)
    requires AllDigits(s) && !IsDigit(c)
    ensures Count(c, s) == 0
  {
    Absent(c, s);
  }

  /** Each part between `pre` and `post`. */
  function Wrap(parts: seq<string>, pre: string, post: string): (r: seq<string>)
    ensures |r| == |parts| && forall i :: 0 <= i < |parts| ==> r[i] == pre + parts[i] + post
  {
    seq(|parts|, i requires 0 <= i < |parts| => pre + parts[i] + post)
  }

  /** Joining with a separator that closes one part and opens the next wraps
      every part. */
  lemma {:induction false} JoinWrap(parts: seq<string>, pre: string, post: string, sep: string)
    requires |parts| > 0
    ensures pre + Join(parts, post + sep + pre) + post == Join(Wrap(parts, pre, post), sep)
    decreases |parts|
  {
    if |parts| > 1 {
      var rest := parts[1..];
      JoinWrap(rest, pre, post, sep);
      assert Wrap(parts, pre, post)[1..] == Wrap(rest, pre, post);
      calc {
        pre + Join(parts, post + sep + pre) + post;
        pre + (parts[0] + (post + sep + pre) + Join(rest, post + sep + pre)) + post;
        (pre + parts[0] + post) + sep + (pre + Join(rest, post + sep + pre) + post);
        (pre + parts[0] + post) + sep + Join(Wrap(rest, pre, post), sep);
      }
    }
  }

}
