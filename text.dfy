/**
 * The few QString operations the service relies on: `split` on a
 * one-character separator (keeping empty parts, Qt's default), the
 * single-character `replace`, and `QString::number` for an `int`.
 */
module Text {

  /** The position of the first `c` in `s`. */
  function IndexOf(s: string, c: char): (i: nat)
    requires c in s
    ensures i < |s| && s[i] == c
    ensures forall k :: 0 <= k < i ==> s[k] != c
  {
    if s[0] == c then 0 else 1 + IndexOf(s[1..], c)
  }

  /** `QString::split(sep)`: the maximal runs between separators, empty runs included. */
  function Split(s: string, sep: char): (parts: seq<string>)
    ensures |parts| >= 1
    ensures |parts| >= 2 <==> sep in s
    ensures forall k :: 0 <= k < |parts| ==> sep !in parts[k]
    decreases |s|
  {
    if sep !in s then [s]
    else
      var i := IndexOf(s, sep);
      [s[..i]] + Split(s[i + 1..], sep)
  }

  /** `QStringList::join(sep)`, the inverse of Split. */
  function Join(parts: seq<string>, sep: char): string
    requires |parts| >= 1
  {
    if |parts| == 1 then parts[0] else parts[0] + [sep] + Join(parts[1..], sep)
  }

  /** Joining the parts of a split gives back the string. */
  lemma {:induction false} JoinSplit(s: string, sep: char)
    ensures Join(Split(s, sep), sep) == s
    decreases |s|
  {
    if sep in s {
      var i := IndexOf(s, sep);
      var head, tail := s[..i], s[i + 1..];
      var rest := Split(tail, sep);
      var parts := Split(s, sep);
      assert parts == [head] + rest;
      assert parts[1..] == rest;
      JoinSplit(tail, sep);
      calc {
        Join(parts, sep);
        head + [sep] + Join(rest, sep);
        head + [sep] + tail;
        { assert s == s[..i] + [sep] + s[i + 1..]; }
        s;
      }
    }
  }

  /** A leading separator-free run followed by a separator is the first part. */
  lemma SplitAfterFirst(a: string, b: string, sep: char)
    requires sep !in a
    ensures Split(a + [sep] + b, sep) == [a] + Split(b, sep)
  {
    var s := a + [sep] + b;
    assert s[|a|] == sep;
    var i := IndexOf(s, sep);
    assert i == |a|;
    assert s[..i] == a;
    assert s[i + 1..] == b;
  }

  /** Splitting a join of separator-free parts gives back the parts. */
  lemma {:induction false} SplitJoin(parts: seq<string>, sep: char)
    requires |parts| >= 1
    requires forall k :: 0 <= k < |parts| ==> sep !in parts[k]
    ensures Split(Join(parts, sep), sep) == parts
  {
    if |parts| > 1 {
      SplitJoin(parts[1..], sep);
      assert parts == [parts[0]] + parts[1..];
      SplitJoinStep(parts[0], parts[1..], sep);
    }
  }

  /** One step of `SplitJoin`: a separator-free part put in front of a join splits off again. */
  lemma SplitJoinStep(head: string, tail: seq<string>, sep: char)
    requires sep !in head && |tail| >= 1
    requires Split(Join(tail, sep), sep) == tail
    ensures Split(Join([head] + tail, sep), sep) == [head] + tail
  {
    var joined := Join(tail, sep);
    assert ([head] + tail)[1..] == tail;
    assert Join([head] + tail, sep) == head + [sep] + joined;
    SplitAfterFirst(head, joined, sep);
  }

  /** `QString::replace(from, to)` for one-character strings. */
  function Replace(s: string, from: char, to: char): (r: string)
    ensures |r| == |s|
    ensures forall k :: 0 <= k < |s| ==> r[k] == (if s[k] == from then to else s[k])
    ensures from != to ==> from !in r
  {
    if s == [] then [] else [if s[0] == from then to else s[0]] + Replace(s[1..], from, to)
  }

  /** The decimal digit for `d`. */
  function DigitChar(d: nat): (c: char)
    requires d < 10
    ensures '0' <= c <= '9'
  {
    ('0' as int + d) as char
  }

  /** The value of a decimal digit. */
  function DigitValue(c: char): nat
  {
    if '0' <= c <= '9' then (c as int - '0' as int) else 0
  }

  predicate IsDigits(s: string)
  {
    forall k :: 0 <= k < |s| ==> '0' <= s[k] <= '9'
  }

  /** The decimal numeral of `n`, without leading zeros. */
  function NatToString(n: nat): (s: string)
    ensures |s| >= 1 && IsDigits(s)
    ensures |s| > 1 ==> s[0] != '0'
  {
    if n < 10 then [DigitChar(n)] else NatToString(n / 10) + [DigitChar(n % 10)]
  }

  /** `QString::number(int)`: a minus sign for negative values, then the decimal numeral. */
  function IntToString(i: int): (s: string)
    ensures |s| >= 1
    ensures s[0] == '-' <==> i < 0
  {
    if i < 0 then "-" + NatToString(-i) else NatToString(i)
  }

  /** Reads a decimal numeral; the partner of NatToString. */
  function ParseNat(s: string): nat
  {
    if s == [] then 0 else ParseNat(s[..|s| - 1]) * 10 + DigitValue(s[|s| - 1])
  }

  /** Reads an optionally negative decimal numeral; the partner of IntToString. */
  function ParseInt(s: string): int
  {
    if |s| > 0 && s[0] == '-' then 0 - ParseNat(s[1..]) else ParseNat(s)
  }

  lemma {:induction false} ParseNatToString(n: nat)
    ensures ParseNat(NatToString(n)) == n
  {
    if n >= 10 {
      var s := NatToString(n);
      var front := NatToString(n / 10);
      assert s[..|s| - 1] == front;
      ParseNatToString(n / 10);
    }
  }

  /** Formatting a number and reading it back gives the number. */
  lemma ParseIntToString(i: int)
    ensures ParseInt(IntToString(i)) == i
  {
    if i < 0 {
      ParseNatToString(-i);
      assert IntToString(i)[1..] == NatToString(-i);
    } else {
      ParseNatToString(i);
    }
  }

  /** A formatted number is non-empty and holds only a sign and digits, so never `sep` unless `sep` is one of them. */
  lemma IntToStringCharacters(i: int, c: char)
    requires c != '-' && !('0' <= c <= '9')
    ensures IntToString(i) != [] && c !in IntToString(i)
  {
    var d := NatToString(if i < 0 then -i else i);
    assert forall k :: 0 <= k < |d| ==> d[k] != c;
  }
}
