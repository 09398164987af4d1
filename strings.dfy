/**
 * The parts of Go's `strings`, `strconv`/`fmt` and `unicode` packages that
 * the collectors rely on, over `string == seq<char>`.
 */
module Strings {

  /** `strings.HasPrefix`. */
  predicate HasPrefix(s: string, prefix: string)
  {
    |prefix| <= |s| && s[..|prefix|] == prefix
  }

  /** `sub` occurs in `s` starting at index `i`. */
  predicate OccursAt(s: string, sub: string, i: nat)
  {
    i + |sub| <= |s| && s[i..i + |sub|] == sub
  }

  /** `strings.Contains`: a left-to-right scan for an occurrence of `sub`. */
  function Contains(s: string, sub: string): (r: bool)
    ensures r <==> exists i :: OccursAt(s, sub, i)
  {
    ContainsFrom(s, sub, 0)
  }

  /** Is there an occurrence of `sub` at index `i` or later? */
  function ContainsFrom(s: string, sub: string, i: nat): (r: bool)
    requires i <= |s|
    ensures r <==> exists j :: i <= j && OccursAt(s, sub, j)
    decreases |s| - i
  {
    if OccursAt(s, sub, i) then true
    else if i == |s| then false
    else ContainsFrom(s, sub, i + 1)
  }

  /** `strings.Join`: the parts in order with `sep` between neighbours. */
  function Join(parts: seq<string>, sep: string): (r: string)
    ensures |parts| == 0 ==> r == ""
    ensures |parts| == 1 ==> r == parts[0]
    ensures |parts| >= 1 ==> HasPrefix(r, parts[0])
  {
    if |parts| == 0 then ""
    else if |parts| == 1 then parts[0]
    else parts[0] + sep + Join(parts[1..], sep)
  }

  /** `strings.Split` on a single character: the maximal runs between occurrences of `c`. */
  function Split(s: string, c: char): (r: seq<string>)
    ensures |r| >= 1
    ensures forall k :: 0 <= k < |r| ==> c !in r[k]
  {
    if s == [] then [""]
    else
      var rest := Split(s[1..], c);
      if s[0] == c then [""] + rest else [[s[0]] + rest[0]] + rest[1..]
  }

  /** Joining the pieces of a split with the separator gives back the string. */
  lemma {:induction false} JoinSplit(s: string, c: char)
    ensures Join(Split(s, c), [c]) == s
  {
    if s != [] {
      var rest := Split(s[1..], c);
      JoinSplit(s[1..], c);
      if s[0] == c {
        assert Split(s, c)[1..] == rest;
      } else {
        var r := Split(s, c);
        assert r[1..] == rest[1..];
        if |rest| == 1 {
          assert r == [[s[0]] + rest[0]];
        } else {
          assert Join(rest, [c]) == rest[0] + [c] + Join(rest[1..], [c]);
          assert Join(r, [c]) == [s[0]] + rest[0] + [c] + Join(rest[1..], [c]);
        }
      }
    }
  }

  /** The last piece of a split is what follows the last separator: a suffix of the string. */
  lemma {:induction false} SplitLastIsSuffix(s: string, c: char)
    ensures var r := Split(s, c); |r[|r| - 1]| <= |s| && s[|s| - |r[|r| - 1]|..] == r[|r| - 1]
  {
    if s != [] {
      var rest := Split(s[1..], c);
      SplitLastIsSuffix(s[1..], c);
      var r := Split(s, c);
      if s[0] != c {
        if |rest| == 1 {
          JoinSplit(s[1..], c);
          assert r == [[s[0]] + s[1..]];
          assert [s[0]] + s[1..] == s;
        } else {
          assert r[|r| - 1] == rest[|rest| - 1];
        }
      }
    }
  }

  /** Splitting a piece free of `c` glued in front of `t` extends the first piece of `t`. */
  lemma {:induction false} SplitPrepend(p: string, t: string, c: char)
    requires c !in p
    ensures Split(p + t, c) == [p + Split(t, c)[0]] + Split(t, c)[1..]
  {
    if p != [] {
      assert (p + t)[1..] == p[1..] + t;
      SplitPrepend(p[1..], t, c);
      var rest := Split(p[1..] + t, c);
      assert Split(p + t, c) == [[p[0]] + rest[0]] + rest[1..];
      assert [p[0]] + (p[1..] + Split(t, c)[0]) == p + Split(t, c)[0];
    } else {
      assert p + t == t && p + Split(t, c)[0] == Split(t, c)[0];
      assert [Split(t, c)[0]] + Split(t, c)[1..] == Split(t, c);
    }
  }

  /** Splitting pieces joined by `c` gives the pieces back when none contains `c`. */
  lemma {:induction false} SplitJoin(parts: seq<string>, c: char)
    requires |parts| >= 1
    requires forall k :: 0 <= k < |parts| ==> c !in parts[k]
    ensures Split(Join(parts, [c]), c) == parts
  {
    if |parts| == 1 {
      SplitPrepend(parts[0], "", c);
      assert parts[0] + "" == parts[0];
    } else {
      var tail := Join(parts[1..], [c]);
      SplitJoin(parts[1..], c);
      assert Join(parts, [c]) == parts[0] + ([c] + tail);
      SplitPrepend(parts[0], [c] + tail, c);
      assert ([c] + tail)[1..] == tail;
      assert Split([c] + tail, c) == [""] + parts[1..];
      assert parts[0] + "" == parts[0];
    }
  }

  /** `unicode.IsSpace`: ASCII and Latin-1 white space and the other Unicode White_Space characters. */
  predicate IsSpace(ch: char)
  {
    ch == ' ' || ch == '\t' || ch == '\n' || ch == '\r' || ch == '\U{000B}' || ch == '\U{000C}'
    || ch == '\U{0085}' || ch == '\U{00A0}' || ch == '\U{1680}' || ('\U{2000}' <= ch <= '\U{200A}')
    || ch == '\U{2028}' || ch == '\U{2029}' || ch == '\U{202F}' || ch == '\U{205F}' || ch == '\U{3000}'
  }

  /** Drops leading white space: a suffix of `s` that does not start with white space. */
  function TrimLeft(s: string): (r: string)
    ensures |r| <= |s| && r == s[|s| - |r|..]
    ensures r == [] || !IsSpace(r[0])
    ensures forall k :: 0 <= k < |s| - |r| ==> IsSpace(s[k])
  {
    if s != [] && IsSpace(s[0]) then TrimLeft(s[1..]) else s
  }

  /** Drops trailing white space: a prefix of `s` that does not end with white space. */
  function TrimRight(s: string): (r: string)
    ensures |r| <= |s| && r == s[..|r|]
    ensures r == [] || !IsSpace(r[|r| - 1])
    ensures forall k :: |r| <= k < |s| ==> IsSpace(s[k])
  {
    if s != [] && IsSpace(s[|s| - 1]) then TrimRight(s[..|s| - 1]) else s
  }

  /** The first `n` elements of the suffix from `start` are the slice from `start` of length `n`. */
  lemma PrefixOfSuffix<T>(s: seq<T>, start: nat, n: nat)
    requires start + n <= |s|
    ensures s[start..][..n] == s[start..start + n]
  {
  }

  /** `strings.TrimSpace`: the slice of `s` left after dropping white space at both ends. */
  function TrimSpace(s: string): (r: string)
    ensures r == [] || (!IsSpace(r[0]) && !IsSpace(r[|r| - 1]))
    ensures exists i :: OccursAt(s, r, i)
  {
    var l := TrimLeft(s);
    var r := TrimRight(l);
    assert r != [] ==> r[0] == l[0];
    var start := |s| - |l|;
    PrefixOfSuffix(s, start, |r|);
    assert OccursAt(s, r, start);
    r
  }

  /** An ASCII decimal digit, as matched by `\d` in Go's RE2 syntax. */
  predicate IsDigit(ch: char)
  {
    '0' <= ch <= '9'
  }

  /** A non-empty run of decimal digits, as matched by `\d+`. */
  predicate IsDigitRun(s: string)
  {
    |s| >= 1 && forall k :: 0 <= k < |s| ==> IsDigit(s[k])
  }

  /** The character of a decimal digit. */
  function DigitChar(d: nat): (ch: char)
    requires d < 10
    ensures IsDigit(ch) && ch as int - '0' as int == d
  {
    ('0' as int + d) as char
  }

  /** The value of a decimal digit character. */
  function DigitValue(ch: char): (d: nat)
    requires IsDigit(ch)
    ensures d < 10 && DigitChar(d) == ch
  {
    ch as int - '0' as int
  }

  /** The decimal digits of `n` without leading zeros, as `%d` prints a non-negative integer. */
  function NatToString(n: nat): (r: string)
    ensures IsDigitRun(r)
    ensures |r| > 1 ==> r[0] != '0'
  {
    if n < 10 then [DigitChar(n)] else NatToString(n / 10) + [DigitChar(n % 10)]
  }

  /** The value of a run of decimal digits, most significant first. */
  function ParseNat(s: string): nat
    requires forall k :: 0 <= k < |s| ==> IsDigit(s[k])
  {
    if s == [] then 0 else ParseNat(s[..|s| - 1]) * 10 + DigitValue(s[|s| - 1])
  }

  /** Reading back the printed digits of `n` gives `n`. */
  lemma {:induction false} ParseNatToString(n: nat)
    ensures ParseNat(NatToString(n)) == n
  {
    if n >= 10 {
      var r := NatToString(n);
      assert r[..|r| - 1] == NatToString(n / 10);
      ParseNatToString(n / 10);
    }
  }

  /** `fmt.Sprintf("%d", i)`: a minus sign before the digits of a negative integer. */
  function IntToString(i: int): (r: string)
    ensures |r| >= 1
    ensures i >= 0 ==> IsDigitRun(r)
    ensures i < 0 ==> r[0] == '-' && IsDigitRun(r[1..])
  {
    if i < 0 then "-" + NatToString(-i) else NatToString(i)
  }

  /** Distinct naturals print differently. */
  lemma NatToStringInjective(a: nat, b: nat)
    requires NatToString(a) == NatToString(b)
    ensures a == b
  {
    ParseNatToString(a);
    ParseNatToString(b);
  }

  /** Printing with `%d` loses no information: distinct integers print differently. */
  lemma IntToStringInjective(i: int, j: int)
    requires IntToString(i) == IntToString(j)
    ensures i == j
  {
    var r := IntToString(i);
    if i < 0 {
      assert r[0] == '-' && !IsDigit(r[0]);
      assert j < 0;
      assert r[1..] == NatToString(-i) == NatToString(-j);
      NatToStringInjective(-i, -j);
    } else {
      assert IsDigit(r[0]);
      assert j >= 0;
      NatToStringInjective(i, j);
    }
  }
}
