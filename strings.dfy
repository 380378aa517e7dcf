/** The few JavaScript string operations the core relies on, with the
    semantics of `String.prototype.split`, `trim`, `startsWith`,
    `Array.prototype.join` and `Number.prototype.toString()` on
    non-negative integers. */
module Strings {

  /** `s.split(sep)`: the pieces between separators; never empty ("" gives [""]). */
  function Split(s: string, sep: char): (parts: seq<string>)
    ensures |parts| >= 1
    ensures forall k :: 0 <= k < |parts| ==> sep !in parts[k]
    decreases |s|
  {
    if s == [] then [""]
    else
      var rest := Split(s[1..], sep);
      if s[0] == sep then [""] + rest
      else [[s[0]] + rest[0]] + rest[1..]
  }

  /** `parts.join(sep)`: "" for no parts, the parts with `sep` between them otherwise. */
  function Join(parts: seq<string>, sep: string): string
    decreases |parts|
  {
    if parts == [] then ""
    else if |parts| == 1 then parts[0]
    else parts[0] + sep + Join(parts[1..], sep)
  }

  /** Two parts are joined with one separator between them. */
  lemma JoinPair(parts: seq<string>, sep: string)
    requires |parts| == 2
    ensures Join(parts, sep) == parts[0] + sep + parts[1]
  {
    assert parts[1..] == [parts[1]];
  }

  /** Splitting and joining again on the same separator gives the input back:
      `split` loses nothing and invents nothing. */
  lemma {:induction false} JoinSplit(s: string, sep: char)
    ensures Join(Split(s, sep), [sep]) == s
    decreases |s|
  {
    if s != [] {
      var rest := Split(s[1..], sep);
      JoinSplit(s[1..], sep);
      if s[0] == sep {
        assert Split(s, sep) == [""] + rest;
        assert ([""] + rest)[1..] == rest;
        assert Join(Split(s, sep), [sep]) == "" + [sep] + Join(rest, [sep]);
      } else {
        var parts := [[s[0]] + rest[0]] + rest[1..];
        assert Split(s, sep) == parts;
        if |rest| == 1 {
          assert Join(parts, [sep]) == [s[0]] + rest[0];
        } else {
          assert parts[1..] == rest[1..];
          assert Join(rest, [sep]) == rest[0] + [sep] + Join(rest[1..], [sep]);
          assert Join(parts, [sep]) == [s[0]] + rest[0] + [sep] + Join(rest[1..], [sep]);
        }
        assert s == [s[0]] + s[1..];
      }
    }
  }

  /** A piece without the separator, followed by anything: the piece is glued
      to the front of the first piece of the rest. */
  lemma {:induction false} SplitPrefix(a: string, t: string, sep: char)
    requires sep !in a
    ensures Split(a + t, sep) == [a + Split(t, sep)[0]] + Split(t, sep)[1..]
    decreases |a|
  {
    if a != [] {
      var st := Split(t, sep);
      SplitPrefix(a[1..], t, sep);
      var rest := Split(a[1..] + t, sep);
      assert rest == [a[1..] + st[0]] + st[1..];
      assert a + t == [a[0]] + (a[1..] + t);
      SplitCons(a[0], a[1..] + t, sep);
      assert rest[0] == a[1..] + st[0] && rest[1..] == st[1..];
      assert [a[0]] + (a[1..] + st[0]) == a + st[0];
    } else {
      var st := Split(t, sep);
      assert a + t == t && a + st[0] == st[0];
      assert st == [st[0]] + st[1..];
    }
  }

  /** A character other than the separator joins the first piece. */
  lemma SplitCons(c: char, s: string, sep: char)
    requires c != sep
    ensures Split([c] + s, sep) == [[c] + Split(s, sep)[0]] + Split(s, sep)[1..]
  {
    assert ([c] + s)[1..] == s;
  }

  /** Joining pieces that do not contain the separator and splitting again
      gives the pieces back. */
  lemma {:induction false} SplitJoin(parts: seq<string>, sep: char)
    requires parts != []
    requires forall k :: 0 <= k < |parts| ==> sep !in parts[k]
    ensures Split(Join(parts, [sep]), sep) == parts
    decreases |parts|
  {
    if |parts| == 1 {
      SplitPrefix(parts[0], "", sep);
      assert parts[0] + "" == parts[0];
    } else {
      var rest := Join(parts[1..], [sep]);
      SplitJoin(parts[1..], sep);
      assert Join(parts, [sep]) == parts[0] + ([sep] + rest);
      SplitPrefix(parts[0], [sep] + rest, sep);
      assert ([sep] + rest)[1..] == rest;
      assert Split([sep] + rest, sep) == [""] + parts[1..];
      assert parts[0] + "" == parts[0];
    }
  }

  /** Joining one piece onto a list: the separator sits between the old join and the new piece. */
  lemma {:induction false} JoinSnoc(parts: seq<string>, p: string, sep: string)
    requires parts != []
    ensures Join(parts + [p], sep) == Join(parts, sep) + sep + p
    decreases |parts|
  {
    if |parts| == 1 {
      assert parts + [p] == [parts[0], p];
    } else {
      assert (parts + [p])[1..] == parts[1..] + [p];
      JoinSnoc(parts[1..], p, sep);
    }
  }

  /** The characters ECMAScript's `trim` removes: the WhiteSpace and
      LineTerminator code points (tab, line tab, form feed, space, no-break
      space, the Unicode space separators, the byte order mark, line feed,
      carriage return, line and paragraph separators). */
  const WHITESPACE: seq<char> := [
    '\t', '\U{B}', '\U{C}', ' ', '\U{A0}', '\U{FEFF}',
    '\U{1680}', '\U{2000}', '\U{2001}', '\U{2002}', '\U{2003}', '\U{2004}', '\U{2005}',
    '\U{2006}', '\U{2007}', '\U{2008}', '\U{2009}', '\U{200A}', '\U{202F}', '\U{205F}', '\U{3000}',
    '\n', '\r', '\U{2028}', '\U{2029}']

  predicate IsWhitespace(c: char) {
    c in WHITESPACE
  }

  /** `s.trimStart()`: the longest suffix of `s` that does not start with whitespace. */
  function TrimStart(s: string): (r: string)
    ensures |r| <= |s| && r == s[|s| - |r|..]
    ensures forall k :: 0 <= k < |s| - |r| ==> IsWhitespace(s[k])
    ensures r != [] ==> !IsWhitespace(r[0])
  {
    if s != [] && IsWhitespace(s[0]) then TrimStart(s[1..]) else s
  }

  /** `s.trimEnd()`: the longest prefix of `s` that does not end with whitespace. */
  function TrimEnd(s: string): (r: string)
    ensures |r| <= |s| && r == s[..|r|]
    ensures forall k :: |r| <= k < |s| ==> IsWhitespace(s[k])
    ensures r != [] ==> !IsWhitespace(r[|r| - 1])
  {
    if s != [] && IsWhitespace(s[|s| - 1]) then TrimEnd(s[..|s| - 1]) else s
  }

  /** The number of whitespace characters `s` starts with. */
  function Lead(s: string): (n: nat)
    ensures n <= |s|
    ensures forall k :: 0 <= k < n ==> IsWhitespace(s[k])
    ensures n < |s| ==> !IsWhitespace(s[n])
  {
    if s != [] && IsWhitespace(s[0]) then 1 + Lead(s[1..]) else 0
  }

  /** `s.trim()`. */
  function Trim(s: string): (r: string)
    ensures |r| <= |s|
    ensures r != [] ==> !IsWhitespace(r[0]) && !IsWhitespace(r[|r| - 1])
  {
    TrimEnd(TrimStart(s))
  }

  /** `trim` removes exactly the leading and trailing whitespace: after the
      `Lead(s)` leading whitespace characters, the result is a prefix of the
      rest of `s` followed only by whitespace, and it neither starts nor ends
      with whitespace. */
  lemma TrimExact(s: string)
    ensures var rest, r := s[Lead(s)..], Trim(s);
      && |r| <= |rest| && r == rest[..|r|]
      && (forall k :: |r| <= k < |rest| ==> IsWhitespace(rest[k]))
      && (r != [] ==> !IsWhitespace(r[0]) && !IsWhitespace(r[|r| - 1]))
  {
    TrimStartDropsLead(s);
  }

  /** `trimStart` drops exactly the leading whitespace. */
  lemma {:induction false} TrimStartDropsLead(s: string)
    ensures TrimStart(s) == s[Lead(s)..]
  {
    if s != [] && IsWhitespace(s[0]) {
      TrimStartDropsLead(s[1..]);
    }
  }

  /** `trim` only removes characters: what is not in `s` is not in `s.trim()`. */
  lemma TrimKeepsOut(s: string, c: char)
    requires c !in s
    ensures c !in Trim(s)
  {
    var t := TrimStart(s);
    SliceKeepsOut(s, |s| - |t|, |s|, c);
    SliceKeepsOut(t, 0, |TrimEnd(t)|, c);
  }

  /** A character missing from a string is missing from each of its slices. */
  lemma SliceKeepsOut(s: string, i: int, j: int, c: char)
    requires 0 <= i <= j <= |s| && c !in s
    ensures c !in s[i..j]
  {
    forall k | 0 <= k < j - i
      ensures s[i..j][k] != c
    {
      assert s[i..j][k] == s[i + k];
    }
  }

  /** `s.startsWith(prefix)`. */
  predicate StartsWith(s: string, prefix: string) {
    |prefix| <= |s| && s[..|prefix|] == prefix
  }

  /** The ASCII digit for `d`. */
  function Digit(d: nat): char
    requires d < 10
  {
    "0123456789"[d]
  }

  /** `n.toString()` for a non-negative integer: its decimal digits, no sign, no leading zero. */
  function Decimal(n: nat): (r: string)
    ensures |r| >= 1
    ensures forall k :: 0 <= k < |r| ==> '0' <= r[k] <= '9'
    ensures |r| > 1 ==> r[0] != '0'
  {
    if n < 10 then [Digit(n)] else Decimal(n / 10) + [Digit(n % 10)]
  }

  /** `n.toString()` for any integer: a minus sign before the digits of a negative number. */
  function IntString(n: int): (r: string)
    ensures |r| >= 1 && (r[0] == '-' <==> n < 0)
    ensures n < 0 ==> |r| >= 2
    ensures forall k :: (if n < 0 then 1 else 0) <= k < |r| ==> '0' <= r[k] <= '9'
  {
    if n >= 0 then Decimal(n) else "-" + Decimal(-n)
  }

  /** Reads an optionally signed string of decimal digits back as a number. */
  function ParseInt(s: string): int
    requires forall k :: (if s != [] && s[0] == '-' then 1 else 0) <= k < |s| ==> '0' <= s[k] <= '9'
  {
    if s != [] && s[0] == '-' then
      assert forall k :: 0 <= k < |s| - 1 ==> s[1..][k] == s[k + 1];
      0 - ParseDecimal(s[1..]) as int
    else ParseDecimal(s)
  }

  /** `toString` loses no information on any integer: parsing it gives the number back. */
  lemma IntStringRoundTrip(n: int)
    ensures ParseInt(IntString(n)) == n
  {
    if n >= 0 {
      ParseDecimalOfDecimal(n);
    } else {
      ParseDecimalOfDecimal(-n);
      assert IntString(n)[1..] == Decimal(-n);
    }
  }

  /** Reads a string of decimal digits back as a number. */
  function ParseDecimal(s: string): nat
    requires forall k :: 0 <= k < |s| ==> '0' <= s[k] <= '9'
  {
    if s == [] then 0
    else ParseDecimal(s[..|s| - 1]) * 10 + (s[|s| - 1] as int - '0' as int)
  }

  /** `Decimal` loses no information: reading its digits back gives the number. */
  lemma {:induction false} ParseDecimalOfDecimal(n: nat)
    ensures ParseDecimal(Decimal(n)) == n
  {
    if n >= 10 {
      var r := Decimal(n);
      assert r[..|r| - 1] == Decimal(n / 10);
      ParseDecimalOfDecimal(n / 10);
    }
  }
}
