/**
  Stand-ins for the parts of Go's `strings` and `fmt` packages that the
  routing pipeline relies on: splitting on a one-character separator,
  joining, whitespace trimming and decimal rendering of integers.
  Strings are sequences of characters.
 */
module Text {

  /** Go's strings.Split(s, sep) for a one-character separator: the pieces of
      `s` between occurrences of `sep`, always at least one (possibly empty) piece. */
  function Split(s: string, sep: char): (parts: seq<string>)
    ensures |parts| >= 1
    decreases |s|
  {
    if |s| == 0 then [""]
    else
      var rest := Split(s[1..], sep);
      if s[0] == sep then [""] + rest
      else [[s[0]] + rest[0]] + rest[1..]
  }

  /** Go's strings.Join(parts, sep) for a one-character separator. */
  function Join(parts: seq<string>, sep: char): string
  {
    if |parts| == 0 then ""
    else if |parts| == 1 then parts[0]
    else parts[0] + [sep] + Join(parts[1..], sep)
  }

  /** Joining a first piece onto at least one more puts one separator between them. */
  lemma JoinCons(first: string, rest: seq<string>, sep: char)
    requires |rest| >= 1
    ensures Join([first] + rest, sep) == first + [sep] + Join(rest, sep)
  {
    assert ([first] + rest)[1..] == rest;
  }

  /** Number of occurrences of `c` in `s`. */
  function Count(s: string, c: char): nat
  {
    if |s| == 0 then 0 else (if s[0] == c then 1 else 0) + Count(s[1..], c)
  }

  /** Joining the pieces of a split restores the original string. */
  lemma {:induction false} JoinSplit(s: string, sep: char)
    ensures Join(Split(s, sep), sep) == s
  {
    if |s| > 0 {
      var rest := Split(s[1..], sep);
      JoinSplit(s[1..], sep);
      if s[0] == sep {
        assert Split(s, sep) == [""] + rest;
        assert ([""] + rest)[1..] == rest;
      } else if |rest| == 1 {
        assert Split(s, sep) == [[s[0]] + rest[0]];
      } else {
        assert Split(s, sep) == [[s[0]] + rest[0]] + rest[1..];
        assert ([[s[0]] + rest[0]] + rest[1..])[1..] == rest[1..];
        assert s == [s[0]] + s[1..];
      }
    }
  }

  /** A split yields one more piece than there are separators. */
  lemma {:induction false} SplitCount(s: string, sep: char)
    ensures |Split(s, sep)| == Count(s, sep) + 1
  {
    if |s| > 0 {
      SplitCount(s[1..], sep);
    }
  }

  /** No piece of a split contains the separator. */
  lemma {:induction false} SplitPiecesSepFree(s: string, sep: char)
    ensures forall i :: 0 <= i < |Split(s, sep)| ==> sep !in Split(s, sep)[i]
  {
    if |s| > 0 {
      var rest := Split(s[1..], sep);
      SplitPiecesSepFree(s[1..], sep);
      if s[0] != sep {
        var parts := Split(s, sep);
        assert parts == [[s[0]] + rest[0]] + rest[1..];
        forall i | 0 <= i < |parts| ensures sep !in parts[i] {
          if i == 0 {
            assert sep !in rest[0];
          } else {
            assert parts[i] == rest[i];
          }
        }
      }
    }
  }

  /** The first piece of a split is the text of `s` before its first separator. */
  lemma {:induction false} SplitFirstPiece(s: string, sep: char)
    ensures var h := Split(s, sep)[0];
            sep !in h && h <= s && (|h| < |s| ==> s[|h|] == sep)
  {
    if |s| > 0 && s[0] != sep {
      SplitFirstPiece(s[1..], sep);
      var r := Split(s[1..], sep)[0];
      assert Split(s, sep)[0] == [s[0]] + r;
    }
  }

  /** A string without the separator splits into itself alone. */
  lemma {:induction false} SplitSepFree(s: string, sep: char)
    requires sep !in s
    ensures Split(s, sep) == [s]
  {
    if |s| > 0 {
      SplitSepFree(s[1..], sep);
      assert [s[0]] + s[1..] == s;
    }
  }

  /** Splitting `a + sep + b`, where `a` has no separator, yields `a` followed by the pieces of `b`. */
  lemma {:induction false} SplitAfterFirst(a: string, b: string, sep: char)
    requires sep !in a
    ensures Split(a + [sep] + b, sep) == [a] + Split(b, sep)
  {
    var s := a + [sep] + b;
    if |a| == 0 {
      assert s[0] == sep && s[1..] == b;
    } else {
      assert s[0] == a[0] && s[1..] == a[1..] + [sep] + b;
      SplitAfterFirst(a[1..], b, sep);
      assert [a[0]] + a[1..] == a;
    }
  }

  /** Splitting a join of separator-free pieces gives the pieces back. */
  lemma {:induction false} SplitJoin(parts: seq<string>, sep: char)
    requires |parts| >= 1
    requires forall i :: 0 <= i < |parts| ==> sep !in parts[i]
    ensures Split(Join(parts, sep), sep) == parts
  {
    if |parts| == 1 {
      SplitSepFree(parts[0], sep);
    } else {
      SplitJoin(parts[1..], sep);
      SplitAfterFirst(parts[0], Join(parts[1..], sep), sep);
      assert [parts[0]] + parts[1..] == parts;
    }
  }

  /** Go's unicode.IsSpace: the Unicode White_Space characters. */
  predicate IsSpace(c: char)
  {
    || c == ' ' || c == '\t' || c == '\n' || c == '\r'
    || c == '\U{000B}' || c == '\U{000C}' || c == '\U{0085}' || c == '\U{00A0}'
    || c == '\U{1680}' || ('\U{2000}' <= c <= '\U{200A}')
    || c == '\U{2028}' || c == '\U{2029}' || c == '\U{202F}' || c == '\U{205F}' || c == '\U{3000}'
  }

  /** Every character of `s` from index `lo` up to (not including) `hi` is white space. */
  predicate SpaceBetween(s: string, lo: int, hi: int)
  {
    forall j :: lo <= j < hi && 0 <= j < |s| ==> IsSpace(s[j])
  }

  /** Drops leading white space: the result is the suffix of `s` that starts at its first non-space. */
  function TrimLeft(s: string): (r: string)
    ensures |r| <= |s| && r == s[|s| - |r|..]
    ensures SpaceBetween(s, 0, |s| - |r|)
    ensures r != [] ==> !IsSpace(r[0])
  {
    if |s| > 0 && IsSpace(s[0]) then TrimLeft(s[1..]) else s
  }

  /** Drops trailing white space: the result is the prefix of `s` that ends at its last non-space. */
  function TrimRight(s: string): (r: string)
    ensures |r| <= |s| && r == s[..|r|]
    ensures SpaceBetween(s, |r|, |s|)
    ensures r != [] ==> !IsSpace(r[|r| - 1])
  {
    if |s| > 0 && IsSpace(s[|s| - 1]) then TrimRight(s[..|s| - 1]) else s
  }

  /** Number of white-space characters that open `s`. */
  function LeadingSpace(s: string): nat
  {
    |s| - |TrimLeft(s)|
  }

  /** Go's strings.TrimSpace. */
  function TrimSpace(s: string): string
  {
    TrimRight(TrimLeft(s))
  }

  /** TrimSpace keeps a contiguous stretch of `s`: the characters that follow its leading white space. */
  lemma TrimSpaceInfix(s: string)
    ensures var r, k := TrimSpace(s), LeadingSpace(s);
            k + |r| <= |s| && r == s[k..k + |r|]
  {
    var l := TrimLeft(s);
    assert l == s[LeadingSpace(s)..];
  }

  /** What TrimSpace removes is white space, at the front and at the back of `s`. */
  lemma TrimSpaceRemovesSpace(s: string)
    ensures var r, k := TrimSpace(s), LeadingSpace(s);
            SpaceBetween(s, 0, k) && SpaceBetween(s, k + |r|, |s|)
  {
    var l, k := TrimLeft(s), LeadingSpace(s);
    var r := TrimRight(l);
    assert SpaceBetween(s, k + |r|, |s|) by {
      assert forall j :: k + |r| <= j < |s| ==> s[j] == l[j - k];
    }
  }

  /** The result of TrimSpace neither starts nor ends with white space. */
  lemma TrimSpaceEnds(s: string)
    ensures var r := TrimSpace(s);
            r != [] ==> !IsSpace(r[0]) && !IsSpace(r[|r| - 1])
  {
    var l := TrimLeft(s);
    var r := TrimRight(l);
    if r != [] {
      assert r[0] == l[0];
    }
  }

  function DigitChar(d: int): (c: char)
    requires 0 <= d < 10
    ensures '0' <= c <= '9' && c as int - '0' as int == d
  {
    ('0' as int + d) as char
  }

  predicate AllDigits(s: string)
  {
    forall k :: 0 <= k < |s| ==> '0' <= s[k] <= '9'
  }

  /** Decimal digits of a natural number, without leading zeros. */
  function NatText(n: nat): (t: string)
    ensures |t| >= 1 && AllDigits(t)
    ensures t[0] == '0' ==> n == 0
  {
    if n < 10 then [DigitChar(n)] else NatText(n / 10) + [DigitChar(n % 10)]
  }

  /** Go's fmt "%d" of an integer: an optional minus sign, then the decimal digits. */
  function IntText(n: int): string
  {
    if n < 0 then "-" + NatText(-n) else NatText(n)
  }

  /** Value of a string of decimal digits. */
  function ParseNat(t: string): nat
    requires AllDigits(t)
  {
    if |t| == 0 then 0 else 10 * ParseNat(t[..|t| - 1]) + (t[|t| - 1] as int - '0' as int)
  }

  /** Value of a decimal integer text with an optional minus sign. */
  function ParseInt(t: string): Option<int>
  {
    if |t| > 0 && t[0] == '-' && AllDigits(t[1..]) then Some(-(ParseNat(t[1..]) as int))
    else if AllDigits(t) then Some(ParseNat(t))
    else None
  }

  /** Reading back the decimal digits of `n` gives `n`. */
  lemma {:induction false} NatTextRoundTrip(n: nat)
    ensures ParseNat(NatText(n)) == n
  {
    if n >= 10 {
      NatTextRoundTrip(n / 10);
      var t := NatText(n);
      assert t[..|t| - 1] == NatText(n / 10);
    }
  }

  /** Reading back "%d" of `n` gives `n`. */
  lemma IntTextRoundTrip(n: int)
    ensures ParseInt(IntText(n)) == Some(n)
  {
    NatTextRoundTrip(if n < 0 then -n else n);
    if n < 0 {
      assert ("-" + NatText(-n))[1..] == NatText(-n);
    }
  }

  /** "%d" renders different integers as different texts. */
  lemma IntTextInjective(m: int, n: int)
    requires IntText(m) == IntText(n)
    ensures m == n
  {
    IntTextRoundTrip(m);
    IntTextRoundTrip(n);
  }

  datatype Option<+T> = None | Some(value: T)
}
