/** Python string operations the core relies on, written as functions on `seq<char>`. */
module Text {
  import opened Wrappers

  /** `sep.join(parts)`. */
  function Join(sep: string, parts: seq<string>): string
    decreases |parts|
  {
    if |parts| == 0 then ""
    else if |parts| == 1 then parts[0]
    else parts[0] + sep + Join(sep, parts[1..])
  }

  /** Joining two parts puts the separator between them. */
  lemma JoinTwo(sep: string, a: string, b: string)
    ensures Join(sep, [a, b]) == a + sep + b
  {
    assert [a, b][1..] == [b];
  }

  /** Number of occurrences of `c` in `s`. */
  function Count(s: string, c: char): nat
  {
    if |s| == 0 then 0 else (if s[0] == c then 1 else 0) + Count(s[1..], c)
  }

  lemma {:induction false} CountAppend(a: string, b: string, c: char)
    ensures Count(a + b, c) == Count(a, c) + Count(b, c)
  {
    if |a| > 0 {
      assert (a + b)[1..] == a[1..] + b;
      CountAppend(a[1..], b, c);
    } else {
      assert a + b == b;
    }
  }

  lemma {:induction false} CountAbsent(s: string, c: char)
    requires c !in s
    ensures Count(s, c) == 0
  {
    if |s| > 0 {
      assert c !in s[1..] by { assert forall k :: 0 <= k < |s[1..]| ==> s[1..][k] == s[k + 1]; }
      CountAbsent(s[1..], c);
    }
  }

  /** A character absent from the separator and from every part is absent from the join. */
  lemma {:induction false} JoinExcludes(sep: string, parts: seq<string>, c: char)
    requires c !in sep
    requires forall i :: 0 <= i < |parts| ==> c !in parts[i]
    ensures c !in Join(sep, parts)
    decreases |parts|
  {
    if |parts| > 1 {
      JoinExcludes(sep, parts[1..], c);
    }
  }

  /**
   * Joining `k > 0` parts that do not contain `c` with the one-character
   * separator `[c]` yields exactly `k - 1` occurrences of `c`.
   */
  lemma {:induction false} JoinCountsSeparators(c: char, parts: seq<string>)
    requires |parts| > 0
    requires forall i :: 0 <= i < |parts| ==> c !in parts[i]
    ensures Count(Join([c], parts), c) == |parts| - 1
    decreases |parts|
  {
    if |parts| == 1 {
      CountAbsent(parts[0], c);
    } else {
      JoinCountsSeparators(c, parts[1..]);
      CountAbsent(parts[0], c);
      CountAppend(parts[0] + [c], Join([c], parts[1..]), c);
      CountAppend(parts[0], [c], c);
    }
  }

  /** The decimal digit for `d`. */
  function DigitChar(d: nat): (c: char)
    requires d < 10
    ensures '0' <= c <= '9'
  {
    "0123456789"[d]
  }

  function DigitValue(c: char): nat
    requires '0' <= c <= '9'
  {
    (c as int - '0' as int) as nat
  }

  /** `str(n)` for a non-negative Python int. */
  function NatToString(n: nat): string
    decreases n
  {
    if n < 10 then [DigitChar(n)] else NatToString(n / 10) + [DigitChar(n % 10)]
  }

  /** `str(i)` for a Python int: an optional minus sign followed by the decimal digits. */
  function IntToString(i: int): string
  {
    if i < 0 then "-" + NatToString(-i) else NatToString(i)
  }

  predicate IsDigits(s: string)
  {
    forall k :: 0 <= k < |s| ==> '0' <= s[k] <= '9'
  }

  /** Reads a string of decimal digits back as a number. */
  function ParseDigits(s: string): nat
    requires IsDigits(s)
    decreases |s|
  {
    if |s| == 0 then 0 else ParseDigits(s[..|s| - 1]) * 10 + DigitValue(s[|s| - 1])
  }

  /**
   * `str(n)` is a non-empty digit string with no leading zero (except for 0
   * itself), and reading it back gives `n`, so the rendering loses nothing.
   */
  lemma {:induction false} NatToStringRoundTrip(n: nat)
    ensures |NatToString(n)| > 0 && IsDigits(NatToString(n))
    ensures NatToString(n)[0] == '0' <==> n == 0
    ensures ParseDigits(NatToString(n)) == n
    decreases n
  {
    var s := NatToString(n);
    if n >= 10 {
      NatToStringRoundTrip(n / 10);
      var p := NatToString(n / 10);
      assert s == p + [DigitChar(n % 10)];
      assert s[..|s| - 1] == p;
      assert DigitValue(DigitChar(n % 10)) == n % 10 by {
        assert "0123456789"[n % 10] as int - '0' as int == n % 10;
      }
    } else {
      assert DigitValue(DigitChar(n)) == n by {
        assert "0123456789"[n] as int - '0' as int == n;
      }
      assert s[..0] == [];
    }
  }

  /** A rendered integer never contains a character other than digits and `-`. */
  lemma IntToStringExcludes(i: int, c: char)
    requires c != '-' && !('0' <= c <= '9')
    ensures c !in IntToString(i)
  {
    if i < 0 {
      NatToStringRoundTrip(-i);
    } else {
      NatToStringRoundTrip(i);
    }
  }

  /** `str(i)` starts with `-` exactly for a negative `i`, and the rest is `str(abs(i))`. */
  lemma IntToStringSign(i: int)
    ensures |IntToString(i)| > 0 && (IntToString(i)[0] == '-' <==> i < 0)
    ensures i < 0 ==> IntToString(i)[1..] == NatToString(-i)
  {
    if i < 0 {
      NatToStringRoundTrip(-i);
      assert ("-" + NatToString(-i))[1..] == NatToString(-i);
    } else {
      NatToStringRoundTrip(i);
      assert '0' <= NatToString(i)[0] <= '9';
    }
  }

  /** The digits of `|n|` determine `n`. */
  lemma NatToStringInjective(m: nat, n: nat)
    requires NatToString(m) == NatToString(n)
    ensures m == n
  {
    NatToStringRoundTrip(m);
    NatToStringRoundTrip(n);
  }

  /** Distinct integers render to distinct strings. */
  lemma IntToStringInjective(i: int, j: int)
    requires IntToString(i) == IntToString(j)
    ensures i == j
  {
    IntToStringSign(i);
    IntToStringSign(j);
    if i < 0 {
      NatToStringInjective(-i, -j);
    } else {
      NatToStringInjective(i, j);
    }
  }

  /** `s.replace(c, "")`: every `c` deleted. */
  function RemoveChar(s: string, c: char): string
  {
    if |s| == 0 then "" else (if s[0] == c then "" else [s[0]]) + RemoveChar(s[1..], c)
  }

  /** `s.replace(a, b)` for single characters `a` and `b`. */
  function ReplaceChar(s: string, a: char, b: char): string
  {
    if |s| == 0 then "" else [if s[0] == a then b else s[0]] + ReplaceChar(s[1..], a, b)
  }

  /** Replacing `a` by a different character leaves no `a` and keeps the length. */
  lemma {:induction false} ReplaceCharRemoves(s: string, a: char, b: char)
    requires a != b
    ensures a !in ReplaceChar(s, a, b)
    ensures |ReplaceChar(s, a, b)| == |s|
  {
    if |s| > 0 {
      ReplaceCharRemoves(s[1..], a, b);
    }
  }

  /** `s.split(c)[0]`: the part of `s` before the first `c`, or all of `s`. */
  function Before(s: string, c: char): (r: string)
    ensures |r| <= |s| && r == s[..|r|]
    ensures c !in r
    ensures |r| < |s| ==> s[|r|] == c
  {
    if |s| == 0 then "" else if s[0] == c then "" else [s[0]] + Before(s[1..], c)
  }

  /** A string without `c` is its own first split field. */
  lemma {:induction false} BeforeAbsent(s: string, c: char)
    requires c !in s
    ensures Before(s, c) == s
  {
    if |s| > 0 {
      assert c !in s[1..] by { assert forall k :: 0 <= k < |s[1..]| ==> s[1..][k] == s[k + 1]; }
      BeforeAbsent(s[1..], c);
    }
  }

  // ----------------------------------------------------------------- repr

  /**
   * Whether `repr` shows `c` unescaped: the printable characters of the
   * Latin-1 range, and every character above it.
   */
  predicate Printable(c: char)
  {
    (' ' as int <= c as int < 0x7f) || (0xa1 <= c as int && c as int != 0xad)
  }

  /** The quote `repr` puts around `s`: `"` when `s` holds a `'` and no `"`, otherwise `'`. */
  function QuoteChar(s: string): char
  {
    if '\'' in s && '"' !in s then '"' else '\''
  }

  function HexDigit(n: int): char
    requires 0 <= n < 16
  {
    if n < 10 then ('0' as int + n) as char else ('a' as int + n - 10) as char
  }

  /** The value of a lower-case hex digit, or -1. */
  function HexValue(c: char): (v: int)
    ensures -1 <= v < 16
    ensures v >= 0 ==> HexDigit(v) == c
  {
    if '0' <= c <= '9' then c as int - '0' as int
    else if 'a' <= c <= 'f' then c as int - 'a' as int + 10
    else -1
  }

  /** How `repr` writes `c` between the quotes `q`. */
  function EscapeChar(c: char, q: char): string
  {
    if c == '\\' || c == q then ['\\', c]
    else if c == '\t' then "\\t"
    else if c == '\n' then "\\n"
    else if c == '\r' then "\\r"
    else if !Printable(c) then ['\\', 'x', HexDigit(c as int / 16), HexDigit(c as int % 16)]
    else [c]
  }

  function Escape(s: string, q: char): string
    decreases |s|
  {
    if |s| == 0 then "" else EscapeChar(s[0], q) + Escape(s[1..], q)
  }

  /** `repr(s)`: `s` escaped and put between the quotes `QuoteChar(s)` chooses. */
  function Quote(s: string): (r: string)
    ensures |r| >= |s| + 2 && r[0] == QuoteChar(s) && r[|r| - 1] == QuoteChar(s)
  {
    EscapeLength(s, QuoteChar(s));
    [QuoteChar(s)] + Escape(s, QuoteChar(s)) + [QuoteChar(s)]
  }

  lemma {:induction false} EscapeLength(s: string, q: char)
    ensures |Escape(s, q)| >= |s|
  {
    if |s| > 0 {
      EscapeLength(s[1..], q);
    }
  }

  function Prepend(c: char, o: Option<string>): Option<string>
  {
    match o
    case None => None
    case Some(t) => Some([c] + t)
  }

  /** Reads back the text between the quotes of a `repr`; `None` for a dangling or unknown escape. */
  function Unescape(t: string): Option<string>
    decreases |t|
  {
    if |t| == 0 then Some("")
    else if t[0] != '\\' then Prepend(t[0], Unescape(t[1..]))
    else if |t| < 2 then None
    else if t[1] == 't' then Prepend('\t', Unescape(t[2..]))
    else if t[1] == 'n' then Prepend('\n', Unescape(t[2..]))
    else if t[1] == 'r' then Prepend('\r', Unescape(t[2..]))
    else if t[1] == 'x' then
      if |t| < 4 || HexValue(t[2]) < 0 || HexValue(t[3]) < 0 then None
      else Prepend((HexValue(t[2]) * 16 + HexValue(t[3])) as char, Unescape(t[4..]))
    else if t[1] == '\\' || t[1] == '\'' || t[1] == '"' then Prepend(t[1], Unescape(t[2..]))
    else None
  }

  /** Reads back a `repr`: the text between two equal quotes, unescaped. */
  function Unquote(r: string): Option<string>
  {
    if |r| >= 2 && (r[0] == '\'' || r[0] == '"') && r[|r| - 1] == r[0] then Unescape(r[1..|r| - 1]) else None
  }

  /** Reading back one escaped character. */
  lemma UnescapeChar(c: char, q: char, t: string)
    requires q == '\'' || q == '"'
    ensures Unescape(EscapeChar(c, q) + t) == Prepend(c, Unescape(t))
  {
    var e := EscapeChar(c, q);
    if c == '\\' || c == q || c == '\t' || c == '\n' || c == '\r' {
      assert (e + t)[2..] == t;
    } else if !Printable(c) {
      var hi, lo := c as int / 16, c as int % 16;
      assert HexValue(HexDigit(hi)) == hi && HexValue(HexDigit(lo)) == lo;
      assert (e + t)[4..] == t;
    } else {
      assert (e + t)[1..] == t;
    }
  }

  lemma {:induction false} UnescapeEscape(s: string, q: char)
    requires q == '\'' || q == '"'
    ensures Unescape(Escape(s, q)) == Some(s)
  {
    if |s| > 0 {
      UnescapeEscape(s[1..], q);
      UnescapeChar(s[0], q, Escape(s[1..], q));
      assert [s[0]] + s[1..] == s;
    }
  }

  /** Reading back a `repr` gives the original string. */
  lemma QuoteRoundTrip(s: string)
    ensures Unquote(Quote(s)) == Some(s)
  {
    var q := QuoteChar(s);
    assert Quote(s)[1..|Quote(s)| - 1] == Escape(s, q);
    UnescapeEscape(s, q);
  }

  /** A string of printable characters without `'` or a backslash is shown as it is, in single quotes. */
  lemma QuotePlain(s: string)
    requires forall i :: 0 <= i < |s| ==> Printable(s[i]) && s[i] != '\'' && s[i] != '\\'
    ensures Quote(s) == "'" + s + "'"
  {
    assert QuoteChar(s) == '\'';
    EscapePlain(s);
  }

  lemma {:induction false} EscapePlain(s: string)
    requires forall i :: 0 <= i < |s| ==> Printable(s[i]) && s[i] != '\'' && s[i] != '\\'
    ensures Escape(s, '\'') == s
  {
    if |s| > 0 {
      EscapePlain(s[1..]);
      assert [s[0]] + s[1..] == s;
    }
  }

  /**
   * `os.path.join(a, b)` on POSIX for a relative `b`: `a` followed by `b`,
   * with one `/` between them unless `a` is empty or already ends in one.
   */
  function PathJoin(a: string, b: string): (r: string)
    requires |b| == 0 || b[0] != '/'
    ensures |r| == |a| + |b| + (if |a| == 0 || a[|a| - 1] == '/' then 0 else 1)
    ensures r[..|a|] == a && r[|r| - |b|..] == b
    ensures |r| > |a| + |b| ==> r[|a|] == '/'
  {
    if |a| == 0 then b else if a[|a| - 1] == '/' then a + b else a + "/" + b
  }
}
