/**
 * The Python `str` operations the converter relies on, stated on `seq<char>`:
 * `strip()`, `lower()`, `in` on strings, `endswith`, `"sep".join(...)` and the
 * substitution `re.sub(r"\n{3,}", "\n\n", s)`.
 */
module Text {

  /** `str.isspace()` for a single code point: exactly the characters `strip()` removes. */
  predicate IsSpace(c: char)
  {
    || ('\t' <= c <= '\r')                   // tab, line feed, vertical tab, form feed, carriage return
    || ('\U{1C}' <= c <= '\U{1F}')           // file, group, record and unit separators
    || c == ' ' || c == '\U{85}' || c == '\U{A0}' || c == '\U{1680}'
    || ('\U{2000}' <= c <= '\U{200A}')
    || c == '\U{2028}' || c == '\U{2029}' || c == '\U{202F}' || c == '\U{205F}' || c == '\U{3000}'
  }

  predicate AllSpace(s: string)
  {
    forall i | 0 <= i < |s| :: IsSpace(s[i])
  }

  /** Number of leading whitespace characters of `s` (what `lstrip()` removes). */
  function LeadingSpace(s: string): (n: nat)
    ensures n <= |s|
    ensures forall i | 0 <= i < n :: IsSpace(s[i])
    ensures n < |s| ==> !IsSpace(s[n])
  {
    if |s| > 0 && IsSpace(s[0]) then 1 + LeadingSpace(s[1..]) else 0
  }

  /** Number of trailing whitespace characters of `s` (what `rstrip()` removes). */
  function TrailingSpace(s: string): (n: nat)
    ensures n <= |s|
    ensures forall i | |s| - n <= i < |s| :: IsSpace(s[i])
    ensures n < |s| ==> !IsSpace(s[|s| - n - 1])
  {
    if |s| > 0 && IsSpace(s[|s| - 1]) then 1 + TrailingSpace(s[..|s| - 1]) else 0
  }

  /** `s` neither starts nor ends with whitespace. */
  predicate IsStripped(s: string)
  {
    s == [] || (!IsSpace(s[0]) && !IsSpace(s[|s| - 1]))
  }

  /**
   * `s.strip()`: the slice of `s` between its leading and its trailing
   * whitespace. The result starts where the leading whitespace ends, only
   * whitespace follows it, it neither starts nor ends with whitespace, and it
   * is empty exactly when `s` is all whitespace.
   */
  function Strip(s: string): (r: string)
    ensures IsStripped(r)
    ensures r == [] <==> AllSpace(s)
    ensures LeadingSpace(s) + |r| <= |s| && r == s[LeadingSpace(s)..LeadingSpace(s) + |r|]
    ensures AllSpace(s[LeadingSpace(s) + |r|..])
  {
    var k := LeadingSpace(s);
    var j := |s| - TrailingSpace(s);
    StripBounds(s, k, j);
    if k == |s| then
      assert s[k..] == [];
      []
    else
      SliceEnds(s, k, j);
      TrailingAllSpace(s, j);
      s[k..j]
  }

  /** The first and last elements of a non-empty slice. */
  lemma SliceEnds<T>(s: seq<T>, k: int, j: int)
    requires 0 <= k < j <= |s|
    ensures s[k..j][0] == s[k] && s[k..j][j - k - 1] == s[j - 1]
  {
  }

  /** What `rstrip()` removes is all whitespace. */
  lemma TrailingAllSpace(s: string, j: int)
    requires j == |s| - TrailingSpace(s)
    ensures AllSpace(s[j..])
  {
    var tail := s[j..];
    forall i | 0 <= i < |tail| ensures IsSpace(tail[i]) {
      assert tail[i] == s[j + i];
    }
  }

  /** The leading and trailing whitespace of a string that is not all whitespace leave a non-empty middle. */
  lemma StripBounds(s: string, k: nat, j: int)
    requires k == LeadingSpace(s) && j == |s| - TrailingSpace(s)
    ensures k == |s| <==> AllSpace(s)
    ensures k < |s| ==> k < j && !IsSpace(s[k]) && !IsSpace(s[j - 1])
  {
    if k < |s| {
      assert !AllSpace(s) by {
        assert !IsSpace(s[k]);
      }
      TrailingBound(s, k, j);
    }
  }

  /** Trailing whitespace ends after any character that is not whitespace. */
  lemma TrailingBound(s: string, k: nat, j: int)
    requires k < |s| && !IsSpace(s[k])
    requires j == |s| - TrailingSpace(s)
    ensures k < j && !IsSpace(s[j - 1])
  {
    assert k < j;
  }

  /** Python's `not s.strip()`: by `Strip`'s contract, `s` is all whitespace. */
  predicate IsBlank(s: string)
  {
    AllSpace(s)
  }

  /** A string already stripped is left as it is; so stripping twice is stripping once. */
  lemma StripKeepsStripped(s: string)
    requires IsStripped(s)
    ensures Strip(s) == s
  {
    if s != [] {
      assert LeadingSpace(s) == 0 && TrailingSpace(s) == 0;
      assert s[0..|s|] == s;
    }
  }

  /** A concatenation is blank exactly when both parts are. */
  lemma BlankConcat(a: string, b: string)
    ensures IsBlank(a + b) <==> IsBlank(a) && IsBlank(b)
  {
    var ab := a + b;
    if AllSpace(a) && AllSpace(b) {
      forall i | 0 <= i < |ab| ensures IsSpace(ab[i]) {
        if i >= |a| { assert ab[i] == b[i - |a|]; }
      }
    }
    if AllSpace(ab) {
      forall i | 0 <= i < |a| ensures IsSpace(a[i]) {
        assert a[i] == ab[i];
      }
      forall i | 0 <= i < |b| ensures IsSpace(b[i]) {
        assert b[i] == ab[|a| + i];
      }
    }
  }

  /** ASCII lower-casing of one character, as `str.lower()` does for A-Z. */
  function LowerChar(c: char): char
  {
    if 'A' <= c <= 'Z' then (c as int + 32) as char else c
  }

  /** `s.lower()` over ASCII letters: same length, each character lowered. */
  function Lower(s: string): (r: string)
    ensures |r| == |s|
    ensures forall i | 0 <= i < |s| :: r[i] == LowerChar(s[i])
  {
    if |s| == 0 then [] else [LowerChar(s[0])] + Lower(s[1..])
  }

  /** Lower-casing is idempotent, so comparing `Lower(x)` is insensitive to case twice over. */
  lemma LowerIdempotent(s: string)
    ensures Lower(Lower(s)) == Lower(s)
  {
  }

  predicate StartsWith(s: string, prefix: string)
  {
    |prefix| <= |s| && s[..|prefix|] == prefix
  }

  /** `s.endswith(suffix)`. */
  predicate EndsWith(s: string, suffix: string)
  {
    |suffix| <= |s| && s[|s| - |suffix|..] == suffix
  }

  /** Python's `sub in s` for strings. */
  predicate Contains(s: string, sub: string)
    decreases |s|
  {
    StartsWith(s, sub) || (|s| > 0 && Contains(s[1..], sub))
  }

  /** `sep.join(parts)`. */
  function Join(parts: seq<string>, sep: string): string
  {
    if |parts| == 0 then ""
    else if |parts| == 1 then parts[0]
    else parts[0] + sep + Join(parts[1..], sep)
  }

  /** Number of elements of `parts` equal to `x`. */
  function CountOf(parts: seq<string>, x: string): nat
  {
    if |parts| == 0 then 0 else (if parts[0] == x then 1 else 0) + CountOf(parts[1..], x)
  }

  lemma {:induction false} CountOfConcat(a: seq<string>, b: seq<string>, x: string)
    ensures CountOf(a + b, x) == CountOf(a, x) + CountOf(b, x)
    decreases |a|
  {
    if |a| > 0 {
      assert (a + b)[1..] == a[1..] + b;
      CountOfConcat(a[1..], b, x);
    } else {
      assert a + b == b;
    }
  }

  /** The decimal digit character for `d`. */
  function DigitChar(d: nat): char
    requires d < 10
  {
    ('0' as int + d) as char
  }

  /** `str(n)` for a natural number: its decimal digits, most significant first. */
  function NatDigits(n: nat): (r: string)
    ensures |r| > 0
    ensures forall i | 0 <= i < |r| :: '0' <= r[i] <= '9'
  {
    if n < 10 then [DigitChar(n)] else NatDigits(n / 10) + [DigitChar(n % 10)]
  }

  /** `str(n)` for an integer: a minus sign before the digits of a negative number. */
  function DecimalString(n: int): string
  {
    if n < 0 then "-" + NatDigits(-n) else NatDigits(n)
  }

  /** The value of a string of decimal digits. */
  function ParseDigits(s: string): int
  {
    if |s| == 0 then 0 else ParseDigits(s[..|s| - 1]) * 10 + (s[|s| - 1] as int - '0' as int)
  }

  /** The value of an optionally signed decimal numeral, as `int(s)` reads it. */
  function ParseDecimal(s: string): int
  {
    if |s| > 0 && s[0] == '-' then -ParseDigits(s[1..]) else ParseDigits(s)
  }

  lemma {:induction false} NatDigitsRoundTrip(n: nat)
    ensures ParseDigits(NatDigits(n)) == n
  {
    if n >= 10 {
      NatDigitsRoundTrip(n / 10);
      var r := NatDigits(n / 10) + [DigitChar(n % 10)];
      assert r[..|r| - 1] == NatDigits(n / 10);
    }
  }

  /** Reading back the decimal text of an integer gives the integer. */
  lemma DecimalRoundTrip(n: int)
    ensures ParseDecimal(DecimalString(n)) == n
  {
    if n < 0 {
      NatDigitsRoundTrip(-n);
      assert ("-" + NatDigits(-n))[1..] == NatDigits(-n);
    } else {
      NatDigitsRoundTrip(n);
    }
  }

  /** The entry placed between pages in the Markdown both heuristics build. */
  const PageSeparator: string := "\n---\n"

  /** Length of the run of line feeds at the start of `s`. */
  function NewlineRun(s: string): (n: nat)
    ensures n <= |s|
    ensures forall i | 0 <= i < n :: s[i] == '\n'
    ensures n < |s| ==> s[n] != '\n'
  {
    if |s| > 0 && s[0] == '\n' then 1 + NewlineRun(s[1..]) else 0
  }

  /** `s` never holds three line feeds in a row. */
  predicate NoTripleNewline(s: string)
  {
    forall i | 0 <= i < |s| - 2 :: !(s[i] == '\n' && s[i + 1] == '\n' && s[i + 2] == '\n')
  }

  /**
   * `re.sub(r"\n{3,}", "\n\n", s)`. The regular-expression engine scans left to
   * right; where a match starts it takes the whole (greedy) run of line feeds,
   * elsewhere it copies one character and moves on.
   *
   * The result never holds three line feeds in a row, and it starts with the
   * same run of line feeds as `s`, capped at two.
   */
  function CollapseNewlines(s: string): (r: string)
    ensures NewlineRun(r) == if NewlineRun(s) >= 3 then 2 else NewlineRun(s)
    ensures NoTripleNewline(r)
    decreases |s|
  {
    if |s| == 0 then ""
    else if NewlineRun(s) >= 3 then "\n\n" + CollapseNewlines(s[NewlineRun(s)..])
    else [s[0]] + CollapseNewlines(s[1..])
  }

  /** `n` line feeds. */
  function Newlines(n: nat): (r: string)
    ensures |r| == n && forall i | 0 <= i < n :: r[i] == '\n'
  {
    seq(n, _ => '\n')
  }

  /**
   * Every run of line feeds is collapsed on its own: a run of three or more
   * becomes exactly two, a shorter run is kept, and the text after the run is
   * collapsed in turn.
   */
  lemma CollapseRun(n: nat, s: string)
    requires s == [] || s[0] != '\n'
    ensures CollapseNewlines(Newlines(n) + s) == Newlines(if n >= 3 then 2 else n) + CollapseNewlines(s)
  {
    var t := Newlines(n) + s;
    assert forall i | 0 <= i < n :: t[i] == '\n';
    assert n < |t| ==> t[n] != '\n';
    assert NewlineRun(t) == n;
    if n >= 3 {
      assert t[n..] == s;
      assert Newlines(2) == "\n\n";
    } else if n == 1 {
      assert t[1..] == s;
      assert Newlines(1) == "\n";
    } else if n == 2 {
      var u := t[1..];
      assert u == Newlines(1) + s;
      assert NewlineRun(u) == 1 && u[1..] == s;
      assert Newlines(2) == "\n" + "\n";
    } else {
      assert t == s;
    }
  }

  /** Any other character is copied as it is, and the collapse carries on after it. */
  lemma CollapseChar(c: char, s: string)
    requires c != '\n'
    ensures CollapseNewlines([c] + s) == [c] + CollapseNewlines(s)
  {
    assert ([c] + s)[1..] == s;
  }

  /** `s` with every line feed removed: the text that collapsing must keep. */
  function DropNewlines(s: string): string
  {
    if |s| == 0 then "" else (if s[0] == '\n' then "" else [s[0]]) + DropNewlines(s[1..])
  }

  lemma {:induction false} DropNewlinesConcat(a: string, b: string)
    ensures DropNewlines(a + b) == DropNewlines(a) + DropNewlines(b)
    decreases |a|
  {
    if |a| > 0 {
      assert (a + b)[1..] == a[1..] + b;
      DropNewlinesConcat(a[1..], b);
    } else {
      assert a + b == b;
    }
  }

  lemma {:induction false} DropLeadingRun(s: string, n: nat)
    requires n <= |s| && forall i | 0 <= i < n :: s[i] == '\n'
    ensures DropNewlines(s) == DropNewlines(s[n..])
    decreases n
  {
    if n > 0 {
      assert s[1..][n - 1..] == s[n..];
      DropLeadingRun(s[1..], n - 1);
    }
  }

  /** Collapsing only touches line feeds: every other character survives, in order. */
  lemma {:induction false} CollapseKeepsText(s: string)
    ensures DropNewlines(CollapseNewlines(s)) == DropNewlines(s)
    decreases |s|
  {
    if |s| > 0 {
      var n := NewlineRun(s);
      if n >= 3 {
        CollapseKeepsText(s[n..]);
        DropNewlinesConcat("\n\n", CollapseNewlines(s[n..]));
        DropLeadingRun(s, n);
      } else {
        CollapseKeepsText(s[1..]);
        DropNewlinesConcat([s[0]], CollapseNewlines(s[1..]));
      }
    }
  }

  /** A string without three line feeds in a row is left as it is. */
  lemma {:induction false} CollapseFixesClean(s: string)
    requires NoTripleNewline(s)
    ensures CollapseNewlines(s) == s
    decreases |s|
  {
    if |s| > 0 {
      assert NoTripleNewline(s[1..]) by {
        forall i | 0 <= i < |s[1..]| - 2
          ensures !(s[1..][i] == '\n' && s[1..][i + 1] == '\n' && s[1..][i + 2] == '\n')
        {
          assert s[1..][i] == s[i + 1];
        }
      }
      CollapseFixesClean(s[1..]);
    }
  }

  /** Collapsing is idempotent, and a string is a fixed point exactly when it has no triple line feed. */
  lemma CollapseIdempotent(s: string)
    ensures CollapseNewlines(CollapseNewlines(s)) == CollapseNewlines(s)
    ensures CollapseNewlines(s) == s <==> NoTripleNewline(s)
  {
    CollapseFixesClean(CollapseNewlines(s));
    if NoTripleNewline(s) {
      CollapseFixesClean(s);
    }
  }
}
