/** The Python string operations the builder uses: split, join, startswith, str(int) and int(str). */
module Text {
  import opened Wrappers

  /** Python's `s.split(sep)`: the pieces between occurrences of `sep`, always at least one. */
  function Split(s: string, sep: char): (r: seq<string>)
    ensures |r| >= 1
    decreases |s|
  {
    if s == [] then [[]]
    else
      var rest := Split(s[1..], sep);
      if s[0] == sep then [[]] + rest else [[s[0]] + rest[0]] + rest[1..]
  }

  /** Python's `sep.join(ps)`. */
  function Join(ps: seq<string>, sep: char): string
  {
    if |ps| == 0 then []
    else if |ps| == 1 then ps[0]
    else ps[0] + [sep] + Join(ps[1..], sep)
  }

  predicate NoSep(p: string, sep: char) { sep !in p }

  lemma {:induction false} SplitPiecesHaveNoSep(s: string, sep: char)
    ensures forall k :: 0 <= k < |Split(s, sep)| ==> NoSep(Split(s, sep)[k], sep)
    decreases |s|
  {
    if s != [] {
      SplitPiecesHaveNoSep(s[1..], sep);
    }
  }

  /** Joining the pieces of a split gives the original string back. */
  lemma {:induction false} JoinSplit(s: string, sep: char)
    ensures Join(Split(s, sep), sep) == s
    decreases |s|
  {
    if s != [] {
      var rest := Split(s[1..], sep);
      JoinSplit(s[1..], sep);
      if s[0] == sep {
        assert Split(s, sep) == [[]] + rest;
        assert ([[]] + rest)[1..] == rest;
      } else {
        var r := Split(s, sep);
        assert r == [[s[0]] + rest[0]] + rest[1..];
        if |rest| == 1 {
          assert r == [[s[0]] + rest[0]];
        } else {
          assert r[1..] == rest[1..];
          assert Join(rest, sep) == rest[0] + [sep] + Join(rest[1..], sep);
        }
      }
    }
  }

  /** Splitting a join of separator-free pieces gives the pieces back. */
  lemma {:induction false} SplitJoin(ps: seq<string>, sep: char)
    requires |ps| >= 1
    requires forall k :: 0 <= k < |ps| ==> NoSep(ps[k], sep)
    ensures Split(Join(ps, sep), sep) == ps
    decreases |ps|
  {
    if |ps| == 1 {
      SplitNoSep(ps[0], sep);
    } else {
      SplitJoin(ps[1..], sep);
      SplitPrefix(ps[0], Join(ps[1..], sep), sep);
      assert [ps[0]] + ps[1..] == ps;
    }
  }

  /** A string without the separator splits into itself. */
  lemma {:induction false} SplitNoSep(p: string, sep: char)
    requires NoSep(p, sep)
    ensures Split(p, sep) == [p]
    decreases |p|
  {
    if p != [] {
      SplitNoSep(p[1..], sep);
      assert [p[0]] + p[1..] == p;
    }
  }

  /** Splitting `p + [sep] + s` with a separator-free `p` puts `p` in front of the pieces of `s`. */
  lemma {:induction false} SplitPrefix(p: string, s: string, sep: char)
    requires NoSep(p, sep)
    ensures Split(p + [sep] + s, sep) == [p] + Split(s, sep)
    decreases |p|
  {
    if p == [] {
      assert p + [sep] + s == [sep] + s;
      assert ([sep] + s)[1..] == s;
    } else {
      var w := p + [sep] + s;
      assert w[1..] == p[1..] + [sep] + s;
      SplitPrefix(p[1..], s, sep);
      assert [p[0]] + p[1..] == p;
    }
  }

  /** Python's `s.startswith(p)`. */
  predicate StartsWith(s: string, p: string)
  {
    |p| <= |s| && s[..|p|] == p
  }

  /** A string with the separator at position 0 < `k` splits into at least two pieces, the first being `s[..k]`. */
  lemma {:induction false} SplitAtFirstSep(s: string, k: nat, sep: char)
    requires k < |s| && s[k] == sep && NoSep(s[..k], sep)
    ensures |Split(s, sep)| >= 2 && Split(s, sep)[0] == s[..k]
  {
    assert s == s[..k] + [sep] + s[k + 1..];
    SplitPrefix(s[..k], s[k + 1..], sep);
  }

  predicate IsDigit(c: char) { '0' <= c <= '9' }

  function DigitValue(c: char): (d: nat)
    requires IsDigit(c)
    ensures d < 10
  {
    (c as int - '0' as int) as nat
  }

  function DigitChar(d: nat): (c: char)
    requires d < 10
    ensures IsDigit(c) && DigitValue(c) == d
  {
    ('0' as int + d) as char
  }

  predicate AllDigits(s: string) { forall k :: 0 <= k < |s| ==> IsDigit(s[k]) }

  /** The value of a string of decimal digits (leading zeros allowed). */
  function DigitsValue(s: string): nat
    requires AllDigits(s)
  {
    if s == [] then 0 else DigitsValue(s[..|s| - 1]) * 10 + DigitValue(s[|s| - 1])
  }

  /** Python's `str(n)` for a non-negative integer: decimal, no leading zeros. */
  function Str(n: nat): (r: string)
    ensures |r| >= 1 && AllDigits(r)
  {
    if n < 10 then [DigitChar(n)] else Str(n / 10) + [DigitChar(n % 10)]
  }

  lemma {:induction false} DigitsValueStr(n: nat)
    ensures DigitsValue(Str(n)) == n
  {
    if n >= 10 {
      var s := Str(n);
      assert s[..|s| - 1] == Str(n / 10);
      DigitsValueStr(n / 10);
    }
  }

  /** `str` is injective: two block indices give the same text only when they are equal. */
  lemma StrInjective(m: nat, n: nat)
    requires Str(m) == Str(n)
    ensures m == n
  {
    DigitsValueStr(m);
    DigitsValueStr(n);
  }

  /** The ASCII characters Python counts as whitespace, which int() ignores around the literal. */
  predicate IsSpace(c: char)
  {
    c == ' ' || c == '\t' || c == '\n' || c == '\r' || c == '\U{B}' || c == '\U{C}' || '\U{1C}' <= c <= '\U{1F}'
  }

  /** The first index from `j` on that is not whitespace (|s| if there is none). */
  function SpanStart(s: string, j: nat): (a: nat)
    requires j <= |s|
    ensures j <= a <= |s| && (a < |s| ==> !IsSpace(s[a]))
    ensures forall k :: j <= k < a ==> IsSpace(s[k])
    decreases |s| - j
  {
    if j < |s| && IsSpace(s[j]) then SpanStart(s, j + 1) else j
  }

  /** The end of `s[lo..hi]` once trailing whitespace is dropped. */
  function SpanEnd(s: string, lo: nat, hi: nat): (b: nat)
    requires lo <= hi <= |s|
    ensures lo <= b <= hi && (b > lo ==> !IsSpace(s[b - 1]))
    ensures forall k :: b <= k < hi ==> IsSpace(s[k])
    decreases hi
  {
    if hi > lo && IsSpace(s[hi - 1]) then SpanEnd(s, lo, hi - 1) else hi
  }

  predicate DigitsIn(s: string, lo: nat, hi: nat)
    requires lo <= hi <= |s|
  {
    forall k :: lo <= k < hi ==> IsDigit(s[k])
  }

  /** The decimal value of the digits `s[lo..hi]`. */
  function ValueIn(s: string, lo: nat, hi: nat): nat
    requires lo <= hi <= |s| && DigitsIn(s, lo, hi)
    decreases hi
  {
    if hi == lo then 0 else ValueIn(s, lo, hi - 1) * 10 + DigitValue(s[hi - 1])
  }

  lemma {:induction false} ValueInSlice(s: string, lo: nat, hi: nat)
    requires lo <= hi <= |s| && DigitsIn(s, lo, hi)
    ensures AllDigits(s[lo..hi]) && ValueIn(s, lo, hi) == DigitsValue(s[lo..hi])
    decreases hi
  {
    if hi > lo {
      ValueInSlice(s, lo, hi - 1);
      assert s[lo..hi][..hi - lo - 1] == s[lo..hi - 1];
    }
  }

  /** Python's `int(s)` for a decimal literal: surrounding whitespace, an optional sign, then one or
      more digits (leading zeros allowed). */
  function ParseInt(s: string): (r: Result<int>)
    ensures r.Err? ==> r.error == ValueError
  {
    var a := SpanStart(s, 0);
    var b := SpanEnd(s, a, |s|);
    if b - a >= 2 && (s[a] == '+' || s[a] == '-') && DigitsIn(s, a + 1, b) then
      var m: int := ValueIn(s, a + 1, b);
      Ok(if s[a] == '-' then -m else m)
    else if b - a >= 1 && DigitsIn(s, a, b) then
      Ok(ValueIn(s, a, b))
    else
      Err(ValueError)
  }

  /** The grammar int() accepts, stated by position: `s[a..b]` is the literal, everything before
      `a` and from `b` on is whitespace, and the literal is one or more digits, optionally after a
      single '+' or '-'. */
  ghost predicate IntLiteral(s: string, a: nat, b: nat)
  {
    a < b <= |s| &&
    (forall k :: 0 <= k < a ==> IsSpace(s[k])) &&
    (forall k :: b <= k < |s| ==> IsSpace(s[k])) &&
    (DigitsIn(s, a, b) || (b - a >= 2 && (s[a] == '+' || s[a] == '-') && DigitsIn(s, a + 1, b)))
  }

  /** The integer a literal at `s[a..b]` denotes. */
  ghost function LiteralValue(s: string, a: nat, b: nat): int
    requires IntLiteral(s, a, b)
  {
    if s[a] == '-' then -(ValueIn(s, a + 1, b) as int)
    else if s[a] == '+' then ValueIn(s, a + 1, b)
    else ValueIn(s, a, b)
  }

  /** int(s) succeeds exactly when `s` holds one literal of the grammar, and then yields its value;
      every other string (blank, a bare sign, an inner blank, a stray character) is a ValueError. */
  lemma ParseIntGrammar(s: string)
    ensures ParseInt(s).Ok? <==> exists a: nat, b: nat :: IntLiteral(s, a, b)
    ensures forall a: nat, b: nat :: IntLiteral(s, a, b) ==> ParseInt(s) == Ok(LiteralValue(s, a, b))
  {
    var a0 := SpanStart(s, 0);
    var b0 := SpanEnd(s, a0, |s|);
    if ParseInt(s).Ok? {
      assert IntLiteral(s, a0, b0);
    }
    forall a: nat, b: nat | IntLiteral(s, a, b) ensures ParseInt(s) == Ok(LiteralValue(s, a, b)) {
      ParseIntAt(s, a, b);
    }
  }

  /** The literal's bounds are the ones ParseInt finds by trimming whitespace. */
  lemma LiteralAtSpan(s: string, a: nat, b: nat)
    requires IntLiteral(s, a, b)
    ensures SpanStart(s, 0) == a && SpanEnd(s, a, |s|) == b
  {
    assert !IsSpace(s[a]) && !IsSpace(s[b - 1]);
    var a0 := SpanStart(s, 0);
    assert a0 == a;
    var b0 := SpanEnd(s, a, |s|);
    assert b0 == b;
  }

  /** Whitespace around the literal and a leading '+' are accepted: int('  +07 ') == 7. */
  lemma ParseIntPaddedPlus(p: string, d: string, q: string)
    requires forall k :: 0 <= k < |p| ==> IsSpace(p[k])
    requires forall k :: 0 <= k < |q| ==> IsSpace(q[k])
    requires |d| >= 1 && AllDigits(d)
    ensures ParseInt(p + ['+'] + d + q) == Ok(DigitsValue(d))
  {
    var s := p + ['+'] + d + q;
    var a, b := |p|, |p| + 1 + |d|;
    PaddedLiteral(p, d, q);
    ParseIntAt(s, a, b);
    ValueInSlice(s, a + 1, b);
    assert s[a + 1..b] == d;
  }

  lemma ParseIntAt(s: string, a: nat, b: nat)
    requires IntLiteral(s, a, b)
    ensures ParseInt(s) == Ok(LiteralValue(s, a, b))
  {
    LiteralAtSpan(s, a, b);
  }

  lemma PaddedLiteral(p: string, d: string, q: string)
    requires forall k :: 0 <= k < |p| ==> IsSpace(p[k])
    requires forall k :: 0 <= k < |q| ==> IsSpace(q[k])
    requires |d| >= 1 && AllDigits(d)
    ensures IntLiteral(p + ['+'] + d + q, |p|, |p| + 1 + |d|)
    ensures (p + ['+'] + d + q)[|p|] == '+'
  {
    var s := p + ['+'] + d + q;
    var a, b := |p|, |p| + 1 + |d|;
    assert forall k :: 0 <= k < a ==> s[k] == p[k];
    assert forall k :: b <= k < |s| ==> s[k] == q[k - b];
    assert forall k :: a + 1 <= k < b ==> s[k] == d[k - a - 1];
  }

  /** A character that is neither whitespace, a digit nor a sign makes int() fail ('6x'). */
  lemma ParseIntStrayChar(s: string, k: nat)
    requires k < |s| && !IsSpace(s[k]) && !IsDigit(s[k]) && s[k] != '+' && s[k] != '-'
    ensures ParseInt(s) == Err(ValueError)
  {
    ParseIntGrammar(s);
    assert forall a: nat, b: nat :: IntLiteral(s, a, b) ==> a == k < b;
  }

  /** Whitespace between two non-blank characters makes int() fail ('1 2', '- 1'). */
  lemma ParseIntInnerSpace(s: string, i: nat, j: nat, k: nat)
    requires i < j < k < |s| && !IsSpace(s[i]) && IsSpace(s[j]) && !IsSpace(s[k])
    ensures ParseInt(s) == Err(ValueError)
  {
    ParseIntGrammar(s);
    assert forall a: nat, b: nat :: IntLiteral(s, a, b) ==> a <= i && k < b && IsDigit(s[j]);
  }

  /** A sign anywhere but first makes int() fail ('+-1', '1-'). */
  lemma ParseIntLateSign(s: string, i: nat, k: nat)
    requires i < k < |s| && !IsSpace(s[i]) && (s[k] == '+' || s[k] == '-')
    ensures ParseInt(s) == Err(ValueError)
  {
    ParseIntGrammar(s);
    assert forall a: nat, b: nat :: IntLiteral(s, a, b) ==> a <= i && k < b && IsDigit(s[k]);
  }

  /** Without any digit int() fails: the empty or all-blank string, a bare sign. */
  lemma ParseIntNoDigit(s: string)
    requires forall k :: 0 <= k < |s| ==> !IsDigit(s[k])
    ensures ParseInt(s) == Err(ValueError)
  {
    ParseIntGrammar(s);
  }

  /** A plain run of digits parses to its decimal value. */
  lemma ParseIntDigits(s: string)
    requires |s| >= 1 && AllDigits(s)
    ensures ParseInt(s) == Ok(DigitsValue(s))
  {
    assert IsDigit(s[0]) && IsDigit(s[|s| - 1]);
    assert SpanStart(s, 0) == 0;
    assert SpanEnd(s, 0, |s|) == |s|;
    assert DigitsIn(s, 0, |s|);
    ValueInSlice(s, 0, |s|);
    assert s[0..|s|] == s;
  }

  /** A minus sign followed by a run of digits parses to the negated value. */
  lemma ParseIntMinusDigits(s: string)
    requires |s| >= 2 && s[0] == '-' && AllDigits(s[1..])
    ensures ParseInt(s) == Ok(-(DigitsValue(s[1..]) as int))
  {
    assert !IsSpace(s[0]);
    assert IsDigit(s[1..][|s| - 2]);
    assert SpanStart(s, 0) == 0;
    assert SpanEnd(s, 0, |s|) == |s|;
    assert DigitsIn(s, 1, |s|) by {
      forall k | 1 <= k < |s| ensures IsDigit(s[k]) {
        assert s[k] == s[1..][k - 1];
      }
    }
    ValueInSlice(s, 1, |s|);
    assert s[1..|s|] == s[1..];
  }

  /** int(str(n)) == n. */
  lemma ParseIntStr(n: nat)
    ensures ParseInt(Str(n)) == Ok(n)
  {
    ParseIntDigits(Str(n));
    DigitsValueStr(n);
  }

  /** int('-' + str(n)) == -n. */
  lemma ParseIntNegStr(n: nat)
    ensures ParseInt("-" + Str(n)) == Ok(-(n as int))
  {
    var s := "-" + Str(n);
    assert s[1..] == Str(n);
    ParseIntMinusDigits(s);
    DigitsValueStr(n);
  }
}
