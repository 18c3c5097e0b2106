/**
 * The JavaScript string built-ins the relay relies on, restricted to what it
 * uses: `String.prototype.split` with a one-character separator, `Array.join`,
 * `Number.prototype.toString()` on non-negative integers, `parseInt(s, 10)` on
 * text that starts with decimal digits, and `String.prototype.trim` over ASCII
 * white space.
 */
module Text {
  import opened Wrappers

  /** Number of occurrences of `c` in `s`. */
  function Count(s: string, c: char): nat {
    if s == [] then 0 else (if s[0] == c then 1 else 0) + Count(s[1..], c)
  }

  /** `s.split(sep)`: the pieces between separators; "".split(",") is [""]. */
  function Split(s: string, sep: char): (pieces: seq<string>)
    ensures |pieces| == Count(s, sep) + 1
    ensures forall i :: 0 <= i < |pieces| ==> sep !in pieces[i]
  {
    if s == [] then [""]
    else
      var rest := Split(s[1..], sep);
      if s[0] == sep then [""] + rest
      else [[s[0]] + rest[0]] + rest[1..]
  }

  /** `pieces.join(sep)`. */
  function Join(pieces: seq<string>, sep: char): string {
    if |pieces| == 0 then ""
    else if |pieces| == 1 then pieces[0]
    else pieces[0] + [sep] + Join(pieces[1..], sep)
  }

  lemma JoinConsHead(x: string, pieces: seq<string>, sep: char)
    requires |pieces| >= 1
    ensures Join([x + pieces[0]] + pieces[1..], sep) == x + Join(pieces, sep)
  {
    var p := [x + pieces[0]] + pieces[1..];
    assert p[1..] == pieces[1..];
  }

  /** Joining the pieces of a split gives the text back. */
  lemma {:induction false} JoinSplit(s: string, sep: char)
    ensures Join(Split(s, sep), sep) == s
  {
    if s != [] {
      var rest := Split(s[1..], sep);
      JoinSplit(s[1..], sep);
      if s[0] == sep {
        assert ([""] + rest)[1..] == rest;
        assert s == [s[0]] + s[1..];
      } else {
        JoinConsHead([s[0]], rest, sep);
        assert s == [s[0]] + s[1..];
      }
    }
  }

  /** One step of `Split`: the first character either ends a piece or joins the first one. */
  lemma SplitCons(c: char, t: string, sep: char)
    ensures var rest := Split(t, sep);
      Split([c] + t, sep) == if c == sep then [""] + rest else [[c] + rest[0]] + rest[1..]
  {
    var s := [c] + t;
    assert s[0] == c && s[1..] == t;
  }

  /** Growing the first piece commutes with appending further pieces. */
  lemma ConsPieces(x: string, ra: seq<string>, rb: seq<string>)
    requires |ra| >= 1
    ensures var r := ra + rb; [x + r[0]] + r[1..] == ([x + ra[0]] + ra[1..]) + rb
  {
    var r := ra + rb;
    assert r[0] == ra[0] && r[1..] == ra[1..] + rb;
  }

  /** Splitting at one separator splits the two sides independently. */
  lemma {:induction false} SplitAppend(a: string, b: string, sep: char)
    ensures Split(a + [sep] + b, sep) == Split(a, sep) + Split(b, sep)
  {
    if a == [] {
      assert a + [sep] + b == [sep] + b;
      SplitCons(sep, b, sep);
    } else {
      var c, t := a[0], a[1..] + [sep] + b;
      var ra, rb := Split(a[1..], sep), Split(b, sep);
      calc {
        Split(a + [sep] + b, sep);
      == { assert a + [sep] + b == [c] + t; }
        Split([c] + t, sep);
      == { SplitCons(c, t, sep); SplitAppend(a[1..], b, sep); }
        if c == sep then [""] + (ra + rb) else [[c] + (ra + rb)[0]] + (ra + rb)[1..];
      == { if c != sep { ConsPieces([c], ra, rb); } }
        (if c == sep then [""] + ra else [[c] + ra[0]] + ra[1..]) + rb;
      == { SplitCons(c, a[1..], sep); assert a == [c] + a[1..]; }
        Split(a, sep) + rb;
      }
    }
  }

  /** A text without the separator splits into itself. */
  lemma {:induction false} SplitNoSep(s: string, sep: char)
    requires sep !in s
    ensures Split(s, sep) == [s]
  {
    if s != [] {
      assert sep !in s[1..];
      SplitNoSep(s[1..], sep);
      assert s == [s[0]] + s[1..];
    }
  }

  /** Splitting a join of separator-free pieces gives the pieces back. */
  lemma {:induction false} SplitJoin(pieces: seq<string>, sep: char)
    requires |pieces| >= 1
    requires forall i :: 0 <= i < |pieces| ==> sep !in pieces[i]
    ensures Split(Join(pieces, sep), sep) == pieces
  {
    if |pieces| == 1 {
      SplitNoSep(pieces[0], sep);
    } else {
      SplitJoin(pieces[1..], sep);
      SplitAppend(pieces[0], Join(pieces[1..], sep), sep);
      SplitNoSep(pieces[0], sep);
      assert pieces == [pieces[0]] + pieces[1..];
    }
  }

  /** `c` occurs in `s` exactly when its count is positive. */
  lemma {:induction false} CountPositive(s: string, c: char)
    ensures c in s <==> Count(s, c) > 0
  {
    if s != [] {
      CountPositive(s[1..], c);
      assert s == [s[0]] + s[1..];
    }
  }

  /** A character in front of a text with a separator leaves its last piece alone. */
  lemma SplitConsLast(c: char, t: string, sep: char)
    requires sep in t
    ensures var p, rest := Split([c] + t, sep), Split(t, sep);
      p[|p| - 1] == rest[|rest| - 1]
  {
    CountPositive(t, sep);
    SplitCons(c, t, sep);
  }

  /** The last piece of a split is the text after the last separator. */
  lemma {:induction false} SplitLast(s: string, sep: char)
    ensures var p := Split(s, sep); var last := p[|p| - 1];
      |last| <= |s| && last == s[|s| - |last|..] &&
      (sep in s ==> s[|s| - |last| - 1] == sep) &&
      (sep !in s ==> last == s)
  {
    if sep !in s {
      SplitNoSep(s, sep);
    } else {
      var t := s[1..];
      assert s == [s[0]] + t;
      if sep !in t {
        SplitNoSep(t, sep);
        SplitCons(s[0], t, sep);
      } else {
        SplitLast(t, sep);
        SplitConsLast(s[0], t, sep);
        var rest := Split(t, sep);
        var last := rest[|rest| - 1];
        assert t[|t| - |last|..] == s[|s| - |last|..];
        assert t[|t| - |last| - 1] == s[|s| - |last| - 1];
      }
    }
  }

  // ---- decimal text of a non-negative integer ----

  predicate IsDigit(c: char) {
    '0' <= c <= '9'
  }

  predicate AllDigits(s: string) {
    forall i :: 0 <= i < |s| ==> IsDigit(s[i])
  }

  function DigitChar(d: nat): (c: char)
    requires d < 10
    ensures IsDigit(c)
  {
    ('0' as int + d) as char
  }

  function DigitValue(c: char): (d: nat)
    requires IsDigit(c)
    ensures d < 10 && DigitChar(d) == c
  {
    c as int - '0' as int
  }

  /** `n.toString()` for a non-negative integer: its shortest decimal text. */
  function Decimal(n: nat): (s: string)
    ensures |s| >= 1 && AllDigits(s)
    ensures |s| > 1 ==> s[0] != '0'
  {
    if n < 10 then [DigitChar(n)] else Decimal(n / 10) + [DigitChar(n % 10)]
  }

  /** The value of a text of decimal digits. */
  function DecimalValue(s: string): nat
    requires AllDigits(s)
  {
    if s == [] then 0 else DecimalValue(s[..|s| - 1]) * 10 + DigitValue(s[|s| - 1])
  }

  /** Reading back the decimal text of `n` gives `n`. */
  lemma {:induction false} DecimalValueOfDecimal(n: nat)
    ensures DecimalValue(Decimal(n)) == n
  {
    var s := Decimal(n);
    if n < 10 {
      assert s[..|s| - 1] == [];
    } else {
      DecimalValueOfDecimal(n / 10);
      assert s[..|s| - 1] == Decimal(n / 10);
    }
  }

  /** The longest prefix of `s` made of decimal digits. */
  function DigitPrefix(s: string): (p: string)
    ensures |p| <= |s| && p == s[..|p|] && AllDigits(p)
    ensures |p| < |s| ==> !IsDigit(s[|p|])
  {
    if s != [] && IsDigit(s[0]) then [s[0]] + DigitPrefix(s[1..]) else []
  }

  /**
   * `parseInt(s, 10)` for text that starts with a digit: the value of the
   * leading digits; `None` (JavaScript's NaN) when there is no leading digit.
   */
  function ParseInt(s: string): (r: Option<nat>)
    ensures r.None? <==> (s == [] || !IsDigit(s[0]))
  {
    var p := DigitPrefix(s);
    if p == [] then None else Some(DecimalValue(p))
  }

  /** `parseInt(n.toString(), 10) == n`. */
  lemma DecimalParses(n: nat)
    ensures ParseInt(Decimal(n)) == Some(n)
  {
    var s := Decimal(n);
    assert DigitPrefix(s) == s;
    DecimalValueOfDecimal(n);
  }

  // ---- trim ----

  /** The ASCII white space `trim` removes: space, \t, \n, \v, \f, \r. */
  predicate IsSpace(c: char) {
    c == ' ' || '\t' <= c <= '\r'
  }

  /** The number of white-space characters at the front of `s`. */
  function Leading(s: string): (n: nat)
    ensures n <= |s|
    ensures forall k :: 0 <= k < n ==> IsSpace(s[k])
    ensures n < |s| ==> !IsSpace(s[n])
  {
    if s != [] && IsSpace(s[0]) then 1 + Leading(s[1..]) else 0
  }

  /** The number of white-space characters at the back of `s`. */
  function Trailing(s: string): (n: nat)
    ensures n <= |s|
    ensures forall k :: |s| - n <= k < |s| ==> IsSpace(s[k])
    ensures n < |s| ==> !IsSpace(s[|s| - n - 1])
  {
    if s != [] && IsSpace(s[|s| - 1]) then 1 + Trailing(s[..|s| - 1]) else 0
  }

  /**
   * `s.trim()`: `s` with leading and trailing white space removed; the result
   * is the part of `s` left between its longest white-space prefix and a
   * white-space suffix, and it neither starts nor ends with white space.
   */
  function Trim(s: string): (r: string)
    ensures r == [] || (!IsSpace(r[0]) && !IsSpace(r[|r| - 1]))
    ensures var i := Leading(s);
      i + |r| <= |s| && r == s[i..i + |r|] &&
      (forall k :: 0 <= k < i ==> IsSpace(s[k])) &&
      (forall k :: i + |r| <= k < |s| ==> IsSpace(s[k]))
  {
    var i := Leading(s);
    TrailingOfSuffix(s, i);
    s[i..|s| - Trailing(s[i..])]
  }

  /** `Trailing` of a suffix of `s`, in terms of the indices of `s`. */
  lemma TrailingOfSuffix(s: string, i: nat)
    requires i <= |s|
    ensures var n := Trailing(s[i..]);
      n <= |s| - i &&
      (forall k :: |s| - n <= k < |s| ==> IsSpace(s[k])) &&
      (n < |s| - i ==> !IsSpace(s[|s| - n - 1]))
  {
    var t := s[i..];
    var n := Trailing(t);
    forall k | |s| - n <= k < |s| ensures IsSpace(s[k]) {
      assert s[k] == t[k - i];
    }
    if n < |t| {
      assert s[|s| - n - 1] == t[|t| - n - 1];
    }
  }

  /** Trimming twice is trimming once. */
  lemma TrimIdempotent(s: string)
    ensures Trim(Trim(s)) == Trim(s)
  {
    var r := Trim(s);
    if r != [] {
      assert Leading(r) == 0;
      assert Trailing(r) == 0;
      assert r[0..] == r;
      assert r[..|r|] == r;
    }
  }
}
