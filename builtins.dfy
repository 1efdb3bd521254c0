/** The two JavaScript built-ins the configuration loader relies on:
    `String.prototype.split` with a one-character separator (and its inverse
    `Array.prototype.join`), and `parseInt(s, 10)`. */
module Builtins {
  import opened Wrappers

  // ---------------------------------------------------------------------------
  // split / join
  // ---------------------------------------------------------------------------

  /** `s.split(sep)` for a one-character separator: the maximal runs between
      separators, in order. There is always at least one piece, so `""` splits into
      `[""]`, and no piece contains the separator. */
  function Split(s: string, sep: char): (pieces: seq<string>)
    ensures |pieces| >= 1
    ensures forall i :: 0 <= i < |pieces| ==> sep !in pieces[i]
  {
    if |s| == 0 then [""]
    else
      var rest := Split(s[1..], sep);
      if s[0] == sep then [""] + rest
      else [[s[0]] + rest[0]] + rest[1..]
  }

  /** `pieces.join(sep)`: the pieces in order with one separator between neighbours. */
  function Join(pieces: seq<string>, sep: char): string
  {
    if |pieces| == 0 then ""
    else if |pieces| == 1 then pieces[0]
    else pieces[0] + [sep] + Join(pieces[1..], sep)
  }

  /** The number of occurrences of `c` in `s`. */
  function Occurrences(s: string, c: char): nat
  {
    if |s| == 0 then 0 else (if s[0] == c then 1 else 0) + Occurrences(s[1..], c)
  }

  /** Joining the pieces of a split gives back the original string. */
  lemma {:induction false} JoinSplit(s: string, sep: char)
    ensures Join(Split(s, sep), sep) == s
  {
    if |s| > 0 {
      var rest := Split(s[1..], sep);
      JoinSplit(s[1..], sep);
      if s[0] == sep {
        assert Split(s, sep) == [""] + rest;
        assert ([""] + rest)[1..] == rest;
      } else {
        var pieces := Split(s, sep);
        assert pieces == [[s[0]] + rest[0]] + rest[1..];
        if |rest| == 1 {
          assert pieces == [[s[0]] + rest[0]];
        } else {
          assert pieces[1..] == rest[1..];
          assert Join(rest, sep) == rest[0] + [sep] + Join(rest[1..], sep);
        }
      }
    }
  }

  /** A split has exactly one more piece than the string has separators. */
  lemma {:induction false} SplitCount(s: string, sep: char)
    ensures |Split(s, sep)| == Occurrences(s, sep) + 1
  {
    if |s| > 0 {
      SplitCount(s[1..], sep);
    }
  }

  /** Splitting a join of separator-free pieces gives back the pieces: split and join
      are inverse to each other on non-empty lists of pieces. */
  lemma {:induction false} SplitJoin(pieces: seq<string>, sep: char)
    requires |pieces| >= 1
    requires forall i :: 0 <= i < |pieces| ==> sep !in pieces[i]
    ensures Split(Join(pieces, sep), sep) == pieces
  {
    if |pieces| == 1 {
      SplitNoSeparator(pieces[0], sep);
    } else {
      var tail := pieces[1..];
      assert forall i :: 0 <= i < |tail| ==> sep !in tail[i] by {
        forall i | 0 <= i < |tail| ensures sep !in tail[i] { assert tail[i] == pieces[i + 1]; }
      }
      SplitJoin(tail, sep);
      SplitPrefix(pieces[0], sep, Join(tail, sep));
      assert Join(pieces, sep) == pieces[0] + [sep] + Join(tail, sep);
      assert pieces == [pieces[0]] + tail;
    }
  }

  /** A string without the separator splits into itself alone. */
  lemma {:induction false} SplitNoSeparator(s: string, sep: char)
    requires sep !in s
    ensures Split(s, sep) == [s]
  {
    if |s| > 0 {
      SplitNoSeparator(s[1..], sep);
      assert s == [s[0]] + s[1..];
    }
  }

  /** Splitting `p + sep + t`, where `p` has no separator, yields `p` followed by the
      pieces of `t`. */
  lemma {:induction false} SplitPrefix(p: string, sep: char, t: string)
    requires sep !in p
    ensures Split(p + [sep] + t, sep) == [p] + Split(t, sep)
  {
    if |p| == 0 {
      assert p + [sep] + t == [sep] + t;
      assert ([sep] + t)[1..] == t;
    } else {
      var s := p + [sep] + t;
      assert s[1..] == p[1..] + [sep] + t;
      SplitPrefix(p[1..], sep, t);
      assert s[0] == p[0];
      assert [p[0]] + p[1..] == p;
    }
  }

  // ---------------------------------------------------------------------------
  // parseInt(s, 10)
  // ---------------------------------------------------------------------------

  predicate IsDigit(c: char) { '0' <= c <= '9' }

  function DigitValue(c: char): nat
    requires IsDigit(c)
  {
    (c as int - '0' as int) as nat
  }

  /** The characters JavaScript's `parseInt` skips before the number: WhiteSpace
      (tab, vertical tab, form feed, space, no-break space, the byte-order mark and
      the other space separators) and LineTerminator (LF, CR, LS, PS). */
  predicate IsJsWhitespace(c: char)
  {
    || c == '\t' || c == '\U{000B}' || c == '\U{000C}' || c == ' ' || c == '\U{00A0}'
    || c == '\U{FEFF}' || c == '\U{1680}' || ('\U{2000}' <= c <= '\U{200A}')
    || c == '\U{202F}' || c == '\U{205F}' || c == '\U{3000}'
    || c == '\n' || c == '\r' || c == '\U{2028}' || c == '\U{2029}'
  }

  /** `s` without its leading whitespace. */
  function TrimStart(s: string): (t: string)
    ensures |t| <= |s| && t == s[|s| - |t|..]
    ensures |t| > 0 ==> !IsJsWhitespace(t[0])
    ensures forall i :: 0 <= i < |s| - |t| ==> IsJsWhitespace(s[i])
  {
    if |s| > 0 && IsJsWhitespace(s[0]) then TrimStart(s[1..]) else s
  }

  /** The longest prefix of `s` made of decimal digits. */
  function DigitPrefix(s: string): (d: string)
    ensures |d| <= |s| && d == s[..|d|]
    ensures forall i :: 0 <= i < |d| ==> IsDigit(d[i])
    ensures |d| < |s| ==> !IsDigit(s[|d|])
  {
    if |s| > 0 && IsDigit(s[0]) then [s[0]] + DigitPrefix(s[1..]) else ""
  }

  /** The value of a string of decimal digits, most significant first. */
  function DecimalValue(d: string): nat
    requires forall i :: 0 <= i < |d| ==> IsDigit(d[i])
  {
    if |d| == 0 then 0 else DecimalValue(d[..|d| - 1]) * 10 + DigitValue(d[|d| - 1])
  }

  /** The text after an optional leading `+` or `-`. */
  function Unsigned(t: string): string
  {
    if |t| > 0 && (t[0] == '-' || t[0] == '+') then t[1..] else t
  }

  /** `parseInt(s, 10)`: skip leading whitespace, take an optional `+` or `-`, then the
      longest run of decimal digits; `None` (JavaScript's NaN) exactly when no digit
      follows the whitespace and the sign. Whatever follows the digits is ignored. */
  function ParseInt(s: string): (r: Option<int>)
    ensures r.None? <==> |Unsigned(TrimStart(s))| == 0 || !IsDigit(Unsigned(TrimStart(s))[0])
    ensures r.Some? && r.value < 0 ==> TrimStart(s)[0] == '-'
  {
    ParseSigned(TrimStart(s))
  }

  /** An optional sign followed by digits: a number exactly when a digit follows the
      sign, and negative only after a `-`. */
  function ParseSigned(t: string): (r: Option<int>)
    ensures r.Some? <==> |Unsigned(t)| > 0 && IsDigit(Unsigned(t)[0])
    ensures r.Some? && r.value < 0 ==> |t| > 0 && t[0] == '-'
    ensures |t| > 0 && t[0] == '-' && r.Some? ==> r.value <= 0
  {
    if |t| > 0 && t[0] == '-' then
      match ParseDigits(t[1..])
      case None => None
      case Some(m) => Some(-m)
    else if |t| > 0 && t[0] == '+' then ParseDigits(t[1..])
    else ParseDigits(t)
  }

  /** The value of the leading digits: a number exactly when `u` starts with a digit,
      and never negative. */
  function ParseDigits(u: string): (r: Option<int>)
    ensures r.Some? <==> |u| > 0 && IsDigit(u[0])
    ensures r.Some? ==> r.value >= 0
  {
    var digits := DigitPrefix(u);
    if |digits| == 0 then None else Some(DecimalValue(digits))
  }

  /** The canonical decimal rendering of a natural number (no sign, no leading zeros). */
  function DecimalString(n: nat): (d: string)
    ensures |d| >= 1
    ensures forall i :: 0 <= i < |d| ==> IsDigit(d[i])
  {
    var last := ['0' + (n % 10) as char];
    if n < 10 then last else DecimalString(n / 10) + last
  }

  /** Reading back the rendering of `n` gives `n`. */
  lemma {:induction false} DecimalValueOfString(n: nat)
    ensures DecimalValue(DecimalString(n)) == n
  {
    var d := DecimalString(n);
    if n >= 10 {
      DecimalValueOfString(n / 10);
      assert d[..|d| - 1] == DecimalString(n / 10);
    }
  }

  /** A run of digits followed by something that does not start with a digit has that
      run as its digit prefix. */
  lemma {:induction false} DigitPrefixOfDigits(d: string, rest: string)
    requires forall i :: 0 <= i < |d| ==> IsDigit(d[i])
    requires |rest| == 0 || !IsDigit(rest[0])
    ensures DigitPrefix(d + rest) == d
  {
    if |d| > 0 {
      assert (d + rest)[1..] == d[1..] + rest;
      DigitPrefixOfDigits(d[1..], rest);
      assert [d[0]] + d[1..] == d;
    } else {
      assert d + rest == rest;
    }
  }

  /** `parseInt` reads back the decimal rendering of any natural number, whatever
      non-digit text follows it; in particular `"3000"` gives 3000 and `"4000"` 4000. */
  lemma ParseIntOfDecimal(n: nat, rest: string)
    requires |rest| == 0 || !IsDigit(rest[0])
    ensures ParseInt(DecimalString(n) + rest) == Some(n)
  {
    var d := DecimalString(n);
    ParseIntOfDigits(d, rest);
    DecimalValueOfString(n);
  }

  /** A run of digits followed by a non-digit parses to the run's value. */
  lemma ParseIntOfDigits(d: string, rest: string)
    requires |d| > 0 && forall i :: 0 <= i < |d| ==> IsDigit(d[i])
    requires |rest| == 0 || !IsDigit(rest[0])
    ensures ParseInt(d + rest) == Some(DecimalValue(d))
  {
    var s := d + rest;
    assert s[0] == d[0] && IsDigit(s[0]) && !IsJsWhitespace(s[0]);
    assert TrimStart(s) == s;
    assert s[0] != '-' && s[0] != '+';
    DigitPrefixOfDigits(d, rest);
    assert ParseDigits(s) == Some(DecimalValue(d));
    assert ParseSigned(s) == ParseDigits(s);
  }

  /** Leading whitespace before text that does not start with whitespace is dropped,
      and nothing else is. */
  lemma {:induction false} TrimStartOfWhitespace(w: string, x: string)
    requires forall i :: 0 <= i < |w| ==> IsJsWhitespace(w[i])
    requires |x| == 0 || !IsJsWhitespace(x[0])
    ensures TrimStart(w + x) == x
  {
    if |w| == 0 {
      assert w + x == x;
    } else {
      assert (w + x)[0] == w[0];
      assert (w + x)[1..] == w[1..] + x;
      TrimStartOfWhitespace(w[1..], x);
    }
  }

  /** The value of `parseInt` on every input that parses: leading whitespace, an
      optional sign, a run of digits and then anything that does not start with a
      digit give the run's value, negated after a `-`. */
  lemma ParseIntValue(w: string, sign: string, d: string, rest: string)
    requires forall i :: 0 <= i < |w| ==> IsJsWhitespace(w[i])
    requires sign == "" || sign == "+" || sign == "-"
    requires |d| > 0 && forall i :: 0 <= i < |d| ==> IsDigit(d[i])
    requires |rest| == 0 || !IsDigit(rest[0])
    ensures ParseInt(w + sign + d + rest) ==
      Some(if sign == "-" then -(DecimalValue(d) as int) else DecimalValue(d))
  {
    ParseSignedValue(sign, d, rest);
    ParseIntAfterWhitespace(w, sign, d, rest);
  }

  /** The sign-and-digits part of `ParseIntValue`. */
  lemma ParseSignedValue(sign: string, d: string, rest: string)
    requires sign == "" || sign == "+" || sign == "-"
    requires |d| > 0 && forall i :: 0 <= i < |d| ==> IsDigit(d[i])
    requires |rest| == 0 || !IsDigit(rest[0])
    ensures var x := sign + (d + rest);
      && |x| > 0 && !IsJsWhitespace(x[0])
      && ParseSigned(x) == Some(if sign == "-" then -(DecimalValue(d) as int) else DecimalValue(d))
  {
    var u := d + rest;
    var x := sign + u;
    ParseDigitsOfDigits(d, rest);
    var v := DecimalValue(d);
    if sign == "" {
      assert x == u && u[0] == d[0];
      ParseSignedUnsigned(u);
    } else if sign == "+" {
      assert x == ['+'] + u;
      ParseSignedPlus(u);
    } else {
      assert x == ['-'] + u;
      ParseSignedMinus(u, v);
    }
  }

  /** `parseInt` reads past leading whitespace to the sign-and-digits part. */
  lemma ParseIntAfterWhitespace(w: string, sign: string, d: string, rest: string)
    requires forall i :: 0 <= i < |w| ==> IsJsWhitespace(w[i])
    requires |sign + (d + rest)| > 0 && !IsJsWhitespace((sign + (d + rest))[0])
    ensures ParseInt(w + sign + d + rest) == ParseSigned(sign + (d + rest))
  {
    var x := sign + (d + rest);
    assert w + sign + d + rest == w + x;
    TrimStartOfWhitespace(w, x);
  }

  /** A digit run followed by a non-digit gives the run's value. */
  lemma ParseDigitsOfDigits(d: string, rest: string)
    requires |d| > 0 && forall i :: 0 <= i < |d| ==> IsDigit(d[i])
    requires |rest| == 0 || !IsDigit(rest[0])
    ensures ParseDigits(d + rest) == Some(DecimalValue(d))
  {
    DigitPrefixOfDigits(d, rest);
  }

  /** Text that starts with a digit is read by `ParseDigits` alone. */
  lemma ParseSignedUnsigned(u: string)
    requires |u| > 0 && IsDigit(u[0])
    ensures ParseSigned(u) == ParseDigits(u)
  {
    assert u[0] != '-' && u[0] != '+';
  }

  /** A `+` is skipped. */
  lemma ParseSignedPlus(u: string)
    ensures ParseSigned(['+'] + u) == ParseDigits(u)
  {
    var x := ['+'] + u;
    assert x[0] == '+' && x[1..] == u;
  }

  /** A `-` negates. */
  lemma ParseSignedMinus(u: string, v: int)
    requires ParseDigits(u) == Some(v)
    ensures ParseSigned(['-'] + u) == Some(-v)
  {
    var x := ['-'] + u;
    assert x[0] == '-' && x[1..] == u;
  }

  /** Negative numbers: `-` followed by a rendering parses to the negated value. */
  lemma ParseIntOfNegative(n: nat)
    ensures ParseInt(['-'] + DecimalString(n)) == Some(-(n as int))
  {
    var d := DecimalString(n);
    var s := ['-'] + d;
    assert !IsJsWhitespace(s[0]);
    var t := TrimStart(s);
    assert t == s;
    assert t[1..] == d + "";
    DigitPrefixOfDigits(d, "");
    assert DigitPrefix(t[1..]) == d;
    DecimalValueOfString(n);
  }
}
