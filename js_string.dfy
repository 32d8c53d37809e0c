/**
 * The JavaScript string built-ins the core relies on, over Dafny strings
 * (sequences of Unicode scalar values): String.prototype.trim, split with a
 * one-character separator, startsWith, Number.parseInt without a radix
 * (base 10, or base 16 after "0x"), Number.prototype.toString of integers,
 * and a substring relation used to state what a template contains; and the
 * two array built-ins used on lists, index reads and Array.prototype.reverse.
 */
module JsString {
  import opened Wrappers

  /** The characters ECMAScript's trim removes: WhiteSpace and LineTerminator. */
  predicate IsJsWhitespace(c: char)
  {
    c == '\t' || c == '\n' || c == '\U{000B}' || c == '\U{000C}' || c == '\r' || c == ' '
    || c == '\U{00A0}' || c == '\U{1680}' || ('\U{2000}' <= c <= '\U{200A}')
    || c == '\U{2028}' || c == '\U{2029}' || c == '\U{202F}' || c == '\U{205F}'
    || c == '\U{3000}' || c == '\U{FEFF}'
  }

  function TrimStart(s: string): (r: string)
    ensures |r| <= |s| && r == s[|s| - |r|..]
    ensures r == [] || !IsJsWhitespace(r[0])
    ensures forall i :: 0 <= i < |s| - |r| ==> IsJsWhitespace(s[i])
  {
    if s != [] && IsJsWhitespace(s[0]) then TrimStart(s[1..]) else s
  }

  function TrimEnd(s: string): (r: string)
    ensures |r| <= |s| && r == s[..|r|]
    ensures r == [] || !IsJsWhitespace(r[|r| - 1])
    ensures forall i :: |r| <= i < |s| ==> IsJsWhitespace(s[i])
  {
    if s != [] && IsJsWhitespace(s[|s| - 1]) then TrimEnd(s[..|s| - 1]) else s
  }

  /** The middle piece of a three-piece concatenation sits where it was put. */
  lemma Framed(p: string, x: string, r: string)
    ensures (p + x + r)[|p|..|p| + |x|] == x
  {
    assert (p + x + r)[|p|..|p| + |x|] == (p + x)[|p|..];
  }

  /** String.prototype.trim. */
  function Trim(s: string): string
  {
    TrimEnd(TrimStart(s))
  }

  lemma SuffixPrefix(s: string, i: nat, n: nat)
    requires i + n <= |s|
    ensures s[i..][..n] == s[i..i + n]
  {
  }

  lemma TrimEnds(s: string)
    ensures var r := Trim(s);
      r == [] || (!IsJsWhitespace(r[0]) && !IsJsWhitespace(r[|r| - 1]))
  {
    var t := TrimStart(s);
    var r := TrimEnd(t);
    if r != [] {
      assert r[0] == t[0];
    }
  }

  lemma TrimSlice(s: string)
    ensures OccursAt(s, Trim(s), |s| - |TrimStart(s)|)
  {
    var t := TrimStart(s);
    var r := TrimEnd(t);
    SuffixPrefix(s, |s| - |t|, |r|);
  }

  /** The trimmed string has no whitespace at either end and is a slice of the input. */
  lemma TrimShape(s: string)
    ensures var r := Trim(s);
      (r == [] || (!IsJsWhitespace(r[0]) && !IsJsWhitespace(r[|r| - 1])))
      && OccursAt(s, r, |s| - |TrimStart(s)|)
  {
    TrimEnds(s);
    TrimSlice(s);
  }

  /** Trimming twice is trimming once: a trimmed string has nothing left to trim. */
  lemma TrimIdempotent(s: string)
    ensures Trim(Trim(s)) == Trim(s)
  {
    var r := Trim(s);
    TrimShape(s);
    if r != [] {
      TrimAround([], r, []);
      assert [] + r + [] == r;
    }
  }

  /** Trim is empty exactly when the string is whitespace only (the chat input gate). */
  lemma {:induction false} TrimEmptyIff(s: string)
    ensures Trim(s) == [] <==> forall i :: 0 <= i < |s| ==> IsJsWhitespace(s[i])
  {
  }

  /** Trimming text that is whitespace, then a body with non-blank ends, then whitespace gives the body. */
  lemma {:induction false} TrimAround(lead: string, body: string, tail: string)
    requires forall i :: 0 <= i < |lead| ==> IsJsWhitespace(lead[i])
    requires forall i :: 0 <= i < |tail| ==> IsJsWhitespace(tail[i])
    requires body != [] && !IsJsWhitespace(body[0]) && !IsJsWhitespace(body[|body| - 1])
    ensures Trim(lead + body + tail) == body
  {
    TrimStartLead(lead, body + tail);
    assert lead + body + tail == lead + (body + tail);
    TrimEndTail(body, tail);
  }

  lemma {:induction false} TrimStartLead(lead: string, rest: string)
    requires forall i :: 0 <= i < |lead| ==> IsJsWhitespace(lead[i])
    requires rest != [] && !IsJsWhitespace(rest[0])
    ensures TrimStart(lead + rest) == rest
  {
    if lead == [] {
      assert lead + rest == rest;
    } else {
      assert (lead + rest)[1..] == lead[1..] + rest;
      TrimStartLead(lead[1..], rest);
    }
  }

  lemma {:induction false} TrimEndTail(body: string, tail: string)
    requires forall i :: 0 <= i < |tail| ==> IsJsWhitespace(tail[i])
    requires body != [] && !IsJsWhitespace(body[|body| - 1])
    ensures TrimEnd(body + tail) == body
  {
    if tail == [] {
      assert body + tail == body;
    } else {
      var n := |tail| - 1;
      assert (body + tail)[..|body + tail| - 1] == body + tail[..n];
      TrimEndTail(body, tail[..n]);
    }
  }

  /** String.prototype.startsWith. */
  predicate StartsWith(s: string, prefix: string)
  {
    prefix <= s
  }

  /** A prefix of a prefix is a prefix. */
  lemma StartsWithTrans(s: string, t: string, prefix: string)
    requires StartsWith(t, prefix) && StartsWith(s, t)
    ensures StartsWith(s, prefix)
  {
    assert s[..|prefix|] == s[..|t|][..|prefix|];
  }

  /**
   * s.split(sep) for a one-character separator: the maximal runs between
   * separators, built one character at a time from the right.
   */
  function Split(s: string, sep: char): (r: seq<string>)
    ensures |r| >= 1
    decreases |s|
  {
    if s == [] then [""]
    else
      var rest := Split(s[1..], sep);
      if s[0] == sep then [""] + rest
      else [[s[0]] + rest[0]] + rest[1..]
  }

  /** No piece of a split contains the separator. */
  lemma {:induction false} SplitPiecesLackSeparator(s: string, sep: char, k: nat)
    requires k < |Split(s, sep)|
    ensures sep !in Split(s, sep)[k]
    decreases |s|
  {
    if s != [] {
      var rest := Split(s[1..], sep);
      if s[0] == sep {
        if k > 0 {
          SplitPiecesLackSeparator(s[1..], sep, k - 1);
        }
      } else if k == 0 {
        SplitPiecesLackSeparator(s[1..], sep, 0);
      } else {
        SplitPiecesLackSeparator(s[1..], sep, k);
      }
    }
  }

  /** A string without the separator is a single piece. */
  lemma {:induction false} SplitWithoutSeparator(s: string, sep: char)
    requires sep !in s
    ensures Split(s, sep) == [s]
    decreases |s|
  {
    if s != [] {
      SplitWithoutSeparator(s[1..], sep);
      assert [s[0]] + s[1..] == s;
    }
  }

  /** The pieces joined back with the separator. */
  function Join(pieces: seq<string>, sep: char): string
  {
    if |pieces| == 0 then ""
    else if |pieces| == 1 then pieces[0]
    else pieces[0] + [sep] + Join(pieces[1..], sep)
  }

  /** Splitting and joining again gives back the original string. */
  lemma {:induction false} SplitJoin(s: string, sep: char)
    ensures Join(Split(s, sep), sep) == s
    decreases |s|
  {
    if s != [] {
      var rest := Split(s[1..], sep);
      SplitJoin(s[1..], sep);
      if s[0] == sep {
        assert ([""] + rest)[1..] == rest;
      } else {
        var pieces := [[s[0]] + rest[0]] + rest[1..];
        assert pieces[1..] == rest[1..];
        if |rest| > 1 {
          assert Join(rest, sep) == rest[0] + [sep] + Join(rest[1..], sep);
        }
      }
      assert s == [s[0]] + s[1..];
    }
  }

  /** Splitting at a separator splits the two sides independently. */
  lemma {:induction false} SplitConcat(a: string, b: string, sep: char)
    ensures Split(a + [sep] + b, sep) == Split(a, sep) + Split(b, sep)
    decreases |a|
  {
    if a == [] {
      assert a + [sep] + b == [sep] + b;
      SplitCons(sep, b, sep);
    } else {
      var c, t := a[0], a[1..];
      assert a + [sep] + b == [c] + (t + [sep] + b);
      assert a == [c] + t;
      SplitConcat(t, b, sep);
      SplitCons(c, t + [sep] + b, sep);
      SplitCons(c, t, sep);
      ConsPiece(c, sep, Split(t, sep), Split(b, sep));
    }
  }

  /** One step of `Split`: the first character either ends the first piece or joins it. */
  lemma SplitCons(c: char, t: string, sep: char)
    ensures Split([c] + t, sep) == if c == sep then [""] + Split(t, sep)
                                   else [[c] + Split(t, sep)[0]] + Split(t, sep)[1..]
  {
    assert ([c] + t)[1..] == t;
  }

  /** Putting a character in front of the first piece commutes with appending more pieces. */
  lemma ConsPiece(c: char, sep: char, p: seq<string>, q: seq<string>)
    requires |p| >= 1
    ensures (if c == sep then [""] + (p + q) else [[c] + (p + q)[0]] + (p + q)[1..])
         == (if c == sep then [""] + p else [[c] + p[0]] + p[1..]) + q
  {
    assert (p + q)[0] == p[0];
    assert (p + q)[1..] == p[1..] + q;
  }

  predicate IsDigit(c: char)
  {
    '0' <= c <= '9'
  }

  function DigitValue(c: char): nat
    requires IsDigit(c)
  {
    (c as int) - ('0' as int)
  }

  /** A digit in base 10, or in base 16 (also a-f and A-F). */
  predicate IsRadixDigit(c: char, radix: nat)
  {
    IsDigit(c) || (radix == 16 && ('a' <= c <= 'f' || 'A' <= c <= 'F'))
  }

  function RadixDigitValue(c: char, radix: nat): (v: nat)
    requires IsRadixDigit(c, radix)
    ensures v < (if radix == 16 then 16 else 10)
  {
    if IsDigit(c) then DigitValue(c)
    else if 'a' <= c <= 'f' then (c as int) - ('a' as int) + 10
    else (c as int) - ('A' as int) + 10
  }

  /** The value of a string of digits in the radix, most significant first. */
  function RadixValue(s: string, radix: nat): nat
    requires forall i :: 0 <= i < |s| ==> IsRadixDigit(s[i], radix)
  {
    if s == [] then 0 else RadixValue(s[..|s| - 1], radix) * radix + RadixDigitValue(s[|s| - 1], radix)
  }

  /**
   * The leading digits of s read onto `acc` left to right, as parseInt
   * accumulates them; it stops at the first character that is not a digit.
   */
  function LeadingValue(s: string, radix: nat, acc: nat): nat
  {
    if s != [] && IsRadixDigit(s[0], radix) then LeadingValue(s[1..], radix, acc * radix + RadixDigitValue(s[0], radix))
    else acc
  }

  /**
   * How Number.parseInt reads its argument when no radix is given: leading
   * blanks are skipped, one '+' or '-' is taken as the sign, and a "0x" or
   * "0X" after it selects base 16; the digits are read from what is left.
   */
  datatype IntText = IntText(negative: bool, radix: nat, digits: string)

  /** The leading blanks dropped, as Number.parseInt does first (TrimStart, see BlanksSkipped). */
  function SkipBlanks(t: string): string
  {
    if t != [] && IsJsWhitespace(t[0]) then SkipBlanks(t[1..]) else t
  }

  lemma {:induction false} BlanksSkipped(t: string)
    ensures SkipBlanks(t) == TrimStart(t)
  {
    if t != [] && IsJsWhitespace(t[0]) {
      BlanksSkipped(t[1..]);
    }
  }

  function ScanInt(t: string): (r: IntText)
    ensures r.radix == 10 || r.radix == 16
  {
    var u := SkipBlanks(t);
    var negative := u != [] && u[0] == '-';
    var v := if u != [] && (u[0] == '-' || u[0] == '+') then u[1..] else u;
    if |v| >= 2 && v[0] == '0' && (v[1] == 'x' || v[1] == 'X') then IntText(negative, 16, v[2..])
    else IntText(negative, 10, v)
  }

  /**
   * Number.parseInt(s) without a radix, for an argument that is a string or
   * undefined (None, which reads as the text "undefined"): the longest run of
   * digits after the sign and prefix, negated for '-'; NaN (None) when no
   * digit follows.
   */
  function ParseInt(s: Option<string>): (r: Option<int>)
    ensures s.None? ==> r.None?
  {
    match s
    case None => None
    case Some(t) =>
      var scan := ScanInt(t);
      if scan.digits == [] || !IsRadixDigit(scan.digits[0], scan.radix) then None
      else
        var v := LeadingValue(scan.digits, scan.radix, 0);
        Some(if scan.negative then -(v as int) else v as int)
  }

  /**
   * NaN exactly when no digit of the radix follows the sign and prefix;
   * otherwise the sign of the result is the sign that was read.
   */
  lemma ParseIntNaN(t: string)
    ensures var scan := ScanInt(t);
      (ParseInt(Some(t)).Some? <==> scan.digits != [] && IsRadixDigit(scan.digits[0], scan.radix))
      && (ParseInt(Some(t)).Some? && !scan.negative ==> ParseInt(Some(t)).value >= 0)
      && (ParseInt(Some(t)).Some? && scan.negative ==> ParseInt(Some(t)).value <= 0)
  {
  }

  lemma DigitIsNotBlank(c: char)
    requires IsDigit(c)
    ensures !IsJsWhitespace(c)
  {
  }

  /**
   * Reading digits after a prefix p already read gives the value of p
   * followed by them; the reading stops where the digits end.
   */
  lemma {:induction false} LeadingValueOfDigits(p: string, d: string, rest: string, radix: nat)
    requires forall i :: 0 <= i < |p| ==> IsRadixDigit(p[i], radix)
    requires forall i :: 0 <= i < |d| ==> IsRadixDigit(d[i], radix)
    requires rest == [] || !IsRadixDigit(rest[0], radix)
    ensures LeadingValue(d + rest, radix, RadixValue(p, radix)) == RadixValue(p + d, radix)
    decreases |d|
  {
    if d == [] {
      assert d + rest == rest && p + d == p;
    } else {
      var p' := p + [d[0]];
      assert p'[..|p'| - 1] == p;
      assert (d + rest)[0] == d[0] && (d + rest)[1..] == d[1..] + rest;
      LeadingValueOfDigits(p', d[1..], rest, radix);
      assert p' + d[1..] == p + d;
    }
  }

  /**
   * A run of decimal digits followed by anything that is not a digit reads
   * as the value of the run; only a lone "0" followed by "x" or "X" reads
   * otherwise, as a base-16 prefix.
   */
  lemma ParseIntDecimal(d: string, rest: string)
    requires d != [] && forall i :: 0 <= i < |d| ==> IsDigit(d[i])
    requires rest == [] || !IsDigit(rest[0])
    requires d == "0" && rest != [] ==> rest[0] != 'x' && rest[0] != 'X'
    ensures ParseInt(Some(d + rest)) == Some(RadixValue(d, 10))
  {
    var t := d + rest;
    ScanDecimal(d, rest);
    ParseIntOfScan(t);
    LeadingValueOfDigits([], d, rest, 10);
    assert [] + d == d;
  }

  lemma ScanDecimal(d: string, rest: string)
    requires d != [] && forall i :: 0 <= i < |d| ==> IsDigit(d[i])
    requires rest == [] || !IsDigit(rest[0])
    requires d == "0" && rest != [] ==> rest[0] != 'x' && rest[0] != 'X'
    ensures ScanInt(d + rest) == IntText(false, 10, d + rest)
  {
    var t := d + rest;
    assert t[0] == d[0];
    DigitIsNotBlank(t[0]);
    assert SkipBlanks(t) == t;
    if |d| >= 2 {
      assert t[1] == d[1];
    } else if rest != [] {
      assert d == [d[0]] && t[1] == rest[0];
    }
  }

  /** "0x" or "0X" followed by base-16 digits reads as their base-16 value. */
  lemma ParseIntHex(x: char, h: string, rest: string)
    requires x == 'x' || x == 'X'
    requires h != [] && forall i :: 0 <= i < |h| ==> IsRadixDigit(h[i], 16)
    requires rest == [] || !IsRadixDigit(rest[0], 16)
    ensures ParseInt(Some(['0', x] + h + rest)) == Some(RadixValue(h, 16))
  {
    var t := ['0', x] + h + rest;
    assert t == ['0', x] + (h + rest);
    ScanHex(x, h + rest);
    assert (h + rest)[0] == h[0];
    ParseIntOfScan(t);
    LeadingValueOfDigits([], h, rest, 16);
    assert [] + h == h;
  }

  /** The value of a reading without '-' whose digits start with a digit of its radix. */
  lemma ParseIntOfScan(t: string)
    requires var scan := ScanInt(t); !scan.negative && scan.digits != [] && IsRadixDigit(scan.digits[0], scan.radix)
    ensures ParseInt(Some(t)) == Some(LeadingValue(ScanInt(t).digits, ScanInt(t).radix, 0))
  {
  }

  lemma ScanHex(x: char, digits: string)
    requires x == 'x' || x == 'X'
    ensures ScanInt(['0', x] + digits) == IntText(false, 16, digits)
  {
    var t := ['0', x] + digits;
    assert t[0] == '0' && t[1] == x && t[2..] == digits;
    DigitIsNotBlank(t[0]);
    assert SkipBlanks(t) == t;
  }

  /** Blanks before the number are skipped. */
  lemma ParseIntSkipsBlank(c: char, t: string)
    requires IsJsWhitespace(c)
    ensures ParseInt(Some([c] + t)) == ParseInt(Some(t))
  {
    assert ([c] + t)[1..] == t;
    assert SkipBlanks([c] + t) == SkipBlanks(t);
  }

  /** A '-' negates what follows it and a '+' leaves it as it is. */
  lemma ParseIntSign(t: string)
    requires t == [] || (!IsJsWhitespace(t[0]) && t[0] != '-' && t[0] != '+')
    ensures ParseInt(Some("-" + t)) == if ParseInt(Some(t)).None? then None else Some(-ParseInt(Some(t)).value)
    ensures ParseInt(Some("+" + t)) == ParseInt(Some(t))
  {
    assert ("-" + t)[1..] == t && ("+" + t)[1..] == t;
    assert SkipBlanks(t) == t;
    assert SkipBlanks("-" + t) == "-" + t;
    assert SkipBlanks("+" + t) == "+" + t;
  }

  /** The decimal digit character of a value below ten. */
  function DigitChar(k: nat): (c: char)
    requires k < 10
    ensures IsDigit(c) && DigitValue(c) == k
  {
    (('0' as int) + k) as char
  }

  /** Number.prototype.toString of a non-negative integer: its decimal digits, no leading zero. */
  function NatToString(n: nat): (r: string)
    ensures r != [] && forall i :: 0 <= i < |r| ==> IsDigit(r[i])
    ensures r[0] == '0' ==> n == 0 && |r| == 1
  {
    if n < 10 then [DigitChar(n)] else NatToString(n / 10) + [DigitChar(n % 10)]
  }

  /** Number.prototype.toString of an integer: a '-' before the digits of a negative one. */
  function IntToString(n: int): (r: string)
    ensures r != [] && (r[0] == '-' <==> n < 0)
  {
    if n < 0 then "-" + NatToString(-n) else NatToString(n)
  }

  lemma {:induction false} NatToStringValue(n: nat)
    ensures RadixValue(NatToString(n), 10) == n
  {
    var r := NatToString(n);
    if n >= 10 {
      assert r[..|r| - 1] == NatToString(n / 10);
      NatToStringValue(n / 10);
    }
  }

  lemma ParseIntNatToString(m: nat)
    ensures ParseInt(Some(NatToString(m))) == Some(m as int)
  {
    var d := NatToString(m);
    NatToStringValue(m);
    ParseIntDecimal(d, []);
    assert d + [] == d;
  }

  /** parseInt reads back what toString wrote, for every integer. */
  lemma ParseIntToString(n: int)
    ensures ParseInt(Some(IntToString(n))) == Some(n)
  {
    if n < 0 {
      var d := NatToString(-n);
      ParseIntNatToString(-n);
      assert IntToString(n) == "-" + d;
      ParseIntSign(d);
    } else {
      ParseIntNatToString(n);
    }
  }

  /** The element at an index, or undefined (None) past the end, as `a[i]` reads in JavaScript. */
  function At<T>(a: seq<T>, i: nat): (r: Option<T>)
    ensures r.Some? <==> i < |a|
    ensures i < |a| ==> r.value == a[i]
  {
    if i < |a| then Some(a[i]) else None
  }

  /** `sub` occurs in `s` starting at index i. */
  predicate OccursAt(s: string, sub: string, i: int)
  {
    0 <= i <= |s| - |sub| && s[i..i + |sub|] == sub
  }

  /** `sub` occurs in `s` as a contiguous substring (String.prototype.includes). */
  predicate Contains(s: string, sub: string)
    decreases |s|
  {
    sub <= s || (s != [] && Contains(s[1..], sub))
  }

  lemma {:induction false} ContainsMiddle(a: string, x: string, b: string)
    ensures Contains(a + x + b, x)
    decreases |a|
  {
    if a == [] {
      assert a + x + b == x + b;
      assert x <= x + b;
    } else {
      assert (a + x + b)[1..] == a[1..] + x + b;
      ContainsMiddle(a[1..], x, b);
    }
  }

  lemma ContainsSelf(s: string)
    ensures Contains(s, s)
  {
    assert s <= s;
  }

  /** A substring of a string is a substring of anything that string begins. */
  lemma {:induction false} ContainsExtendRight(s: string, t: string, sub: string)
    requires Contains(s, sub)
    ensures Contains(s + t, sub)
    decreases |s|
  {
    if !(sub <= s) {
      ContainsExtendRight(s[1..], t, sub);
      assert (s + t)[1..] == s[1..] + t;
    }
  }

  /** A substring of a string is a substring of anything that string ends. */
  lemma {:induction false} ContainsExtendLeft(s: string, t: string, sub: string)
    requires Contains(t, sub)
    ensures Contains(s + t, sub)
    decreases |s|
  {
    if s == [] {
      assert s + t == t;
    } else {
      ContainsExtendLeft(s[1..], t, sub);
      assert (s + t)[1..] == s[1..] + t;
    }
  }

  /** Contains agrees with the index-based reading of "occurs at some position". */
  lemma {:induction false} ContainsAt(s: string, sub: string)
    ensures Contains(s, sub) <==> exists i :: OccursAt(s, sub, i)
    decreases |s|
  {
    if s != [] {
      ContainsAt(s[1..], sub);
      if Contains(s[1..], sub) {
        var i :| OccursAt(s[1..], sub, i);
        assert s[1..][i..i + |sub|] == s[i + 1..i + 1 + |sub|];
        assert OccursAt(s, sub, i + 1);
      }
      if sub <= s {
        assert OccursAt(s, sub, 0);
      }
      if exists i :: OccursAt(s, sub, i) {
        var i :| OccursAt(s, sub, i);
        if i == 0 {
          assert sub <= s;
        } else {
          assert s[1..][i - 1..i - 1 + |sub|] == s[i..i + |sub|];
          assert OccursAt(s[1..], sub, i - 1);
        }
      }
    } else {
      if exists i :: OccursAt(s, sub, i) {
        var i :| OccursAt(s, sub, i);
        assert sub == [];
        assert sub <= s;
      }
      if sub == [] {
        assert OccursAt(s, sub, 0);
      }
    }
  }

  /** Array.prototype.reverse, on a copy. */
  function Reverse<T>(s: seq<T>): (r: seq<T>)
    ensures |r| == |s|
    ensures forall i :: 0 <= i < |s| ==> r[i] == s[|s| - 1 - i]
  {
    if s == [] then [] else Reverse(s[1..]) + [s[0]]
  }
}
