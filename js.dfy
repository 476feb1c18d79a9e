// The small part of JavaScript's built-in behaviour that the classification
// script relies on: String.prototype.split with a one-character separator,
// parseInt with radix 10, integer-to-string conversion, and the effect of
// writing `a[k] = x` on a JavaScript array.

module Js {

  datatype Option<T> = None | Some(value: T)

  /** An operation that either yields a value or throws a message. */
  datatype Result<T> = Ok(value: T) | Err(message: string)

  /** The numbers parseInt can produce: an integer or NaN. */
  datatype Number = Int(n: int) | NaN

  predicate IsDigit(c: char) { '0' <= c <= '9' }

  predicate AllDigits(s: string) { forall i :: 0 <= i < |s| ==> IsDigit(s[i]) }

  function DigitValue(c: char): (d: nat)
    requires IsDigit(c)
    ensures d < 10
  {
    (c as int) - ('0' as int)
  }

  function DigitChar(d: nat): (c: char)
    requires d < 10
    ensures IsDigit(c) && DigitValue(c) == d
  {
    (('0' as int) + d) as char
  }

  /** Number of occurrences of `c` in `s`. */
  function Count(s: string, c: char): nat
  {
    if s == [] then 0 else (if s[0] == c then 1 else 0) + Count(s[1..], c)
  }

  // ---------------------------------------------------------------------------
  // String.prototype.split(sep) for a one-character separator

  /** `s.split(sep)`: the pieces between occurrences of `sep`, in order.
      Splitting the empty string gives one empty piece. */
  function Split(s: string, sep: char): (r: seq<string>)
    ensures |r| == Count(s, sep) + 1
    ensures forall i :: 0 <= i < |r| ==> sep !in r[i]
    decreases |s|
  {
    if s == [] then [""]
    else
      var rest := Split(s[1..], sep);
      if s[0] == sep then [""] + rest
      else [[s[0]] + rest[0]] + rest[1..]
  }

  /** `parts.join(sep)`, the inverse of Split. */
  function Join(parts: seq<string>, sep: char): string
    requires |parts| > 0
  {
    if |parts| == 1 then parts[0] else parts[0] + [sep] + Join(parts[1..], sep)
  }

  lemma {:induction false} JoinSplit(s: string, sep: char)
    ensures Join(Split(s, sep), sep) == s
    decreases |s|
  {
    if s != [] {
      var rest := Split(s[1..], sep);
      JoinSplit(s[1..], sep);
      if s[0] == sep {
        assert Split(s, sep) == [""] + rest;
        assert ([""] + rest)[1..] == rest;
      } else {
        var r := Split(s, sep);
        assert r == [[s[0]] + rest[0]] + rest[1..];
        if |rest| == 1 {
          assert r == [[s[0]] + rest[0]];
        } else {
          assert r[1..] == rest[1..];
          assert Join(rest, sep) == rest[0] + [sep] + Join(rest[1..], sep);
        }
      }
    }
  }

  /** Splitting `a + [sep] + b` where `a` has no separator peels off `a`. */
  lemma {:induction false} SplitCons(a: string, sep: char, b: string)
    requires sep !in a
    ensures Split(a + [sep] + b, sep) == [a] + Split(b, sep)
    decreases |a|
  {
    if a == [] {
      assert a + [sep] + b == [sep] + b;
      assert ([sep] + b)[1..] == b;
    } else {
      var s := a + [sep] + b;
      assert s[0] == a[0] && s[1..] == a[1..] + [sep] + b;
      SplitCons(a[1..], sep, b);
      assert [a[0]] + a[1..] == a;
    }
  }

  lemma {:induction false} SplitNoSep(a: string, sep: char)
    requires sep !in a
    ensures Split(a, sep) == [a]
    decreases |a|
  {
    if a != [] {
      SplitNoSep(a[1..], sep);
      assert [a[0]] + a[1..] == a;
    }
  }

  /** Join followed by Split gives the pieces back when no piece holds the separator. */
  lemma {:induction false} SplitJoin(parts: seq<string>, sep: char)
    requires |parts| > 0
    requires forall i :: 0 <= i < |parts| ==> sep !in parts[i]
    ensures Split(Join(parts, sep), sep) == parts
    decreases |parts|
  {
    if |parts| == 1 {
      SplitNoSep(parts[0], sep);
    } else {
      SplitJoin(parts[1..], sep);
      SplitCons(parts[0], sep, Join(parts[1..], sep));
      assert [parts[0]] + parts[1..] == parts;
    }
  }

  // ---------------------------------------------------------------------------
  // parseInt(s, 10)

  /** The characters parseInt skips before the sign (StrWhiteSpaceChar):
      tab, line feed, vertical tab, form feed, carriage return, the Unicode
      space separators, the line and paragraph separators and the byte order mark. */
  predicate IsJsSpace(c: char)
  {
    var k := c as int;
    k == 0x09 || k == 0x0A || k == 0x0B || k == 0x0C || k == 0x0D || k == 0x20 ||
    k == 0xA0 || k == 0x1680 || (0x2000 <= k <= 0x200A) || k == 0x2028 ||
    k == 0x2029 || k == 0x202F || k == 0x205F || k == 0x3000 || k == 0xFEFF
  }

  function TrimStart(s: string): (r: string)
    ensures r == [] || !IsJsSpace(r[0])
    ensures |r| <= |s| && r == s[|s| - |r|..]
  {
    if s != [] && IsJsSpace(s[0]) then TrimStart(s[1..]) else s
  }

  /** The longest prefix of `s` made of decimal digits. */
  function DigitPrefix(s: string): (r: string)
    ensures AllDigits(r) && |r| <= |s| && r == s[..|r|]
    ensures |r| < |s| ==> !IsDigit(s[|r|])
  {
    if s == [] || !IsDigit(s[0]) then [] else [s[0]] + DigitPrefix(s[1..])
  }

  /** The value of a string of decimal digits, most significant first. */
  function DigitsValue(d: string): nat
    requires AllDigits(d)
  {
    if d == [] then 0 else 10 * DigitsValue(d[..|d| - 1]) + DigitValue(d[|d| - 1])
  }

  /** The number read from the longest run of digits at the start of `u`;
      NaN when `u` does not start with a digit. */
  function DigitRun(u: string): Number
  {
    var d := DigitPrefix(u);
    if d == [] then NaN else Int(DigitsValue(d))
  }

  function Negate(x: Number): Number
  {
    match x
    case Int(n) => Int(-n)
    case NaN => NaN
  }

  /** An optional sign, then the digit run. */
  function SignedDigitRun(t: string): Number
  {
    if t != [] && t[0] == '-' then Negate(DigitRun(t[1..]))
    else if t != [] && t[0] == '+' then DigitRun(t[1..])
    else DigitRun(t)
  }

  /** `parseInt(s, 10)`: skip leading white space, take an optional sign and
      then the longest run of decimal digits; no digit gives NaN.  Anything
      after the digits is ignored.  */
  function ParseInt(s: string): Number
  {
    SignedDigitRun(TrimStart(s))
  }

  /** `parseInt(undefined, 10)`: the argument becomes the string "undefined". */
  function ParseIntField(field: Option<string>): Number
  {
    match field
    case Some(s) => ParseInt(s)
    case None => ParseInt("undefined")
  }

  /** A missing field parses to NaN: "undefined" starts with no digit. */
  lemma ParseIntFieldMissing()
    ensures ParseIntField(None) == NaN
  {
    var s := "undefined";
    assert s[0] == 'u';
    TrimStartAt(s);
    assert DigitPrefix(s) == [];
  }

  // ---------------------------------------------------------------------------
  // Integer to decimal string, as `'' + n` does for an integer-valued number

  function NatToString(n: nat): (s: string)
    ensures s != [] && AllDigits(s)
  {
    if n < 10 then [DigitChar(n)] else NatToString(n / 10) + [DigitChar(n % 10)]
  }

  function IntToString(n: int): (s: string)
    ensures s != []
  {
    if n < 0 then "-" + NatToString(-n) else NatToString(n)
  }

  lemma {:induction false} DigitsValueOfNatToString(n: nat)
    ensures DigitsValue(NatToString(n)) == n
  {
    if n >= 10 {
      var s := NatToString(n);
      DigitsValueOfNatToString(n / 10);
      assert s[..|s| - 1] == NatToString(n / 10);
    }
  }

  lemma {:induction false} DigitPrefixOfDigits(d: string, rest: string)
    requires AllDigits(d)
    requires rest == [] || !IsDigit(rest[0])
    ensures DigitPrefix(d + rest) == d
    decreases |d|
  {
    if d == [] {
      assert d + rest == rest;
    } else {
      assert (d + rest)[1..] == d[1..] + rest;
      DigitPrefixOfDigits(d[1..], rest);
      assert [d[0]] + d[1..] == d;
    }
  }

  /** A string that does not start with white space is its own trimmed
      form. */
  lemma TrimStartAt(s: string)
    requires s != [] && !IsJsSpace(s[0])
    ensures TrimStart(s) == s
  {
  }

  lemma ParseIntAtDigit(s: string)
    requires s != [] && IsDigit(s[0])
    ensures ParseInt(s) == DigitRun(s)
  {
    TrimStartAt(s);
  }

  lemma ParseIntAtMinus(s: string, v: int)
    requires s != [] && s[0] == '-' && DigitRun(s[1..]) == Int(v)
    ensures ParseInt(s) == Int(-v)
  {
    TrimStartAt(s);
  }

  lemma ParseIntOfDigitRun(digits: string, rest: string)
    requires digits != [] && AllDigits(digits)
    requires rest == [] || !IsDigit(rest[0])
    ensures ParseInt(digits + rest) == Int(DigitsValue(digits))
  {
    DigitPrefixOfDigits(digits, rest);
    var s := digits + rest;
    assert s[0] == digits[0];
    ParseIntAtDigit(s);
    assert DigitRun(s) == Int(DigitsValue(digits));
  }

  /** parseInt reads back the decimal text of any integer, whatever follows
      the digits as long as it does not start with a digit. */
  lemma ParseIntOfIntToString(n: int, rest: string)
    requires rest == [] || !IsDigit(rest[0])
    ensures ParseInt(IntToString(n) + rest) == Int(n)
  {
    var m: nat := if n < 0 then -n else n;
    DigitsValueOfNatToString(m);
    if n < 0 {
      var d := NatToString(m);
      var s := IntToString(n) + rest;
      assert s == ['-'] + (d + rest);
      assert s[1..] == d + rest;
      DigitPrefixOfDigits(d, rest);
      assert DigitRun(s[1..]) == Int(m);
      ParseIntAtMinus(s, m);
    } else {
      ParseIntOfDigitRun(NatToString(m), rest);
    }
  }

  lemma ParseIntOfIntToStringExact(n: int)
    ensures ParseInt(IntToString(n)) == Int(n)
  {
    ParseIntOfIntToString(n, []);
    assert IntToString(n) + [] == IntToString(n);
  }

  /** Decimal text is injective, since parseInt inverts it. */
  lemma IntToStringInjective(a: int, b: int)
    requires IntToString(a) == IntToString(b)
    ensures a == b
  {
    ParseIntOfIntToStringExact(a);
    ParseIntOfIntToStringExact(b);
  }

  /** A field holding no digit at all parses to NaN. */
  lemma ParseIntWithoutDigits(s: string)
    requires forall i :: 0 <= i < |s| ==> !IsDigit(s[i])
    ensures ParseInt(s) == NaN
  {
    var t := TrimStart(s);
    var u := if t != [] && (t[0] == '-' || t[0] == '+') then t[1..] else t;
    assert u == s[|s| - |u|..];
    if u != [] {
      assert u[0] == s[|s| - |u|];
    }
  }

  // ---------------------------------------------------------------------------
  // Array element assignment `a[k] = x`

  /** The element view of `a` after `a[k] = x`, with holes as None.  A
      negative index names an ordinary property and leaves the elements
      alone; an index at or past the end grows the array, leaving holes. */
  function ArraySet<T>(a: seq<Option<T>>, k: int, x: T): (r: seq<Option<T>>)
    ensures k < 0 ==> r == a
    ensures k >= 0 ==> |r| == (if k < |a| then |a| else k + 1) && r[k] == Some(x)
    ensures forall i :: 0 <= i < |r| && i != k ==> r[i] == (if i < |a| then a[i] else None)
  {
    if k < 0 then a
    else if k < |a| then a[k := Some(x)]
    else a + seq(k - |a|, _ => None) + [Some(x)]
  }
}
