/** Text helpers shared by the request builder and the error types: `sep.join`,
    its inverse `s.split(sep)`, and the decimal rendering `str(n)` of integers. */
module Strings {
  import opened Wrappers

  /** A Python value that is either a `str` or `None`; `str(None)` is "None". */
  datatype MaybeText = Text(value: string) | NoneValue

  /** `str(t)`. */
  function Render(t: MaybeText): string {
    match t
    case Text(v) => v
    case NoneValue => "None"
  }

  // ---------------------------------------------------------------------------
  // join and split

  /** `sep.join(items)`: the items in order, with one separator between neighbours. */
  function Join(items: seq<string>, sep: char): (s: string)
    ensures items == [] ==> s == ""
    ensures |items| == 1 ==> s == items[0]
  {
    if |items| == 0 then ""
    else if |items| == 1 then items[0]
    else items[0] + [sep] + Join(items[1..], sep)
  }

  /** `s.split(sep)`: the maximal pieces of `s` free of `sep`, in order. */
  function Split(s: string, sep: char): (parts: seq<string>)
    ensures |parts| >= 1
    ensures forall i :: 0 <= i < |parts| ==> sep !in parts[i]
  {
    if s == [] then [""]
    else
      var rest := Split(s[1..], sep);
      if s[0] == sep then [""] + rest
      else [[s[0]] + rest[0]] + rest[1..]
  }

  lemma {:induction false} SplitSepFree(a: string, sep: char)
    requires sep !in a
    ensures Split(a, sep) == [a]
  {
    if a != [] {
      SplitSepFree(a[1..], sep);
      assert [a[0]] + a[1..] == a;
    }
  }

  lemma {:induction false} SplitAfterPiece(a: string, rest: string, sep: char)
    requires sep !in a
    ensures Split(a + [sep] + rest, sep) == [a] + Split(rest, sep)
  {
    if a == [] {
      assert a + [sep] + rest == [sep] + rest;
      assert ([sep] + rest)[1..] == rest;
    } else {
      SplitAfterPiece(a[1..], rest, sep);
      assert (a + [sep] + rest)[1..] == a[1..] + [sep] + rest;
      assert [a[0]] + a[1..] == a;
    }
  }

  /** Splitting a joined list at the separator gives the list back, provided it
      is non-empty (`''.split(',')` is `['']`) and no item holds the separator. */
  lemma {:induction false} SplitJoin(items: seq<string>, sep: char)
    requires items != []
    requires forall i :: 0 <= i < |items| ==> sep !in items[i]
    ensures Split(Join(items, sep), sep) == items
  {
    if |items| == 1 {
      SplitSepFree(items[0], sep);
    } else {
      SplitAfterPiece(items[0], Join(items[1..], sep), sep);
      SplitJoin(items[1..], sep);
      assert [items[0]] + items[1..] == items;
    }
  }

  /** Joining the pieces of a split gives the text back, for every text. */
  lemma {:induction false} JoinSplit(s: string, sep: char)
    ensures Join(Split(s, sep), sep) == s
  {
    if s != [] {
      var rest := Split(s[1..], sep);
      JoinSplit(s[1..], sep);
      if s[0] == sep {
        assert ([""] + rest)[1..] == rest;
        assert [s[0]] + s[1..] == s;
      } else if |rest| == 1 {
        assert [s[0]] + s[1..] == s;
      } else {
        var parts := [[s[0]] + rest[0]] + rest[1..];
        assert parts[1..] == rest[1..];
        assert [s[0]] + s[1..] == s;
      }
    }
  }

  /** Every character of a join is the separator or a character of an item. */
  lemma {:induction false} JoinKeeps(items: seq<string>, sep: char, ok: char -> bool)
    requires ok(sep)
    requires forall i, j :: 0 <= i < |items| && 0 <= j < |items[i]| ==> ok(items[i][j])
    ensures forall j :: 0 <= j < |Join(items, sep)| ==> ok(Join(items, sep)[j])
  {
    if |items| > 1 {
      JoinKeeps(items[1..], sep, ok);
      var tail := Join(items[1..], sep);
      assert Join(items, sep) == items[0] + [sep] + tail;
      forall j | 0 <= j < |Join(items, sep)| ensures ok(Join(items, sep)[j]) {
        if j < |items[0]| {
        } else if j == |items[0]| {
        } else {
          assert Join(items, sep)[j] == tail[j - |items[0]| - 1];
        }
      }
    }
  }

  // ---------------------------------------------------------------------------
  // decimal numbers

  predicate IsDigit(c: char) {
    '0' <= c <= '9'
  }

  predicate AllDigits(s: string) {
    forall i :: 0 <= i < |s| ==> IsDigit(s[i])
  }

  function DigitValue(c: char): nat
    requires IsDigit(c)
  {
    (c as int) - ('0' as int)
  }

  function DigitChar(d: nat): (c: char)
    requires d < 10
    ensures IsDigit(c) && DigitValue(c) == d
  {
    (('0' as int) + d) as char
  }

  function Pow10(w: nat): (p: nat)
    ensures p >= 1
  {
    if w == 0 then 1 else 10 * Pow10(w - 1)
  }

  /** The value of a string of decimal digits, most significant first. */
  function DecimalValue(s: string): nat
    requires AllDigits(s)
  {
    if s == [] then 0 else DecimalValue(s[..|s| - 1]) * 10 + DigitValue(s[|s| - 1])
  }

  /** `str(n)` for a natural number: no sign, no leading zeros. */
  function NatToDecimal(n: nat): (s: string)
    ensures s != [] && AllDigits(s)
  {
    if n < 10 then [DigitChar(n)] else NatToDecimal(n / 10) + [DigitChar(n % 10)]
  }

  /** `str(i)` for an integer: a minus sign before the digits of a negative. */
  function IntToDecimal(i: int): (s: string)
    ensures s != []
  {
    if i < 0 then "-" + NatToDecimal(-i) else NatToDecimal(i)
  }

  /** `'%0*d' % (w, n)` for `n < 10^w`: exactly `w` digits, zero-padded on the left. */
  function Digits(n: nat, w: nat): (s: string)
    ensures |s| == w && AllDigits(s)
  {
    if w == 0 then "" else Digits(n / 10, w - 1) + [DigitChar(n % 10)]
  }

  /** `int(s)` restricted to an optional minus sign followed by decimal digits. */
  function ParseInt(s: string): Option<int> {
    if |s| >= 2 && s[0] == '-' && AllDigits(s[1..]) then Some(-(DecimalValue(s[1..]) as int))
    else if s != [] && AllDigits(s) then Some(DecimalValue(s))
    else None
  }

  lemma {:induction false} DecimalOfNat(n: nat)
    ensures DecimalValue(NatToDecimal(n)) == n
  {
    if n >= 10 {
      DecimalOfNat(n / 10);
      var s := NatToDecimal(n);
      assert s[..|s| - 1] == NatToDecimal(n / 10);
    }
  }

  lemma {:induction false} DecimalOfDigits(n: nat, w: nat)
    requires n < Pow10(w)
    ensures DecimalValue(Digits(n, w)) == n
  {
    if w > 0 {
      assert n / 10 < Pow10(w - 1);
      DecimalOfDigits(n / 10, w - 1);
      var s := Digits(n, w);
      assert s[..|s| - 1] == Digits(n / 10, w - 1);
    }
  }

  /** Parsing the rendering of an integer gives the integer back. */
  lemma ParseIntToDecimal(i: int)
    ensures ParseInt(IntToDecimal(i)) == Some(i)
  {
    if i < 0 {
      var s := IntToDecimal(i);
      assert s[1..] == NatToDecimal(-i);
      DecimalOfNat(-i);
    } else {
      DecimalOfNat(i);
    }
  }

  /** A three-digit code renders as exactly three digits. */
  lemma ThreeDigits(n: nat)
    requires 100 <= n < 1000
    ensures |IntToDecimal(n)| == 3
  {
    assert 10 <= n / 10 < 100;
    assert 1 <= n / 100 < 10;
    assert n / 10 / 10 == n / 100;
    assert |NatToDecimal(n / 100)| == 1;
    assert |NatToDecimal(n / 10)| == 2;
  }

  /** The rendering `msg + infix + str(code)` of an error with a three-digit
      code can be taken apart again: the message is its prefix, the infix
      follows, and its last three characters parse back to the code. */
  lemma {:induction false} MessageAndCode(msg: string, infix: string, code: nat)
    requires 100 <= code < 1000
    ensures var s := msg + infix + IntToDecimal(code);
      |s| == |msg| + |infix| + 3 &&
      s[..|msg|] == msg &&
      s[|msg|..|s| - 3] == infix &&
      ParseInt(s[|s| - 3..]) == Some(code)
  {
    ThreeDigits(code);
    ParseIntToDecimal(code);
    var s := msg + infix + IntToDecimal(code);
    assert s[|s| - 3..] == IntToDecimal(code);
    assert s[..|msg|] == msg;
    assert s[|msg|..|s| - 3] == infix;
  }
}
