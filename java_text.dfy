/**
 * The few `java.lang.String`, `Integer` and `Long` operations the popup
 * application relies on, written out with Java's semantics: `split` with a
 * one-character separator (trailing empty fields dropped, interior and leading
 * ones kept), `trim`, ASCII case folding, decimal parsing with range checks and
 * two's-complement `long` arithmetic.
 */
module JavaText {

  datatype Option<+T> = None | Some(value: T)

  // ---------------------------------------------------------------------------
  // Searching
  // ---------------------------------------------------------------------------

  /** `s.indexOf(c)`: the first position of `c` in `s`, or -1. */
  function IndexOf(s: string, c: char): (r: int)
    ensures -1 <= r < |s|
    ensures r == -1 <==> c !in s
    ensures r >= 0 ==> s[r] == c && c !in s[..r]
  {
    if |s| == 0 then -1
    else if s[0] == c then 0
    else
      var k := IndexOf(s[1..], c);
      if k == -1 then -1
      else
        assert s[..k + 1] == [s[0]] + s[1..][..k];
        k + 1
  }

  lemma {:induction false} IndexOfAfterPrefix(a: string, c: char, b: string)
    requires c !in a
    ensures IndexOf(a + [c] + b, c) == |a|
  {
    var s := a + [c] + b;
    assert s[|a|] == c;
    assert s[..|a|] == a;
  }

  // ---------------------------------------------------------------------------
  // Splitting and joining
  // ---------------------------------------------------------------------------

  /** Every piece of `s` between two separators, empty pieces included. */
  function Fields(s: string, sep: char): (r: seq<string>)
    ensures |r| >= 1
    ensures forall i :: 0 <= i < |r| ==> sep !in r[i]
    decreases |s|
  {
    var k := IndexOf(s, sep);
    if k < 0 then [s] else [s[..k]] + Fields(s[k + 1..], sep)
  }

  /** `String.join` with a one-character separator. */
  function Join(xs: seq<string>, sep: char): string
  {
    if |xs| == 0 then ""
    else if |xs| == 1 then xs[0]
    else xs[0] + [sep] + Join(xs[1..], sep)
  }

  /** The step of `split` with limit 0 that removes trailing empty strings. */
  function DropTrailingEmpty(xs: seq<string>): (r: seq<string>)
    ensures |r| <= |xs| && r == xs[..|r|]
    ensures |r| > 0 ==> r[|r| - 1] != ""
    ensures forall i :: |r| <= i < |xs| ==> xs[i] == ""
  {
    if |xs| > 0 && xs[|xs| - 1] == "" then DropTrailingEmpty(xs[..|xs| - 1]) else xs
  }

  /** A non-empty element survives the dropping of trailing empty ones, and so does all before it. */
  lemma DropTrailingEmptyKeeps(xs: seq<string>, n: nat)
    requires n < |xs| && xs[n] != ""
    ensures n < |DropTrailingEmpty(xs)|
    ensures DropTrailingEmpty(xs)[..n + 1] == xs[..n + 1]
  {
  }

  /**
   * `s.split(regex)` for a regex matching the single character `sep`: a string
   * without the separator gives itself (even the empty string); otherwise the
   * fields, with trailing empty fields removed.
   */
  function Split(s: string, sep: char): (r: seq<string>)
    ensures forall i :: 0 <= i < |r| ==> sep !in r[i]
  {
    if sep !in s then [s] else DropTrailingEmpty(Fields(s, sep))
  }

  /** Joining the fields of `s` rebuilds `s`. */
  lemma {:induction false} JoinFields(s: string, sep: char)
    ensures Join(Fields(s, sep), sep) == s
    decreases |s|
  {
    var k := IndexOf(s, sep);
    if k >= 0 {
      var head, tail := s[..k], s[k + 1..];
      var f := Fields(tail, sep);
      JoinFields(tail, sep);
      var xs := [head] + f;
      assert Fields(s, sep) == xs;
      assert xs[1..] == f;
      assert Join(xs, sep) == head + [sep] + tail;
      assert s == head + [sep] + tail;
    }
  }

  /** Separator-free pieces survive a join followed by a field split. */
  lemma {:induction false} FieldsJoin(xs: seq<string>, sep: char)
    requires |xs| >= 1
    requires forall i :: 0 <= i < |xs| ==> sep !in xs[i]
    ensures Fields(Join(xs, sep), sep) == xs
  {
    if |xs| > 1 {
      var head, tail := xs[0], xs[1..];
      var rest := Join(tail, sep);
      var s := head + [sep] + rest;
      assert Join(xs, sep) == s;
      IndexOfAfterPrefix(head, sep, rest);
      assert s[..|head|] == head;
      assert s[|head| + 1..] == rest;
      assert Fields(s, sep) == [head] + Fields(rest, sep);
      FieldsJoin(tail, sep);
      assert xs == [head] + tail;
    }
  }

  lemma {:induction false} JoinContainsSeparator(xs: seq<string>, sep: char)
    requires |xs| >= 2
    ensures sep in Join(xs, sep)
  {
    assert Join(xs, sep)[|xs[0]|] == sep;
  }

  /**
   * `split` undoes a join of separator-free pieces as long as the last piece
   * is not empty (or is the only one): nothing is lost to the dropping of
   * trailing empty fields.
   */
  lemma {:induction false} SplitJoin(xs: seq<string>, sep: char)
    requires |xs| >= 1
    requires forall i :: 0 <= i < |xs| ==> sep !in xs[i]
    requires |xs| >= 2 ==> xs[|xs| - 1] != ""
    ensures Split(Join(xs, sep), sep) == xs
  {
    if |xs| >= 2 {
      JoinContainsSeparator(xs, sep);
      FieldsJoin(xs, sep);
    }
  }

  /**
   * With two or more separator-free pieces, `split` of their join gives the
   * pieces back less their trailing empty ones.
   */
  lemma SplitJoinDrops(xs: seq<string>, sep: char)
    requires |xs| >= 2
    requires forall i :: 0 <= i < |xs| ==> sep !in xs[i]
    ensures Split(Join(xs, sep), sep) == DropTrailingEmpty(xs)
  {
    JoinContainsSeparator(xs, sep);
    FieldsJoin(xs, sep);
  }

  /**
   * One step of the source's `StringBuffer` loops: a separator goes before the
   * item unless the buffer is still empty.
   */
  function AppendSeparated(acc: string, sep: char, item: string): string
  {
    (if acc != "" then acc + [sep] else acc) + item
  }

  /** The buffer after appending every item with `AppendSeparated`, left to right. */
  function JoinSeparated(items: seq<string>, sep: char): string
  {
    if |items| == 0 then ""
    else AppendSeparated(JoinSeparated(items[..|items| - 1], sep), sep, items[|items| - 1])
  }

  lemma JoinSeparatedSnoc(xs: seq<string>, y: string, sep: char)
    ensures JoinSeparated(xs + [y], sep) == AppendSeparated(JoinSeparated(xs, sep), sep, y)
  {
    assert (xs + [y])[..|xs|] == xs;
  }

  lemma {:induction false} JoinSnoc(xs: seq<string>, y: string, sep: char)
    requires |xs| >= 1
    ensures Join(xs + [y], sep) == Join(xs, sep) + [sep] + y
  {
    if |xs| == 1 {
      assert (xs + [y])[1..] == [y];
    } else {
      assert (xs + [y])[1..] == xs[1..] + [y];
      JoinSnoc(xs[1..], y, sep);
    }
  }

  lemma {:induction false} JoinNonEmpty(xs: seq<string>, sep: char)
    requires |xs| >= 1 && xs[0] != ""
    ensures Join(xs, sep) != ""
  {
    assert |Join(xs, sep)| >= |xs[0]|;
  }

  /**
   * When no item is empty, the builder loop produces exactly the items joined
   * by the separator: no leading or trailing separator.
   */
  lemma {:induction false} JoinSeparatedIsJoin(items: seq<string>, sep: char)
    requires forall i :: 0 <= i < |items| ==> items[i] != ""
    ensures JoinSeparated(items, sep) == Join(items, sep)
  {
    if |items| >= 2 {
      var init := items[..|items| - 1];
      JoinSeparatedIsJoin(init, sep);
      JoinNonEmpty(init, sep);
      JoinSnoc(init, items[|items| - 1], sep);
      assert items == init + [items[|items| - 1]];
    } else if |items| == 1 {
      assert items[..0] == [];
    }
  }

  // ---------------------------------------------------------------------------
  // Trimming and case
  // ---------------------------------------------------------------------------

  /** `String.trim` removes every character up to U+0020 at both ends. */
  predicate IsTrimmed(s: string)
  {
    |s| == 0 || (s[0] > ' ' && s[|s| - 1] > ' ')
  }

  function TrimStart(s: string): (r: string)
    ensures |r| <= |s| && r == s[|s| - |r|..]
    ensures |r| > 0 ==> r[0] > ' '
  {
    if |s| > 0 && s[0] <= ' ' then TrimStart(s[1..]) else s
  }

  function TrimEnd(s: string): (r: string)
    ensures |r| <= |s| && r == s[..|r|]
    ensures |r| > 0 ==> r[|r| - 1] > ' '
  {
    if |s| > 0 && s[|s| - 1] <= ' ' then TrimEnd(s[..|s| - 1]) else s
  }

  /** `s.trim()`. */
  function Trim(s: string): (r: string)
    ensures IsTrimmed(r)
    ensures IsTrimmed(s) ==> r == s
  {
    var t := TrimStart(s);
    var r := TrimEnd(t);
    assert |r| > 0 ==> r[0] == t[0];
    r
  }

  function ToLowerChar(c: char): char
  {
    if 'A' <= c <= 'Z' then (c as int + 32) as char else c
  }

  /**
   * `s.toLowerCase()` restricted to ASCII letters. Matching the result against
   * an ASCII word (as the source does) gives Java's answer.
   */
  function ToLower(s: string): (r: string)
    ensures |r| == |s|
    ensures forall i :: 0 <= i < |s| ==> r[i] == ToLowerChar(s[i])
  {
    seq(|s|, i requires 0 <= i < |s| => ToLowerChar(s[i]))
  }

  /** `a.equalsIgnoreCase(b)` for ASCII letters. */
  predicate EqualsIgnoreCase(a: string, b: string)
  {
    ToLower(a) == ToLower(b)
  }

  // ---------------------------------------------------------------------------
  // Decimal numbers
  // ---------------------------------------------------------------------------

  const IntMin: int := -0x8000_0000
  const IntMax: int := 0x7FFF_FFFF
  const LongMin: int := -0x8000_0000_0000_0000
  const LongMax: int := 0x7FFF_FFFF_FFFF_FFFF
  const LongModulus: int := 0x1_0000_0000_0000_0000

  predicate IsDigit(c: char)
  {
    '0' <= c <= '9'
  }

  predicate AllDigits(s: string)
  {
    forall i :: 0 <= i < |s| ==> IsDigit(s[i])
  }

  function DigitValue(c: char): nat
    requires IsDigit(c)
  {
    c as int - '0' as int
  }

  function DigitsValue(s: string): nat
    requires AllDigits(s)
  {
    if |s| == 0 then 0 else DigitsValue(s[..|s| - 1]) * 10 + DigitValue(s[|s| - 1])
  }

  /**
   * `Integer.parseInt` / `Long.parseLong` on ASCII text: an optional sign, at
   * least one digit, and a value in [lo, hi]; `None` stands for the
   * `NumberFormatException` the source would get.
   */
  function ParseDecimal(s: string, lo: int, hi: int): (r: Option<int>)
    ensures r.Some? ==> lo <= r.value <= hi
    ensures r.Some? ==> |s| > 0
  {
    if |s| == 0 then None
    else
      var digits := if s[0] == '-' || s[0] == '+' then s[1..] else s;
      if |digits| == 0 || !AllDigits(digits) then None
      else
        var v: int := if s[0] == '-' then -(DigitsValue(digits) as int) else DigitsValue(digits);
        if lo <= v <= hi then Some(v) else None
  }

  function ParseInt(s: string): (r: Option<int>)
  {
    ParseDecimal(s, IntMin, IntMax)
  }

  function ParseLong(s: string): (r: Option<int>)
  {
    ParseDecimal(s, LongMin, LongMax)
  }

  function DigitChar(d: nat): (c: char)
    requires d < 10
    ensures IsDigit(c) && DigitValue(c) == d
  {
    ('0' as int + d) as char
  }

  /** Decimal digits of `n`, without leading zeros. */
  function NatToDecimal(n: nat): (r: string)
    ensures |r| >= 1 && AllDigits(r)
    ensures |r| > 1 ==> r[0] != '0'
    decreases n
  {
    if n < 10 then [DigitChar(n)]
    else
      var p := NatToDecimal(n / 10);
      assert (p + [DigitChar(n % 10)])[0] == p[0];
      p + [DigitChar(n % 10)]
  }

  /** `String.valueOf(long)` and `"" + long`. */
  function LongToString(n: int): string
  {
    if n < 0 then "-" + NatToDecimal(-n) else NatToDecimal(n)
  }

  lemma {:induction false} DigitsOfDecimal(n: nat)
    ensures DigitsValue(NatToDecimal(n)) == n
    decreases n
  {
    if n >= 10 {
      var p := NatToDecimal(n / 10);
      var s := p + [DigitChar(n % 10)];
      assert s[..|s| - 1] == p;
      DigitsOfDecimal(n / 10);
    }
  }

  /** A `long` printed in decimal parses back to itself. */
  lemma LongToStringParses(n: int)
    requires LongMin <= n <= LongMax
    ensures ParseLong(LongToString(n)) == Some(n)
  {
    if n < 0 {
      var d := NatToDecimal(-n);
      assert ("-" + d)[1..] == d;
      DigitsOfDecimal(-n);
    } else {
      DigitsOfDecimal(n);
    }
  }

  /** Two's-complement reduction of an exact integer to a Java `long`. */
  function Wrap64(x: int): (r: int)
    ensures LongMin <= r <= LongMax
    ensures LongMin <= x <= LongMax ==> r == x
    ensures (x - r) % LongModulus == 0
  {
    var m := (x - LongMin) % LongModulus;
    assert LongMin <= x <= LongMax ==> m == x - LongMin;
    assert x - (m + LongMin) == LongModulus * ((x - LongMin) / LongModulus);
    m + LongMin
  }
}
