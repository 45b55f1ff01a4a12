/**
 * The parts of java.lang the modelled classes rely on, with Java's own
 * semantics: fixed-width integers, `String.indexOf`, `String.split` with a
 * one-character pattern, `String.trim`, `Integer.parseInt`, the decimal
 * rendering of `int`/`long`, the rendering of `null` by string
 * concatenation, and `StringBuilder.append`.
 */
module JavaLang {
  import opened Wrappers

  const INT_MIN: int := -0x8000_0000
  const INT_MAX: int := 0x7fff_ffff

  /** Java `int`. */
  type Int32 = x: int | -0x8000_0000 <= x <= 0x7fff_ffff

  /** Java `long`. */
  type Long = x: int | -0x8000_0000_0000_0000 <= x <= 0x7fff_ffff_ffff_ffff

  /** `Long.intValue()`: the low 32 bits read as a two's-complement `int`. */
  function IntValue(x: int): (r: Int32)
    ensures (r - x) % 0x1_0000_0000 == 0
    ensures INT_MIN <= x <= INT_MAX ==> r == x
  {
    (x + 0x8000_0000) % 0x1_0000_0000 - 0x8000_0000
  }

  /** The `long` that `x` becomes after two's-complement wrap-around. */
  function WrapLong(x: int): (r: Long)
    ensures (r - x) % 0x1_0000_0000_0000_0000 == 0
    ensures -0x8000_0000_0000_0000 <= x <= 0x7fff_ffff_ffff_ffff ==> r == x
  {
    (x + 0x8000_0000_0000_0000) % 0x1_0000_0000_0000_0000 - 0x8000_0000_0000_0000
  }

  /** String concatenation renders a `null` reference as "null". */
  function Str(s: Option<string>): (r: string)
    ensures s.None? ==> r == "null"
    ensures s.Some? ==> r == s.value
  {
    if s.Some? then s.value else "null"
  }

  /** `StringUtils.isEmpty`: null or the empty string. */
  predicate IsEmpty(s: Option<string>) {
    s.None? || s.value == ""
  }

  predicate StartsWith(s: string, prefix: string) {
    |prefix| <= |s| && s[..|prefix|] == prefix
  }

  predicate EndsWith(s: string, suffix: string) {
    |suffix| <= |s| && s[|s| - |suffix|..] == suffix
  }

  /** `t` occurs in `s` starting at index `k`. */
  predicate OccursAt(s: string, t: string, k: int) {
    0 <= k && k + |t| <= |s| && s[k..k + |t|] == t
  }

  /** `String.contains`. */
  predicate Contains(s: string, t: string) {
    exists k :: 0 <= k <= |s| && OccursAt(s, t, k)
  }

  /** `String.indexOf(String)`: the first occurrence of `t`, or -1. */
  function IndexOf(s: string, t: string): (r: int)
    ensures r == -1 || OccursAt(s, t, r)
    ensures r == -1 <==> !Contains(s, t)
    ensures forall k :: 0 <= k < r ==> !OccursAt(s, t, k)
  {
    IndexFrom(s, t, 0)
  }

  function IndexFrom(s: string, t: string, from: nat): (r: int)
    requires forall k :: 0 <= k < from ==> !OccursAt(s, t, k)
    ensures r == -1 || (from <= r && OccursAt(s, t, r))
    ensures r == -1 <==> !Contains(s, t)
    ensures forall k :: 0 <= k < r ==> !OccursAt(s, t, k)
    decreases |s| + 1 - from
  {
    if from + |t| > |s| then
      assert forall k :: 0 <= k <= |s| ==> !OccursAt(s, t, k);
      -1
    else if s[from..from + |t|] == t then
      assert OccursAt(s, t, from);
      from
    else
      IndexFrom(s, t, from + 1)
  }

  /** `String.indexOf(char)`: the first index of `c`, or -1. */
  function CharIndex(s: string, c: char): (r: int)
    ensures -1 <= r < |s|
    ensures r == -1 <==> c !in s
    ensures r >= 0 ==> s[r] == c && c !in s[..r]
  {
    if |s| == 0 then -1
    else if s[0] == c then 0
    else
      var k := CharIndex(s[1..], c);
      if k < 0 then -1
      else
        assert s[..k + 1] == [s[0]] + s[1..][..k];
        k + 1
  }

  /** Every piece between occurrences of `c`, empty ones included. */
  function SplitAll(s: string, c: char): (r: seq<string>)
    ensures |r| >= 1
    ensures forall i :: 0 <= i < |r| ==> c !in r[i]
    ensures c in s ==> r[0] == s[..CharIndex(s, c)]
    decreases |s|
  {
    var k := CharIndex(s, c);
    if k < 0 then [s] else [s[..k]] + SplitAll(s[k + 1..], c)
  }

  /** The pieces put back together with `c` between them. */
  function Join(pieces: seq<string>, c: char): string {
    if |pieces| == 0 then ""
    else if |pieces| == 1 then pieces[0]
    else pieces[0] + [c] + Join(pieces[1..], c)
  }

  /** Splitting and joining again gives back the string. */
  lemma {:induction false} SplitAllJoin(s: string, c: char)
    ensures Join(SplitAll(s, c), c) == s
    decreases |s|
  {
    var k := CharIndex(s, c);
    if k >= 0 {
      var rest := s[k + 1..];
      var pieces := SplitAll(rest, c);
      SplitAllJoin(rest, c);
      JoinAround(s, k, c, pieces);
      assert SplitAll(s, c) == [s[..k]] + pieces;
    }
  }

  /** Joining the piece before position `k` with pieces that join to what follows it gives `s`. */
  lemma JoinAround(s: string, k: nat, c: char, pieces: seq<string>)
    requires k < |s| && s[k] == c && |pieces| >= 1 && Join(pieces, c) == s[k + 1..]
    ensures Join([s[..k]] + pieces, c) == s
  {
    assert ([s[..k]] + pieces)[1..] == pieces;
    assert Join([s[..k]] + pieces, c) == s[..k] + [c] + s[k + 1..];
    assert s == s[..k] + [s[k]] + s[k + 1..];
  }

  /** `String.split` with limit 0 drops the trailing empty pieces. */
  function DropTrailingEmpty(pieces: seq<string>): (r: seq<string>)
    ensures |r| <= |pieces| && r == pieces[..|r|]
    ensures |r| > 0 ==> r[|r| - 1] != ""
    ensures forall i :: |r| <= i < |pieces| ==> pieces[i] == ""
  {
    if |pieces| > 0 && pieces[|pieces| - 1] == "" then DropTrailingEmpty(pieces[..|pieces| - 1])
    else pieces
  }

  /**
   * `s.split(p)` where `p` is a single character that is not a regular
   * expression metacharacter (":" and ";" here): without an occurrence the
   * result is `[s]`, even for the empty string; otherwise the pieces with the
   * trailing empty ones removed, so the result may be empty.
   */
  function Split(s: string, c: char): (r: seq<string>)
    ensures forall i :: 0 <= i < |r| ==> c !in r[i]
    ensures c !in s ==> r == [s]
    ensures c in s ==> |r| <= |SplitAll(s, c)| && r == SplitAll(s, c)[..|r|]
    ensures c in s ==> (|r| > 0 ==> r[|r| - 1] != "") && forall i :: |r| <= i < |SplitAll(s, c)| ==> SplitAll(s, c)[i] == ""
  {
    if c !in s then [s] else DropTrailingEmpty(SplitAll(s, c))
  }

  lemma StartsWithAppend(s: string, prefix: string, more: string)
    requires StartsWith(s, prefix)
    ensures StartsWith(s + more, prefix)
  {
    assert (s + more)[..|prefix|] == s[..|prefix|];
  }

  lemma EndsWithAppend(s: string, suffix: string, more: string)
    requires EndsWith(s, suffix)
    ensures EndsWith(s + more, suffix + more)
  {
    var t := s + more;
    assert t[|t| - |suffix + more|..] == s[|s| - |suffix|..] + more;
  }

  /** The first piece of a split with an occurrence of `c` is what precedes the first `c`. */
  lemma SplitFirstPiece(s: string, c: char)
    requires c in s && |Split(s, c)| > 0
    ensures StartsWith(s, Split(s, c)[0] + [c])
  {
    var k := CharIndex(s, c);
    assert Split(s, c)[0] == s[..k];
    assert s[..k + 1] == s[..k] + [c];
  }

  /** `String.trim` removes leading and trailing characters up to U+0020. */
  function Trim(s: string): (r: string)
    ensures |r| > 0 ==> r[0] > ' ' && r[|r| - 1] > ' '
    ensures (forall i :: 0 <= i < |s| ==> s[i] <= ' ') ==> r == ""
    ensures |s| > 0 && s[0] > ' ' && s[|s| - 1] > ' ' ==> r == s
    ensures TrimmedAt(s, r, |s| - |TrimStart(s)|)
  {
    TrimmedByParts(s, TrimStart(s), TrimEnd(TrimStart(s)));
    TrimEnd(TrimStart(s))
  }

  /** `r` is `s` from index `a` on, less only characters up to U+0020 at either end. */
  predicate TrimmedAt(s: string, r: string, a: int) {
    && 0 <= a <= |s| - |r| && r == s[a..a + |r|]
    && (forall i :: 0 <= i < a ==> s[i] <= ' ')
    && (forall i :: a + |r| <= i < |s| ==> s[i] <= ' ')
  }

  /** A blank-free start of `s` followed by a blank-free end of what remains is a trimming of `s`. */
  lemma TrimmedByParts(s: string, t: string, r: string)
    requires |t| <= |s| && t == s[|s| - |t|..] && forall i :: 0 <= i < |s| - |t| ==> s[i] <= ' '
    requires |r| <= |t| && r == t[..|r|] && forall i :: |r| <= i < |t| ==> t[i] <= ' '
    ensures TrimmedAt(s, r, |s| - |t|)
  {
    var a := |s| - |t|;
    assert r == s[a..a + |r|];
    forall i | a + |r| <= i < |s|
      ensures s[i] <= ' '
    {
      assert s[i] == t[i - a];
    }
  }

  function TrimStart(s: string): (r: string)
    ensures |r| <= |s| && r == s[|s| - |r|..]
    ensures |r| > 0 ==> r[0] > ' '
    ensures forall i :: 0 <= i < |s| - |r| ==> s[i] <= ' '
  {
    if |s| > 0 && s[0] <= ' ' then TrimStart(s[1..]) else s
  }

  function TrimEnd(s: string): (r: string)
    ensures |r| <= |s| && r == s[..|r|]
    ensures |r| > 0 ==> r[|r| - 1] > ' '
    ensures forall i :: |r| <= i < |s| ==> s[i] <= ' '
  {
    if |s| > 0 && s[|s| - 1] <= ' ' then TrimEnd(s[..|s| - 1]) else s
  }

  /** Trimming a trimmed string changes nothing. */
  lemma TrimIdempotent(s: string)
    ensures Trim(Trim(s)) == Trim(s)
  {
  }

  predicate IsDigit(c: char) {
    '0' <= c <= '9'
  }

  predicate AllDigits(s: string) {
    forall i :: 0 <= i < |s| ==> IsDigit(s[i])
  }

  function DigitChar(d: nat): (c: char)
    requires d < 10
    ensures IsDigit(c)
  {
    ('0' as int + d) as char
  }

  /** The value of a run of decimal digits, most significant first. */
  function DigitsValue(s: string): nat
    requires AllDigits(s)
  {
    if |s| == 0 then 0 else DigitsValue(s[..|s| - 1]) * 10 + (s[|s| - 1] as int - '0' as int)
  }

  /**
   * `Integer.parseInt(s)`: an optional '-' or '+' followed by at least one
   * decimal digit, whose value fits an `int`; `None` where Java throws
   * `NumberFormatException`.
   */
  function ParseInt(s: string): (r: Option<Int32>)
    ensures r.Some? ==> |s| > 0 && (IsDigit(s[0]) || s[0] == '-' || s[0] == '+')
    ensures r.Some? ==> forall i :: 0 < i < |s| ==> IsDigit(s[i])
    ensures var digits := if |s| > 0 && (s[0] == '-' || s[0] == '+') then s[1..] else s;
      && (r.Some? <==> |s| > 0 && |digits| > 0 && AllDigits(digits)
                       && INT_MIN <= (if s[0] == '-' then -(DigitsValue(digits) as int) else DigitsValue(digits) as int) <= INT_MAX)
      && (r.Some? ==> r.value as int == if s[0] == '-' then -(DigitsValue(digits) as int) else DigitsValue(digits) as int)
  {
    if |s| == 0 then None
    else
      var digits := if s[0] == '-' || s[0] == '+' then s[1..] else s;
      if |digits| == 0 || !AllDigits(digits) then None
      else
        var v: int := if s[0] == '-' then -(DigitsValue(digits) as int) else DigitsValue(digits) as int;
        if INT_MIN <= v <= INT_MAX then Some(v) else None
  }

  /** The decimal digits of `n`, without leading zeros. */
  function NatToString(n: nat): (r: string)
    ensures |r| >= 1 && AllDigits(r)
    ensures n > 0 ==> r[0] != '0'
  {
    if n < 10 then [DigitChar(n)] else NatToString(n / 10) + [DigitChar(n % 10)]
  }

  /** `Integer.toString` / `Long.toString`, as string concatenation renders a number. */
  function IntToString(n: int): (r: string)
    ensures |r| >= 1 && (r[0] == '-' <==> n < 0)
    ensures n >= 0 ==> AllDigits(r)
    ensures n < 0 ==> AllDigits(r[1..])
  {
    if n < 0 then "-" + NatToString(-n) else NatToString(n)
  }

  lemma {:induction false} DigitsValueOfNatToString(n: nat)
    ensures DigitsValue(NatToString(n)) == n
  {
    if n >= 10 {
      DigitsValueOfNatToString(n / 10);
      var s := NatToString(n);
      assert s[..|s| - 1] == NatToString(n / 10);
    }
  }

  /** Rendering an `int` and parsing it back gives the same `int`. */
  lemma ParseIntToString(n: Int32)
    ensures ParseInt(IntToString(n)) == Some(n)
  {
    var m: nat := if n < 0 then -(n as int) else n as int;
    var digits := NatToString(m);
    DigitsValueOfNatToString(m);
    assert IsDigit(digits[0]);
    if n < 0 {
      var s := "-" + digits;
      assert IntToString(n) == s;
      assert s[0] == '-' && s[1..] == digits;
      assert ParseInt(s) == Some(n);
    } else {
      assert IntToString(n) == digits;
      assert digits[0] != '-' && digits[0] != '+';
      assert ParseInt(digits) == Some(n);
    }
  }

  /** `String.valueOf(boolean)`. */
  function BoolToString(b: bool): (r: string)
    ensures r == "true" <==> b
    ensures r == "false" <==> !b
  {
    if b then "true" else "false"
  }

  /** `java.lang.StringBuilder`, reduced to what is appended to it. */
  class StringBuilder {
    var contents: string

    constructor ()
      ensures contents == ""
    {
      contents := "";
    }

    method Append(s: string)
      modifies this
      ensures contents == old(contents) + s
    {
      contents := contents + s;
    }
  }
}
