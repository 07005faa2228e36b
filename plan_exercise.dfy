/**
 * The exercises of a workout plan, as the guided workout and the strength
 * log form receive them, and the rep count both derive from a plan entry
 * whose `reps` may be a number or a text such as "12", "8-12" or
 * "30 seconds": `parseInt(reps.split('-')[0] || '0')`.
 */
module PlanExercises {
  import opened Common
  import opened Decimal

  /** `reps: number | string`. */
  datatype Reps = Count(n: real) | Text(s: string)

  /** One exercise of a plan: how many sets, of how many reps, with how much rest between them. */
  datatype PlanExercise = PlanExercise(
    exerciseId: string,
    exerciseName: string,
    sets: nat,
    reps: Reps,
    restSeconds: int)

  /** The characters `parseInt` skips before the number: white space and line terminators. */
  predicate IsSpace(c: char) {
    var k := c as int;
    k == 0x09 || k == 0x0A || k == 0x0B || k == 0x0C || k == 0x0D || k == 0x20 || k == 0xA0 ||
    k == 0x1680 || (0x2000 <= k <= 0x200A) || k == 0x2028 || k == 0x2029 || k == 0x202F ||
    k == 0x205F || k == 0x3000 || k == 0xFEFF
  }

  /** `s` without its leading white space. */
  function TrimStart(s: string): (r: string)
    ensures |r| <= |s| && r == s[|s| - |r|..]
    ensures r == [] || !IsSpace(r[0])
    ensures forall i :: 0 <= i < |s| - |r| ==> IsSpace(s[i])
  {
    if s != [] && IsSpace(s[0]) then TrimStart(s[1..]) else s
  }

  /** The longest prefix of `s` made of decimal digits. */
  function DigitPrefix(s: string): (r: string)
    ensures AllDigits(r) && |r| <= |s| && r == s[..|r|]
    ensures |r| < |s| ==> !IsDigit(s[|r|])
  {
    if s != [] && IsDigit(s[0]) then [s[0]] + DigitPrefix(s[1..]) else []
  }

  predicate IsHexDigit(c: char) {
    IsDigit(c) || 'a' <= c <= 'f' || 'A' <= c <= 'F'
  }

  function HexDigitValue(c: char): (d: nat)
    requires IsHexDigit(c)
    ensures d < 16
  {
    if IsDigit(c) then c as int - '0' as int
    else if 'a' <= c <= 'f' then c as int - 'a' as int + 10
    else c as int - 'A' as int + 10
  }

  /** The longest prefix of `s` made of hexadecimal digits. */
  function HexPrefix(s: string): (r: string)
    ensures |r| <= |s| && r == s[..|r|]
    ensures forall i :: 0 <= i < |r| ==> IsHexDigit(r[i])
    ensures |r| < |s| ==> !IsHexDigit(s[|r|])
  {
    if s != [] && IsHexDigit(s[0]) then [s[0]] + HexPrefix(s[1..]) else []
  }

  /** The number a string of hexadecimal digits denotes. */
  function HexValue(s: string): nat
    requires forall i :: 0 <= i < |s| ==> IsHexDigit(s[i])
  {
    if s == [] then 0 else HexValue(s[..|s| - 1]) * 16 + HexDigitValue(s[|s| - 1])
  }

  /**
   * The digits after the sign: a `0x`/`0X` prefix switches to hexadecimal,
   * then the longest run of digits is read; `None` when that run is empty.
   */
  function ParseUnsigned(u: string): (r: Option<nat>)
  {
    if |u| >= 2 && u[0] == '0' && (u[1] == 'x' || u[1] == 'X') then
      var h := HexPrefix(u[2..]);
      if h == [] then None else Some(HexValue(h))
    else
      var d := DigitPrefix(u);
      if d == [] then None else Some(Value(d))
  }

  /**
   * `parseInt(s)` with no radix: leading white space skipped, one optional
   * sign, then the digits; `None` stands for `NaN`.
   */
  function ParseInt(s: string): (r: Option<int>)
  {
    var t := TrimStart(s);
    if t != [] && t[0] == '-' then
      match ParseUnsigned(t[1..])
      case Some(v) => Some(-(v as int))
      case None => None
    else if t != [] && t[0] == '+' then
      match ParseUnsigned(t[1..])
      case Some(v) => Some(v)
      case None => None
    else
      match ParseUnsigned(t)
      case Some(v) => Some(v)
      case None => None
  }

  /** `s.split('-')[0]`: everything before the first hyphen, or all of `s` when it has none. */
  function BeforeHyphen(s: string): (r: string)
    ensures |r| <= |s| && r == s[..|r|]
    ensures forall i :: 0 <= i < |r| ==> r[i] != '-'
    ensures |r| < |s| ==> s[|r|] == '-'
  {
    if s == [] || s[0] == '-' then [] else [s[0]] + BeforeHyphen(s[1..])
  }

  /** The rep count a plan entry stands for; `None` when `parseInt` gives `NaN`. */
  function RepsOf(reps: Reps): (r: Option<real>)
    ensures reps.Count? ==> r == Some(reps.n)
  {
    match reps
    case Count(n) => Some(n)
    case Text(s) =>
      var head := BeforeHyphen(s);
      match ParseInt(if head == [] then "0" else head)
      case Some(v) => Some(v as real)
      case None => None
  }

  /** Digits that `parseInt` reads up to the first non-digit. */
  lemma {:induction false} DigitPrefixOfNumeral(d: string, rest: string)
    requires AllDigits(d)
    requires rest == [] || !IsDigit(rest[0])
    ensures DigitPrefix(d + rest) == d
  {
    if d != [] {
      assert (d + rest)[1..] == d[1..] + rest;
      DigitPrefixOfNumeral(d[1..], rest);
    }
  }

  /**
   * `parseInt` reads back a printed number followed by anything that does
   * not continue it: `parseInt("30 seconds")` is 30.
   */
  lemma ParseIntReadsNumeral(n: nat, rest: string)
    requires rest == [] || !IsDigit(rest[0])
    requires n == 0 ==> rest == [] || (rest[0] != 'x' && rest[0] != 'X')
    ensures ParseInt(NatToString(n) + rest) == Some(n)
  {
    var d := NatToString(n);
    var s := d + rest;
    assert s[0] == d[0];
    assert !(|s| >= 2 && s[0] == '0' && (s[1] == 'x' || s[1] == 'X')) by {
      if n < 10 {
        assert d == [DigitChar(n)];
        if |s| >= 2 {
          assert s[1] == rest[0];
        }
      } else {
        assert d[0] != '0';
      }
    }
    DigitPrefixOfNumeral(d, rest);
    NatToStringValue(n);
    ParseIntDecimal(s);
  }

  /** Text that starts with a digit and no `0x` prefix is read as decimal. */
  lemma ParseIntDecimal(s: string)
    requires s != [] && IsDigit(s[0])
    requires !(|s| >= 2 && s[0] == '0' && (s[1] == 'x' || s[1] == 'X'))
    ensures ParseInt(s) == Some(Value(DigitPrefix(s)))
  {
    TrimStartAtDigit(s);
    ParseUnsignedDecimal(s);
  }

  lemma TrimStartAtDigit(s: string)
    requires s != [] && IsDigit(s[0])
    ensures TrimStart(s) == s
  {
    assert !IsSpace(s[0]);
  }

  lemma ParseUnsignedDecimal(s: string)
    requires s != [] && IsDigit(s[0])
    requires !(|s| >= 2 && s[0] == '0' && (s[1] == 'x' || s[1] == 'X'))
    ensures ParseUnsigned(s) == Some(Value(DigitPrefix(s)))
  {
    assert DigitPrefix(s) != [];
  }

  /**
   * A range "a-b" in a plan stands for its lower bound `a`, and a plain
   * number written as text stands for itself.
   */
  lemma RangeStandsForLowerBound(a: nat, tail: string)
    requires tail == [] || tail[0] == '-'
    ensures RepsOf(Text(NatToString(a) + tail)) == Some(a as real)
  {
    var d := NatToString(a);
    BeforeHyphenOfNumeral(d, tail);
    ParseIntReadsNumeral(a, []);
    assert d + [] == d;
  }

  lemma {:induction false} BeforeHyphenOfNumeral(d: string, tail: string)
    requires AllDigits(d)
    requires tail == [] || tail[0] == '-'
    ensures BeforeHyphen(d + tail) == d
  {
    if d != [] {
      assert (d + tail)[1..] == d[1..] + tail;
      BeforeHyphenOfNumeral(d[1..], tail);
    }
  }

  /** An empty text, or one that starts with a hyphen, counts as 0 reps. */
  lemma EmptyHeadIsZero(s: string)
    requires s == [] || s[0] == '-'
    ensures RepsOf(Text(s)) == Some(0.0)
  {
    assert BeforeHyphen(s) == [];
    ParseIntReadsNumeral(0, []);
    assert NatToString(0) + [] == "0";
  }

  /** A text whose head has no leading number, such as "max", counts as `NaN`. */
  lemma NoNumberIsNaN(s: string)
    requires s != [] && s[0] != '-' && !IsDigit(s[0]) && !IsSpace(s[0]) && s[0] != '+'
    ensures RepsOf(Text(s)) == None
  {
    var head := BeforeHyphen(s);
    assert head[0] == s[0];
    assert TrimStart(head) == head;
  }
}
