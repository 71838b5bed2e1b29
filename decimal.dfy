/**
 * Decimal rendering of counters, as `String(n)` does for the sprint and
 * comment ids ("1", "2", ...), and the reading back that shows the rendering
 * loses nothing: distinct numbers give distinct ids.
 */
module Decimal {

  predicate IsDigit(c: char)
  {
    '0' <= c <= '9'
  }

  function DigitChar(d: nat): (c: char)
    requires d < 10
    ensures IsDigit(c) && c as int - '0' as int == d
  {
    ('0' as int + d) as char
  }

  /** `String(n)` for a non-negative integer: its decimal digits, no leading zeros. */
  function NatToString(n: nat): (s: string)
    ensures 1 <= |s|
    ensures forall i :: 0 <= i < |s| ==> IsDigit(s[i])
    ensures s[0] == '0' ==> n == 0
  {
    if n < 10 then [DigitChar(n)]
    else NatToString(n / 10) + [DigitChar(n % 10)]
  }

  /** The value of a string of decimal digits. */
  function ParseDecimal(s: string): nat
    requires forall i :: 0 <= i < |s| ==> IsDigit(s[i])
  {
    if s == [] then 0
    else
      assert IsDigit(s[|s| - 1]);
      ParseDecimal(s[..|s| - 1]) * 10 + (s[|s| - 1] as int - '0' as int)
  }

  /** Reading a rendered number back gives the number. */
  lemma {:induction false} ParseNatToString(n: nat)
    ensures ParseDecimal(NatToString(n)) == n
  {
    var s := NatToString(n);
    if n >= 10 {
      ParseNatToString(n / 10);
      assert s[..|s| - 1] == NatToString(n / 10);
    }
  }

  /** Rendering is injective. */
  lemma NatToStringInjective(m: nat, n: nat)
    ensures NatToString(m) == NatToString(n) <==> m == n
  {
    if NatToString(m) == NatToString(n) {
      ParseNatToString(m);
      ParseNatToString(n);
    }
  }

  /** Ids "1", "2", ..., "n" in this order. */
  predicate SequentialIds(ids: seq<string>)
  {
    forall i :: 0 <= i < |ids| ==> ids[i] == NatToString(i + 1)
  }

  /** Appending the next counter value `String(length + 1)` keeps the ids sequential. */
  lemma AppendNextId(ids: seq<string>)
    requires SequentialIds(ids)
    ensures SequentialIds(ids + [NatToString(|ids| + 1)])
  {
  }

  /** Sequential ids never repeat. */
  lemma SequentialIdsDistinct(ids: seq<string>)
    requires SequentialIds(ids)
    ensures forall i, j :: 0 <= i < j < |ids| ==> ids[i] != ids[j]
  {
    forall i, j | 0 <= i < j < |ids| ensures ids[i] != ids[j] {
      NatToStringInjective(i + 1, j + 1);
    }
  }
}
