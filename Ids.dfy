/** Identifiers minted by the editor. The source builds them from the clock
    with template literals (`${type}-${Date.now()}`, `c-${Date.now()}`); the
    clock reading is a parameter `now` here, rendered in decimal as
    JavaScript's number-to-string conversion renders a non-negative integer. */
module Ids {

  predicate IsDigit(c: char) {
    '0' <= c <= '9'
  }

  function DigitChar(d: nat): (c: char)
    requires d < 10
    ensures IsDigit(c) && c as int - '0' as int == d
  {
    ('0' as int + d) as char
  }

  /** The decimal rendering of `n`, most significant digit first, no leading zeros. */
  function Decimal(n: nat): (s: string)
    ensures |s| > 0
    ensures forall i :: 0 <= i < |s| ==> IsDigit(s[i])
    ensures |s| > 1 ==> s[0] != '0'
    ensures |s| == 1 <==> n < 10
  {
    if n < 10 then [DigitChar(n)] else Decimal(n / 10) + [DigitChar(n % 10)]
  }

  /** Distinct clock readings render to distinct strings. */
  lemma {:induction false} DecimalInjective(a: nat, b: nat)
    requires Decimal(a) == Decimal(b)
    ensures a == b
  {
    var sa, sb := Decimal(a), Decimal(b);
    if a >= 10 && b >= 10 {
      assert sa[..|sa| - 1] == Decimal(a / 10) && sb[..|sb| - 1] == Decimal(b / 10);
      assert sa[|sa| - 1] == DigitChar(a % 10) && sb[|sb| - 1] == DigitChar(b % 10);
      DecimalInjective(a / 10, b / 10);
    } else if a < 10 && b < 10 {
      assert sa[0] == DigitChar(a) && sb[0] == DigitChar(b);
    }
  }

  /** An id minted at clock reading `now`: `${prefix}-${now}`. */
  function Stamped(prefix: string, now: nat): (id: string)
    ensures |id| > |prefix| + 1 && id[..|prefix|] == prefix && id[|prefix|] == '-'
    ensures id[|prefix| + 1..] == Decimal(now)
  {
    prefix + "-" + Decimal(now)
  }

  /** Two ids built from one prefix are equal only when the clock readings are. */
  lemma StampedIdsDistinct(prefix: string, a: nat, b: nat)
    requires a != b
    ensures Stamped(prefix, a) != Stamped(prefix, b)
  {
    if Stamped(prefix, a) == Stamped(prefix, b) {
      DecimalInjective(a, b);
    }
  }

  /** For prefixes without a dash, such as every prefix the editor mints
      with, an id gives back both its prefix and its clock reading: ids
      minted under different prefixes or at different readings never collide. */
  lemma StampedInjective(p: string, a: nat, q: string, b: nat)
    requires '-' !in p && '-' !in q
    ensures Stamped(p, a) == Stamped(q, b) <==> p == q && a == b
  {
    var x, y := Stamped(p, a), Stamped(q, b);
    if x == y {
      assert |p| == |q|;
      assert p == x[..|p|] == y[..|q|] == q;
      DecimalInjective(a, b);
    }
  }
}
