/** String helpers the service relies on: substring search (as performed by
    `String.prototype.includes`) and the decimal rendering of a number in a
    template string. */
module Text {

  /** `t` occurs in `s` starting at index `i`. */
  predicate OccursAt(s: string, t: string, i: nat)
  {
    i + |t| <= |s| && s[i..i + |t|] == t
  }

  /** `s.includes(t)`. */
  predicate Includes(s: string, t: string)
  {
    exists i: nat | i <= |s| :: OccursAt(s, t, i)
  }

  /** Whatever is spliced into a template string can be found in the result. */
  lemma IncludesSpliced(prefix: string, t: string, suffix: string)
    ensures Includes(prefix + t + suffix, t)
  {
    var s := prefix + t + suffix;
    assert s[|prefix|..|prefix| + |t|] == t;
    assert OccursAt(s, t, |prefix|);
  }

  /** An occurrence of `t` at `i` fixes the characters at `i` and `i + 1`. */
  lemma OccurrenceStart(s: string, t: string, i: nat)
    requires OccursAt(s, t, i) && |t| >= 2
    ensures s[i] == t[0] && s[i + 1] == t[1]
  {
  }

  /** No 'f' in `s` is directly followed by an 'e'. */
  predicate NoFe(s: string)
  {
    forall k :: 0 <= k < |s| - 1 ==> s[k] != 'f' || s[k + 1] != 'e'
  }

  /** A string in which no 'f' is followed by an 'e' does not include "fetch". */
  lemma NoFetchWithoutFe(s: string)
    requires NoFe(s)
    ensures !Includes(s, "fetch")
  {
    forall i: nat | OccursAt(s, "fetch", i)
      ensures false
    {
      OccurrenceStart(s, "fetch", i);
    }
  }

  function Digit(d: nat): (c: char)
    requires d < 10
  {
    ('0' as int + d) as char
  }

  /** Decimal rendering of a natural number, as `${n}` produces it. */
  function NatToString(n: nat): (s: string)
    ensures |s| >= 1
    ensures forall i :: 0 <= i < |s| ==> '0' <= s[i] <= '9'
    ensures |s| > 1 ==> s[0] != '0'
  {
    if n < 10 then [Digit(n)] else NatToString(n / 10) + [Digit(n % 10)]
  }

  /** The decimal value a string of digits denotes. */
  function DecimalValue(s: string): nat
    requires forall i :: 0 <= i < |s| ==> '0' <= s[i] <= '9'
  {
    if s == [] then 0 else 10 * DecimalValue(s[..|s| - 1]) + (s[|s| - 1] as int - '0' as int)
  }

  /** Reading the rendered digits back gives the number. */
  lemma {:induction false} NatToStringRoundTrip(n: nat)
    ensures DecimalValue(NatToString(n)) == n
  {
    if n >= 10 {
      NatToStringRoundTrip(n / 10);
      var s := NatToString(n);
      assert s[..|s| - 1] == NatToString(n / 10);
    }
  }
}
