/** Small shared vocabulary: optional values, instants, and the whitespace trimming the store applies to names. */
module Prelude {

  datatype Option<+T> = None | Some(value: T)

  /** An instant or a duration, in nanoseconds. */
  type Time = int

  const SECOND: Time := 1_000_000_000
  const MINUTE: Time := 60 * SECOND
  const HOUR: Time := 60 * MINUTE

  function Min(a: int, b: int): int {
    if a <= b then a else b
  }

  function Max(a: int, b: int): int {
    if a >= b then a else b
  }

  /** White space in the sense of Unicode. */
  predicate IsSpace(c: char) {
    var n := c as int;
    '\t' <= c <= '\r' || c == ' ' || n == 0x85 || n == 0xA0 || n == 0x1680 || 0x2000 <= n <= 0x200A
    || n == 0x2028 || n == 0x2029 || n == 0x202F || n == 0x205F || n == 0x3000
  }

  predicate Blank(s: string) {
    forall i | 0 <= i < |s| :: IsSpace(s[i])
  }

  /** The first position from `i` on that holds no white space. */
  function TextStart(s: string, i: nat): (r: nat)
    requires i <= |s|
    ensures i <= r <= |s| && (forall k | i <= k < r :: IsSpace(s[k])) && (r < |s| ==> !IsSpace(s[r]))
    decreases |s| - i
  {
    if i == |s| || !IsSpace(s[i]) then i else TextStart(s, i + 1)
  }

  /** The position after the last one before `j` that holds no white space. */
  function TextEnd(s: string, j: nat): (r: nat)
    requires j <= |s|
    ensures r <= j && (forall k | r <= k < j :: IsSpace(s[k])) && (r > 0 ==> !IsSpace(s[r - 1]))
  {
    if j == 0 || !IsSpace(s[j - 1]) then j else TextEnd(s, j - 1)
  }

  function Trim(s: string): (r: string)
    ensures r == "" <==> Blank(s)
    ensures r != "" ==> !IsSpace(r[0]) && !IsSpace(r[|r| - 1])
  {
    var i, j := TextStart(s, 0), TextEnd(s, |s|);
    if i < j then s[i..j] else ""
  }

  /** Trimmed text that is not empty is not blank. */
  lemma TrimmedIsNotBlank(s: string)
    requires !Blank(s)
    ensures !Blank(Trim(s))
  {
    assert !IsSpace(Trim(s)[0]);
  }

  /** Two to the power `n`. */
  function Power2(n: nat): (r: nat)
    ensures r >= 1
  {
    if n == 0 then 1 else 2 * Power2(n - 1)
  }

  // ---- multiplication and division by an unknown

  lemma ProductGrows(m: int, n: int, b: int)
    requires b > 0 && m <= n
    ensures m * b <= n * b
  {
    assert (n - m) * b >= 0;
  }

  lemma DivMod(v: nat, p: nat)
    requires p > 0
    ensures v == v / p * p + v % p && v % p < p
  {
  }

  lemma QuotientIsNatural(v: nat, p: nat)
    requires p > 0
    ensures v / p >= 0
  {
  }

  lemma QuotientBelow(v: nat, p: nat, n: nat)
    requires p > 0 && v < n * p
    ensures v / p < n
  {
    DivMod(v, p);
    if v / p >= n {
      ProductGrows(n, v / p, p);
      assert false;
    }
  }

  lemma QuotientIsSmaller(v: nat, p: nat)
    requires p > 0
    ensures v / p <= v
  {
    assert (v + 1) * (p - 1) >= 0;
    QuotientBelow(v, p, v + 1);
  }

  lemma QuotientShrinks(v: nat, p: nat)
    requires p >= 2 && v > 0
    ensures v / p < v
  {
    assert v * (p - 2) >= 0;
    QuotientBelow(v, p, v);
  }
}
