/** Small shared vocabulary: nullable values and the way Java renders them as text. */
module Common {

  /** A Java reference that may be null. */
  datatype Option<+T> = None | Some(value: T)

  /** One octet of an artifact's contents. */
  newtype byte = b: int | 0 <= b < 256

  /** `String.format("%s", s)` for a possibly-null string: null renders as "null". */
  function Str(s: Option<string>): string
  {
    if s.None? then "null" else s.value
  }

  /** `StringUtils.isEmpty` of Apache commons-lang: true for null and for "". */
  predicate IsEmpty(s: Option<string>)
  {
    s.None? || s.value == ""
  }

  /** Regrouping a concatenation, stated once so that callers need not unfold what is concatenated. */
  lemma AppendAssoc<T>(a: seq<T>, b: seq<T>, c: seq<T>)
    ensures (a + b) + c == a + (b + c)
  {
  }

  predicate IsDigit(c: char)
  {
    '0' <= c <= '9'
  }

  /** Decimal digits of a natural number, most significant first, without leading zeros. */
  function NatToString(n: nat): (s: string)
    ensures |s| >= 1
    ensures forall i :: 0 <= i < |s| ==> IsDigit(s[i])
    decreases n
  {
    var last := [(48 + n % 10) as char];
    if n < 10 then last else NatToString(n / 10) + last
  }

  /** `Integer.toString`, which is also what `%d` and `%s` print for an integer. */
  function IntToString(i: int): string
  {
    if i < 0 then "-" + NatToString(-i) else NatToString(i)
  }
}
