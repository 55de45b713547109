/** Values shared by every model: options, bytes, Go's wrapping int64, and the
    two string tests of Go's standard library that the agent relies on. */
module Common {

  datatype Option<+T> = None | Some(value: T)

  newtype byte = b: int | 0 <= b < 256

  type Bytes = seq<byte>

  /** A Go slice of bytes: its length is an int. */
  type Slice = s: Bytes | |s| < TWO_63

  const TWO_63: int := 0x8000_0000_0000_0000

  type Int64 = x: int | -TWO_63 <= x < TWO_63

  /** Go's `+` on int64: the sum, wrapped once when it leaves the range. */
  function Add64(a: Int64, b: Int64): (sum: Int64)
    ensures -TWO_63 <= a + b < TWO_63 ==> sum == a + b
    ensures a >= 0 && b >= 0 && a + b >= TWO_63 ==> sum < 0
  {
    if a + b >= TWO_63 then a + b - 2 * TWO_63
    else if a + b < -TWO_63 then a + b + 2 * TWO_63
    else a + b
  }

  function Min(a: int, b: int): int {
    if a <= b then a else b
  }

  function Max(a: int, b: int): int {
    if a >= b then a else b
  }

  lemma Assoc<T>(a: seq<T>, b: seq<T>, c: seq<T>)
    ensures a + (b + c) == (a + b) + c
    ensures a + [] == a
  {
  }

  /** The ID that ties a response to its request; empty for messages without one. */
  datatype MsgId = MsgId(text: string)

  /** unicode.IsSpace. */
  predicate IsSpace(c: char) {
    c in "\t\n\U{000B}\U{000C}\r \U{0085}\U{00A0}\U{1680}\U{2028}\U{2029}\U{202F}\U{205F}\U{3000}"
    || '\U{2000}' <= c <= '\U{200A}'
  }

  /** strings.TrimSpace(s) == "". */
  predicate Blank(s: string) {
    forall i | 0 <= i < |s| :: IsSpace(s[i])
  }

  /** ASCII lower case, enough for the hexadecimal digests that are compared. */
  function Lower(c: char): char {
    if 'A' <= c <= 'Z' then ((c as int) + 32) as char else c
  }

  /** strings.EqualFold on ASCII text. */
  predicate EqualFold(a: string, b: string) {
    |a| == |b| && forall i | 0 <= i < |a| :: Lower(a[i]) == Lower(b[i])
  }

  /** Equal, or the same ASCII letter in upper and lower case. */
  predicate SameLetter(a: char, b: char) {
    || a == b
    || ('A' <= a <= 'Z' && b as int == a as int + 32)
    || ('A' <= b <= 'Z' && a as int == b as int + 32)
  }

  lemma FoldsLetters(a: string, b: string)
    ensures EqualFold(a, b) <==> |a| == |b| && forall i | 0 <= i < |a| :: SameLetter(a[i], b[i])
  {
  }

  predicate HexDigit(c: char) {
    '0' <= c <= '9' || 'a' <= c <= 'f'
  }

  /** The form in which digests are written. */
  predicate LowerHex(s: string) {
    forall i | 0 <= i < |s| :: HexDigit(s[i])
  }

  lemma HexFold(a: string, b: string)
    requires LowerHex(a) && LowerHex(b)
    ensures EqualFold(a, b) <==> a == b
  {
    FoldsLetters(a, b);
    hide EqualFold;
  }

  /** The tests of whitespace on ASCII text: blanks and line ends are, everything visible is not. */
  lemma AsciiSpace(c: char)
    ensures c in " \t\n\r" ==> IsSpace(c)
    ensures '!' <= c <= '~' ==> !IsSpace(c)
  {
  }

  function Get<K, V>(m: map<K, V>, k: K): Option<V> {
    if k in m then Some(m[k]) else None
  }
}
