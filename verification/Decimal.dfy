/** strconv.FormatInt and strconv.ParseInt in base 10, as used for the upload
    metadata file. */
module Decimal {
  import opened Common

  const MINUS: byte := 45
  const PLUS: byte := 43

  predicate IsDigit(b: byte) {
    48 <= b <= 57
  }

  predicate IsSpaceByte(b: byte) {
    9 <= b <= 13 || b == 32
  }

  function Digits(n: nat): Bytes {
    if n < 10 then [48 + n as byte] else Digits(n / 10) + [48 + (n % 10) as byte]
  }

  function Magnitude(n: Int64): nat {
    var m: int := n;
    if m < 0 then -m else m
  }

  function FormatInt(n: Int64): Bytes {
    if n < 0 then [MINUS] + Digits(Magnitude(n)) else Digits(n)
  }

  function TrimLeft(s: Bytes): Bytes {
    if s != [] && IsSpaceByte(s[0]) then TrimLeft(s[1..]) else s
  }

  function TrimRight(s: Bytes): Bytes {
    if s != [] && IsSpaceByte(s[|s| - 1]) then TrimRight(s[..|s| - 1]) else s
  }

  /** The value of a run of digits; none for an empty or non-digit string. */
  function Value(s: Bytes): Option<nat> {
    if s == [] || !IsDigit(s[|s| - 1]) then None
    else
      var last := (s[|s| - 1] - 48) as int;
      if |s| == 1 then Some(last)
      else match Value(s[..|s| - 1])
        case None => None
        case Some(high) => Some(10 * high + last)
  }

  /** strconv.ParseInt(strings.TrimSpace(s), 10, 64): one optional sign, digits, in range. */
  function ParseInt(s: Bytes): Option<Int64> {
    var t := TrimRight(TrimLeft(s));
    if t == [] then None
    else
      var negative := t[0] == MINUS;
      var digits := if negative || t[0] == PLUS then t[1..] else t;
      match Value(digits)
      case None => None
      case Some(v) =>
        if negative then (if v <= TWO_63 then (var low: int := 0 - v; Some(low)) else None)
        else if v < TWO_63 then Some(v) else None
  }

  lemma {:induction false} DigitsRoundTrip(n: nat)
    ensures Value(Digits(n)) == Some(n)
    ensures Digits(n) != []
    ensures forall i | 0 <= i < |Digits(n)| :: IsDigit(Digits(n)[i])
  {
    if n < 10 {
    } else {
      DigitsRoundTrip(n / 10);
      var s := Digits(n);
      assert s[..|s| - 1] == Digits(n / 10);
    }
  }

  lemma NothingTrimmed(s: Bytes)
    requires s != [] && !IsSpaceByte(s[0]) && !IsSpaceByte(s[|s| - 1])
    ensures TrimRight(TrimLeft(s)) == s
  {
  }

  lemma Formatted(n: Int64)
    ensures var s := FormatInt(n);
            && s != [] && !IsSpaceByte(s[0]) && !IsSpaceByte(s[|s| - 1])
            && (s[0] == MINUS <==> n < 0) && s[0] != PLUS
            && (if n < 0 then s[1..] else s) == Digits(Magnitude(n))
  {
    hide Digits, Value;
    DigitsRoundTrip(Magnitude(n));
    if n < 0 {
      assert ([MINUS] + Digits(Magnitude(n)))[1..] == Digits(Magnitude(n));
    }
  }

  /** What the agent writes into the metadata file it reads back unchanged. */
  lemma {:induction false} FormatParse(n: Int64)
    ensures ParseInt(FormatInt(n)) == Some(n)
  {
    hide TrimLeft, TrimRight, Digits, Value, FormatInt, IsSpaceByte;
    DigitsRoundTrip(Magnitude(n));
    Formatted(n);
    NothingTrimmed(FormatInt(n));
  }

  lemma {:induction false} OnlyDigitsHaveValue(s: Bytes)
    ensures Value(s).Some? <==> s != [] && forall i | 0 <= i < |s| :: IsDigit(s[i])
  {
    if |s| > 1 {
      OnlyDigitsHaveValue(s[..|s| - 1]);
    }
  }

  lemma {:induction false} TrimmedRight(s: Bytes)
    ensures TrimRight(s) <= s
    ensures forall i | |TrimRight(s)| <= i < |s| :: IsSpaceByte(s[i])
  {
    if s != [] && IsSpaceByte(s[|s| - 1]) {
      TrimmedRight(s[..|s| - 1]);
    }
  }

  lemma {:induction false} TrimmedLeft(s: Bytes)
    ensures |TrimLeft(s)| <= |s| && TrimLeft(s) == s[|s| - |TrimLeft(s)|..]
    ensures forall i | 0 <= i < |s| - |TrimLeft(s)| :: IsSpaceByte(s[i])
  {
    if s != [] && IsSpaceByte(s[0]) {
      TrimmedLeft(s[1..]);
    }
  }

  /** A metadata file with anything but digits, signs and whitespace names no total. */
  lemma NotANumber(s: Bytes, i: nat)
    requires i < |s| && !IsDigit(s[i]) && !IsSpaceByte(s[i]) && s[i] != PLUS && s[i] != MINUS
    ensures ParseInt(s).None?
  {
    var left := TrimLeft(s);
    var t := TrimRight(left);
    TrimmedLeft(s);
    TrimmedRight(left);
    var cut := |s| - |left|;
    assert left[i - cut] == s[i] && t[i - cut] == s[i];
    OnlyDigitsHaveValue(t);
    OnlyDigitsHaveValue(t[1..]);
    hide TrimLeft, TrimRight, Value;
  }

  predicate Spaces(s: Bytes) {
    forall i | 0 <= i < |s| :: IsSpaceByte(s[i])
  }

  lemma {:induction false} TrimsLeft(pad: Bytes, s: Bytes)
    requires Spaces(pad) && s != [] && !IsSpaceByte(s[0])
    ensures TrimLeft(pad + s) == s
  {
    if pad == [] {
      assert pad + s == s;
    } else {
      assert (pad + s)[1..] == pad[1..] + s;
      TrimsLeft(pad[1..], s);
    }
  }

  lemma {:induction false} TrimsRight(s: Bytes, pad: Bytes)
    requires Spaces(pad) && s != [] && !IsSpaceByte(s[|s| - 1])
    ensures TrimRight(s + pad) == s
  {
    if pad == [] {
      assert s + pad == s;
    } else {
      var t := s + pad;
      assert t[..|t| - 1] == s + pad[..|pad| - 1];
      TrimsRight(s, pad[..|pad| - 1]);
    }
  }

  /** Whitespace around the total, such as a final line end, makes no difference. */
  lemma PaddingIsIgnored(n: Int64, left: Bytes, right: Bytes)
    requires Spaces(left) && Spaces(right)
    ensures ParseInt(left + (FormatInt(n) + right)) == Some(n)
  {
    hide Digits, Value, FormatInt, IsSpaceByte, TrimLeft, TrimRight, Spaces;
    var s := FormatInt(n);
    Formatted(n);
    FormatParse(n);
    NothingTrimmed(s);
    TrimsLeft(left, s + right);
    TrimsRight(s, right);
  }
}
