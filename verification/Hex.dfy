/** `bytes.fromhex`, through which identity and hub hashes reach the network. */
module Hex {
  import opened Prelude

  predicate Blank(c: char) {
    c == ' ' || 9 <= c as int <= 13
  }

  function HexDigit(c: char): (d: Option<Byte>)
    ensures d.Some? ==> d.value < 16
  {
    if '0' <= c <= '9' then Some(c as int - '0' as int)
    else if 'a' <= c <= 'f' then Some(c as int - 'a' as int + 10)
    else if 'A' <= c <= 'F' then Some(c as int - 'A' as int + 10)
    else None
  }

  /** `bytes.fromhex`: ASCII whitespace between bytes is skipped. */
  function FromHex(s: string): Option<Bytes> {
    if s == [] then Some([])
    else if Blank(s[0]) then FromHex(s[1..])
    else if |s| == 1 || HexDigit(s[0]).None? || HexDigit(s[1]).None? then None
    else
      var hi, lo := HexDigit(s[0]).value, HexDigit(s[1]).value;
      match FromHex(s[2..])
      case None => None
      case Some(rest) => Some([hi * 16 + lo] + rest)
  }

  predicate LowerHex(s: string) {
    |s| % 2 == 0 && forall i :: 0 <= i < |s| ==> '0' <= s[i] <= '9' || 'a' <= s[i] <= 'f'
  }

  lemma LowerHexByte(s: string)
    requires LowerHex(s) && s != []
    ensures |s| >= 2 && LowerHex(s[2..]) && HexDigit(s[0]).Some? && HexDigit(s[1]).Some?
    ensures FromHex(s) == match FromHex(s[2..])
                          case None => None
                          case Some(rest) => Some([HexDigit(s[0]).value * 16 + HexDigit(s[1]).value] + rest)
  {
  }

  lemma {:induction false} LowerHexParses(s: string)
    requires LowerHex(s)
    ensures FromHex(s).Some? && |FromHex(s).value| == |s| / 2
  {
    if s != [] {
      hide FromHex;
      LowerHexByte(s);
      LowerHexParses(s[2..]);
    }
  }

  /** Distinct lower-case hashes are distinct byte strings. */
  lemma {:induction false} LowerHexInjective(a: string, b: string)
    requires LowerHex(a) && LowerHex(b) && FromHex(a) == FromHex(b)
    ensures a == b
    decreases |a|
  {
    hide FromHex;
    LowerHexParses(a);
    LowerHexParses(b);
    if a != [] && b != [] {
      LowerHexByte(a);
      LowerHexByte(b);
      LowerHexParses(a[2..]);
      LowerHexParses(b[2..]);
      var restA, restB := FromHex(a[2..]).value, FromHex(b[2..]).value;
      assert FromHex(a).value[1..] == restA && FromHex(b).value[1..] == restB;
      LowerHexInjective(a[2..], b[2..]);
      assert FromHex(a).value[0] == FromHex(b).value[0];
      assert a == [a[0], a[1]] + a[2..] && b == [b[0], b[1]] + b[2..];
    }
  }

  // -------------------------------------------------------------------- printing

  const DIGITS := "0123456789abcdef"

  function Digit(n: nat): char
    requires n < 16
  {
    DIGITS[n]
  }

  /** `bytes.hex()`. */
  function ToHex(b: Bytes): (s: string)
    ensures |s| == 2 * |b|
  {
    if b == [] then [] else [Digit(b[0] / 16), Digit(b[0] % 16)] + ToHex(b[1..])
  }

  /** The digits are read as their places in "0123456789abcdef", in either case;
      nothing else is a digit, and only ASCII whitespace is skipped. */
  lemma DigitsRead(c: char)
    ensures HexDigit(c).Some? <==> c in DIGITS || c in "ABCDEF"
    ensures forall d: nat :: d < 16 ==> (c == DIGITS[d] || c == "0123456789ABCDEF"[d] ==> HexDigit(c) == Some(d))
    ensures Blank(c) <==> c as int in {0x20, 0x09, 0x0A, 0x0B, 0x0C, 0x0D}
  {
  }

  lemma DigitPlaces(n: nat)
    requires n < 16
    ensures HexDigit(Digit(n)) == Some(n) && !Blank(Digit(n))
    ensures '0' <= Digit(n) <= '9' || 'a' <= Digit(n) <= 'f'
  {
  }

  lemma OneByte(hi: nat, lo: nat, rest: string)
    requires hi < 16 && lo < 16
    ensures FromHex([Digit(hi), Digit(lo)] + rest)
            == match FromHex(rest) case None => None case Some(b) => Some([hi * 16 + lo] + b)
    ensures LowerHex(rest) ==> LowerHex([Digit(hi), Digit(lo)] + rest)
  {
    hide Digit, HexDigit, Blank;
    DigitPlaces(hi);
    DigitPlaces(lo);
    var s := [Digit(hi), Digit(lo)] + rest;
    assert s[0] == Digit(hi) && s[1] == Digit(lo) && s[2..] == rest;
    assert forall i :: 2 <= i < |s| ==> s[i] == rest[i - 2];
  }

  /** Every byte string is read back from its print, */
  lemma {:induction false} FromToHex(b: Bytes)
    ensures FromHex(ToHex(b)) == Some(b) && LowerHex(ToHex(b))
  {
    hide FromHex, Digit, LowerHex;
    if b == [] {
      NothingPrinted();
    } else {
      FromToHex(b[1..]);
      OneByte(b[0] / 16, b[0] % 16, ToHex(b[1..]));
      assert b[0] / 16 * 16 + b[0] % 16 == b[0] && [b[0]] + b[1..] == b;
    }
  }

  lemma NothingPrinted()
    ensures FromHex([]) == Some([]) && LowerHex([])
  {
  }

  /** and lower-case hashes are exactly the texts that are printed. */
  lemma ToFromHex(s: string)
    ensures LowerHex(s) <==> FromHex(s).Some? && ToHex(FromHex(s).value) == s
  {
    if LowerHex(s) {
      LowerHexParses(s);
      var b := FromHex(s).value;
      FromToHex(b);
      LowerHexInjective(ToHex(b), s);
    } else if FromHex(s).Some? {
      FromToHex(FromHex(s).value);
    }
  }

  /** Text that decodes gives half as many bytes as it has characters exactly
      when none of it is whitespace: 32 accepted characters need not be 16
      bytes. */
  lemma {:induction false} TwoDigitsPerByte(s: string)
    requires FromHex(s).Some?
    ensures 2 * |FromHex(s).value| <= |s|
    ensures 2 * |FromHex(s).value| == |s| <==> forall i :: 0 <= i < |s| ==> !Blank(s[i])
  {
    if s != [] {
      if Blank(s[0]) {
        TwoDigitsPerByte(s[1..]);
      } else {
        var rest := s[2..];
        TwoDigitsPerByte(rest);
        assert forall i :: 2 <= i < |s| ==> s[i] == rest[i - 2];
        if forall i :: 0 <= i < |rest| ==> !Blank(rest[i]) {
          assert !Blank(s[1]);
        } else {
          var i :| 0 <= i < |rest| && Blank(rest[i]);
          assert Blank(s[i + 2]);
        }
      }
    }
  }
}
