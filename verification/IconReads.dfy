/** Exactly which texts the ICON codecs read, and as what. */
module IconReads {
  import opened Types
  import opened IconTypes

  predicate IsHexDigit(c: char) { '0' <= c <= '9' || 'a' <= c <= 'f' || 'A' <= c <= 'F' }

  predicate IsHex(s: string) { forall i :: 0 <= i < |s| ==> IsHexDigit(s[i]) }

  lemma HexDigits(s: string)
    ensures IsHex(s) <==> forall c :: c in s ==> DigitValue(c).Some?
  {
    if IsHex(s) {
      forall c | c in s ensures DigitValue(c).Some? {
        var i :| 0 <= i < |s| && s[i] == c;
      }
    } else {
      var i :| 0 <= i < |s| && !IsHexDigit(s[i]);
      assert s[i] in s;
    }
  }

  /** Both cases of a letter are one digit. */
  lemma DigitsAre(c: char)
    ensures DigitValue(c).Some? <==> IsHexDigit(c)
    ensures '0' <= c <= '9' ==> DigitValue(c) == Some(c as int - '0' as int)
    ensures 'a' <= c <= 'f' ==> DigitValue(c) == Some(10 + (c as int - 'a' as int))
    ensures 'A' <= c <= 'F' ==> DigitValue(c) == Some(10 + (c as int - 'A' as int))
  {
  }

  /** hex.DecodeString reads an even number of digits, and nothing else. */
  lemma {:induction false} DecodeReads(s: string)
    ensures Decode(s).Some? <==> |s| % 2 == 0 && IsHex(s)
    decreases |s|
  {
    if |s| >= 2 {
      DecodeReads(s[2..]);
      assert s == [s[0], s[1]] + s[2..];
      assert IsHex(s) <==> IsHexDigit(s[0]) && IsHexDigit(s[1]) && IsHex(s[2..]) by {
        if IsHexDigit(s[0]) && IsHexDigit(s[1]) && IsHex(s[2..]) {
          forall i | 0 <= i < |s| ensures IsHexDigit(s[i]) {
            if i >= 2 { assert s[i] == s[2..][i - 2]; }
          }
        }
      }
    }
  }

  /** The number that a text of digits stands for; none stand for 0. */
  function Number(digits: string): nat
    requires IsHex(digits)
  {
    if digits == "" then 0 else 16 * Number(digits[..|digits| - 1]) + DigitValue(digits[|digits| - 1]).value
  }

  lemma {:induction false} UnsignedReads(s: string)
    ensures Unsigned(s).Some? <==> s != "" && IsHex(s)
    ensures s != "" && IsHex(s) ==> Unsigned(s) == Some(Number(s))
    decreases |s|
  {
    if s != "" {
      var front := s[..|s| - 1];
      UnsignedReads(front);
      assert s == front + [s[|s| - 1]];
      assert IsHex(s) <==> IsHex(front) && IsHexDigit(s[|s| - 1]);
    }
  }

  // ---------- HexInt.BigInt ----------

  /** A sign, a prefix and digits, as BigInt reads them: the prefix alone is no number. */
  predicate IsBigInt(sign: string, prefix: string, digits: string)
  {
    (sign == "" || sign == "-") && (prefix == "" || prefix == "0x") && IsHex(digits) && (prefix != "" ==> digits != "")
  }

  lemma EvenReads(digits: string)
    ensures Decode(Padded(digits)).Some? <==> IsHex(digits)
    ensures IsHex(digits) ==> FromBytes(Decode(Padded(digits)).value) == Number(digits)
  {
    DecodeReads(Padded(digits));
    HexDigits(digits);
    assert Padded(digits) == digits || (Padded(digits) == "0" + digits && Padded(digits)[1..] == digits);
    assert IsHex(Padded(digits)) <==> IsHex(digits) by {
      if Padded(digits) != digits {
        assert forall i :: 0 <= i < |digits| ==> digits[i] == Padded(digits)[i + 1];
        assert forall i :: 0 < i < |Padded(digits)| ==> Padded(digits)[i] == digits[i - 1];
      }
    }
    if IsHex(digits) && digits != "" {
      EvenDigits(digits);
      UnsignedReads(digits);
    }
  }

  lemma UnprefixedReads(prefix: string, digits: string)
    requires IsBigInt("", prefix, digits)
    ensures Unprefixed(prefix + digits) == digits && (prefix + digits != "" ==> (prefix + digits)[0] != '-')
  {
    var t := prefix + digits;
    if prefix == "" {
      assert t == digits;
      assert |t| > 1 ==> IsHexDigit(t[1]);
    } else {
      assert t[2..] == digits && t[..2] == "0x" && t[0] == '0';
    }
  }

  lemma Unsign(sign: string, t: string)
    requires (sign == "" && (t == "" || t[0] != '-')) || sign == "-"
    ensures var s := sign + t; var negative := s != "" && s[0] == '-';
      negative == (sign == "-") && (if negative then s[1..] else s) == t
  {
    assert sign == "" ==> sign + t == t;
    assert sign == "-" ==> (sign + t)[1..] == t;
  }

  lemma BigIntReads(sign: string, prefix: string, digits: string)
    requires IsBigInt(sign, prefix, digits)
    ensures BigInt(sign + (prefix + digits)) == Ok(if sign == "-" then 0 - Number(digits) else Number(digits))
  {
    UnprefixedReads(prefix, digits);
    SignReads(sign, prefix + digits);
    var t := prefix + digits;
    BigIntOf(sign + t, t, sign == "-", digits);
  }

  lemma SignReads(sign: string, t: string)
    requires (sign == "" && (t == "" || t[0] != '-')) || sign == "-"
    ensures HexNumber(sign + t) == (sign == "-", Decode(Padded(Unprefixed(t))))
  {
    Unsign(sign, t);
  }

  lemma BigIntOf(s: string, t: string, negative: bool, digits: string)
    requires HexNumber(s) == (negative, Decode(Padded(Unprefixed(t)))) && Unprefixed(t) == digits && IsHex(digits)
    ensures BigInt(s) == Ok(if negative then 0 - Number(digits) else Number(digits))
  {
    var bs, n := EvenBytes(digits);
    BigIntFrom(s, negative, bs, n);
  }

  lemma EvenBytes(digits: string) returns (bs: seq<Byte>, n: int)
    requires IsHex(digits)
    ensures Decode(Padded(digits)) == Some(bs) && FromBytes(bs) == n == Number(digits)
  {
    EvenReads(digits);
    bs, n := Decode(Padded(digits)).value, Number(digits);
  }

  lemma BigIntFrom(s: string, negative: bool, bs: seq<Byte>, n: int)
    requires HexNumber(s) == (negative, Some(bs)) && FromBytes(bs) == n
    ensures BigInt(s) == Ok(if negative then 0 - n else n)
  {
  }

  /** And BigInt reads nothing else. */
  lemma BigIntReadsOnly(s: string) returns (sign: string, prefix: string, digits: string)
    requires BigInt(s).Ok?
    ensures IsBigInt(sign, prefix, digits) && s == sign + (prefix + digits)
  {
    sign := if s != "" && s[0] == '-' then "-" else "";
    var t := s[|sign|..];
    assert s == sign + t && t == if s != "" && s[0] == '-' then s[1..] else s;
    prefix, digits := Prefixed(t);
    assert HexNumber(s).1 == Decode(Padded(digits));
    EvenReads(digits);
  }

  lemma Prefixed(t: string) returns (prefix: string, digits: string)
    ensures digits == Unprefixed(t) && t == prefix + digits && (prefix == "" || (prefix == "0x" && digits != ""))
  {
    digits := Unprefixed(t);
    prefix := t[..|t| - |digits|];
  }

  // ---------- HexInt.Value and HexInt.Int ----------

  /** A prefix, a sign and digits, as Value and Int read them. */
  predicate IsHexInt(prefix: string, sign: string, digits: string)
  {
    (prefix == "" || prefix == "0x") && (sign == "" || sign == "-" || sign == "+") && digits != "" && IsHex(digits)
  }

  lemma ParseIntReads(sign: string, digits: string, max: int)
    requires max >= 0 && IsHexInt("", sign, digits)
    ensures var v := if sign == "-" then 0 - Number(digits) else Number(digits);
      ParseInt(sign + digits, max) == if -max - 1 <= v <= max then Ok(v) else Error
  {
    var s := sign + digits;
    assert sign != "" ==> s[1..] == digits && s[0] == sign[0];
    assert sign == "" ==> s == digits && IsHexDigit(s[0]);
    UnsignedReads(digits);
  }

  lemma HexIntReads(prefix: string, sign: string, digits: string)
    requires IsHexInt(prefix, sign, digits)
    ensures var v := if sign == "-" then 0 - Number(digits) else Number(digits);
      var s := prefix + sign + digits;
      && HexIntValue(s) == (if -0x8000_0000_0000_0000 <= v < 0x8000_0000_0000_0000 then Ok(v) else Error)
      && HexIntInt(s) == (if -0x8000_0000 <= v < 0x8000_0000 then Ok(v) else Error)
  {
    var s := prefix + sign + digits;
    assert s == prefix + (sign + digits);
    assert prefix == "" && |s| >= 2 && sign == "" ==> IsHexDigit(s[1]);
    assert StripPrefix(s) == sign + digits;
    ParseIntReads(sign, digits, MAX64);
    ParseIntReads(sign, digits, MAX32);
  }

  lemma ParseIntReadsOnly(t: string, max: nat) returns (sign: string, digits: string)
    requires ParseInt(t, max).Ok?
    ensures IsHexInt("", sign, digits) && t == sign + digits
  {
    if t[0] == '-' || t[0] == '+' {
      sign, digits := t[..1], t[1..];
      UnsignedReads(digits);
    } else {
      sign, digits := "", t;
      UnsignedReads(t);
      assert t == "" + t;
    }
  }

  lemma HexIntReadsOnly(s: string) returns (prefix: string, sign: string, digits: string)
    requires HexIntValue(s).Ok? || HexIntInt(s).Ok?
    ensures IsHexInt(prefix, sign, digits) && s == prefix + sign + digits
  {
    assert HexIntValue(s).Ok?;
    sign, digits := ParseIntReadsOnly(StripPrefix(s), MAX64);
    prefix := if "0x" <= s then "0x" else "";
    assert s == prefix + StripPrefix(s);
    assert prefix + (sign + digits) == prefix + sign + digits;
  }

  // ---------- HexBytes and Address ----------

  /** A single character panics; otherwise the first two are skipped, and the rest is decoded. */
  lemma HexBytesReads(s: string)
    ensures HexBytesValue(s) == Panic <==> |s| == 1
    ensures HexBytesValue(s).Ok? <==> s == "" || (|s| >= 2 && |s| % 2 == 0 && IsHex(s[2..]))
  {
    if |s| >= 2 { DecodeReads(s[2..]); }
  }

  /** hex.Decode fills the buffer pair by pair: it panics at the first pair of digits too many. */
  lemma {:induction false} DecodeIntoReads(src: string, done: seq<Byte>, room: nat)
    requires |done| <= room
    ensures var left := 2 * (room - |done|); var r := DecodeInto(src, done, room);
      && (r == Panic <==> |src| >= left + 2 && IsHex(src[..left + 2]))
      && (r.Ok? <==> |src| <= left && |src| % 2 == 0 && IsHex(src))
      && (r.Ok? ==> |r.value| == |done| + |src| / 2)
    decreases |src|
  {
    if |src| >= 2 && |done| < room && IsHexDigit(src[0]) && IsHexDigit(src[1]) {
      DecodeIntoReads(src[2..], done + [16 * DigitValue(src[0]).value + DigitValue(src[1]).value], room);
      var left := 2 * (room - |done|);
      HexWithout(src);
      if |src| >= left + 2 {
        HexWithout(src[..left + 2]);
        assert src[..left + 2][2..] == src[2..][..left];
      }
    }
  }

  lemma HexWithout(s: string)
    requires |s| >= 2
    ensures IsHex(s) <==> IsHexDigit(s[0]) && IsHexDigit(s[1]) && IsHex(s[2..])
  {
    if IsHexDigit(s[0]) && IsHexDigit(s[1]) && IsHex(s[2..]) {
      forall i | 0 <= i < |s| ensures IsHexDigit(s[i]) {
        if i >= 2 { assert s[i] == s[2..][i - 2]; }
      }
    }
  }

  /** An address is read if and only if it is one of the two prefixes with forty digits. It panics without a
      prefix, and when at least forty-two digits follow it. */
  lemma AddressReads(a: string)
    ensures AddressBytes(a).Ok? <==> |a| == 42 && (a[..2] == "cx" || a[..2] == "hx") && IsHex(a[2..])
    ensures AddressBytes(a) == Panic <==>
      |a| < 2 || ((a[..2] == "cx" || a[..2] == "hx") && |a| >= 44 && IsHex(a[2..44]))
    ensures AddressBytes(a).Ok? ==> AddressBytes(a).value[0] == if a[..2] == "cx" then 1 else 0
  {
    if |a| >= 2 {
      DecodeIntoReads(a[2..], [], 20);
      if |a| >= 44 { assert a[2..][..42] == a[2..44]; }
    }
  }
}
