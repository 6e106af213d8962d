/** The hex types of ICON (relayer/chains/icon/types/types.go:193-306). */
module IconTypes {
  import opened Types

  type Byte = n: int | 0 <= n < 256

  /** A Go panic is an outcome of its own. */
  datatype Result<+T> = Ok(value: T) | Error | Panic

  // ---------- the hex and strconv packages ----------

  function HexDigit(n: nat): char
    requires n < 16
  {
    if n < 10 then '0' + n as char else 'a' + (n - 10) as char
  }

  /** Both cases are read. */
  function DigitValue(c: char): Option<nat>
  {
    if '0' <= c <= '9' then Some(c as int - '0' as int)
    else if 'a' <= c <= 'f' then Some(c as int - 'a' as int + 10)
    else if 'A' <= c <= 'F' then Some(c as int - 'A' as int + 10)
    else None
  }

  lemma DigitBack(n: nat)
    requires n < 16
    ensures DigitValue(HexDigit(n)) == Some(n) && HexDigit(n) != '-' && HexDigit(n) != '+' && HexDigit(n) != 'x'
  {
  }

  /** hex.EncodeToString, on bytes as numbers. */
  function Encode(bs: seq<Byte>): (s: string)
    ensures |s| == 2 * |bs|
  {
    if bs == [] then "" else [HexDigit(bs[0] / 16), HexDigit(bs[0] % 16)] + Encode(bs[1..])
  }

  /** hex.DecodeString. */
  function Decode(s: string): (r: Option<seq<Byte>>)
    ensures r.Some? ==> |s| == 2 * |r.value|
  {
    if s == "" then Some([])
    else if |s| == 1 || DigitValue(s[0]).None? || DigitValue(s[1]).None? then None
    else
      var rest := Decode(s[2..]);
      if rest.None? then None else Some([16 * DigitValue(s[0]).value + DigitValue(s[1]).value] + rest.value)
  }

  lemma {:induction false} DecodeEncode(bs: seq<Byte>)
    ensures Decode(Encode(bs)) == Some(bs)
    decreases |bs|
  {
    if bs != [] {
      DigitBack(bs[0] / 16);
      DigitBack(bs[0] % 16);
      DecodeEncode(bs[1..]);
      assert Encode(bs)[2..] == Encode(bs[1..]);
      assert bs == [bs[0]] + bs[1..];
    }
  }

  /** The digits of strconv.FormatInt in base 16. */
  function Digits(n: nat): (s: string)
    ensures |s| >= 1
  {
    (if n < 16 then "" else Digits(n / 16)) + [HexDigit(n % 16)]
  }

  function FormatInt(v: int): string { if v < 0 then "-" + Digits(-v) else Digits(v) }

  /** The value of a non-empty text of digits. */
  function Unsigned(s: string): Option<nat>
  {
    if s == "" then None
    else
      var d := DigitValue(s[|s| - 1]);
      if d.None? then None
      else if |s| == 1 then d
      else
        var front := Unsigned(s[..|s| - 1]);
        if front.None? then None else Some(16 * front.value + d.value)
  }

  const MAX64 := 0x7FFF_FFFF_FFFF_FFFF
  const MAX32 := 0x7FFF_FFFF

  /** strconv.ParseInt in base 16, for the bit size with this largest value. */
  function ParseInt(s: string, max: nat): Result<int>
  {
    if s == "" then Error
    else
      var negative := s[0] == '-';
      var n := Unsigned(if negative || s[0] == '+' then s[1..] else s);
      if n.None? || n.value > max + (if negative then 1 else 0) then Error
      else
        var i: int := n.value;
        Ok(if negative then -i else i)
  }

  lemma {:induction false} UnsignedDigits(n: nat)
    ensures Unsigned(Digits(n)) == Some(n) && Digits(n)[0] != '-' && Digits(n)[0] != '+'
    ensures forall c :: c in Digits(n) ==> DigitValue(c).Some?
    decreases n
  {
    DigitBack(n % 16);
    if n >= 16 {
      UnsignedDigits(n / 16);
      assert Digits(n)[..|Digits(n)| - 1] == Digits(n / 16);
    }
  }

  lemma ParseFormat(v: int, max: int)
    requires max >= 0
    ensures ParseInt(FormatInt(v), max) == if -max - 1 <= v <= max then Ok(v) else Error
  {
    var n := if v < 0 then -v else v;
    UnsignedDigits(n);
    ParseUnsigned(Digits(n), n, max);
  }

  lemma ParseUnsigned(t: string, n: int, max: nat)
    requires n >= 0 && t != "" && t[0] != '-' && t[0] != '+' && Unsigned(t) == Some(n)
    ensures ParseInt(t, max) == if n <= max then Ok(n) else Error
    ensures ParseInt("-" + t, max) == if n <= max + 1 then Ok(-n) else Error
  {
    assert ("-" + t)[1..] == t;
  }

  // ---------- HexInt ----------

  function NewHexInt(v: int): string { "0x" + FormatInt(v) }

  function StripPrefix(s: string): string { if "0x" <= s then s[2..] else s }

  function HexIntValue(s: string): Result<int> { ParseInt(StripPrefix(s), MAX64) }

  /** HexInt.Int. */
  function HexIntInt(s: string): Result<int> { ParseInt(StripPrefix(s), MAX32) }

  /** For every int64, negative ones too; Int reads back those of 32 bits, and no others. */
  lemma HexIntRoundTrip(v: int)
    requires -MAX64 - 1 <= v <= MAX64
    ensures HexIntValue(NewHexInt(v)) == Ok(v)
    ensures HexIntInt(NewHexInt(v)) == if -MAX32 - 1 <= v <= MAX32 then Ok(v) else Error
  {
    assert NewHexInt(v)[2..] == FormatInt(v);
    ParseFormat(v, MAX64);
    ParseFormat(v, MAX32);
  }

  /** decodeHexNumber: sign, then prefix, then padding to an even length. */
  method DecodeHexNumber(s: string) returns (negative: bool, bs: Option<seq<Byte>>)
    ensures (negative, bs) == HexNumber(s)
  {
    var t := s;
    negative := false;
    if |t| > 0 && t[0] == '-' {
      negative := true;
      t := t[1..];
    }
    if |t| > 2 && t[..2] == "0x" { t := t[2..]; }
    if |t| % 2 == 1 { t := "0" + t; }
    bs := Decode(t);
  }

  function Unprefixed(t: string): string { if |t| > 2 && "0x" <= t then t[2..] else t }

  function HexNumber(s: string): (bool, Option<seq<Byte>>)
  {
    var negative := s != "" && s[0] == '-';
    var t := Unprefixed(if negative then s[1..] else s);
    (negative, Decode(Padded(t)))
  }

  /** big.Int.SetBytes: big-endian. */
  function FromBytes(bs: seq<Byte>): nat { if bs == [] then 0 else 256 * FromBytes(bs[..|bs| - 1]) + bs[|bs| - 1] }

  /** What HexInt.BigInt reads. */
  function BigInt(s: string): Result<int>
  {
    var (negative, bs) := HexNumber(s);
    if bs.None? then Error
    else
      var i: int := FromBytes(bs.value);
      Ok(if negative then -i else i)
  }

  /** big.Int. */
  class Big {
    var value: int

    constructor ()
      ensures value == 0
    {
      value := 0;
    }

    method SetBytes(bs: seq<Byte>)
      modifies this
      ensures value == FromBytes(bs)
    {
      value := FromBytes(bs);
    }

    method Neg(x: Big)
      modifies this
      ensures value == -old(x.value)
    {
      value := -x.value;
    }
  }

  /** The number is written into `i`, or `i` stays as it is. */
  method ParseBigInt(i: Big, s: string) returns (ok: bool)
    modifies i
    ensures ok == BigInt(s).Ok? && i.value == if ok then BigInt(s).value else old(i.value)
  {
    var negative, bs := DecodeHexNumber(s);
    if bs.None? { return false; }
    i.SetBytes(bs.value);
    if negative { i.Neg(i); }
    ok := true;
  }

  method HexIntBigInt(s: string) returns (r: Result<int>)
    ensures r == BigInt(s)
  {
    var bi := new Big();
    var ok := ParseBigInt(bi, s);
    r := if ok then Ok(bi.value) else Error;
  }

  /** The bytes of an even number of digits stand for the number that the digits stand for. */
  lemma {:induction false} DecodeIsUnsigned(s: string)
    requires |s| % 2 == 0 && s != "" && forall c :: c in s ==> DigitValue(c).Some?
    ensures Decode(s).Some? && Unsigned(s) == Some(FromBytes(Decode(s).value))
    decreases |s|
  {
    var n := |s|;
    var front, pair := s[..n - 2], s[n - 2..];
    if front != "" { AllDigits(front); }
    PairIsUnsigned(front, s[n - 2], s[n - 1]);
    assert s == front + [s[n - 2], s[n - 1]];
    if front != "" { DecodeIsUnsigned(front); }
    DecodePair(s[n - 2], s[n - 1]);
    DecodeAppend(front, pair);
    assert pair == [s[n - 2], s[n - 1]] && front + pair == s;
    FromBytesAppend(Decode(front).value, Decode(pair).value[0]);
  }

  lemma DecodePair(c: char, d: char)
    requires DigitValue(c).Some? && DigitValue(d).Some?
    ensures Decode([c, d]) == Some([16 * DigitValue(c).value + DigitValue(d).value])
  {
    assert [c, d][2..] == "" && Decode("") == Some([]);
    var b: Byte := 16 * DigitValue(c).value + DigitValue(d).value;
    assert [b] + [] == [b];
  }

  lemma FromBytesAppend(bs: seq<Byte>, b: Byte)
    ensures FromBytes(bs + [b]) == 256 * FromBytes(bs) + b
  {
    assert (bs + [b])[..|bs|] == bs;
  }

  lemma UnsignedSnoc(front: string, c: char)
    requires DigitValue(c).Some? && (front == "" || Unsigned(front).Some?)
    ensures Unsigned(front + [c]) == Some(16 * (if front == "" then 0 else Unsigned(front).value) + DigitValue(c).value)
  {
    var s := front + [c];
    assert s[..|s| - 1] == front && s[|s| - 1] == c;
  }

  lemma PairIsUnsigned(front: string, c: char, d: char)
    requires DigitValue(c).Some? && DigitValue(d).Some? && (front == "" || Unsigned(front).Some?)
    ensures Unsigned(front + [c, d]) ==
            Some(256 * (if front == "" then 0 else Unsigned(front).value) +
                 16 * DigitValue(c).value + DigitValue(d).value)
  {
    UnsignedSnoc(front, c);
    UnsignedSnoc(front + [c], d);
    assert front + [c, d] == front + [c] + [d];
  }

  lemma {:induction false} AllDigits(s: string)
    requires s != "" && forall c :: c in s ==> DigitValue(c).Some?
    ensures Unsigned(s).Some?
    decreases |s|
  {
    if |s| > 1 { AllDigits(s[..|s| - 1]); }
  }

  lemma DecodeCons(c: char, d: char, rest: string)
    requires DigitValue(c).Some? && DigitValue(d).Some?
    ensures Decode([c, d] + rest).Some? <==> Decode(rest).Some?
    ensures Decode(rest).Some? ==>
      Decode([c, d] + rest).value == [16 * DigitValue(c).value + DigitValue(d).value] + Decode(rest).value
  {
    assert ([c, d] + rest)[2..] == rest;
  }

  lemma Associative(a: seq<Byte>, b: seq<Byte>, c: seq<Byte>)
    ensures a + (b + c) == a + b + c
  {
  }

  lemma {:induction false} DecodeAppend(a: string, b: string)
    requires Decode(a).Some? && Decode(b).Some?
    ensures Decode(a + b) == Some(Decode(a).value + Decode(b).value)
    decreases |a|
  {
    if a == "" {
      assert a + b == b && [] + Decode(b).value == Decode(b).value;
    } else {
      var c, d, rest := a[0], a[1], a[2..];
      DecodeCons(c, d, rest + b);
      DecodeCons(c, d, rest);
      assert a == [c, d] + rest && a + b == [c, d] + (rest + b);
      DecodeAppend(rest, b);
      Associative([16 * DigitValue(c).value + DigitValue(d).value], Decode(rest).value, Decode(b).value);
    }
  }

  lemma {:induction false} LeadingZero(s: string)
    requires s != "" && Unsigned(s).Some?
    ensures Unsigned("0" + s) == Unsigned(s)
    decreases |s|
  {
    var t := "0" + s;
    assert t[..|t| - 1] == "0" + s[..|s| - 1];
    if |s| == 1 {
      assert Unsigned("0") == Some(0);
    } else {
      LeadingZero(s[..|s| - 1]);
    }
  }

  /** BigInt reads what NewHexInt writes, of any length, if and only if it is not negative: the sign
      then stands behind the prefix, where BigInt does not look for it. */
  lemma BigIntAgrees(v: int)
    ensures BigInt(NewHexInt(v)) == if v >= 0 then Ok(v) else Error
  {
    var s := NewHexInt(v);
    assert s[0] == '0' && s[2..] == FormatInt(v) && Unprefixed(s) == FormatInt(v);
    if v >= 0 {
      UnsignedDigits(v);
      EvenDigits(Digits(v));
    } else {
      SignIsNoDigit(Digits(-v));
    }
  }

  function Padded(t: string): string { if |t| % 2 == 1 then "0" + t else t }

  lemma PaddedDigits(t: string)
    requires t != "" && forall c :: c in t ==> DigitValue(c).Some?
    ensures |Padded(t)| % 2 == 0 && Padded(t) != "" && (forall c :: c in Padded(t) ==> DigitValue(c).Some?)
    ensures Unsigned(Padded(t)) == Unsigned(t)
  {
    AllDigits(t);
    LeadingZero(t);
  }

  lemma EvenDigits(t: string)
    requires t != "" && forall c :: c in t ==> DigitValue(c).Some?
    ensures var r := Decode(Padded(t)); r.Some? && Unsigned(t) == Some(FromBytes(r.value))
  {
    PaddedDigits(t);
    DecodeIsUnsigned(Padded(t));
  }

  lemma SignIsNoDigit(digits: string)
    ensures var t := "-" + digits; Decode(Padded(t)) == None
  {
    var t := "-" + digits;
    assert t[0] == '-' && ("0" + t)[1] == '-';
  }

  /** The other way round for the sign before the prefix. */
  lemma SignBeforePrefix(v: int)
    requires v >= 0
    ensures BigInt("-" + NewHexInt(v)) == Ok(-v) && HexIntValue("-" + NewHexInt(v)) == Error
  {
    var t := NewHexInt(v);
    assert |t| > 1 && t[0] == '0' && t[1] == 'x';
    BigIntAgrees(v);
    SignedBigInt(t);
    NoSignedPrefix(t);
  }

  lemma SignedBigInt(t: string)
    requires t != "" && t[0] != '-' && BigInt(t).Ok?
    ensures BigInt("-" + t) == Ok(-BigInt(t).value)
  {
    assert ("-" + t)[1..] == t;
  }

  lemma NoSignedPrefix(t: string)
    requires |t| > 1 && t[1] == 'x'
    ensures HexIntValue("-" + t) == Error
  {
    var s := "-" + t;
    assert s[0] == '-' && StripPrefix(s) == s && s[1..] == t;
    UnsignedWithX(t, 1);
  }

  lemma {:induction false} UnsignedWithX(s: string, i: nat)
    requires i < |s| && DigitValue(s[i]).None?
    ensures Unsigned(s).None?
    decreases |s|
  {
    if i < |s| - 1 { UnsignedWithX(s[..|s| - 1], i); }
  }

  // ---------- HexBytes ----------

  function NewHexBytes(bs: seq<Byte>): string
  {
    "0x" + Encode(bs)
  }

  /** Value: the empty text stands for no bytes, and a single character panics. */
  function HexBytesValue(s: string): Result<seq<Byte>>
  {
    if s == "" then Ok([])
    else if |s| == 1 then Panic
    else match Decode(s[2..]) case None => Error case Some(bs) => Ok(bs)
  }

  lemma HexBytesRoundTrip(bs: seq<Byte>)
    ensures HexBytesValue(NewHexBytes(bs)) == Ok(bs)
  {
    assert NewHexBytes(bs)[2..] == Encode(bs);
    DecodeEncode(bs);
  }

  // ---------- Address ----------

  function NewAddress(b: seq<Byte>): string
  {
    if |b| != 21 then ""
    else if b[0] == 1 then "cx" + Encode(b[1..])
    else if b[0] == 0 then "hx" + Encode(b[1..])
    else ""
  }

  /** hex.Decode into the buffer, behind its first byte: pair by pair, until they do not fit. */
  method HexDecode(b: array<Byte>, src: string) returns (r: Result<nat>)
    requires b.Length >= 1
    modifies b
    ensures b[0] == old(b[0])
    ensures match DecodeInto(src, [], b.Length - 1)
            case Ok(bs) => r == Ok(|bs|) && |bs| < b.Length && b[1..|bs| + 1] == bs
            case Error => r == Error
            case Panic => r == Panic
  {
    var n := 0;
    ghost var done: seq<Byte> := [];
    ghost var room := b.Length - 1;
    while 2 * n + 1 < |src|
      invariant n == |done| <= room && 2 * n <= |src| && b[0] == old(b[0])
      invariant forall i :: 0 <= i < n ==> b[i + 1] == done[i]
      invariant DecodeInto(src, [], room) == DecodeInto(src[2 * n..], done, room)
    {
      var c, d := src[2 * n], src[2 * n + 1];
      var p, q := DigitValue(c), DigitValue(d);
      assert src[2 * n..] == [c, d] + src[2 * n + 2..];
      DecodeIntoPair(c, d, src[2 * n + 2..], done, room);
      if p.None? || q.None? { return Error; }
      if n + 1 == b.Length { return Panic; }
      b[n + 1] := 16 * p.value + q.value;
      done := done + [16 * p.value + q.value];
      n := n + 1;
    }
    DecodeIntoShort(src[2 * n..], done, room);
    if 2 * n < |src| { return Error; }
    assert b[1..n + 1] == done;
    r := Ok(n);
  }

  /** Value. */
  method AddressValue(a: string) returns (r: Result<seq<Byte>>)
    ensures r == AddressBytes(a)
  {
    if |a| < 2 { return Panic; }
    var b := new Byte[21](_ => 0);
    var prefix := a[..2];
    if prefix == "cx" {
      b[0] := 1;
    } else if prefix != "hx" {
      return Error;
    }
    var n := HexDecode(b, a[2..]);
    match n {
      case Error => return Error;
      case Panic => return Panic;
      case Ok(length) =>
        if length != 20 { return Error; }
        assert b[..] == [b[0]] + b[1..21];
        return Ok(b[..]);
    }
  }

  /** hex.Decode into a buffer with room for `room` bytes. */
  function DecodeInto(src: string, done: seq<Byte>, room: nat): Result<seq<Byte>>
    decreases |src|
  {
    if src == "" then Ok(done)
    else if |src| == 1 || DigitValue(src[0]).None? || DigitValue(src[1]).None? then Error
    else if |done| >= room then Panic
    else DecodeInto(src[2..], done + [16 * DigitValue(src[0]).value + DigitValue(src[1]).value], room)
  }

  lemma DecodeIntoPair(c: char, d: char, rest: string, done: seq<Byte>, room: nat)
    ensures DecodeInto([c, d] + rest, done, room) ==
            if DigitValue(c).None? || DigitValue(d).None? then Error
            else if |done| >= room then Panic
            else DecodeInto(rest, done + [16 * DigitValue(c).value + DigitValue(d).value], room)
  {
    assert ([c, d] + rest)[2..] == rest;
  }

  lemma DecodeIntoShort(rest: string, done: seq<Byte>, room: nat)
    requires |rest| <= 1
    ensures DecodeInto(rest, done, room) == if rest == "" then Ok(done) else Error
  {
  }

  function AddressBytes(a: string): Result<seq<Byte>>
  {
    if |a| < 2 then Panic
    else if a[..2] != "cx" && a[..2] != "hx" then Error
    else
      match DecodeInto(a[2..], [], 20)
      case Ok(bs) => if |bs| == 20 then Ok([if a[..2] == "cx" then 1 else 0] + bs) else Error
      case Error => Error
      case Panic => Panic
  }

  lemma {:induction false} DecodeIntoEncode(bs: seq<Byte>, done: seq<Byte>, room: nat)
    requires |done| + |bs| <= room
    ensures DecodeInto(Encode(bs), done, room) == Ok(done + bs)
    decreases |bs|
  {
    if bs == [] {
      assert done + bs == done;
    } else {
      DigitBack(bs[0] / 16);
      DigitBack(bs[0] % 16);
      assert Encode(bs)[2..] == Encode(bs[1..]);
      DecodeIntoEncode(bs[1..], done + [bs[0]], room);
      assert done + [bs[0]] + bs[1..] == done + bs;
    }
  }

  /** An address reads back exactly when it has 21 bytes and the first is 0 or 1. */
  lemma AddressRoundTrip(b: seq<Byte>)
    ensures AddressBytes(NewAddress(b)) == Ok(b) <==> |b| == 21 && b[0] <= 1
  {
    if |b| == 21 && b[0] <= 1 {
      var a := NewAddress(b);
      DecodeIntoEncode(b[1..], [], 20);
      assert a[2..] == Encode(b[1..]);
      assert [] + b[1..] == b[1..] && [b[0]] + b[1..] == b;
    }
  }
}
