/** A VM's Apple identity: the ROM bytes, their hexadecimal form, and the MAC address derived from them. */
module Smbios {
  import opened Wrappers
  import opened Text

  type byte = x: int | 0 <= x < 256

  const SERIAL_ALPHABET := "ABCDEFGHIJKLMNPQRSTUVWXYZ0123456789"

  // ---- hexadecimal -----------------------------------------------------------------------------------------------

  function HexDigit(d: nat): char
    requires d < 16
  {
    if d < 10 then ('0' as int + d) as char else ('a' as int + d - 10) as char
  }

  function Unhex(c: char): Option<nat>
  {
    if '0' <= c <= '9' then Some(c as int - '0' as int)
    else if 'a' <= c <= 'f' then Some(c as int - 'a' as int + 10)
    else if 'A' <= c <= 'F' then Some(c as int - 'A' as int + 10)
    else None
  }

  function Hex2(b: byte): string { [HexDigit(b / 16), HexDigit(b % 16)] }

  function HexEncode(bs: seq<byte>): string { if bs == [] then "" else Hex2(bs[0]) + HexEncode(bs[1..]) }

  function HexDecode(s: string): Option<seq<byte>>
  {
    if s == "" then Some([])
    else if |s| == 1 then None
    else
      match (Unhex(s[0]), Unhex(s[1]), HexDecode(s[2..]))
      case (Some(h), Some(l), Some(rest)) => if h < 16 && l < 16 then Some([16 * h + l] + rest) else None
      case _ => None
  }

  predicate IsLowerHex(c: char) { '0' <= c <= '9' || 'a' <= c <= 'f' }

  lemma Hex2ReadsBack(b: byte)
    ensures Unhex(Hex2(b)[0]) == Some(b / 16) && Unhex(Hex2(b)[1]) == Some(b % 16)
    ensures IsLowerHex(Hex2(b)[0]) && IsLowerHex(Hex2(b)[1])
  {
  }

  lemma {:induction false} HexReadsBack(bs: seq<byte>)
    ensures HexDecode(HexEncode(bs)) == Some(bs) && forall i :: 0 <= i < |HexEncode(bs)| ==> IsLowerHex(HexEncode(bs)[i])
  {
    if bs != [] {
      HexReadsBack(bs[1..]);
      Hex2ReadsBack(bs[0]);
      var s := HexEncode(bs);
      assert s == Hex2(bs[0]) + HexEncode(bs[1..]);
      assert s[0] == Hex2(bs[0])[0] && s[1] == Hex2(bs[0])[1] && s[2..] == HexEncode(bs[1..]);
      assert bs == [bs[0]] + bs[1..];
    }
  }

  // ---- MAC -------------------------------------------------------------------------------------------------------

  /** SMBIOS.MAC of a ROM; empty for anything but six bytes of hexadecimal. */
  function Mac(rom: string): string
  {
    match HexDecode(rom)
    case Some(b) =>
      if |b| != 6 then ""
      else Hex2(b[0]) + ":" + Hex2(b[1]) + ":" + Hex2(b[2]) + ":" + Hex2(b[3]) + ":" + Hex2(b[4]) + ":" + Hex2(b[5])
    case None => ""
  }

  lemma Hex2Injective(a: byte, b: byte)
    requires Hex2(a) == Hex2(b)
    ensures a == b
  {
    Hex2ReadsBack(a);
    Hex2ReadsBack(b);
  }

  lemma MacParts(b: seq<byte>)
    requires |b| == 6
    ensures |Mac(HexEncode(b))| == 17
    ensures forall i :: 0 <= i < 6 ==> Mac(HexEncode(b))[3 * i..3 * i + 2] == Hex2(b[i])
  {
    HexReadsBack(b);
    var m := Mac(HexEncode(b));
    assert m[0..2] == Hex2(b[0]) && m[3..5] == Hex2(b[1]) && m[6..8] == Hex2(b[2]);
    assert m[9..11] == Hex2(b[3]) && m[12..14] == Hex2(b[4]) && m[15..17] == Hex2(b[5]);
  }

  /** The six bytes stand between colons. */
  lemma MacColons(b: seq<byte>)
    requires |b| == 6
    ensures |Mac(HexEncode(b))| == 17
    ensures var m := Mac(HexEncode(b)); m[2] == ':' && m[5] == ':' && m[8] == ':' && m[11] == ':' && m[14] == ':'
  {
    HexReadsBack(b);
  }

  /** Two identities with different ROMs never share a MAC address, and every six-byte ROM has one. */
  lemma MacInjective(a: seq<byte>, b: seq<byte>)
    requires |a| == |b| == 6
    ensures Mac(HexEncode(a)) != "" && (Mac(HexEncode(a)) == Mac(HexEncode(b)) ==> a == b)
  {
    MacParts(a);
    MacParts(b);
    if Mac(HexEncode(a)) == Mac(HexEncode(b)) {
      forall i | 0 <= i < 6 ensures a[i] == b[i] {
        assert Hex2(a[i]) == Hex2(b[i]);
        Hex2Injective(a[i], b[i]);
      }
    }
  }

  // ---- randROM and randString ----------------------------------------------------------------------------------------

  /** Locally administered and unicast, as the two low bits of the first byte of a MAC address say. */
  predicate LocalUnicast(b: bv8) { b & 1 == 0 && b & 2 == 2 }

  /** Marks random bytes as a local unicast address, in place, and prints them. */
  method RandROM(b: array<bv8>) returns (rom: string)
    requires b.Length == 6
    modifies b
    ensures LocalUnicast(b[0]) && b[0] & 0xfc == old(b[0]) & 0xfc && b[1..] == old(b[1..])
    ensures rom == HexEncode(seq(6, i requires 0 <= i < 6 reads b => b[i] as int)) && Mac(rom) != ""
  {
    b[0] := (b[0] & 0xfe) | 0x02;
    var ints: seq<byte> := seq(6, i requires 0 <= i < 6 reads b => b[i] as int);
    rom := HexEncode(ints);
    MacInjective(ints, ints);
  }

  /** What Apple's serial numbers are made of: digits and capital letters, but no O. */
  predicate IsSerial(c: char) { '0' <= c <= '9' || ('A' <= c <= 'Z' && c != 'O') }

  /** The letters before O, those after it, and the digits. */
  lemma AlphabetAt(k: nat)
    requires k < |SERIAL_ALPHABET|
    ensures SERIAL_ALPHABET[k] as int == (if k < 14 then 65 + k else if k < 25 then 66 + k else 23 + k)
  {
  }

  lemma SerialAlphabet(c: char)
    ensures c in SERIAL_ALPHABET <==> IsSerial(c)
  {
    if c in SERIAL_ALPHABET {
      var k :| 0 <= k < |SERIAL_ALPHABET| && SERIAL_ALPHABET[k] == c;
      AlphabetAt(k);
    }
    if IsSerial(c) {
      var k := if c <= '9' then c as int - 23 else if c < 'O' then c as int - 65 else c as int - 66;
      AlphabetAt(k);
      assert SERIAL_ALPHABET[k] == c;
    }
  }

  function SerialChar(b: byte): char { SERIAL_ALPHABET[b % |SERIAL_ALPHABET|] }

  /** Maps random bytes to the serial alphabet, in place. */
  method RandString(b: array<byte>) returns (s: string)
    modifies b
    ensures |s| == b.Length && forall i :: 0 <= i < b.Length ==> s[i] == SerialChar(old(b[i])) && IsSerial(s[i])
  {
    for i := 0 to b.Length
      invariant forall j :: 0 <= j < i ==> b[j] == SerialChar(old(b[j])) as int
      invariant forall j :: i <= j < b.Length ==> b[j] == old(b[j])
    {
      AlphabetAt(b[i] % |SERIAL_ALPHABET|);
      b[i] := SerialChar(b[i]) as int;
    }
    forall i | 0 <= i < b.Length ensures IsSerial(b[i] as char) { SerialAlphabet(b[i] as char); }
    s := seq(b.Length, i requires 0 <= i < b.Length reads b => b[i] as char);
  }
}
