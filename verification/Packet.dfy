// The WMBC call text of one AMW0 packet (src/backends/amw0/wmbc-pack.c), the EC-write packing of
// src/backends/amw0/transport.c, and a reader for that text following the AC00 byte layout.
module Packets {
  import opened Types
  import opened EcMemory

  datatype Packet = Packet(slot: byte, sa0: byte, sa1: byte, sa2: byte, sa3: byte, sac1: u16)

  const EXPR_MAX: nat := 256

  const ROUTE_WKBC0: u16 := 0x0000
  const ROUTE_WKBC1: u16 := 0x0001

  // ----- printing

  type nibble = n: int | 0 <= n < 16

  function HexDigit(n: nibble): (c: char)
    ensures HexValue(c) == Some(n)
  {
    if n < 10 then '0' + n as char else 'A' + (n - 10) as char
  }

  /** `0x%02X` */
  function HexByte(b: byte): string
  {
    ['0', 'x', HexDigit(b / 16), HexDigit(b % 16)]
  }

  /** `0x%X` */
  function HexShort(b: byte): string
  {
    if b < 16 then ['0', 'x', HexDigit(b)] else HexByte(b)
  }

  /** The 40 bytes of the buffer argument: SA00..SA03, the route word, and the fixed filler. */
  function BufferBytes(p: Packet): (bytes: seq<byte>)
    ensures |bytes| == 40
  {
    [p.sa0, p.sa1, p.sa2, p.sa3, p.sac1 % 0x100, p.sac1 / 0x100 % 0x100, 0, 0]
    + seq(32, i requires 0 <= i < 32 => 2 + i / 4)
  }

  function CommaBytes(bytes: seq<byte>): (text: string)
    ensures |text| == if bytes == [] then 0 else 5 * |bytes| - 1
  {
    if bytes == [] then ""
    else if |bytes| == 1 then HexByte(bytes[0])
    else HexByte(bytes[0]) + "," + CommaBytes(bytes[1..])
  }

  function MethodText(): string { "\\_SB.AMW0.WMBC " }
  function SelectorText(): string { " 0x4 {" }

  function FormatPacket(p: Packet): string
  {
    MethodText() + HexShort(p.slot) + SelectorText() + CommaBytes(BufferBytes(p)) + "}"
  }

  /** `amw0_packet_format_expr`: the text, or BUFFER_TOO_SMALL when the buffer cannot hold it. */
  method FormatExpr(p: Packet, capacity: nat) returns (status: Status, text: string)
    requires capacity > 0
    ensures text == Truncate(FormatPacket(p), capacity)
    ensures status == if |FormatPacket(p)| < capacity then Ok else BufferTooSmall
    ensures capacity == EXPR_MAX ==> status == Ok && text == FormatPacket(p)
  {
    var whole := FormatPacket(p);
    PacketLength(p);
    text := Truncate(whole, capacity);
    status := if |whole| >= capacity then BufferTooSmall else Ok;
  }

  /** Formatting into the 256-character expression buffer never fails. */
  lemma PacketLength(p: Packet)
    ensures 224 <= |FormatPacket(p)| <= 225
  {
    assert |MethodText()| == 15 && |SelectorText()| == 6;
  }

  // ----- reading

  function HexValue(c: char): Option<nibble>
  {
    if '0' <= c <= '9' then Some((c - '0') as int)
    else if 'A' <= c <= 'F' then Some((c - 'A') as int + 10)
    else None
  }

  /** Reads `0x` and one or two digits; returns the value and the rest of the text. */
  function ReadHex(text: string): Option<(byte, string)>
  {
    if |text| < 3 || text[0] != '0' || text[1] != 'x' || HexValue(text[2]).None? then None
    else if |text| == 3 || HexValue(text[3]).None? then Some((HexValue(text[2]).value, text[3..]))
    else Some((16 * HexValue(text[2]).value + HexValue(text[3]).value, text[4..]))
  }

  /** Reads comma-separated bytes up to the closing brace, which must end the text. */
  function ReadBytes(text: string): Option<seq<byte>>
    decreases |text|
  {
    match ReadHex(text)
    case None => None
    case Some((b, rest)) =>
      if rest == "}" then Some([b])
      else if rest == "" || rest[0] != ',' then None
      else match ReadBytes(rest[1..])
        case None => None
        case Some(more) => Some([b] + more)
  }

  function ReadPacket(text: string): Option<(byte, seq<byte>)>
  {
    if !(MethodText() <= text) then None
    else match ReadHex(text[|MethodText()|..])
      case None => None
      case Some((slot, rest)) =>
        if !(SelectorText() <= rest) then None
        else match ReadBytes(rest[|SelectorText()|..])
          case None => None
          case Some(bytes) => Some((slot, bytes))
  }

  lemma ReadHexByte(b: byte, rest: string)
    ensures ReadHex(HexByte(b) + rest) == Some((b, rest))
  {
    var text := HexByte(b) + rest;
    assert text[4..] == rest;
    assert text[2] == HexDigit(b / 16) && text[3] == HexDigit(b % 16);
  }

  lemma ReadHexShort(b: byte, rest: string)
    requires rest != "" && HexValue(rest[0]).None?
    ensures ReadHex(HexShort(b) + rest) == Some((b, rest))
  {
    if b < 16 {
      var text := HexShort(b) + rest;
      assert text[3..] == rest;
      assert text[2] == HexDigit(b) && text[3] == rest[0];
    } else {
      ReadHexByte(b, rest);
    }
  }

  lemma ReadStep(b: byte, more: string, tail: seq<byte>)
    requires ReadBytes(more) == Some(tail)
    ensures ReadBytes(HexByte(b) + ("," + more)) == Some([b] + tail)
  {
    ReadHexByte(b, "," + more);
    assert ("," + more)[1..] == more;
  }

  lemma ReadLast(b: byte)
    ensures ReadBytes(HexByte(b) + "}") == Some([b])
  {
    ReadHexByte(b, "}");
  }

  lemma CommaShape(bytes: seq<byte>)
    requires |bytes| > 1
    ensures CommaBytes(bytes) + "}" == HexByte(bytes[0]) + ("," + (CommaBytes(bytes[1..]) + "}"))
  {
    var b, more := HexByte(bytes[0]), CommaBytes(bytes[1..]);
    assert (b + "," + more) + "}" == b + ("," + (more + "}"));
  }

  lemma {:induction false} ReadCommaBytes(bytes: seq<byte>)
    requires bytes != []
    ensures ReadBytes(CommaBytes(bytes) + "}") == Some(bytes)
  {
    var b := bytes[0];
    if |bytes| == 1 {
      ReadLast(b);
      assert bytes == [b];
    } else {
      var more := CommaBytes(bytes[1..]) + "}";
      CommaShape(bytes);
      ReadCommaBytes(bytes[1..]);
      ReadStep(b, more, bytes[1..]);
      assert [b] + bytes[1..] == bytes;
    }
  }

  /** Printing is invertible: the slot and all 40 buffer bytes come back. */
  lemma PacketRoundTrip(p: Packet)
    ensures ReadPacket(FormatPacket(p)) == Some((p.slot, BufferBytes(p)))
  {
    var bytes := BufferBytes(p);
    var tail := SelectorText() + (CommaBytes(bytes) + "}");
    var body := HexShort(p.slot) + tail;
    assert FormatPacket(p) == MethodText() + body;
    assert (MethodText() + body)[|MethodText()|..] == body;
    ReadHexShort(p.slot, tail);
    assert tail[|SelectorText()|..] == CommaBytes(bytes) + "}";
    ReadCommaBytes(bytes);
  }

  // ----- the firmware end

  /** Buffer bytes 0..3 are SA00..SA03 and bytes 4..7 are the route; both WKBC routes store SA02 at SA01:SA00. */
  function Firmware(mem: Memory, text: string): Memory
  {
    match ReadPacket(text)
    case None => mem
    case Some((slot, bytes)) =>
      if |bytes| < 8 then mem
      else
        var route: int := bytes[4] as int + 0x100 * bytes[5] as int + 0x1_0000 * bytes[6] as int +
            0x100_0000 * bytes[7] as int;
        if route == ROUTE_WKBC0 || route == ROUTE_WKBC1 then mem[bytes[0] as int + 0x100 * bytes[1] as int := bytes[2]]
        else mem
  }

  /** `amw0_backend_send_ec_write` */
  function EcWritePacket(route: u16, offset: u16, value: byte): Packet
  {
    Packet(0, offset % 0x100, offset / 0x100 % 0x100, value, 0, route)
  }

  /** Any address and value survive the low/high split, the printing and the firmware's reading. */
  lemma EcWriteLands(mem: Memory, route: u16, offset: u16, value: byte)
    requires route == ROUTE_WKBC0 || route == ROUTE_WKBC1
    ensures Firmware(mem, FormatPacket(EcWritePacket(route, offset, value))) == mem[offset as int := value]
  {
    PacketRoundTrip(EcWritePacket(route, offset, value));
  }

  /** Two packets with the same text are the same packet. */
  lemma PacketTextInjective(p: Packet, q: Packet)
    requires FormatPacket(p) == FormatPacket(q)
    ensures p == q
  {
    PacketRoundTrip(p);
    PacketRoundTrip(q);
    var a, b := BufferBytes(p), BufferBytes(q);
    assert a[0] == b[0] && a[1] == b[1] && a[2] == b[2] && a[3] == b[3] && a[4] == b[4] && a[5] == b[5];
  }
}
