/** The packet writer and reader the channel server's game logic is built on.
    A packet is modelled as the sequence of typed fields that were appended to it;
    the byte encoding of each field (endianness, string length prefix, padding)
    belongs to the transport format and is not part of this model. */
module Packets {

  datatype Option<T> = None | Some(value: T)

  // Fixed-width integer domains of the C++ field types.
  type int8 = x: int | -0x80 <= x < 0x80
  type uint8 = x: int | 0 <= x < 0x100
  type int16 = x: int | -0x8000 <= x < 0x8000
  type int32 = x: int | -0x8000_0000 <= x < 0x8000_0000
  type uint64 = x: int | 0 <= x < 0x1_0000_0000_0000_0000

  /** Conversion of any integer to `uint8_t`: keeps the low eight bits. */
  function ToUint8(x: int): (r: uint8)
    ensures (r - x) % 0x100 == 0
    ensures 0 <= x < 0x100 ==> r == x
  {
    x % 0x100
  }

  /** Conversion of any integer to `int16_t`: keeps the low sixteen bits, two's complement. */
  function ToInt16(x: int): (r: int16)
    ensures (r - x) % 0x1_0000 == 0
    ensures -0x8000 <= x < 0x8000 ==> r == x
  {
    var m := x % 0x1_0000;
    if m < 0x8000 then m else m - 0x1_0000
  }

  /** Conversion of any integer to `int32_t`: keeps the low 32 bits, two's complement. */
  function ToInt32(x: int): (r: int32)
    ensures (r - x) % 0x1_0000_0000 == 0
    ensures -0x8000_0000 <= x < 0x8000_0000 ==> r == x
  {
    var m := x % 0x1_0000_0000;
    if m < 0x8000_0000 then m else m - 0x1_0000_0000
  }

  /** Conversion of an `int32_t` to the 64-bit `size_t`: a negative value wraps around. */
  function Int32ToSize(x: int32): (r: uint64)
    ensures x >= 0 ==> r == x
    ensures x < 0 ==> r == x + 0x1_0000_0000_0000_0000
  {
    if x >= 0 then x else x + 0x1_0000_0000_0000_0000
  }

  /** Outbound headers. Their numeric values live in the server's header tables,
      which are not part of this model; only their distinctness matters here. */
  datatype Opcode =
    | SmsgMapEffect | SmsgTheatrics | SmsgSound | SmsgSkillShow | SmsgMessage
    | SendPetShowChat | SendPetSummoned | SendPetAnimation | SendMoveItem
    | SendGainItem | SendShowSkill | SendUpdateStat

  /** One appended field, tagged with the C++ type it was written as. */
  datatype Field =
    | Header(op: Opcode)                  // add<header_t>, or addShort of a header constant
    | I8(i8: int8)                        // add<int8_t>
    | U8(u8: uint8)                       // add<uint8_t>, addByte
    | I16(i16: int16)                     // add<int16_t>, addShort
    | I32(i32: int32)                     // add<int32_t>, addInt
    | Bool(b: bool)                       // add<bool>
    | Str(s: string)                      // addString: length-prefixed
    | FixedStr(fs: string, width: nat)    // addString(s, n): padded to n units
    | Raw(bytes: seq<uint8>)              // addBytes of a literal hex string
    | I8Vector(items: seq<int8>)          // addVector of int8_t

  type Packet = seq<Field>

  /** A position on a map, in the game's `int16_t` coordinates. */
  datatype Pos = Pos(x: int16, y: int16)

  /** Who an outbound packet is delivered to. */
  datatype Recipient =
    | ToPlayer(playerId: int)
    | ToMap(mapId: int)
    | ToMapExcept(mapId: int, exceptPlayerId: int)

  /** `addByte` of an arbitrary integral value: the value is converted to `unsigned char`. */
  function Byte(x: int): (f: Field)
    ensures f.U8? && (f.u8 - x) % 0x100 == 0
  {
    U8(ToUint8(x))
  }

  /** A `bool` written with `addByte`. */
  function FlagByte(b: bool): Field
  {
    U8(if b then 1 else 0)
  }

  // What a reader finds at a cursor position when it asks for a field of a given type.
  // A missing field, or a field of another type, is a malformed packet.

  function I8At(buf: Packet, pos: nat): Option<int8> {
    if pos < |buf| && buf[pos].I8? then Some(buf[pos].i8) else None
  }

  function U8At(buf: Packet, pos: nat): Option<uint8> {
    if pos < |buf| && buf[pos].U8? then Some(buf[pos].u8) else None
  }

  function I16At(buf: Packet, pos: nat): Option<int16> {
    if pos < |buf| && buf[pos].I16? then Some(buf[pos].i16) else None
  }

  function I32At(buf: Packet, pos: nat): Option<int32> {
    if pos < |buf| && buf[pos].I32? then Some(buf[pos].i32) else None
  }

  function StrAt(buf: Packet, pos: nat): Option<string> {
    if pos < |buf| && buf[pos].Str? then Some(buf[pos].s) else None
  }

  function I8VectorAt(buf: Packet, pos: nat): Option<seq<int8>> {
    if pos < |buf| && buf[pos].I8Vector? then Some(buf[pos].items) else None
  }

  /** The outbound packet under construction (`PacketBuilder`, `PacketCreator`):
      it only ever grows at its end. */
  class PacketBuilder {
    var fields: Packet

    constructor ()
      ensures fields == []
    {
      fields := [];
    }

    method Add(f: Field)
      modifies this
      ensures fields == old(fields) + [f]
    {
      fields := fields + [f];
    }

    /** Splices an already built fragment in place (`addBuffer`, `addClass`). */
    method AddBuffer(other: PacketBuilder)
      modifies this
      ensures fields == old(fields) + old(other.fields)
    {
      fields := fields + other.fields;
    }
  }

  /** The inbound packet (`PacketReader`): a fixed field sequence and a cursor that
      only moves forward. A failed read leaves the cursor where it was and is
      reported as `None`; the handler then abandons the packet. */
  class PacketReader {
    const buf: Packet
    var pos: nat

    constructor (buf: Packet)
      ensures this.buf == buf && pos == 0
    {
      this.buf := buf;
      pos := 0;
    }

    method GetI8() returns (r: Option<int8>)
      modifies this
      ensures r == I8At(buf, old(pos))
      ensures pos == if r.Some? then old(pos) + 1 else old(pos)
    {
      r := I8At(buf, pos);
      if r.Some? { pos := pos + 1; }
    }

    method GetU8() returns (r: Option<uint8>)
      modifies this
      ensures r == U8At(buf, old(pos))
      ensures pos == if r.Some? then old(pos) + 1 else old(pos)
    {
      r := U8At(buf, pos);
      if r.Some? { pos := pos + 1; }
    }

    method GetI16() returns (r: Option<int16>)
      modifies this
      ensures r == I16At(buf, old(pos))
      ensures pos == if r.Some? then old(pos) + 1 else old(pos)
    {
      r := I16At(buf, pos);
      if r.Some? { pos := pos + 1; }
    }

    method GetI32() returns (r: Option<int32>)
      modifies this
      ensures r == I32At(buf, old(pos))
      ensures pos == if r.Some? then old(pos) + 1 else old(pos)
    {
      r := I32At(buf, pos);
      if r.Some? { pos := pos + 1; }
    }

    method GetString() returns (r: Option<string>)
      modifies this
      ensures r == StrAt(buf, old(pos))
      ensures pos == if r.Some? then old(pos) + 1 else old(pos)
    {
      r := StrAt(buf, pos);
      if r.Some? { pos := pos + 1; }
    }

    method GetI8Vector() returns (r: Option<seq<int8>>)
      modifies this
      ensures r == I8VectorAt(buf, old(pos))
      ensures pos == if r.Some? then old(pos) + 1 else old(pos)
    {
      r := I8VectorAt(buf, pos);
      if r.Some? { pos := pos + 1; }
    }
  }
}
