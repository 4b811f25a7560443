/** Java's fixed-width integers, `Math.abs`, and the `java.io.DataInputStream`
    reads the car decodes its commands with. A stream is a value: the bytes the
    peer has sent, a read cursor, and whether `close()` has been called. */
module JavaIO {

  /** Java `byte`: signed 8-bit. */
  newtype int8 = x: int | -0x80 <= x < 0x80

  /** An octet as it travels on the wire. */
  newtype byte = x: int | 0 <= x < 0x100

  /** Java `int`: signed 32-bit. */
  newtype int32 = x: int | -0x8000_0000 <= x < 0x8000_0000

  /** `Integer.MIN_VALUE` */
  const INT_MIN: int32 := -0x8000_0000

  const TWO_POW_32: int := 0x1_0000_0000

  /** A Java reference that may be null. */
  datatype Option<T> = None | Some(value: T)

  /** The `byte` Java sees for an octet read off the wire (two's complement). */
  function SignedByte(b: byte): (r: int8)
    ensures (r as int + 0x100) % 0x100 == b as int
    ensures r < 0 <==> b >= 0x80
  {
    if b < 0x80 then b as int8 else (b as int - 0x100) as int8
  }

  /** The octet `DataOutput.writeByte` puts on the wire for a `byte`. */
  function UnsignedByte(x: int8): (b: byte)
    ensures SignedByte(b) == x
  {
    if x >= 0 then x as int as byte else (x as int + 0x100) as byte
  }

  /** `Math.abs(int)`: the magnitude, except that `Integer.MIN_VALUE` has no
      positive counterpart in 32 bits and comes back unchanged, still negative. */
  function Abs(x: int32): (r: int32)
    ensures x != INT_MIN ==> r >= 0 && (r as int == x as int || r as int == -(x as int))
    ensures x == INT_MIN ==> r == x
    ensures r < 0 <==> x == INT_MIN
  {
    if x < 0 && x != INT_MIN then -x else x
  }

  /** The unsigned value of four octets, most significant first. */
  function Unsigned32(b: seq<byte>): (u: nat)
    requires |b| == 4
    ensures u < TWO_POW_32
  {
    (b[0] as int) * 0x100_0000 + (b[1] as int) * 0x1_0000 + (b[2] as int) * 0x100 + (b[3] as int)
  }

  /** `DataInput.readInt`: four octets, big-endian, two's complement. */
  function FromBigEndian(b: seq<byte>): (v: int32)
    requires |b| == 4
    ensures v < 0 <==> b[0] >= 0x80
  {
    var u := Unsigned32(b);
    if u < 0x8000_0000 then u as int32 else (u - TWO_POW_32) as int32
  }

  /** `DataOutput.writeInt`, the encoding a remote control sends a payload in. */
  function ToBigEndian(v: int32): (b: seq<byte>)
    ensures |b| == 4
  {
    var u := if v < 0 then v as int + TWO_POW_32 else v as int;
    [(u / 0x100_0000) as byte, (u / 0x1_0000 % 0x100) as byte, (u / 0x100 % 0x100) as byte, (u % 0x100) as byte]
  }

  /** Splitting a 32-bit unsigned value into octets and joining them back gives it again. */
  lemma UnsignedDigits(u: int)
    requires 0 <= u < TWO_POW_32
    ensures u / 0x100_0000 < 0x100
    ensures u == (u / 0x100_0000) * 0x100_0000 + (u / 0x1_0000 % 0x100) * 0x1_0000
               + (u / 0x100 % 0x100) * 0x100 + u % 0x100
  {
    var q1 := u / 0x100;
    var q2 := q1 / 0x100;
    var q3 := q2 / 0x100;
    assert u == q1 * 0x100 + u % 0x100;
    assert q1 == q2 * 0x100 + q1 % 0x100;
    assert q2 == q3 * 0x100 + q2 % 0x100;
    assert u / 0x1_0000 == q2;
    assert u / 0x100_0000 == q3;
  }

  /** Decoding what `writeInt` wrote yields the written value. */
  lemma {:induction false} FromToBigEndian(v: int32)
    ensures FromBigEndian(ToBigEndian(v)) == v
  {
    var u := if v < 0 then v as int + TWO_POW_32 else v as int;
    UnsignedDigits(u);
    var b := ToBigEndian(v);
    assert Unsigned32(b) == u;
  }

  /** The octets of a 32-bit unsigned value, peeled off by division, are the
      digits it was built from. */
  lemma SplitDigits(b0: int, b1: int, b2: int, b3: int)
    requires 0 <= b0 < 0x100 && 0 <= b1 < 0x100 && 0 <= b2 < 0x100 && 0 <= b3 < 0x100
    ensures var u := b0 * 0x100_0000 + b1 * 0x1_0000 + b2 * 0x100 + b3;
            u / 0x100_0000 == b0 && u / 0x1_0000 % 0x100 == b1 && u / 0x100 % 0x100 == b2 && u % 0x100 == b3
  {
    var u := b0 * 0x100_0000 + b1 * 0x1_0000 + b2 * 0x100 + b3;
    assert u / 0x100_0000 == b0;
    assert u / 0x1_0000 == b0 * 0x100 + b1;
    assert (b0 * 0x100 + b1) % 0x100 == b1;
    assert u / 0x100 == b0 * 0x1_0000 + b1 * 0x100 + b2;
    assert (b0 * 0x1_0000 + b1 * 0x100 + b2) % 0x100 == b2;
    assert u % 0x100 == b3;
  }

  /** Every four octets are the `writeInt` encoding of what `readInt` makes of them. */
  lemma {:induction false} ToFromBigEndian(b: seq<byte>)
    requires |b| == 4
    ensures ToBigEndian(FromBigEndian(b)) == b
  {
    var v := FromBigEndian(b);
    assert (if v < 0 then v as int + TWO_POW_32 else v as int) == Unsigned32(b);
    SplitDigits(b[0] as int, b[1] as int, b[2] as int, b[3] as int);
    var e := ToBigEndian(v);
    assert e[0] == b[0] && e[1] == b[1] && e[2] == b[2] && e[3] == b[3];
  }

  /** Why a read failed. `EOFException` is an `IOException`; every catch in the
      car's code treats the two alike apart from the message it logs. */
  datatype IOException = EOFException | StreamClosed

  datatype Result<T> = Ok(value: T) | Err(error: IOException)

  /** A `DataInputStream` over what the peer has sent: `bytes` is everything
      that will ever arrive before the peer closes, `pos` the read cursor. */
  datatype DataInputStream = DataInputStream(bytes: seq<byte>, pos: nat, closed: bool)

  /** The outcome of one read and the stream after it. */
  datatype Read<T> = Read(result: Result<T>, rest: DataInputStream)

  /** `DataInputStream.close()` when it succeeds. */
  function Close(s: DataInputStream): DataInputStream
  {
    s.(closed := true)
  }

  /** `DataInput.readByte`: one octet, or EOF when the peer has sent no more. */
  function ReadByte(s: DataInputStream): (r: Read<int8>)
    ensures r.result.Ok? <==> !s.closed && s.pos < |s.bytes|
    ensures r.result.Ok? ==> r.rest == s.(pos := s.pos + 1) && UnsignedByte(r.result.value) == s.bytes[s.pos]
    ensures r.result.Err? ==> r.rest == s
    ensures r.result == Err(EOFException) <==> !s.closed && s.pos >= |s.bytes|
  {
    if s.closed then Read(Err(StreamClosed), s)
    else if s.pos < |s.bytes| then Read(Ok(SignedByte(s.bytes[s.pos])), s.(pos := s.pos + 1))
    else Read(Err(EOFException), s)
  }

  /** `DataInput.readInt`: four octets. When fewer are left it still consumes
      what is there before it throws `EOFException`. */
  function ReadInt(s: DataInputStream): (r: Read<int32>)
    ensures r.result.Ok? <==> !s.closed && s.pos + 4 <= |s.bytes|
    ensures r.result.Ok? ==> r.rest == s.(pos := s.pos + 4) && ToBigEndian(r.result.value) == s.bytes[s.pos..s.pos + 4]
    ensures r.result == Err(EOFException) <==> !s.closed && s.pos + 4 > |s.bytes|
    ensures r.result.Err? ==> r.rest.bytes == s.bytes && r.rest.closed == s.closed && r.rest.pos >= s.pos
    ensures r.result == Err(EOFException) ==> r.rest.pos == if s.pos < |s.bytes| then |s.bytes| else s.pos
    ensures r.result == Err(StreamClosed) ==> r.rest == s
  {
    if s.closed then Read(Err(StreamClosed), s)
    else if s.pos + 4 <= |s.bytes| then
      ToFromBigEndian(s.bytes[s.pos..s.pos + 4]);
      Read(Ok(FromBigEndian(s.bytes[s.pos..s.pos + 4])), s.(pos := s.pos + 4))
    else if s.pos < |s.bytes| then Read(Err(EOFException), s.(pos := |s.bytes|))
    else Read(Err(EOFException), s)
  }
}
