/** The frames of the tunnel: one byte of operation, four of stream number in
    network order, and the payload. */
module TunnelWire {
  import opened Options

  type Byte = b: int | 0 <= b < 256
  type Bytes = seq<Byte>

  const HEADER: nat := 5

  datatype Op = Open | Head | Data | Text | Eof | Close

  function Code(op: Op): Byte {
    match op
    case Open => 1
    case Head => 2
    case Data => 3
    case Text => 4
    case Eof => 5
    case Close => 6
  }

  function Known(code: Byte): Option<Op> {
    match code
    case 1 => Some(Open)
    case 2 => Some(Head)
    case 3 => Some(Data)
    case 4 => Some(Text)
    case 5 => Some(Eof)
    case 6 => Some(Close)
    case _ => None
  }

  function Power(width: nat): nat {
    if width == 0 then 1 else 256 * Power(width - 1)
  }

  /** Big-endian, in exactly `width` bytes; numbers that do not fit are refused. */
  function ToBytes(n: nat, width: nat): (r: Option<Bytes>)
    ensures r.Some? ==> |r.value| == width
  {
    if width == 0 then if n == 0 then Some([]) else None
    else
      var rest := ToBytes(n / 256, width - 1);
      if rest.None? then None else Some(rest.value + [n % 256])
  }

  function FromBytes(b: Bytes): nat {
    if b == [] then 0 else 256 * FromBytes(b[..|b| - 1]) + b[|b| - 1]
  }

  lemma {:induction false} NumberThere(n: nat, width: nat)
    ensures ToBytes(n, width).Some? <==> n < Power(width)
    ensures ToBytes(n, width).Some? ==> FromBytes(ToBytes(n, width).value) == n
  {
    if width > 0 {
      NumberThere(n / 256, width - 1);
      var rest := ToBytes(n / 256, width - 1);
      if rest.Some? {
        assert (rest.value + [n % 256])[..width - 1] == rest.value;
      }
    }
  }

  lemma {:induction false} NumberBack(b: Bytes)
    ensures FromBytes(b) < Power(|b|) && ToBytes(FromBytes(b), |b|) == Some(b)
  {
    if b != [] {
      NumberBack(b[..|b| - 1]);
      assert b == b[..|b| - 1] + [b[|b| - 1]];
    }
  }

  function Frame(op: Op, stream: nat, payload: Bytes): Option<Bytes> {
    var number := ToBytes(stream, 4);
    if number.None? then None else Some([Code(op)] + number.value + payload)
  }

  datatype Parsed = Truncated | Message(op: Option<Op>, stream: nat, payload: Bytes)

  function Parse(data: Bytes): Parsed {
    if |data| < HEADER then Truncated
    else Message(Known(data[0]), FromBytes(data[1..HEADER]), data[HEADER..])
  }

  /** Every message whose stream number fits four bytes survives the wire, and
      only those can be framed at all. */
  lemma FrameParses(op: Op, stream: nat, payload: Bytes)
    ensures Frame(op, stream, payload).Some? <==> stream < 0x1_0000_0000
    ensures Frame(op, stream, payload).Some? ==>
              Parse(Frame(op, stream, payload).value) == Message(Some(op), stream, payload)
  {
    NumberThere(stream, 4);
    assert Power(4) == 0x1_0000_0000 by {
      assert Power(1) == 256 && Power(2) == 0x1_0000 && Power(3) == 0x100_0000;
    }
    var number := ToBytes(stream, 4);
    if number.Some? {
      var data := [Code(op)] + number.value + payload;
      assert data[1..HEADER] == number.value;
      assert data[HEADER..] == payload;
    }
  }

  /** Every frame that parses to a known operation is the frame of what it
      parses to; nothing but a short frame or an unknown first byte is lost. */
  lemma ParseFrames(data: Bytes)
    ensures Parse(data).Truncated? <==> |data| < 5
    ensures Parse(data).Message? ==>
              && (Parse(data).op.None? <==> !(1 <= data[0] <= 6))
              && (Parse(data).op.Some? ==>
                    Frame(Parse(data).op.value, Parse(data).stream, Parse(data).payload) == Some(data))
  {
    if |data| >= HEADER {
      NumberBack(data[1..HEADER]);
      assert data == [data[0]] + data[1..HEADER] + data[HEADER..];
    }
  }
}
