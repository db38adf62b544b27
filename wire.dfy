/**
 * The SSH wire encodings the global-request code uses (section 5 of RFC 4251): `uint32` as four
 * big-endian bytes and `string` as a uint32 length followed by the bytes; and marshalBytes,
 * which concatenates string encodings.
 */
module Wire {
  import opened Base

  /** A decoded value and the bytes that follow it. */
  datatype Parsed<T> = Parsed(value: T, rest: seq<byte>)

  /** uint32 in network byte order, as ssh.Marshal writes it. */
  function Uint32Bytes(n: uint32): (b: seq<byte>)
    ensures |b| == 4
  {
    var q1 := n / 0x100;
    var q2 := q1 / 0x100;
    var q3 := q2 / 0x100;
    [q3, q2 % 0x100, q1 % 0x100, n % 0x100]
  }

  /** The uint32 stored big-endian in the first four bytes of `b`. */
  function ReadUint32(b: seq<byte>): uint32
    requires |b| >= 4
  {
    ((b[0] as int * 0x100 + b[1] as int) * 0x100 + b[2] as int) * 0x100 + b[3] as int
  }

  lemma Uint32RoundTrip(n: uint32)
    ensures ReadUint32(Uint32Bytes(n)) == n
  {
    var q1 := n / 0x100;
    var q2 := q1 / 0x100;
    var q3 := q2 / 0x100;
    assert q3 * 0x100 + q2 % 0x100 == q2;
    assert q2 * 0x100 + q1 % 0x100 == q1;
    assert q1 * 0x100 + n % 0x100 == n;
  }

  /** Four bytes are determined by the uint32 they encode. */
  lemma Uint32Determined(b: seq<byte>)
    requires |b| >= 4
    ensures Uint32Bytes(ReadUint32(b)) == b[..4]
  {
    var x2 := b[0] as int * 0x100 + b[1] as int;
    var x1 := x2 * 0x100 + b[2] as int;
    var n := x1 * 0x100 + b[3] as int;
    assert n / 0x100 == x1 && n % 0x100 == b[3];
    assert x1 / 0x100 == x2 && x1 % 0x100 == b[2];
    assert x2 / 0x100 == b[0] && x2 % 0x100 == b[1];
  }

  /** The SSH `string` encoding of `b`. Go writes the length as uint32(len(b)), so it wraps at 2^32. */
  function MarshalString(b: seq<byte>): (r: seq<byte>)
    ensures |r| == 4 + |b|
  {
    Uint32Bytes(|b| % TWO_32) + b
  }

  /** Reading a uint32 (ssh.Unmarshal of a uint32 field). */
  function ParseUint32(data: seq<byte>): (r: Option<Parsed<uint32>>)
    ensures r.Some? <==> |data| >= 4
    ensures r.Some? ==> data == Uint32Bytes(r.value.value) + r.value.rest
  {
    if |data| < 4 then None
    else
      Uint32Determined(data);
      assert data == data[..4] + data[4..];
      Some(Parsed(ReadUint32(data), data[4..]))
  }

  /** Reading a string (ssh.Unmarshal of a string field): fails when the length prefix or the
      announced bytes are missing. */
  function ParseString(data: seq<byte>): (r: Option<Parsed<seq<byte>>>)
    ensures r.Some? <==> |data| >= 4 && ReadUint32(data) <= |data| - 4
    ensures r.Some? ==> data == MarshalString(r.value.value) + r.value.rest
    ensures r.Some? ==> |r.value.rest| < |data|
  {
    if |data| < 4 then None
    else
      var n := ReadUint32(data);
      if |data| - 4 < n then None
      else
        Uint32Determined(data);
        assert data == data[..4] + data[4..4 + n] + data[4 + n..];
        Some(Parsed(data[4..4 + n], data[4 + n..]))
  }

  /** A string encoding is read back whole, whatever follows it. */
  lemma ParseMarshalString(b: seq<byte>, rest: seq<byte>)
    requires |b| < TWO_32
    ensures ParseString(MarshalString(b) + rest) == Some(Parsed(b, rest))
  {
    var data := MarshalString(b) + rest;
    Uint32RoundTrip(|b|);
    assert data[..4] == Uint32Bytes(|b|);
    assert ReadUint32(data) == ReadUint32(data[..4]);
    assert data[4..4 + |b|] == b && data[4 + |b|..] == rest;
  }

  lemma ParseMarshalUint32(n: uint32, rest: seq<byte>)
    ensures ParseUint32(Uint32Bytes(n) + rest) == Some(Parsed(n, rest))
  {
    var data := Uint32Bytes(n) + rest;
    Uint32RoundTrip(n);
    assert ReadUint32(data) == ReadUint32(data[..4]) && data[..4] == Uint32Bytes(n);
    assert data[4..] == rest;
  }

  // ---------------------------------------------------------------- marshalBytes

  /** What marshalBytes returns: the string encodings of the elements, in order. */
  function Marshaled(data: seq<seq<byte>>): (r: seq<byte>)
    ensures |r| == EncodedLength(data)
  {
    if data == [] then [] else MarshalString(data[0]) + Marshaled(data[1..])
  }

  /** Σ (4 + len(b)) over the elements. */
  function EncodedLength(data: seq<seq<byte>>): nat
  {
    if data == [] then 0 else 4 + |data[0]| + EncodedLength(data[1..])
  }

  /** Reads string encodings until the bytes run out; None if any of them is malformed. */
  function ParseStrings(data: seq<byte>): Option<seq<seq<byte>>>
    decreases |data|
  {
    if data == [] then Some([])
    else
      match ParseString(data)
      case None => None
      case Some(p) =>
        match ParseStrings(p.rest)
        case None => None
        case Some(tail) => Some([p.value] + tail)
  }

  lemma {:induction false} MarshaledSnoc(data: seq<seq<byte>>, b: seq<byte>)
    ensures Marshaled(data + [b]) == Marshaled(data) + MarshalString(b)
    decreases |data|
  {
    if data == [] {
      assert [] + [b] == [b];
    } else {
      assert (data + [b])[1..] == data[1..] + [b];
      MarshaledSnoc(data[1..], b);
    }
  }

  /** Decoding the output of marshalBytes recovers the list, for elements shorter than 2^32 bytes. */
  lemma {:induction false} MarshaledRoundTrip(data: seq<seq<byte>>)
    requires forall i :: 0 <= i < |data| ==> |data[i]| < TWO_32
    ensures ParseStrings(Marshaled(data)) == Some(data)
    decreases |data|
  {
    if data != [] {
      var enc := Marshaled(data);
      ParseMarshalString(data[0], Marshaled(data[1..]));
      MarshaledRoundTrip(data[1..]);
      assert [data[0]] + data[1..] == data;
    }
  }

  /** marshalBytes. */
  method MarshalBytes(data: seq<seq<byte>>) returns (result: seq<byte>)
    ensures result == Marshaled(data)
  {
    result := [];
    for i := 0 to |data|
      invariant result == Marshaled(data[..i])
    {
      assert data[..i + 1] == data[..i] + [data[i]];
      MarshaledSnoc(data[..i], data[i]);
      result := result + MarshalString(data[i]);
    }
    assert data[..|data|] == data;
  }
}
