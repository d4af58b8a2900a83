/**
 rawChunkCodec: the hand-written codec of the stream data path. Marshal writes header and
 payload into one buffer; Unmarshal recognises the one shape peers produce and hands out
 the received buffers without copying, and leaves every other message to the protobuf
 decoder (Wire.DecodeChunk). Buffers are modelled by their contents.
 */
module ChunkCodec {
  import opened Common
  import opened Wire

  type Buffers = seq<Bytes>

  function Flatten(bs: Buffers): Bytes
  {
    if bs == [] then [] else bs[0] + Flatten(bs[1..])
  }

  /** The conversion int64(size) of a uint64. */
  function AsInt64(v: nat): int { if v <= INT64_MAX then v else v - UINT64 }

  /** Where the payload starts, if the zero-copy path applies. */
  function FastOffset(first: Bytes, total: nat): (off: Option<nat>)
    ensures off.Some? ==> off.value <= |first|
  {
    match ConsumeTag(first)
    case Bad(_) => None
    case Ok((num, typ), n) =>
      if num != 1 || typ != BYTES then None else
      match ConsumeVarint(first[n..])
      case Bad(_) => None
      case Ok(size, m) => if AsInt64(size) != total - (n + m) then None else Some(n + m)
  }

  /** The buffers Unmarshal leaves in rc.bufs, or Failure for an error. */
  function Unmarshalled(data: Buffers): Result<Buffers>
  {
    if |Flatten(data)| == 0 then Success([]) else
    match FastOffset(data[0], |Flatten(data)|)
    case Some(off) => Success((if off < |data[0]| then [data[0][off..]] else []) + data[1..])
    case None =>
      match DecodeChunk(Flatten(data), [])
      case Failure => Failure
      case Success(payload) => Success(if payload == [] then [] else [payload])
  }

  class RawChunk {
    var payload: Bytes
    var bufs: Buffers

    constructor (payload: Bytes)
      ensures this.payload == payload && bufs == []
    {
      this.payload := payload;
      bufs := [];
    }

    method Unmarshal(data: Buffers) returns (ok: bool)
      modifies this
      ensures payload == []
      ensures ok == Unmarshalled(data).Success?
      ensures bufs == if ok then Unmarshalled(data).value else []
    {
      payload, bufs := [], [];
      if |Flatten(data)| == 0 {
        return true;
      }
      var off := FastOffset(data[0], |Flatten(data)|);
      if off.None? {
        ok := UnmarshalSlow(data);
        return;
      }
      var out: Buffers := [];
      if off.value < |data[0]| {
        out := out + [data[0][off.value..]];
      }
      var head := out;
      for i := 1 to |data|
        invariant out == head + data[1..i]
      {
        out := out + [data[i]];
      }
      bufs := out;
      return true;
    }

    method UnmarshalSlow(data: Buffers) returns (ok: bool)
      modifies this`bufs
      ensures ok == DecodeChunk(Flatten(data), []).Success?
      ensures bufs == if ok && DecodeChunk(Flatten(data), []).value != [] then [DecodeChunk(Flatten(data), []).value] else old(bufs)
    {
      var msg := DecodeChunk(Flatten(data), []);
      if msg.Failure? {
        return false;
      }
      if |msg.value| > 0 {
        bufs := [msg.value];
      }
      return true;
    }

    /** Header and payload are copied into one buffer of exactly their size. */
    method Marshal() returns (out: Buffers)
      ensures Flatten(out) == EncodeChunk(payload)
      ensures |out| <= 1
    {
      if |payload| == 0 {
        return [];
      }
      var hdr := AppendVarint(8 * 1 + BYTES) + AppendVarint(|payload|);
      var buf := new Byte[|hdr| + |payload|];
      for i := 0 to |hdr|
        invariant buf[..i] == hdr[..i]
      {
        buf[i] := hdr[i];
      }
      for i := 0 to |payload|
        invariant buf[..|hdr| + i] == hdr + payload[..i]
      {
        buf[|hdr| + i] := payload[i];
      }
      out := [buf[..]];
      assert Flatten(out) == buf[..] + Flatten([]);
      assert buf[..] == hdr + payload;
    }
  }

  lemma {:induction false} FlattenAppend(a: Buffers, b: Buffers)
    ensures Flatten(a + b) == Flatten(a) + Flatten(b)
  {
    if a == [] {
      assert a + b == b;
    } else {
      assert (a + b)[0] == a[0] && (a + b)[1..] == a[1..] + b;
      FlattenAppend(a[1..], b);
    }
  }

  /** If the first buffer passes the fast-path tests, the full decoder reads the whole
      message as one data field that starts at the same offset. */
  lemma FastPathAgrees(first: Bytes, rest: Bytes, off: nat)
    requires FastOffset(first, |first + rest|) == Some(off)
    ensures DecodeChunk(first + rest, []) == Success(first[off..] + rest)
  {
    var b := first + rest;
    var n := ConsumeTag(first).n;
    VarintPrefix(first, rest, 0);
    assert ConsumeVarint(first).value == 8 * 1 + BYTES;
    var size, m := ConsumeVarint(first[n..]).value, ConsumeVarint(first[n..]).n;
    assert b[n..] == first[n..] + rest;
    VarintPrefix(first[n..], rest, 0);
    VarintIsUInt64(first[n..], 0);
    UInt64FitsVarint();
    SingleField(b, n, m, size);
    assert b[n + m..] == first[off..] + rest;
  }

  /** For every message and every split into buffers, Unmarshal yields exactly what the
      protobuf decoder yields on the whole message, errors included. */
  lemma UnmarshalAgrees(data: Buffers)
    ensures match DecodeChunk(Flatten(data), [])
            case Failure => Unmarshalled(data).Failure?
            case Success(payload) => Unmarshalled(data).Success? && Flatten(Unmarshalled(data).value) == payload
  {
    if |Flatten(data)| > 0 {
      var off := FastOffset(data[0], |Flatten(data)|);
      if off.Some? {
        FastPathAgrees(data[0], Flatten(data[1..]), off.value);
        var head := if off.value < |data[0]| then [data[0][off.value..]] else [];
        FlattenAppend(head, data[1..]);
        assert Flatten(head) == data[0][off.value..];
      } else {
        var r := DecodeChunk(Flatten(data), []);
        if r.Success? && r.value != [] {
          assert Flatten([r.value]) == r.value + Flatten([]);
        }
      }
    }
  }

  lemma HeaderFirst(first: Bytes, more: Bytes, a: Bytes, b: Bytes, c: Bytes)
    requires first + more == a + b + c && |a| + |b| <= |first|
    ensures first == a + (b + first[|a| + |b|..])
  {
    var all := a + b + c;
    assert first == all[..|first|];
    assert all[..|a|] == a && all[|a|..|a| + |b|] == b;
    assert first[..|a|] == a;
    assert first[|a|..|a| + |b|] == b;
  }

  /** The zero-copy path is really taken: if the header of an encoded chunk lies in the first
      buffer, the buffers handed out are the received ones with that header cut off. */
  lemma ZeroCopyTaken(payload: Bytes, data: Buffers)
    requires 0 < |payload| <= 0x7fff_ffff_ffff_ffff && Flatten(data) == EncodeChunk(payload) && data != []
    requires |AppendVarint(8 * 1 + BYTES)| + |AppendVarint(|payload|)| <= |data[0]|
    ensures var off := |AppendVarint(8 * 1 + BYTES)| + |AppendVarint(|payload|)|;
      Unmarshalled(data) == Success((if off < |data[0]| then [data[0][off..]] else []) + data[1..])
  {
    hide AppendVarint, FastOffset, DecodeChunk;
    var tag, len, first := AppendVarint(8 * 1 + BYTES), AppendVarint(|payload|), data[0];
    HeaderFirst(first, Flatten(data[1..]), tag, len, payload);
    HeaderIsFast(first, first[|tag| + |len|..], |payload|);
  }

  lemma HeaderIsFast(first: Bytes, rest: Bytes, size: nat)
    requires size <= 0x7fff_ffff_ffff_ffff && first == AppendVarint(8 * 1 + BYTES) + (AppendVarint(size) + rest)
    ensures var off := |AppendVarint(8 * 1 + BYTES)| + |AppendVarint(size)|; FastOffset(first, off + size) == Some(off)
  {
    hide AppendVarint, VarintFrom;
    var tag, len := AppendVarint(8 * 1 + BYTES), AppendVarint(size);
    UInt64FitsVarint();
    VarintRoundTrip(8 * 1 + BYTES, len + rest, 0);
    assert first[|tag|..] == len + rest;
    VarintRoundTrip(size, rest, 0);
  }

  /** A message of any valid fields, split in any way, arrives as its last data field: unknown
      fields are skipped, and only groups nested too deep make it fail. */
  lemma UnknownFieldsAreSkipped(fs: seq<Field>, data: Buffers)
    requires ValidFields(fs) && Flatten(data) == EncodeFields(fs)
    ensures if Deepest(fs) <= 10001
            then Unmarshalled(data).Success? && Flatten(Unmarshalled(data).value) == LastData(fs, [])
            else Unmarshalled(data).Failure?
  {
    DecodesToLastData(fs, []);
    UnmarshalAgrees(data);
  }

  /** The payload does not depend on how the transport splits the message. */
  lemma SplitIndependent(a: Buffers, b: Buffers)
    requires Flatten(a) == Flatten(b)
    ensures Unmarshalled(a).Success? <==> Unmarshalled(b).Success?
    ensures Unmarshalled(a).Success? ==> Flatten(Unmarshalled(a).value) == Flatten(Unmarshalled(b).value)
  {
    UnmarshalAgrees(a);
    UnmarshalAgrees(b);
  }

  /** Whatever the split, an encoded chunk arrives as its payload. */
  lemma AnySplitRoundTrips(payload: Bytes, data: Buffers)
    requires |payload| <= 0x7fff_ffff_ffff_ffff && Flatten(data) == EncodeChunk(payload)
    ensures Unmarshalled(data).Success? && Flatten(Unmarshalled(data).value) == payload
  {
    ChunkRoundTrip(payload);
    UnmarshalAgrees(data);
  }
}
