/**
 The h3mux control-stream handshake: length-prefixed frames and the two routines that
 exchange one message each way. JSON is taken as an abstract codec.
 */
module HandshakeFraming {
  import opened Common

  const MAX_MESSAGE := 4096

  datatype Message = Message(identity: string, rejectInbound: bool)

  datatype Error = ShortHeader | TooLarge | ShortBody | Encoding | WriteFailed

  datatype Result<T> = Ok(value: T) | Err(err: Error)

  /** json.Marshal and json.Unmarshal; None is their error. */
  datatype Codec = Codec(encode: Message -> Option<Bytes>, decode: Bytes -> Option<Message>)

  function PutUint32(n: nat): Bytes
    requires n < 0x1_0000_0000
  {
    [n / 0x100_0000, n / 0x1_0000 % 0x100, n / 0x100 % 0x100, n % 0x100]
  }

  function Uint32(b: Bytes): nat
    requires |b| == 4
  {
    (b[0] as int) * 0x100_0000 + (b[1] as int) * 0x1_0000 + (b[2] as int) * 0x100 + b[3]
  }

  function Frame(body: Bytes): Bytes
    requires |body| <= MAX_MESSAGE
  {
    PutUint32(|body|) + body
  }

  /** The body of the first frame of b and what follows it. */
  function ReadFrame(b: Bytes): Result<(Bytes, Bytes)>
  {
    if |b| < 4 then Err(ShortHeader) else
    var size := Uint32(b[..4]);
    if size > MAX_MESSAGE then Err(TooLarge)
    else if |b| - 4 < size then Err(ShortBody)
    else Ok((b[4..4 + size], b[4 + size..]))
  }

  lemma DivMod(q: nat, r: nat, k: nat)
    requires r < k && k in {0x100, 0x1_0000, 0x100_0000}
    ensures (q * k + r) / k == q && (q * k + r) % k == r
  {
    if k == 0x100 { } else if k == 0x1_0000 { } else { assert k == 0x100_0000; }
  }

  lemma Uint32RoundTrip(n: nat)
    requires n < 0x1_0000_0000
    ensures Uint32(PutUint32(n)) == n
  {
    var n1 := n / 0x100;
    var n2 := n1 / 0x100;
    assert n / 0x1_0000 == n2 && n / 0x100_0000 == n2 / 0x100;
  }

  lemma PutUint32Unique(b: Bytes)
    requires |b| == 4
    ensures Uint32(b) < 0x1_0000_0000 && PutUint32(Uint32(b)) == b
  {
    var b0: int, b1: int, b2: int, b3: int := b[0], b[1], b[2], b[3];
    var n := Uint32(b);
    DivMod((b0 * 0x100 + b1) * 0x100 + b2, b3, 0x100);
    DivMod(b0 * 0x100 + b1, b2 * 0x100 + b3, 0x1_0000);
    DivMod(b0, (b1 * 0x100 + b2) * 0x100 + b3, 0x100_0000);
    DivMod(b0 * 0x100 + b1, b2, 0x100);
    DivMod(b0, b1, 0x100);
  }

  /** Reading is the exact inverse of framing: a read succeeds with body and rest if and
      only if the input is that body's frame followed by that rest. */
  lemma FramingIsExact(b: Bytes, body: Bytes, rest: Bytes)
    ensures ReadFrame(b) == Ok((body, rest)) <==> |body| <= 4096 && b == Frame(body) + rest
  {
    if |body| <= MAX_MESSAGE && b == Frame(body) + rest {
      assert b[..4] == PutUint32(|body|);
      Uint32RoundTrip(|body|);
      assert b[4..4 + |body|] == body && b[4 + |body|..] == rest;
    }
    if ReadFrame(b) == Ok((body, rest)) {
      PutUint32Unique(b[..4]);
      assert b == b[..4] + body + rest;
    }
  }

  /** A frame that is cut short or announces too much is refused, with the error that says so. */
  lemma BadFramesAreRefused(body: Bytes, k: nat, size: nat, rest: Bytes)
    requires |body| <= 4096 && 4096 < size < 0x1_0000_0000
    ensures k < |Frame(body)| ==> ReadFrame(Frame(body)[..k]) == Err(if k < 4 then ShortHeader else ShortBody)
    ensures ReadFrame(PutUint32(size) + rest) == Err(TooLarge)
  {
    Uint32RoundTrip(|body|);
    Uint32RoundTrip(size);
    assert (PutUint32(size) + rest)[..4] == PutUint32(size);
    if 4 <= k < |Frame(body)| { assert Frame(body)[..k][..4] == PutUint32(|body|); }
  }

  function Frames(bodies: seq<Bytes>): Bytes
    requires forall i :: 0 <= i < |bodies| ==> |bodies[i]| <= MAX_MESSAGE
  {
    if bodies == [] then [] else Frame(bodies[0]) + Frames(bodies[1..])
  }

  /** n reads in a row: the bodies and the bytes left over. */
  function ReadFrames(b: Bytes, n: nat): Result<(seq<Bytes>, Bytes)>
  {
    if n == 0 then Ok(([], b)) else
    match ReadFrame(b)
    case Err(e) => Err(e)
    case Ok((body, rest)) =>
      match ReadFrames(rest, n - 1)
      case Err(e) => Err(e)
      case Ok((bodies, tail)) => Ok(([body] + bodies, tail))
  }

  /** Repeated reads return exactly the bodies that were framed and consume nothing more. */
  lemma {:induction false} ReadFramesInverts(bodies: seq<Bytes>, tail: Bytes)
    requires forall i :: 0 <= i < |bodies| ==> |bodies[i]| <= MAX_MESSAGE
    ensures ReadFrames(Frames(bodies) + tail, |bodies|) == Ok((bodies, tail))
  {
    if bodies == [] {
      assert [] + tail == tail;
    } else {
      var rest := Frames(bodies[1..]) + tail;
      assert Frames(bodies) + tail == Frame(bodies[0]) + rest;
      FramingIsExact(Frames(bodies) + tail, bodies[0], rest);
      ReadFramesInverts(bodies[1..], tail);
      assert [bodies[0]] + bodies[1..] == bodies;
    }
  }

  /** What reading a message from this input yields. */
  function Received(codec: Codec, input: Bytes): Result<Message>
  {
    match ReadFrame(input)
    case Err(e) => Err(e)
    case Ok((body, _)) => match codec.decode(body) case None => Err(Encoding) case Some(m) => Ok(m)
  }

  /** What sending the message yields when the write numbered failAt fails. */
  function Sent(codec: Codec, msg: Message, failAt: int): Result<()>
  {
    match codec.encode(msg)
    case None => Err(Encoding)
    case Some(data) =>
      if |data| > 4096 then Err(TooLarge) else if failAt == 0 || failAt == 1 then Err(WriteFailed) else Ok(())
  }

  /** One end of the control stream: the bytes that have arrived and the bytes it sent.
      failAt is the write that will fail, counted from now; negative for none. */
  class Endpoint {
    var input: Bytes
    var output: Bytes
    var failAt: int

    constructor (input: Bytes)
      ensures this.input == input && output == [] && failAt < 0
    {
      this.input, output, failAt := input, [], -1;
    }

    method Send(b: Bytes) returns (ok: bool)
      modifies this
      ensures input == old(input) && failAt == old(failAt) - 1
      ensures ok == (old(failAt) != 0) && output == old(output) + (if ok then b else [])
    {
      ok := failAt != 0;
      if ok {
        output := output + b;
      }
      failAt := failAt - 1;
    }

    method WriteHandshake(codec: Codec, msg: Message) returns (r: Result<()>)
      modifies this
      ensures input == old(input)
      ensures r == Sent(codec, msg, old(failAt))
      ensures r.Ok? ==> output == old(output) + Frame(codec.encode(msg).value)
      ensures !Sends(codec, msg) || old(failAt) == 0 ==> output == old(output)
      ensures Sends(codec, msg) && old(failAt) == 1 ==> output == old(output) + PutUint32(|codec.encode(msg).value|)
    {
      var data := codec.encode(msg);
      if data.None? {
        return Err(Encoding);
      }
      if |data.value| > MAX_MESSAGE {
        return Err(TooLarge);
      }
      var ok := Send(PutUint32(|data.value|));
      if !ok {
        return Err(WriteFailed);
      }
      ok := Send(data.value);
      if !ok {
        return Err(WriteFailed);
      }
      return Ok(());
    }

    method ReadHandshake(codec: Codec) returns (r: Result<Message>)
      modifies this`input
      ensures r == Received(codec, old(input))
      ensures match ReadFrame(old(input))
        case Ok((_, rest)) => input == rest
        case Err(TooLarge) => input == old(input)[4..]
        case Err(_) => input == []
    {
      if |input| < 4 {
        input := [];
        return Err(ShortHeader);
      }
      var size := Uint32(input[..4]);
      input := input[4..];
      if size > MAX_MESSAGE {
        return Err(TooLarge);
      }
      if |input| < size {
        input := [];
        return Err(ShortBody);
      }
      var body := input[..size];
      assert body == old(input)[4..4 + size] && input[size..] == old(input)[4 + size..];
      input := input[size..];
      var msg := codec.decode(body);
      if msg.None? {
        return Err(Encoding);
      }
      return Ok(msg.value);
    }

    /** Sends ClientHello, then receives ServerHello, which input is to hold. */
    method DoClientHandshake(codec: Codec, local: Message) returns (r: Result<Message>)
      modifies this
      ensures r == (match Sent(codec, local, old(failAt)) case Err(e) => Err(e) case Ok(_) => Received(codec, old(input)))
      ensures r.Ok? ==> input == ReadFrame(old(input)).value.1
      ensures r.Ok? ==> output == old(output) + Frame(codec.encode(local).value)
      ensures Sends(codec, local) && old(failAt) < 0 ==> output == old(output) + Frame(codec.encode(local).value)
      ensures !Sends(codec, local) ==> output == old(output)
    {
      var sent := WriteHandshake(codec, local);
      if sent.Err? {
        return Err(sent.err);
      }
      r := ReadHandshake(codec);
    }

    /** Receives ClientHello, then sends ServerHello. */
    method DoServerHandshake(codec: Codec, local: Message) returns (r: Result<Message>)
      modifies this
      ensures r == (match Received(codec, old(input))
                    case Err(e) => Err(e)
                    case Ok(hello) => match Sent(codec, local, old(failAt)) case Err(e) => Err(e) case Ok(_) => Ok(hello))
      ensures r.Ok? ==> input == ReadFrame(old(input)).value.1
      ensures r.Ok? ==> output == old(output) + Frame(codec.encode(local).value)
      ensures !Accepts(codec, old(input)) || !Sends(codec, local) ==> output == old(output)
    {
      var hello := ReadHandshake(codec);
      if hello.Err? {
        return hello;
      }
      var sent := WriteHandshake(codec, local);
      if sent.Err? {
        return Err(sent.err);
      }
      return hello;
    }
  }

  /** The input starts with a frame whose body decodes. */
  predicate Accepts(codec: Codec, input: Bytes)
  {
    ReadFrame(input).Ok? && codec.decode(ReadFrame(input).value.0).Some?
  }

  /** The message encodes within the size bound. */
  predicate Sends(codec: Codec, msg: Message)
  {
    codec.encode(msg).Some? && |codec.encode(msg).value| <= 4096
  }

  /** JSON gives the message back. */
  predicate RoundTrips(codec: Codec, msg: Message)
  {
    codec.encode(msg).Some? ==> codec.decode(codec.encode(msg).value) == Some(msg)
  }

  /** Client and server routines against each other on a transport that does not fail. What
      the server receives is what the client sends, followed by early stream data: the first
      lines work out what that will be, and the contract says that the client's own run sent
      just that. What the client receives is what the server sends. If both messages can be sent, each side ends
      up with the other's; if one cannot, the client fails, and so does the server if the
      message is its own. */
  method Exchange(codec: Codec, client: Message, server: Message, early: Bytes)
    returns (atServer: Result<Message>, atClient: Result<Message>, leftover: Bytes, received: Bytes, sent: Bytes)
    requires RoundTrips(codec, client) && RoundTrips(codec, server)
    ensures Sends(codec, client) && Sends(codec, server) ==>
              atServer == Ok(client) && atClient == Ok(server) && leftover == early
    ensures Sends(codec, client) && !Sends(codec, server) ==> atServer.Err? && atClient.Err?
    ensures !Sends(codec, client) ==> atClient.Err?
    ensures received == sent + early
  {
    var hello := new Endpoint([]);
    var ok := hello.WriteHandshake(codec, client);
    received := hello.output + early;
    var s := new Endpoint(received);
    if ok.Ok? {
      FramingIsExact(s.input, codec.encode(client).value, early);
    }
    atServer := s.DoServerHandshake(codec, server);
    leftover := s.input;
    var c := new Endpoint(s.output);
    if atServer.Ok? {
      FramingIsExact(c.input, codec.encode(server).value, []);
      assert s.output == Frame(codec.encode(server).value) + [];
    }
    atClient := c.DoClientHandshake(codec, client);
    sent := c.output;
  }
}
