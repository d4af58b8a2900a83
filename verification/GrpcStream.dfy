/**
 grpcStream.Read and Write without deadlines, on top of the chunk codec, and the byte
 stream they make up end to end.
 */
module GrpcStream {
  import opened Common
  import opened Wire
  import opened ChunkCodec

  /** What the transport has for the receiver next: a message, split in some way, or an error. */
  datatype Incoming = Message(bufs: Buffers) | Broken(err: int)

  /** Blocked stands for a Read that is still waiting in RecvMsg. */
  datatype Outcome = Data(bytes: Bytes) | Error(err: int) | Malformed | Blocked

  datatype ReadState = ReadState(outcome: Outcome, bufs: Buffers, inbox: seq<Incoming>)

  function Min(a: int, b: int): int { if a < b then a else b }

  /** What Read of a buffer of the given size does to the unread buffers and the inbox. */
  function Reading(bufs: Buffers, inbox: seq<Incoming>, size: nat): ReadState
    decreases |inbox|, |bufs|
  {
    if bufs != [] then
      if |bufs[0]| > 0 then
        var n := Min(size, |bufs[0]|);
        ReadState(Data(bufs[0][..n]), if n == |bufs[0]| then bufs[1..] else [bufs[0][n..]] + bufs[1..], inbox)
      else
        Reading(bufs[1..], inbox, size)
    else if inbox == [] then ReadState(Blocked, [], [])
    else match inbox[0]
      case Broken(e) => ReadState(Error(e), [], inbox[1..])
      case Message(data) =>
        match Unmarshalled(data)
        case Failure => ReadState(Malformed, [], inbox[1..])
        case Success(got) => Reading(got, inbox[1..], size)
  }

  /** Copy as much of buf as fits into dst. */
  method ReadUnsafe(dst: array<Byte>, buf: Bytes) returns (n: nat)
    modifies dst
    ensures n == Min(dst.Length, |buf|)
    ensures dst[..] == buf[..n] + old(dst[..])[n..]
  {
    n := Min(dst.Length, |buf|);
    for i := 0 to n
      invariant dst[..i] == buf[..i] && dst[i..] == old(dst[..])[i..]
    {
      dst[i] := buf[i];
    }
    assert dst[..] == dst[..n] + dst[n..];
  }

  class Stream {
    var readBufs: Buffers
    var inbox: seq<Incoming>
    var outbox: seq<Buffers>   // messages handed to the transport, in order

    constructor ()
      ensures readBufs == [] && inbox == [] && outbox == []
    {
      readBufs, inbox, outbox := [], [], [];
    }

    method Read(b: array<Byte>) returns (r: Outcome)
      modifies this`readBufs, this`inbox, b
      ensures ReadState(r, readBufs, inbox) == Reading(old(readBufs), old(inbox), b.Length)
      ensures r.Data? ==> |r.bytes| <= b.Length && b[..] == r.bytes + old(b[..])[|r.bytes|..]
      ensures !r.Data? ==> b[..] == old(b[..])
    {
      while true
        invariant Reading(readBufs, inbox, b.Length) == Reading(old(readBufs), old(inbox), b.Length)
        invariant unchanged(b)
        decreases |inbox|
      {
        while |readBufs| > 0
          invariant Reading(readBufs, inbox, b.Length) == Reading(old(readBufs), old(inbox), b.Length)
          modifies this`readBufs
          decreases |readBufs|
        {
          var buf := readBufs[0];
          if |buf| > 0 {
            break;
          }
          readBufs := readBufs[1..];
        }
        if |readBufs| > 0 {
          var n := ReadUnsafe(b, readBufs[0]);
          r := Data(readBufs[0][..n]);
          if n == |readBufs[0]| {
            readBufs := readBufs[1..];
          } else {
            readBufs := [readBufs[0][n..]] + readBufs[1..];
          }
          return;
        }
        if inbox == [] {
          return Blocked;
        }
        var next := inbox[0];
        inbox := inbox[1..];
        if next.Broken? {
          return Error(next.err);
        }
        var chunk := new RawChunk([]);
        var ok := chunk.Unmarshal(next.bufs);
        if !ok {
          return Malformed;
        }
        readBufs := chunk.bufs;
      }
    }

    /** sendOk is the verdict of SendMsg. */
    method Write(b: Bytes, sendOk: bool) returns (n: nat, err: bool)
      modifies this`outbox
      ensures err <==> b != [] && !sendOk
      ensures n == if err then 0 else |b|
      ensures if err || b == [] then outbox == old(outbox)
              else |outbox| == |old(outbox)| + 1 && outbox[..|old(outbox)|] == old(outbox)
                   && Flatten(outbox[|old(outbox)|]) == EncodeChunk(b)
    {
      if |b| == 0 {
        return 0, false;
      }
      if !sendOk {
        return 0, true;
      }
      var chunk := new RawChunk(b);
      var msg := chunk.Marshal();
      outbox := outbox + [msg];
      return |b|, false;
    }
  }

  // ------------------------------------------------------------- one direction

  /** One direction of a stream: what was written, the encoded messages on the wire, the
      receiver's inbox and unread buffers, what its Reads have returned, and whether the
      receiving side has ended. */
  datatype Pipe = Pipe(written: Bytes, wire: seq<Bytes>, inbox: seq<Incoming>, bufs: Buffers, read: Bytes, ended: bool)

  /** The bytes a Read returned. */
  function Got(r: ReadState): Bytes { if r.outcome.Data? then r.outcome.bytes else [] }

  datatype Event =
    | Write(b: Bytes)
    | Deliver(split: Buffers)   // the oldest message on the wire arrives, split in some way
    | Break(err: int)           // RecvMsg is to return an error: io.EOF or a failure; again and again if need be
    | Read(size: nat)

  predicate Enabled(p: Pipe, e: Event)
  {
    match e
    case Write(b) => |b| <= INT64_MAX
    case Deliver(split) => !p.ended && p.wire != [] && Flatten(split) == p.wire[0]
    case Break(_) => true
    case Read(_) => true
  }

  function Next(p: Pipe, e: Event): Pipe
    requires Enabled(p, e)
  {
    match e
    case Write(b) => if b == [] then p else p.(written := p.written + b, wire := p.wire + [EncodeChunk(b)])
    case Deliver(split) => p.(wire := p.wire[1..], inbox := p.inbox + [Message(split)])
    case Break(err) => p.(inbox := p.inbox + [Broken(err)], ended := true)
    case Read(size) =>
      var r := Reading(p.bufs, p.inbox, size);
      p.(bufs := r.bufs, inbox := r.inbox, read := p.read + Got(r))
  }

  function Run(es: seq<Event>): Option<Pipe>
  {
    if es == [] then Some(Pipe([], [], [], [], [], false)) else
    match Run(es[..|es| - 1])
    case None => None
    case Some(p) => if Enabled(p, es[|es| - 1]) then Some(Next(p, es[|es| - 1])) else None
  }

  /** The payload of a well-formed message. */
  function Payload(b: Bytes): Bytes
  {
    match DecodeChunk(b, []) case Success(d) => d case Failure => []
  }

  function WirePayloads(ms: seq<Bytes>): Bytes
  {
    if ms == [] then [] else Payload(ms[0]) + WirePayloads(ms[1..])
  }

  function Unsplit(inbox: seq<Incoming>): seq<Bytes>
  {
    if inbox == [] then [] else
    [Whole(inbox[0])] + Unsplit(inbox[1..])
  }

  /** The bytes that have arrived and are still to be read. */
  function Unread(bufs: Buffers, inbox: seq<Incoming>): Bytes { Flatten(bufs) + WirePayloads(Unsplit(inbox)) }

  predicate WellFormed(ms: seq<Bytes>) { forall i :: 0 <= i < |ms| ==> DecodeChunk(ms[i], []).Success? }

  predicate AllMessages(inbox: seq<Incoming>) { forall i :: 0 <= i < |inbox| ==> inbox[i].Message? }

  /** Nothing arrives after an error. */
  predicate Orderly(inbox: seq<Incoming>)
  {
    forall i, j :: 0 <= i < j < |inbox| && inbox[i].Broken? ==> inbox[j].Broken?
  }

  /** Everything written is read, buffered, in the inbox or on the wire, in that order. */
  ghost predicate Inv(p: Pipe)
  {
    && Orderly(p.inbox) && (!p.ended ==> AllMessages(p.inbox)) && WellFormed(Unsplit(p.inbox)) && WellFormed(p.wire)
    && p.written == p.read + Unread(p.bufs, p.inbox) + WirePayloads(p.wire)
  }

  lemma {:induction false} PayloadsAppend(a: seq<Bytes>, m: Bytes)
    ensures WirePayloads(a + [m]) == WirePayloads(a) + Payload(m)
  {
    if a == [] {
      assert a + [m] == [m] && WirePayloads([m]) == Payload(m) + WirePayloads([]);
    } else {
      assert (a + [m])[0] == a[0] && (a + [m])[1..] == a[1..] + [m];
      PayloadsAppend(a[1..], m);
    }
  }

  /** The whole of what arrived; an error carries nothing. */
  function Whole(m: Incoming): Bytes { match m case Message(bufs) => Flatten(bufs) case Broken(_) => [] }

  lemma {:induction false} UnsplitAppend(a: seq<Incoming>, m: Incoming)
    ensures Unsplit(a + [m]) == Unsplit(a) + [Whole(m)]
    ensures |Unsplit(a)| == |a|
  {
    if a == [] {
      assert a + [m] == [m] && Unsplit([m]) == [Whole(m)] + Unsplit([]);
    } else {
      assert (a + [m])[0] == a[0] && (a + [m])[1..] == a[1..] + [m];
      UnsplitAppend(a[1..], m);
    }
  }

  /** Taking n bytes off the first buffer takes them off the front. */
  lemma TakeFirst(bufs: Buffers, inbox: seq<Incoming>, n: nat)
    requires bufs != [] && n <= |bufs[0]|
    ensures Unread(bufs, inbox) == bufs[0][..n] + Unread([bufs[0][n..]] + bufs[1..], inbox)
    ensures n == |bufs[0]| ==> Unread(bufs, inbox) == bufs[0][..n] + Unread(bufs[1..], inbox)
  {
    var rest := [bufs[0][n..]] + bufs[1..];
    assert rest[1..] == bufs[1..];
    assert Flatten(rest) == bufs[0][n..] + Flatten(bufs[1..]);
    assert bufs[0] == bufs[0][..n] + bufs[0][n..];
  }

  /** Receiving a well-formed message turns its payload into buffers. */
  lemma ReceiveFirst(inbox: seq<Incoming>)
    requires inbox != [] && inbox[0].Message? && Orderly(inbox) && WellFormed(Unsplit(inbox))
    ensures Unmarshalled(inbox[0].bufs).Success?
    ensures Orderly(inbox[1..]) && WellFormed(Unsplit(inbox[1..]))
    ensures Unread([], inbox) == Unread(Unmarshalled(inbox[0].bufs).value, inbox[1..])
  {
    var ms := Unsplit(inbox);
    UnmarshalAgrees(inbox[0].bufs);
    assert ms[0] == Flatten(inbox[0].bufs) && ms[1..] == Unsplit(inbox[1..]);
    assert DecodeChunk(ms[0], []).Success?;
    WellFormedTail(ms);
  }

  lemma WellFormedTail(ms: seq<Bytes>)
    requires ms != [] && WellFormed(ms)
    ensures WellFormed(ms[1..])
  {
    forall i | 0 <= i < |ms[1..]| ensures DecodeChunk(ms[1..][i], []).Success? { assert ms[1..][i] == ms[i + 1]; }
  }

  lemma SkipEmpty(bufs: Buffers, inbox: seq<Incoming>)
    requires bufs != [] && bufs[0] == []
    ensures Unread(bufs, inbox) == Unread(bufs[1..], inbox)
  {
    hide WirePayloads, Unsplit;
    assert Flatten(bufs) == [] + Flatten(bufs[1..]);
    assert [] + Flatten(bufs[1..]) == Flatten(bufs[1..]);
  }

  /** Behind an error there is nothing to read. */
  lemma {:induction false} NothingUnread(inbox: seq<Incoming>)
    requires inbox == [] || (inbox[0].Broken? && Orderly(inbox) && WellFormed(Unsplit(inbox)))
    ensures Unread([], inbox) == []
    ensures inbox != [] ==> Orderly(inbox[1..]) && WellFormed(Unsplit(inbox[1..])) && Unread([], inbox[1..]) == []
  {
    if inbox != [] {
      WellFormedTail(Unsplit(inbox));
      assert inbox[1..] != [] ==> inbox[1..][0] == inbox[1];
      assert Unsplit(inbox)[1..] == Unsplit(inbox[1..]);
      NothingUnread(inbox[1..]);
      assert Payload([]) == [];
    }
  }

  predicate AnyBroken(inbox: seq<Incoming>) { exists i :: 0 <= i < |inbox| && inbox[i].Broken? }

  /** The error a receiver of these meets first. */
  function FirstError(inbox: seq<Incoming>): Option<int>
  {
    if inbox == [] then None else if inbox[0].Broken? then Some(inbox[0].err) else FirstError(inbox[1..])
  }

  lemma BrokenFirstOrLater(inbox: seq<Incoming>)
    requires inbox != []
    ensures AnyBroken(inbox) <==> inbox[0].Broken? || AnyBroken(inbox[1..])
  {
    forall i | 0 <= i < |inbox[1..]| ensures inbox[1..][i] == inbox[i + 1] { }
    if AnyBroken(inbox[1..]) {
      var i :| 0 <= i < |inbox[1..]| && inbox[1..][i].Broken?;
      assert inbox[i + 1].Broken?;
    }
    if AnyBroken(inbox) && !inbox[0].Broken? {
      var i :| 0 <= i < |inbox| && inbox[i].Broken?;
      assert inbox[1..][i - 1].Broken?;
    }
  }

  /** A Read takes its bytes off the front of what is unread. It returns data exactly while
      something is unread, at least a byte if asked for one; after that it returns the error
      if one has arrived, and waits otherwise. */
  lemma {:induction false} ReadingIsFaithful(bufs: Buffers, inbox: seq<Incoming>, size: nat)
    requires Orderly(inbox) && WellFormed(Unsplit(inbox))
    ensures var r := Reading(bufs, inbox, size);
      && (r.outcome.Data? <==> Unread(bufs, inbox) != [])
      && (r.outcome.Error? <==> Unread(bufs, inbox) == [] && AnyBroken(inbox))
      && (r.outcome.Error? ==> Some(r.outcome.err) == FirstError(inbox))
      && (r.outcome.Blocked? <==> Unread(bufs, inbox) == [] && !AnyBroken(inbox))
      && Orderly(r.inbox) && WellFormed(Unsplit(r.inbox)) && (AnyBroken(r.inbox) ==> AnyBroken(inbox))
      && Unread(bufs, inbox) == Got(r) + Unread(r.bufs, r.inbox)
      && (r.outcome.Data? ==> |r.outcome.bytes| <= size && (size > 0 ==> r.outcome.bytes != []))
    decreases |inbox|, |bufs|
  {
    hide Unread, WellFormed, Unsplit, Orderly, Unmarshalled, AnyBroken;
    if inbox != [] { BrokenFirstOrLater(inbox); } else { NoneBroken(); }
    if bufs != [] {
      if |bufs[0]| > 0 {
        TakeFirst(bufs, inbox, Min(size, |bufs[0]|));
        TakeFirst(bufs, inbox, |bufs[0]|);
      } else {
        ReadingIsFaithful(bufs[1..], inbox, size);
        SkipEmpty(bufs, inbox);
      }
    } else if inbox != [] && inbox[0].Message? {
      ReceiveFirst(inbox);
      ReadingIsFaithful(Unmarshalled(inbox[0].bufs).value, inbox[1..], size);
    } else {
      NothingUnread(inbox);
    }
  }

  lemma NoneBroken()
    ensures !AnyBroken([])
  {
  }

  lemma Regroup(a: Bytes, b: Bytes, c: Bytes, d: Bytes)
    ensures a + (b + c) + d == a + b + (c + d)
    ensures a + b + (c + d) == (a + b + c) + d
  {
  }

  lemma WriteKeeps(p: Pipe, b: Bytes)
    requires Inv(p) && |b| <= INT64_MAX && b != []
    ensures Inv(Next(p, Write(b)))
  {
    ChunkRoundTrip(b);
    PayloadsAppend(p.wire, EncodeChunk(b));
    Regroup(p.read, Unread(p.bufs, p.inbox), WirePayloads(p.wire), b);
  }

  /** A message that arrives adds its payload to what is unread. */
  lemma DeliverAdds(bufs: Buffers, inbox: seq<Incoming>, split: Buffers)
    requires WellFormed(Unsplit(inbox)) && DecodeChunk(Flatten(split), []).Success?
    ensures WellFormed(Unsplit(inbox + [Message(split)]))
    ensures Unread(bufs, inbox + [Message(split)]) == Unread(bufs, inbox) + Payload(Flatten(split))
  {
    UnsplitAppend(inbox, Message(split));
    var ms, m, pre := Unsplit(inbox), Flatten(split), Flatten(bufs);
    PayloadsAppend(ms, m);
    WellFormedAppend(ms, m);
    assert pre + (WirePayloads(ms) + Payload(m)) == pre + WirePayloads(ms) + Payload(m);
  }

  lemma WellFormedAppend(ms: seq<Bytes>, m: Bytes)
    requires WellFormed(ms) && DecodeChunk(m, []).Success?
    ensures WellFormed(ms + [m])
  {
    forall i | 0 <= i < |ms + [m]| ensures DecodeChunk((ms + [m])[i], []).Success? {
      assert (ms + [m])[i] == if i < |ms| then ms[i] else m;
    }
  }

  lemma DeliverKeeps(p: Pipe, split: Buffers)
    requires Inv(p) && Enabled(p, Deliver(split))
    ensures Inv(Next(p, Deliver(split)))
  {
    DeliverAdds(p.bufs, p.inbox, split);
    Regroup(p.read, Unread(p.bufs, p.inbox), Payload(p.wire[0]), WirePayloads(p.wire[1..]));
  }

  lemma BreakKeeps(p: Pipe, err: int)
    requires Inv(p)
    ensures Inv(Next(p, Break(err)))
  {
    var ms := Unsplit(p.inbox);
    UnsplitAppend(p.inbox, Broken(err));
    WellFormedAppend(ms, []);
    PayloadsAppend(ms, []);
    assert WirePayloads(ms + [[]]) == WirePayloads(ms) by { assert Payload([]) == []; }
  }

  lemma ReadKeeps(p: Pipe, size: nat)
    requires Inv(p)
    ensures Inv(Next(p, Read(size)))
  {
    ReadingIsFaithful(p.bufs, p.inbox, size);
    var r := Reading(p.bufs, p.inbox, size);
    assert p.read + (Got(r) + Unread(r.bufs, r.inbox)) == (p.read + Got(r)) + Unread(r.bufs, r.inbox);
  }

  lemma {:induction false} RunKeeps(es: seq<Event>)
    requires Run(es).Some?
    ensures Inv(Run(es).value)
  {
    if es != [] {
      RunKeeps(es[..|es| - 1]);
      var p := Run(es[..|es| - 1]).value;
      match es[|es| - 1]
      case Write(b) => if b != [] { WriteKeeps(p, b); }
      case Deliver(split) => DeliverKeeps(p, split);
      case Break(err) => BreakKeeps(p, err);
      case Read(size) => ReadKeeps(p, size);
    }
  }

  /** For any writes, any splitting of the messages, any read sizes and whenever the stream
      ends, the bytes read are a prefix of the bytes written, and all of them once everything
      is drained. A Read that waits or returns an error has returned everything that arrived:
      only what is still on the wire is missing. */
  lemma StreamIsFaithful(es: seq<Event>, p: Pipe, size: nat)
    requires Run(es) == Some(p)
    ensures p.read <= p.written
    ensures !Reading(p.bufs, p.inbox, size).outcome.Data? ==> p.written == p.read + WirePayloads(p.wire)
    ensures p.wire == [] && !Reading(p.bufs, p.inbox, size).outcome.Data? ==> p.read == p.written
    ensures !Reading(p.bufs, p.inbox, size).outcome.Malformed?
  {
    RunKeeps(es);
    ReadingIsFaithful(p.bufs, p.inbox, size);
    assert p.written[..|p.read|] == p.read;
  }

  /** All bytes of the Write calls, in order. */
  function Writes(es: seq<Event>): Bytes
  {
    if es == [] then [] else Writes(es[..|es| - 1]) + if es[|es| - 1].Write? then es[|es| - 1].b else []
  }

  lemma {:induction false} WrittenIsEvents(es: seq<Event>, p: Pipe)
    requires Run(es) == Some(p)
    ensures p.written == Writes(es) && (p.ended <==> exists i :: 0 <= i < |es| && es[i].Break?)
  {
    if es != [] {
      var before := es[..|es| - 1];
      WrittenIsEvents(before, Run(before).value);
      assert es[|es| - 1].Break? ==> p.ended;
      if exists i :: 0 <= i < |before| && before[i].Break? {
        var i :| 0 <= i < |before| && before[i].Break?;
        assert es[i].Break?;
      }
    }
  }

  lemma Extend(es: seq<Event>, p: Pipe, e: Event)
    requires Run(es) == Some(p) && Enabled(p, e)
    ensures Run(es + [e]) == Some(Next(p, e))
  {
    assert (es + [e])[..|es|] == es;
  }

  /** What brings a pipe nearer to being drained. */
  function DrainStep(p: Pipe): Event { if p.wire != [] then Deliver([p.wire[0]]) else Read(1) }

  lemma DrainStepHelps(p: Pipe)
    requires Inv(p) && !p.ended && (p.wire != [] || Unread(p.bufs, p.inbox) != [])
    ensures Enabled(p, DrainStep(p))
    ensures var q := Next(p, DrainStep(p));
      && q.written == p.written && !q.ended
      && (|q.wire| < |p.wire| || (q.wire == p.wire && |Unread(q.bufs, q.inbox)| < |Unread(p.bufs, p.inbox)|))
  {
    if p.wire != [] {
      assert Flatten([p.wire[0]]) == p.wire[0] + [];
    } else {
      ReadingIsFaithful(p.bufs, p.inbox, 1);
    }
  }

  /** A run that has not ended can always be drained: deliveries and Reads alone bring out
      every byte written. */
  lemma {:induction false} CanBeDrained(es: seq<Event>, p: Pipe) returns (later: seq<Event>, q: Pipe)
    requires Run(es) == Some(p) && !p.ended
    ensures Run(es + later) == Some(q) && q.written == p.written && q.read == q.written
    decreases |p.wire|, |Unread(p.bufs, p.inbox)|
  {
    hide Next, Unread, Run, Enabled;
    RunKeeps(es);
    if p.wire == [] && Unread(p.bufs, p.inbox) == [] {
      later, q := [], p;
      assert es + [] == es;
      assert p.read + [] + [] == p.read;
    } else {
      var e := DrainStep(p);
      DrainStepHelps(p);
      Extend(es, p, e);
      var more;
      more, q := CanBeDrained(es + [e], Next(p, e));
      later := [e] + more;
      assert es + [e] + more == es + later;
    }
  }

  /** As long as written bytes have arrived unread, a Read makes progress. */
  lemma ReadMakesProgress(es: seq<Event>, p: Pipe, size: nat)
    requires Run(es) == Some(p) && size > 0 && Unread(p.bufs, p.inbox) != []
    ensures Reading(p.bufs, p.inbox, size).outcome.Data? && Reading(p.bufs, p.inbox, size).outcome.bytes != []
  {
    RunKeeps(es);
    ReadingIsFaithful(p.bufs, p.inbox, size);
  }

  predicate CarriesNothing(m: Incoming)
  {
    m.Message? && DecodeChunk(Flatten(m.bufs), []) == Success([])
  }

  /** On any inbox at all, Read keeps waiting exactly when nothing is buffered and only
      empty messages are queued: an error or a non-empty message always ends it. */
  lemma {:induction false} BlocksExactly(bufs: Buffers, inbox: seq<Incoming>, size: nat)
    ensures Reading(bufs, inbox, size).outcome.Blocked? <==>
              Flatten(bufs) == [] && forall i :: 0 <= i < |inbox| ==> CarriesNothing(inbox[i])
    decreases |inbox|, |bufs|
  {
    if bufs != [] {
      if |bufs[0]| == 0 {
        BlocksExactly(bufs[1..], inbox, size);
      }
    } else if inbox != [] && inbox[0].Message? {
      UnmarshalAgrees(inbox[0].bufs);
      if Unmarshalled(inbox[0].bufs).Success? {
        BlocksExactly(Unmarshalled(inbox[0].bufs).value, inbox[1..], size);
        assert forall i :: 1 <= i < |inbox| ==> inbox[i] == inbox[1..][i - 1];
      }
    }
  }

  /** With nothing buffered, what Read does on any inbox at all is decided by the first item
      that is not an empty message: it returns that error, fails on that undecodable message,
      or returns data from the front of that payload; later items are left alone. */
  lemma {:induction false} FirstItemDecides(bufs: Buffers, inbox: seq<Incoming>, size: nat, k: nat)
    requires Flatten(bufs) == [] && k < |inbox| && !CarriesNothing(inbox[k])
    requires forall i :: 0 <= i < k ==> CarriesNothing(inbox[i])
    ensures var r := Reading(bufs, inbox, size);
      && r.inbox == inbox[k + 1..]
      && match inbox[k]
         case Broken(e) => r.outcome == Error(e) && r.bufs == []
         case Message(m) =>
           match DecodeChunk(Flatten(m), [])
           case Failure => r.outcome == Malformed && r.bufs == []
           case Success(payload) =>
             r.outcome.Data? && r.outcome.bytes + Flatten(r.bufs) == payload
             && |r.outcome.bytes| <= size && (size > 0 ==> r.outcome.bytes != [])
    decreases |inbox|, |bufs|
  {
    if bufs != [] {
      assert bufs[0] == [] && Flatten(bufs[1..]) == [];
      FirstItemDecides(bufs[1..], inbox, size, k);
    } else if inbox[0].Message? {
      UnmarshalAgrees(inbox[0].bufs);
      if k > 0 {
        assert CarriesNothing(inbox[0]);
        assert inbox[1..][k - 1] == inbox[k] && inbox[1..][k..] == inbox[k + 1..];
        FirstItemDecides(Unmarshalled(inbox[0].bufs).value, inbox[1..], size, k - 1);
      } else if Unmarshalled(inbox[0].bufs).Success? {
        BufferedFirst(Unmarshalled(inbox[0].bufs).value, inbox[1..], size);
      }
    }
  }

  /** Buffered bytes come first, and nothing is received for them. */
  lemma {:induction false} BufferedFirst(bufs: Buffers, inbox: seq<Incoming>, size: nat)
    requires Flatten(bufs) != []
    ensures var r := Reading(bufs, inbox, size);
      && r.outcome.Data? && r.outcome.bytes + Flatten(r.bufs) == Flatten(bufs) && r.inbox == inbox
      && |r.outcome.bytes| <= size && (size > 0 ==> r.outcome.bytes != [])
  {
    if |bufs[0]| > 0 {
      TakeFirst(bufs, [], Min(size, |bufs[0]|));
      TakeFirst(bufs, [], |bufs[0]|);
      assert WirePayloads(Unsplit([])) == [];
    } else {
      BufferedFirst(bufs[1..], inbox, size);
    }
  }
}
