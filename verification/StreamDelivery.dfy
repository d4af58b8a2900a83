/**
 Server-opened streams of an h2mux session: serverSession.Open against
 session.DeliverStream, with Accept and Close, as a step system over any number
 of concurrent Opens and deliveries.

 One step is one lock region, one atomic operation or one channel operation.
 The peer is unconstrained: it may dial back with any request id, any number of
 times, in any order, or never.
 */
module StreamDelivery {
  import opened Common
  import Decimal

  type OpenId = nat  // one serverSession.Open call; it owns one one-slot channel
  type Conn = nat    // one stream; every DeliverStream call brings a conn of its own

  const UINT64 := 0x1_0000_0000_0000_0000
  const ACCEPT_BACKLOG := 16

  datatype Error = SessionClosed | InboundRejected | SendFailed | ContextDone

  datatype OpenPhase =
    | Started                                // past the IsClosed and peerRejectsInbound tests
    | Numbered                               // has its request id, not yet registered
    | Requesting                             // registered in pending, sending OpenRequest
    | Waiting                                // in the three-way select
    | GivingUp(err: Error)                   // about to call abandon()
    | Draining(err: Error)                   // abandon() reported claimed: receiving from ch
    | Discarding(err: Error, conn: Conn)     // drained conn, about to Close it
    | Returned(conn: Conn)
    | Failed(err: Error, discarded: Option<Conn>)

  /** rid is the request id, once Numbered; slot is the buffered channel ch.
      sends (how many sends ever happened on ch) and claimant (the delivery that
      removed the pending entry) are history: no step reads them. */
  datatype Open = Open(rid: string, phase: OpenPhase, slot: seq<Conn>, sends: nat, claimant: Option<Conn>)

  datatype DeliveryPhase =
    | Claiming              // has a request id, about to look it up
    | Handing(to: OpenId)   // removed the entry, about to send on its channel
    | Handed(to: OpenId)
    | Refusing              // about to Close its own conn
    | Refused
    | Queueing              // no request id: in the select over acceptCh and closedCh
    | Queued

  /** closes counts the Close calls the protocol makes on the conn. */
  datatype Delivery = Delivery(rid: string, phase: DeliveryPhase, closes: nat)

  datatype State = State(
    opens: map<OpenId, Open>,
    deliveries: map<Conn, Delivery>,
    pending: map<string, OpenId>,
    openSeq: nat,
    closed: bool,
    peerRejectsInbound: bool,
    acceptQueue: seq<Conn>,
    queued: seq<Conn>,     // every conn ever put on acceptCh, in order
    accepted: seq<Conn>)   // every conn Accept ever returned, in order

  datatype Event =
    | OpenBegin(o: OpenId)
    | OpenNumber(o: OpenId)
    | OpenRegister(o: OpenId)
    | OpenSend(o: OpenId, ok: bool)
    | OpenReceive(o: OpenId)
    | OpenGiveUp(o: OpenId, err: Error)
    | OpenAbandon(o: OpenId)
    | OpenDrain(o: OpenId)
    | OpenDiscard(o: OpenId)
    | DeliverBegin(c: Conn, rid: string)
    | DeliverClaim(c: Conn)
    | DeliverHand(c: Conn)
    | DeliverQueue(c: Conn)
    | DeliverSeeClosed(c: Conn)
    | DeliverRefuse(c: Conn)
    | AcceptTake
    | CloseSession

  predicate OpenAt(s: State, o: OpenId, p: OpenPhase) { o in s.opens && s.opens[o].phase == p }

  predicate DeliveryAt(s: State, c: Conn, p: DeliveryPhase) { c in s.deliveries && s.deliveries[c].phase == p }

  /** When a step may happen. A channel receive needs a value, a channel send needs
      room, and the closedCh cases need the session to be closed. The tests that an
      id a thread holds is a known one exclude nothing: see
      WaiterNeverStarves and DelivererNeverBlocks. */
  predicate Enabled(s: State, e: Event)
  {
    match e
    case OpenBegin(o) => o !in s.opens
    case OpenNumber(o) => OpenAt(s, o, Started)
    case OpenRegister(o) => OpenAt(s, o, Numbered)
    case OpenSend(o, _) => OpenAt(s, o, Requesting)
    case OpenReceive(o) => OpenAt(s, o, Waiting) && s.opens[o].slot != []
    case OpenGiveUp(o, err) => OpenAt(s, o, Waiting) && (err == ContextDone || (err == SessionClosed && s.closed))
    case OpenAbandon(o) => o in s.opens && s.opens[o].phase.GivingUp?
    case OpenDrain(o) => o in s.opens && s.opens[o].phase.Draining? && s.opens[o].slot != []
    case OpenDiscard(o) => o in s.opens && s.opens[o].phase.Discarding? && s.opens[o].phase.conn in s.deliveries
    case DeliverBegin(c, _) => c !in s.deliveries
    case DeliverClaim(c) =>
      DeliveryAt(s, c, Claiming)
      && (s.deliveries[c].rid in s.pending ==> s.pending[s.deliveries[c].rid] in s.opens)
    case DeliverHand(c) =>
      c in s.deliveries && s.deliveries[c].phase.Handing?
      && s.deliveries[c].phase.to in s.opens && s.opens[s.deliveries[c].phase.to].slot == []
    case DeliverQueue(c) => DeliveryAt(s, c, Queueing) && |s.acceptQueue| < ACCEPT_BACKLOG
    case DeliverSeeClosed(c) => DeliveryAt(s, c, Queueing) && s.closed
    case DeliverRefuse(c) => DeliveryAt(s, c, Refusing)
    case AcceptTake => s.acceptQueue != []
    case CloseSession => true
  }

  function WithOpen(s: State, o: OpenId, op: Open): State { s.(opens := s.opens[o := op]) }

  function WithPhase(s: State, o: OpenId, p: OpenPhase): State
    requires o in s.opens
  {
    WithOpen(s, o, s.opens[o].(phase := p))
  }

  function WithDelivery(s: State, c: Conn, d: Delivery): State { s.(deliveries := s.deliveries[c := d]) }

  function Begin(s: State, o: OpenId): State
  {
    WithOpen(s, o, Open("",
      if s.closed then Failed(SessionClosed, None)
      else if s.peerRejectsInbound then Failed(InboundRejected, None)
      else Started, [], 0, None))
  }

  /** openSeq.Add(1) on a uint64. */
  function Number(s: State, o: OpenId): State
    requires o in s.opens
  {
    var n := (s.openSeq + 1) % UINT64;
    WithOpen(s, o, s.opens[o].(rid := Decimal.Format(n), phase := Numbered)).(openSeq := n)
  }

  function Register(s: State, o: OpenId): State
    requires o in s.opens
  {
    WithPhase(s, o, Requesting).(pending := s.pending[s.opens[o].rid := o])
  }

  function Receive(s: State, o: OpenId): State
    requires o in s.opens && s.opens[o].slot != []
  {
    var op := s.opens[o];
    WithOpen(s, o, op.(phase := Returned(op.slot[0]), slot := op.slot[1..]))
  }

  /** abandon(): withdraw the entry if it is still ours, else somebody claimed it. */
  function Abandon(s: State, o: OpenId): State
    requires o in s.opens && s.opens[o].phase.GivingUp?
  {
    var op := s.opens[o];
    if op.rid in s.pending && s.pending[op.rid] == o then
      WithPhase(s, o, Failed(op.phase.err, None)).(pending := s.pending - {op.rid})
    else
      WithPhase(s, o, Draining(op.phase.err))
  }

  function Drain(s: State, o: OpenId): State
    requires o in s.opens && s.opens[o].phase.Draining? && s.opens[o].slot != []
  {
    var op := s.opens[o];
    WithOpen(s, o, op.(phase := Discarding(op.phase.err, op.slot[0]), slot := op.slot[1..]))
  }

  function CloseConn(s: State, c: Conn): State
    requires c in s.deliveries
  {
    WithDelivery(s, c, s.deliveries[c].(closes := s.deliveries[c].closes + 1))
  }

  function Discard(s: State, o: OpenId): State
    requires o in s.opens && s.opens[o].phase.Discarding? && s.opens[o].phase.conn in s.deliveries
  {
    var p := s.opens[o].phase;
    CloseConn(WithPhase(s, o, Failed(p.err, Some(p.conn))), p.conn)
  }

  function Arrive(s: State, c: Conn, rid: string): State
  {
    WithDelivery(s, c, Delivery(rid, if rid != "" then Claiming else Queueing, 0))
  }

  function Claim(s: State, c: Conn): State
    requires c in s.deliveries
    requires s.deliveries[c].rid in s.pending ==> s.pending[s.deliveries[c].rid] in s.opens
  {
    var d := s.deliveries[c];
    if d.rid in s.pending then
      var o := s.pending[d.rid];
      WithOpen(WithDelivery(s, c, d.(phase := Handing(o))), o, s.opens[o].(claimant := Some(c)))
        .(pending := s.pending - {d.rid})
    else
      WithDelivery(s, c, d.(phase := Refusing))
  }

  function Hand(s: State, c: Conn): State
    requires c in s.deliveries && s.deliveries[c].phase.Handing? && s.deliveries[c].phase.to in s.opens
  {
    var d := s.deliveries[c];
    var op := s.opens[d.phase.to];
    WithOpen(WithDelivery(s, c, d.(phase := Handed(d.phase.to))), d.phase.to, op.(slot := [c], sends := op.sends + 1))
  }

  function Enqueue(s: State, c: Conn): State
    requires c in s.deliveries
  {
    WithDelivery(s, c, s.deliveries[c].(phase := Queued)).(acceptQueue := s.acceptQueue + [c], queued := s.queued + [c])
  }

  function Refuse(s: State, c: Conn): State
    requires c in s.deliveries
  {
    var d := s.deliveries[c];
    WithDelivery(s, c, d.(phase := Refused, closes := d.closes + 1))
  }

  function Next(s: State, e: Event): State
    requires Enabled(s, e)
  {
    match e
    case OpenBegin(o) => Begin(s, o)
    case OpenNumber(o) => Number(s, o)
    case OpenRegister(o) => Register(s, o)
    case OpenSend(o, ok) => WithPhase(s, o, if ok then Waiting else GivingUp(SendFailed))
    case OpenReceive(o) => Receive(s, o)
    case OpenGiveUp(o, err) => WithPhase(s, o, GivingUp(err))
    case OpenAbandon(o) => Abandon(s, o)
    case OpenDrain(o) => Drain(s, o)
    case OpenDiscard(o) => Discard(s, o)
    case DeliverBegin(c, rid) => Arrive(s, c, rid)
    case DeliverClaim(c) => Claim(s, c)
    case DeliverHand(c) => Hand(s, c)
    case DeliverQueue(c) => Enqueue(s, c)
    case DeliverSeeClosed(c) => WithDelivery(s, c, s.deliveries[c].(phase := Refusing))
    case DeliverRefuse(c) => Refuse(s, c)
    case AcceptTake => s.(acceptQueue := s.acceptQueue[1..], accepted := s.accepted + [s.acceptQueue[0]])
    case CloseSession => s.(closed := true)
  }

  function Initial(peerRejectsInbound: bool): State
  {
    State(map[], map[], map[], 0, false, peerRejectsInbound, [], [], [])
  }

  /** The state after a run, or None if some step of it was not enabled. */
  function Run(reject: bool, es: seq<Event>): Option<State>
  {
    if es == [] then Some(Initial(reject)) else
    match Run(reject, es[..|es| - 1])
    case None => None
    case Some(s) => if Enabled(s, es[|es| - 1]) then Some(Next(s, es[|es| - 1])) else None
  }

  // ---------------------------------------------------------------- invariant

  /** Registered, and still to learn how its request was resolved. */
  predicate Live(p: OpenPhase) { p.Requesting? || p.Waiting? || p.GivingUp? }

  /** The conn a finished or discarding Open took from its channel. */
  function Taken(p: OpenPhase): Option<Conn>
  {
    match p
    case Discarding(_, c) => Some(c)
    case Returned(c) => Some(c)
    case Failed(_, c) => c
    case _ => None
  }

  predicate Registered(s: State, o: OpenId)
    requires o in s.opens
  {
    s.opens[o].rid in s.pending && s.pending[s.opens[o].rid] == o
  }

  /** The waiter's channel and its claimant agree on how far the handoff got. */
  predicate HandoffOk(s: State, o: OpenId)
    requires o in s.opens
  {
    var op := s.opens[o];
    match op.claimant
    case None => op.slot == [] && op.sends == 0
    case Some(c) =>
      && c in s.deliveries
      && s.deliveries[c].rid == op.rid
      && (if s.deliveries[c].phase == Handing(o) then op.slot == [] && op.sends == 0 && Taken(op.phase) == None
          else
            && s.deliveries[c].phase == Handed(o)
            && op.sends == 1
            && op.slot == if Taken(op.phase) == None then [c] else [])
  }

  /** What each phase of an Open says about its claimant. */
  predicate OpenOk(s: State, o: OpenId)
    requires o in s.opens
  {
    var op := s.opens[o];
    && HandoffOk(s, o)
    && (op.phase.Started? || op.phase.Numbered? ==> op.claimant == None)
    && (op.phase.Discarding? || op.phase.Returned? || op.phase.Failed? ==> op.claimant == Taken(op.phase))
  }

  /** A pending entry belongs to an Open of that request id that nobody has claimed. */
  predicate PendingOk(s: State, r: string)
  {
    && r in s.pending && s.pending[r] in s.opens
    && var op := s.opens[s.pending[r]]; Live(op.phase) && op.rid == r && op.claimant == None
  }

  /** How often the protocol should have closed c by now. */
  function ClosesDue(s: State, c: Conn): nat
    requires c in s.deliveries
  {
    match s.deliveries[c].phase
    case Refused => 1
    case Handed(o) => if o in s.opens && s.opens[o].phase.Failed? then 1 else 0
    case _ => 0
  }

  predicate DeliveryOk(s: State, c: Conn)
    requires c in s.deliveries
  {
    var d := s.deliveries[c];
    && (d.phase.Handing? || d.phase.Handed? ==> d.phase.to in s.opens && s.opens[d.phase.to].claimant == Some(c))
    && (d.phase.Queueing? || d.phase.Queued? ==> d.rid == "")
    && (d.phase.Queued? <==> c in s.queued)
    && d.closes == ClosesDue(s, c)
  }

  /** The accept queue is what was queued and not yet accepted, in order. */
  predicate QueueOk(s: State)
  {
    && s.accepted + s.acceptQueue == s.queued
    && |s.acceptQueue| <= ACCEPT_BACKLOG
    && (forall i, j :: 0 <= i < j < |s.queued| ==> s.queued[i] != s.queued[j])
    && (forall i :: 0 <= i < |s.queued| ==> s.queued[i] in s.deliveries)
  }

  ghost predicate Inv(s: State)
  {
    && (forall o :: o in s.opens ==> OpenOk(s, o))
    && (forall r :: r in s.pending ==> PendingOk(s, r))
    && (forall c :: c in s.deliveries ==> DeliveryOk(s, c))
    && QueueOk(s)
  }

  /** Registering a request id that is still pending, which needs openSeq to have gone all
      the way round. */
  predicate Overwrites(s: State, e: Event)
    requires Enabled(s, e)
  {
    e.OpenRegister? && s.opens[e.o].rid in s.pending
  }

  // ------------------------------------------------------------- preservation

  lemma BeginKeeps(s: State, o: OpenId)
    requires Inv(s) && o !in s.opens
    ensures Inv(Begin(s, o))
  {
  }

  lemma NumberKeeps(s: State, o: OpenId)
    requires Inv(s) && OpenAt(s, o, Started)
    ensures Inv(Number(s, o))
  {
  }

  lemma RegisterKeeps(s: State, o: OpenId)
    requires Inv(s) && OpenAt(s, o, Numbered)
    ensures Inv(Register(s, o))
  {
    var t := Register(s, o);
    assert OpenOk(s, o);
    forall q | q in t.opens ensures OpenOk(t, q) { assert q in s.opens ==> OpenOk(s, q); }
    forall r | r in t.pending ensures PendingOk(t, r) { assert r in s.pending ==> PendingOk(s, r); }
    forall d | d in t.deliveries ensures DeliveryOk(t, d) { assert d in s.deliveries ==> DeliveryOk(s, d); }
  }

  lemma LivePhaseKeeps(s: State, o: OpenId, p: OpenPhase)
    requires Inv(s) && o in s.opens && Live(s.opens[o].phase) && Live(p)
    ensures Inv(WithPhase(s, o, p))
  {
    var t := WithPhase(s, o, p);
    forall q | q in t.opens ensures OpenOk(t, q) { assert OpenOk(s, q); }
    forall r | r in t.pending ensures PendingOk(t, r) { assert PendingOk(s, r); }
    forall d | d in t.deliveries ensures DeliveryOk(t, d) { assert DeliveryOk(s, d); }
  }

  lemma ReceiveKeeps(s: State, o: OpenId)
    requires Inv(s) && OpenAt(s, o, Waiting) && s.opens[o].slot != []
    ensures Inv(Receive(s, o))
  {
    var t := Receive(s, o);
    forall q | q in t.opens ensures OpenOk(t, q) { assert q in s.opens ==> OpenOk(s, q); }
    forall r | r in t.pending ensures PendingOk(t, r) { assert OpenOk(s, o) && PendingOk(s, r); }
    forall d | d in t.deliveries ensures DeliveryOk(t, d) { assert d in s.deliveries ==> DeliveryOk(s, d); }
  }

  lemma WithdrawKeeps(s: State, o: OpenId)
    requires Inv(s) && o in s.opens && s.opens[o].phase.GivingUp? && Registered(s, o)
    ensures Inv(Abandon(s, o))
  {
    var t := Abandon(s, o);
    assert OpenOk(s, o) && PendingOk(s, s.opens[o].rid);
    forall q | q in t.opens ensures OpenOk(t, q) { assert q in s.opens ==> OpenOk(s, q); }
    forall r | r in t.pending ensures PendingOk(t, r) { assert r in s.pending ==> PendingOk(s, r); }
    forall d | d in t.deliveries ensures DeliveryOk(t, d) { assert d in s.deliveries ==> DeliveryOk(s, d); }
  }

  lemma LoseKeeps(s: State, o: OpenId)
    requires Inv(s) && o in s.opens && s.opens[o].phase.GivingUp? && !Registered(s, o)
    ensures Inv(Abandon(s, o))
  {
    assert OpenOk(s, o);
  }

  lemma DrainKeeps(s: State, o: OpenId)
    requires Inv(s) && o in s.opens && s.opens[o].phase.Draining? && s.opens[o].slot != []
    ensures Inv(Drain(s, o))
  {
    var t := Drain(s, o);
    forall q | q in t.opens ensures OpenOk(t, q) { assert q in s.opens ==> OpenOk(s, q); }
    forall r | r in t.pending ensures PendingOk(t, r) { assert OpenOk(s, o) && PendingOk(s, r); }
    forall d | d in t.deliveries ensures DeliveryOk(t, d) { assert d in s.deliveries ==> DeliveryOk(s, d); }
  }

  lemma DiscardKeeps(s: State, o: OpenId)
    requires Inv(s) && o in s.opens && s.opens[o].phase.Discarding? && s.opens[o].phase.conn in s.deliveries
    ensures Inv(Discard(s, o))
  {
    var t := Discard(s, o);
    forall q | q in t.opens ensures OpenOk(t, q) { assert q in s.opens ==> OpenOk(s, q); }
    forall r | r in t.pending ensures PendingOk(t, r) { assert r in s.pending ==> PendingOk(s, r); }
    forall d | d in t.deliveries ensures DeliveryOk(t, d) { assert d in s.deliveries ==> DeliveryOk(s, d); }
  }

  lemma ArriveKeeps(s: State, c: Conn, rid: string)
    requires Inv(s) && c !in s.deliveries
    ensures Inv(Arrive(s, c, rid))
  {
  }

  lemma ClaimKeeps(s: State, c: Conn)
    requires Inv(s) && DeliveryAt(s, c, Claiming) && s.deliveries[c].rid in s.pending
    requires s.pending[s.deliveries[c].rid] in s.opens
    ensures Inv(Claim(s, c))
  {
    var t := Claim(s, c);
    var o := s.pending[s.deliveries[c].rid];
    assert PendingOk(s, s.deliveries[c].rid) && OpenOk(s, o) && s.opens[o].claimant == None;
    forall q | q in t.opens ensures OpenOk(t, q) { assert q in s.opens ==> OpenOk(s, q); }
    forall r | r in t.pending ensures PendingOk(t, r) { assert r in s.pending ==> PendingOk(s, r); }
    forall d | d in t.deliveries ensures DeliveryOk(t, d) { assert d in s.deliveries ==> DeliveryOk(s, d); }
  }

  lemma HandKeeps(s: State, c: Conn)
    requires Inv(s) && c in s.deliveries && s.deliveries[c].phase.Handing? && s.deliveries[c].phase.to in s.opens
    ensures Inv(Hand(s, c))
  {
    var t := Hand(s, c);
    forall q | q in t.opens ensures OpenOk(t, q) { assert q in s.opens ==> OpenOk(s, q); }
    forall r | r in t.pending ensures PendingOk(t, r) { assert r in s.pending ==> PendingOk(s, r); }
    forall d | d in t.deliveries ensures DeliveryOk(t, d) { assert d in s.deliveries ==> DeliveryOk(s, d); }
  }

  lemma EnqueueKeeps(s: State, c: Conn)
    requires Inv(s) && DeliveryAt(s, c, Queueing) && |s.acceptQueue| < ACCEPT_BACKLOG
    ensures Inv(Enqueue(s, c))
  {
  }

  lemma RefusingKeeps(s: State, c: Conn)
    requires Inv(s) && (DeliveryAt(s, c, Claiming) || DeliveryAt(s, c, Queueing))
    ensures Inv(WithDelivery(s, c, s.deliveries[c].(phase := Refusing)))
  {
  }

  lemma RefuseKeeps(s: State, c: Conn)
    requires Inv(s) && DeliveryAt(s, c, Refusing)
    ensures Inv(Refuse(s, c))
  {
  }

  /** Every step of every Open, delivery, Accept and Close keeps the invariant. */
  lemma StepKeeps(s: State, e: Event)
    requires Inv(s) && Enabled(s, e)
    ensures Inv(Next(s, e))
  {
    match e
    case OpenBegin(o) => BeginKeeps(s, o);
    case OpenNumber(o) => NumberKeeps(s, o);
    case OpenRegister(o) => RegisterKeeps(s, o);
    case OpenSend(o, ok) => LivePhaseKeeps(s, o, if ok then Waiting else GivingUp(SendFailed));
    case OpenReceive(o) => ReceiveKeeps(s, o);
    case OpenGiveUp(o, err) => LivePhaseKeeps(s, o, GivingUp(err));
    case OpenAbandon(o) => if Registered(s, o) { WithdrawKeeps(s, o); } else { LoseKeeps(s, o); }
    case OpenDrain(o) => DrainKeeps(s, o);
    case OpenDiscard(o) => DiscardKeeps(s, o);
    case DeliverBegin(c, rid) => ArriveKeeps(s, c, rid);
    case DeliverClaim(c) => if s.deliveries[c].rid in s.pending { ClaimKeeps(s, c); } else { RefusingKeeps(s, c); }
    case DeliverHand(c) => HandKeeps(s, c);
    case DeliverQueue(c) => EnqueueKeeps(s, c);
    case DeliverSeeClosed(c) => RefusingKeeps(s, c);
    case DeliverRefuse(c) => RefuseKeeps(s, c);
    case AcceptTake => AcceptKeeps(s);
    case CloseSession => CloseKeeps(s);
  }

  lemma AcceptKeeps(s: State)
    requires Inv(s) && s.acceptQueue != []
    ensures Inv(Next(s, AcceptTake))
  {
  }

  lemma CloseKeeps(s: State)
    requires Inv(s)
    ensures Inv(Next(s, CloseSession))
  {
  }

  // --------------------------------------------------------- whole-run results

  lemma {:induction false} RunKeeps(reject: bool, es: seq<Event>)
    requires Run(reject, es).Some?
    ensures Inv(Run(reject, es).value)
  {
    if es != [] {
      RunKeeps(reject, es[..|es| - 1]);
      StepKeeps(Run(reject, es[..|es| - 1]).value, es[|es| - 1]);
    }
  }

  datatype Place =
    | AtDeliverer | InSlot(o: OpenId) | BeingDiscarded(o: OpenId) | ReturnedBy(o: OpenId)
    | InAcceptQueue | Accepted | ClosedPlace

  /** Who answers for conn c, read off the threads and channels one by one. */
  predicate At(s: State, c: Conn, p: Place)
    requires c in s.deliveries
  {
    match p
    case AtDeliverer =>
      var d := s.deliveries[c].phase;
      d.Claiming? || d.Handing? || d.Refusing? || d.Queueing?
    case InSlot(o) => o in s.opens && c in s.opens[o].slot
    case BeingDiscarded(o) => o in s.opens && s.opens[o].phase.Discarding? && s.opens[o].phase.conn == c
    case ReturnedBy(o) => o in s.opens && s.opens[o].phase == Returned(c)
    case InAcceptQueue => c in s.acceptQueue
    case Accepted => c in s.accepted
    case ClosedPlace => s.deliveries[c].closes > 0
  }

  function Where(s: State, c: Conn): Place
    requires c in s.deliveries
  {
    match s.deliveries[c].phase
    case Refused => ClosedPlace
    case Queued => if c in s.acceptQueue then InAcceptQueue else Accepted
    case Handed(o) =>
      if o !in s.opens then AtDeliverer
      else if s.opens[o].phase.Discarding? then BeingDiscarded(o)
      else if s.opens[o].phase.Returned? then ReturnedBy(o)
      else if s.opens[o].phase.Failed? then ClosedPlace
      else InSlot(o)
    case _ => AtDeliverer
  }

  /** Every stream a peer ever delivered has exactly one owner, and is closed at most once. */
  lemma SingleOwner(reject: bool, es: seq<Event>, s: State, c: Conn)
    requires Run(reject, es) == Some(s) && c in s.deliveries
    ensures exists p :: At(s, c, p) && forall q :: At(s, c, q) ==> q == p
    ensures s.deliveries[c].closes <= 1
  {
    RunKeeps(reject, es);
    assert DeliveryOk(s, c);
    var p := Where(s, c);
    OwnerIsWhere(s, c, p);
    forall q | At(s, c, q) ensures q == p { OwnerIsWhere(s, c, q); }
  }

  lemma OwnerIsWhere(s: State, c: Conn, p: Place)
    requires Inv(s) && c in s.deliveries
    ensures At(s, c, p) <==> p == Where(s, c)
  {
    assert DeliveryOk(s, c);
    match p
    case InSlot(o) => if o in s.opens { assert OpenOk(s, o); }
    case BeingDiscarded(o) => if o in s.opens { assert OpenOk(s, o); }
    case ReturnedBy(o) => if o in s.opens { assert OpenOk(s, o); }
    case InAcceptQueue => QueuedOnce(s, c);
    case Accepted => QueuedOnce(s, c);
    case _ =>
  }

  lemma QueuedOnce(s: State, c: Conn)
    requires QueueOk(s)
    ensures c in s.queued <==> c in s.accepted || c in s.acceptQueue
    ensures !(c in s.accepted && c in s.acceptQueue)
  {
    forall i, j | 0 <= i < |s.accepted| && 0 <= j < |s.acceptQueue| ensures s.accepted[i] != s.acceptQueue[j] {
      assert s.queued[i] == s.accepted[i] && s.queued[|s.accepted| + j] == s.acceptQueue[j];
    }
  }

  /** Open for request id r returns only a stream that was delivered with id r, no two
      Opens return the same stream, and the protocol has not closed or queued it. */
  lemma ReturnsItsOwnStream(reject: bool, es: seq<Event>, s: State, o: OpenId, c: Conn)
    requires Run(reject, es) == Some(s) && OpenAt(s, o, Returned(c))
    ensures c in s.deliveries && s.deliveries[c].rid == s.opens[o].rid && s.deliveries[c].closes == 0
    ensures forall q :: OpenAt(s, q, Returned(c)) ==> q == o
    ensures c !in s.queued
  {
    RunKeeps(reject, es);
    assert OpenOk(s, o);
    assert DeliveryOk(s, c);
    forall q | OpenAt(s, q, Returned(c)) ensures q == o { assert OpenOk(s, q); }
  }

  /** Accept returns the queued streams in the order they were queued, each once, and
      only streams that carried no request id. */
  lemma AcceptIsFifo(reject: bool, es: seq<Event>, s: State)
    requires Run(reject, es) == Some(s)
    ensures s.accepted <= s.queued && s.queued[|s.accepted|..] == s.acceptQueue
    ensures forall i, j :: 0 <= i < j < |s.queued| ==> s.queued[i] != s.queued[j]
    ensures forall c: Conn :: c in s.queued ==> c in s.deliveries && s.deliveries[c].rid == ""
  {
    RunKeeps(reject, es);
    assert s.queued[..|s.accepted|] == s.accepted;
    forall c: Conn | c in s.queued ensures c in s.deliveries && s.deliveries[c].rid == "" {
      var i :| 0 <= i < |s.queued| && s.queued[i] == c;
      assert DeliveryOk(s, c);
    }
  }

  /** A deliverer never blocks on a request: the lookup is always possible, and having
      claimed a waiter it always finds room in that waiter's channel. */
  lemma DelivererNeverBlocks(reject: bool, es: seq<Event>, s: State, c: Conn)
    requires Run(reject, es) == Some(s) && c in s.deliveries
    ensures s.deliveries[c].phase.Handing? ==> Enabled(s, DeliverHand(c))
    ensures s.deliveries[c].phase.Claiming? ==> Enabled(s, DeliverClaim(c))
  {
    RunKeeps(reject, es);
    assert DeliveryOk(s, c);
    if s.deliveries[c].phase.Handing? {
      assert OpenOk(s, s.deliveries[c].phase.to);
    }
    assert s.deliveries[c].rid in s.pending ==> PendingOk(s, s.deliveries[c].rid);
  }

  predicate Over(p: OpenPhase) { p.Returned? || p.Failed? }

  /** An Open that is over leaves no pending entry and no stream in its channel; so once all
      are over, pending is empty. */
  lemma OpenLeavesNothing(reject: bool, es: seq<Event>, s: State, o: OpenId)
    requires Run(reject, es) == Some(s) && o in s.opens && Over(s.opens[o].phase)
    ensures s.opens[o].slot == [] && forall r :: r in s.pending ==> s.pending[r] != o
    ensures (forall q :: q in s.opens ==> Over(s.opens[q].phase)) ==> s.pending == map[]
  {
    RunKeeps(reject, es);
    assert OpenOk(s, o);
    forall r | r in s.pending ensures s.pending[r] in s.opens && !Over(s.opens[s.pending[r]].phase) { assert PendingOk(s, r); }
  }

  /** A stream whose deliverer is done was closed exactly once, or handed to one Open of its
      request id; when that Open is over, it returned the stream or closed it exactly once. */
  lemma NothingLeaks(reject: bool, es: seq<Event>, s: State, c: Conn)
    requires Run(reject, es) == Some(s) && c in s.deliveries
    ensures s.deliveries[c].phase.Refused? ==> s.deliveries[c].closes == 1
    ensures s.deliveries[c].phase.Handed? ==>
              var o := s.deliveries[c].phase.to;
              && o in s.opens && s.opens[o].rid == s.deliveries[c].rid
              && (Over(s.opens[o].phase) ==> if s.opens[o].phase == Returned(c) then s.deliveries[c].closes == 0 else s.deliveries[c].closes == 1)
  {
    RunKeeps(reject, es);
    assert DeliveryOk(s, c);
    if s.deliveries[c].phase.Handed? { assert OpenOk(s, s.deliveries[c].phase.to); }
  }

  // ------------------------------------------------------- overwritten entries

  /** Some registration of the run replaced the pending entry of Open o. */
  predicate Overwritten(reject: bool, es: seq<Event>, o: OpenId)
    requires Run(reject, es).Some?
  {
    es != [] && (
      var before := es[..|es| - 1];
      Overwritten(reject, before, o) || OverwritesOf(Run(reject, before).value, es[|es| - 1], o))
  }

  predicate OverwritesOf(s: State, e: Event, o: OpenId)
    requires Enabled(s, e)
  {
    Overwrites(s, e) && s.pending[s.opens[e.o].rid] == o
  }

  /** Nobody can find o any more: it is undecided, or draining, without entry or claimant. */
  predicate Lost(s: State, o: OpenId)
  {
    o in s.opens && s.opens[o].claimant == None
    && (s.opens[o].phase.Draining? || (Live(s.opens[o].phase) && !Registered(s, o)))
  }

  predicate ChangesPending(e: Event) { e.OpenRegister? || e.OpenAbandon? || e.DeliverClaim? }

  lemma OtherStepLoses(s: State, e: Event, o: OpenId)
    requires Enabled(s, e) && !ChangesPending(e) && (o in s.opens ==> OpenOk(s, o))
    ensures Lost(Next(s, e), o) <==> Lost(s, o)
    ensures Lost(s, o) && s.opens[o].phase.Draining? ==> Next(s, e).opens[o].phase == s.opens[o].phase
  {
  }

  lemma RegisterLoses(s: State, e: Event, o: OpenId)
    requires Enabled(s, e) && e.OpenRegister? && (s.opens[e.o].rid in s.pending ==> PendingOk(s, s.opens[e.o].rid))
    requires OpenOk(s, e.o)
    ensures Lost(Next(s, e), o) <==> Lost(s, o) || OverwritesOf(s, e, o)
    ensures Lost(s, o) && s.opens[o].phase.Draining? ==> Next(s, e).opens[o].phase == s.opens[o].phase
  {
  }

  lemma AbandonLoses(s: State, e: Event, o: OpenId)
    requires Enabled(s, e) && e.OpenAbandon? && OpenOk(s, e.o) && (o in s.opens ==> OpenOk(s, o))
    requires Registered(s, e.o) ==> PendingOk(s, s.opens[e.o].rid)
    ensures Lost(Next(s, e), o) <==> Lost(s, o)
    ensures Lost(s, o) && s.opens[o].phase.Draining? ==> Next(s, e).opens[o].phase == s.opens[o].phase
  {
  }

  lemma ClaimLoses(s: State, e: Event, o: OpenId)
    requires Enabled(s, e) && e.DeliverClaim? && (s.deliveries[e.c].rid in s.pending ==> PendingOk(s, s.deliveries[e.c].rid))
    ensures Lost(Next(s, e), o) <==> Lost(s, o)
    ensures Lost(s, o) && s.opens[o].phase.Draining? ==> Next(s, e).opens[o].phase == s.opens[o].phase
  {
  }

  /** A step loses an Open exactly by overwriting its entry, and what is lost stays lost. */
  lemma StepLoses(s: State, e: Event, o: OpenId)
    requires Inv(s) && Enabled(s, e)
    ensures Lost(Next(s, e), o) <==> Lost(s, o) || OverwritesOf(s, e, o)
    ensures Lost(s, o) && s.opens[o].phase.Draining? ==> Next(s, e).opens[o].phase == s.opens[o].phase
  {
    hide OpenOk, PendingOk, DeliveryOk, QueueOk, Lost, Next;
    match e
    case OpenRegister(_) => RegisterLoses(s, e, o);
    case OpenAbandon(_) => AbandonLoses(s, e, o);
    case DeliverClaim(_) => ClaimLoses(s, e, o);
    case _ => OtherStepLoses(s, e, o);
  }

  /** In every run the Opens that are lost are exactly those whose entry was overwritten. */
  lemma {:induction false} LostExactly(reject: bool, es: seq<Event>, o: OpenId)
    requires Run(reject, es).Some?
    ensures Lost(Run(reject, es).value, o) <==> Overwritten(reject, es, o)
  {
    if es != [] {
      var before := es[..|es| - 1];
      LostExactly(reject, before, o);
      RunKeeps(reject, before);
      StepLoses(Run(reject, before).value, es[|es| - 1], o);
    }
  }

  /** An Open that is lost never returns, however the run goes on, and nothing ever reaches
      its channel; once draining it stays so. */
  lemma {:induction false} LostForever(reject: bool, es: seq<Event>, later: seq<Event>, s: State, t: State, o: OpenId)
    requires Run(reject, es) == Some(s) && Run(reject, es + later) == Some(t) && Lost(s, o)
    ensures Lost(t, o) && t.opens[o].slot == [] && !exists c :: DeliveryAt(t, c, Handing(o))
    ensures s.opens[o].phase.Draining? ==> t.opens[o].phase == s.opens[o].phase
  {
    RunKeeps(reject, es + later);
    if later == [] {
      assert es + later == es;
    } else {
      var all, before := es + later, later[..|later| - 1];
      assert all[..|all| - 1] == es + before;
      LostForever(reject, es, before, s, Run(reject, es + before).value, o);
      RunKeeps(reject, es + before);
      StepLoses(Run(reject, es + before).value, all[|all| - 1], o);
    }
    assert OpenOk(t, o);
    forall c ensures !DeliveryAt(t, c, Handing(o)) { assert c in t.deliveries ==> DeliveryOk(t, c); }
  }

  ghost predicate Claimed(s: State, o: OpenId)
  {
    exists c: Conn :: DeliveryAt(s, c, Handing(o)) || DeliveryAt(s, c, Handed(o))
  }

  lemma ClaimedHasClaimant(s: State, o: OpenId)
    requires Inv(s) && o in s.opens
    ensures Claimed(s, o) <==> s.opens[o].claimant.Some?
  {
    assert OpenOk(s, o);
    forall c: Conn | DeliveryAt(s, c, Handing(o)) || DeliveryAt(s, c, Handed(o)) ensures s.opens[o].claimant == Some(c) {
      assert DeliveryOk(s, c);
    }
    if s.opens[o].claimant.Some? {
      var c := s.opens[o].claimant.value;
      assert DeliveryAt(s, c, Handing(o)) || DeliveryAt(s, c, Handed(o));
    }
  }

  /** At most one send ever happens on a waiter's channel. A waiter that must drain has the
      stream in its channel or a deliverer whose next step is that send, if and only if its
      entry was not overwritten. */
  lemma WaiterNeverStarves(reject: bool, es: seq<Event>, s: State, o: OpenId)
    requires Run(reject, es) == Some(s) && o in s.opens
    ensures s.opens[o].sends <= 1 && |s.opens[o].slot| <= s.opens[o].sends
    ensures s.opens[o].phase.Draining? ==>
              (s.opens[o].slot != [] || (exists c :: DeliveryAt(s, c, Handing(o))) <==> !Overwritten(reject, es, o))
    ensures s.opens[o].phase.Discarding? ==> Enabled(s, OpenDiscard(o))
  {
    RunKeeps(reject, es);
    LostExactly(reject, es, o);
    assert OpenOk(s, o);
    forall c: Conn | DeliveryAt(s, c, Handing(o)) ensures s.opens[o].claimant == Some(c) { assert DeliveryOk(s, c); }
    if s.opens[o].phase.Draining? && s.opens[o].claimant.Some? && s.opens[o].slot == [] {
      assert DeliveryAt(s, s.opens[o].claimant.value, Handing(o));
    }
  }

  /** The pending map holds o exactly when o is registered, undecided and unclaimed. */
  ghost predicate PendingExact(s: State, o: OpenId)
    requires o in s.opens
  {
    (exists r :: r in s.pending && s.pending[r] == o) <==> Live(s.opens[o].phase) && !Claimed(s, o)
  }

  lemma ExactUnlessLost(s: State, o: OpenId)
    requires Inv(s) && o in s.opens
    ensures PendingExact(s, o) <==> !(Live(s.opens[o].phase) && Lost(s, o))
  {
    ClaimedHasClaimant(s, o);
    assert OpenOk(s, o);
    forall r | r in s.pending && s.pending[r] == o
      ensures Live(s.opens[o].phase) && Registered(s, o) && s.opens[o].claimant == None
    {
      assert PendingOk(s, r);
    }
    if Registered(s, o) { assert PendingOk(s, s.opens[o].rid); }
  }

  /** ... which fails for an Open that is still undecided if and only if its entry was
      overwritten, and for no other. */
  lemma PendingIsExact(reject: bool, es: seq<Event>, s: State, o: OpenId)
    requires Run(reject, es) == Some(s) && o in s.opens
    ensures PendingExact(s, o) <==> !(Live(s.opens[o].phase) && Overwritten(reject, es, o))
  {
    RunKeeps(reject, es);
    LostExactly(reject, es, o);
    ExactUnlessLost(s, o);
  }

  /** No registration of the run found its request id still pending. */
  predicate Clean(reject: bool, es: seq<Event>)
    requires Run(reject, es).Some?
  {
    es == [] || (
      var before := es[..|es| - 1];
      Clean(reject, before) && !Overwrites(Run(reject, before).value, es[|es| - 1]))
  }

  /** The pending map is exact in every state the run goes through. */
  ghost predicate AlwaysExact(reject: bool, es: seq<Event>)
    requires Run(reject, es).Some?
  {
    && (var s := Run(reject, es).value; forall o :: o in s.opens ==> PendingExact(s, o))
    && (es == [] || AlwaysExact(reject, es[..|es| - 1]))
  }

  lemma {:induction false} CleanOverwritesNone(reject: bool, es: seq<Event>, o: OpenId)
    requires Run(reject, es).Some? && Clean(reject, es)
    ensures !Overwritten(reject, es, o)
  {
    if es != [] { CleanOverwritesNone(reject, es[..|es| - 1], o); }
  }

  lemma OverwriteShows(s: State, e: Event)
    requires Inv(s) && Enabled(s, e) && Overwrites(s, e)
    ensures exists o :: o in Next(s, e).opens && !PendingExact(Next(s, e), o)
  {
    var o := s.pending[s.opens[e.o].rid];
    assert PendingOk(s, s.opens[e.o].rid);
    StepKeeps(s, e);
    StepLoses(s, e, o);
    ExactUnlessLost(Next(s, e), o);
  }

  /** For every run: the pending map is exact throughout if and only if no registration
      overwrote an entry. */
  lemma {:induction false} ExactIffClean(reject: bool, es: seq<Event>)
    requires Run(reject, es).Some?
    ensures AlwaysExact(reject, es) <==> Clean(reject, es)
  {
    var s := Run(reject, es).value;
    if es != [] {
      var before := es[..|es| - 1];
      ExactIffClean(reject, before);
      RunKeeps(reject, before);
      if Overwrites(Run(reject, before).value, es[|es| - 1]) { OverwriteShows(Run(reject, before).value, es[|es| - 1]); }
    }
    if Clean(reject, es) {
      forall o | o in s.opens ensures PendingExact(s, o) {
        CleanOverwritesNone(reject, es, o);
        PendingIsExact(reject, es, s, o);
      }
    }
  }

  // ------------------------------------------------------------------ service

  /** Open o waits for a stream of c's request id, is claimed by nobody, and its entry was
      not overwritten. */
  ghost predicate Awaits(reject: bool, es: seq<Event>, o: OpenId, c: Conn)
    requires Run(reject, es).Some?
  {
    var s := Run(reject, es).value;
    && o in s.opens && c in s.deliveries && Live(s.opens[o].phase) && s.opens[o].rid == s.deliveries[c].rid
    && !Claimed(s, o) && !Overwritten(reject, es, o)
  }

  /** In every run a delivery with a request id is handed to exactly the Open that awaits it,
      and refused if and only if none does. */
  lemma DeliveredToItsWaiter(reject: bool, es: seq<Event>, s: State, u: State, c: Conn, o: OpenId)
    requires Run(reject, es) == Some(s) && Run(reject, es + [DeliverClaim(c)]) == Some(u)
    ensures DeliveryAt(u, c, Handing(o)) <==> Awaits(reject, es, o, c)
    ensures DeliveryAt(u, c, Refusing) <==> !exists q :: Awaits(reject, es, q, c)
  {
    var all := es + [DeliverClaim(c)];
    assert all[..|all| - 1] == es;
    RunKeeps(reject, es);
    AwaitedIsPending(reject, es, s, o, c);
    var rid := s.deliveries[c].rid;
    if rid in s.pending {
      AwaitedIsPending(reject, es, s, s.pending[rid], c);
      assert Awaits(reject, es, s.pending[rid], c);
    } else {
      forall q ensures !Awaits(reject, es, q, c) { AwaitedIsPending(reject, es, s, q, c); }
    }
  }

  lemma AwaitedIsPending(reject: bool, es: seq<Event>, s: State, o: OpenId, c: Conn)
    requires Run(reject, es) == Some(s) && Inv(s) && c in s.deliveries
    ensures Awaits(reject, es, o, c) <==> s.deliveries[c].rid in s.pending && s.pending[s.deliveries[c].rid] == o
  {
    LostExactly(reject, es, o);
    var rid := s.deliveries[c].rid;
    if o in s.opens { ClaimedHasClaimant(s, o); }
    if rid in s.pending && s.pending[rid] == o { assert PendingOk(s, rid); }
  }

  /** A waiter that was claimed and has not given up can go on to return that very stream. */
  lemma ClaimedCanReturn(reject: bool, es: seq<Event>, s: State, c: Conn, o: OpenId)
    returns (later: seq<Event>, u: State)
    requires Run(reject, es) == Some(s) && OpenAt(s, o, Waiting) && DeliveryAt(s, c, Handing(o))
    ensures Run(reject, es + later) == Some(u) && OpenAt(u, o, Returned(c))
  {
    DelivererNeverBlocks(reject, es, s, c);
    later, u := [DeliverHand(c)], Next(s, DeliverHand(c));
    Extend(reject, es, s, DeliverHand(c));
    Extend(reject, es + later, u, OpenReceive(o));
    u := Next(u, OpenReceive(o));
    assert es + [DeliverHand(c)] + [OpenReceive(o)] == es + [DeliverHand(c), OpenReceive(o)];
    later := [DeliverHand(c), OpenReceive(o)];
  }

  lemma {:induction false} UnusedConn(used: set<nat>) returns (c: nat)
    ensures forall k :: k in used ==> k < c
  {
    if used == {} {
      c := 0;
    } else {
      var k :| k in used;
      var m := UnusedConn(used - {k});
      c := if k < m then m else k + 1;
      forall j | j in used ensures j < c { assert j == k || j in used - {k}; }
    }
  }

  /** An Open that is waiting can still return a stream if and only if its entry was not
      overwritten: the peer only has to dial back with its id. */
  lemma WaiterCanReturn(reject: bool, es: seq<Event>, s: State, o: OpenId) returns (later: seq<Event>, u: State, c: Conn)
    requires Run(reject, es) == Some(s) && OpenAt(s, o, Waiting) && !Overwritten(reject, es, o)
    ensures Run(reject, es + later) == Some(u) && OpenAt(u, o, Returned(c))
  {
    RunKeeps(reject, es);
    LostExactly(reject, es, o);
    assert OpenOk(s, o);
    if s.opens[o].claimant.Some? {
      c := s.opens[o].claimant.value;
      if s.deliveries[c].phase == Handing(o) {
        later, u := ClaimedCanReturn(reject, es, s, c, o);
      } else {
        Extend(reject, es, s, OpenReceive(o));
        later, u := [OpenReceive(o)], Next(s, OpenReceive(o));
      }
    } else {
      later, u, c := DialBackServes(reject, es, s, o);
    }
  }

  lemma DialBackServes(reject: bool, es: seq<Event>, s: State, o: OpenId) returns (later: seq<Event>, u: State, c: Conn)
    requires Run(reject, es) == Some(s) && OpenAt(s, o, Waiting) && Registered(s, o)
    ensures Run(reject, es + later) == Some(u) && OpenAt(u, o, Returned(c))
  {
    hide Run, Overwritten, Inv, OpenOk;
    c := UnusedConn(s.deliveries.Keys);
    var rid := s.opens[o].rid;
    RegisteredHasId(reject, es, s, o);
    Extend(reject, es, s, DeliverBegin(c, rid));
    var es1, s1 := es + [DeliverBegin(c, rid)], Next(s, DeliverBegin(c, rid));
    Extend(reject, es1, s1, DeliverClaim(c));
    var es2, s2 := es1 + [DeliverClaim(c)], Next(s1, DeliverClaim(c));
    var more;
    more, u := ClaimedCanReturn(reject, es2, s2, c, o);
    later := [DeliverBegin(c, rid), DeliverClaim(c)] + more;
    assert es2 + more == es + later;
  }

  /** A registered Open has a request id. */
  lemma {:induction false} RegisteredHasId(reject: bool, es: seq<Event>, s: State, o: OpenId)
    requires Run(reject, es) == Some(s) && o in s.opens && (s.opens[o].phase.Numbered? || Live(s.opens[o].phase))
    ensures s.opens[o].rid != ""
  {
    var before, e := es[..|es| - 1], es[|es| - 1];
    var v := Run(reject, before).value;
    IdStep(v, e, o);
    if s.opens[o].rid == "" { RegisteredHasId(reject, before, v, o); }
  }

  lemma IdStep(s: State, e: Event, o: OpenId)
    requires Enabled(s, e) && o in Next(s, e).opens
    requires Next(s, e).opens[o].phase.Numbered? || Live(Next(s, e).opens[o].phase)
    ensures e == OpenNumber(o) ==> Next(s, e).opens[o].rid != ""
    ensures e != OpenNumber(o) ==>
              && o in s.opens && (s.opens[o].phase.Numbered? || Live(s.opens[o].phase))
              && s.opens[o].rid == Next(s, e).opens[o].rid
  {
  }

  // ------------------------------------------------------------------- verdicts

  /** The error an Open ends or is about to end with. */
  function ErrorOf(p: OpenPhase): Option<Error>
  {
    match p
    case GivingUp(err) => Some(err)
    case Draining(err) => Some(err)
    case Discarding(err, _) => Some(err)
    case Failed(err, _) => Some(err)
    case _ => None
  }

  /** Why an Open fails, read off the events: the session was closed or rejects inbound
      streams when it began, its request could not be sent, or it gave up waiting. */
  function Blame(reject: bool, es: seq<Event>, o: OpenId): Option<Error>
  {
    if es == [] then None else
    var before, e := es[..|es| - 1], es[|es| - 1];
    if e == OpenBegin(o) then
      (if CloseSession in before then Some(SessionClosed) else if reject then Some(InboundRejected) else None)
    else if e == OpenSend(o, false) then Some(SendFailed)
    else if e.OpenGiveUp? && e.o == o then Some(e.err)
    else Blame(reject, before, o)
  }

  lemma {:induction false} FlagsAreEvents(reject: bool, es: seq<Event>)
    requires Run(reject, es).Some?
    ensures Run(reject, es).value.closed <==> CloseSession in es
    ensures Run(reject, es).value.peerRejectsInbound == reject
  {
    if es != [] {
      FlagsAreEvents(reject, es[..|es| - 1]);
      assert es == es[..|es| - 1] + [es[|es| - 1]];
      FlagsFrame(Run(reject, es[..|es| - 1]).value, es[|es| - 1]);
    }
  }

  lemma FlagsFrame(s: State, e: Event)
    requires Enabled(s, e)
    ensures Next(s, e).closed == (s.closed || e.CloseSession?) && Next(s, e).peerRejectsInbound == s.peerRejectsInbound
  {
  }

  /** In every run an Open fails exactly for its reason, and with no reason it does not; a
      reason of a closed session means that the session was closed. */
  lemma {:induction false} FailsForItsReason(reject: bool, es: seq<Event>, s: State, o: OpenId)
    requires Run(reject, es) == Some(s)
    ensures if o in s.opens then ErrorOf(s.opens[o].phase) == Blame(reject, es, o) else Blame(reject, es, o) == None
    ensures Blame(reject, es, o) == Some(SessionClosed) ==> CloseSession in es
  {
    if es != [] {
      var before, e := es[..|es| - 1], es[|es| - 1];
      var v := Run(reject, before).value;
      FailsForItsReason(reject, before, v, o);
      FlagsAreEvents(reject, before);
      assert es == before + [e];
      OpensFrame(v, e, o);
      if o in s.opens { ReasonStep(v, e, o); }
    }
  }

  lemma OpensFrame(s: State, e: Event, o: OpenId)
    requires Enabled(s, e)
    ensures o in Next(s, e).opens <==> o in s.opens || e == OpenBegin(o)
    ensures o !in s.opens ==> e != OpenSend(o, false) && !(e.OpenGiveUp? && e.o == o)
  {
  }

  lemma ReasonStep(s: State, e: Event, o: OpenId)
    requires Enabled(s, e) && o in Next(s, e).opens
    ensures var p := Next(s, e).opens[o].phase;
      if e == OpenBegin(o) then
        p == if s.closed then Failed(SessionClosed, None) else if s.peerRejectsInbound then Failed(InboundRejected, None) else Started
      else
        && o in s.opens
        && ErrorOf(p) == if e == OpenSend(o, false) then Some(SendFailed)
                         else if e.OpenGiveUp? && e.o == o then Some(e.err) else ErrorOf(s.opens[o].phase)
  {
  }

  /** In every run a stream without a request id is queued or refused exactly as its deliverer
      chose, and refused only if the session was closed. */
  lemma {:induction false} QueuedOrRefused(reject: bool, es: seq<Event>, s: State, c: Conn)
    requires Run(reject, es) == Some(s) && c in s.deliveries && s.deliveries[c].rid == ""
    ensures s.deliveries[c].phase.Queued? <==> DeliverQueue(c) in es
    ensures s.deliveries[c].phase.Refusing? || s.deliveries[c].phase.Refused? <==> DeliverSeeClosed(c) in es
    ensures s.deliveries[c].phase.Refused? <==> DeliverRefuse(c) in es
    ensures s.deliveries[c].phase.Queueing? || DeliverQueue(c) in es || DeliverSeeClosed(c) in es
    ensures DeliverSeeClosed(c) in es ==> CloseSession in es
  {
    var before, e := es[..|es| - 1], es[|es| - 1];
    var v := Run(reject, before).value;
    assert es == before + [e];
    FlagsAreEvents(reject, before);
    DeliveryFrame(v, e, c);
    if c in v.deliveries { QueuedOrRefused(reject, before, v, c); } else { NotDeliveredYet(reject, before, c); }
  }

  /** How a step moves a delivery without a request id. */
  predicate Moves(s: State, e: Event, c: Conn, p: DeliveryPhase)
    requires c in s.deliveries
  {
    var was := s.deliveries[c].phase;
    was.Queueing? || was.Queued? || was.Refusing? || was.Refused? ==>
      && p == (if e == DeliverQueue(c) then Queued else if e == DeliverSeeClosed(c) then Refusing
               else if e == DeliverRefuse(c) then Refused else was)
      && (e == DeliverQueue(c) ==> was.Queueing?)
      && (e == DeliverSeeClosed(c) ==> was.Queueing? && s.closed)
      && (e == DeliverRefuse(c) ==> was.Refusing?)
  }

  lemma DeliveryFrame(s: State, e: Event, c: Conn)
    requires Enabled(s, e) && c in Next(s, e).deliveries && Next(s, e).deliveries[c].rid == ""
    ensures if c !in s.deliveries then Next(s, e).deliveries[c].phase == Queueing && e.DeliverBegin? && e.c == c
            else s.deliveries[c].rid == "" && Moves(s, e, c, Next(s, e).deliveries[c].phase)
  {
    hide Moves, Enabled, Next;
    if c !in s.deliveries {
      NewDelivery(s, e, c);
    } else if e.DeliverQueue? || e.DeliverSeeClosed? || e.DeliverRefuse? {
      OwnMoves(s, e, c);
    } else {
      OtherMoves(s, e, c);
    }
  }

  lemma NewDelivery(s: State, e: Event, c: Conn)
    requires Enabled(s, e) && c in Next(s, e).deliveries && Next(s, e).deliveries[c].rid == "" && c !in s.deliveries
    ensures Next(s, e).deliveries[c].phase == Queueing && e.DeliverBegin? && e.c == c
  {
  }

  lemma OwnMoves(s: State, e: Event, c: Conn)
    requires Enabled(s, e) && c in s.deliveries && (e.DeliverQueue? || e.DeliverSeeClosed? || e.DeliverRefuse?)
    ensures c in Next(s, e).deliveries && Next(s, e).deliveries[c].rid == s.deliveries[c].rid
    ensures Moves(s, e, c, Next(s, e).deliveries[c].phase)
  {
  }

  predicate ByOpen(e: Event)
  {
    e.OpenBegin? || e.OpenNumber? || e.OpenRegister? || e.OpenSend? || e.OpenReceive? || e.OpenGiveUp? || e.OpenAbandon?
    || e.OpenDrain? || e.OpenDiscard?
  }

  lemma OpenMovesNone(s: State, e: Event, c: Conn)
    requires Enabled(s, e) && c in s.deliveries && ByOpen(e)
    ensures c in Next(s, e).deliveries && Next(s, e).deliveries[c].rid == s.deliveries[c].rid
    ensures Next(s, e).deliveries[c].phase == s.deliveries[c].phase
  {
  }

  lemma DeliverMoves(s: State, e: Event, c: Conn)
    requires Enabled(s, e) && c in s.deliveries && !ByOpen(e) && !e.DeliverQueue? && !e.DeliverSeeClosed? && !e.DeliverRefuse?
    ensures c in Next(s, e).deliveries && Next(s, e).deliveries[c].rid == s.deliveries[c].rid
    ensures Moves(s, e, c, Next(s, e).deliveries[c].phase)
  {
  }

  lemma OtherMoves(s: State, e: Event, c: Conn)
    requires Enabled(s, e) && c in s.deliveries && !e.DeliverQueue? && !e.DeliverSeeClosed? && !e.DeliverRefuse?
    ensures c in Next(s, e).deliveries && Next(s, e).deliveries[c].rid == s.deliveries[c].rid
    ensures Moves(s, e, c, Next(s, e).deliveries[c].phase)
  {
    hide Next, Enabled;
    if ByOpen(e) { OpenMovesNone(s, e, c); } else { DeliverMoves(s, e, c); }
  }

  lemma {:induction false} NotDeliveredYet(reject: bool, es: seq<Event>, c: Conn)
    requires Run(reject, es).Some? && c !in Run(reject, es).value.deliveries
    ensures DeliverQueue(c) !in es && DeliverSeeClosed(c) !in es && DeliverRefuse(c) !in es
  {
    if es != [] {
      var before, e := es[..|es| - 1], es[|es| - 1];
      assert es == before + [e];
      DeliveriesGrow(Run(reject, before).value, e, c);
      NotDeliveredYet(reject, before, c);
    }
  }

  lemma DeliveriesGrow(s: State, e: Event, c: Conn)
    requires Enabled(s, e) && c !in Next(s, e).deliveries
    ensures c !in s.deliveries
  {
  }

  /** The streams put on acceptCh, in the order of the steps that did it. */
  function QueuedBy(es: seq<Event>): seq<Conn>
  {
    if es == [] then [] else QueuedBy(es[..|es| - 1]) + if es[|es| - 1].DeliverQueue? then [es[|es| - 1].c] else []
  }

  function Accepts(es: seq<Event>): nat
  {
    if es == [] then 0 else Accepts(es[..|es| - 1]) + if es[|es| - 1].AcceptTake? then 1 else 0
  }

  lemma QueueFrame(s: State, e: Event)
    requires Enabled(s, e)
    ensures Next(s, e).queued == s.queued + if e.DeliverQueue? then [e.c] else []
    ensures |Next(s, e).accepted| == |s.accepted| + if e.AcceptTake? then 1 else 0
  {
  }

  /** Accept is a queue over the events: the n-th Accept returns the n-th stream queued. */
  lemma {:induction false} AcceptsInTurn(reject: bool, es: seq<Event>, s: State)
    requires Run(reject, es) == Some(s)
    ensures Accepts(es) <= |QueuedBy(es)| && s.accepted == QueuedBy(es)[..Accepts(es)] && s.acceptQueue == QueuedBy(es)[Accepts(es)..]
  {
    QueueIsEvents(reject, es);
    AcceptIsFifo(reject, es, s);
  }

  lemma {:induction false} QueueIsEvents(reject: bool, es: seq<Event>)
    requires Run(reject, es).Some?
    ensures Run(reject, es).value.queued == QueuedBy(es) && |Run(reject, es).value.accepted| == Accepts(es)
  {
    if es != [] {
      QueueIsEvents(reject, es[..|es| - 1]);
      QueueFrame(Run(reject, es[..|es| - 1]).value, es[|es| - 1]);
    }
  }

  /** What an Open can do next. A waiting one can always time out, can leave once the session
      is closed, and can take a stream that is there. */
  ghost predicate OpenGoesOn(s: State, o: OpenId, closed: bool)
    requires o in s.opens
  {
    match s.opens[o].phase
    case Started => Enabled(s, OpenNumber(o))
    case Numbered => Enabled(s, OpenRegister(o))
    case Requesting => Enabled(s, OpenSend(o, true)) && Enabled(s, OpenSend(o, false))
    case Waiting =>
      && Enabled(s, OpenGiveUp(o, ContextDone))
      && (Enabled(s, OpenGiveUp(o, SessionClosed)) <==> closed)
      && (Enabled(s, OpenReceive(o)) <==> s.opens[o].slot != [])
    case GivingUp(_) => Enabled(s, OpenAbandon(o))
    case Draining(_) => Enabled(s, OpenDrain(o)) || Lost(s, o) || exists c :: DeliveryAt(s, c, Handing(o)) && Enabled(s, DeliverHand(c))
    case Discarding(_, _) => Enabled(s, OpenDiscard(o))
    case Returned(_) => true
    case Failed(_, _) => true
  }

  /** What a delivery can do next. One without a request id waits only while the accept queue
      is full and the session is open. */
  predicate DeliveryGoesOn(s: State, c: Conn, closed: bool)
    requires c in s.deliveries
  {
    match s.deliveries[c].phase
    case Claiming => Enabled(s, DeliverClaim(c))
    case Handing(_) => Enabled(s, DeliverHand(c))
    case Refusing => Enabled(s, DeliverRefuse(c))
    case Queueing =>
      (Enabled(s, DeliverQueue(c)) <==> |s.acceptQueue| < 16) && (Enabled(s, DeliverSeeClosed(c)) <==> closed)
    case Handed(_) => true
    case Refused => true
    case Queued => true
  }

  /** No thread is ever stuck, except an Open whose entry was overwritten. */
  lemma ThreadsGoOn(reject: bool, es: seq<Event>, s: State)
    requires Run(reject, es) == Some(s)
    ensures forall o :: o in s.opens ==> OpenGoesOn(s, o, CloseSession in es)
    ensures forall c :: c in s.deliveries ==> DeliveryGoesOn(s, c, CloseSession in es)
    ensures s.acceptQueue != [] ==> Enabled(s, AcceptTake)
  {
    FlagsAreEvents(reject, es);
    forall c | c in s.deliveries ensures DeliveryGoesOn(s, c, CloseSession in es) { DelivererNeverBlocks(reject, es, s, c); }
    forall o | o in s.opens ensures OpenGoesOn(s, o, CloseSession in es) { OpenNeverStuck(reject, es, s, o); }
  }

  lemma OpenNeverStuck(reject: bool, es: seq<Event>, s: State, o: OpenId)
    requires Run(reject, es) == Some(s) && o in s.opens
    ensures OpenGoesOn(s, o, s.closed)
  {
    WaiterNeverStarves(reject, es, s, o);
    if s.opens[o].phase.Draining? && s.opens[o].slot == [] {
      LostExactly(reject, es, o);
      forall c | DeliveryAt(s, c, Handing(o)) ensures Enabled(s, DeliverHand(c)) { DelivererNeverBlocks(reject, es, s, c); }
    }
  }

  // ------------------------------------------- when can a request id come back?

  function Tickets(es: seq<Event>): nat
  {
    if es == [] then 0 else Tickets(es[..|es| - 1]) + if es[|es| - 1].OpenNumber? then 1 else 0
  }

  /** rid is one of the first n values of openSeq. */
  predicate IsTicket(rid: string, n: nat)
  {
    var v := Decimal.Value(rid);
    v >= 0 && rid == Decimal.Format(v) && (1 <= v <= n || (v == 0 && n == UINT64))
  }

  ghost predicate TicketsOk(s: State, n: nat)
  {
    && n <= UINT64
    && s.openSeq == n % UINT64
    && (forall o :: o in s.opens && s.opens[o].phase.Numbered? ==> s.opens[o].rid != "")
    && (forall o :: o in s.opens && s.opens[o].rid != "" ==> IsTicket(s.opens[o].rid, n))
    && (forall o, q :: o in s.opens && q in s.opens && o != q && s.opens[o].rid == s.opens[q].rid ==> s.opens[o].rid == "")
  }

  lemma NewTicket(n: nat)
    requires n < UINT64
    ensures IsTicket(Decimal.Format((n + 1) % UINT64), n + 1)
  {
    Decimal.ValueOfFormat((n + 1) % UINT64);
  }

  lemma OldTicket(rid: string, n: nat)
    requires n < UINT64 && IsTicket(rid, n)
    ensures IsTicket(rid, n + 1) && rid != Decimal.Format((n + 1) % UINT64)
  {
    Decimal.ValueOfFormat((n + 1) % UINT64);
  }

  lemma NumberTakesFreshTicket(s: State, o: OpenId, n: nat)
    requires TicketsOk(s, n) && n < UINT64 && OpenAt(s, o, Started)
    ensures TicketsOk(Number(s, o), n + 1)
  {
    hide IsTicket, Decimal.Format, Decimal.Value;
    var t, v := Number(s, o), (n + 1) % UINT64;
    assert (s.openSeq + 1) % UINT64 == v;
    NewTicket(n);
    forall q | q in s.opens && s.opens[q].rid != ""
      ensures IsTicket(s.opens[q].rid, n + 1) && s.opens[q].rid != Decimal.Format(v)
    {
      OldTicket(s.opens[q].rid, n);
    }
  }

  /** Only OpenNumber assigns a request id. */
  predicate KeepsRid(s: State, u: State, o: OpenId)
    requires o in u.opens
  {
    if o in s.opens then u.opens[o].rid == s.opens[o].rid && (u.opens[o].phase.Numbered? ==> s.opens[o].phase.Numbered?)
    else u.opens[o].rid == "" && !u.opens[o].phase.Numbered?
  }

  lemma RidsByOpen(s: State, e: Event, o: OpenId)
    requires Enabled(s, e) && ByOpen(e) && !e.OpenNumber? && o in Next(s, e).opens
    ensures KeepsRid(s, Next(s, e), o)
  {
  }

  lemma RidsByOther(s: State, e: Event, o: OpenId)
    requires Enabled(s, e) && !ByOpen(e) && o in Next(s, e).opens
    ensures KeepsRid(s, Next(s, e), o)
  {
  }

  lemma RidsFrame(s: State, e: Event, o: OpenId)
    requires Enabled(s, e) && !e.OpenNumber? && o in Next(s, e).opens
    ensures KeepsRid(s, Next(s, e), o)
  {
    hide Next, Enabled, KeepsRid;
    if ByOpen(e) { RidsByOpen(s, e, o); } else { RidsByOther(s, e, o); }
  }

  lemma SeqFrame(s: State, e: Event)
    requires Enabled(s, e) && !e.OpenNumber?
    ensures Next(s, e).openSeq == s.openSeq
  {
  }

  lemma StepKeepsTickets(s: State, e: Event, n: nat)
    requires TicketsOk(s, n) && Enabled(s, e) && !e.OpenNumber?
    requires Next(s, e).openSeq == s.openSeq
    ensures TicketsOk(Next(s, e), n)
  {
    var t := Next(s, e);
    forall o | o in t.opens
      ensures t.opens[o].phase.Numbered? ==> t.opens[o].rid != ""
      ensures t.opens[o].rid != "" ==> IsTicket(t.opens[o].rid, n)
    {
      RidsFrame(s, e, o);
    }
    forall o, q | o in t.opens && q in t.opens && o != q && t.opens[o].rid == t.opens[q].rid ensures t.opens[o].rid == "" {
      RidsFrame(s, e, o);
      RidsFrame(s, e, q);
    }
  }

  /** A run that draws at most 2^64 request ids never overwrites a pending entry. */
  lemma {:induction false} FewOpensStayClean(reject: bool, es: seq<Event>)
    requires Run(reject, es).Some? && Tickets(es) <= 0x1_0000_0000_0000_0000
    ensures Clean(reject, es) && TicketsOk(Run(reject, es).value, Tickets(es))
  {
    hide Inv, TicketsOk, Overwrites;
    if es != [] {
      var before, e := es[..|es| - 1], es[|es| - 1];
      FewOpensStayClean(reject, before);
      var s, n := Run(reject, before).value, Tickets(before);
      if e.OpenNumber? {
        NumberTakesFreshTicket(s, e.o, n);
      } else {
        SeqFrame(s, e);
        StepKeepsTickets(s, e, n);
      }
      RunKeeps(reject, before);
      TicketsDoNotOverwrite(s, e, n);
    } else {
      NoTicketsYet(reject);
    }
  }

  lemma NoTicketsYet(reject: bool)
    ensures TicketsOk(Initial(reject), 0)
  {
  }

  /** As long as tickets are distinct, the id being registered is nobody else's. */
  lemma TicketsDoNotOverwrite(s: State, e: Event, n: nat)
    requires Inv(s) && TicketsOk(s, n) && Enabled(s, e)
    ensures !Overwrites(s, e)
  {
    hide OpenOk, DeliveryOk, QueueOk, IsTicket;
    if e.OpenRegister? {
      var rid := s.opens[e.o].rid;
      assert rid in s.pending ==> PendingOk(s, rid);
    }
  }

  lemma Extend(reject: bool, es: seq<Event>, s: State, e: Event)
    requires Run(reject, es) == Some(s) && Enabled(s, e)
    ensures Run(reject, es + [e]) == Some(Next(s, e))
  {
    assert (es + [e])[..|es|] == es;
  }

  /** Open 0 waits under request id 1; nobody has delivered anything; k ids are drawn. */
  ghost predicate LoneWaiter(es: seq<Event>, s: State, k: nat)
  {
    && Run(false, es) == Some(s)
    && s.deliveries == map[] && !s.closed && !s.peerRejectsInbound
    && s.pending == map[Decimal.Format(1) := 0]
    && 0 in s.opens && s.opens[0] == Open(Decimal.Format(1), Waiting, [], 0, None)
    && (forall o :: o in s.opens ==> o < k)
    && s.openSeq == k % UINT64
  }

  lemma FirstOpenWaits() returns (es: seq<Event>, s: State)
    ensures LoneWaiter(es, s, 1)
  {
    es, s := [], Initial(false);
    Extend(false, es, s, OpenBegin(0));
    es, s := es + [OpenBegin(0)], Next(s, OpenBegin(0));
    Extend(false, es, s, OpenNumber(0));
    es, s := es + [OpenNumber(0)], Next(s, OpenNumber(0));
    Extend(false, es, s, OpenRegister(0));
    es, s := es + [OpenRegister(0)], Next(s, OpenRegister(0));
    Extend(false, es, s, OpenSend(0, true));
    es, s := es + [OpenSend(0, true)], Next(s, OpenSend(0, true));
  }

  /** No other of the first 2^64 ids is the first one. */
  lemma NotTheFirst(k: nat)
    requires 1 <= k < UINT64
    ensures Decimal.Format((k + 1) % UINT64) != Decimal.Format(1)
  {
    Decimal.ValueOfFormat((k + 1) % UINT64);
    Decimal.ValueOfFormat(1);
  }

  /** Open k draws the next id ... */
  lemma OneOpenDraws(es: seq<Event>, s: State, k: nat) returns (es': seq<Event>, s': State)
    requires LoneWaiter(es, s, k) && 1 <= k < UINT64
    ensures Run(false, es') == Some(s') && OpenAt(s', k, Numbered) && s'.opens[k].rid !in s'.pending
    ensures s'.openSeq == (k + 1) % UINT64 && s' == s.(opens := s'.opens, openSeq := s'.openSeq)
    ensures s'.opens.Keys == s.opens.Keys + {k} && s'.opens[0] == s.opens[0]
  {
    hide Run, Decimal.Format, Decimal.Value;
    NotTheFirst(k);
    Extend(false, es, s, OpenBegin(k));
    es', s' := es + [OpenBegin(k)], Next(s, OpenBegin(k));
    Extend(false, es', s', OpenNumber(k));
    es', s' := es' + [OpenNumber(k)], Next(s', OpenNumber(k));
  }

  /** ... and gives up because its request cannot be sent. */
  lemma OneOpenFails(es: seq<Event>, s: State, k: nat) returns (es': seq<Event>, s': State)
    requires Run(false, es) == Some(s) && OpenAt(s, k, Numbered) && s.opens[k].rid !in s.pending
    ensures Run(false, es') == Some(s') && s' == s.(opens := s'.opens)
    ensures k in s'.opens && s'.opens == s.opens[k := s'.opens[k]]
  {
    Extend(false, es, s, OpenRegister(k));
    es', s' := es + [OpenRegister(k)], Next(s, OpenRegister(k));
    Extend(false, es', s', OpenSend(k, false));
    es', s' := es' + [OpenSend(k, false)], Next(s', OpenSend(k, false));
    Extend(false, es', s', OpenAbandon(k));
    es', s' := es' + [OpenAbandon(k)], Next(s', OpenAbandon(k));
    assert s'.pending == s.pending;
  }

  lemma {:induction false} ManyOpensFail(k: nat) returns (es: seq<Event>, s: State)
    requires 1 <= k <= UINT64
    ensures LoneWaiter(es, s, k)
  {
    if k == 1 {
      es, s := FirstOpenWaits();
    } else {
      es, s := ManyOpensFail(k - 1);
      es, s := OneOpenDraws(es, s, k - 1);
      es, s := OneOpenFails(es, s, k - 1);
    }
  }

  /** Past 2^64 ids the exclusivity argument does fail: some run overwrites a live entry, and
      then a waiter is told it was claimed while nobody claimed it. It drains an empty
      channel forever: no continuation of the run ever serves it. */
  lemma WraparoundStrandsAWaiter() returns (es: seq<Event>, s: State)
    ensures Run(false, es) == Some(s) && Overwritten(false, es, 0) && s.deliveries == map[]
    ensures OpenAt(s, 0, Draining(ContextDone))
    ensures forall later, t :: Run(false, es + later) == Some(t) ==>
              OpenAt(t, 0, Draining(ContextDone)) && t.opens[0].slot == [] && !exists c :: DeliveryAt(t, c, Handing(0))
  {
    es, s := OverwrittenWaiter();
    LostExactly(false, es, 0);
    forall later, t | Run(false, es + later) == Some(t)
      ensures OpenAt(t, 0, Draining(ContextDone)) && t.opens[0].slot == [] && !exists c :: DeliveryAt(t, c, Handing(0))
    {
      LostForever(false, es, later, s, t, 0);
    }
  }

  lemma OverwrittenWaiter() returns (es: seq<Event>, s: State)
    ensures Run(false, es) == Some(s) && s.deliveries == map[]
    ensures OpenAt(s, 0, Draining(ContextDone)) && s.opens[0].claimant == None
  {
    hide Decimal.Format, Decimal.Value, Run;
    es, s := ManyOpensFail(UINT64);
    var k := UINT64;
    Extend(false, es, s, OpenBegin(k));
    es, s := es + [OpenBegin(k)], Next(s, OpenBegin(k));
    Extend(false, es, s, OpenNumber(k));
    es, s := es + [OpenNumber(k)], Next(s, OpenNumber(k));
    Extend(false, es, s, OpenRegister(k));
    es, s := es + [OpenRegister(k)], Next(s, OpenRegister(k));
    Extend(false, es, s, OpenGiveUp(0, ContextDone));
    es, s := es + [OpenGiveUp(0, ContextDone)], Next(s, OpenGiveUp(0, ContextDone));
    Extend(false, es, s, OpenAbandon(0));
    es, s := es + [OpenAbandon(0)], Next(s, OpenAbandon(0));
  }
}
