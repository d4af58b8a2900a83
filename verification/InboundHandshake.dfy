/**
 The double-checked one-time handshake of an inbound session (h2mux and h3mux alike):
 doHandshake and delegate as a step system over any number of concurrent callers. The
 done flag is read before the lock is taken, and the result fields are read without it.
 */
module InboundHandshake {
  import opened Common

  type Caller = nat
  type Session = nat
  type Error = nat

  /** What the handshake body produced. */
  datatype Result = Established(ss: Session) | Refused(err: Error)

  datatype Phase =
    | Begun                      // about to load handshakeDone
    | Seen                       // it was set: about to read handshakeErr without the lock
    | Locking                    // it was clear: about to take the lock
    | Locked                     // about to load handshakeDone again
    | SeenLocked                 // it was set meanwhile: about to read handshakeErr and unlock
    | Running                    // in the handshake body
    | Storing(r: Result)         // about to store ss or handshakeErr
    | Publishing(r: Result)      // about to set handshakeDone
    | Unlocking(r: Result)
    | Passed                     // doHandshake returned nil
    | Failed(err: Error)         // the call returned an error
    | Succeeded                  // Handshake returned nil
    | Delegated(ss: Option<Session>)  // delegate returned what it read from s.ss

  /** implicit callers come through delegate, explicit ones through Handshake; runs counts
      the executions of the handshake body and is history. */
  datatype Call = Call(implicit: bool, phase: Phase)
  datatype State = State(
    mu: Option<Caller>, done: bool, ss: Option<Session>, handshakeErr: Option<Error>,
    calls: map<Caller, Call>, runs: nat)

  datatype Event = Enter(c: Caller, implicit: bool) | Step(c: Caller) | Finish(c: Caller, r: Result)

  predicate Enabled(s: State, e: Event)
  {
    match e
    case Enter(c, _) => c !in s.calls
    case Finish(c, _) => c in s.calls && s.calls[c].phase.Running?
    case Step(c) =>
      c in s.calls &&
      var p := s.calls[c].phase;
      !p.Running? && !p.Failed? && !p.Succeeded? && !p.Delegated? && (p.Locking? ==> s.mu.None?)
  }

  function To(s: State, c: Caller, p: Phase): State
    requires c in s.calls
  {
    s.(calls := s.calls[c := s.calls[c].(phase := p)])
  }

  /** doHandshake returns what it read from handshakeErr. */
  function Verdict(err: Option<Error>): Phase
  {
    match err case None => Passed case Some(e) => Failed(e)
  }

  function Next(s: State, e: Event): State
    requires Enabled(s, e)
  {
    match e
    case Enter(c, implicit) => s.(calls := s.calls[c := Call(implicit, Begun)])
    case Finish(c, r) => To(s, c, Storing(r))
    case Step(c) =>
      match s.calls[c].phase
      case Begun => To(s, c, if s.done then Seen else Locking)
      case Seen => To(s, c, Verdict(s.handshakeErr))
      case Locking => To(s, c, Locked).(mu := Some(c))
      case Locked => if s.done then To(s, c, SeenLocked) else To(s, c, Running).(runs := s.runs + 1)
      case SeenLocked => To(s, c, Verdict(s.handshakeErr)).(mu := None)
      case Storing(r) =>
        var u := To(s, c, Publishing(r));
        (match r case Established(x) => u.(ss := Some(x)) case Refused(x) => u.(handshakeErr := Some(x)))
      case Publishing(r) => To(s, c, Unlocking(r)).(done := true)
      case Unlocking(r) => To(s, c, if r.Refused? then Failed(r.err) else Passed).(mu := None)
      case Passed => To(s, c, if s.calls[c].implicit then Delegated(s.ss) else Succeeded)
      case _ => s
  }

  const INITIAL := State(None, false, None, None, map[], 0)

  function Run(es: seq<Event>): Option<State>
  {
    if es == [] then Some(INITIAL) else
    match Run(es[..|es| - 1])
    case None => None
    case Some(s) => if Enabled(s, es[|es| - 1]) then Some(Next(s, es[|es| - 1])) else None
  }

  // ---------------------------------------------------------------- invariant

  predicate HoldsLock(p: Phase)
  {
    p.Locked? || p.SeenLocked? || p.Running? || p.Storing? || p.Publishing? || p.Unlocking?
  }

  /** The result fields hold r. */
  predicate Stored(s: State, r: Result)
  {
    match r
    case Established(x) => s.ss == Some(x) && s.handshakeErr.None?
    case Refused(x) => s.ss.None? && s.handshakeErr == Some(x)
  }

  predicate Untouched(s: State) { !s.done && s.ss.None? && s.handshakeErr.None? }

  predicate CallOk(s: State, c: Caller)
  {
    c in s.calls &&
    var p := s.calls[c].phase;
    && (HoldsLock(p) ==> s.mu == Some(c))
    && match p
       case Begun => true
       case Locking => true
       case Locked => true
       case Seen => s.done
       case SeenLocked => s.done
       case Running => Untouched(s) && s.runs == 1
       case Storing(_) => Untouched(s) && s.runs == 1
       case Publishing(r) => !s.done && Stored(s, r) && s.runs == 1
       case Unlocking(r) => s.done && Stored(s, r)
       case Passed => s.done && s.handshakeErr.None?
       case Succeeded => s.done && s.handshakeErr.None?
       case Failed(x) => s.done && s.handshakeErr == Some(x)
       case Delegated(x) => s.done && s.handshakeErr.None? && x == s.ss
  }

  /** Where the body is: not started, under way by the lock holder, or over for good. */
  predicate FieldsOk(s: State)
  {
    && (s.mu.Some? ==> s.mu.value in s.calls && HoldsLock(s.calls[s.mu.value].phase))
    && (s.done ==> s.runs == 1 && (s.ss.Some? <==> s.handshakeErr.None?))
    && (!s.done ==>
          if s.mu.Some? && !s.calls[s.mu.value].phase.Locked? then s.runs == 1
          else s.runs == 0 && Untouched(s))
  }

  ghost predicate Inv(s: State)
  {
    FieldsOk(s) && forall c :: c in s.calls ==> CallOk(s, c)
  }

  lemma StepKeeps(s: State, e: Event)
    requires Inv(s) && Enabled(s, e)
    ensures Inv(Next(s, e))
  {
    var u := Next(s, e);
    if !e.Enter? {
      assert CallOk(s, e.c);
    }
    forall c | c in u.calls ensures CallOk(u, c) {
      assert c in s.calls ==> CallOk(s, c);
    }
  }

  lemma {:induction false} RunKeeps(es: seq<Event>)
    requires Run(es).Some?
    ensures Inv(Run(es).value)
  {
    if es != [] {
      RunKeeps(es[..|es| - 1]);
      StepKeeps(Run(es[..|es| - 1]).value, es[|es| - 1]);
    }
  }

  predicate Returned(p: Phase) { p.Failed? || p.Succeeded? || p.Delegated? }

  /** What the runs of the handshake body produced, in order. */
  function Results(es: seq<Event>): seq<Result>
  {
    if es == [] then [] else
    Results(es[..|es| - 1]) + if es[|es| - 1].Finish? then [es[|es| - 1].r] else []
  }

  /** Where the results of the body are to be found: nowhere yet, with the caller that is
      about to publish, or in the fields. */
  predicate ResultsOk(s: State, rs: seq<Result>)
    requires FieldsOk(s)
  {
    if s.done then |rs| == 1 && Stored(s, rs[0])
    else if s.mu.Some? && s.calls[s.mu.value].phase.Storing? then rs == [s.calls[s.mu.value].phase.r]
    else if s.mu.Some? && s.calls[s.mu.value].phase.Publishing? then rs == [s.calls[s.mu.value].phase.r]
    else rs == []
  }

  lemma StepKeepsResults(s: State, e: Event, rs: seq<Result>)
    requires Inv(s) && Enabled(s, e) && ResultsOk(s, rs) && FieldsOk(Next(s, e))
    ensures ResultsOk(Next(s, e), rs + if e.Finish? then [e.r] else [])
  {
    if !e.Enter? { assert CallOk(s, e.c); }
    if s.mu.Some? { assert CallOk(s, s.mu.value); }
    if !e.Finish? { assert rs + [] == rs; }
  }

  lemma {:induction false} RunKeepsResults(es: seq<Event>)
    requires Run(es).Some?
    ensures Inv(Run(es).value) && ResultsOk(Run(es).value, Results(es))
  {
    RunKeeps(es);
    if es != [] {
      RunKeepsResults(es[..|es| - 1]);
      StepKeepsResults(Run(es[..|es| - 1]).value, es[|es| - 1], Results(es[..|es| - 1]));
    }
  }

  /** What a call that returned reports about the body's result: its error to everybody, the
      session to delegate, and only success to Handshake. */
  predicate Reports(implicit: bool, p: Phase, r: Result)
  {
    match r
    case Refused(x) => p == Failed(x)
    case Established(x) => if implicit then p == Delegated(Some(x)) else p == Succeeded
  }

  predicate KindOk(c: Call) { (c.phase.Delegated? ==> c.implicit) && (c.phase.Succeeded? ==> !c.implicit) }

  /** A call is what its Enter made it. */
  lemma {:induction false} KindIsKept(es: seq<Event>, c: Caller)
    requires Run(es).Some?
    ensures var s := Run(es).value; c in s.calls ==> (s.calls[c].implicit <==> Enter(c, true) in es) && KindOk(s.calls[c])
    ensures c !in Run(es).value.calls ==> Enter(c, true) !in es
  {
    if es != [] {
      var before, e := es[..|es| - 1], es[|es| - 1];
      KindIsKept(before, c);
      assert es == before + [e];
    }
  }

  /** Once any call has returned, the body has run exactly once and finished once, and the
      call reports what it produced: the same error to every caller, or no error and, to
      delegate, the one established session, which is also the one left in the fields. */
  lemma HandshakeOnce(es: seq<Event>, s: State, c: Caller)
    requires Run(es) == Some(s) && c in s.calls && Returned(s.calls[c].phase)
    ensures s.runs == 1 && |Results(es)| == 1
    ensures Reports(Enter(c, true) in es, s.calls[c].phase, Results(es)[0]) && Stored(s, Results(es)[0])
  {
    RunKeepsResults(es);
    KindIsKept(es, c);
    assert CallOk(s, c);
  }

  lemma BodyRunsAtMostOnce(es: seq<Event>, s: State)
    requires Run(es) == Some(s)
    ensures s.runs <= 1
    ensures forall c, d :: c in s.calls && d in s.calls && s.calls[c].phase.Running? && s.calls[d].phase.Running? ==> c == d
  {
    RunKeeps(es);
    forall c, d | c in s.calls && d in s.calls && s.calls[c].phase.Running? && s.calls[d].phase.Running? ensures c == d {
      assert CallOk(s, c) && CallOk(s, d);
    }
  }

  /** How many steps a call still has ahead of it, at most. */
  function Ahead(p: Phase): nat
  {
    match p
    case Begun => 9
    case Locking => 8
    case Locked => 7
    case Running => 6
    case Storing(_) => 5
    case Publishing(_) => 4
    case Unlocking(_) => 3
    case SeenLocked => 3
    case Seen => 3
    case Passed => 1
    case _ => 0
  }

  /** Every call gets on: unless it has returned it has a step, or waits for a lock whose
      holder has one; and every step brings the call that takes it nearer to its return. */
  lemma CallsGoOn(es: seq<Event>, s: State, c: Caller)
    requires Run(es) == Some(s) && c in s.calls
    ensures Ahead(s.calls[c].phase) > 0 ==> CanMove(s, c) || (s.calls[c].phase.Locking? && s.mu.Some? && CanMove(s, s.mu.value))
    ensures forall e :: Enabled(s, e) && !e.Enter? && e.c == c ==> Ahead(Next(s, e).calls[c].phase) < Ahead(s.calls[c].phase)
    ensures Ahead(s.calls[c].phase) == 0 <==> Returned(s.calls[c].phase)
  {
    RunKeeps(es);
    assert CallOk(s, c);
    if s.mu.Some? { assert CallOk(s, s.mu.value); }
  }

  ghost predicate CanMove(s: State, c: Caller)
  {
    Enabled(s, Step(c)) || forall r :: Enabled(s, Finish(c, r))
  }

  /** A call that starts after the handshake is done never takes the lock. */
  lemma {:induction false} NoLockOnceDone(es: seq<Event>, later: seq<Event>, s: State, u: State, c: Caller)
    requires Run(es) == Some(s) && Run(es + later) == Some(u) && s.done && c !in s.calls
    ensures u.done
    ensures c in u.calls ==> !HoldsLock(u.calls[c].phase) && !u.calls[c].phase.Locking?
  {
    if later == [] {
      assert es + later == es;
    } else {
      var all, before := es + later, later[..|later| - 1];
      assert all[..|all| - 1] == es + before;
      NoLockOnceDone(es, before, s, Run(es + before).value, c);
    }
  }
}
