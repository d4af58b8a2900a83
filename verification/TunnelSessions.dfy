/**
 Sessions of any number of tunnels: dial, addSession, finalizeSession, Stop, and the
 accounting of accepted sessions in serveSession, as a step system over any number of
 concurrent calls.

 One step is one lock region, one atomic operation, one goroutine launch or one
 session.Close. Closing a session is idempotent and permanent, and any session may close
 at any step: that covers the peer, the network, checkIdle, run's deferred close and the
 group's closer. addSession tests closeSig and installs under one lock, but Stop closes
 closeSig without it, so the two halves of addSession are separate steps here.
 */
module TunnelSessions {
  import opened Common
  import opened Counting

  type TunnelId = nat
  type DialId = nat     // one dial call
  type SessionId = nat

  const UINT32 := 0x1_0000_0000

  datatype StopPhase =
    | NotStopped
    | Signalled                          // closeSig is closed
    | Snapshot(ss: Option<SessionId>)    // t.ss was read
    | Stopped                            // Stop returned

  datatype Tunnel = Tunnel(ss: Option<SessionId>, stop: StopPhase, mu: Option<DialId>, dialMu: Option<DialId>)

  datatype DialResult = Ok | DialInProgress | DialFailed | TunnelStopped | LaunchFailed

  /** Progress of one run of finalizeSession, or of serveSession's deferred accounting. */
  datatype Final =
    | Absent
    | Waiting      // before the lock region
    | Flushing
    | Uncounting   // about to do numSessions.Add(-1)
    | Tallying     // about to do numSessionsFinalized.Add(1)
    | Gone

  datatype DialPhase =
    | Dialing
    | Produced(x: SessionId)      // the dialer returned a session
    | Installing(x: SessionId)    // in addSession, holding t.mu, closeSig was open
    | Installed(x: SessionId)     // t.ss assigned, t.mu released
    | CountedUp(x: SessionId)     // numSessions.Add(1) done
    | Recorded(x: SessionId)      // numSessionsCreated.Add(1) done
    | Watched(x: SessionId)       // watcher launched
    | Guarded(x: SessionId)       // closer launched
    | Rejecting(x: SessionId)     // addSession returned false: about to Close
    | Dropping(x: SessionId)      // watcher launch failed: about to Close
    | Inline(x: SessionId, f: Final)
    | Abandoning(x: SessionId)    // a later launch failed: about to Close
    | Returned(res: DialResult, produced: Option<SessionId>)

  datatype Dial = Dial(t: TunnelId, phase: DialPhase)

  datatype Origin = Outbound(t: TunnelId, d: DialId) | Inbound

  datatype ServePhase = NotServing | Counting | Creating | Serving | Ending(f: Final)

  /** installed and the five counters are history: no step reads them. */
  datatype Session = Session(
    origin: Origin, open: bool, watcher: Final, serve: ServePhase,
    installed: bool, ups: nat, creates: nat, flushes: nat, downs: nat, tallies: nat)

  datatype State = State(
    tunnels: map<TunnelId, Tunnel>, dials: map<DialId, Dial>, sessions: map<SessionId, Session>,
    numSessions: nat, created: nat, finalized: nat)

  /** Who is running a finalization. */
  datatype Actor = Watcher(x: SessionId) | Dialer(d: DialId) | Server(x: SessionId)

  datatype Event =
    | NewTunnel(t: TunnelId)
    | DialBegin(d: DialId, t: TunnelId) | DialFail(d: DialId) | DialSucceed(d: DialId, x: SessionId)
    | AddCheck(d: DialId) | AddInstall(d: DialId) | AddCount(d: DialId) | AddCreate(d: DialId)
    | LaunchWatcher(d: DialId, ok: bool) | LaunchCloser(d: DialId, ok: bool) | LaunchAccept(d: DialId, ok: bool)
    | CloseOwn(d: DialId)
    | StopSignal(t: TunnelId) | StopRead(t: TunnelId) | StopClose(t: TunnelId)
    | SessionCloses(x: SessionId)
    | ServeBegin(x: SessionId) | ServeCount(x: SessionId) | ServeCreate(x: SessionId) | ServeEnd(x: SessionId)
    | FinalizeLock(a: Actor) | Flush(a: Actor) | Uncount(a: Actor) | Tally(a: Actor)

  /** The session an actor finalizes and how far it has got, if there is such an actor. */
  function Progress(s: State, a: Actor): Option<(SessionId, Final)>
  {
    match a
    case Watcher(x) => if x in s.sessions then Some((x, s.sessions[x].watcher)) else None
    case Server(x) =>
      if x in s.sessions && s.sessions[x].serve.Ending? then Some((x, s.sessions[x].serve.f)) else None
    case Dialer(d) =>
      if d in s.dials && s.dials[d].phase.Inline? then Some((s.dials[d].phase.x, s.dials[d].phase.f)) else None
  }

  predicate At(s: State, a: Actor, f: Final)
  {
    var p := Progress(s, a);
    p.Some? && p.value.1 == f && p.value.0 in s.sessions
  }

  predicate In(s: State, d: DialId) { d in s.dials && s.dials[d].t in s.tunnels }

  /** The session the dial call is responsible for. */
  function Sess(p: DialPhase): Option<SessionId>
  {
    match p
    case Dialing => None
    case Returned(_, x) => x
    case _ => Some(p.x)
  }

  /** The dial call is known, its tunnel is known, and so is the session it works on. */
  predicate Busy(s: State, d: DialId)
  {
    In(s, d) && !s.dials[d].phase.Dialing? && !s.dials[d].phase.Returned? && s.dials[d].phase.x in s.sessions
  }

  /** When a step may happen; a step that takes t.mu needs it free. The tests that an id a
      thread holds is a known one exclude nothing: see DialNeverStuck and
      FinalizationNeverStuck. */
  predicate Enabled(s: State, e: Event)
  {
    match e
    case NewTunnel(t) => t !in s.tunnels
    case DialBegin(d, t) => d !in s.dials && t in s.tunnels
    case DialFail(d) => In(s, d) && s.dials[d].phase.Dialing?
    case DialSucceed(d, x) => In(s, d) && s.dials[d].phase.Dialing? && x !in s.sessions
    case AddCheck(d) => Busy(s, d) && s.dials[d].phase.Produced? && s.tunnels[s.dials[d].t].mu.None?
    case AddInstall(d) => Busy(s, d) && s.dials[d].phase.Installing?
    case AddCount(d) => Busy(s, d) && s.dials[d].phase.Installed?
    case AddCreate(d) => Busy(s, d) && s.dials[d].phase.CountedUp?
    case LaunchWatcher(d, _) => Busy(s, d) && s.dials[d].phase.Recorded?
    case LaunchCloser(d, _) => Busy(s, d) && s.dials[d].phase.Watched?
    case LaunchAccept(d, _) => Busy(s, d) && s.dials[d].phase.Guarded?
    case CloseOwn(d) =>
      Busy(s, d) && (s.dials[d].phase.Rejecting? || s.dials[d].phase.Dropping? || s.dials[d].phase.Abandoning?)
    case StopSignal(t) => t in s.tunnels && s.tunnels[t].stop.NotStopped?
    case StopRead(t) => t in s.tunnels && s.tunnels[t].stop.Signalled? && s.tunnels[t].mu.None?
    case StopClose(t) => t in s.tunnels && s.tunnels[t].stop.Snapshot?
    case SessionCloses(x) => x in s.sessions
    case ServeBegin(x) => x !in s.sessions
    case ServeCount(x) => x in s.sessions && s.sessions[x].serve.Counting?
    case ServeCreate(x) => x in s.sessions && s.sessions[x].serve.Creating?
    case ServeEnd(x) => x in s.sessions && s.sessions[x].serve.Serving?
    case FinalizeLock(a) =>
      && At(s, a, Waiting)
      && !a.Server?
      && (a.Watcher? ==> !s.sessions[a.x].open)
      && var o := s.sessions[Progress(s, a).value.0].origin;
         o.Outbound? && o.t in s.tunnels && s.tunnels[o.t].mu.None?
    case Flush(a) => At(s, a, Flushing)
    case Uncount(a) => At(s, a, Uncounting)
    case Tally(a) => At(s, a, Tallying) && (a.Dialer? ==> In(s, a.d))
  }

  function WithDial(s: State, d: DialId, p: DialPhase): State
    requires d in s.dials
  {
    s.(dials := s.dials[d := s.dials[d].(phase := p)])
  }

  function WithTunnel(s: State, t: TunnelId, v: Tunnel): State { s.(tunnels := s.tunnels[t := v]) }

  function WithSession(s: State, x: SessionId, v: Session): State { s.(sessions := s.sessions[x := v]) }

  function ClosedSession(s: State, o: Option<SessionId>): State
  {
    if o.Some? && o.value in s.sessions then WithSession(s, o.value, s.sessions[o.value].(open := false)) else s
  }

  /** dial returns: record the result and release dialMu. */
  function Return(s: State, d: DialId, res: DialResult, produced: Option<SessionId>): State
    requires In(s, d)
  {
    var t := s.dials[d].t;
    WithTunnel(WithDial(s, d, Returned(res, produced)), t, s.tunnels[t].(dialMu := None))
  }

  function SetProgress(s: State, a: Actor, f: Final): State
    requires Progress(s, a).Some?
  {
    match a
    case Watcher(x) => WithSession(s, x, s.sessions[x].(watcher := f))
    case Server(x) => WithSession(s, x, s.sessions[x].(serve := Ending(f)))
    case Dialer(d) => WithDial(s, d, Inline(s.dials[d].phase.x, f))
  }

  /** addSession, first half: take t.mu and test closeSig. */
  function Check(s: State, d: DialId): State
    requires Busy(s, d)
  {
    var t, x := s.dials[d].t, s.dials[d].phase.x;
    if !s.tunnels[t].stop.NotStopped? then WithDial(s, d, Rejecting(x))
    else WithTunnel(WithDial(s, d, Installing(x)), t, s.tunnels[t].(mu := Some(d)))
  }

  /** addSession, second half: close what is there, install x, release t.mu. */
  function Install(s: State, d: DialId): State
    requires Busy(s, d)
  {
    var t, x := s.dials[d].t, s.dials[d].phase.x;
    var u := ClosedSession(s, s.tunnels[t].ss);
    WithTunnel(
      WithDial(WithSession(u, x, u.sessions[x].(installed := true)), d, Installed(x)),
      t, s.tunnels[t].(ss := Some(x), mu := None))
  }

  function CountUp(s: State, x: SessionId): State
    requires x in s.sessions
  {
    WithSession(s, x, s.sessions[x].(ups := s.sessions[x].ups + 1)).(numSessions := (s.numSessions + 1) % UINT32)
  }

  function CreateUp(s: State, x: SessionId): State
    requires x in s.sessions
  {
    WithSession(s, x, s.sessions[x].(creates := s.sessions[x].creates + 1)).(created := s.created + 1)
  }

  /** Close the session of a dial that is giving up, and go on accordingly. */
  function GiveUp(s: State, d: DialId): State
    requires Busy(s, d)
  {
    var p := s.dials[d].phase;
    var u := ClosedSession(s, Some(p.x));
    if p.Dropping? then WithDial(u, d, Inline(p.x, Waiting))
    else Return(u, d, if p.Rejecting? then TunnelStopped else LaunchFailed, Some(p.x))
  }

  function LockRegion(s: State, a: Actor): State
    requires Progress(s, a).Some?
  {
    var x := Progress(s, a).value.0;
    var u := SetProgress(s, a, Flushing);
    if x in s.sessions && s.sessions[x].origin.Outbound? && s.sessions[x].origin.t in s.tunnels
       && s.tunnels[s.sessions[x].origin.t].ss == Some(x)
    then WithTunnel(u, s.sessions[x].origin.t, s.tunnels[s.sessions[x].origin.t].(ss := None))
    else u
  }

  function FlushStep(s: State, a: Actor): State
    requires Progress(s, a).Some? && Progress(s, a).value.0 in s.sessions
  {
    var x := Progress(s, a).value.0;
    var u := SetProgress(s, a, Uncounting);
    WithSession(u, x, u.sessions[x].(flushes := u.sessions[x].flushes + 1))
  }

  /** numSessions.Add(^uint32(0)) */
  function UncountStep(s: State, a: Actor): State
    requires Progress(s, a).Some? && Progress(s, a).value.0 in s.sessions
  {
    var x := Progress(s, a).value.0;
    var u := SetProgress(s, a, Tallying);
    WithSession(u, x, u.sessions[x].(downs := u.sessions[x].downs + 1))
      .(numSessions := (s.numSessions + UINT32 - 1) % UINT32)
  }

  function TallyStep(s: State, a: Actor): State
    requires Progress(s, a).Some? && Progress(s, a).value.0 in s.sessions && (a.Dialer? ==> In(s, a.d))
  {
    var x := Progress(s, a).value.0;
    var u := if a.Dialer? then Return(s, a.d, LaunchFailed, Some(x)) else SetProgress(s, a, Gone);
    WithSession(u, x, u.sessions[x].(tallies := u.sessions[x].tallies + 1)).(finalized := s.finalized + 1)
  }

  const NEW_SESSION := Session(Inbound, true, Absent, NotServing, false, 0, 0, 0, 0, 0)

  function Next(s: State, e: Event): State
    requires Enabled(s, e)
  {
    match e
    case NewTunnel(t) => WithTunnel(s, t, Tunnel(None, NotStopped, None, None))
    case DialBegin(d, t) =>
      if s.tunnels[t].dialMu.Some? then s.(dials := s.dials[d := Dial(t, Returned(DialInProgress, None))])
      else WithTunnel(s.(dials := s.dials[d := Dial(t, Dialing)]), t, s.tunnels[t].(dialMu := Some(d)))
    case DialFail(d) => Return(s, d, DialFailed, None)
    case DialSucceed(d, x) =>
      WithSession(WithDial(s, d, Produced(x)), x, NEW_SESSION.(origin := Outbound(s.dials[d].t, d)))
    case AddCheck(d) => Check(s, d)
    case AddInstall(d) => Install(s, d)
    case AddCount(d) => CountUp(WithDial(s, d, CountedUp(s.dials[d].phase.x)), s.dials[d].phase.x)
    case AddCreate(d) => CreateUp(WithDial(s, d, Recorded(s.dials[d].phase.x)), s.dials[d].phase.x)
    case LaunchWatcher(d, ok) =>
      var x := s.dials[d].phase.x;
      if ok then WithSession(WithDial(s, d, Watched(x)), x, s.sessions[x].(watcher := Waiting))
      else WithDial(s, d, Dropping(x))
    case LaunchCloser(d, ok) => WithDial(s, d, if ok then Guarded(s.dials[d].phase.x) else Abandoning(s.dials[d].phase.x))
    case LaunchAccept(d, ok) =>
      if ok then Return(s, d, Ok, Some(s.dials[d].phase.x)) else WithDial(s, d, Abandoning(s.dials[d].phase.x))
    case CloseOwn(d) => GiveUp(s, d)
    case StopSignal(t) => WithTunnel(s, t, s.tunnels[t].(stop := Signalled))
    case StopRead(t) => WithTunnel(s, t, s.tunnels[t].(stop := Snapshot(s.tunnels[t].ss)))
    case StopClose(t) =>
      WithTunnel(ClosedSession(s, s.tunnels[t].stop.ss), t, s.tunnels[t].(stop := Stopped))
    case SessionCloses(x) => ClosedSession(s, Some(x))
    case ServeBegin(x) => WithSession(s, x, NEW_SESSION.(serve := Counting))
    case ServeCount(x) => CountUp(WithSession(s, x, s.sessions[x].(serve := Creating)), x)
    case ServeCreate(x) => CreateUp(WithSession(s, x, s.sessions[x].(serve := Serving)), x)
    case ServeEnd(x) => WithSession(s, x, s.sessions[x].(serve := Ending(Flushing)))
    case FinalizeLock(a) => LockRegion(s, a)
    case Flush(a) => FlushStep(s, a)
    case Uncount(a) => UncountStep(s, a)
    case Tally(a) => TallyStep(s, a)
  }

  const INITIAL := State(map[], map[], map[], 0, 0, 0)

  function Run(es: seq<Event>): Option<State>
  {
    if es == [] then Some(INITIAL) else
    match Run(es[..|es| - 1])
    case None => None
    case Some(s) => if Enabled(s, es[|es| - 1]) then Some(Next(s, es[|es| - 1])) else None
  }

  // ---------------------------------------------------------------- invariant

  predicate Begun(f: Final) { f.Flushing? || f.Uncounting? || f.Tallying? || f.Gone? }

  /** The session's five history counters, for a finalization that got as far as f. */
  predicate Books(v: Session, up: nat, create: nat, f: Final)
  {
    && v.ups == up && v.creates == create
    && v.flushes == (if f.Uncounting? || f.Tallying? || f.Gone? then 1 else 0)
    && v.downs == (if f.Tallying? || f.Gone? then 1 else 0)
    && v.tallies == (if f.Gone? then 1 else 0)
  }

  predicate WatcherBooks(v: Session)
  {
    !v.watcher.Absent? && Books(v, 1, 1, v.watcher) && (Begun(v.watcher) ==> !v.open)
  }

  /** What an outbound session looks like when its dial call is at p. */
  predicate OutboundOk(v: Session, p: DialPhase)
  {
    && v.serve.NotServing?
    && match p
       case Dialing => false
       case Produced(_) => !v.installed && v.watcher.Absent? && Books(v, 0, 0, Absent)
       case Installing(_) => !v.installed && v.watcher.Absent? && Books(v, 0, 0, Absent)
       case Rejecting(_) => !v.installed && v.watcher.Absent? && Books(v, 0, 0, Absent)
       case Installed(_) => v.installed && v.watcher.Absent? && Books(v, 0, 0, Absent)
       case CountedUp(_) => v.installed && v.watcher.Absent? && Books(v, 1, 0, Absent)
       case Recorded(_) => v.installed && v.watcher.Absent? && Books(v, 1, 1, Absent)
       case Dropping(_) => v.installed && v.watcher.Absent? && Books(v, 1, 1, Absent)
       case Watched(_) => v.installed && WatcherBooks(v)
       case Guarded(_) => v.installed && WatcherBooks(v)
       case Abandoning(_) => v.installed && WatcherBooks(v)
       case Inline(_, f) => v.installed && v.watcher.Absent? && !v.open && !f.Absent? && !f.Gone? && Books(v, 1, 1, f)
       case Returned(res, _) =>
         match res
         case Ok => v.installed && WatcherBooks(v)
         case TunnelStopped => !v.installed && !v.open && v.watcher.Absent? && Books(v, 0, 0, Absent)
         case LaunchFailed =>
           v.installed && !v.open && (WatcherBooks(v) || (v.watcher.Absent? && Books(v, 1, 1, Gone)))
         case _ => false
  }

  predicate InboundOk(v: Session)
  {
    && v.watcher.Absent? && !v.installed
    && match v.serve
       case NotServing => false
       case Counting => Books(v, 0, 0, Absent)
       case Creating => Books(v, 1, 0, Absent)
       case Serving => Books(v, 1, 1, Absent)
       case Ending(f) => Begun(f) && Books(v, 1, 1, f)
  }

  /** Its finalization has not passed the lock region that clears t.ss. */
  predicate NotCleared(v: Session, p: DialPhase)
  {
    !Begun(v.watcher) && !(p.Inline? && Begun(p.f)) && !(p.Returned? && v.watcher.Absent?)
  }

  predicate SessionOk(s: State, x: SessionId)
  {
    x in s.sessions &&
    var v := s.sessions[x];
    match v.origin
    case Inbound => InboundOk(v)
    case Outbound(t, d) =>
      && t in s.tunnels && d in s.dials && s.dials[d].t == t && Sess(s.dials[d].phase) == Some(x)
      && OutboundOk(v, s.dials[d].phase)
      && (v.installed && v.open ==> s.tunnels[t].ss == Some(x))
      && (s.tunnels[t].ss == Some(x) ==> v.installed && NotCleared(v, s.dials[d].phase))
  }

  predicate DialOk(s: State, d: DialId)
  {
    d in s.dials &&
    var t, p := s.dials[d].t, s.dials[d].phase;
    && t in s.tunnels
    && (Sess(p).Some? ==> Sess(p).value in s.sessions && s.sessions[Sess(p).value].origin == Outbound(t, d))
    && (s.tunnels[t].dialMu == Some(d) <==> !p.Returned?)
    && (p.Installing? ==> s.tunnels[t].mu == Some(d))
    && (p.Returned? ==> (p.produced.None? <==> p.res == DialInProgress || p.res == DialFailed))
  }

  predicate TunnelOk(s: State, t: TunnelId)
  {
    t in s.tunnels &&
    var v := s.tunnels[t];
    && (v.mu.Some? ==> v.mu.value in s.dials && s.dials[v.mu.value].t == t && s.dials[v.mu.value].phase.Installing?)
    && (v.mu.Some? ==> v.stop.NotStopped? || v.stop.Signalled?)
    && (v.ss.Some? ==> v.ss.value in s.sessions && s.sessions[v.ss.value].origin.Outbound? && s.sessions[v.ss.value].origin.t == t)
    && (v.stop.Snapshot? ==> v.ss.None? || v.ss == v.stop.ss)
    && (v.stop.Stopped? && v.ss.Some? ==> !s.sessions[v.ss.value].open)
    && (v.dialMu.Some? ==> v.dialMu.value in s.dials && s.dials[v.dialMu.value].t == t)
  }

  ghost predicate Shape(s: State)
  {
    && (forall x :: x in s.sessions ==> SessionOk(s, x))
    && (forall d :: d in s.dials ==> DialOk(s, d))
    && (forall t :: t in s.tunnels ==> TunnelOk(s, t))
  }

  // -------------------------------------------- one step touches few entries

  /** How the step of dial d, or of the sessions xs, may change the tunnel entry v to w. */
  predicate TunnelMove(s: State, v: Tunnel, w: Tunnel, ds: set<DialId>, xs: set<SessionId>)
  {
    && (w.dialMu == v.dialMu || (v.dialMu.Some? && v.dialMu.value in ds && w.dialMu.None?)
        || (v.dialMu.None? && w.dialMu.Some? && w.dialMu.value in ds))
    && (w.mu == v.mu || (v.mu.Some? && v.mu.value in ds && w.mu.None?) || (v.mu.None? && w.mu.Some? && w.mu.value in ds))
    && (w.ss == v.ss || (v.ss.Some? && v.ss.value in xs && w.ss.None?)
        || (w.ss.Some? && w.ss.value in xs && (v.ss.None? || (v.ss.value in s.sessions && !s.sessions[v.ss.value].open))))
  }

  /** u differs from s only at tunnels ts, dials ds and sessions xs, in an orderly way. */
  ghost predicate Patch(s: State, u: State, ts: set<TunnelId>, ds: set<DialId>, xs: set<SessionId>)
  {
    && s.tunnels.Keys <= u.tunnels.Keys && s.dials.Keys <= u.dials.Keys && s.sessions.Keys <= u.sessions.Keys
    && (forall t :: t in u.tunnels && t !in ts ==> t in s.tunnels && u.tunnels[t] == s.tunnels[t])
    && (forall d :: d in u.dials && d !in ds ==> d in s.dials && u.dials[d] == s.dials[d])
    && (forall x :: x in u.sessions && x !in xs ==> x in s.sessions && u.sessions[x] == s.sessions[x])
    && (forall t :: t in ts && t in s.tunnels ==> TunnelMove(s, s.tunnels[t], u.tunnels[t], ds, xs))
    && (forall d :: d in ds && d in s.dials ==>
          && u.dials[d].t == s.dials[d].t && u.dials[d].t in ts
          && (Sess(s.dials[d].phase).None? || Sess(s.dials[d].phase).value in xs))
    && (forall x :: x in xs && x in s.sessions ==>
          && u.sessions[x].origin == s.sessions[x].origin
          && (s.sessions[x].origin.Outbound? ==> s.sessions[x].origin.t in ts && s.sessions[x].origin.d in ds))
  }

  lemma PatchSession(s: State, u: State, ts: set<TunnelId>, ds: set<DialId>, xs: set<SessionId>, x: SessionId)
    requires Shape(s) && Patch(s, u, ts, ds, xs) && x in u.sessions && x !in xs
    ensures SessionOk(u, x)
  {
    assert SessionOk(s, x);
  }

  lemma PatchDial(s: State, u: State, ts: set<TunnelId>, ds: set<DialId>, xs: set<SessionId>, d: DialId)
    requires Shape(s) && Patch(s, u, ts, ds, xs) && d in u.dials && d !in ds
    ensures DialOk(u, d)
  {
    assert DialOk(s, d);
  }

  lemma PatchTunnel(s: State, u: State, ts: set<TunnelId>, ds: set<DialId>, xs: set<SessionId>, t: TunnelId)
    requires Shape(s) && Patch(s, u, ts, ds, xs) && t in u.tunnels && t !in ts
    ensures TunnelOk(u, t)
  {
    assert TunnelOk(s, t);
  }

  /** If u patches s and the touched entries are in order, so is all of u. */
  lemma PatchKeeps(s: State, u: State, ts: set<TunnelId>, ds: set<DialId>, xs: set<SessionId>)
    requires Shape(s) && Patch(s, u, ts, ds, xs)
    requires forall x :: x in xs ==> SessionOk(u, x)
    requires forall d :: d in ds ==> DialOk(u, d)
    requires forall t :: t in ts ==> TunnelOk(u, t)
    ensures Shape(u)
  {
    forall x | x in u.sessions ensures SessionOk(u, x) { if x !in xs { PatchSession(s, u, ts, ds, xs, x); } }
    forall d | d in u.dials ensures DialOk(u, d) { if d !in ds { PatchDial(s, u, ts, ds, xs, d); } }
    forall t | t in u.tunnels ensures TunnelOk(u, t) { if t !in ts { PatchTunnel(s, u, ts, ds, xs, t); } }
  }

  /** The common case: one dial call d of tunnel t works on its session x. */
  predicate Touches(s: State, u: State, t: TunnelId, d: DialId, x: SessionId)
  {
    && t in s.tunnels && d in s.dials && t in u.tunnels && d in u.dials && x in u.sessions
    && u.tunnels == s.tunnels[t := u.tunnels[t]]
    && u.dials == s.dials[d := u.dials[d]]
    && u.sessions == s.sessions[x := u.sessions[x]]
    && u.dials[d].t == s.dials[d].t == t
    && (Sess(s.dials[d].phase).None? || Sess(s.dials[d].phase) == Some(x))
    && (x in s.sessions ==> s.sessions[x].origin == u.sessions[x].origin)
    && u.sessions[x].origin == Outbound(t, d)
    && TunnelMove(s, s.tunnels[t], u.tunnels[t], {d}, {x})
  }

  /** The three entries a dial call works on are in order. */
  predicate LocalOk(s: State, t: TunnelId, d: DialId, x: SessionId)
  {
    TunnelOk(s, t) && DialOk(s, d) && SessionOk(s, x)
  }

  lemma TouchKeeps(s: State, u: State, t: TunnelId, d: DialId, x: SessionId)
    requires Shape(s) && Touches(s, u, t, d, x) && LocalOk(u, t, d, x)
    ensures Shape(u)
  {
    PatchKeeps(s, u, {t}, {d}, {x});
  }

  lemma DialSucceedLocal(s: State, d: DialId, x: SessionId)
    requires Enabled(s, DialSucceed(d, x)) && TunnelOk(s, s.dials[d].t) && DialOk(s, d)
    requires s.tunnels[s.dials[d].t].ss != Some(x)
    ensures var u, t := Next(s, DialSucceed(d, x)), s.dials[d].t; Touches(s, u, t, d, x) && LocalOk(u, t, d, x)
  {
  }

  lemma CheckLocal(s: State, t: TunnelId, d: DialId, x: SessionId)
    requires Busy(s, d) && s.dials[d] == Dial(t, Produced(x)) && s.tunnels[t].mu.None? && LocalOk(s, t, d, x)
    ensures Touches(s, Check(s, d), t, d, x) && LocalOk(Check(s, d), t, d, x)
  {
  }

  lemma InstallLocal(s: State, t: TunnelId, d: DialId, x: SessionId)
    requires Busy(s, d) && s.dials[d] == Dial(t, Installing(x)) && LocalOk(s, t, d, x)
    requires s.tunnels[t].ss.Some? ==> s.tunnels[t].ss.value in s.sessions && !s.sessions[s.tunnels[t].ss.value].open
    requires s.tunnels[t].ss != Some(x)
    ensures Touches(s, Install(s, d), t, d, x) && LocalOk(Install(s, d), t, d, x)
  {
    assert ClosedSession(s, s.tunnels[t].ss).sessions == s.sessions;
  }

  lemma AccountLocal(s: State, e: Event, t: TunnelId, x: SessionId)
    requires (e.AddCount? || e.AddCreate?) && Enabled(s, e)
    requires s.dials[e.d].t == t && s.dials[e.d].phase.x == x && LocalOk(s, t, e.d, x)
    ensures Touches(s, Next(s, e), t, e.d, x) && LocalOk(Next(s, e), t, e.d, x)
  {
  }

  lemma LaunchWatcherLocal(s: State, e: Event, t: TunnelId, x: SessionId)
    requires e.LaunchWatcher? && Enabled(s, e)
    requires s.dials[e.d].t == t && s.dials[e.d].phase.x == x && LocalOk(s, t, e.d, x)
    ensures Touches(s, Next(s, e), t, e.d, x) && LocalOk(Next(s, e), t, e.d, x)
  {
  }

  lemma LaunchLocal(s: State, e: Event, t: TunnelId, x: SessionId)
    requires (e.LaunchCloser? || e.LaunchAccept?) && Enabled(s, e)
    requires s.dials[e.d].t == t && s.dials[e.d].phase.x == x && LocalOk(s, t, e.d, x)
    ensures Touches(s, Next(s, e), t, e.d, x) && LocalOk(Next(s, e), t, e.d, x)
  {
  }

  lemma DropLocal(s: State, t: TunnelId, d: DialId, x: SessionId)
    requires Busy(s, d) && s.dials[d] == Dial(t, Dropping(x)) && LocalOk(s, t, d, x)
    ensures Touches(s, GiveUp(s, d), t, d, x) && LocalOk(GiveUp(s, d), t, d, x)
  {
  }

  lemma RejectLocal(s: State, t: TunnelId, d: DialId, x: SessionId)
    requires Busy(s, d) && (s.dials[d] == Dial(t, Rejecting(x)) || s.dials[d] == Dial(t, Abandoning(x))) && LocalOk(s, t, d, x)
    ensures Touches(s, GiveUp(s, d), t, d, x) && LocalOk(GiveUp(s, d), t, d, x)
  {
  }

  lemma GiveUpLocal(s: State, t: TunnelId, d: DialId, x: SessionId)
    requires Busy(s, d) && s.dials[d].t == t && s.dials[d].phase.x == x && LocalOk(s, t, d, x)
    requires s.dials[d].phase.Rejecting? || s.dials[d].phase.Dropping? || s.dials[d].phase.Abandoning?
    ensures Touches(s, GiveUp(s, d), t, d, x) && LocalOk(GiveUp(s, d), t, d, x)
  {
    hide LocalOk, Touches, GiveUp;
    if s.dials[d].phase.Dropping? { DropLocal(s, t, d, x); } else { RejectLocal(s, t, d, x); }
  }

  lemma CloseLocal(s: State, t: TunnelId, d: DialId, x: SessionId)
    requires x in s.sessions && s.sessions[x].origin == Outbound(t, d) && LocalOk(s, t, d, x)
    ensures Touches(s, ClosedSession(s, Some(x)), t, d, x) && LocalOk(ClosedSession(s, Some(x)), t, d, x)
  {
  }

  lemma LockLocal(s: State, a: Actor, t: TunnelId, d: DialId, x: SessionId)
    requires Enabled(s, FinalizeLock(a)) && Progress(s, a).value.0 == x
    requires s.sessions[x].origin == Outbound(t, d) && LocalOk(s, t, d, x) && (a.Watcher? || a == Dialer(d))
    ensures Touches(s, LockRegion(s, a), t, d, x) && LocalOk(LockRegion(s, a), t, d, x)
  {
    match a {
      case Watcher(_) => if s.tunnels[t].ss == Some(x) { } else { }
      case Dialer(_) => if s.tunnels[t].ss == Some(x) { } else { }
    }
  }

  lemma FlushLocal(s: State, a: Actor, t: TunnelId, d: DialId, x: SessionId)
    requires At(s, a, Flushing) && Progress(s, a).value.0 == x
    requires s.sessions[x].origin == Outbound(t, d) && LocalOk(s, t, d, x) && (a.Watcher? || a == Dialer(d))
    ensures Touches(s, FlushStep(s, a), t, d, x) && LocalOk(FlushStep(s, a), t, d, x)
  {
    match a { case Watcher(_) => case Dialer(_) => }
  }

  lemma UncountLocal(s: State, a: Actor, t: TunnelId, d: DialId, x: SessionId)
    requires At(s, a, Uncounting) && Progress(s, a).value.0 == x
    requires s.sessions[x].origin == Outbound(t, d) && LocalOk(s, t, d, x) && (a.Watcher? || a == Dialer(d))
    ensures Touches(s, UncountStep(s, a), t, d, x) && LocalOk(UncountStep(s, a), t, d, x)
  {
    match a { case Watcher(_) => case Dialer(_) => }
  }

  lemma TallyByWatcher(s: State, t: TunnelId, d: DialId, x: SessionId)
    requires At(s, Watcher(x), Tallying) && s.sessions[x].origin == Outbound(t, d) && LocalOk(s, t, d, x)
    ensures Touches(s, TallyStep(s, Watcher(x)), t, d, x) && LocalOk(TallyStep(s, Watcher(x)), t, d, x)
  {
  }

  lemma TallyByDialer(s: State, t: TunnelId, d: DialId, x: SessionId)
    requires At(s, Dialer(d), Tallying) && In(s, d) && Progress(s, Dialer(d)).value.0 == x
    requires s.sessions[x].origin == Outbound(t, d) && LocalOk(s, t, d, x)
    ensures Touches(s, TallyStep(s, Dialer(d)), t, d, x) && LocalOk(TallyStep(s, Dialer(d)), t, d, x)
  {
  }

  lemma TallyLocal(s: State, a: Actor, t: TunnelId, d: DialId, x: SessionId)
    requires At(s, a, Tallying) && (a.Dialer? ==> In(s, a.d)) && Progress(s, a).value.0 == x
    requires s.sessions[x].origin == Outbound(t, d) && LocalOk(s, t, d, x) && (a.Watcher? || a == Dialer(d))
    ensures Touches(s, TallyStep(s, a), t, d, x) && LocalOk(TallyStep(s, a), t, d, x)
  {
    hide LocalOk, Touches, TallyStep;
    match a { case Watcher(_) => TallyByWatcher(s, t, d, x); case Dialer(_) => TallyByDialer(s, t, d, x); }
  }

  lemma CloseKeeps(s: State, o: Option<SessionId>)
    requires Shape(s)
    ensures Shape(ClosedSession(s, o))
  {
    if o.Some? && o.value in s.sessions {
      var x := o.value;
      assert SessionOk(s, x);
      match s.sessions[x].origin
      case Inbound => PatchKeeps(s, ClosedSession(s, o), {}, {}, {x});
      case Outbound(t, d) =>
        assert DialOk(s, d) && TunnelOk(s, t);
        CloseLocal(s, t, d, x);
        TouchKeeps(s, ClosedSession(s, o), t, d, x);
    }
  }

  lemma NewTunnelKeeps(s: State, t: TunnelId)
    requires Shape(s) && t !in s.tunnels
    ensures Shape(WithTunnel(s, t, Tunnel(None, NotStopped, None, None)))
  {
    PatchKeeps(s, WithTunnel(s, t, Tunnel(None, NotStopped, None, None)), {t}, {}, {});
  }

  lemma DialRefusedLocal(s: State, d: DialId, t: TunnelId)
    requires TunnelOk(s, t) && d !in s.dials && s.tunnels[t].dialMu.Some?
    ensures var u := s.(dials := s.dials[d := Dial(t, Returned(DialInProgress, None))]);
      TunnelOk(u, t) && DialOk(u, d) && Patch(s, u, {t}, {d}, {})
  {
  }

  lemma DialRefusedKeeps(s: State, d: DialId, t: TunnelId)
    requires Shape(s) && d !in s.dials && t in s.tunnels && s.tunnels[t].dialMu.Some?
    ensures Shape(s.(dials := s.dials[d := Dial(t, Returned(DialInProgress, None))]))
  {
    hide SessionOk, DialOk, TunnelOk, Patch;
    DialRefusedLocal(s, d, t);
    PatchKeeps(s, s.(dials := s.dials[d := Dial(t, Returned(DialInProgress, None))]), {t}, {d}, {});
  }

  lemma DialStartKeeps(s: State, d: DialId, t: TunnelId)
    requires Shape(s) && d !in s.dials && t in s.tunnels && s.tunnels[t].dialMu.None?
    ensures Shape(WithTunnel(s.(dials := s.dials[d := Dial(t, Dialing)]), t, s.tunnels[t].(dialMu := Some(d))))
  {
    var u := WithTunnel(s.(dials := s.dials[d := Dial(t, Dialing)]), t, s.tunnels[t].(dialMu := Some(d)));
    assert TunnelOk(s, t);
    PatchKeeps(s, u, {t}, {d}, {});
  }

  lemma DialFailLocal(s: State, d: DialId, t: TunnelId)
    requires In(s, d) && s.dials[d] == Dial(t, Dialing) && DialOk(s, d) && TunnelOk(s, t)
    ensures var u := Return(s, d, DialFailed, None); TunnelOk(u, t) && DialOk(u, d) && Patch(s, u, {t}, {d}, {})
  {
  }

  lemma DialFailKeeps(s: State, d: DialId)
    requires Shape(s) && In(s, d) && s.dials[d].phase.Dialing?
    ensures Shape(Return(s, d, DialFailed, None))
  {
    hide SessionOk, DialOk, TunnelOk, Patch;
    var t := s.dials[d].t;
    DialFailLocal(s, d, t);
    PatchKeeps(s, Return(s, d, DialFailed, None), {t}, {d}, {});
  }

  lemma DialSucceedKeeps(s: State, d: DialId, x: SessionId)
    requires Shape(s) && Enabled(s, DialSucceed(d, x))
    ensures Shape(Next(s, DialSucceed(d, x)))
  {
    assert DialOk(s, d) && TunnelOk(s, s.dials[d].t);
    DialSucceedLocal(s, d, x);
    TouchKeeps(s, Next(s, DialSucceed(d, x)), s.dials[d].t, d, x);
  }

  /** The entries a busy dial call works on are in order. */
  lemma BusyLocal(s: State, d: DialId)
    requires Shape(s) && Busy(s, d)
    ensures LocalOk(s, s.dials[d].t, d, s.dials[d].phase.x)
  {
    assert DialOk(s, d) && SessionOk(s, s.dials[d].phase.x) && TunnelOk(s, s.dials[d].t);
  }

  lemma InstallKeeps(s: State, d: DialId)
    requires Shape(s) && Busy(s, d) && s.dials[d].phase.Installing?
    ensures Shape(Install(s, d))
  {
    var t, x := s.dials[d].t, s.dials[d].phase.x;
    BusyLocal(s, d);
    var u := ClosedSession(s, s.tunnels[t].ss);
    CloseKeeps(s, s.tunnels[t].ss);
    BusyLocal(u, d);
    InstallLocal(u, t, d, x);
    TouchKeeps(u, Install(u, d), t, d, x);
    InstallIgnoresClosed(s, d);
  }

  lemma InstallIgnoresClosed(s: State, d: DialId)
    requires Busy(s, d)
    ensures var u := ClosedSession(s, s.tunnels[s.dials[d].t].ss); Busy(u, d) && Install(u, d) == Install(s, d)
  {
    var o := s.tunnels[s.dials[d].t].ss;
    var u := ClosedSession(s, o);
    assert ClosedSession(u, o).sessions == u.sessions;
  }

  lemma StopTunnelKeeps(s: State, t: TunnelId, stop: StopPhase)
    requires Shape(s) && t in s.tunnels && !stop.NotStopped?
    requires stop.Signalled? || s.tunnels[t].mu.None?
    requires stop.Snapshot? ==> stop.ss == s.tunnels[t].ss
    requires stop.Stopped? ==> s.tunnels[t].ss.Some? ==> s.tunnels[t].ss.value in s.sessions && !s.sessions[s.tunnels[t].ss.value].open
    ensures Shape(WithTunnel(s, t, s.tunnels[t].(stop := stop)))
  {
    assert TunnelOk(s, t);
    PatchKeeps(s, WithTunnel(s, t, s.tunnels[t].(stop := stop)), {t}, {}, {});
  }

  lemma StopCloseKeeps(s: State, t: TunnelId)
    requires Shape(s) && t in s.tunnels && s.tunnels[t].stop.Snapshot?
    ensures Shape(Next(s, StopClose(t)))
  {
    assert TunnelOk(s, t);
    CloseKeeps(s, s.tunnels[t].stop.ss);
    StopTunnelKeeps(ClosedSession(s, s.tunnels[t].stop.ss), t, Stopped);
  }

  lemma InboundKeeps(s: State, x: SessionId, v: Session)
    requires Shape(s) && InboundOk(v) && v.origin.Inbound?
    requires x in s.sessions ==> s.sessions[x].origin.Inbound?
    ensures Shape(WithSession(s, x, v))
  {
    PatchKeeps(s, WithSession(s, x, v), {}, {}, {x});
  }

  /** Every step keeps tunnels, dial calls and sessions in order. */
  lemma DialStepKeeps(s: State, e: Event)
    requires Shape(s) && Enabled(s, e)
    requires e.AddCheck? || e.AddInstall? || e.AddCount? || e.AddCreate? || e.CloseOwn?
          || e.LaunchWatcher? || e.LaunchCloser? || e.LaunchAccept?
    ensures Shape(Next(s, e))
  {
    var d := e.d;
    var t, x := s.dials[d].t, s.dials[d].phase.x;
    BusyLocal(s, d);
    if e.AddInstall? {
      InstallKeeps(s, d);
    } else {
      if e.AddCheck? {
        CheckLocal(s, t, d, x);
      } else if e.AddCount? || e.AddCreate? {
        AccountLocal(s, e, t, x);
      } else if e.CloseOwn? {
        GiveUpLocal(s, t, d, x);
      } else if e.LaunchWatcher? {
        LaunchWatcherLocal(s, e, t, x);
      } else {
        LaunchLocal(s, e, t, x);
      }
      TouchKeeps(s, Next(s, e), t, d, x);
    }
  }

  /** An actor that is not a server finalizes an outbound session, its own if it is a dial call. */
  lemma ActorLocal(s: State, a: Actor, f: Final)
    requires Shape(s) && At(s, a, f) && !f.Absent? && !a.Server?
    ensures var x := Progress(s, a).value.0;
      && s.sessions[x].origin.Outbound?
      && var o := s.sessions[x].origin; LocalOk(s, o.t, o.d, x) && (a.Watcher? || a == Dialer(o.d))
  {
    var x := Progress(s, a).value.0;
    assert SessionOk(s, x);
    match a
    case Watcher(_) =>
      assert DialOk(s, s.sessions[x].origin.d) && TunnelOk(s, s.sessions[x].origin.t);
    case Dialer(d) =>
      assert DialOk(s, d) && TunnelOk(s, s.dials[d].t);
  }

  lemma ServerStepKeeps(s: State, e: Event)
    requires Shape(s) && Enabled(s, e)
    requires (e.FinalizeLock? || e.Flush? || e.Uncount? || e.Tally?) && e.a.Server?
    ensures Shape(Next(s, e))
  {
    hide DialOk, TunnelOk;
    var x := e.a.x;
    var v := Next(s, e).sessions[x];
    assert SessionOk(s, x);
    InboundKeeps(s, x, v);
    assert Next(s, e).sessions == s.sessions[x := v];
    SameShape(WithSession(s, x, v), Next(s, e));
  }

  lemma ActorStepKeeps(s: State, e: Event)
    requires Shape(s) && Enabled(s, e)
    requires (e.FinalizeLock? || e.Flush? || e.Uncount? || e.Tally?) && !e.a.Server?
    ensures Shape(Next(s, e))
  {
    hide SessionOk, DialOk, TunnelOk, TunnelMove;
    var a := e.a;
    var x := Progress(s, a).value.0;
    ActorLocal(s, a, Progress(s, a).value.1);
    var t, d := s.sessions[x].origin.t, s.sessions[x].origin.d;
    assert Touches(s, Next(s, e), t, d, x) && LocalOk(Next(s, e), t, d, x) by {
      match e
      case FinalizeLock(_) => LockLocal(s, a, t, d, x);
      case Flush(_) => FlushLocal(s, a, t, d, x);
      case Uncount(_) => UncountLocal(s, a, t, d, x);
      case Tally(_) => TallyLocal(s, a, t, d, x);
    }
    TouchKeeps(s, Next(s, e), t, d, x);
  }

  lemma SameShape(s: State, u: State)
    requires Shape(s) && u.tunnels == s.tunnels && u.dials == s.dials && u.sessions == s.sessions
    ensures Shape(u)
  {
    PatchKeeps(s, u, {}, {}, {});
  }

  lemma ServeStepKeeps(s: State, e: Event)
    requires Shape(s) && Enabled(s, e)
    requires e.ServeBegin? || e.ServeCount? || e.ServeCreate? || e.ServeEnd?
    ensures Shape(Next(s, e))
  {
    hide DialOk, TunnelOk;
    var v := Next(s, e).sessions[e.x];
    assert e.x in s.sessions ==> SessionOk(s, e.x);
    InboundKeeps(s, e.x, v);
    assert Next(s, e).sessions == s.sessions[e.x := v];
    SameShape(WithSession(s, e.x, v), Next(s, e));
  }

  lemma ShapeKeeps(s: State, e: Event)
    requires Shape(s) && Enabled(s, e)
    ensures Shape(Next(s, e))
  {
    hide Shape;
    match e
    case NewTunnel(t) => NewTunnelKeeps(s, t);
    case DialBegin(d, t) => if s.tunnels[t].dialMu.Some? { DialRefusedKeeps(s, d, t); } else { DialStartKeeps(s, d, t); }
    case DialFail(d) => DialFailKeeps(s, d);
    case DialSucceed(d, x) => DialSucceedKeeps(s, d, x);
    case StopSignal(t) => StopTunnelKeeps(s, t, Signalled);
    case StopRead(t) => StopTunnelKeeps(s, t, Snapshot(s.tunnels[t].ss));
    case StopClose(t) => StopCloseKeeps(s, t);
    case SessionCloses(x) => CloseKeeps(s, Some(x));
    case ServeBegin(_) => ServeStepKeeps(s, e);
    case ServeCount(_) => ServeStepKeeps(s, e);
    case ServeCreate(_) => ServeStepKeeps(s, e);
    case ServeEnd(_) => ServeStepKeeps(s, e);
    case FinalizeLock(_) => if e.a.Server? { ServerStepKeeps(s, e); } else { ActorStepKeeps(s, e); }
    case Flush(_) => if e.a.Server? { ServerStepKeeps(s, e); } else { ActorStepKeeps(s, e); }
    case Uncount(_) => if e.a.Server? { ServerStepKeeps(s, e); } else { ActorStepKeeps(s, e); }
    case Tally(_) => if e.a.Server? { ServerStepKeeps(s, e); } else { ActorStepKeeps(s, e); }
    case _ => DialStepKeeps(s, e);
  }

  // --------------------------------------------------------------- accounting

  const IsUp := (v: Session) => v.ups > 0
  const IsDown := (v: Session) => v.downs > 0
  const IsCreated := (v: Session) => v.creates > 0
  const IsTallied := (v: Session) => v.tallies > 0

  /** Sessions counted up and not yet counted down. */
  function Counted(s: State): int { |Where(s.sessions, IsUp)| - |Where(s.sessions, IsDown)| }

  /** The shared counters; numSessions is a uint32 and may have wrapped. */
  ghost predicate CountersOk(s: State)
  {
    && s.numSessions == Counted(s) % UINT32
    && s.created == |Where(s.sessions, IsCreated)|
    && s.finalized == |Where(s.sessions, IsTallied)|
  }

  predicate Accounts(e: Event)
  {
    e.AddCount? || e.AddCreate? || e.ServeCount? || e.ServeCreate? || e.Uncount? || e.Tally?
  }

  /** Other steps leave every session's counters alone, and new sessions start at zero. */
  lemma OtherStep(s: State, e: Event, x: SessionId)
    requires Enabled(s, e) && !Accounts(e) && x in Next(s, e).sessions
    ensures var v := Next(s, e).sessions[x];
      if x in s.sessions
      then v.ups == s.sessions[x].ups && v.downs == s.sessions[x].downs
           && v.creates == s.sessions[x].creates && v.tallies == s.sessions[x].tallies
      else v.ups == v.downs == v.creates == v.tallies == 0
  {
  }

  lemma OtherStepKeys(s: State, e: Event)
    requires Enabled(s, e) && !Accounts(e)
    ensures s.sessions.Keys <= Next(s, e).sessions.Keys
    ensures Next(s, e).numSessions == s.numSessions
    ensures Next(s, e).created == s.created && Next(s, e).finalized == s.finalized
  {
  }

  lemma OtherStepKeepsCounters(s: State, e: Event)
    requires CountersOk(s) && Enabled(s, e) && !Accounts(e)
    ensures CountersOk(Next(s, e))
  {
    var u := Next(s, e);
    OtherStepKeys(s, e);
    forall x | x in u.sessions
      ensures IsUp(u.sessions[x]) == (x in s.sessions && IsUp(s.sessions[x]))
      ensures IsDown(u.sessions[x]) == (x in s.sessions && IsDown(s.sessions[x]))
      ensures IsCreated(u.sessions[x]) == (x in s.sessions && IsCreated(s.sessions[x]))
      ensures IsTallied(u.sessions[x]) == (x in s.sessions && IsTallied(s.sessions[x]))
    {
      OtherStep(s, e, x);
    }
    SameCounters(s, u);
  }

  lemma SameCounters(s: State, u: State)
    requires CountersOk(s) && s.sessions.Keys <= u.sessions.Keys
    requires u.numSessions == s.numSessions && u.created == s.created && u.finalized == s.finalized
    requires forall x :: x in u.sessions ==>
      && IsUp(u.sessions[x]) == (x in s.sessions && IsUp(s.sessions[x]))
      && IsDown(u.sessions[x]) == (x in s.sessions && IsDown(s.sessions[x]))
      && IsCreated(u.sessions[x]) == (x in s.sessions && IsCreated(s.sessions[x]))
      && IsTallied(u.sessions[x]) == (x in s.sessions && IsTallied(s.sessions[x]))
    ensures CountersOk(u)
  {
    WhereFrame(s.sessions, u.sessions, IsUp);
    WhereFrame(s.sessions, u.sessions, IsDown);
    WhereFrame(s.sessions, u.sessions, IsCreated);
    WhereFrame(s.sessions, u.sessions, IsTallied);
  }

  /** One session's counters move, and the shared counters move with them. */
  lemma MoveCounters(s: State, u: State, x: SessionId)
    requires CountersOk(s) && x in s.sessions && x in u.sessions && u.sessions == s.sessions[x := u.sessions[x]]
    requires var v, w := s.sessions[x], u.sessions[x];
      && u.numSessions == (s.numSessions + One(w.ups > 0) - One(v.ups > 0) - One(w.downs > 0) + One(v.downs > 0)) % UINT32
      && u.created - s.created == One(w.creates > 0) - One(v.creates > 0)
      && u.finalized - s.finalized == One(w.tallies > 0) - One(v.tallies > 0)
    ensures CountersOk(u)
  {
    WhereUpdate(s.sessions, x, u.sessions[x], IsUp);
    WhereUpdate(s.sessions, x, u.sessions[x], IsDown);
    WhereUpdate(s.sessions, x, u.sessions[x], IsCreated);
    WhereUpdate(s.sessions, x, u.sessions[x], IsTallied);
    ModShift(Counted(s), Counted(u) - Counted(s));
  }

  lemma ModShift(a: int, k: int)
    ensures (a % UINT32 + k) % UINT32 == (a + k) % UINT32
  {
  }

  lemma DialAccountKeeps(s: State, e: Event, x: SessionId)
    requires CountersOk(s) && Enabled(s, e) && (e.AddCount? || e.AddCreate?) && x == s.dials[e.d].phase.x
    requires (e.AddCount? && Books(s.sessions[x], 0, 0, Absent)) || (e.AddCreate? && Books(s.sessions[x], 1, 0, Absent))
    ensures CountersOk(Next(s, e))
  {
    MoveCounters(s, Next(s, e), x);
  }

  lemma ServeAccountKeeps(s: State, e: Event)
    requires CountersOk(s) && Enabled(s, e)
    requires (e.ServeCount? && Books(s.sessions[e.x], 0, 0, Absent)) || (e.ServeCreate? && Books(s.sessions[e.x], 1, 0, Absent))
    ensures CountersOk(Next(s, e))
  {
    assert Next(s, e).sessions == s.sessions[e.x := Next(s, e).sessions[e.x]];
    MoveCounters(s, Next(s, e), e.x);
  }

  /** What the books of a session say while an actor at f finalizes it. */
  lemma ActorBooks(s: State, a: Actor, f: Final)
    requires Shape(s) && At(s, a, f) && Begun(f)
    ensures Books(s.sessions[Progress(s, a).value.0], 1, 1, f)
  {
    var x := Progress(s, a).value.0;
    assert SessionOk(s, x);
    if !a.Server? {
      ActorLocal(s, a, f);
    }
  }

  lemma UncountKeeps(s: State, a: Actor)
    requires CountersOk(s) && At(s, a, Uncounting) && Books(s.sessions[Progress(s, a).value.0], 1, 1, Uncounting)
    ensures CountersOk(UncountStep(s, a))
  {
    var x, u := Progress(s, a).value.0, UncountStep(s, a);
    assert u.sessions == s.sessions[x := u.sessions[x]];
    assert (s.numSessions - 1) % UINT32 == (s.numSessions + UINT32 - 1) % UINT32;
    MoveCounters(s, u, x);
  }

  lemma TallyKeeps(s: State, a: Actor)
    requires CountersOk(s) && At(s, a, Tallying) && Books(s.sessions[Progress(s, a).value.0], 1, 1, Tallying)
    requires a.Dialer? ==> In(s, a.d)
    ensures CountersOk(TallyStep(s, a))
  {
    var x, u := Progress(s, a).value.0, TallyStep(s, a);
    assert u.sessions == s.sessions[x := u.sessions[x]];
    MoveCounters(s, u, x);
  }

  ghost predicate Inv(s: State) { Shape(s) && CountersOk(s) }

  lemma StepKeeps(s: State, e: Event)
    requires Inv(s) && Enabled(s, e)
    ensures Inv(Next(s, e))
  {
    ShapeKeeps(s, e);
    if e.AddCount? || e.AddCreate? {
      BusyLocal(s, e.d);
      DialAccountKeeps(s, e, s.dials[e.d].phase.x);
    } else if e.ServeCount? || e.ServeCreate? {
      assert SessionOk(s, e.x);
      ServeAccountKeeps(s, e);
    } else if e.Uncount? {
      ActorBooks(s, e.a, Uncounting);
      UncountKeeps(s, e.a);
    } else if e.Tally? {
      ActorBooks(s, e.a, Tallying);
      TallyKeeps(s, e.a);
    } else {
      OtherStepKeepsCounters(s, e);
    }
  }

  lemma {:induction false} RunKeeps(es: seq<Event>)
    requires Run(es).Some?
    ensures Inv(Run(es).value)
  {
    if es == [] {
      assert Where(INITIAL.sessions, IsUp) == {} == Where(INITIAL.sessions, IsDown);
      assert Where(INITIAL.sessions, IsCreated) == {} == Where(INITIAL.sessions, IsTallied);
    } else {
      RunKeeps(es[..|es| - 1]);
      StepKeeps(Run(es[..|es| - 1]).value, es[|es| - 1]);
    }
  }

  // --------------------------------------------------------- whole-run results

  predicate InstalledOn(s: State, x: SessionId, t: TunnelId)
  {
    x in s.sessions && s.sessions[x].installed && s.sessions[x].origin.Outbound? && s.sessions[x].origin.t == t
  }

  /** However dials, redials, evictions and Stop interleave, at most one session installed
      on a tunnel is open, and it is the tunnel's current one. */
  lemma AtMostOneOpen(es: seq<Event>, s: State, t: TunnelId, x: SessionId, y: SessionId)
    requires Run(es) == Some(s) && InstalledOn(s, x, t) && s.sessions[x].open
    ensures t in s.tunnels && s.tunnels[t].ss == Some(x)
    ensures InstalledOn(s, y, t) && s.sessions[y].open ==> y == x
  {
    RunKeeps(es);
    assert SessionOk(s, x);
    assert y in s.sessions ==> SessionOk(s, y);
  }

  /** Once Stop has returned, every session ever installed on the tunnel is closed. */
  lemma StopClosesAll(es: seq<Event>, s: State, t: TunnelId, x: SessionId)
    requires Run(es) == Some(s) && t in s.tunnels && s.tunnels[t].stop.Stopped? && InstalledOn(s, x, t)
    ensures !s.sessions[x].open
  {
    RunKeeps(es);
    assert SessionOk(s, x) && TunnelOk(s, t);
  }

  predicate Finalizes(e: Event) { e.FinalizeLock? || e.Flush? || e.Uncount? || e.Tally? }

  /** Finalizing neither undoes a Stop nor installs anything. */
  lemma FinalizingFrame(s: State, e: Event, t: TunnelId, x: SessionId)
    requires Enabled(s, e) && Finalizes(e)
    ensures t in s.tunnels && s.tunnels[t].stop.Stopped? ==> t in Next(s, e).tunnels && Next(s, e).tunnels[t].stop.Stopped?
    ensures InstalledOn(Next(s, e), x, t) ==> InstalledOn(s, x, t)
  {
    match e.a { case Watcher(_) => case Server(_) => case Dialer(_) => }
  }

  lemma StoppedStays(s: State, e: Event, t: TunnelId)
    requires Enabled(s, e) && !Finalizes(e) && t in s.tunnels && s.tunnels[t].stop.Stopped?
    ensures t in Next(s, e).tunnels && Next(s, e).tunnels[t].stop.Stopped?
  {
  }

  lemma OnlyAddInstalls(s: State, e: Event, t: TunnelId, x: SessionId)
    requires Enabled(s, e) && !Finalizes(e) && !e.AddInstall? && InstalledOn(Next(s, e), x, t)
    ensures InstalledOn(s, x, t)
  {
  }

  lemma AddInstallsElsewhere(s: State, d: DialId, t: TunnelId, x: SessionId)
    requires Busy(s, d) && s.dials[d].phase.Installing? && LocalOk(s, s.dials[d].t, d, s.dials[d].phase.x)
    requires t in s.tunnels && s.tunnels[t].stop.Stopped? && InstalledOn(Install(s, d), x, t)
    ensures InstalledOn(s, x, t)
  {
  }

  lemma StoppedStep(s: State, e: Event, t: TunnelId, x: SessionId)
    requires Shape(s) && Enabled(s, e) && t in s.tunnels && s.tunnels[t].stop.Stopped?
    ensures t in Next(s, e).tunnels && Next(s, e).tunnels[t].stop.Stopped?
    ensures InstalledOn(Next(s, e), x, t) ==> InstalledOn(s, x, t)
  {
    if Finalizes(e) {
      FinalizingFrame(s, e, t, x);
    } else {
      StoppedStays(s, e, t);
      if InstalledOn(Next(s, e), x, t) {
        if e.AddInstall? {
          BusyLocal(s, e.d);
          AddInstallsElsewhere(s, e.d, t, x);
        } else {
          OnlyAddInstalls(s, e, t, x);
        }
      }
    }
  }

  /** ... and whatever happens afterwards, nothing more is ever installed on it. */
  lemma {:induction false} StopIsFinal(es: seq<Event>, later: seq<Event>, s: State, u: State, t: TunnelId, x: SessionId)
    requires Run(es) == Some(s) && Run(es + later) == Some(u)
    requires t in s.tunnels && s.tunnels[t].stop.Stopped?
    ensures t in u.tunnels && u.tunnels[t].stop.Stopped?
    ensures InstalledOn(u, x, t) ==> InstalledOn(s, x, t) && !u.sessions[x].open
  {
    if later == [] {
      assert es + later == es;
    } else {
      var es' := es + later;
      assert es'[..|es'| - 1] == es + later[..|later| - 1];
      var v := Run(es + later[..|later| - 1]).value;
      StopIsFinal(es, later[..|later| - 1], s, v, t, x);
      RunKeeps(es + later[..|later| - 1]);
      StoppedStep(v, es'[|es'| - 1], t, x);
    }
    if InstalledOn(u, x, t) {
      StopClosesAll(es + later, u, t, x);
    }
  }

  /** A dial call that has returned left its session installed or closed: installed if it
      returned it, closed if it returned an error. */
  lemma DialLeavesNothing(es: seq<Event>, s: State, d: DialId, x: SessionId)
    requires Run(es) == Some(s) && d in s.dials && s.dials[d].phase.Returned? && s.dials[d].phase.produced == Some(x)
    ensures x in s.sessions
    ensures if s.dials[d].phase.res == Ok then InstalledOn(s, x, s.dials[d].t) else !s.sessions[x].open
  {
    RunKeeps(es);
    assert DialOk(s, d);
    assert SessionOk(s, x);
  }

  /** No thread will touch the accounts of x again. */
  predicate AccountsClosed(s: State, x: SessionId)
    requires x in s.sessions
  {
    var v := s.sessions[x];
    match v.origin
    case Inbound => v.serve == Ending(Gone)
    case Outbound(_, d) => d in s.dials && s.dials[d].phase.Returned? && (v.watcher.Absent? || v.watcher.Gone?)
  }

  /** A session is counted, flushed and finalized at most once each, in that order, an
      outbound one only after it closed; by the time its threads have finished, exactly
      once each if it was installed or served, and not at all otherwise. */
  lemma FinalizedOnce(es: seq<Event>, s: State, x: SessionId)
    requires Run(es) == Some(s) && x in s.sessions
    ensures var v := s.sessions[x];
      && v.tallies <= v.downs <= v.flushes <= v.creates <= v.ups <= 1
      && (v.origin.Outbound? && v.flushes > 0 ==> !v.open)
      && (AccountsClosed(s, x) ==>
            v.tallies == v.downs == v.flushes == v.creates == v.ups == if v.origin.Inbound? || v.installed then 1 else 0)
  {
    RunKeeps(es);
    assert SessionOk(s, x);
    if s.sessions[x].origin.Outbound? {
      OutboundBooks(s.sessions[x], s.dials[s.sessions[x].origin.d].phase);
    }
  }

  lemma OutboundBooks(v: Session, p: DialPhase)
    requires OutboundOk(v, p)
    ensures v.tallies <= v.downs <= v.flushes <= v.creates <= v.ups <= 1
    ensures v.flushes > 0 ==> !v.open
    ensures p.Returned? && (v.watcher.Absent? || v.watcher.Gone?) ==>
      v.tallies == v.downs == v.flushes == v.creates == v.ups == if v.installed then 1 else 0
  {
    if p.Returned? {
      match p.res { case Ok => case TunnelStopped => case LaunchFailed => case _ => }
    }
  }

  /** numSessions counts the sessions counted up and not yet down, outbound and inbound
      together, and never goes below zero; with no session mid-update it is created minus
      finalized. As a uint32 it is exact while fewer than 2^32 sessions are counted. */
  lemma CountersExact(es: seq<Event>, s: State)
    requires Run(es) == Some(s)
    ensures 0 <= Counted(s) && s.numSessions == Counted(s) % 0x1_0000_0000
    ensures Counted(s) < 0x1_0000_0000 ==> s.numSessions == Counted(s)
    ensures (forall x :: x in s.sessions ==> s.sessions[x].ups == s.sessions[x].creates && s.sessions[x].downs == s.sessions[x].tallies)
              ==> Counted(s) == s.created - s.finalized
  {
    hide Shape, Run, AccountsClosed, Where;
    RunKeeps(es);
    forall x | x in s.sessions ensures IsDown(s.sessions[x]) ==> IsUp(s.sessions[x]) {
      FinalizedOnce(es, s, x);
    }
    WhereImplies(s.sessions, IsDown, IsUp);
    if forall x :: x in s.sessions ==> s.sessions[x].ups == s.sessions[x].creates && s.sessions[x].downs == s.sessions[x].tallies {
      WhereSame(s.sessions, IsUp, IsCreated);
      WhereSame(s.sessions, IsDown, IsTallied);
    }
  }

  /** The step that gets a dial call on its way: its own, or that of the holder of t.mu. */
  function NextFor(s: State, d: DialId): Event
    requires In(s, d) && !s.dials[d].phase.Returned?
  {
    var mu := s.tunnels[s.dials[d].t].mu;
    match s.dials[d].phase
    case Dialing => DialFail(d)
    case Produced(_) => if mu.None? then AddCheck(d) else AddInstall(mu.value)
    case Installing(_) => AddInstall(d)
    case Installed(_) => AddCount(d)
    case CountedUp(_) => AddCreate(d)
    case Recorded(_) => LaunchWatcher(d, false)
    case Watched(_) => LaunchCloser(d, false)
    case Guarded(_) => LaunchAccept(d, false)
    case Rejecting(_) => CloseOwn(d)
    case Dropping(_) => CloseOwn(d)
    case Abandoning(_) => CloseOwn(d)
    case Inline(_, f) =>
      match f
      case Flushing => Flush(Dialer(d))
      case Uncounting => Uncount(Dialer(d))
      case Tallying => Tally(Dialer(d))
      case _ => if mu.None? then FinalizeLock(Dialer(d)) else AddInstall(mu.value)
  }

  /** No dial call is ever stuck: its next step is possible, or it waits for t.mu and the
      holder's next step is possible. */
  lemma DialNeverStuck(es: seq<Event>, s: State, d: DialId)
    requires Run(es) == Some(s) && In(s, d) && !s.dials[d].phase.Returned?
    ensures Enabled(s, NextFor(s, d))
  {
    RunKeeps(es);
    assert DialOk(s, d) && TunnelOk(s, s.dials[d].t);
    var mu := s.tunnels[s.dials[d].t].mu;
    if mu.Some? {
      assert DialOk(s, mu.value);
    }
    if !s.dials[d].phase.Dialing? {
      assert SessionOk(s, s.dials[d].phase.x);
    }
  }

  /** The holder of t.mu can go on. */
  predicate HolderGoes(s: State, t: TunnelId)
  {
    t in s.tunnels && s.tunnels[t].mu.Some? && Enabled(s, AddInstall(s.tunnels[t].mu.value))
  }

  /** The finalization that a runs is over or has its next step, except that a watcher waits
      for its session to close, and that the lock region waits for a holder of t.mu that can
      go on. */
  predicate Goes(s: State, a: Actor)
    requires Progress(s, a).Some?
  {
    var (x, f) := Progress(s, a).value;
    match f
    case Absent => true
    case Gone => true
    case Waiting =>
      && x in s.sessions && s.sessions[x].origin.Outbound?
      && ((a.Watcher? && s.sessions[x].open) || Enabled(s, FinalizeLock(a)) || HolderGoes(s, s.sessions[x].origin.t))
    case Flushing => Enabled(s, Flush(a))
    case Uncounting => Enabled(s, Uncount(a))
    case Tallying => Enabled(s, Tally(a))
  }

  /** The tunnel of x has its lock free or held by a dial call that can go on. */
  predicate LockMoves(s: State, x: SessionId)
    requires x in s.sessions
  {
    match s.sessions[x].origin
    case Inbound => true
    case Outbound(t, _) => t in s.tunnels && (s.tunnels[t].mu.Some? ==> HolderGoes(s, t))
  }

  lemma SessionGoes(s: State, x: SessionId)
    requires SessionOk(s, x) && LockMoves(s, x)
    ensures Goes(s, Watcher(x)) && (s.sessions[x].serve.Ending? ==> Goes(s, Server(x)))
  {
    hide HolderGoes;
  }

  lemma DialerGoes(s: State, d: DialId, x: SessionId)
    requires In(s, d) && s.dials[d].phase.Inline? && s.dials[d].phase.x == x
    requires x in s.sessions && s.sessions[x].origin.Outbound? && LockMoves(s, x)
    ensures Goes(s, Dialer(d))
  {
    hide HolderGoes;
  }

  lemma FinalizerOk(s: State, x: SessionId)
    requires Shape(s) && x in s.sessions
    ensures SessionOk(s, x) && LockMoves(s, x)
  {
    assert SessionOk(s, x);
    match s.sessions[x].origin
    case Inbound =>
    case Outbound(t, _) =>
      assert TunnelOk(s, t);
      if s.tunnels[t].mu.Some? { assert DialOk(s, s.tunnels[t].mu.value); }
  }

  /** No finalization is ever stuck, whoever runs it. */
  lemma FinalizationNeverStuck(es: seq<Event>, s: State, a: Actor)
    requires Run(es) == Some(s) && Progress(s, a).Some?
    ensures Goes(s, a)
  {
    hide Goes, LockMoves, SessionOk, TunnelOk;
    RunKeeps(es);
    match a
    case Watcher(x) =>
      FinalizerOk(s, x);
      SessionGoes(s, x);
    case Server(x) =>
      FinalizerOk(s, x);
      SessionGoes(s, x);
    case Dialer(d) =>
      var x := s.dials[d].phase.x;
      assert DialOk(s, d);
      FinalizerOk(s, x);
      DialerGoes(s, d, x);
  }

  // ------------------------------------------------------------------- verdicts

  /** The result a dial call returns or is bound to return. */
  function ResultOf(p: DialPhase): Option<DialResult>
  {
    match p
    case Rejecting(_) => Some(TunnelStopped)
    case Dropping(_) => Some(LaunchFailed)
    case Inline(_, _) => Some(LaunchFailed)
    case Abandoning(_) => Some(LaunchFailed)
    case Returned(res, _) => Some(res)
    case _ => None
  }

  /** Some dial call of t has begun and not returned. */
  ghost predicate Dialling(s: State, t: TunnelId)
  {
    exists d :: d in s.dials && s.dials[d].t == t && !s.dials[d].phase.Returned?
  }

  /** One of the three goroutines of dial call d could not be launched by this step. */
  predicate FailsToLaunch(e: Event, d: DialId)
  {
    e == LaunchWatcher(d, false) || e == LaunchCloser(d, false) || e == LaunchAccept(d, false)
  }

  /** The tunnel dial call d is for. */
  function TunnelOf(es: seq<Event>, d: DialId): Option<TunnelId>
  {
    if es == [] then None
    else if es[|es| - 1].DialBegin? && es[|es| - 1].d == d then Some(es[|es| - 1].t) else TunnelOf(es[..|es| - 1], d)
  }

  /** The result of a dial call, read off the events: another call of its tunnel was under way
      when it began, its dialer failed, Stop came before addSession's test, a launch failed,
      or all three launches were made. */
  ghost function Fate(es: seq<Event>, d: DialId): Option<DialResult>
    requires Run(es).Some?
  {
    if es == [] then None else
    var before, e := es[..|es| - 1], es[|es| - 1];
    if e.DialBegin? && e.d == d then (if Dialling(Run(before).value, e.t) then Some(DialInProgress) else None)
    else if e == DialFail(d) then Some(DialFailed)
    else if e == AddCheck(d) then
      (if TunnelOf(before, d).Some? && StopSignal(TunnelOf(before, d).value) in before then Some(TunnelStopped) else None)
    else if FailsToLaunch(e, d) then Some(LaunchFailed)
    else if e == LaunchAccept(d, true) then Some(Ok)
    else Fate(before, d)
  }

  /** A step of a dial call itself, outside finalization. */
  predicate ByDial(e: Event)
  {
    e.DialFail? || e.DialSucceed? || e.AddCheck? || e.AddInstall? || e.AddCount? || e.AddCreate?
    || e.LaunchWatcher? || e.LaunchCloser? || e.LaunchAccept? || e.CloseOwn?
  }

  /** What the step of a dial call makes of its result. */
  function Verdict(s: State, e: Event, d: DialId): Option<DialResult>
    requires Enabled(s, e) && d in s.dials
  {
    if e == DialFail(d) then Some(DialFailed)
    else if e == AddCheck(d) then (if s.tunnels[s.dials[d].t].stop.NotStopped? then None else Some(TunnelStopped))
    else if FailsToLaunch(e, d) then Some(LaunchFailed)
    else if e == LaunchAccept(d, true) then Some(Ok)
    else ResultOf(s.dials[d].phase)
  }

  lemma FateOwn(s: State, e: Event, d: DialId)
    requires Enabled(s, e) && d in s.dials && ByDial(e) && e.d == d
    ensures d in Next(s, e).dials && Next(s, e).dials[d].t == s.dials[d].t
    ensures ResultOf(Next(s, e).dials[d].phase) == Verdict(s, e, d)
  {
  }

  lemma FateOther(s: State, e: Event, d: DialId)
    requires Enabled(s, e) && d in s.dials && !Finalizes(e) && !(ByDial(e) && e.d == d)
    ensures d in Next(s, e).dials && Next(s, e).dials[d] == s.dials[d]
  {
  }

  lemma FateStep(s: State, e: Event, d: DialId)
    requires Enabled(s, e) && d in s.dials && !Finalizes(e)
    ensures d in Next(s, e).dials && Next(s, e).dials[d].t == s.dials[d].t
    ensures ResultOf(Next(s, e).dials[d].phase) == Verdict(s, e, d)
  {
    hide Next, Enabled, ResultOf;
    if ByDial(e) && e.d == d { FateOwn(s, e, d); } else { FateOther(s, e, d); }
  }

  lemma FateFinalizing(s: State, e: Event, d: DialId)
    requires Enabled(s, e) && d in s.dials && Finalizes(e)
    ensures d in Next(s, e).dials && Next(s, e).dials[d].t == s.dials[d].t
    ensures ResultOf(Next(s, e).dials[d].phase) == ResultOf(s.dials[d].phase)
  {
    match e.a { case Watcher(_) => case Server(_) => case Dialer(_) => }
  }

  lemma DialsFrame(s: State, e: Event, d: DialId)
    requires Enabled(s, e) && d !in s.dials
    ensures d in Next(s, e).dials ==> e.DialBegin? && e.d == d
    ensures !Finalizes(e) && !e.DialBegin? ==> e != DialFail(d) && e != AddCheck(d) && !FailsToLaunch(e, d) && e != LaunchAccept(d, true)
  {
    if Finalizes(e) { match e.a { case Watcher(_) => case Server(_) => case Dialer(_) => } }
  }

  lemma DiallingHoldsMu(s: State, t: TunnelId)
    requires Shape(s) && t in s.tunnels
    ensures Dialling(s, t) <==> s.tunnels[t].dialMu.Some?
  {
    hide SessionOk;
    assert TunnelOk(s, t);
    if s.tunnels[t].dialMu.Some? {
      var d := s.tunnels[t].dialMu.value;
      assert DialOk(s, d);
    }
    forall d | d in s.dials && s.dials[d].t == t && !s.dials[d].phase.Returned? ensures s.tunnels[t].dialMu == Some(d) {
      assert DialOk(s, d);
    }
  }

  lemma StopFrameFinalizing(s: State, e: Event, t: TunnelId)
    requires Enabled(s, e) && Finalizes(e)
    ensures t in Next(s, e).tunnels <==> t in s.tunnels
    ensures t in s.tunnels ==> Next(s, e).tunnels[t].stop == s.tunnels[t].stop
  {
    match e.a { case Watcher(_) => case Server(_) => case Dialer(_) => }
  }

  /** In every run a dial call returns exactly the result its events call for: Ok if and only
      if all its launches succeeded, LaunchFailed if one did not, and so on. */
  lemma {:induction false} ResultIsItsFate(es: seq<Event>, s: State, d: DialId)
    requires Run(es) == Some(s)
    ensures d !in s.dials ==> Fate(es, d) == None && TunnelOf(es, d) == None
    ensures d in s.dials ==> ResultOf(s.dials[d].phase) == Fate(es, d) && TunnelOf(es, d) == Some(s.dials[d].t)
  {
    hide Shape, Next;
    if es != [] {
      var before, e := es[..|es| - 1], es[|es| - 1];
      var v := Run(before).value;
      ResultIsItsFate(before, v, d);
      RunKeeps(before);
      if d !in v.dials {
        DialsFrame(v, e, d);
        if e.DialBegin? && e.d == d {
          DiallingHoldsMu(v, e.t);
          BeginResult(v, d, e.t);
        }
      } else if Finalizes(e) {
        FateFinalizing(v, e, d);
      } else {
        FateStep(v, e, d);
        StopFollowsItsSteps(before, v.dials[d].t);
        if e == AddCheck(d) { DialIn(v, d); }
      }
    }
  }

  lemma BeginResult(s: State, d: DialId, t: TunnelId)
    requires Enabled(s, DialBegin(d, t))
    ensures var u := Next(s, DialBegin(d, t));
      && d in u.dials && u.dials[d].t == t
      && ResultOf(u.dials[d].phase) == if s.tunnels[t].dialMu.Some? then Some(DialInProgress) else None
  {
  }

  /** The launches a dial call has behind it. */
  predicate LaunchesMade(es: seq<Event>, d: DialId, p: DialPhase)
  {
    && (p.Watched? || p.Guarded? || (p.Returned? && p.res == Ok) ==> LaunchWatcher(d, true) in es)
    && (p.Guarded? || (p.Returned? && p.res == Ok) ==> LaunchCloser(d, true) in es)
    && (p.Returned? && p.res == Ok ==> LaunchAccept(d, true) in es)
  }

  lemma LaunchStep(s: State, e: Event, d: DialId)
    requires Enabled(s, e) && d in Next(s, e).dials && !Finalizes(e)
    ensures var p := Next(s, e).dials[d].phase;
      && (p.Watched? ==> e == LaunchWatcher(d, true) || (d in s.dials && p == s.dials[d].phase))
      && (p.Guarded? ==> (e == LaunchCloser(d, true) && d in s.dials && s.dials[d].phase.Watched?) || (d in s.dials && p == s.dials[d].phase))
      && (p.Returned? && p.res == Ok ==> (e == LaunchAccept(d, true) && d in s.dials && s.dials[d].phase.Guarded?) || (d in s.dials && p == s.dials[d].phase))
  {
  }

  lemma LaunchFinalizing(s: State, e: Event, d: DialId)
    requires Enabled(s, e) && d in Next(s, e).dials && Finalizes(e)
    ensures d in s.dials
    ensures var p := Next(s, e).dials[d].phase;
      p.Watched? || p.Guarded? || (p.Returned? && p.res == Ok) ==> p == s.dials[d].phase
  {
    match e.a { case Watcher(_) => case Server(_) => case Dialer(_) => }
  }

  lemma {:induction false} LaunchesAreEvents(es: seq<Event>, s: State, d: DialId)
    requires Run(es) == Some(s) && d in s.dials
    ensures LaunchesMade(es, d, s.dials[d].phase)
  {
    hide Next;
    var before, e := es[..|es| - 1], es[|es| - 1];
    var v := Run(before).value;
    assert es == before + [e];
    if Finalizes(e) { LaunchFinalizing(v, e, d); } else { LaunchStep(v, e, d); }
    if d in v.dials { LaunchesAreEvents(before, v, d); }
  }

  /** A dial call that has returned after installing its session reports success if and only
      if its watcher, closer and accept loop were all launched; otherwise it reports the
      failed launch, and the session is closed. */
  lemma LaunchesDecide(es: seq<Event>, s: State, d: DialId, x: SessionId)
    requires Run(es) == Some(s) && d in s.dials && s.dials[d].phase.Returned? && s.dials[d].phase.produced == Some(x)
    requires InstalledOn(s, x, s.dials[d].t)
    ensures var ok := LaunchWatcher(d, true) in es && LaunchCloser(d, true) in es && LaunchAccept(d, true) in es;
      if ok then s.dials[d].phase.res == Ok else s.dials[d].phase.res == LaunchFailed && !s.sessions[x].open
  {
    RunKeeps(es);
    LaunchesAreEvents(es, s, d);
    if LaunchAccept(d, true) in es { AcceptIsFinal(es, s, d); }
    DialLeavesNothing(es, s, d, x);
    assert DialOk(s, d) && SessionOk(s, x);
  }

  /** Once the accept loop is launched the call has returned Ok, for good. */
  lemma {:induction false} AcceptIsFinal(es: seq<Event>, s: State, d: DialId)
    requires Run(es) == Some(s) && LaunchAccept(d, true) in es
    ensures d in s.dials && s.dials[d].phase.Returned? && s.dials[d].phase.res == Ok
  {
    hide Next;
    var before, e := es[..|es| - 1], es[|es| - 1];
    var v := Run(before).value;
    assert es == before + [e];
    if LaunchAccept(d, true) in before {
      AcceptIsFinal(before, v, d);
      OkStays(v, e, d);
    } else {
      AcceptReturns(v, d);
    }
  }

  lemma OkStays(s: State, e: Event, d: DialId)
    requires Enabled(s, e) && d in s.dials && s.dials[d].phase.Returned?
    ensures d in Next(s, e).dials && Next(s, e).dials[d] == s.dials[d]
  {
    if Finalizes(e) { match e.a { case Watcher(_) => case Server(_) => case Dialer(_) => } }
  }

  lemma AcceptReturns(s: State, d: DialId)
    requires Enabled(s, LaunchAccept(d, true))
    ensures var u := Next(s, LaunchAccept(d, true)); d in u.dials && u.dials[d].phase.Returned? && u.dials[d].phase.res == Ok
  {
  }

  // --------------------------------------------------- states read off the events

  /** How far Stop has got, read off the events. */
  predicate StopAt(es: seq<Event>, t: TunnelId, p: StopPhase)
  {
    match p
    case NotStopped => StopSignal(t) !in es && StopRead(t) !in es && StopClose(t) !in es
    case Signalled => StopSignal(t) in es && StopRead(t) !in es && StopClose(t) !in es
    case Snapshot(_) => StopSignal(t) in es && StopRead(t) in es && StopClose(t) !in es
    case Stopped => StopSignal(t) in es && StopRead(t) in es && StopClose(t) in es
  }

  lemma StopStep(s: State, e: Event, t: TunnelId)
    requires Enabled(s, e) && t in s.tunnels && !Finalizes(e)
    ensures t in Next(s, e).tunnels
    ensures var p, q := s.tunnels[t].stop, Next(s, e).tunnels[t].stop;
      if e == StopSignal(t) then p.NotStopped? && q.Signalled?
      else if e == StopRead(t) then p.Signalled? && q == Snapshot(s.tunnels[t].ss)
      else if e == StopClose(t) then p.Snapshot? && q.Stopped? else p == q
  {
  }

  lemma NewTunnelStep(s: State, e: Event, t: TunnelId)
    requires Enabled(s, e) && t !in s.tunnels && !Finalizes(e)
    ensures e != StopSignal(t) && e != StopRead(t) && e != StopClose(t)
    ensures t in Next(s, e).tunnels ==> Next(s, e).tunnels[t].stop.NotStopped?
  {
  }

  /** In every run Stop is exactly as far as its steps, and has returned once all are done. */
  lemma {:induction false} StopFollowsItsSteps(es: seq<Event>, t: TunnelId)
    requires Run(es).Some?
    ensures var s := Run(es).value; StopAt(es, t, if t in s.tunnels then s.tunnels[t].stop else NotStopped)
  {
    hide Next;
    if es != [] {
      var before, e := es[..|es| - 1], es[|es| - 1];
      var v := Run(before).value;
      StopFollowsItsSteps(before, t);
      assert es == before + [e];
      if Finalizes(e) {
        StopFrameFinalizing(v, e, t);
      } else if t in v.tunnels {
        StopStep(v, e, t);
      } else {
        NewTunnelStep(v, e, t);
      }
    }
  }

  /** This step closes x: the peer or the network, the dial call that gives x up, a Stop that
      saw x, or an install over x. */
  predicate Shuts(s: State, e: Event, x: SessionId)
    requires Enabled(s, e)
  {
    match e
    case SessionCloses(y) => y == x
    case CloseOwn(d) => s.dials[d].phase.x == x
    case StopClose(t) => s.tunnels[t].stop.ss == Some(x)
    case AddInstall(d) => s.tunnels[s.dials[d].t].ss == Some(x)
    case _ => false
  }

  /** Some step of the run closed x. */
  predicate Shut(es: seq<Event>, x: SessionId)
    requires Run(es).Some?
  {
    es != [] && (
      var before := es[..|es| - 1];
      Shut(before, x) || (x in Run(before).value.sessions && Shuts(Run(before).value, es[|es| - 1], x)))
  }

  lemma OpenStep(s: State, e: Event, x: SessionId)
    requires Enabled(s, e) && x in Next(s, e).sessions && !Finalizes(e)
    ensures Next(s, e).sessions[x].open <==> x !in s.sessions || (s.sessions[x].open && !Shuts(s, e, x))
  {
  }

  lemma OpenFinalizing(s: State, e: Event, x: SessionId)
    requires Enabled(s, e) && x in Next(s, e).sessions && Finalizes(e)
    ensures x in s.sessions && Next(s, e).sessions[x].open == s.sessions[x].open
  {
    match e.a { case Watcher(_) => case Server(_) => case Dialer(_) => }
  }

  lemma SessionsStay(s: State, e: Event, x: SessionId)
    requires Enabled(s, e) && x in s.sessions
    ensures x in Next(s, e).sessions
  {
    if Finalizes(e) { match e.a { case Watcher(_) => case Server(_) => case Dialer(_) => } }
  }

  /** In every run a session is open from its start until one of those steps, and closed from
      then on. */
  lemma {:induction false} OpenUntilShut(es: seq<Event>, s: State, x: SessionId)
    requires Run(es) == Some(s)
    ensures if x in s.sessions then s.sessions[x].open <==> !Shut(es, x) else !Shut(es, x)
  {
    hide Next;
    if es != [] {
      var before, e := es[..|es| - 1], es[|es| - 1];
      var v := Run(before).value;
      OpenUntilShut(before, v, x);
      if x in v.sessions { SessionsStay(v, e, x); }
      if x in s.sessions {
        if Finalizes(e) { OpenFinalizing(v, e, x); } else { OpenStep(v, e, x); }
      }
    }
  }

  /** How far serveSession has got with x, read off the events. */
  predicate ServeAt(es: seq<Event>, x: SessionId, p: ServePhase)
  {
    && (p.NotServing? <==> ServeBegin(x) !in es)
    && (p.Creating? || p.Serving? || p.Ending? <==> ServeCount(x) in es)
    && (p.Serving? || p.Ending? <==> ServeCreate(x) in es)
    && (p.Ending? <==> ServeEnd(x) in es)
  }

  lemma ServeStep(s: State, e: Event, x: SessionId)
    requires Enabled(s, e) && x in s.sessions && !Finalizes(e)
    ensures x in Next(s, e).sessions
    ensures var p, q := s.sessions[x].serve, Next(s, e).sessions[x].serve;
      && e != ServeBegin(x)
      && if e == ServeCount(x) then p.Counting? && q.Creating?
         else if e == ServeCreate(x) then p.Creating? && q.Serving?
         else if e == ServeEnd(x) then p.Serving? && q == Ending(Flushing) else p == q
  {
  }

  lemma NewSessionStep(s: State, e: Event, x: SessionId)
    requires Enabled(s, e) && x !in s.sessions && !Finalizes(e)
    ensures e != ServeCount(x) && e != ServeCreate(x) && e != ServeEnd(x)
    ensures if x in Next(s, e).sessions then Next(s, e).sessions[x].serve == (if e == ServeBegin(x) then Counting else NotServing)
            else e != ServeBegin(x)
  {
  }

  lemma ServeFinalizing(s: State, e: Event, x: SessionId)
    requires Enabled(s, e) && Finalizes(e)
    ensures x in Next(s, e).sessions <==> x in s.sessions
    ensures x in s.sessions ==>
      var p, q := s.sessions[x].serve, Next(s, e).sessions[x].serve; p == q || (p.Ending? && q.Ending?)
  {
    match e.a { case Watcher(_) => case Server(_) => case Dialer(_) => }
  }

  /** In every run serveSession is exactly as far with x as its steps. */
  lemma {:induction false} ServeFollowsItsSteps(es: seq<Event>, x: SessionId)
    requires Run(es).Some?
    ensures var s := Run(es).value; ServeAt(es, x, if x in s.sessions then s.sessions[x].serve else NotServing)
  {
    hide Next;
    if es != [] {
      var before, e := es[..|es| - 1], es[|es| - 1];
      var v := Run(before).value;
      ServeFollowsItsSteps(before, x);
      assert es == before + [e];
      if Finalizes(e) {
        ServeFinalizing(v, e, x);
      } else if x in v.sessions {
        ServeStep(v, e, x);
      } else {
        NewSessionStep(v, e, x);
      }
    }
  }

  /** Stop is never stuck: reading t.ss waits only for a holder of t.mu that can go on. */
  lemma StopNeverStuck(es: seq<Event>, s: State, t: TunnelId)
    requires Run(es) == Some(s) && t in s.tunnels
    ensures match s.tunnels[t].stop
            case NotStopped => Enabled(s, StopSignal(t))
            case Signalled => Enabled(s, StopRead(t)) || HolderGoes(s, t)
            case Snapshot(_) => Enabled(s, StopClose(t))
            case Stopped => true
  {
    hide SessionOk, HolderGoes, Run;
    RunKeeps(es);
    LockIsFreeOrMoves(s, t);
  }

  lemma LockIsFreeOrMoves(s: State, t: TunnelId)
    requires Shape(s) && t in s.tunnels
    ensures s.tunnels[t].mu.Some? ==> HolderGoes(s, t)
  {
    assert TunnelOk(s, t);
    if s.tunnels[t].mu.Some? { assert DialOk(s, s.tunnels[t].mu.value); }
  }

  /** Nor is serveSession. */
  lemma ServeNeverStuck(s: State, x: SessionId)
    requires x in s.sessions
    ensures match s.sessions[x].serve
            case Counting => Enabled(s, ServeCount(x))
            case Creating => Enabled(s, ServeCreate(x))
            case Serving => Enabled(s, ServeEnd(x))
            case _ => true
  {
  }

  // -------------------------------------- when addSession meets an open session

  /** The dial call has taken dialMu and has not installed anything yet. */
  predicate BeforeInstall(p: DialPhase) { p.Dialing? || p.Produced? || p.Installing? }

  /** x is the tunnel's current session and open: what getSession would hand out. */
  predicate CurrentOpen(s: State, t: TunnelId, x: SessionId)
  {
    t in s.tunnels && s.tunnels[t].ss == Some(x) && x in s.sessions && s.sessions[x].open
  }

  /** A dial call stays one of its tunnel, and does not go back to before its install. */
  lemma DialStays(s: State, e: Event, d: DialId)
    requires Enabled(s, e) && d in s.dials
    ensures d in Next(s, e).dials && Next(s, e).dials[d].t == s.dials[d].t
    ensures BeforeInstall(Next(s, e).dials[d].phase) ==> BeforeInstall(s.dials[d].phase) && e != AddInstall(d)
  {
    if Finalizes(e) { match e.a { case Watcher(_) => case Server(_) => case Dialer(_) => } }
  }

  /** Only AddInstall makes a session current. */
  lemma CurrentFrame(s: State, e: Event, t: TunnelId, x: SessionId)
    requires Enabled(s, e) && !e.AddInstall? && (t in s.tunnels ==> TunnelOk(s, t)) && CurrentOpen(Next(s, e), t, x)
    ensures CurrentOpen(s, t, x)
  {
    if Finalizes(e) { match e.a { case Watcher(_) => case Server(_) => case Dialer(_) => } }
  }

  /** While a dial call holds dialMu before its install, no session becomes current. */
  lemma NoneBecomesCurrent(s: State, e: Event, d: DialId, x: SessionId)
    requires Shape(s) && Enabled(s, e) && In(s, d) && BeforeInstall(s.dials[d].phase) && e != AddInstall(d)
    requires CurrentOpen(Next(s, e), s.dials[d].t, x)
    ensures CurrentOpen(s, s.dials[d].t, x)
  {
    hide SessionOk;
    var t := s.dials[d].t;
    assert TunnelOk(s, t) && DialOk(s, d);
    if e.AddInstall? {
      assert DialOk(s, e.d);
    } else {
      CurrentFrame(s, e, t, x);
    }
  }

  lemma FinalizingKeepsInstalled(s: State, e: Event, t: TunnelId, x: SessionId)
    requires Enabled(s, e) && Finalizes(e) && InstalledOn(s, x, t)
    ensures InstalledOn(Next(s, e), x, t)
  {
    match e.a { case Watcher(_) => case Server(_) => case Dialer(_) => }
  }

  lemma OtherKeepsInstalled(s: State, e: Event, t: TunnelId, x: SessionId)
    requires Enabled(s, e) && !Finalizes(e) && InstalledOn(s, x, t)
    ensures InstalledOn(Next(s, e), x, t)
  {
  }

  lemma InstalledStays(s: State, e: Event, t: TunnelId, x: SessionId)
    requires Enabled(s, e) && InstalledOn(s, x, t)
    ensures InstalledOn(Next(s, e), x, t)
  {
    hide Next, Enabled;
    if Finalizes(e) { FinalizingKeepsInstalled(s, e, t, x); } else { OtherKeepsInstalled(s, e, t, x); }
  }

  lemma {:induction false} FromDialBegin(
    es: seq<Event>, d: DialId, t: TunnelId, later: seq<Event>, s: State, u: State, x: SessionId)
    requires Run(es) == Some(s) && Run(es + [DialBegin(d, t)] + later) == Some(u)
    ensures d in u.dials && u.dials[d].t == t
    ensures BeforeInstall(u.dials[d].phase) && CurrentOpen(u, t, x) ==> CurrentOpen(s, t, x)
    ensures InstalledOn(s, x, t) ==> InstalledOn(u, x, t)
  {
    hide Shape;
    var all := es + [DialBegin(d, t)] + later;
    if later == [] {
      assert all[..|all| - 1] == es;
      StartFrame(s, d, t, x);
    } else {
      var before := later[..|later| - 1];
      assert all[..|all| - 1] == es + [DialBegin(d, t)] + before;
      var v, e := Run(es + [DialBegin(d, t)] + before).value, all[|all| - 1];
      FromDialBegin(es, d, t, before, s, v, x);
      RunKeeps(es + [DialBegin(d, t)] + before);
      DialStays(v, e, d);
      if InstalledOn(s, x, t) { InstalledStays(v, e, t, x); }
      if BeforeInstall(u.dials[d].phase) && CurrentOpen(u, t, x) {
        DialIn(v, d);
        NoneBecomesCurrent(v, e, d, x);
      }
    }
  }

  lemma DialIn(s: State, d: DialId)
    requires Shape(s) && d in s.dials
    ensures In(s, d)
  {
    assert DialOk(s, d);
  }

  lemma StartFrame(s: State, d: DialId, t: TunnelId, x: SessionId)
    requires Enabled(s, DialBegin(d, t))
    ensures var u := Next(s, DialBegin(d, t));
      && d in u.dials && u.dials[d].t == t
      && (CurrentOpen(u, t, x) <==> CurrentOpen(s, t, x)) && (InstalledOn(u, x, t) <==> InstalledOn(s, x, t))
  {
  }

  /** What addSession closes is the open session that is current when it installs. */
  lemma InstallCloses(s: State, d: DialId, x: SessionId)
    requires Shape(s) && Enabled(s, AddInstall(d)) && x in s.sessions && s.sessions[x].open
    ensures x in Next(s, AddInstall(d)).sessions
    ensures !Next(s, AddInstall(d)).sessions[x].open <==> CurrentOpen(s, s.dials[d].t, x)
  {
    BusyLocal(s, d);
  }

  /** The step closes x. */
  predicate Closes(s: State, e: Event, x: SessionId)
    requires Enabled(s, e)
  {
    x in s.sessions && s.sessions[x].open && x in Next(s, e).sessions && !Next(s, e).sessions[x].open
  }

  /** Exactly when addSession meets an open session: it closes x if and only if x was the
      current session and open when this dial call took dialMu, and has not closed since. So
      a caller that finds no open session while holding dialMu can rely on the promise. */
  lemma MeetsOpenExactly(es: seq<Event>, d: DialId, t: TunnelId, later: seq<Event>, s: State, u: State, x: SessionId)
    requires Run(es) == Some(s) && Run(es + [DialBegin(d, t)] + later) == Some(u) && Enabled(u, AddInstall(d))
    ensures Closes(u, AddInstall(d), x) <==> CurrentOpen(s, t, x) && x in u.sessions && u.sessions[x].open
  {
    RunKeeps(es);
    RunKeeps(es + [DialBegin(d, t)] + later);
    FromDialBegin(es, d, t, later, s, u, x);
    if x in u.sessions && u.sessions[x].open {
      InstallCloses(u, d, x);
      if CurrentOpen(s, t, x) {
        CurrentIsInstalled(s, t, x);
        InstalledOpenIsCurrent(u, t, x);
      }
    }
  }

  lemma CurrentIsInstalled(s: State, t: TunnelId, x: SessionId)
    requires Shape(s) && CurrentOpen(s, t, x)
    ensures InstalledOn(s, x, t)
  {
    assert TunnelOk(s, t) && SessionOk(s, x);
  }

  lemma InstalledOpenIsCurrent(s: State, t: TunnelId, x: SessionId)
    requires Shape(s) && InstalledOn(s, x, t) && s.sessions[x].open
    ensures CurrentOpen(s, t, x)
  {
    assert SessionOk(s, x);
  }

  lemma Extend(es: seq<Event>, s: State, e: Event)
    requires Run(es) == Some(s) && Enabled(s, e)
    ensures Run(es + [e]) == Some(Next(s, e))
  {
    assert (es + [e])[..|es|] == es;
  }

  /** Tunnel 0 exists and dial call 0 of it has installed session 0. */
  lemma FirstDialInstalls() returns (es: seq<Event>, s: State)
    ensures Run(es) == Some(s) && s.tunnels == map[0 := Tunnel(Some(0), NotStopped, None, Some(0))]
    ensures s.dials == map[0 := Dial(0, Installed(0))] && s.sessions.Keys == {0} && s.sessions[0].open
  {
    es, s := [], INITIAL;
    Extend(es, s, NewTunnel(0));
    es, s := es + [NewTunnel(0)], Next(s, NewTunnel(0));
    Extend(es, s, DialBegin(0, 0));
    es, s := es + [DialBegin(0, 0)], Next(s, DialBegin(0, 0));
    Extend(es, s, DialSucceed(0, 0));
    es, s := es + [DialSucceed(0, 0)], Next(s, DialSucceed(0, 0));
    Extend(es, s, AddCheck(0));
    es, s := es + [AddCheck(0)], Next(s, AddCheck(0));
    Extend(es, s, AddInstall(0));
    es, s := es + [AddInstall(0)], Next(s, AddInstall(0));
  }

  /** That dial call returns its session. */
  lemma FirstDialReturns() returns (es: seq<Event>, s: State)
    ensures Run(es) == Some(s) && s.tunnels == map[0 := Tunnel(Some(0), NotStopped, None, None)]
    ensures s.dials.Keys == {0} && s.sessions.Keys == {0} && s.sessions[0].open
  {
    es, s := FirstDialInstalls();
    Extend(es, s, AddCount(0));
    es, s := es + [AddCount(0)], Next(s, AddCount(0));
    Extend(es, s, AddCreate(0));
    es, s := es + [AddCreate(0)], Next(s, AddCreate(0));
    Extend(es, s, LaunchWatcher(0, true));
    es, s := es + [LaunchWatcher(0, true)], Next(s, LaunchWatcher(0, true));
    Extend(es, s, LaunchCloser(0, true));
    es, s := es + [LaunchCloser(0, true)], Next(s, LaunchCloser(0, true));
    Extend(es, s, LaunchAccept(0, true));
    es, s := es + [LaunchAccept(0, true)], Next(s, LaunchAccept(0, true));
  }

  /** Serialising dials does not keep a second dial from finding an open session: a caller
      that saw no session may dial after another call has installed one. addSession then
      closes the old session, and its watcher is left to finalize it. */
  lemma SecondDialMeetsOpenSession() returns (es: seq<Event>, s: State)
    ensures Run(es) == Some(s) && Enabled(s, AddInstall(1))
    ensures 0 in s.tunnels && 0 in s.sessions && s.tunnels[0].ss == Some(0) && s.sessions[0].open && !Next(s, AddInstall(1)).sessions[0].open
  {
    es, s := FirstDialReturns();
    Extend(es, s, DialBegin(1, 0));
    es, s := es + [DialBegin(1, 0)], Next(s, DialBegin(1, 0));
    Extend(es, s, DialSucceed(1, 1));
    es, s := es + [DialSucceed(1, 1)], Next(s, DialSucceed(1, 1));
    Extend(es, s, AddCheck(1));
    es, s := es + [AddCheck(1)], Next(s, AddCheck(1));
  }
}
