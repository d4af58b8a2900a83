/**
 Lifecycle of forwarded connection pairs: forwarder.Start, SetLimit and Close as a step
 system over any number of concurrent Start calls and copy goroutines.

 One step is one atomic operation, one lock region, one goroutine launch, one handler
 callback or one conn.Close. Every Start call brings two conns of its own. The goroutine
 group is known only by this: a launch either starts the function or fails without
 running it, and it always fails once the group is closed.
 */
module Forwarder {
  import opened Common
  import opened Counting

  type PairId = nat  // one Start call

  datatype Side = Accepted | Dialed
  datatype Dir = First | Second  // First copies dialed to accepted, Second the other way

  datatype Callback = OnWriteClosed(src: Side) | OnClosed

  datatype Result = Ok | ErrClosed | ErrConnLimit | ErrLaunch

  /** The steps of the cleanup closure, in order. */
  datatype Cleanup = CloseAccepted | CloseDialed | Untrack | Release

  datatype StartPhase =
    | Entered                  // the group was open
    | Counted(v: int)          // count.Add(1) returned v
    | Over                     // v exceeded the limit: about to give the slot back
    | Admitted
    | Tracked                  // addConn done, first launch not yet attempted
    | Undoing(c: Cleanup)      // first launch failed
    | Launched                 // first launch succeeded
    | Synthesizing             // second launch failed: Start plays the second direction
    | Returned(res: Result)

  datatype CopyPhase =
    | Idle
    | Copying
    | Aborting                 // about to close both conns (closeOnce)
    | Notifying                // about to call OnWriteClosed
    | Counting                 // about to do remaining.Add(-1)
    | Halving                  // that returned 1: about to do numHalfOpen.Add(1)
    | Unhalving                // that returned 0: about to do numHalfOpen.Add(-1)
    | Cleaning(c: Cleanup)
    | Closing                  // about to call OnClosed
    | Ended

  /** slot is the value count.Add(1) returned while the pair is counted, 0 otherwise;
      halved and unhalved record the two updates of numHalfOpen; calls records the
      handler callbacks. These four are history: no step reads them. */
  datatype Pair = Pair(
    start: StartPhase, first: CopyPhase, second: CopyPhase, remaining: int,
    tracked: bool, acceptedClosed: bool, dialedClosed: bool,
    slot: int, halved: bool, unhalved: bool, calls: seq<Callback>)

  /** maxLimit (the largest limit so far) and swept (Close ran after the group closed) are history. */
  datatype State = State(
    pairs: map<PairId, Pair>, count: int, limit: int, numHalfOpen: int, groupClosed: bool,
    maxLimit: int, swept: bool)

  datatype Event =
    | Enter(p: PairId) | Count(p: PairId) | Decide(p: PairId) | BackOff(p: PairId) | Track(p: PairId)
    | LaunchFirst(p: PairId, ok: bool) | LaunchSecond(p: PairId, ok: bool) | Undo(p: PairId) | ReturnErr(p: PairId)
    | CopyDone(p: PairId, d: Dir, halfClose: bool) | Abort(p: PairId, d: Dir) | Notify(p: PairId, d: Dir)
    | CountDown(p: PairId, d: Dir) | Halve(p: PairId, d: Dir) | Unhalve(p: PairId, d: Dir)
    | Clean(p: PairId, d: Dir) | NotifyClosed(p: PairId, d: Dir)
    | SetLimit(limit: int) | CloseGroup | Close

  function Copier(q: Pair, d: Dir): CopyPhase { if d.First? then q.first else q.second }

  function WithCopier(q: Pair, d: Dir, w: CopyPhase): Pair
  {
    if d.First? then q.(first := w) else q.(second := w)
  }

  /** The conn a direction reads from. */
  function Source(d: Dir): Side { if d.First? then Dialed else Accepted }

  predicate Enabled(s: State, e: Event)
  {
    match e
    case Enter(p) => p !in s.pairs
    case Count(p) => p in s.pairs && s.pairs[p].start.Entered?
    case Decide(p) => p in s.pairs && s.pairs[p].start.Counted?
    case BackOff(p) => p in s.pairs && s.pairs[p].start.Over?
    case Track(p) => p in s.pairs && s.pairs[p].start.Admitted?
    case LaunchFirst(p, ok) => p in s.pairs && s.pairs[p].start.Tracked? && (ok ==> !s.groupClosed)
    case LaunchSecond(p, ok) => p in s.pairs && s.pairs[p].start.Launched? && (ok ==> !s.groupClosed)
    case Undo(p) => p in s.pairs && s.pairs[p].start.Undoing?
    case ReturnErr(p) => p in s.pairs && s.pairs[p].start.Synthesizing? && s.pairs[p].second.Ended?
    case CopyDone(p, d, _) => p in s.pairs && Copier(s.pairs[p], d).Copying?
    case Abort(p, d) => p in s.pairs && Copier(s.pairs[p], d).Aborting?
    case Notify(p, d) => p in s.pairs && Copier(s.pairs[p], d).Notifying?
    case CountDown(p, d) => p in s.pairs && Copier(s.pairs[p], d).Counting?
    case Halve(p, d) => p in s.pairs && Copier(s.pairs[p], d).Halving?
    case Unhalve(p, d) => p in s.pairs && Copier(s.pairs[p], d).Unhalving?
    case Clean(p, d) => p in s.pairs && Copier(s.pairs[p], d).Cleaning?
    case NotifyClosed(p, d) => p in s.pairs && Copier(s.pairs[p], d).Closing?
    case SetLimit(_) => true
    case CloseGroup => true
    case Close => true
  }

  const FRESH := Pair(Entered, Idle, Idle, 0, false, false, false, 0, false, false, [])

  function CloseBoth(q: Pair): Pair { q.(acceptedClosed := true, dialedClosed := true) }

  /** The effect of one cleanup step on the pair; Release also gives the slot back. */
  function CleanupEffect(q: Pair, c: Cleanup): Pair
  {
    match c
    case CloseAccepted => q.(acceptedClosed := true)
    case CloseDialed => q.(dialedClosed := true)
    case Untrack => q.(tracked := false)
    case Release => q.(slot := 0)
  }

  function AfterCleanup(c: Cleanup): Option<Cleanup>
  {
    match c
    case CloseAccepted => Some(CloseDialed)
    case CloseDialed => Some(Untrack)
    case Untrack => Some(Release)
    case Release => None
  }

  /** How a step changes the pair it belongs to. Other pairs change only by Close. */
  function NextPair(s: State, e: Event, q: Pair): Pair
  {
    match e
    case Count(_) => q.(start := Counted(s.count + 1), slot := s.count + 1)
    case Decide(_) => if q.start.Counted? then q.(start := if q.start.v > s.limit then Over else Admitted) else q
    case BackOff(_) => q.(start := Returned(ErrConnLimit), slot := 0)
    case Track(_) => q.(start := Tracked, tracked := true)
    case LaunchFirst(_, ok) =>
      if ok then q.(start := Launched, first := Copying, remaining := 2) else q.(start := Undoing(CloseAccepted))
    case LaunchSecond(_, ok) =>
      if ok then q.(start := Returned(Ok), second := Copying) else q.(start := Synthesizing, second := Aborting)
    case Undo(_) =>
      if !q.start.Undoing? then q else
      var after := AfterCleanup(q.start.c);
      CleanupEffect(q, q.start.c).(start := if after.None? then Returned(ErrLaunch) else Undoing(after.value))
    case ReturnErr(_) => q.(start := Returned(ErrLaunch))
    case CopyDone(_, d, halfClose) => WithCopier(q, d, if halfClose then Notifying else Aborting)
    case Abort(_, d) => WithCopier(CloseBoth(q), d, Notifying)
    case Notify(_, d) => WithCopier(q, d, Counting).(calls := q.calls + [OnWriteClosed(Source(d))])
    case CountDown(_, d) =>
      var r := q.remaining - 1;
      WithCopier(q, d, if r == 1 then Halving else if r == 0 then Unhalving else Ended).(remaining := r)
    case Halve(_, d) => WithCopier(q, d, Ended).(halved := true)
    case Unhalve(_, d) => WithCopier(q, d, Cleaning(CloseAccepted)).(unhalved := true)
    case Clean(_, d) =>
      if !Copier(q, d).Cleaning? then q else
      var c := Copier(q, d).c;
      var after := AfterCleanup(c);
      WithCopier(CleanupEffect(q, c), d, if after.None? then Closing else Cleaning(after.value))
    case NotifyClosed(_, d) => WithCopier(q, d, Ended).(calls := q.calls + [OnClosed])
    case _ => q
  }

  /** The net change a step makes to the shared count. */
  function CountDelta(s: State, e: Event): int
    requires Enabled(s, e)
  {
    match e
    case Count(_) => 1
    case BackOff(_) => -1
    case Undo(p) => if s.pairs[p].start.c.Release? then -1 else 0
    case Clean(p, d) => if Copier(s.pairs[p], d).c.Release? then -1 else 0
    case _ => 0
  }

  function Next(s: State, e: Event): State
    requires Enabled(s, e)
  {
    match e
    case Enter(p) =>
      s.(pairs := s.pairs[p := FRESH.(start := if s.groupClosed then Returned(ErrClosed) else Entered)])
    case SetLimit(l) => s.(limit := l, maxLimit := if l > s.maxLimit then l else s.maxLimit)
    case CloseGroup => s.(groupClosed := true)
    case Close =>
      s.(pairs := map p | p in s.pairs :: if s.pairs[p].tracked then CloseBoth(s.pairs[p]) else s.pairs[p],
         swept := s.swept || s.groupClosed)
    case _ =>
      s.(pairs := s.pairs[e.p := NextPair(s, e, s.pairs[e.p])],
         count := s.count + CountDelta(s, e),
         numHalfOpen := s.numHalfOpen + if e.Halve? then 1 else if e.Unhalve? then -1 else 0)
  }

  function Initial(limit: int): State { State(map[], 0, limit, 0, false, limit, false) }

  function Run(limit: int, es: seq<Event>): Option<State>
  {
    if es == [] then Some(Initial(limit)) else
    match Run(limit, es[..|es| - 1])
    case None => None
    case Some(s) => if Enabled(s, es[|es| - 1]) then Some(Next(s, es[|es| - 1])) else None
  }

  // ------------------------------------------------- what holds of every pair

  predicate Counts(w: CopyPhase)  // has done its remaining.Add(-1)
  {
    w.Halving? || w.Unhalving? || w.Cleaning? || w.Closing? || w.Ended?
  }

  predicate Notified(w: CopyPhase) { w.Counting? || Counts(w) }

  /** Is the direction that took remaining to 0 and has not yet called OnClosed. */
  predicate Finishing(w: CopyPhase) { w.Unhalving? || w.Cleaning? || w.Closing? }

  predicate Finished(q: Pair) { q.remaining == 0 && !q.first.Idle? && !Finishing(q.first) && !Finishing(q.second) }

  /** How far the one cleanup of this pair has got: the step it is about to do. */
  function CleanupAt(q: Pair): Option<Cleanup>
  {
    if q.start.Undoing? then Some(q.start.c)
    else if q.first.Cleaning? then Some(q.first.c)
    else if q.second.Cleaning? then Some(q.second.c)
    else None
  }

  predicate CleanedUp(q: Pair) { Finished(q) || q.first.Closing? || q.second.Closing? }

  predicate CallsOk(q: Pair)
  {
    var last := if Finished(q) then [OnClosed] else [];
    if Notified(q.first) && Notified(q.second) then
      q.calls == [OnWriteClosed(Dialed), OnWriteClosed(Accepted)] + last ||
      q.calls == [OnWriteClosed(Accepted), OnWriteClosed(Dialed)] + last
    else if Notified(q.first) then q.calls == [OnWriteClosed(Dialed)]
    else if Notified(q.second) then q.calls == [OnWriteClosed(Accepted)]
    else q.calls == []
  }

  /** Tracking, closing and the slot follow the progress of the cleanup. */
  predicate ResourcesOk(q: Pair)
  {
    var c := CleanupAt(q);
    && (q.slot > 0 <==> !(q.start.Entered? || CleanedUp(q) || (q.start.Returned? && q.first.Idle?)))
    && q.slot >= 0
    && (q.tracked <==> q.slot > 0 && !q.start.Counted? && !q.start.Over? && !q.start.Admitted? && c != Some(Release))
    && (c == Some(CloseDialed) ==> q.acceptedClosed)
    && (c == Some(Untrack) || c == Some(Release) || CleanedUp(q) || (q.start == Returned(ErrLaunch) && q.first.Idle?) ==>
          q.acceptedClosed && q.dialedClosed)
  }

  predicate PairOk(q: Pair)
  {
    && (q.start.Launched? || q.start.Synthesizing? || q.start == Returned(Ok) ==> !q.first.Idle?)
    && (q.first.Idle? ==> q.second.Idle? && q.remaining == 0 && !q.halved && !q.unhalved)
    && (q.first.Idle? ==> q.start != Returned(Ok))
    && (!q.first.Idle? ==>
          && (q.start.Launched? || q.start.Synthesizing? || q.start == Returned(Ok) || q.start == Returned(ErrLaunch))
          && (q.second.Idle? <==> q.start.Launched?)
          && (q.start.Returned? ==> !q.second.Idle?)
          && (q.start == Returned(ErrLaunch) ==> q.second.Ended?)
          && q.remaining == 2 - (if Counts(q.first) then 1 else 0) - (if Counts(q.second) then 1 else 0)
          && (q.remaining > 0 ==> !Finishing(q.first) && !Finishing(q.second))
          && !(Finishing(q.first) && Finishing(q.second))
          && !(q.first.Halving? && q.second.Halving?)
          && (q.halved <==> q.remaining <= 1 && !q.first.Halving? && !q.second.Halving?)
          && (q.unhalved <==> q.remaining == 0 && !q.first.Unhalving? && !q.second.Unhalving?))
    && CallsOk(q)
    && ResourcesOk(q)
    && (q.start.Counted? ==> q.slot == q.start.v)
  }

  lemma AdmissionStepOk(s: State, e: Event)
    requires Enabled(s, e) && (e.Count? || e.Decide? || e.BackOff? || e.Track?)
    requires PairOk(s.pairs[e.p]) && s.count >= 0
    ensures PairOk(NextPair(s, e, s.pairs[e.p]))
  {
  }

  lemma LaunchStepOk(s: State, e: Event)
    requires Enabled(s, e) && (e.LaunchFirst? || e.LaunchSecond? || e.ReturnErr?)
    requires PairOk(s.pairs[e.p]) && s.count >= 0
    ensures PairOk(NextPair(s, e, s.pairs[e.p]))
  {
  }

  lemma UndoStepOk(s: State, e: Event)
    requires Enabled(s, e) && (e.Undo?)
    requires PairOk(s.pairs[e.p]) && s.count >= 0
    ensures PairOk(NextPair(s, e, s.pairs[e.p]))
  {
  }

  lemma CopyDoneOk(s: State, e: Event)
    requires Enabled(s, e) && e.CopyDone?
    requires PairOk(s.pairs[e.p]) && s.count >= 0
    ensures PairOk(NextPair(s, e, s.pairs[e.p]))
  {
    match e.d { case First => case Second => }
  }

  lemma AbortOk(s: State, e: Event)
    requires Enabled(s, e) && e.Abort?
    requires PairOk(s.pairs[e.p]) && s.count >= 0
    ensures PairOk(NextPair(s, e, s.pairs[e.p]))
  {
    match e.d { case First => case Second => }
  }

  lemma NotifyStepOk(s: State, e: Event)
    requires Enabled(s, e) && (e.Notify?)
    requires PairOk(s.pairs[e.p]) && s.count >= 0
    ensures PairOk(NextPair(s, e, s.pairs[e.p]))
  {
    match e.d { case First => case Second => }
  }

  lemma CountDownOk(s: State, e: Event)
    requires Enabled(s, e) && (e.CountDown?)
    requires PairOk(s.pairs[e.p]) && s.count >= 0
    ensures PairOk(NextPair(s, e, s.pairs[e.p]))
  {
    match e.d { case First => case Second => }
  }

  lemma HalfOpenStepOk(s: State, e: Event)
    requires Enabled(s, e) && (e.Halve? || e.Unhalve?)
    requires PairOk(s.pairs[e.p]) && s.count >= 0
    ensures PairOk(NextPair(s, e, s.pairs[e.p]))
  {
    match e.d { case First => case Second => }
  }

  lemma CleanByFirst(s: State, e: Event)
    requires Enabled(s, e) && e.Clean? && e.d.First? && PairOk(s.pairs[e.p])
    ensures PairOk(NextPair(s, e, s.pairs[e.p]))
  {
    match s.pairs[e.p].first.c { case CloseAccepted => case CloseDialed => case Untrack => case Release => }
  }

  lemma CleanBySecond(s: State, e: Event)
    requires Enabled(s, e) && e.Clean? && e.d.Second? && PairOk(s.pairs[e.p])
    ensures PairOk(NextPair(s, e, s.pairs[e.p]))
  {
    match s.pairs[e.p].second.c { case CloseAccepted => case CloseDialed => case Untrack => case Release => }
  }

  lemma CleanStepOk(s: State, e: Event)
    requires Enabled(s, e) && e.Clean?
    requires PairOk(s.pairs[e.p]) && s.count >= 0
    ensures PairOk(NextPair(s, e, s.pairs[e.p]))
  {
    hide PairOk, NextPair;
    match e.d { case First => CleanByFirst(s, e); case Second => CleanBySecond(s, e); }
  }

  lemma NotifyClosedOk(s: State, e: Event)
    requires Enabled(s, e) && (e.NotifyClosed?)
    requires PairOk(s.pairs[e.p]) && s.count >= 0
    ensures PairOk(NextPair(s, e, s.pairs[e.p]))
  {
    match e.d { case First => case Second => }
  }

  lemma NextPairOk(s: State, e: Event)
    requires Enabled(s, e) && IsOwn(e)
    requires PairOk(s.pairs[e.p]) && s.count >= 0
    ensures PairOk(NextPair(s, e, s.pairs[e.p]))
  {
    match e
    case LaunchFirst(_, _) => LaunchStepOk(s, e);
    case LaunchSecond(_, _) => LaunchStepOk(s, e);
    case ReturnErr(_) => LaunchStepOk(s, e);
    case Undo(_) => UndoStepOk(s, e);
    case CopyDone(_, _, _) => CopyDoneOk(s, e);
    case Abort(_, _) => AbortOk(s, e);
    case Notify(_, _) => NotifyStepOk(s, e);
    case CountDown(_, _) => CountDownOk(s, e);
    case Halve(_, _) => HalfOpenStepOk(s, e);
    case Unhalve(_, _) => HalfOpenStepOk(s, e);
    case Clean(_, _) => CleanStepOk(s, e);
    case NotifyClosed(_, _) => NotifyClosedOk(s, e);
    case _ => AdmissionStepOk(s, e);
  }

  // --------------------------------------------------- counting over all pairs

  const HasSlot := (q: Pair) => q.slot > 0
  const IsHalved := (q: Pair) => q.halved
  const IsUnhalved := (q: Pair) => q.unhalved
  function SlotUpTo(l: int): Pair -> bool { (q: Pair) => 0 < q.slot <= l }

  /** Admitted and not yet cleaned up. */
  const IsActive := (q: Pair) => q.slot > 0 && !q.start.Counted? && !q.start.Over?

  ghost predicate CountsOk(s: State)
  {
    && s.count == |Where(s.pairs, HasSlot)|
    && s.numHalfOpen == |Where(s.pairs, IsHalved)| - |Where(s.pairs, IsUnhalved)|
  }

  /** Among the counted pairs, at most l got a count of l or less. */
  ghost predicate SlotsOk(s: State)
  {
    forall l: nat :: |Where(s.pairs, SlotUpTo(l))| <= l
  }

  predicate LimitOk(s: State, q: Pair) { IsActive(q) ==> q.slot <= s.maxLimit }

  /** After the shutdown order, an open tracked conn belongs to a Start whose first launch
      is still to fail, or has failed and is being undone. */
  predicate SweptOk(s: State, q: Pair)
  {
    s.swept && q.tracked ==> (q.acceptedClosed && q.dialedClosed) || q.start.Tracked? || q.start.Undoing?
  }

  ghost predicate Inv(s: State)
  {
    && (forall p :: p in s.pairs ==> PairOk(s.pairs[p]) && LimitOk(s, s.pairs[p]) && SweptOk(s, s.pairs[p]))
    && CountsOk(s)
    && SlotsOk(s)
    && s.limit <= s.maxLimit
    && (s.swept ==> s.groupClosed)
  }

  /** A step of a thread of pair e.p. */
  predicate IsOwn(e: Event) { !e.Enter? && !e.SetLimit? && !e.CloseGroup? && !e.Close? }

  predicate ByStart(e: Event)
  {
    e.Count? || e.Decide? || e.BackOff? || e.Track? || e.LaunchFirst? || e.LaunchSecond? || e.Undo? || e.ReturnErr?
  }

  /** What a pair's own step does to its slot and to its half-open record. */
  predicate Deltas(s: State, e: Event, q: Pair, r: Pair)
    requires Enabled(s, e)
  {
    && One(r.slot > 0) - One(q.slot > 0) == CountDelta(s, e)
    && (e.Count? ==> q.slot == 0 && r.slot == s.count + 1)
    && (!e.Count? ==> r.slot == q.slot || r.slot == 0)
    && One(r.halved) - One(q.halved) == One(e.Halve?)
    && One(r.unhalved) - One(q.unhalved) == One(e.Unhalve?)
  }

  lemma StartDeltas(s: State, e: Event)
    requires Enabled(s, e) && ByStart(e) && PairOk(s.pairs[e.p]) && s.count >= 0
    ensures Deltas(s, e, s.pairs[e.p], NextPair(s, e, s.pairs[e.p]))
  {
  }

  lemma FirstDeltas(s: State, e: Event)
    requires Enabled(s, e) && IsOwn(e) && !ByStart(e) && e.d.First? && PairOk(s.pairs[e.p])
    ensures Deltas(s, e, s.pairs[e.p], NextPair(s, e, s.pairs[e.p]))
  {
  }

  lemma SecondDeltas(s: State, e: Event)
    requires Enabled(s, e) && IsOwn(e) && !ByStart(e) && e.d.Second? && PairOk(s.pairs[e.p])
    ensures Deltas(s, e, s.pairs[e.p], NextPair(s, e, s.pairs[e.p]))
  {
  }

  lemma PairDeltas(s: State, e: Event)
    requires Enabled(s, e) && IsOwn(e) && PairOk(s.pairs[e.p]) && s.count >= 0
    ensures Deltas(s, e, s.pairs[e.p], NextPair(s, e, s.pairs[e.p]))
  {
    hide PairOk, NextPair, Deltas, Enabled;
    if ByStart(e) {
      StartDeltas(s, e);
    } else {
      match e.d { case First => FirstDeltas(s, e); case Second => SecondDeltas(s, e); }
    }
  }

  lemma CountsAfter(s: State, t: State, p: PairId, q: Pair)
    requires CountsOk(s) && p in s.pairs && t.pairs == s.pairs[p := q]
    requires t.count - s.count == One(q.slot > 0) - One(s.pairs[p].slot > 0)
    requires t.numHalfOpen - s.numHalfOpen ==
               One(q.halved) - One(s.pairs[p].halved) - One(q.unhalved) + One(s.pairs[p].unhalved)
    ensures CountsOk(t)
  {
    WhereUpdate(s.pairs, p, q, HasSlot);
    WhereUpdate(s.pairs, p, q, IsHalved);
    WhereUpdate(s.pairs, p, q, IsUnhalved);
  }

  /** The heart of the admission argument: a new count v counts every pair that holds a
      slot, so the pairs with a count of at most l, for any l >= v, number at most v. */
  lemma SlotsAfter(s: State, t: State, p: PairId, q: Pair)
    requires SlotsOk(s) && p in s.pairs && t.pairs == s.pairs[p := q] && t.count == |Where(t.pairs, HasSlot)|
    requires q.slot == s.pairs[p].slot || q.slot == 0 || (s.pairs[p].slot == 0 && q.slot == t.count)
    ensures SlotsOk(t)
  {
    forall l: nat ensures |Where(t.pairs, SlotUpTo(l))| <= l {
      WhereUpdate(s.pairs, p, q, SlotUpTo(l));
      assert |Where(s.pairs, SlotUpTo(l))| <= l;
      if l >= t.count {
        SubsetSize(Where(t.pairs, SlotUpTo(l)), Where(t.pairs, HasSlot));
      }
    }
  }

  lemma PairsAfter(s: State, t: State, p: PairId, q: Pair)
    requires Inv(s) && p in s.pairs && t.pairs == s.pairs[p := q]
    requires t.maxLimit == s.maxLimit && t.swept == s.swept
    requires PairOk(q) && LimitOk(s, q) && SweptOk(s, q)
    ensures forall k :: k in t.pairs ==> PairOk(t.pairs[k]) && LimitOk(t, t.pairs[k]) && SweptOk(t, t.pairs[k])
  {
  }

  lemma OwnStepCounts(s: State, e: Event)
    requires CountsOk(s) && SlotsOk(s) && Enabled(s, e) && IsOwn(e) && Deltas(s, e, s.pairs[e.p], NextPair(s, e, s.pairs[e.p]))
    ensures CountsOk(Next(s, e)) && SlotsOk(Next(s, e))
  {
    hide NextPair, Where, SlotsOk;
    var q, t := NextPair(s, e, s.pairs[e.p]), Next(s, e);
    CountsAfter(s, t, e.p, q);
    SlotsAfter(s, t, e.p, q);
  }

  lemma OwnStepKeeps(s: State, e: Event)
    requires Inv(s) && Enabled(s, e) && IsOwn(e)
    ensures Inv(Next(s, e))
  {
    hide PairOk, LimitOk, SweptOk, NextPair, Where, SlotsOk, Deltas;
    assert s.count >= 0;
    NextPairOk(s, e);
    PairDeltas(s, e);
    OwnStepCounts(s, e);
    OwnStepKeepsLimits(s, e);
    OwnStepKeepsSwept(s, e);
    PairsAfter(s, Next(s, e), e.p, NextPair(s, e, s.pairs[e.p]));
  }

  /** A copy goroutine leaves the Start alone and can only give the slot back. */
  lemma CopierFrame(s: State, e: Event)
    requires Enabled(s, e) && IsOwn(e) && !ByStart(e)
    ensures var q, r := s.pairs[e.p], NextPair(s, e, s.pairs[e.p]); r.start == q.start && (r.slot == q.slot || r.slot == 0)
  {
    match e.d { case First => case Second => }
  }

  /** Only Decide admits a pair, and only if the count it got is within the limit. */
  lemma StartFrame(s: State, e: Event)
    requires Enabled(s, e) && ByStart(e) && PairOk(s.pairs[e.p])
    ensures var q, r := s.pairs[e.p], NextPair(s, e, s.pairs[e.p]);
      r.start.Counted? || r.start.Over? || r.slot == 0
      || (r.slot == q.slot && (if e.Decide? then r.slot <= s.limit else !q.start.Counted? && !q.start.Over?))
  {
  }

  lemma OwnStepKeepsLimits(s: State, e: Event)
    requires Enabled(s, e) && IsOwn(e)
    requires PairOk(s.pairs[e.p]) && LimitOk(s, s.pairs[e.p]) && s.limit <= s.maxLimit
    ensures LimitOk(s, NextPair(s, e, s.pairs[e.p]))
  {
    hide NextPair, PairOk, Enabled;
    if ByStart(e) { StartFrame(s, e); } else { CopierFrame(s, e); }
  }

  lemma StartKeepsSwept(s: State, e: Event)
    requires Enabled(s, e) && ByStart(e) && PairOk(s.pairs[e.p]) && SweptOk(s, s.pairs[e.p]) && (s.swept ==> s.groupClosed)
    ensures SweptOk(s, NextPair(s, e, s.pairs[e.p]))
  {
  }

  lemma FirstKeepsSwept(s: State, e: Event)
    requires Enabled(s, e) && IsOwn(e) && !ByStart(e) && e.d.First? && SweptOk(s, s.pairs[e.p])
    ensures SweptOk(s, NextPair(s, e, s.pairs[e.p]))
  {
  }

  lemma SecondKeepsSwept(s: State, e: Event)
    requires Enabled(s, e) && IsOwn(e) && !ByStart(e) && e.d.Second? && SweptOk(s, s.pairs[e.p])
    ensures SweptOk(s, NextPair(s, e, s.pairs[e.p]))
  {
  }

  lemma OwnStepKeepsSwept(s: State, e: Event)
    requires Enabled(s, e) && IsOwn(e)
    requires PairOk(s.pairs[e.p]) && SweptOk(s, s.pairs[e.p]) && (s.swept ==> s.groupClosed)
    ensures SweptOk(s, NextPair(s, e, s.pairs[e.p]))
  {
    hide PairOk, NextPair, SweptOk, Enabled;
    if ByStart(e) {
      StartKeepsSwept(s, e);
    } else {
      match e.d { case First => FirstKeepsSwept(s, e); case Second => SecondKeepsSwept(s, e); }
    }
  }

  lemma EnterKeeps(s: State, e: Event)
    requires Inv(s) && Enabled(s, e) && e.Enter?
    ensures Inv(Next(s, e))
  {
    var t := Next(s, e);
    var q := t.pairs[e.p];
    WhereUpdate(s.pairs, e.p, q, HasSlot);
    WhereUpdate(s.pairs, e.p, q, IsHalved);
    WhereUpdate(s.pairs, e.p, q, IsUnhalved);
    forall l: nat ensures |Where(t.pairs, SlotUpTo(l))| <= l {
      WhereUpdate(s.pairs, e.p, q, SlotUpTo(l));
      assert |Where(s.pairs, SlotUpTo(l))| <= l;
    }
  }

  lemma CloseBothOk(q: Pair)
    requires PairOk(q)
    ensures PairOk(CloseBoth(q))
  {
  }

  lemma CloseKeeps(s: State)
    requires Inv(s)
    ensures Inv(Next(s, Close))
  {
    hide PairOk, Where;
    var t := Next(s, Close);
    forall p | p in t.pairs ensures PairOk(t.pairs[p]) && LimitOk(t, t.pairs[p]) && SweptOk(t, t.pairs[p]) {
      CloseBothOk(s.pairs[p]);
      assert LimitOk(s, s.pairs[p]) && SweptOk(s, s.pairs[p]);
    }
    WhereFrame(s.pairs, t.pairs, HasSlot);
    WhereFrame(s.pairs, t.pairs, IsHalved);
    WhereFrame(s.pairs, t.pairs, IsUnhalved);
    forall l: nat ensures |Where(t.pairs, SlotUpTo(l))| <= l {
      WhereFrame(s.pairs, t.pairs, SlotUpTo(l));
    }
  }

  lemma SharedStepKeeps(s: State, e: Event)
    requires Inv(s) && Enabled(s, e) && (e.SetLimit? || e.CloseGroup?)
    ensures Inv(Next(s, e))
  {
    var t := Next(s, e);
    forall p | p in t.pairs ensures PairOk(t.pairs[p]) && LimitOk(t, t.pairs[p]) && SweptOk(t, t.pairs[p]) {
      assert LimitOk(s, s.pairs[p]) && SweptOk(s, s.pairs[p]);
    }
    assert forall l: nat :: |Where(s.pairs, SlotUpTo(l))| <= l;
  }

  /** Every step of every Start, copy goroutine, SetLimit, group close and Close keeps the invariant. */
  lemma StepKeeps(s: State, e: Event)
    requires Inv(s) && Enabled(s, e)
    ensures Inv(Next(s, e))
  {
    if e.Enter? {
      EnterKeeps(s, e);
    } else if e.Close? {
      CloseKeeps(s);
    } else if e.SetLimit? || e.CloseGroup? {
      SharedStepKeeps(s, e);
    } else {
      OwnStepKeeps(s, e);
    }
  }

  lemma {:induction false} RunKeeps(limit: int, es: seq<Event>)
    requires Run(limit, es).Some?
    ensures Inv(Run(limit, es).value)
  {
    if es == [] {
      InitialInv(limit);
    } else {
      RunKeeps(limit, es[..|es| - 1]);
      StepKeeps(Run(limit, es[..|es| - 1]).value, es[|es| - 1]);
    }
  }

  lemma InitialInv(limit: int)
    ensures Inv(Initial(limit))
  {
    forall l: nat ensures |Where(Initial(limit).pairs, SlotUpTo(l))| <= l {
      assert Where(Initial(limit).pairs, SlotUpTo(l)) == {};
    }
    assert Where(Initial(limit).pairs, HasSlot) == {};
    assert Where(Initial(limit).pairs, IsHalved) == {} == Where(Initial(limit).pairs, IsUnhalved);
  }

  // --------------------------------------------------------- whole-run results

  /** However Start, SetLimit and cleanup interleave, the pairs that are admitted and not
      yet cleaned up never outnumber the largest limit there has been. */
  lemma AdmissionBound(limit: int, es: seq<Event>, s: State)
    requires Run(limit, es) == Some(s)
    ensures |Where(s.pairs, IsActive)| <= if s.maxLimit > 0 then s.maxLimit else 0
    ensures s.maxLimit == LargestLimit(limit, es)
  {
    RunKeeps(limit, es);
    LargestLimitIsMax(limit, es);
    var l := if s.maxLimit > 0 then s.maxLimit else 0;
    assert |Where(s.pairs, SlotUpTo(l))| <= l;
    forall p | p in Where(s.pairs, IsActive) ensures p in Where(s.pairs, SlotUpTo(l)) {
      assert LimitOk(s, s.pairs[p]);
    }
    SubsetSize(Where(s.pairs, IsActive), Where(s.pairs, SlotUpTo(l)));
  }

  function LargestLimit(limit: int, es: seq<Event>): int
  {
    if es == [] then limit else
    var l := LargestLimit(limit, es[..|es| - 1]);
    if es[|es| - 1].SetLimit? && es[|es| - 1].limit > l then es[|es| - 1].limit else l
  }

  lemma {:induction false} LargestLimitIsMax(limit: int, es: seq<Event>)
    requires Run(limit, es).Some?
    ensures Run(limit, es).value.maxLimit == LargestLimit(limit, es)
  {
    if es != [] {
      LargestLimitIsMax(limit, es[..|es| - 1]);
    }
  }

  /** The handler of a pair sees OnWriteClosed once per direction and then OnClosed once,
      never anything else; when OnClosed has run or is about to, both conns are closed and
      untracked and the slot is free. A pair whose first launch never succeeded gets no
      callback at all. */
  lemma CallbackOrder(limit: int, es: seq<Event>, s: State, p: PairId)
    requires Run(limit, es) == Some(s) && p in s.pairs
    ensures var q := s.pairs[p];
      && (q.calls <= [OnWriteClosed(Dialed), OnWriteClosed(Accepted), OnClosed]
          || q.calls <= [OnWriteClosed(Accepted), OnWriteClosed(Dialed), OnClosed])
      && (OnClosed in q.calls || q.first.Closing? || q.second.Closing? ==>
            |q.calls| >= 2 && q.acceptedClosed && q.dialedClosed && !q.tracked && q.slot == 0)
      && (q.first.Idle? ==> q.calls == [])
  {
    RunKeeps(limit, es);
    var q := s.pairs[p];
    assert PairOk(q);
    ShortCalls(q);
  }

  lemma ShortCalls(q: Pair)
    requires CallsOk(q)
    ensures q.calls <= [OnWriteClosed(Dialed), OnWriteClosed(Accepted), OnClosed]
         || q.calls <= [OnWriteClosed(Accepted), OnWriteClosed(Dialed), OnClosed]
    ensures OnClosed in q.calls ==> Finished(q) && |q.calls| == 3
  {
  }

  predicate Done(q: Pair)
  {
    q.start.Returned? && (q.first.Idle? || (q.first.Ended? && q.second.Ended?))
  }

  /** Once both directions of a launched pair have ended, both were reported and OnClosed
      ran, all exactly once, also when the second launch had failed; a Start that returned
      without a launch left nothing behind and told nobody, and one that returned because
      the second launch failed has played that direction to its end. */
  lemma CallbacksComplete(limit: int, es: seq<Event>, s: State, p: PairId)
    requires Run(limit, es) == Some(s) && p in s.pairs
    ensures var q := s.pairs[p];
      && (q.first.Ended? && q.second.Ended? ==>
            && (q.calls == [OnWriteClosed(Dialed), OnWriteClosed(Accepted), OnClosed] ||
                q.calls == [OnWriteClosed(Accepted), OnWriteClosed(Dialed), OnClosed])
            && q.acceptedClosed && q.dialedClosed && !q.tracked && q.slot == 0)
      && (q.start == Returned(Ok) ==> !q.first.Idle? && !q.second.Idle?)
      && (q.start.Returned? && q.first.Idle? ==> q.calls == [] && !q.tracked && q.slot == 0)
      && (q.start == Returned(ErrLaunch) && !q.first.Idle? ==> q.second.Ended?)
  {
    RunKeeps(limit, es);
    assert PairOk(s.pairs[p]);
  }

  const IsDeciding := (q: Pair) => q.start.Counted? || q.start.Over?
  const IsHalfDone := (q: Pair) => Counts(q.first) != Counts(q.second)   // exactly one direction counted down
  const IsHalving := (q: Pair) => q.first.Halving? || q.second.Halving?
  const IsUnhalving := (q: Pair) => q.first.Unhalving? || q.second.Unhalving?
  const IsPartDone := (q: Pair) => Counts(q.first) || Counts(q.second)
  const IsAllDone := (q: Pair) => Counts(q.first) && Counts(q.second)

  /** In every state count is the admitted, uncleaned pairs plus the Starts between their
      increment and its verdict, and numHalfOpen is the pairs with exactly one finished
      direction up to the threads between their countdown and its update. So with no thread
      mid-update both are exact. */
  lemma CountersExact(limit: int, es: seq<Event>, s: State)
    requires Run(limit, es) == Some(s)
    ensures s.count == |Where(s.pairs, IsActive)| + |Where(s.pairs, IsDeciding)|
    ensures s.numHalfOpen == |Where(s.pairs, IsHalfDone)| - |Where(s.pairs, IsHalving)| + |Where(s.pairs, IsUnhalving)|
    ensures (forall p :: p in s.pairs ==> !IsDeciding(s.pairs[p])) ==> s.count == |Where(s.pairs, IsActive)|
    ensures (forall p :: p in s.pairs ==> !IsHalving(s.pairs[p]) && !IsUnhalving(s.pairs[p])) ==>
              s.numHalfOpen == |Where(s.pairs, IsHalfDone)|
  {
    hide PairOk, Run;
    RunKeeps(limit, es);
    var m := s.pairs;
    forall p | p in m ensures CountsOf(m[p]) { PairCounts(m[p]); }
    WhereSplit(m, HasSlot, IsActive, IsDeciding);
    WhereSplit(m, IsPartDone, IsHalved, IsHalving);
    WhereSplit(m, IsPartDone, IsHalfDone, IsAllDone);
    WhereSplit(m, IsAllDone, IsUnhalved, IsUnhalving);
    if forall p :: p in m ==> !IsDeciding(m[p]) { WhereNone(m, IsDeciding); }
    if forall p :: p in m ==> !IsHalving(m[p]) && !IsUnhalving(m[p]) { WhereNone(m, IsHalving); WhereNone(m, IsUnhalving); }
  }

  /** How one pair contributes to the counters. */
  predicate CountsOf(q: Pair)
  {
    && (HasSlot(q) <==> IsActive(q) || IsDeciding(q)) && !(IsActive(q) && IsDeciding(q))
    && (IsPartDone(q) <==> IsHalved(q) || IsHalving(q)) && !(IsHalved(q) && IsHalving(q))
    && (IsAllDone(q) <==> IsUnhalved(q) || IsUnhalving(q)) && !(IsUnhalved(q) && IsUnhalving(q))
  }

  lemma PairCounts(q: Pair)
    requires PairOk(q)
    ensures CountsOf(q)
  {
  }

  /** Shutdown closes the group and then calls Close. From then on a tracked conn is closed,
      or belongs to a Start that is about to fail its first launch or is undoing it; so no
      copy can block on an open conn, and nothing new can be launched. */
  lemma ShutdownLeavesNothingOpen(limit: int, es: seq<Event>, s: State, p: PairId)
    requires Run(limit, es) == Some(s) && s.swept && p in s.pairs
    ensures var q := s.pairs[p];
      && (q.tracked ==> (q.acceptedClosed && q.dialedClosed) || q.start.Tracked? || q.start.Undoing?)
      && (q.first.Copying? || q.second.Copying? ==> q.acceptedClosed && q.dialedClosed)
      && !Enabled(s, LaunchFirst(p, true)) && !Enabled(s, LaunchSecond(p, true))
      && (Done(q) ==> !q.tracked && (q.start != Returned(ErrConnLimit) && q.start != Returned(ErrClosed) ==>
            q.acceptedClosed && q.dialedClosed))
  {
    RunKeeps(limit, es);
    var q := s.pairs[p];
    assert PairOk(q) && SweptOk(s, q);
    if q.first.Copying? || q.second.Copying? { CopyingIsTracked(q); }
    if Done(q) && q.start != Returned(ErrConnLimit) && q.start != Returned(ErrClosed) { DoneIsClosed(q); }
  }

  /** The pair tracked its conns and no Close has run since. */
  predicate TrackedSinceClose(es: seq<Event>, p: PairId)
  {
    es != [] && (
      var e := es[|es| - 1];
      e == Track(p) || (!e.Close? && TrackedSinceClose(es[..|es| - 1], p)))
  }

  /** The Start has tracked its conns and has not closed both of them itself. */
  predicate MayHoldOpen(q: Pair)
  {
    q.start.Tracked? || q.start == Undoing(CloseAccepted) || q.start == Undoing(CloseDialed)
  }

  /** Until a pair is launched its conns are closed only by its own cleanup, or by a Close
      that found them tracked. */
  predicate OpenSince(q: Pair, since: bool)
  {
    && (q.start.Entered? || q.start.Counted? || q.start.Over? || q.start.Admitted? ==> !q.acceptedClosed && !q.dialedClosed)
    && (q.start.Tracked? || q.start == Undoing(CloseAccepted) ==> q.acceptedClosed == q.dialedClosed == !since)
    && (q.start == Undoing(CloseDialed) ==> q.dialedClosed == !since)
  }

  lemma StartKeepsOpenSince(s: State, e: Event, since: bool)
    requires Enabled(s, e) && ByStart(e) && OpenSince(s.pairs[e.p], since)
    ensures OpenSince(NextPair(s, e, s.pairs[e.p]), e.Track? || since)
  {
    if e.Undo? { match s.pairs[e.p].start.c { case CloseAccepted => case CloseDialed => case Untrack => case Release => } }
  }

  lemma LaunchedIsOpenSince(q: Pair, since: bool)
    requires PairOk(q) && !q.first.Idle?
    ensures OpenSince(q, since)
  {
  }

  lemma CopierIsLaunched(s: State, e: Event)
    requires Enabled(s, e) && IsOwn(e) && !ByStart(e) && PairOk(s.pairs[e.p])
    ensures !s.pairs[e.p].first.Idle? && !NextPair(s, e, s.pairs[e.p]).first.Idle?
  {
    match e.d { case First => case Second => }
  }

  lemma CloseKeepsOpenSince(q: Pair, since: bool)
    requires PairOk(q) && OpenSince(q, since)
    ensures OpenSince(if q.tracked then CloseBoth(q) else q, false)
  {
  }

  lemma StepKeepsOpenSince(s: State, e: Event, p: PairId, since: bool)
    requires Inv(s) && Enabled(s, e) && p in Next(s, e).pairs && (p in s.pairs ==> OpenSince(s.pairs[p], since))
    ensures OpenSince(Next(s, e).pairs[p], e == Track(p) || (!e.Close? && since))
  {
    hide PairOk, OpenSince, NextPair;
    if e.Enter? {
      if p == e.p { EnteredIsOpenSince(since, s.groupClosed); }
    } else if e.Close? {
      CloseKeepsOpenSince(s.pairs[p], since);
    } else if !e.SetLimit? && !e.CloseGroup? && e.p == p {
      if ByStart(e) {
        StartKeepsOpenSince(s, e, since);
      } else {
        CopierIsLaunched(s, e);
        StepKeeps(s, e);
        LaunchedIsOpenSince(Next(s, e).pairs[p], since);
      }
    }
  }

  lemma EnteredIsOpenSince(since: bool, closed: bool)
    ensures OpenSince(FRESH.(start := if closed then Returned(ErrClosed) else Entered), since)
  {
  }

  lemma {:induction false} RunKeepsOpenSince(limit: int, es: seq<Event>, s: State, p: PairId)
    requires Run(limit, es) == Some(s) && p in s.pairs
    ensures OpenSince(s.pairs[p], TrackedSinceClose(es, p))
  {
    var before := es[..|es| - 1];
    var v := Run(limit, before).value;
    RunKeeps(limit, before);
    if p in v.pairs { RunKeepsOpenSince(limit, before, v, p); }
    StepKeepsOpenSince(v, es[|es| - 1], p, TrackedSinceClose(before, p));
  }

  /** Exactly which conns are still open and tracked after the shutdown order: those of a
      Start that tracked them after the last Close and has yet to attempt its first launch,
      or has failed it and not closed both of them. */
  lemma OpenAfterShutdownExactly(limit: int, es: seq<Event>, s: State, p: PairId)
    requires Run(limit, es) == Some(s) && s.swept && p in s.pairs
    ensures var q := s.pairs[p];
      q.tracked && !(q.acceptedClosed && q.dialedClosed) <==> MayHoldOpen(q) && TrackedSinceClose(es, p)
  {
    RunKeeps(limit, es);
    RunKeepsOpenSince(limit, es, s, p);
    TrackedWhileHeld(s, s.pairs[p]);
  }

  lemma TrackedWhileHeld(s: State, q: Pair)
    requires PairOk(q) && SweptOk(s, q) && s.swept
    ensures MayHoldOpen(q) ==> q.tracked
    ensures q.tracked && !(q.acceptedClosed && q.dialedClosed) ==> MayHoldOpen(q)
  {
    if q.start.Undoing? { match q.start.c { case CloseAccepted => case CloseDialed => case Untrack => case Release => } }
  }

  // ---------------------------------------------------------- how copies end

  /** Direction d ended without a half-close: its copy failed, dst cannot half-close, or it
      never started. */
  predicate Forced(es: seq<Event>, p: PairId, d: Dir)
  {
    CopyDone(p, d, false) in es || (d.Second? && LaunchSecond(p, false) in es)
  }

  /** ... and has got past the force-close. */
  predicate Past(forced: bool, w: CopyPhase) { forced && !w.Aborting? }

  /** A direction aborts exactly if it was forced to; past that both conns are closed, and
      until the countdown ends nothing else but a Close closes them. */
  predicate EndOk(q: Pair, f1: bool, f2: bool, since: bool)
  {
    && (q.first.Idle? || q.first.Copying? ==> !f1) && (q.second.Idle? || q.second.Copying? ==> !f2)
    && (q.first.Aborting? ==> f1) && (q.second.Aborting? ==> f2)
    && var past := Past(f1, q.first) || Past(f2, q.second);
       !q.first.Idle? ==>
         && (past ==> q.acceptedClosed && q.dialedClosed)
         && (q.remaining > 0 ==> q.acceptedClosed == q.dialedClosed == (past || !since))
  }

  lemma StartKeepsEnd(s: State, e: Event, f1: bool, f2: bool, since: bool)
    requires Enabled(s, e) && ByStart(e) && PairOk(s.pairs[e.p]) && OpenSince(s.pairs[e.p], since)
    requires EndOk(s.pairs[e.p], f1, f2, since)
    ensures EndOk(NextPair(s, e, s.pairs[e.p]), f1, f2 || e == LaunchSecond(e.p, false), e.Track? || since)
  {
  }

  lemma FirstKeepsEnd(s: State, e: Event, f1: bool, f2: bool, since: bool)
    requires Enabled(s, e) && IsOwn(e) && !ByStart(e) && e.d.First? && PairOk(s.pairs[e.p])
    requires EndOk(s.pairs[e.p], f1, f2, since)
    ensures EndOk(NextPair(s, e, s.pairs[e.p]), f1 || e == CopyDone(e.p, First, false), f2, since)
  {
  }

  lemma SecondKeepsEnd(s: State, e: Event, f1: bool, f2: bool, since: bool)
    requires Enabled(s, e) && IsOwn(e) && !ByStart(e) && e.d.Second? && PairOk(s.pairs[e.p])
    requires EndOk(s.pairs[e.p], f1, f2, since)
    ensures EndOk(NextPair(s, e, s.pairs[e.p]), f1, f2 || e == CopyDone(e.p, Second, false), since)
  {
  }

  lemma CloseKeepsEnd(q: Pair, f1: bool, f2: bool, since: bool)
    requires PairOk(q) && EndOk(q, f1, f2, since)
    ensures EndOk(if q.tracked then CloseBoth(q) else q, f1, f2, false)
  {
  }

  lemma StepKeepsEnd(s: State, e: Event, p: PairId, f1: bool, f2: bool, since: bool)
    requires Enabled(s, e) && p in Next(s, e).pairs
    requires if p in s.pairs then PairOk(s.pairs[p]) && OpenSince(s.pairs[p], since) && EndOk(s.pairs[p], f1, f2, since) else !f1 && !f2
    ensures EndOk(Next(s, e).pairs[p], f1 || e == CopyDone(p, First, false),
                  f2 || e == CopyDone(p, Second, false) || e == LaunchSecond(p, false), e == Track(p) || (!e.Close? && since))
  {
    hide PairOk, OpenSince, NextPair, EndOk;
    if e.Enter? {
      if p == e.p { EnteredIsEnd(since, s.groupClosed); }
    } else if e.Close? {
      CloseKeepsEnd(s.pairs[p], f1, f2, since);
    } else if IsOwn(e) && e.p == p {
      if ByStart(e) {
        StartKeepsEnd(s, e, f1, f2, since);
      } else {
        match e.d { case First => FirstKeepsEnd(s, e, f1, f2, since); case Second => SecondKeepsEnd(s, e, f1, f2, since); }
      }
    }
  }

  lemma EnteredIsEnd(since: bool, closed: bool)
    ensures EndOk(FRESH.(start := if closed then Returned(ErrClosed) else Entered), false, false, since)
  {
  }

  lemma {:induction false} RunKeepsEnd(limit: int, es: seq<Event>, s: State, p: PairId)
    requires Run(limit, es) == Some(s)
    ensures p in s.pairs ==> EndOk(s.pairs[p], Forced(es, p, First), Forced(es, p, Second), TrackedSinceClose(es, p))
    ensures p !in s.pairs ==> !Forced(es, p, First) && !Forced(es, p, Second)
  {
    hide EndOk, OpenSince;
    if es != [] {
      var before, e := es[..|es| - 1], es[|es| - 1];
      var v := Run(limit, before).value;
      assert es == before + [e];
      RunKeeps(limit, before);
      RunKeepsEnd(limit, before, v, p);
      if p in v.pairs { RunKeepsOpenSince(limit, before, v, p); }
      if p in s.pairs {
        StepKeepsEnd(v, e, p, Forced(before, p, First), Forced(before, p, Second), TrackedSinceClose(before, p));
      } else {
        UnknownPair(v, e, p);
      }
    }
  }

  lemma UnknownPair(s: State, e: Event, p: PairId)
    requires Enabled(s, e) && p !in Next(s, e).pairs
    ensures p !in s.pairs && e != Enter(p) && (IsOwn(e) ==> e.p != p)
  {
  }

  /** Over every run, how the conns of a launched pair fare: a direction that ended without
      half-close has both conns closed by the time it notifies; and as long as the countdown
      is not over, the conns are open unless some direction force-closed them that way or a
      Close came after they were tracked. So a clean end of one direction leaves the other
      one going. */
  lemma ForceClosedExactly(limit: int, es: seq<Event>, s: State, p: PairId)
    requires Run(limit, es) == Some(s) && p in s.pairs && !s.pairs[p].first.Idle?
    ensures var q := s.pairs[p];
      var past := Past(Forced(es, p, First), q.first) || Past(Forced(es, p, Second), q.second);
      && (past ==> q.acceptedClosed && q.dialedClosed)
      && (q.remaining > 0 ==>
            && (q.acceptedClosed <==> past || !TrackedSinceClose(es, p))
            && (q.dialedClosed <==> past || !TrackedSinceClose(es, p)))
      && (forall d :: Copier(q, d).Aborting? ==> Forced(es, p, d))
      && (forall d :: Copier(q, d).Copying? ==> !Forced(es, p, d))
  {
    RunKeepsEnd(limit, es, s, p);
  }

  // ------------------------------------------------------------------- verdicts

  /** The limit that was set last. */
  function LimitNow(limit: int, es: seq<Event>): int
  {
    if es == [] then limit
    else if es[|es| - 1].SetLimit? then es[|es| - 1].limit else LimitNow(limit, es[..|es| - 1])
  }

  lemma {:induction false} SettingsAreEvents(limit: int, es: seq<Event>)
    requires Run(limit, es).Some?
    ensures Run(limit, es).value.limit == LimitNow(limit, es)
    ensures Run(limit, es).value.groupClosed <==> CloseGroup in es
  {
    if es != [] {
      SettingsAreEvents(limit, es[..|es| - 1]);
      assert es == es[..|es| - 1] + [es[|es| - 1]];
    }
  }

  /** A Start takes the next number after all pairs that are admitted or being decided, and is
      refused if and only if its number exceeds the limit that was set last. */
  lemma RefusedExactly(limit: int, es: seq<Event>, s: State, p: PairId)
    requires Run(limit, es) == Some(s) && p in s.pairs
    ensures Enabled(s, Count(p)) ==>
              Next(s, Count(p)).pairs[p].start == Counted(|Where(s.pairs, IsActive)| + |Where(s.pairs, IsDeciding)| + 1)
    ensures s.pairs[p].start.Counted? ==>
              Next(s, Decide(p)).pairs[p].start == if s.pairs[p].start.v > LimitNow(limit, es) then Over else Admitted
  {
    hide Where;
    SettingsAreEvents(limit, es);
    CountersExact(limit, es, s);
  }

  /** The result a Start returns or is bound to return. */
  function ResultOf(p: StartPhase): Option<Result>
  {
    match p
    case Undoing(_) => Some(ErrLaunch)
    case Synthesizing => Some(ErrLaunch)
    case Returned(res) => Some(res)
    case _ => None
  }

  /** The result of a Start, read off the events. */
  function Fate(es: seq<Event>, p: PairId): Option<Result>
  {
    if es == [] then None else
    var before, e := es[..|es| - 1], es[|es| - 1];
    if e == Enter(p) then (if CloseGroup in before then Some(ErrClosed) else None)
    else if e == BackOff(p) then Some(ErrConnLimit)
    else if e == LaunchFirst(p, false) || e == LaunchSecond(p, false) then Some(ErrLaunch)
    else if e == LaunchSecond(p, true) then Some(Ok)
    else Fate(before, p)
  }

  lemma FateByStart(s: State, e: Event)
    requires Enabled(s, e) && ByStart(e)
    ensures ResultOf(NextPair(s, e, s.pairs[e.p]).start) ==
            if e.BackOff? then Some(ErrConnLimit)
            else if e == LaunchFirst(e.p, false) || e == LaunchSecond(e.p, false) then Some(ErrLaunch)
            else if e.LaunchSecond? then Some(Ok) else ResultOf(s.pairs[e.p].start)
  {
  }

  lemma FateElsewhere(s: State, e: Event, p: PairId)
    requires Enabled(s, e) && p in Next(s, e).pairs && e != Enter(p) && !(ByStart(e) && e.p == p)
    ensures p in s.pairs && Next(s, e).pairs[p].start == s.pairs[p].start
  {
    if IsOwn(e) && !ByStart(e) { CopierFrame(s, e); }
  }

  /** Every Start returns exactly the result its events call for: it succeeds if and only if
      both launches did, reports a launch that failed, the limit it exceeded, or the group
      that was closed when it began. */
  lemma {:induction false} ResultIsItsFate(limit: int, es: seq<Event>, s: State, p: PairId)
    requires Run(limit, es) == Some(s)
    ensures if p in s.pairs then ResultOf(s.pairs[p].start) == Fate(es, p) else Fate(es, p) == None
  {
    hide NextPair;
    if es != [] {
      var before, e := es[..|es| - 1], es[|es| - 1];
      var v := Run(limit, before).value;
      ResultIsItsFate(limit, before, v, p);
      SettingsAreEvents(limit, before);
      if p !in s.pairs {
        UnknownPair(v, e, p);
      } else if ByStart(e) && e.p == p {
        FateByStart(v, e);
      } else if e != Enter(p) {
        FateElsewhere(v, e, p);
      }
    }
  }

  // ------------------------------------------------------------------- progress

  /** What a Start can do next; launches can succeed exactly while the group is open. */
  predicate StartGoesOn(s: State, p: PairId, closed: bool)
    requires p in s.pairs
  {
    match s.pairs[p].start
    case Entered => Enabled(s, Count(p))
    case Counted(_) => Enabled(s, Decide(p))
    case Over => Enabled(s, BackOff(p))
    case Admitted => Enabled(s, Track(p))
    case Tracked => Enabled(s, LaunchFirst(p, false)) && (Enabled(s, LaunchFirst(p, true)) <==> !closed)
    case Undoing(_) => Enabled(s, Undo(p))
    case Launched => Enabled(s, LaunchSecond(p, false)) && (Enabled(s, LaunchSecond(p, true)) <==> !closed)
    case Synthesizing => Enabled(s, ReturnErr(p)) || !s.pairs[p].second.Ended?
    case Returned(_) => true
  }

  /** What the thread of a direction can do next; a copy may end in either way. */
  predicate CopierGoesOn(s: State, p: PairId, d: Dir)
    requires p in s.pairs
  {
    match Copier(s.pairs[p], d)
    case Idle => true
    case Copying => Enabled(s, CopyDone(p, d, true)) && Enabled(s, CopyDone(p, d, false))
    case Aborting => Enabled(s, Abort(p, d))
    case Notifying => Enabled(s, Notify(p, d))
    case Counting => Enabled(s, CountDown(p, d))
    case Halving => Enabled(s, Halve(p, d))
    case Unhalving => Enabled(s, Unhalve(p, d))
    case Cleaning(_) => Enabled(s, Clean(p, d))
    case Closing => Enabled(s, NotifyClosed(p, d))
    case Ended => true
  }

  /** No thread is ever stuck, and a Start that must play the second direction itself can: no
      direction stays Idle once its Start has returned from a launch. */
  lemma ThreadsGoOn(limit: int, es: seq<Event>, s: State, p: PairId)
    requires Run(limit, es) == Some(s) && p in s.pairs
    ensures StartGoesOn(s, p, CloseGroup in es) && CopierGoesOn(s, p, First) && CopierGoesOn(s, p, Second)
    ensures s.pairs[p].start.Synthesizing? || s.pairs[p].start == Returned(Ok) ==> !s.pairs[p].first.Idle? && !s.pairs[p].second.Idle?
  {
    hide StartGoesOn, CopierGoesOn, PairOk;
    RunKeeps(limit, es);
    SettingsAreEvents(limit, es);
    StartGoes(s, p);
    CopierGoes(s, p, First);
    CopierGoes(s, p, Second);
    if s.pairs[p].start.Synthesizing? || s.pairs[p].start == Returned(Ok) { LaunchedGoes(s.pairs[p]); }
  }

  lemma StartGoes(s: State, p: PairId)
    requires p in s.pairs
    ensures StartGoesOn(s, p, s.groupClosed)
  {
  }

  lemma CopierGoes(s: State, p: PairId, d: Dir)
    requires p in s.pairs
    ensures CopierGoesOn(s, p, d)
  {
    match Copier(s.pairs[p], d)
    case Copying => assert Enabled(s, CopyDone(p, d, true)) && Enabled(s, CopyDone(p, d, false));
    case Aborting => assert Enabled(s, Abort(p, d));
    case Notifying => assert Enabled(s, Notify(p, d));
    case Counting => assert Enabled(s, CountDown(p, d));
    case Halving => assert Enabled(s, Halve(p, d));
    case Unhalving => assert Enabled(s, Unhalve(p, d));
    case Cleaning(_) => assert Enabled(s, Clean(p, d));
    case Closing => assert Enabled(s, NotifyClosed(p, d));
    case _ =>
  }

  lemma LaunchedGoes(q: Pair)
    requires PairOk(q) && (q.start.Synthesizing? || q.start == Returned(Ok))
    ensures !q.first.Idle? && !q.second.Idle?
  {
  }

  lemma CopyingIsTracked(q: Pair)
    requires PairOk(q) && (q.first.Copying? || q.second.Copying?)
    ensures q.tracked && !q.start.Tracked? && !q.start.Undoing?
  {
  }

  lemma DoneIsClosed(q: Pair)
    requires PairOk(q) && Done(q) && q.start != Returned(ErrConnLimit) && q.start != Returned(ErrClosed)
    ensures q.acceptedClosed && q.dialedClosed && !q.tracked
  {
    match q.start.res { case Ok => case ErrLaunch => case _ => }
  }

  lemma Extend(limit: int, es: seq<Event>, s: State, e: Event)
    requires Run(limit, es) == Some(s) && Enabled(s, e)
    ensures Run(limit, es + [e]) == Some(Next(s, e))
  {
    assert (es + [e])[..|es|] == es;
  }

  lemma AdmittedBeforeShutdown() returns (es: seq<Event>, s: State)
    ensures Run(1, es) == Some(s) && s.pairs == map[0 := FRESH.(start := Admitted, slot := 1)] && !s.groupClosed
  {
    es, s := [], Initial(1);
    Extend(1, es, s, Enter(0));
    es, s := es + [Enter(0)], Next(s, Enter(0));
    Extend(1, es, s, Count(0));
    es, s := es + [Count(0)], Next(s, Count(0));
    Extend(1, es, s, Decide(0));
    es, s := es + [Decide(0)], Next(s, Decide(0));
  }

  /** The undoing case of ShutdownLeavesNothingOpen is real: a Start admitted before the
      shutdown can track its conns after Close has swept, fail its first launch, and hold
      two open tracked conns until its own cleanup closes them. */
  lemma LateStartIsOpenUntilUndone() returns (es: seq<Event>, s: State)
    ensures Run(1, es) == Some(s) && s.swept && 0 in s.pairs
    ensures s.pairs[0].tracked && !s.pairs[0].acceptedClosed && s.pairs[0].start == Undoing(CloseAccepted)
  {
    es, s := AdmittedBeforeShutdown();
    Extend(1, es, s, CloseGroup);
    es, s := es + [CloseGroup], Next(s, CloseGroup);
    Extend(1, es, s, Close);
    es, s := es + [Close], Next(s, Close);
    Extend(1, es, s, Track(0));
    es, s := es + [Track(0)], Next(s, Track(0));
    Extend(1, es, s, LaunchFirst(0, false));
    es, s := es + [LaunchFirst(0, false)], Next(s, LaunchFirst(0, false));
  }
}
