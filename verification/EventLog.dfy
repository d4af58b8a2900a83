/**
 The bounded event log: a ring over a fixed array that coalesces adjacent duplicates.
 */
module EventLog {

  datatype Entry = Entry(tstamp: int, message: string, count: nat)

  /** One line of output; the repeat count is shown only when it is not 1. */
  datatype Line = Plain(tstamp: int, message: string) | Repeated(tstamp: int, message: string, count: nat)

  function Render(e: Entry): Line
  {
    if e.count == 1 then Plain(e.tstamp, e.message) else Repeated(e.tstamp, e.message, e.count)
  }

  function Parsed(l: Line): Entry
  {
    match l case Plain(tstamp, message) => Entry(tstamp, message, 1) case Repeated(tstamp, message, count) => Entry(tstamp, message, count)
  }

  /** A line tells its entry, and shows a repeat count exactly if it is not 1. */
  lemma LineTellsEntry(e: Entry)
    ensures Parsed(Render(e)) == e && (Render(e).Repeated? <==> e.count != 1)
  {
  }

  /** One event on top of a coalesced log: merge with the newest entry or append. */
  function Coalesced(log: seq<Entry>, tstamp: int, message: string): seq<Entry>
  {
    if log != [] && log[|log| - 1].message == message
    then log[..|log| - 1] + [Entry(tstamp, message, log[|log| - 1].count + 1)]
    else log + [Entry(tstamp, message, 1)]
  }

  function Newest(log: seq<Entry>, n: nat): seq<Entry>
  {
    if |log| <= n then log else log[|log| - n..]
  }

  /** The n newest entries, newest first, as lines. */
  function Lines(log: seq<Entry>, n: nat): seq<Line>
    requires n <= |log|
  {
    seq(n, i requires 0 <= i < n => Render(log[|log| - 1 - i]))
  }

  /** The entries of a ring over a, oldest first. */
  function View(a: seq<Entry>, len: nat, lastpos: nat): (s: seq<Entry>)
    requires len <= |a| && lastpos <= |a|
    ensures |s| == len
  {
    if len < |a| then a[..len] else a[lastpos..] + a[..lastpos]
  }

  predicate ValidRing(a: seq<Entry>, len: nat, lastpos: nat)
  {
    len <= |a| && (if len < |a| then lastpos == len else lastpos < |a| || lastpos == 0)
  }

  /** Where the entry is that i steps back from the newest one. */
  function Back(len: nat, lastpos: nat, i: nat): int
  {
    if lastpos > i then lastpos - i - 1 else lastpos - i - 1 + len
  }

  lemma BackIsView(a: seq<Entry>, len: nat, lastpos: nat, i: nat)
    requires ValidRing(a, len, lastpos) && i < len
    ensures 0 <= Back(len, lastpos, i) < len && View(a, len, lastpos)[len - 1 - i] == a[Back(len, lastpos, i)]
  {
  }

  /** The three ways an Add changes the ring, against the unbounded log cut to size. */
  lemma Merge(a: seq<Entry>, len: nat, lastpos: nat, tstamp: int, message: string)
    requires ValidRing(a, len, lastpos) && len > 0
    requires View(a, len, lastpos)[len - 1].message == message
    ensures var v, p := View(a, len, lastpos), Back(len, lastpos, 0);
      0 <= p < len &&
      View(a[p := Entry(tstamp, message, v[len - 1].count + 1)], len, lastpos) == Newest(Coalesced(v, tstamp, message), |a|)
  {
    hide View;
    var v, p := View(a, len, lastpos), Back(len, lastpos, 0);
    var e := Entry(tstamp, message, v[len - 1].count + 1);
    ViewUpdate(a, len, lastpos, e);
    assert Coalesced(v, tstamp, message) == v[..len - 1] + [e];
  }

  lemma ViewUpdate(a: seq<Entry>, len: nat, lastpos: nat, e: Entry)
    requires ValidRing(a, len, lastpos) && len > 0
    ensures 0 <= Back(len, lastpos, 0) < len
    ensures View(a[Back(len, lastpos, 0) := e], len, lastpos) == View(a, len, lastpos)[..len - 1] + [e]
  {
    var b := a[Back(len, lastpos, 0) := e];
    if len < |a| {
      assert b[..len] == a[..len - 1] + [e];
    } else if lastpos == 0 {
      assert b[0..] + b[..0] == b == a[..len - 1] + [e];
      assert View(a, len, lastpos) == a;
    } else {
      assert b[lastpos..] == a[lastpos..] && b[..lastpos] == a[..lastpos - 1] + [e];
      assert (a[lastpos..] + a[..lastpos])[..len - 1] == a[lastpos..] + a[..lastpos - 1];
    }
  }

  predicate IsNext(pos: nat, next: nat, cap: nat) { next == if pos + 1 == cap then 0 else pos + 1 }

  lemma Append(a: seq<Entry>, len: nat, next: nat, tstamp: int, message: string)
    requires len < |a| && IsNext(len, next, |a|)
    requires len > 0 ==> a[len - 1].message != message
    ensures var b := a[len := Entry(tstamp, message, 1)];
      && ValidRing(b, len + 1, next)
      && View(b, len + 1, next) == Newest(Coalesced(View(a, len, len), tstamp, message), |a|)
  {
    var b := a[len := Entry(tstamp, message, 1)];
    assert View(b, len + 1, next) == a[..len] + [Entry(tstamp, message, 1)];
  }

  lemma Overwrite(a: seq<Entry>, lastpos: nat, next: nat, tstamp: int, message: string)
    requires lastpos < |a| && IsNext(lastpos, next, |a|)
    requires View(a, |a|, lastpos)[|a| - 1].message != message
    ensures var b := a[lastpos := Entry(tstamp, message, 1)];
      && ValidRing(b, |a|, next)
      && View(b, |a|, next) == Newest(Coalesced(View(a, |a|, lastpos), tstamp, message), |a|)
  {
    var v := View(a, |a|, lastpos);
    var b := a[lastpos := Entry(tstamp, message, 1)];
    assert Newest(Coalesced(v, tstamp, message), |a|) == v[1..] + [Entry(tstamp, message, 1)];
    assert View(b, |a|, next) == v[1..] + [Entry(tstamp, message, 1)];
  }

  /** The cursor one place on, around the ring. */
  method Advance(pos: nat, cap: nat) returns (next: nat)
    requires pos < cap
    ensures IsNext(pos, next, cap)
  {
    next := (pos + 1) % cap;
    assert pos + 1 < cap ==> next == pos + 1;
  }

  class Recent {
    const elements: array<Entry>  // capacity is the size limit
    var len: nat
    var lastpos: nat

    ghost predicate Valid()
      reads this, elements
    {
      ValidRing(elements[..], len, lastpos)
    }

    /** The entries, oldest first. */
    ghost function Contents(): (s: seq<Entry>)
      requires Valid()
      reads this, elements
    {
      View(elements[..], len, lastpos)
    }

    constructor (sizelimit: nat)
      ensures Valid() && fresh(elements) && elements.Length == sizelimit && Contents() == []
    {
      elements := new Entry[sizelimit](_ => Entry(0, "", 0));
      len, lastpos := 0, 0;
    }

    /** Where the newest entry is. */
    method Last() returns (pos: nat)
      requires Valid() && len > 0
      ensures pos == Back(len, lastpos, 0) && pos < len && Contents()[len - 1] == elements[pos]
    {
      BackIsView(elements[..], len, lastpos, 0);
      pos := if lastpos == 0 then len - 1 else lastpos - 1;
    }

    /** The three branches of Add: merge with the newest entry, fill up, or overwrite the oldest. */
    method AddMerged(pos: nat, tstamp: int, message: string)
      requires Valid() && len > 0 && pos == Back(len, lastpos, 0) && pos < len
      requires Contents()[len - 1] == elements[pos] && elements[pos].message == message
      modifies elements
      ensures Valid() && Contents() == Newest(Coalesced(old(Contents()), tstamp, message), elements.Length)
    {
      hide Newest, Coalesced, View;
      Merge(elements[..], len, lastpos, tstamp, message);
      Store(pos, Entry(tstamp, message, elements[pos].count + 1));
    }

    method AddFilling(tstamp: int, message: string)
      requires Valid() && len < elements.Length && (len > 0 ==> Contents()[len - 1].message != message)
      modifies this, elements
      ensures Valid() && Contents() == Newest(Coalesced(old(Contents()), tstamp, message), elements.Length)
    {
      hide Newest, Coalesced;
      var next := Advance(lastpos, elements.Length);
      Append(elements[..], len, next, tstamp, message);
      Store(len, Entry(tstamp, message, 1));
      len, lastpos := len + 1, next;
    }

    method AddOverwriting(tstamp: int, message: string)
      requires Valid() && len == elements.Length >= 1 && Contents()[len - 1].message != message
      modifies this, elements
      ensures Valid() && Contents() == Newest(Coalesced(old(Contents()), tstamp, message), elements.Length)
    {
      hide Newest, Coalesced, View;
      var next := Advance(lastpos, elements.Length);
      Overwrite(elements[..], lastpos, next, tstamp, message);
      Store(lastpos, Entry(tstamp, message, 1));
      lastpos := next;
    }

    /** With a size limit of 0 the original panics on the first Add. */
    method Add(tstamp: int, message: string)
      requires Valid() && elements.Length >= 1
      modifies this, elements
      ensures Valid()
      ensures Contents() == Newest(Coalesced(old(Contents()), tstamp, message), elements.Length)
    {
      hide Newest, Coalesced;
      if len > 0 {
        var pos := Last();
        if elements[pos].message == message {
          AddMerged(pos, tstamp, message);
          return;
        }
      }
      if len < elements.Length {
        AddFilling(tstamp, message);
      } else {
        AddOverwriting(tstamp, message);
      }
    }

    method Store(pos: nat, e: Entry)
      requires pos < elements.Length
      modifies elements
      ensures elements[..] == old(elements[..])[pos := e]
    {
      elements[pos] := e;
    }

    /** budget is the number of writes the writer accepts before it fails. */
    method Format(n: int, budget: nat) returns (lines: seq<Line>, err: bool)
      requires Valid()
      ensures var m := if n < 0 then 0 else if n > len then len else n;
        err == (budget < m) && lines == Lines(Contents(), if err then budget else m)
    {
      var pos := lastpos;
      var m := if n > len then len else n;
      lines := [];
      var i := 0;
      while i < m
        invariant 0 <= i <= len && i <= budget && if m < 0 then i == 0 else i <= m
        invariant lines == Lines(Contents(), i)
        invariant i < len ==> pos == (if lastpos >= i then lastpos - i else lastpos - i + len)
      {
        BackIsView(elements[..], len, lastpos, i);
        pos := pos - 1;
        if pos < 0 {
          pos := len - 1;
        }
        if i == budget {
          return lines, true;
        }
        lines := lines + [Render(elements[pos])];
        i := i + 1;
      }
      err := false;
    }
  }

  // ------------------------------------------------------------ whole histories

  datatype Event = Event(tstamp: int, message: string)

  /** The ring after a history of Adds. */
  function Ring(h: seq<Event>, cap: nat): seq<Entry>
  {
    if h == [] then [] else
    Newest(Coalesced(Ring(h[..|h| - 1], cap), h[|h| - 1].tstamp, h[|h| - 1].message), cap)
  }

  /** The unbounded log of the same history. */
  function Log(h: seq<Event>): seq<Entry>
  {
    if h == [] then [] else Coalesced(Log(h[..|h| - 1]), h[|h| - 1].tstamp, h[|h| - 1].message)
  }

  /** An appended entry is among the newest. */
  lemma NewestAppend(log: seq<Entry>, e: Entry, cap: nat)
    requires cap >= 1
    ensures Newest(log + [e], cap) == Newest(log, cap - 1) + [e]
  {
  }

  lemma NewestNewest(log: seq<Entry>, n: nat, m: nat)
    requires m <= n
    ensures Newest(Newest(log, n), m) == Newest(log, m)
  {
  }

  /** Cutting keeps the newest entry, and cuts the rest alike. */
  lemma NewestLast(log: seq<Entry>, cap: nat)
    requires cap >= 1 && log != []
    ensures var w := Newest(log, cap);
      w != [] && w[|w| - 1] == log[|log| - 1] && w[..|w| - 1] == Newest(log[..|log| - 1], cap - 1)
  {
  }

  /** Dropping old entries early or late makes no difference. */
  lemma NewestCoalesced(log: seq<Entry>, cap: nat, tstamp: int, message: string)
    requires cap >= 1
    ensures Newest(Coalesced(Newest(log, cap), tstamp, message), cap) == Newest(Coalesced(log, tstamp, message), cap)
  {
    hide Newest;
    var w := Newest(log, cap);
    if log == [] {
      NewestNone(cap);
    } else {
      var last := log[|log| - 1];
      NewestLast(log, cap);
      if last.message == message {
        var e := Entry(tstamp, message, last.count + 1);
        NewestAppend(log[..|log| - 1], e, cap);
        NewestAppend(w[..|w| - 1], e, cap);
        NewestNewest(log[..|log| - 1], cap - 1, cap - 1);
      } else {
        var e := Entry(tstamp, message, 1);
        NewestAppend(log, e, cap);
        NewestAppend(w, e, cap);
        NewestNewest(log, cap, cap - 1);
      }
    }
  }

  lemma NewestNone(cap: nat)
    ensures Newest([], cap) == []
  {
  }

  /** The ring always holds the newest entries of the unbounded coalesced log. */
  lemma {:induction false} RingRefinesLog(h: seq<Event>, cap: nat)
    requires cap >= 1
    ensures Ring(h, cap) == Newest(Log(h), cap)
  {
    if h != [] {
      RingRefinesLog(h[..|h| - 1], cap);
      NewestCoalesced(Log(h[..|h| - 1]), cap, h[|h| - 1].tstamp, h[|h| - 1].message);
    }
  }

  /** A log of any size limit from 1 on, after any history of Adds. */
  method History(sizelimit: nat, h: seq<Event>) returns (log: Recent)
    requires sizelimit >= 1
    ensures log.Valid() && log.Contents() == Newest(Log(h), sizelimit)
  {
    log := new Recent(sizelimit);
    for i := 0 to |h|
      invariant fresh(log) && fresh(log.elements) && log.Valid() && log.elements.Length == sizelimit
      invariant log.Contents() == Ring(h[..i], sizelimit)
    {
      assert h[..i + 1][..i] == h[..i];
      log.Add(h[i].tstamp, h[i].message);
    }
    assert h[..|h|] == h;
    RingRefinesLog(h, sizelimit);
  }

  function Copies(message: string, n: nat): seq<string> { seq(n, _ => message) }

  /** The run-length decoding of a log. */
  function Expanded(log: seq<Entry>): seq<string>
  {
    if log == [] then [] else Expanded(log[..|log| - 1]) + Copies(log[|log| - 1].message, log[|log| - 1].count)
  }

  function Messages(h: seq<Event>): seq<string> { seq(|h|, i requires 0 <= i < |h| => h[i].message) }

  /** One more event spells out one more message. */
  lemma CoalescedExpands(log: seq<Entry>, tstamp: int, message: string)
    ensures Expanded(Coalesced(log, tstamp, message)) == Expanded(log) + [message]
  {
    var next := Coalesced(log, tstamp, message);
    if log != [] && log[|log| - 1].message == message {
      var k := log[|log| - 1].count;
      assert next[..|next| - 1] == log[..|log| - 1];
      assert Copies(message, k + 1) == Copies(message, k) + [message];
    } else {
      assert next[..|next| - 1] == log;
      assert Copies(message, 1) == [message];
    }
  }

  /** No two adjacent entries have the same message, and every entry stands for something. */
  predicate RunLengthCode(log: seq<Entry>)
  {
    && (forall i :: 0 < i < |log| ==> log[i - 1].message != log[i].message)
    && (forall i :: 0 <= i < |log| ==> log[i].count >= 1)
  }

  lemma CoalescedStays(log: seq<Entry>, tstamp: int, message: string)
    requires RunLengthCode(log)
    ensures RunLengthCode(Coalesced(log, tstamp, message))
    ensures var next := Coalesced(log, tstamp, message);
      next != [] && next[|next| - 1].tstamp == tstamp && next[|next| - 1].message == message
  {
  }

  /** Entry i stands for a run of events that ends with number |Expanded(log[..i + 1])|, and
      carries the message and the timestamp of that last one. */
  lemma {:induction false} RunIsDatedByItsLast(h: seq<Event>, i: nat)
    requires i < |Log(h)|
    ensures var n := |Expanded(Log(h)[..i + 1])|;
      0 < n <= |h| && Log(h)[i].tstamp == h[n - 1].tstamp && Log(h)[i].message == h[n - 1].message
  {
    var before, last := h[..|h| - 1], h[|h| - 1];
    var log := Log(h);
    if i + 1 < |log| {
      assert log[..i + 1] == Log(before)[..i + 1];
      RunIsDatedByItsLast(before, i);
    } else {
      assert log[..i + 1] == log;
      LogIsRunLengthCode(h);
    }
  }

  lemma MessagesAppend(h: seq<Event>)
    requires h != []
    ensures Messages(h) == Messages(h[..|h| - 1]) + [h[|h| - 1].message]
  {
  }

  /** Coalescing is run-length coding: the log spells out the messages of the history, no
      two adjacent entries have the same message, and the newest entry carries the message
      and the timestamp of the newest event. */
  lemma {:induction false} LogIsRunLengthCode(h: seq<Event>)
    ensures Expanded(Log(h)) == Messages(h) && RunLengthCode(Log(h))
    ensures h != [] ==> Log(h) != [] && Log(h)[|Log(h)| - 1].tstamp == h[|h| - 1].tstamp
    ensures h != [] ==> Log(h)[|Log(h)| - 1].message == h[|h| - 1].message
  {
    if h != [] {
      hide Coalesced, Expanded;
      var before, last := h[..|h| - 1], h[|h| - 1];
      LogIsRunLengthCode(before);
      MessagesAppend(h);
      CoalescedExpands(Log(before), last.tstamp, last.message);
      CoalescedStays(Log(before), last.tstamp, last.message);
    }
  }
}
