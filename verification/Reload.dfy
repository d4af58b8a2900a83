/**
 Config reconciliation: Server.loadTunnels, all four parts with every failure path. The
 outbound tunnels of cfg.Identity.MuxConnect are compacted in place in the slice's backing
 array and extended by append.

 Tunnels and listeners are handles with an identity and an address. The environment
 decides which binds and which goroutine launches succeed. stopped and closed count the
 Stop and Close calls the reconciliation makes.
 */
module Reload {
  import opened Common

  datatype Handle = Handle(id: int, addr: string)
  type Tunnel = Handle
  type Listener = Handle

  datatype Config = Config(
    muxConnect: string, listen: string,
    identityListen: map<string, string>, identityMuxConnect: seq<string>)

  /** Outcomes the environment picks: binding and launching the local listener, binding and
      launching the listener of an identity, starting a tunnel of an id. A tunnel whose Start
      fails stays installed all the same; Stop never fails. */
  datatype Env = Env(
    localBind: bool, localStart: bool, bind: string -> bool, start: string -> bool,
    tunnelStart: int -> bool)

  // ------------------------------------------------------------ tunnel lists

  function Addrs(ts: seq<Tunnel>): multiset<string>
  {
    if ts == [] then multiset{} else multiset{ts[0].addr} + Addrs(ts[1..])
  }

  function Ids(ts: seq<Tunnel>): multiset<int>
  {
    if ts == [] then multiset{} else multiset{ts[0].id} + Ids(ts[1..])
  }

  function IdList(ts: seq<Tunnel>): seq<int>
  {
    if ts == [] then [] else [ts[0].id] + IdList(ts[1..])
  }

  /** The tunnels that survive: for each address the first ones, as long as wanted. */
  function Kept(ts: seq<Tunnel>, want: multiset<string>): seq<Tunnel>
  {
    if ts == [] then []
    else if want[ts[0].addr] > 0 then [ts[0]] + Kept(ts[1..], want - multiset{ts[0].addr})
    else Kept(ts[1..], want)
  }

  function Dropped(ts: seq<Tunnel>, want: multiset<string>): seq<Tunnel>
  {
    if ts == [] then []
    else if want[ts[0].addr] > 0 then Dropped(ts[1..], want - multiset{ts[0].addr})
    else [ts[0]] + Dropped(ts[1..], want)
  }

  /** The addresses of the list that are still wanted, in list order. */
  function Missing(addrs: seq<string>, want: multiset<string>): seq<string>
  {
    if addrs == [] then []
    else if want[addrs[0]] > 0 then [addrs[0]] + Missing(addrs[1..], want - multiset{addrs[0]})
    else Missing(addrs[1..], want)
  }

  /** New tunnels for the addresses, numbered from next. */
  function Fresh(addrs: seq<string>, next: nat): seq<Tunnel>
  {
    if addrs == [] then [] else [Handle(next, addrs[0])] + Fresh(addrs[1..], next + 1)
  }

  /** a is b with some elements left out, in the same order. */
  predicate Subsequence(a: seq<Tunnel>, b: seq<Tunnel>)
  {
    a == [] || (b != [] && ((a[0] == b[0] && Subsequence(a[1..], b[1..])) || Subsequence(a, b[1..])))
  }

  function Upto(n: nat): multiset<int>
  {
    if n == 0 then multiset{} else Upto(n - 1) + multiset{n - 1}
  }

  function Ref(h: Option<Handle>): multiset<int> { if h.None? then multiset{} else multiset{h.value.id} }

  /** Of the handles numbered below next, each is referenced exactly once or gone exactly
      once, and no other handle is either. */
  predicate Balanced(one: Option<Handle>, rest: multiset<int>, gone: seq<int>, next: nat)
  {
    Ref(one) + rest + multiset(gone) == Upto(next)
  }

  lemma {:induction false} UptoCount(next: nat, n: int)
    ensures Upto(next)[n] == if 0 <= n < next then 1 else 0
  {
    if next > 0 { UptoCount(next - 1, n); }
  }

  /** Balance read handle by handle: no handle is forgotten, referenced twice, gone twice,
      or both referenced and gone. */
  lemma BalancedMeaning(one: Option<Handle>, rest: multiset<int>, gone: seq<int>, next: nat)
    ensures Balanced(one, rest, gone, next) <==>
            forall n :: Ref(one)[n] + rest[n] + multiset(gone)[n] == if 0 <= n < next then 1 else 0
  {
    var all := Ref(one) + rest + multiset(gone);
    forall n ensures Upto(next)[n] == if 0 <= n < next then 1 else 0 { UptoCount(next, n); }
    assert forall n :: all[n] == Ref(one)[n] + rest[n] + multiset(gone)[n];
    assert all == Upto(next) <==> forall n :: all[n] == Upto(next)[n];
  }

  lemma Cons(t: Tunnel, ts: seq<Tunnel>)
    ensures Addrs([t] + ts) == multiset{t.addr} + Addrs(ts) && Ids([t] + ts) == multiset{t.id} + Ids(ts)
  {
    assert ([t] + ts)[1..] == ts;
  }

  lemma IdsOne(t: Tunnel)
    ensures Ids([t]) == multiset{t.id}
  {
    Cons(t, []);
    assert [t] + [] == [t];
  }

  lemma MeetWanted<T>(a: multiset<T>, w: multiset<T>, x: T)
    ensures w[x] > 0 ==> (multiset{x} + a) * w == multiset{x} + a * (w - multiset{x})
    ensures w[x] == 0 ==> (multiset{x} + a) * w == a * w
  {
  }

  lemma Rotate<T>(a: multiset<T>, b: multiset<T>, c: multiset<T>)
    ensures (a + b) + c == a + (b + c) && (a + c) + b == (a + b) + c && b + (a + c) == a + (b + c)
  {
  }

  /** Per address the survivors are as many as wanted or all there are: exactly min(old, new). */
  lemma {:induction false} KeptIsIntersection(ts: seq<Tunnel>, want: multiset<string>)
    ensures Addrs(Kept(ts, want)) == Addrs(ts) * want
  {
    if ts != [] {
      var a := ts[0].addr;
      MeetWanted(Addrs(ts[1..]), want, a);
      if want[a] > 0 {
        KeptIsIntersection(ts[1..], want - multiset{a});
        Cons(ts[0], Kept(ts[1..], want - multiset{a}));
      } else {
        KeptIsIntersection(ts[1..], want);
      }
    }
  }

  /** Every tunnel is either kept or dropped, once. */
  lemma {:induction false} KeptAndDropped(ts: seq<Tunnel>, want: multiset<string>)
    ensures Ids(Kept(ts, want)) + multiset(IdList(Dropped(ts, want))) == Ids(ts)
  {
    if ts != [] {
      var a := ts[0].addr;
      if want[a] > 0 {
        var w := want - multiset{a};
        KeptAndDropped(ts[1..], w);
        Cons(ts[0], Kept(ts[1..], w));
        Rotate(multiset{ts[0].id}, Ids(Kept(ts[1..], w)), multiset(IdList(Dropped(ts[1..], w))));
      } else {
        KeptAndDropped(ts[1..], want);
        var d := Dropped(ts[1..], want);
        assert ([ts[0]] + d)[1..] == d;
        Rotate(multiset{ts[0].id}, Ids(Kept(ts[1..], want)), multiset(IdList(d)));
      }
    }
  }

  /** The survivors are the same tunnels in their old relative order. */
  lemma {:induction false} KeptInOrder(ts: seq<Tunnel>, want: multiset<string>)
    ensures Subsequence(Kept(ts, want), ts)
  {
    if ts != [] {
      var a := ts[0].addr;
      if want[a] > 0 {
        var k := Kept(ts[1..], want - multiset{a});
        KeptInOrder(ts[1..], want - multiset{a});
        assert ([ts[0]] + k)[1..] == k;
      } else {
        KeptInOrder(ts[1..], want);
      }
    }
  }

  lemma Head(x: string, xs: seq<string>)
    ensures multiset([x] + xs) == multiset{x} + multiset(xs)
  {
  }

  lemma TakeOne<T>(w: multiset<T>, a: multiset<T>, x: T)
    requires w <= multiset{x} + a
    ensures w[x] > 0 ==> w - multiset{x} <= a && multiset{x} + (w - multiset{x}) == w
    ensures w[x] == 0 ==> w <= a
  {
  }

  lemma {:induction false} MissingIsRest(addrs: seq<string>, want: multiset<string>)
    requires want <= multiset(addrs)
    ensures multiset(Missing(addrs, want)) == want
  {
    if addrs != [] {
      var a, rest := addrs[0], addrs[1..];
      assert addrs == [a] + rest;
      Head(a, rest);
      TakeOne(want, multiset(rest), a);
      if want[a] > 0 {
        MissingIsRest(rest, want - multiset{a});
        Head(a, Missing(rest, want - multiset{a}));
      } else {
        MissingIsRest(rest, want);
      }
    }
  }

  lemma {:induction false} AddrsAppend(a: seq<Tunnel>, b: seq<Tunnel>)
    ensures Addrs(a + b) == Addrs(a) + Addrs(b) && Ids(a + b) == Ids(a) + Ids(b)
  {
    if a == [] {
      assert a + b == b;
    } else {
      assert (a + b)[0] == a[0] && (a + b)[1..] == a[1..] + b;
      AddrsAppend(a[1..], b);
    }
  }

  lemma {:induction false} FreshAddrs(addrs: seq<string>, next: nat)
    ensures Addrs(Fresh(addrs, next)) == multiset(addrs)
  {
    if addrs != [] {
      FreshAddrs(addrs[1..], next + 1);
      assert addrs == [addrs[0]] + addrs[1..];
      Cons(Handle(next, addrs[0]), Fresh(addrs[1..], next + 1));
    }
  }

  lemma {:induction false} FreshIds(addrs: seq<string>, next: nat)
    ensures forall n :: Ids(Fresh(addrs, next))[n] == if next <= n < next + |addrs| then 1 else 0
  {
    if addrs != [] {
      FreshIds(addrs[1..], next + 1);
      Cons(Handle(next, addrs[0]), Fresh(addrs[1..], next + 1));
    }
  }

  /** What part 2 of loadTunnels makes of the list. */
  function Reconciled(ts: seq<Tunnel>, addrs: seq<string>, next: nat): seq<Tunnel>
  {
    Kept(ts, multiset(addrs)) + Fresh(Missing(addrs, multiset(addrs) - Addrs(ts)), next)
  }

  /** The addresses of the new list are exactly the configured ones, with multiplicity. */
  lemma ReconciledAddrs(ts: seq<Tunnel>, addrs: seq<string>, next: nat)
    ensures Addrs(Reconciled(ts, addrs, next)) == multiset(addrs)
    ensures Kept(ts, multiset(addrs)) <= Reconciled(ts, addrs, next)
  {
    var want := multiset(addrs);
    KeptIsIntersection(ts, want);
    MissingIsRest(addrs, want - Addrs(ts));
    FreshAddrs(Missing(addrs, want - Addrs(ts)), next);
    AddrsAppend(Kept(ts, want), Fresh(Missing(addrs, want - Addrs(ts)), next));
    assert Addrs(ts) * want + (want - Addrs(ts)) == want;
  }

  /** A list that already has the configured addresses is left as it is. */
  lemma {:induction false} KeptAll(ts: seq<Tunnel>, want: multiset<string>)
    requires Addrs(ts) <= want
    ensures Kept(ts, want) == ts && Dropped(ts, want) == []
  {
    if ts != [] {
      assert want[ts[0].addr] > 0;
      KeptAll(ts[1..], want - multiset{ts[0].addr});
    }
  }

  lemma {:induction false} MissingNone(addrs: seq<string>)
    ensures Missing(addrs, multiset{}) == []
  {
    if addrs != [] { MissingNone(addrs[1..]); }
  }

  lemma ReconciledIdempotent(ts: seq<Tunnel>, addrs: seq<string>, next: nat)
    requires Addrs(ts) == multiset(addrs)
    ensures Reconciled(ts, addrs, next) == ts && Dropped(ts, multiset(addrs)) == [] && IdList(Dropped(ts, multiset(addrs))) == []
    ensures Missing(addrs, multiset(addrs) - Addrs(ts)) == []
  {
    KeptAll(ts, multiset(addrs));
    assert multiset(addrs) - Addrs(ts) == multiset{};
    MissingNone(addrs);
  }

  // ----------------------------------------------------------------- balance

  /** The single reference goes away. */
  lemma OneGone(h: Handle, rest: multiset<int>, gone: seq<int>, next: nat)
    requires Balanced(Some(h), rest, gone, next)
    ensures Balanced(None, rest, gone + [h.id], next)
  {
    assert Ref(Some(h)) + rest + multiset(gone) == Ref(None) + rest + multiset(gone + [h.id]);
  }

  /** A new handle becomes the single reference, or is gone at once. */
  lemma OneNew(addr: string, rest: multiset<int>, gone: seq<int>, next: nat)
    requires Balanced(None, rest, gone, next)
    ensures Balanced(Some(Handle(next, addr)), rest, gone, next + 1)
    ensures Balanced(None, rest, gone + [next], next + 1)
  {
    var all := Ref(None) + rest + multiset(gone);
    assert Ref(Some(Handle(next, addr))) + rest + multiset(gone) == all + multiset{next};
    assert Ref(None) + rest + multiset(gone + [next]) == all + multiset{next};
  }

  /** Some of the rest go away together. */
  lemma RestGone(one: Option<Handle>, ids: seq<int>, rest: multiset<int>, gone: seq<int>, next: nat)
    requires Balanced(one, rest + multiset(ids), gone, next)
    ensures Balanced(one, rest, gone + ids, next)
  {
    assert Ref(one) + (rest + multiset(ids)) + multiset(gone) == Ref(one) + rest + multiset(gone + ids);
  }

  /** A new handle joins the rest, or is gone at once. */
  lemma RestNew(one: Option<Handle>, rest: multiset<int>, gone: seq<int>, next: nat)
    requires Balanced(one, rest, gone, next)
    ensures Balanced(one, rest + multiset{next}, gone, next + 1)
    ensures Balanced(one, rest, gone + [next], next + 1)
  {
    var all := Ref(one) + rest + multiset(gone);
    assert Ref(one) + (rest + multiset{next}) + multiset(gone) == all + multiset{next};
    assert Ref(one) + rest + multiset(gone + [next]) == all + multiset{next};
  }

  // --------------------------------------------------------------- listeners

  /** The listener of an identity survives when its configured address is the one it has. */
  predicate Retains(ls: map<string, Listener>, want: map<string, string>, id: string)
  {
    id in ls && id in want && want[id] == ls[id].addr
  }

  ghost function Pick(m: map<string, Listener>): (k: string)
    requires m != map[]
    ensures k in m
  {
    var k :| k in m; k
  }

  /** The ids of the listeners in a table, with multiplicity. */
  ghost function Bag(m: map<string, Listener>): multiset<int>
    decreases |m|
  {
    if m == map[] then multiset{} else Bag(m - {Pick(m)}) + multiset{m[Pick(m)].id}
  }

  predicate ListenersMatch(ls: map<string, Listener>, want: map<string, string>)
  {
    ls.Keys == want.Keys && forall id :: id in ls ==> ls[id].addr == want[id]
  }

  lemma MinusCommutes<V>(m: map<string, V>, c: string, k: string)
    ensures m - {c} - {k} == m - {k} - {c}
  {
  }

  lemma {:induction false} BagRemove(m: map<string, Listener>, k: string)
    requires k in m
    ensures Bag(m) == Bag(m - {k}) + multiset([m[k].id])
    decreases |m|
  {
    var c := Pick(m);
    if c != k {
      BagRemove(m - {c}, k);
      BagRemove(m - {k}, c);
      MinusCommutes(m, c, k);
      Rotate(Bag(m - {c} - {k}), multiset{m[c].id}, multiset{m[k].id});
    }
  }

  lemma BagInsert(m: map<string, Listener>, k: string, l: Listener)
    requires k !in m
    ensures Bag(m[k := l]) == Bag(m) + multiset{l.id}
  {
    BagRemove(m[k := l], k);
    assert m[k := l] - {k} == m;
  }

  // ---------------------------------------------------------- desired counts

  function Count(desired: map<string, int>, a: string): int { if a in desired then desired[a] else 0 }

  /** The map desired counts the addresses still wanted. */
  ghost predicate Counts(desired: map<string, int>, want: multiset<string>)
  {
    forall a :: Count(desired, a) == want[a]
  }

  lemma CountsTake(desired: map<string, int>, want: multiset<string>, a: string)
    requires Counts(desired, want) && want[a] > 0
    ensures Counts(desired[a := Count(desired, a) - 1], want - multiset{a})
  {
    forall b ensures Count(desired[a := Count(desired, a) - 1], b) == (want - multiset{a})[b] {
      assert Count(desired, b) == want[b];
    }
  }

  lemma CountsPut(desired: map<string, int>, want: multiset<string>, a: string)
    requires Counts(desired, want)
    ensures Counts(desired[a := Count(desired, a) + 1], want + multiset{a})
  {
    forall b ensures Count(desired[a := Count(desired, a) + 1], b) == (want + multiset{a})[b] {
      assert Count(desired, b) == want[b];
    }
  }

  lemma Subtract<T>(w: multiset<T>, a: multiset<T>, x: T)
    ensures w[x] > 0 ==> (w - multiset{x}) - a == w - (multiset{x} + a)
    ensures w[x] == 0 ==> w - a == w - (multiset{x} + a)
  {
  }

  /** Part way through the compaction of was: done is kept so far, unread is still to come,
      cur is still wanted and gone lists the stopped tunnels. */
  ghost predicate Halfway(
    done: seq<Tunnel>, unread: seq<Tunnel>, cur: multiset<string>, gone: seq<int>,
    was: seq<Tunnel>, want: multiset<string>, gone0: seq<int>)
  {
    && done + Kept(unread, cur) == Kept(was, want)
    && gone + IdList(Dropped(unread, cur)) == gone0 + IdList(Dropped(was, want))
    && cur - Addrs(unread) == want - Addrs(was)
  }

  lemma HalfwayStart(was: seq<Tunnel>, want: multiset<string>, gone0: seq<int>)
    ensures Halfway([], was, want, gone0, was, want, gone0)
  {
    assert [] + Kept(was, want) == Kept(was, want);
  }

  lemma HalfwayKeep(
    done: seq<Tunnel>, unread: seq<Tunnel>, cur: multiset<string>, gone: seq<int>,
    was: seq<Tunnel>, want: multiset<string>, gone0: seq<int>)
    requires unread != [] && cur[unread[0].addr] > 0 && Halfway(done, unread, cur, gone, was, want, gone0)
    ensures Halfway(done + [unread[0]], unread[1..], cur - multiset{unread[0].addr}, gone, was, want, gone0)
  {
    var k := Kept(unread[1..], cur - multiset{unread[0].addr});
    assert (done + [unread[0]]) + k == done + ([unread[0]] + k);
    Subtract(cur, Addrs(unread[1..]), unread[0].addr);
  }

  lemma HalfwayDrop(
    done: seq<Tunnel>, unread: seq<Tunnel>, cur: multiset<string>, gone: seq<int>,
    was: seq<Tunnel>, want: multiset<string>, gone0: seq<int>)
    requires unread != [] && cur[unread[0].addr] == 0 && Halfway(done, unread, cur, gone, was, want, gone0)
    ensures Halfway(done, unread[1..], cur, gone + [unread[0].id], was, want, gone0)
  {
    var d := Dropped(unread[1..], cur);
    assert ([unread[0]] + d)[1..] == d;
    assert (gone + [unread[0].id]) + IdList(d) == gone + ([unread[0].id] + IdList(d));
    Subtract(cur, Addrs(unread[1..]), unread[0].addr);
  }

  lemma HalfwayEnd(
    done: seq<Tunnel>, cur: multiset<string>, gone: seq<int>, was: seq<Tunnel>, want: multiset<string>, gone0: seq<int>)
    requires Halfway(done, [], cur, gone, was, want, gone0)
    ensures done == Kept(was, want) && gone == gone0 + IdList(Dropped(was, want)) && cur == want - Addrs(was)
  {
    assert done + [] == done && gone + [] == gone;
    assert cur - multiset{} == cur;
  }

  /** Part way through the additions: left are the configured addresses not looked at yet. */
  ghost predicate Adding(
    list: seq<Tunnel>, left: seq<string>, cur: multiset<string>, next: nat, goal: seq<Tunnel>, last: nat)
  {
    list + Fresh(Missing(left, cur), next) == goal && next + |Missing(left, cur)| == last
  }

  lemma AddingNew(
    list: seq<Tunnel>, left: seq<string>, cur: multiset<string>, next: nat, goal: seq<Tunnel>, last: nat)
    requires left != [] && cur[left[0]] > 0 && Adding(list, left, cur, next, goal, last)
    ensures Adding(list + [Handle(next, left[0])], left[1..], cur - multiset{left[0]}, next + 1, goal, last)
  {
    var t, m := Handle(next, left[0]), Missing(left[1..], cur - multiset{left[0]});
    assert ([left[0]] + m)[1..] == m;
    assert (list + [t]) + Fresh(m, next + 1) == list + ([t] + Fresh(m, next + 1));
  }

  lemma AddingSkip(
    list: seq<Tunnel>, left: seq<string>, cur: multiset<string>, next: nat, goal: seq<Tunnel>, last: nat)
    requires left != [] && cur[left[0]] == 0 && Adding(list, left, cur, next, goal, last)
    ensures Adding(list, left[1..], cur, next, goal, last)
  {
  }

  lemma AddingStart(list: seq<Tunnel>, addrs: seq<string>, cur: multiset<string>, next: nat)
    ensures Adding(list, addrs[0..], cur, next, list + Fresh(Missing(addrs, cur), next), next + |Missing(addrs, cur)|)
  {
    assert addrs[0..] == addrs;
  }

  lemma AddingEnd(
    list: seq<Tunnel>, left: seq<string>, cur: multiset<string>, next: nat, goal: seq<Tunnel>, last: nat)
    requires left == [] && Adding(list, left, cur, next, goal, last)
    ensures list == goal && next == last
  {
    assert list + [] == list;
  }

  lemma CountsAt(desired: map<string, int>, want: multiset<string>, a: string)
    requires Counts(desired, want)
    ensures Count(desired, a) == want[a]
  {
  }

  method CountAddrs(addrs: seq<string>) returns (desired: map<string, int>)
    ensures Counts(desired, multiset(addrs))
  {
    desired := map[];
    for i := 0 to |addrs|
      invariant Counts(desired, multiset(addrs[..i]))
    {
      CountsPut(desired, multiset(addrs[..i]), addrs[i]);
      assert addrs[..i + 1] == addrs[..i] + [addrs[i]];
      desired := desired[addrs[i] := Count(desired, addrs[i]) + 1];
    }
    assert addrs[..|addrs|] == addrs;
  }

  // ------------------------------------------------------------------ server

  /** Every tunnel numbered from first up to last started. */
  ghost predicate AllStarted(env: Env, first: nat, last: nat)
  {
    forall n :: first <= n < last ==> env.tunnelStart(n)
  }

  lemma StartedSplit(env: Env, a: nat, b: nat, c: nat)
    requires a <= b <= c
    ensures AllStarted(env, a, c) <==> AllStarted(env, a, b) && AllStarted(env, b, c)
  {
  }

  /** Every configured listener can be bound and launched. */
  ghost predicate AllBound(cfg: Config, env: Env)
  {
    env.localBind && env.localStart && forall id :: id in cfg.identityListen ==> env.bind(id) && env.start(id)
  }

  /** The main tunnel is stopped when its address is not the configured one. */
  function Surplus(main: Option<Tunnel>, addr: string): seq<int>
  {
    if main.Some? && main.value.addr != addr then [main.value.id] else []
  }

  class Server {
    var mainTunnel: Option<Tunnel>
    var localListener: Option<Listener>
    var localListenAddr: string
    var identities: map<string, Listener>
    var backing: array<Tunnel>   // of the slice identityTunnels
    var len: nat                 // its length; backing.Length is its capacity
    var nextTunnel: nat
    var nextListener: nat
    var stopped: seq<int>
    var closed: seq<int>

    ghost predicate Valid()
      reads this, backing
    {
      len <= backing.Length && TunnelsBalanced() && ListenersBalanced() && LocalOk() && MainOk()
    }

    function IdentityTunnels(): seq<Tunnel>
      requires len <= backing.Length
      reads this, backing
    {
      backing[..len]
    }

    /** Every tunnel ever created is referenced exactly once or was stopped exactly once. */
    ghost predicate TunnelsBalanced()
      requires len <= backing.Length
      reads this, backing
    {
      Balanced(mainTunnel, Ids(IdentityTunnels()), stopped, nextTunnel)
    }

    /** Every listener ever opened is referenced exactly once or was closed exactly once. */
    ghost predicate ListenersBalanced()
      reads this
    {
      Balanced(localListener, Bag(identities), closed, nextListener)
    }

    predicate LocalOk()
      reads this
    {
      if localListener.Some? then localListener.value.addr == localListenAddr != "" else localListenAddr == ""
    }

    predicate MainOk()
      reads this
    {
      mainTunnel.Some? ==> mainTunnel.value.addr != ""
    }

    constructor ()
      ensures Valid() && fresh(backing) && IdentityTunnels() == [] && mainTunnel.None? && identities == map[]
    {
      mainTunnel, localListener, localListenAddr, identities := None, None, "", map[];
      backing, len := new Tunnel[0], 0;
      nextTunnel, nextListener, stopped, closed := 0, 0, [], [];
    }

    method StopMain()
      requires Valid() && mainTunnel.Some?
      modifies this`mainTunnel, this`stopped
      ensures Valid() && mainTunnel.None? && stopped == old(stopped) + [old(mainTunnel).value.id]
    {
      hide Balanced, Bag, Ids;
      OneGone(mainTunnel.value, Ids(IdentityTunnels()), stopped, nextTunnel);
      stopped := stopped + [mainTunnel.value.id];
      mainTunnel := None;
    }

    method StartMain(addr: string)
      requires Valid() && mainTunnel.None? && addr != ""
      modifies this`mainTunnel, this`nextTunnel
      ensures Valid() && mainTunnel == Some(Handle(old(nextTunnel), addr)) && nextTunnel == old(nextTunnel) + 1
    {
      hide Balanced, Bag, Ids;
      OneNew(addr, Ids(IdentityTunnels()), stopped, nextTunnel);
      mainTunnel := Some(Handle(nextTunnel, addr));
      nextTunnel := nextTunnel + 1;
    }

    /** Part 0: the tunnel of the top-level MuxConnect. */
    method ReconcileMain(addr: string, env: Env) returns (ok: bool)
      requires Valid()
      modifies this`mainTunnel, this`nextTunnel, this`stopped
      ensures Valid()
      ensures mainTunnel.Some? <==> addr != ""
      ensures mainTunnel.Some? ==> mainTunnel.value.addr == addr
      ensures stopped == old(stopped) + Surplus(old(mainTunnel), addr)
      ensures old(mainTunnel).Some? && old(mainTunnel).value.addr == addr ==> mainTunnel == old(mainTunnel)
      ensures mainTunnel.None? || mainTunnel == old(mainTunnel) ==> nextTunnel == old(nextTunnel)
      ensures mainTunnel.Some? && mainTunnel != old(mainTunnel) ==>
                mainTunnel.value.id == old(nextTunnel) && nextTunnel == old(nextTunnel) + 1
      ensures ok <==> AllStarted(env, old(nextTunnel), nextTunnel)
    {
      hide Balanced, Bag, Ids;
      ok := true;
      if mainTunnel.Some? && mainTunnel.value.addr != addr {
        StopMain();
      }
      if addr != "" && mainTunnel.None? {
        ok := env.tunnelStart(nextTunnel);
        StartMain(addr);
      }
    }

    method CloseLocal()
      requires Valid() && localListener.Some?
      modifies this`localListener, this`localListenAddr, this`closed
      ensures Valid() && localListener.None? && closed == old(closed) + [old(localListener).value.id]
    {
      hide Balanced, Bag, Ids;
      OneGone(localListener.value, Bag(identities), closed, nextListener);
      closed := closed + [localListener.value.id];
      localListener, localListenAddr := None, "";
    }

    method OpenLocal(addr: string, started: bool)
      requires Valid() && localListener.None? && addr != ""
      modifies this`localListener, this`localListenAddr, this`closed, this`nextListener
      ensures Valid() && nextListener == old(nextListener) + 1
      ensures localListener == if started then Some(Handle(old(nextListener), addr)) else None
    {
      hide Balanced, Bag, Ids;
      OneNew(addr, Bag(identities), closed, nextListener);
      var l := Handle(nextListener, addr);
      nextListener := nextListener + 1;
      if started {
        localListener, localListenAddr := Some(l), addr;
      } else {
        closed := closed + [l.id];
      }
    }

    /** Part 0b: the listener of the top-level Listen. */
    method ReconcileLocal(addr: string, env: Env) returns (ok: bool)
      requires Valid()
      modifies this`localListener, this`localListenAddr, this`closed, this`nextListener
      ensures Valid()
      ensures localListener.Some? ==> localListener.value.addr == addr
      ensures old(localListenAddr) == addr ==>
                localListener == old(localListener) && closed == old(closed) && nextListener == old(nextListener) && ok
      ensures old(localListenAddr) != addr ==>
                ok == (addr == "" || (env.localBind && env.localStart))
                && (localListener.Some? ==> localListener.value.id == old(nextListener))
      ensures ok <==> localListenAddr == addr
    {
      hide Balanced, Bag, Ids;
      ok := true;
      if localListenAddr != addr {
        if localListener.Some? { CloseLocal(); }
        if addr != "" {
          ok := env.localBind && env.localStart;
          if env.localBind { OpenLocal(addr, env.localStart); }
        }
      }
    }

    method CloseIdentity(id: string)
      requires Valid() && id in identities
      modifies this`identities, this`closed
      ensures Valid() && identities == old(identities) - {id}
      ensures closed == old(closed) + [old(identities)[id].id]
    {
      hide Balanced, Bag, Ids;
      BagRemove(identities, id);
      RestGone(localListener, [identities[id].id], Bag(identities - {id}), closed, nextListener);
      closed := closed + [identities[id].id];
      identities := identities - {id};
    }

    method OpenIdentity(id: string, addr: string, started: bool)
      requires Valid() && id !in identities
      modifies this`identities, this`closed, this`nextListener
      ensures Valid() && nextListener == old(nextListener) + 1
      ensures identities == if started then old(identities)[id := Handle(old(nextListener), addr)] else old(identities)
      ensures closed == if started then old(closed) else old(closed) + [old(nextListener)]
    {
      hide Balanced, Bag, Ids;
      RestNew(localListener, Bag(identities), closed, nextListener);
      var l := Handle(nextListener, addr);
      nextListener := nextListener + 1;
      if started {
        BagInsert(identities, id, l);
        identities := identities[id := l];
      } else {
        closed := closed + [l.id];
      }
    }

    /** The first loop of part 1: stop what was removed or changed its address. */
    method RetainListeners(want: map<string, string>) returns (active: map<string, string>)
      requires Valid()
      modifies this`identities, this`closed
      ensures Valid()
      ensures forall id :: id in identities <==> Retains(old(identities), want, id)
      ensures forall id :: id in identities ==> id in old(identities) && identities[id] == old(identities)[id]
      ensures forall id :: id in active <==> id in want && id !in identities
      ensures forall id :: id in active ==> active[id] == want[id]
      ensures (forall id :: id in old(identities) ==> Retains(old(identities), want, id)) ==> closed == old(closed)
    {
      hide Balanced, Bag, Ids;
      active := want;
      var todo := identities.Keys;
      ghost var was := identities;
      while todo != {}
        invariant Valid()
        invariant todo <= identities.Keys
        invariant forall id :: id in identities <==> id in todo || (id in was && Retains(was, want, id))
        invariant forall id :: id in identities ==> id in was && identities[id] == was[id]
        invariant forall id :: id in active <==> id in want && (id in todo || id !in identities)
        invariant forall id :: id in active ==> active[id] == want[id]
        invariant (forall id :: id in was ==> Retains(was, want, id)) ==> closed == old(closed)
        decreases todo
      {
        var id :| id in todo;
        todo := todo - {id};
        if id in active && active[id] == identities[id].addr {
          active := active - {id};
        } else {
          CloseIdentity(id);
        }
      }
    }

    /** The second loop of part 1: open what is new. */
    method OpenListeners(active: map<string, string>, env: Env) returns (ok: bool)
      requires Valid() && active.Keys !! identities.Keys
      modifies this`identities, this`closed, this`nextListener
      ensures Valid()
      ensures forall id :: id in identities <==> id in old(identities) || (id in active && env.bind(id) && env.start(id))
      ensures forall id :: id in old(identities) ==> identities[id] == old(identities)[id]
      ensures forall id :: id in identities && id in active ==>
                identities[id].addr == active[id] && identities[id].id >= old(nextListener)
      ensures ok <==> forall id :: id in active ==> id in identities
      ensures active == map[] ==> closed == old(closed) && nextListener == old(nextListener)
    {
      hide Balanced, Bag, Ids;
      ok := true;
      var todo := active.Keys;
      while todo != {}
        invariant Valid() && todo <= active.Keys && old(nextListener) <= nextListener
        invariant forall id :: id in identities <==>
                    id in old(identities) || (id in active && id !in todo && env.bind(id) && env.start(id))
        invariant forall id :: id in old(identities) ==> identities[id] == old(identities)[id]
        invariant forall id :: id in identities && id in active ==>
                    identities[id].addr == active[id] && identities[id].id >= old(nextListener)
        invariant ok <==> forall id :: id in active && id !in todo ==> id in identities
        invariant active == map[] ==> closed == old(closed) && nextListener == old(nextListener)
        decreases todo
      {
        var id :| id in todo;
        todo := todo - {id};
        if env.bind(id) {
          OpenIdentity(id, active[id], env.start(id));
        }
        ok := ok && env.bind(id) && env.start(id);
      }
    }

    /** Part 1: the listeners of Identity.Listen. */
    method ReconcileListeners(want: map<string, string>, env: Env) returns (ok: bool)
      requires Valid()
      modifies this`identities, this`closed, this`nextListener
      ensures Valid()
      ensures forall id :: id in identities ==> id in want && identities[id].addr == want[id]
      ensures forall id :: id in want ==>
                (id in identities <==> Retains(old(identities), want, id) || (env.bind(id) && env.start(id)))
      ensures forall id :: Retains(old(identities), want, id) ==> identities[id] == old(identities)[id]
      ensures forall id :: id in identities && !Retains(old(identities), want, id) ==> identities[id].id >= old(nextListener)
      ensures ok <==> identities.Keys == want.Keys
      ensures ListenersMatch(old(identities), want) ==>
                identities == old(identities) && closed == old(closed) && nextListener == old(nextListener)
    {
      hide Balanced, Bag, Ids;
      var active := RetainListeners(want);
      ok := OpenListeners(active, env);
      assert ListenersMatch(old(identities), want) ==> active == map[];
    }

    /** The compaction of part 2: kept grows over the array that is still being read. */
    method Compact(desired: map<string, int>, ghost want: multiset<string>) returns (rest: map<string, int>)
      requires Valid() && Counts(desired, want)
      modifies this`len, this`stopped, backing
      ensures len <= backing.Length && IdentityTunnels() == Kept(old(IdentityTunnels()), want)
      ensures stopped == old(stopped) + IdList(Dropped(old(IdentityTunnels()), want))
      ensures Counts(rest, want - Addrs(old(IdentityTunnels())))
    {
      hide Balanced, Bag, Ids, Halfway, Kept, Dropped, IdList, Addrs;
      rest := desired;
      ghost var was, cur := IdentityTunnels(), want;
      HalfwayStart(was, want, stopped);
      var k, i := 0, 0;
      while i < len
        invariant k <= i <= len == old(len) <= backing.Length
        invariant backing[i..len] == was[i..]
        invariant Counts(rest, cur) && Halfway(backing[..k], was[i..], cur, stopped, was, want, old(stopped))
      {
        var t := backing[i];
        assert t == backing[i..len][0] == was[i..][0] && was[i..][1..] == was[i + 1..] == backing[i + 1..len];
        if Count(rest, t.addr) > 0 {
          CountsTake(rest, cur, t.addr);
          HalfwayKeep(backing[..k], was[i..], cur, stopped, was, want, old(stopped));
          rest := rest[t.addr := Count(rest, t.addr) - 1];
          cur := cur - multiset{t.addr};
          ghost var done := backing[..k];
          backing[k] := t;
          k := k + 1;
          assert backing[..k] == done + [t];
        } else {
          HalfwayDrop(backing[..k], was[i..], cur, stopped, was, want, old(stopped));
          stopped := stopped + [t.id];
        }
        i := i + 1;
      }
      assert was[i..] == [];
      HalfwayEnd(backing[..k], cur, stopped, was, want, old(stopped));
      len := k;
    }

    method Append(t: Tunnel)
      requires len <= backing.Length
      modifies this`backing, this`len, backing
      ensures len <= backing.Length && IdentityTunnels() == old(IdentityTunnels()) + [t]
      ensures backing == old(backing) || fresh(backing)
    {
      if len == backing.Length {
        var grown := new Tunnel[2 * len + 1](_ => t);
        for i := 0 to len
          modifies grown
          invariant grown[..i] == backing[..i]
        {
          grown[i] := backing[i];
        }
        backing := grown;
      }
      backing[len] := t;
      len := len + 1;
    }

    method StartTunnel(addr: string)
      requires Valid()
      modifies this`backing, this`len, this`nextTunnel, backing
      ensures Valid() && (backing == old(backing) || fresh(backing))
      ensures IdentityTunnels() == old(IdentityTunnels()) + [Handle(old(nextTunnel), addr)] && nextTunnel == old(nextTunnel) + 1
    {
      hide Balanced, Bag, Ids;
      var t := Handle(nextTunnel, addr);
      RestNew(mainTunnel, Ids(IdentityTunnels()), stopped, nextTunnel);
      AddrsAppend(IdentityTunnels(), [t]);
      IdsOne(t);
      Append(t);
      nextTunnel := nextTunnel + 1;
    }

    /** Part 2: the tunnels of Identity.MuxConnect. */
    method ReconcileTunnels(addrs: seq<string>, env: Env) returns (ok: bool)
      requires Valid()
      modifies this`backing, this`len, this`nextTunnel, this`stopped, backing
      ensures Valid() && (backing == old(backing) || fresh(backing))
      ensures IdentityTunnels() == Reconciled(old(IdentityTunnels()), addrs, old(nextTunnel))
      ensures stopped == old(stopped) + IdList(Dropped(old(IdentityTunnels()), multiset(addrs)))
      ensures nextTunnel == old(nextTunnel) + |Missing(addrs, multiset(addrs) - Addrs(old(IdentityTunnels())))|
      ensures ok <==> AllStarted(env, old(nextTunnel), nextTunnel)
    {
      hide Balanced, Bag, Ids, Adding, Kept, Dropped, IdList, Addrs, Counts, Missing, Fresh;
      ok := true;
      ghost var was, want, first := IdentityTunnels(), multiset(addrs), nextTunnel;
      var desired := CountAddrs(addrs);
      desired := Compact(desired, want);
      KeptAndDropped(was, want);
      RestGone(mainTunnel, IdList(Dropped(was, want)), Ids(IdentityTunnels()), old(stopped), nextTunnel);
      ghost var cur := want - Addrs(was);
      ghost var goal, last := Reconciled(was, addrs, first), first + |Missing(addrs, cur)|;
      AddingStart(IdentityTunnels(), addrs, cur, first);
      for i := 0 to |addrs|
        invariant Valid() && (backing == old(backing) || fresh(backing)) && Counts(desired, cur)
        invariant stopped == old(stopped) + IdList(Dropped(was, want))
        invariant Adding(IdentityTunnels(), addrs[i..], cur, nextTunnel, goal, last)
        invariant first <= nextTunnel && (ok <==> forall n :: first <= n < nextTunnel ==> env.tunnelStart(n))
      {
        var addr := addrs[i];
        assert addr == addrs[i..][0] && addrs[i..][1..] == addrs[i + 1..];
        CountsAt(desired, cur, addr);
        if Count(desired, addr) > 0 {
          AddingNew(IdentityTunnels(), addrs[i..], cur, nextTunnel, goal, last);
          CountsTake(desired, cur, addr);
          desired := desired[addr := Count(desired, addr) - 1];
          cur := cur - multiset{addr};
          ok := ok && env.tunnelStart(nextTunnel);
          StartTunnel(addr);
        } else {
          AddingSkip(IdentityTunnels(), addrs[i..], cur, nextTunnel, goal, last);
        }
      }
      AddingEnd(IdentityTunnels(), addrs[|addrs|..], cur, nextTunnel, goal, last);
    }

    /** Part 2 in terms of the configuration. */
    method LoadIdentityTunnels(addrs: seq<string>, env: Env) returns (ok: bool)
      requires Valid()
      modifies this`backing, this`len, this`nextTunnel, this`stopped, backing
      ensures Valid() && (backing == old(backing) || fresh(backing))
      ensures Addrs(IdentityTunnels()) == multiset(addrs)
      ensures Kept(old(IdentityTunnels()), multiset(addrs)) <= IdentityTunnels()
      ensures stopped == old(stopped) + IdList(Dropped(old(IdentityTunnels()), multiset(addrs)))
      ensures old(nextTunnel) <= nextTunnel && (ok <==> AllStarted(env, old(nextTunnel), nextTunnel))
      ensures Addrs(old(IdentityTunnels())) == multiset(addrs) ==>
                ok && IdentityTunnels() == old(IdentityTunnels()) && nextTunnel == old(nextTunnel) && stopped == old(stopped)
    {
      hide Balanced, Bag, Ids, Kept, Dropped, IdList, Addrs, Missing, Fresh, Reconciled, TunnelsBalanced, ListenersBalanced;
      ghost var was, next := IdentityTunnels(), nextTunnel;
      ok := ReconcileTunnels(addrs, env);
      ReconciledAddrs(was, addrs, next);
      if Addrs(was) == multiset(addrs) { ReconciledIdempotent(was, addrs, next); }
    }

    /** Parts 0b and 1. */
    method LoadListeners(cfg: Config, env: Env) returns (ok: bool)
      requires Valid()
      modifies this`localListener, this`localListenAddr, this`identities, this`closed, this`nextListener
      ensures Valid()
      ensures ListenersExplained(cfg, env) && (AllBound(cfg, env) ==> ok)
      ensures forall id :: Retains(old(identities), cfg.identityListen, id) ==> id in identities && identities[id] == old(identities)[id]
      ensures ok <==> localListenAddr == cfg.listen && ListenersMatch(identities, cfg.identityListen)
      ensures old(localListenAddr) == cfg.listen && ListenersMatch(old(identities), cfg.identityListen) ==>
                && ok && localListener == old(localListener) && identities == old(identities)
                && closed == old(closed) && nextListener == old(nextListener)
    {
      hide Balanced, Bag, Ids, TunnelsBalanced, ListenersBalanced;
      var local := ReconcileLocal(cfg.listen, env);
      var listeners := ReconcileListeners(cfg.identityListen, env);
      ok := local && listeners;
    }

    predicate TunnelsMatch(cfg: Config)
      requires len <= backing.Length
      reads this, backing
    {
      && (if cfg.muxConnect == "" then mainTunnel.None? else mainTunnel.Some? && mainTunnel.value.addr == cfg.muxConnect)
      && Addrs(IdentityTunnels()) == multiset(cfg.identityMuxConnect)
    }

    /** The state the configuration asks for. */
    predicate Matches(cfg: Config)
      requires len <= backing.Length
      reads this, backing
    {
      TunnelsMatch(cfg) && localListenAddr == cfg.listen && ListenersMatch(identities, cfg.identityListen)
    }

    /** A listener that is there has its configured address; one that is missing could not be
        bound or launched. */
    ghost predicate ListenersExplained(cfg: Config, env: Env)
      reads this
    {
      && (localListener.Some? ==> localListener.value.addr == cfg.listen)
      && (localListener.None? && cfg.listen != "" ==> !env.localBind || !env.localStart)
      && (forall id :: id in identities ==> id in cfg.identityListen && identities[id].addr == cfg.identityListen[id])
      && (forall id :: id in cfg.identityListen && id !in identities ==> !env.bind(id) || !env.start(id))
    }

    /** From any state and under any failures. The verdict is success exactly when the
        configured state is reached and every new tunnel started. */
    method LoadTunnels(cfg: Config, env: Env) returns (ok: bool)
      requires Valid()
      modifies this, backing
      ensures Valid() && (backing == old(backing) || fresh(backing))
      ensures TunnelsMatch(cfg) && Kept(old(IdentityTunnels()), multiset(cfg.identityMuxConnect)) <= IdentityTunnels()
      ensures stopped == old(stopped) + Surplus(old(mainTunnel), cfg.muxConnect)
                         + IdList(Dropped(old(IdentityTunnels()), multiset(cfg.identityMuxConnect)))
      ensures ListenersExplained(cfg, env)
      ensures forall id :: Retains(old(identities), cfg.identityListen, id) ==> id in identities && identities[id] == old(identities)[id]
      ensures old(nextTunnel) <= nextTunnel
      ensures ok <==> Matches(cfg) && AllStarted(env, old(nextTunnel), nextTunnel)
      ensures AllBound(cfg, env) && AllStarted(env, old(nextTunnel), nextTunnel) ==> ok
      ensures old(Matches(cfg)) ==>
                && ok && mainTunnel == old(mainTunnel) && IdentityTunnels() == old(IdentityTunnels())
                && localListener == old(localListener) && identities == old(identities)
                && stopped == old(stopped) && closed == old(closed)
                && nextTunnel == old(nextTunnel) && nextListener == old(nextListener)
    {
      hide Balanced, Bag, Ids, Kept, Dropped, IdList, Addrs, TunnelsBalanced, ListenersBalanced;
      hide Retains, ListenersMatch, LocalOk, MainOk, AllStarted, AllBound;
      var main := ReconcileMain(cfg.muxConnect, env);
      ghost var next := nextTunnel;
      var listeners := LoadListeners(cfg, env);
      var tunnels := LoadIdentityTunnels(cfg.identityMuxConnect, env);
      StartedSplit(env, old(nextTunnel), next, nextTunnel);
      ok := main && listeners && tunnels;
    }
  }

  /** The server's whole history: it starts with nothing and loads one configuration after
      another, each under outcomes of its own. */
  method Reloads(cfgs: seq<Config>, envs: seq<Env>) returns (s: Server, ok: bool)
    requires |cfgs| == |envs|
    ensures s.Valid()
    ensures forall n :: Ref(s.mainTunnel)[n] + Ids(s.IdentityTunnels())[n] + multiset(s.stopped)[n]
                        == if 0 <= n < s.nextTunnel then 1 else 0
    ensures forall n :: Ref(s.localListener)[n] + Bag(s.identities)[n] + multiset(s.closed)[n]
                        == if 0 <= n < s.nextListener then 1 else 0
    ensures cfgs != [] ==> s.TunnelsMatch(cfgs[|cfgs| - 1]) && s.ListenersExplained(cfgs[|cfgs| - 1], envs[|cfgs| - 1])
    ensures cfgs != [] && ok ==> s.Matches(cfgs[|cfgs| - 1])
    ensures cfgs != [] && AllBound(cfgs[|cfgs| - 1], envs[|cfgs| - 1]) && AllStarted(envs[|cfgs| - 1], 0, s.nextTunnel) ==> ok
  {
    hide Balanced, Bag, Ids, Addrs, AllBound;
    s := new Server();
    ok := true;
    for i := 0 to |cfgs|
      invariant s.Valid() && fresh(s) && fresh(s.backing)
      invariant i > 0 ==> s.TunnelsMatch(cfgs[i - 1]) && s.ListenersExplained(cfgs[i - 1], envs[i - 1])
      invariant i > 0 && ok ==> s.Matches(cfgs[i - 1])
      invariant i > 0 && AllBound(cfgs[i - 1], envs[i - 1]) && AllStarted(envs[i - 1], 0, s.nextTunnel) ==> ok
    {
      ok := s.LoadTunnels(cfgs[i], envs[i]);
    }
    BalancedMeaning(s.mainTunnel, Ids(s.IdentityTunnels()), s.stopped, s.nextTunnel);
    BalancedMeaning(s.localListener, Bag(s.identities), s.closed, s.nextListener);
  }
}
