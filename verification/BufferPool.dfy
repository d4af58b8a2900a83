/**
 dirtyBufferPool: a tiered pool of byte buffers that are recycled without clearing.
 A buffer is known by its identity, its capacity and its length; its holder may reslice it,
 which can leave it with less capacity than it was made with.
 */
module BufferPool {

  class Buffer {
    var cap: nat
    var len: nat

    constructor (length: nat)
      ensures cap == length && len == length
    {
      cap, len := length, length;
    }

    /** Its holder reslices it from off on. */
    method Shrink(off: nat)
      requires off <= len <= cap
      modifies this
      ensures len == old(len) - off && cap == old(cap) - off
    {
      len, cap := len - off, cap - off;
    }
  }

  type Tiers = seq<seq<Buffer>>

  /** A buffer of this capacity belongs in tier i: it can serve every Get that looks
      there, and it is too small for the next tier. */
  predicate Fits(sizes: seq<nat>, i: nat, cap: nat)
  {
    i < |sizes| && sizes[i] <= cap && (i + 1 < |sizes| ==> cap < sizes[i + 1])
  }

  predicate Pooled(tiers: Tiers, b: Buffer) { exists i :: 0 <= i < |tiers| && b in tiers[i] }

  function Buffers(tiers: Tiers): set<Buffer> { set i, k | 0 <= i < |tiers| && 0 <= k < |tiers[i]| :: tiers[i][k] }

  predicate TiersOk(sizes: seq<nat>, tiers: Tiers)
    reads Buffers(tiers)
  {
    |tiers| == |sizes| && forall i, k :: 0 <= i < |tiers| && 0 <= k < |tiers[i]| ==> Fits(sizes, i, tiers[i][k].cap)
  }

  /** No buffer is in the pool twice. */
  predicate NoDuplicates(tiers: Tiers)
  {
    forall i, k, j, l ::
      0 <= i < |tiers| && 0 <= k < |tiers[i]| && 0 <= j < |tiers| && 0 <= l < |tiers[j]| && tiers[i][k] == tiers[j][l] ==>
      i == j && k == l
  }

  function Without<T>(s: seq<T>, k: nat): seq<T>
    requires k < |s|
  {
    s[..k] + s[k + 1..]
  }

  /** tiers without the entry at i, k, which was buf. */
  predicate TookOut(before: Tiers, after: Tiers, buf: Buffer, i: nat, k: nat)
  {
    i < |before| && k < |before[i]| && before[i][k] == buf && after == before[i := Without(before[i], k)]
  }

  /** Tier i is the one a Get of this length looks in: the first whose buffers are long enough. */
  predicate IsTierFor(sizes: seq<nat>, length: nat, i: nat)
  {
    i < |sizes| && length <= sizes[i] && forall j :: 0 <= j < i ==> sizes[j] < length
  }

  class Pool {
    const sizes: seq<nat>
    var tiers: Tiers
    ghost var lent: set<Buffer>  // handed out by Get and not yet given to Put

    ghost predicate Valid()
      reads this, Buffers(tiers)
    {
      TiersOk(sizes, tiers)
    }

    /** No buffer is pooled twice, and none is pooled and lent at the same time. */
    ghost predicate Separate()
      reads this
    {
      NoDuplicates(tiers) && forall b :: b in lent ==> !Pooled(tiers, b)
    }

    constructor (sizes: seq<nat>)
      ensures Valid() && Separate() && this.sizes == sizes && lent == {}
      ensures forall i :: 0 <= i < |tiers| ==> tiers[i] == []
    {
      this.sizes := sizes;
      tiers := seq(|sizes|, _ => []);
      lent := {};
    }

    /** Take from tier i what sync.Pool decides on: choice is an index into the tier, or out of
        range for a fresh buffer. */
    method Take(i: nat, length: nat, choice: nat) returns (buf: Buffer)
      requires Valid() && i < |sizes| && length <= sizes[i]
      modifies this, Buffers(tiers)`len
      ensures Valid() && lent == old(lent) + {buf}
      ensures buf.len == length <= buf.cap
      ensures if choice < |old(tiers)[i]| then TookOut(old(tiers), tiers, buf, i, choice)
              else fresh(buf) && buf.cap == sizes[i] && tiers == old(tiers)
      ensures Buffers(tiers) <= old(Buffers(tiers)) && (buf in old(Buffers(tiers)) || fresh(buf))
      ensures old(Separate()) ==> Separate() && buf !in old(lent)
    {
      if choice < |tiers[i]| {
        buf := tiers[i][choice];
        assert Fits(sizes, i, buf.cap);
        tiers := tiers[i := Without(tiers[i], choice)];
        assert TookOut(old(tiers), tiers, buf, i, choice);
        if old(Separate()) { TakenIsGone(old(tiers), i, choice); }
      } else {
        buf := new Buffer(sizes[i]);
      }
      buf.len := length;
      lent := lent + {buf};
    }

    method Get(length: nat, choice: nat) returns (buf: Buffer)
      requires Valid()
      modifies this, Buffers(tiers)`len
      ensures Valid() && lent == old(lent) + {buf}
      ensures buf.len == length <= buf.cap
      ensures forall i: nat :: IsTierFor(sizes, length, i) ==>
                if choice < |old(tiers)[i]| then TookOut(old(tiers), tiers, buf, i, choice)
                else fresh(buf) && buf.cap == sizes[i] && tiers == old(tiers)
      ensures (forall i :: 0 <= i < |sizes| ==> sizes[i] < length) ==> fresh(buf) && buf.cap == length && tiers == old(tiers)
      ensures Buffers(tiers) <= old(Buffers(tiers)) && (buf in old(Buffers(tiers)) || fresh(buf))
      ensures old(Separate()) ==> Separate() && buf !in old(lent)
    {
      hide TookOut, Fits, NoDuplicates;
      for i := 0 to |sizes|
        invariant tiers == old(tiers) && lent == old(lent)
        invariant forall j :: 0 <= j < i ==> sizes[j] < length
      {
        if length <= sizes[i] {
          assert forall j: nat :: IsTierFor(sizes, length, j) ==> !(i < j) && !(j < i);
          buf := Take(i, length, choice);
          return;
        }
      }
      buf := new Buffer(length);
      lent := lent + {buf};
    }

    /** Pooled by capacity, or dropped if too small for every tier. Any buffer may be put,
        also one that Get never handed out. */
    method Put(buf: Buffer)
      requires Valid()
      modifies this
      ensures Valid() && lent == old(lent) - {buf}
      ensures if forall j :: 0 <= j < |sizes| ==> buf.cap < sizes[j] then tiers == old(tiers)
              else exists i: nat :: Fits(sizes, i, buf.cap) && tiers == old(tiers)[i := old(tiers)[i] + [buf]]
      ensures Buffers(tiers) <= old(Buffers(tiers)) + {buf}
      ensures old(Separate()) && !Pooled(old(tiers), buf) ==> Separate()
    {
      lent := lent - {buf};
      var i := |sizes| - 1;
      while i >= 0
        invariant -1 <= i < |sizes| && tiers == old(tiers) && lent == old(lent) - {buf}
        invariant forall j :: i < j < |sizes| ==> buf.cap < sizes[j]
      {
        if buf.cap >= sizes[i] {
          assert Fits(sizes, i, buf.cap);
          if old(Separate()) && !Pooled(old(tiers), buf) { ReturnedOnce(tiers, i, buf); }
          tiers := tiers[i := tiers[i] + [buf]];
          return;
        }
        i := i - 1;
      }
    }

    /** sync.Pool may drop a pooled buffer at any time. */
    method Drop(i: nat, k: nat)
      requires Valid() && i < |tiers| && k < |tiers[i]|
      modifies this
      ensures Valid() && lent == old(lent) && TookOut(old(tiers), tiers, old(tiers[i][k]), i, k)
      ensures Buffers(tiers) <= old(Buffers(tiers))
      ensures old(Separate()) ==> Separate()
    {
      if Separate() { TakenIsGone(tiers, i, k); }
      tiers := tiers[i := Without(tiers[i], k)];
    }
  }

  /** Taking a buffer out leaves no other copy of it behind. */
  lemma TakenIsGone(tiers: Tiers, i: nat, k: nat)
    requires NoDuplicates(tiers) && i < |tiers| && k < |tiers[i]|
    ensures NoDuplicates(tiers[i := Without(tiers[i], k)])
    ensures !Pooled(tiers[i := Without(tiers[i], k)], tiers[i][k])
    ensures forall b :: Pooled(tiers[i := Without(tiers[i], k)], b) ==> Pooled(tiers, b)
  {
    var t := tiers[i := Without(tiers[i], k)];
    forall j, l | 0 <= j < |t| && 0 <= l < |t[j]|
      ensures t[j][l] == tiers[j][if j == i && l >= k then l + 1 else l]
    {
    }
  }

  /** Putting back a buffer that is not in the pool creates no second copy. */
  lemma ReturnedOnce(tiers: Tiers, i: nat, buf: Buffer)
    requires NoDuplicates(tiers) && i < |tiers| && !Pooled(tiers, buf)
    ensures NoDuplicates(tiers[i := tiers[i] + [buf]])
    ensures forall b :: Pooled(tiers[i := tiers[i] + [buf]], b) ==> b == buf || Pooled(tiers, b)
  {
    var t := tiers[i := tiers[i] + [buf]];
    forall j, l | 0 <= j < |t| && 0 <= l < |t[j]|
      ensures t[j][l] == if j == i && l == |tiers[i]| then buf else tiers[j][l]
    {
    }
  }

  // ------------------------------------------------------------ whole histories

  /** PutBack returns the n-th outstanding buffer, Shrink cuts off its front while it is out,
      and PutForeign returns a buffer the pool never made. */
  datatype Op =
    | Get(length: nat, choice: nat) | PutBack(n: nat) | Shrink(n: nat, off: nat) | PutForeign(cap: nat) | Drop(i: nat, k: nat)

  /** The lengths of the outstanding buffers after one more operation, oldest first. */
  function Lengths(before: seq<nat>, op: Op): seq<nat>
  {
    match op
    case Get(length, _) => before + [length]
    case PutBack(n) => if n < |before| then Without(before, n) else before
    case Shrink(n, off) => if n < |before| && off <= before[n] then before[n := before[n] - off] else before
    case _ => before
  }

  /** ... and after a history: as requested, less what their holders cut off. */
  function Outstanding(ops: seq<Op>): seq<nat>
  {
    if ops == [] then [] else Lengths(Outstanding(ops[..|ops| - 1]), ops[|ops| - 1])
  }

  predicate Distinct(s: seq<Buffer>) { forall i, j :: 0 <= i < j < |s| ==> s[i] != s[j] }

  predicate HaveLengths(out: seq<Buffer>, lens: seq<nat>)
    reads set b | b in out
  {
    |out| == |lens| && forall i :: 0 <= i < |out| ==> out[i].len == lens[i] <= out[i].cap
  }

  ghost predicate Held(pool: Pool, out: seq<Buffer>)
    reads pool
  {
    pool.Separate() && Distinct(out) && forall i :: 0 <= i < |out| ==> out[i] in pool.lent
  }

  method TakeOne(pool: Pool, out: seq<Buffer>, ghost lens: seq<nat>, length: nat, choice: nat) returns (out': seq<Buffer>)
    requires pool.Valid() && Held(pool, out) && HaveLengths(out, lens)
    modifies pool, Buffers(pool.tiers)
    ensures pool.Valid() && Held(pool, out') && HaveLengths(out', lens + [length])
    ensures forall b :: b in Buffers(pool.tiers) || b in out' ==> b in old(Buffers(pool.tiers)) || b in out || fresh(b)
  {
    hide NoDuplicates, TiersOk, Fits, TookOut;
    forall b | b in out ensures b !in Buffers(pool.tiers) { assert !Pooled(pool.tiers, b); }
    var b := pool.Get(length, choice);
    out' := out + [b];
  }

  method GiveBack(pool: Pool, out: seq<Buffer>, ghost lens: seq<nat>, n: nat) returns (out': seq<Buffer>)
    requires pool.Valid() && Held(pool, out) && HaveLengths(out, lens) && n < |out|
    modifies pool
    ensures pool.Valid() && Held(pool, out') && HaveLengths(out', Without(lens, n))
    ensures forall b :: b in Buffers(pool.tiers) || b in out' ==> b in old(Buffers(pool.tiers)) || b in out
  {
    hide NoDuplicates, TiersOk, Fits;
    pool.Put(out[n]);
    out' := Without(out, n);
  }

  method CutFront(pool: Pool, out: seq<Buffer>, ghost lens: seq<nat>, n: nat, off: nat)
    requires pool.Valid() && Held(pool, out) && HaveLengths(out, lens) && n < |out| && off <= out[n].len
    modifies out[n]
    ensures pool.Valid() && HaveLengths(out, lens[n := lens[n] - off])
  {
    hide NoDuplicates, Fits;
    assert !Pooled(pool.tiers, out[n]);
    out[n].Shrink(off);
  }

  /** One operation of a caller that returns each buffer at most once. */
  method Step(pool: Pool, out: seq<Buffer>, ghost lens: seq<nat>, op: Op) returns (out': seq<Buffer>)
    requires pool.Valid() && Held(pool, out) && HaveLengths(out, lens)
    modifies pool, Buffers(pool.tiers), set b | b in out
    ensures pool.Valid() && Held(pool, out') && HaveLengths(out', Lengths(lens, op))
    ensures forall b :: b in Buffers(pool.tiers) || b in out' ==> b in old(Buffers(pool.tiers)) || b in out || fresh(b)
  {
    hide NoDuplicates, TiersOk, Fits, TookOut, Pooled, Distinct;
    out' := out;
    match op
    case Get(length, choice) => out' := TakeOne(pool, out, lens, length, choice);
    case PutBack(n) => if n < |out| { out' := GiveBack(pool, out, lens, n); }
    case Shrink(n, off) => if n < |out| && off <= out[n].len { CutFront(pool, out, lens, n, off); }
    case PutForeign(cap) => PutNew(pool, cap);
    case Drop(i, k) => if i < |pool.tiers| && k < |pool.tiers[i]| { pool.Drop(i, k); }
  }

  method PutNew(pool: Pool, cap: nat)
    requires pool.Valid() && pool.Separate()
    modifies pool
    ensures pool.Valid() && pool.Separate() && pool.lent == old(pool.lent)
    ensures forall b :: b in Buffers(pool.tiers) ==> b in old(Buffers(pool.tiers)) || fresh(b)
  {
    var b := new Buffer(cap);
    pool.Put(b);
  }

  /** Any history of a pool whose callers return each buffer at most once: every
      outstanding buffer is a separate one, has the length that was asked for less what its
      holder cut off, and is not in the pool at the same time. */
  method History(sizes: seq<nat>, ops: seq<Op>) returns (pool: Pool, out: seq<Buffer>)
    ensures pool.sizes == sizes && TiersOk(sizes, pool.tiers) && NoDuplicates(pool.tiers)
    ensures Distinct(out) && HaveLengths(out, Outstanding(ops))
    ensures forall i :: 0 <= i < |out| ==> !Pooled(pool.tiers, out[i])
  {
    pool := new Pool(sizes);
    out := [];
    for t := 0 to |ops|
      invariant fresh(pool) && pool.sizes == sizes && pool.Valid()
      invariant Held(pool, out) && HaveLengths(out, Outstanding(ops[..t]))
      invariant forall b :: b in Buffers(pool.tiers) || b in out ==> fresh(b)
    {
      assert ops[..t + 1][..t] == ops[..t];
      out := Step(pool, out, Outstanding(ops[..t]), ops[t]);
    }
    assert ops[..|ops|] == ops;
  }
}
