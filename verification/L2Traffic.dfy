/** Bypass traffic of the L2 cache: which outstanding request each beat on the memory bus
    belongs to, and which queued write each beat in a port's data queue belongs to. */
module L2Traffic {
  import opened Words
  import OstQueue
  import opened L2Types

  /** The entries of an outstanding table that are not waiting to be retired. */
  function Live<T>(t: OstQueue.Table<T>): (live: seq<T>)
  {
    if t.freed && t.entries != [] then t.entries[1..] else t.entries
  }

  /** A clock retires a freed head and leaves the live entries alone. */
  lemma ClockKeepsLive<T>(t: OstQueue.Table<T>)
    requires t.freed ==> t.entries != []
    ensures Live(OstQueue.Clocked(t)) == Live(t) && !OstQueue.Clocked(t).freed
  {
  }

  // ----- reads -----

  /** Reading off `r` and then `ar` in order serves exactly the outstanding reads `live`:
      a beat belongs to the oldest read that has not seen its last beat. */
  predicate ReadRoute(r: seq<MemR>, ar: seq<MemAr>, live: seq<nat>)
    decreases |r|
  {
    if r == [] then
      |ar| == |live| && forall i | 0 <= i < |ar| :: ar[i].BypassAr? && ar[i].port == live[i]
    else
      && live != [] && r[0].src == ForPort(live[0])
      && ReadRoute(r[1..], ar, if r[0].last then live[1..] else live)
  }

  lemma {:induction false} ReadIssued(r: seq<MemR>, ar: seq<MemAr>, live: seq<nat>, port: nat, req: Ar)
    requires ReadRoute(r, ar, live)
    ensures ReadRoute(r, ar + [BypassAr(port, req)], live + [port])
    decreases |r|
  {
    if r != [] {
      ReadIssued(r[1..], ar, if r[0].last then live[1..] else live, port, req);
      assert (live + [port])[1..] == live[1..] + [port];
    }
  }

  /** Memory returns a beat of the oldest read it has accepted. */
  lemma {:induction false} ReadServed(r: seq<MemR>, ar: seq<MemAr>, live: seq<nat>, beat: MemR)
    requires ReadRoute(r, ar, live) && ar != [] && ar[0].BypassAr?
    requires beat.src == ForPort(ar[0].port)
    ensures ReadRoute(r + [beat], if beat.last then ar[1..] else ar, live)
    decreases |r|
  {
    if r == [] {
      assert (r + [beat])[1..] == [];
      assert ReadRoute([], if beat.last then ar[1..] else ar, if beat.last then live[1..] else live);
    } else {
      ReadServed(r[1..], ar, if r[0].last then live[1..] else live, beat);
      assert (r + [beat])[1..] == r[1..] + [beat];
    }
  }

  lemma NoReadsLeft(r: seq<MemR>, ar: seq<MemAr>)
    requires ReadRoute(r, ar, [])
    ensures r == [] && ar == []
  {
  }

  // ----- writes -----

  ghost predicate WrCtxOk(x: WrCtx, cacheable: iset<nat>)
  {
    && x.port < 2 && WellFormedAw(x.aw, cacheable) && x.aw.cache == 0
    && x.beatIdx <= |x.aw.beats|
    && (x.wDone <==> x.beatIdx == |x.aw.beats|)
  }

  predicate SameWrites(aw: seq<MemAw>, live: seq<WrCtx>)
  {
    |aw| == |live| && forall i | 0 <= i < |aw| :: aw[i] == BypassAw(live[i].port, live[i].aw)
  }

  /** Only the oldest write sends data; what memory holds of it is a prefix of its beats, and
      the response on the bus, if any, is for it. */
  ghost predicate WriteRoute(b: Bus, live: seq<WrCtx>, cacheable: iset<nat>)
  {
    && (forall i | 0 <= i < |live| :: WrCtxOk(live[i], cacheable))
    && (forall i | 1 <= i < |live| :: live[i].beatIdx == 0)
    && (if b.b == [] then
          && SameWrites(b.aw, live)
          && (if live == [] then b.w == [] && b.applied == 0
              else
                && b.applied <= live[0].beatIdx && b.applied <= live[0].aw.len
                && b.w == live[0].aw.beats[b.applied..live[0].beatIdx])
        else
          && live != [] && live[0].wDone && b.b == [ForPort(live[0].port)]
          && SameWrites(b.aw, live[1..]) && b.w == [] && b.applied == 0)
  }

  /** The data beats a bypass write has not sent yet. */
  function Unsent(x: WrCtx): (beats: seq<W>)
  {
    if x.beatIdx <= |x.aw.beats| then x.aw.beats[x.beatIdx..] else []
  }

  /** The data beats port `p` still owes to its outstanding bypass writes. */
  function BypassOwed(live: seq<WrCtx>, p: nat): (owed: seq<W>)
  {
    if live == [] then []
    else (if live[0].port == p then Unsent(live[0]) else []) + BypassOwed(live[1..], p)
  }

  function Payload(q: seq<Aw>): (beats: seq<W>)
  {
    if q == [] then [] else q[0].beats + Payload(q[1..])
  }

  lemma Assoc(a: seq<W>, b: seq<W>, c: seq<W>)
    ensures a + (b + c) == (a + b) + c
  {
  }

  lemma {:induction false} PayloadAppend(a: seq<Aw>, b: seq<Aw>)
    ensures Payload(a + b) == Payload(a) + Payload(b)
  {
    if a == [] {
      assert a + b == b;
    } else {
      PayloadAppend(a[1..], b);
      assert (a + b)[1..] == a[1..] + b && (a + b)[0] == a[0];
      Assoc(a[0].beats, Payload(a[1..]), Payload(b));
    }
  }

  lemma {:induction false} BypassOwedAppend(live: seq<WrCtx>, x: WrCtx, p: nat)
    requires x.beatIdx == 0
    ensures BypassOwed(live + [x], p) == BypassOwed(live, p) + if x.port == p then x.aw.beats else []
  {
    if live == [] {
      assert live + [x] == [x];
      assert [x][1..] == [];
    } else {
      BypassOwedAppend(live[1..], x, p);
      assert (live + [x])[1..] == live[1..] + [x];
      var head := if live[0].port == p then Unsent(live[0]) else [];
      assert BypassOwed(live, p) == head + BypassOwed(live[1..], p);
      assert BypassOwed(live + [x], p) == head + BypassOwed(live[1..] + [x], p);
      Assoc(head, BypassOwed(live[1..], p), if x.port == p then x.aw.beats else []);
    }
  }

  /** Port `p` has an outstanding bypass write. */
  predicate WritePending(live: seq<WrCtx>, p: nat)
  {
    exists i :: 0 <= i < |live| && live[i].port == p
  }

  lemma {:induction false} NothingOwed(live: seq<WrCtx>, p: nat)
    requires !WritePending(live, p)
    ensures BypassOwed(live, p) == []
  {
    if live != [] {
      forall i | 0 <= i < |live[1..]|
        ensures live[1..][i].port != p
      {
        assert live[i + 1].port != p;
      }
      NothingOwed(live[1..], p);
      assert live[0].port != p;
    }
  }

  /** The oldest write has sent a beat. */
  lemma HeadSent(live: seq<WrCtx>, x: WrCtx, p: nat)
    requires live != [] && live[0].beatIdx < |live[0].aw.beats|
    requires x.port == live[0].port && x.aw == live[0].aw && x.beatIdx == live[0].beatIdx + 1
    ensures p == live[0].port ==>
              BypassOwed(live, p) == [x.aw.beats[live[0].beatIdx]] + BypassOwed(live[0 := x], p)
    ensures p != live[0].port ==> BypassOwed(live[0 := x], p) == BypassOwed(live, p)
  {
    assert live[0 := x][1..] == live[1..];
  }
}
