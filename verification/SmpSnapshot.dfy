/** The sequence-number snapshot that protects a signal interface shared by two threads: one
    writer, one reader, packets copied word by word, every load and store one step. */
module SmpSnapshot {
  /** The sequence number is 32 bits wide.  The state keeps it as the count it would be without
      wrap-around; the reader only ever looks at the word. */
  const WRAP: nat := 0x1_0000_0000

  type Packet = seq<int>

  // ----- state -----

  datatype WriterPc = WIdle | WBegun | WCopy | WEnd

  /** The writer holds the packet it publishes and the sequence number it loaded. */
  datatype Writer = Writer(pc: WriterPc, pkt: Packet, seq0: nat, at: nat)

  datatype ReaderPc = RIdle | RBegin | RCopy | RCheck

  datatype Reader = Reader(pc: ReaderPc, seq0: nat, copy: Packet)

  /** A finished read: what it returned, which packet was the latest when it began and when it
      ended, and by how much the sequence number moved meanwhile. */
  datatype Result = Result(pkt: Packet, first: nat, last: nat, moved: int)

  /** `published` lists every packet wholly written, the initial contents first. */
  datatype State = State(
    num: nat, buf: Packet, writer: Writer, reader: Reader, published: seq<Packet>, results: seq<Result>)

  function Init(pkt: Packet): State
  {
    State(0, pkt, Writer(WIdle, [], 0, 0), Reader(RIdle, 0, []), [pkt], [])
  }

  // ----- steps -----

  /** Publishing `pkt`: load the number, store it plus one, copy, store it plus two. */
  function WriterNext(s: State, pkt: Packet): State
  {
    var w := s.writer;
    match w.pc
    case WIdle =>
      if |pkt| == |s.buf| then s.(writer := Writer(WBegun, pkt, s.num, 0)) else s
    case WBegun => s.(num := w.seq0 + 1, writer := w.(pc := WCopy))
    case WCopy =>
      if w.at < |s.buf| && w.at < |w.pkt| then s.(buf := s.buf[w.at := w.pkt[w.at]], writer := w.(at := w.at + 1))
      else s.(writer := w.(pc := WEnd))
    case WEnd => s.(num := w.seq0 + 2, writer := w.(pc := WIdle), published := s.published + [w.pkt])
  }

  /** Reading: wait for an even number, copy, and start again unless the number is unchanged. */
  function ReaderNext(s: State): State
  {
    var r := s.reader;
    match r.pc
    case RIdle => s.(reader := r.(pc := RBegin))
    case RBegin => if s.num % WRAP % 2 == 0 then s.(reader := Reader(RCopy, s.num, [])) else s
    case RCopy =>
      if |r.copy| < |s.buf| then s.(reader := r.(copy := r.copy + [s.buf[|r.copy|]])) else s.(reader := r.(pc := RCheck))
    case RCheck =>
      if s.num % WRAP != r.seq0 % WRAP then s.(reader := r.(pc := RBegin))
      else s.(reader := r.(pc := RIdle), results := s.results + [Result(r.copy, r.seq0 / 2, s.num / 2, s.num - r.seq0)])
  }

  datatype Turn = WriterTurn(pkt: Packet) | ReaderTurn

  function Next(s: State, t: Turn): State
  {
    match t
    case WriterTurn(pkt) => WriterNext(s, pkt)
    case ReaderTurn => ReaderNext(s)
  }

  function Run(s: State, turns: seq<Turn>): State
  {
    if turns == [] then s else Next(Run(s, turns[..|turns| - 1]), turns[|turns| - 1])
  }

  // ----- the invariant -----

  /** The buffer is the latest packet, overwritten up to `at` by the one being published; the
      number is even exactly when it is not being written. */
  predicate WriterOk(s: State)
  {
    var w, k := s.writer, |s.published| - 1;
    && k >= 0 && |s.published[k]| == |s.buf|
    && s.num == 2 * k + (if w.pc == WCopy || w.pc == WEnd then 1 else 0)
    && (w.pc != WIdle ==> |w.pkt| == |s.buf| && w.seq0 == 2 * k)
    && (w.pc == WIdle || w.pc == WBegun ==> s.buf == s.published[k])
    && (w.pc == WBegun ==> w.at == 0)
    && (w.pc == WCopy ==> w.at <= |s.buf| && s.buf == w.pkt[..w.at] + s.published[k][w.at..])
    && (w.pc == WEnd ==> s.buf == w.pkt)
  }

  /** As long as the number has not moved, the copy is a prefix of the packet it began with. */
  predicate ReaderOk(s: State)
  {
    var r := s.reader;
    r.pc == RCopy || r.pc == RCheck ==>
      && r.seq0 % 2 == 0 && r.seq0 <= s.num && |r.copy| <= |s.buf|
      && (r.pc == RCheck ==> |r.copy| == |s.buf|)
      && (r.seq0 == s.num ==> r.copy == s.buf[..|r.copy|])
  }

  /** A finished read during which the number wrapped round less than once returned a packet that
      was wholly written, and that was the latest one throughout the read. */
  predicate ResultOk(x: Result, published: seq<Packet>)
  {
    && x.moved >= 0 && x.moved % WRAP == 0 && x.first <= x.last < |published|
    && x.last - x.first == x.moved / 2
    && (x.moved < WRAP ==> x.pkt == published[x.first])
  }

  predicate Inv(s: State)
  {
    WriterOk(s) && ReaderOk(s) && forall i | 0 <= i < |s.results| :: ResultOk(s.results[i], s.published)
  }

  lemma InitInv(pkt: Packet)
    ensures Inv(Init(pkt))
  {
  }

  lemma WriterKeeps(s: State, pkt: Packet)
    requires Inv(s)
    ensures Inv(WriterNext(s, pkt))
  {
    var t := WriterNext(s, pkt);
    if s.writer.pc == WCopy && s.writer.at < |s.buf| {
      var w, p := s.writer, s.published[|s.published| - 1];
      assert t.buf == w.pkt[..w.at + 1] + p[w.at + 1..];
    }
    if s.writer.pc == WCopy && s.writer.at == |s.buf| {
      assert s.buf == s.writer.pkt;
    }
  }

  /** A number at most one turn of the word away, and even, is the same only when it has not moved. */
  lemma SameNumber(a: nat, b: nat)
    requires a <= b && b % WRAP == a % WRAP
    ensures (b - a) % WRAP == 0
  {
  }

  lemma ReaderKeeps(s: State)
    requires Inv(s)
    ensures Inv(ReaderNext(s))
  {
    var t, r := ReaderNext(s), s.reader;
    if r.pc == RCheck && s.num % WRAP == r.seq0 % WRAP {
      SameNumber(r.seq0, s.num);
      assert t.results[|s.results|] == Result(r.copy, r.seq0 / 2, s.num / 2, s.num - r.seq0);
    }
    if r.pc == RCopy && |r.copy| < |s.buf| && r.seq0 == s.num {
      assert s.buf[..|r.copy| + 1] == s.buf[..|r.copy|] + [s.buf[|r.copy|]];
    }
  }

  lemma {:induction false} RunKeeps(s: State, turns: seq<Turn>)
    requires Inv(s)
    ensures Inv(Run(s, turns))
  {
    hide Inv, WriterNext, ReaderNext;
    if turns != [] {
      var last := |turns| - 1;
      RunKeeps(s, turns[..last]);
      match turns[last]
      case WriterTurn(pkt) => WriterKeeps(Run(s, turns[..last]), pkt);
      case ReaderTurn => ReaderKeeps(Run(s, turns[..last]));
    }
  }

  /** Every read of every run that spans fewer than 2^31 publications returns one wholly written
      packet, and that packet was the latest from the beginning to the end of the read. */
  lemma ReadsAreWhole(pkt: Packet, turns: seq<Turn>, i: nat)
    requires i < |Run(Init(pkt), turns).results|
    requires Run(Init(pkt), turns).results[i].last < Run(Init(pkt), turns).results[i].first + WRAP / 2
    ensures var s, x := Run(Init(pkt), turns), Run(Init(pkt), turns).results[i];
            x.first == x.last < |s.published| && x.pkt == s.published[x.first]
  {
    InitInv(pkt);
    RunKeeps(Init(pkt), turns);
    hide Run, Init;
    hide WriterOk, ReaderOk;
    assert ResultOk(Run(Init(pkt), turns).results[i], Run(Init(pkt), turns).published);
  }

  // ----- a read that spans 2^31 publications -----

  lemma {:induction false} RunAppend(s: State, a: seq<Turn>, b: seq<Turn>)
    ensures Run(s, a + b) == Run(Run(s, a), b)
  {
    hide Next;
    if b == [] {
      assert a + b == a;
    } else {
      var k := |b| - 1;
      RunAppend(s, a, b[..k]);
      assert (a + b)[..|a + b| - 1] == a + b[..k];
      assert (a + b)[|a + b| - 1] == b[k];
    }
  }

  lemma RunTwo(s: State, t: Turn, t': Turn)
    ensures Run(s, [t, t']) == Next(Next(s, t), t')
  {
    hide Next;
    assert [t, t'][..1] == [t] && [t][..0] == [];
    assert Run(s, [t]) == Next(Run(s, []), t);
  }

  const ONES: Turn := WriterTurn([1, 1])

  lemma BeginOnes(s: State)
    requires s.writer.pc == WIdle && |s.buf| == 2
    ensures Run(s, [ONES, ONES]) == s.(num := s.num + 1, writer := Writer(WCopy, [1, 1], s.num, 0))
  {
    RunTwo(s, ONES, ONES);
    hide Run;
  }

  lemma CopyOnes(s: State)
    requires s.writer.pc == WCopy && s.writer.pkt == [1, 1] && s.writer.at == 0 && |s.buf| == 2
    ensures Run(s, [ONES, ONES]) == s.(buf := [1, 1], writer := s.writer.(at := 2))
  {
    RunTwo(s, ONES, ONES);
    hide Run;
    assert s.buf[0 := 1][1 := 1] == [1, 1];
  }

  lemma EndOnes(s: State)
    requires s.writer.pc == WCopy && s.writer.at == 2 && |s.buf| == 2
    ensures Run(s, [ONES, ONES]) ==
            s.(num := s.writer.seq0 + 2, writer := s.writer.(pc := WIdle), published := s.published + [s.writer.pkt])
  {
    RunTwo(s, ONES, ONES);
    hide Run;
  }

  /** Publishing the two-word packet of ones takes six steps. */
  lemma PublishOnes(s: State)
    requires s.writer.pc == WIdle && |s.buf| == 2
    ensures Run(s, seq(6, _ => ONES)) ==
            s.(num := s.num + 2, buf := [1, 1], writer := Writer(WIdle, [1, 1], s.num, 2), published := s.published + [[1, 1]])
  {
    hide Run, Next;
    var two := [ONES, ONES];
    BeginOnes(s);
    var s2 := Run(s, two);
    CopyOnes(s2);
    var s4 := Run(s2, two);
    EndOnes(s4);
    RunAppend(s, two, two);
    RunAppend(s, two + two, two);
    assert seq(6, _ => ONES) == two + two + two;
  }

  function Ones(k: nat): seq<Turn> { seq(6 * k, _ => ONES) }

  lemma {:induction false} PublishMany(s: State, k: nat)
    requires s.writer.pc == WIdle && |s.buf| == 2 && k > 0
    ensures var t := Run(s, Ones(k));
            && t.num == s.num + 2 * k && t.buf == [1, 1] && t.writer.pc == WIdle && t.reader == s.reader
            && t.results == s.results && t.published == s.published + seq(k, _ => [1, 1])
  {
    hide Run, Next;
    var t := Run(s, Ones(k - 1));
    if k > 1 {
      PublishMany(s, k - 1);
    } else {
      assert Ones(0) == [];
      RunNone(s);
    }
    PublishOnes(t);
    RunAppend(s, Ones(k - 1), seq(6, _ => ONES));
    assert Ones(k) == Ones(k - 1) + seq(6, _ => ONES);
    assert seq(k, _ => [1, 1]) == seq(k - 1, _ => [1, 1]) + [[1, 1]];
  }

  lemma RunNone(s: State)
    ensures Run(s, []) == s
  {
  }

  const READ_TWO: seq<Turn> := [ReaderTurn, ReaderTurn]

  /** The reader begins and copies the first word. */
  lemma ReadFirst()
    ensures Run(Init([0, 0]), READ_TWO + [ReaderTurn]) == Init([0, 0]).(reader := Reader(RCopy, 0, [0]))
  {
    var s0 := Init([0, 0]);
    RunTwo(s0, ReaderTurn, ReaderTurn);
    RunAppend(s0, READ_TWO, [ReaderTurn]);
    RunOne(Run(s0, READ_TWO), ReaderTurn);
    hide Run;
  }

  lemma RunOne(s: State, t: Turn)
    ensures Run(s, [t]) == Next(s, t)
  {
    assert [t][..0] == [];
  }

  /** The reader copies the second word and gets ready to check. */
  lemma ReadSecond(s: State)
    requires s.reader == Reader(RCopy, 0, [0]) && s.buf == [1, 1]
    ensures Run(s, READ_TWO) == s.(reader := Reader(RCheck, 0, [0, 1]))
  {
    RunTwo(s, ReaderTurn, ReaderTurn);
    hide Run;
  }

  /** The wrapped number passes the check. */
  lemma ReadReturns(s: State)
    requires s.reader == Reader(RCheck, 0, [0, 1]) && s.num == WRAP && s.results == []
    ensures Run(s, [ReaderTurn]) ==
            s.(reader := s.reader.(pc := RIdle), results := [Result([0, 1], 0, WRAP / 2, WRAP)])
  {
    RunOne(s, ReaderTurn);
    hide Run;
  }

  lemma TornRead() returns (turns: seq<Turn>)
    ensures var t := Run(Init([0, 0]), turns);
            t.results == [Result([0, 1], 0, WRAP / 2, WRAP)] && [0, 1] !in t.published
  {
    hide Run, Next;
    var s0, k: nat := Init([0, 0]), WRAP / 2;
    var a := READ_TWO + [ReaderTurn];
    ReadFirst();
    var s1 := Run(s0, a);
    PublishMany(s1, k);
    RunAppend(s0, a, Ones(k));
    var s2 := Run(s1, Ones(k));
    ReadSecond(s2);
    RunAppend(s0, a + Ones(k), READ_TWO);
    ReadReturns(Run(s2, READ_TWO));
    RunAppend(s0, a + Ones(k) + READ_TWO, [ReaderTurn]);
    turns := a + Ones(k) + READ_TWO + [ReaderTurn];
    assert Run(s0, turns).published == [[0, 0]] + seq(k, _ => [1, 1]);
    NoMixture(k);
  }

  lemma NoMixture(k: nat)
    ensures [0, 1] !in [[0, 0]] + seq(k, _ => [1, 1])
  {
    var all := [[0, 0]] + seq(k, _ => [1, 1]);
    forall i | 0 <= i < |all|
      ensures all[i] != [0, 1]
    {
      assert all[i][1] != 1 || all[i][0] != 0;
    }
  }

  /** The bound is exact: a read during which 2^31 packets are published can return a mixture. */
  lemma ReadCanTear()
    ensures exists turns ::
              && |Run(Init([0, 0]), turns).results| == 1
              && Run(Init([0, 0]), turns).results[0].last == Run(Init([0, 0]), turns).results[0].first + WRAP / 2
              && Run(Init([0, 0]), turns).results[0].pkt !in Run(Init([0, 0]), turns).published
  {
    hide Run, Init;
    var turns := TornRead();
    assert Run(Init([0, 0]), turns).results[0].pkt == [0, 1];
  }
}
