/** What happens after the card refuses a command while a DMA burst is in flight: the controller
    forgets the burst, its beats stay on the bus, and the next card write takes them for its own. */
module SdspiStale {
  import opened Words
  import opened SdspiTypes
  import opened SdspiInvariant
  import opened SdspiSteps
  import opened SdspiLink
  import opened SdspiMachine

  // ----- runs -----

  /** The state after reset. */
  ghost function Fresh(image: seq<Word>, imageBytes: nat, readOnly: bool, mem: seq<Word>): Snap
  {
    Snap(Regs(false, 0, 0, 0, 0, 0, false), Proto(Idle, false, 0, 0, false, true, Config(false)), Dma(DIdle, 0, 0, 0, 0), [],
         Pending, NONE, [], [],
         Card(CIdle, 0, 0, 0, false, false, [], false, false, imageBytes >= SECTOR_SIZE, readOnly, true, false, true,
              Config(false), false),
         image, QUIET, mem, Trace(image, [], [], []), [])
  }

  ghost function After(s: Snap, acts: seq<Action>, imageBytes: nat): Snap
    decreases |acts|
  {
    if acts == [] then s else After(Next(s, acts[0], imageBytes), acts[1..], imageBytes)
  }

  lemma {:induction false} AfterAppend(s: Snap, a: seq<Action>, b: seq<Action>, imageBytes: nat)
    ensures After(s, a + b, imageBytes) == After(After(s, a, imageBytes), b, imageBytes)
    decreases |a|
  {
    hide Next;
    if a == [] {
      assert a + b == b;
    } else {
      assert (a + b)[1..] == a[1..] + b;
      AfterAppend(Next(s, a[0], imageBytes), a[1..], b, imageBytes);
    }
  }

  lemma AfterOne(s: Snap, a: Action, imageBytes: nat)
    ensures After(s, [a], imageBytes) == Next(s, a, imageBytes)
  {
    hide Next;
    assert [a][1..] == [];
  }

  lemma AfterTwo(s: Snap, a: Action, b: Action, imageBytes: nat)
    ensures After(s, [a, b], imageBytes) == Next(Next(s, a, imageBytes), b, imageBytes)
  {
    hide Next;
    assert [a, b] == [a] + [b];
    AfterAppend(s, [a], [b], imageBytes);
    AfterOne(s, a, imageBytes);
    AfterOne(Next(s, a, imageBytes), b, imageBytes);
  }

  lemma AfterThree(s: Snap, a: Action, b: Action, c: Action, imageBytes: nat)
    ensures After(s, [a, b, c], imageBytes) == Next(Next(Next(s, a, imageBytes), b, imageBytes), c, imageBytes)
  {
    hide Next;
    assert [a, b, c] == [a, b] + [c];
    AfterAppend(s, [a, b], [c], imageBytes);
    AfterTwo(s, a, b, imageBytes);
    AfterOne(Next(Next(s, a, imageBytes), b, imageBytes), c, imageBytes);
  }

  /** Memory returns the next beat of a burst. */
  lemma Serves1(s: Snap, word: nat, beats: nat, k: nat, imageBytes: nat)
    requires |s.mem| == MEM_WORDS && s.axi == QUIET.(ar := [Req(word, beats)], served := k) && word + k < MEM_WORDS && k < beats
    ensures Next(s, Serve, imageBytes) ==
            s.(axi := if k + 1 == beats then QUIET.(r := [Beat(s.mem[word + k], true)])
                      else QUIET.(ar := [Req(word, beats)], served := k + 1, r := [Beat(s.mem[word + k], false)]))
  {
  }

  // ----- the run -----

  const CLOCK := Controller(Stall(false, false, false, false), true)
  const CARD := CardStep(false, [])
  const START := Start(24, true, true)

  /** The first buffer starts 15 words before a page boundary, the second one at a page. */
  const FIRST: nat := 0xFC4
  const SECOND: nat := 0x2000

  /** A single-block write with 17 blocks of a word, which the card refuses, and one with one block. */
  const REFUSED := Command(24, 0, true, true, 4, 17, 68)
  const ACCEPTED := Command(24, 0, true, true, 4, 1, 4)

  function RegsFor(addr: nat, count: nat): Regs { Regs(true, 0, 24, addr, 4, count, true) }
  function SetRegs(addr: nat, count: nat): Action { Registers(true, false, 0, 24, addr, 4, count) }

  /** A card that is present, enabled and idle. */
  const READY := Card(CIdle, 0, 0, 0, false, false, [], false, true, true, false, true, false, false, Config(false), false)

  ghost predicate Sizes(image: seq<Word>, imageBytes: nat, mem: seq<Word>)
  {
    |image| == imageBytes / 4 && imageBytes >= SECTOR_SIZE && |mem| == MEM_WORDS
  }

  // ----- up to the first fetch -----

  ghost function Configured(image: seq<Word>, mem: seq<Word>): Snap
  {
    Snap(RegsFor(FIRST, 17), Proto(Idle, false, 0, 0, false, false, Config(false)), Dma(DIdle, 0, 0, 0, 0), [], Pending, NONE,
         [], [], READY, image, QUIET, mem, Trace(image, [], [], []), [])
  }

  lemma Configures(image: seq<Word>, imageBytes: nat, mem: seq<Word>)
    requires Sizes(image, imageBytes, mem)
    ensures After(Fresh(image, imageBytes, false, mem), [CARD, SetRegs(FIRST, 17), CLOCK] + [CARD], imageBytes) ==
            Configured(image, mem)
  {
    var s := Fresh(image, imageBytes, false, mem);
    AfterAppend(s, [CARD, SetRegs(FIRST, 17), CLOCK], [CARD], imageBytes);
    AfterThree(s, CARD, SetRegs(FIRST, 17), CLOCK, imageBytes);
    var s1 := Next(s, CARD, imageBytes);
    assert s1 == s.(dataQ := [Status(true)], card := s.card.(statusPending := false));
    var s2 := Next(s1, SetRegs(FIRST, 17), imageBytes);
    assert s2 == s1.(regs := RegsFor(FIRST, 17).(cardPresent := false));
    var s3 := Next(s2, CLOCK, imageBytes);
    assert s3 == s2.(regs := RegsFor(FIRST, 17), dataQ := [], cmdQ := [Config(true)], pr := s2.pr.(configPending := false));
    AfterOne(s3, CARD, imageBytes);
  }

  /** `k` beats of the first burst of 15 have been fetched. */
  ghost function Fetched15(image: seq<Word>, mem: seq<Word>, k: nat): Snap
    requires |mem| == MEM_WORDS && k <= 15
  {
    Snap(RegsFor(FIRST, 17), Proto(WritePrefetch, true, 17, 0, false, false, Config(false)), Dma(FromMemR, 0, 0, 15, k),
         mem[1009..1009 + k], Pending, NONE, [], [], READY, image, QUIET.(ar := [Req(1009, 15)], served := k), mem,
         Trace(image, BufferWords(mem, FIRST, 17), [(0, 15)], []), [])
  }

  lemma FirstBurst()
    ensures Beats(FIRST, 17, 0, 16) == 15 && Beats(FIRST, 17, 15, 16) == 2 && Beats(SECOND, 1, 0, 16) == 1
    ensures Buf(FIRST, 0) == 1009 && Buf(FIRST, 15) == 1024 && Buf(SECOND, 0) == 2048
  {
  }

  ghost function Begun(image: seq<Word>, mem: seq<Word>): Snap
    requires |mem| == MEM_WORDS
  {
    Configured(image, mem).(pr := Proto(WritePrefetch, true, 17, 0, false, false, Config(false)),
                            tr := Trace(image, BufferWords(mem, FIRST, 17), [], []))
  }

  lemma Begins(image: seq<Word>, imageBytes: nat, mem: seq<Word>)
    requires Sizes(image, imageBytes, mem)
    ensures Next(Configured(image, mem), START, imageBytes) == Begun(image, mem)
  {
    hide BufferWords;
  }

  lemma Schedules(image: seq<Word>, imageBytes: nat, mem: seq<Word>)
    requires Sizes(image, imageBytes, mem)
    ensures Next(Begun(image, mem), CLOCK, imageBytes) ==
            Begun(image, mem).(dma := Dma(FromMemAr, 0, 0, 15, 0), tr := Trace(image, BufferWords(mem, FIRST, 17), [(0, 15)], []))
  {
    hide BufferWords, Beats, Buf;
    FirstBurst();
  }

  lemma Starts(image: seq<Word>, imageBytes: nat, mem: seq<Word>)
    requires Sizes(image, imageBytes, mem)
    ensures After(Configured(image, mem), [START, CLOCK, CLOCK], imageBytes) == Fetched15(image, mem, 0)
  {
    hide BufferWords, Beats, Buf;
    FirstBurst();
    Begins(image, imageBytes, mem);
    Schedules(image, imageBytes, mem);
    AfterThree(Configured(image, mem), START, CLOCK, CLOCK, imageBytes);
  }

  // ----- the first burst and most of the second -----

  lemma FetchStep(image: seq<Word>, imageBytes: nat, mem: seq<Word>, k: nat)
    requires Sizes(image, imageBytes, mem) && k < 14
    ensures Next(Fetched15(image, mem, k), Serve, imageBytes) ==
            Fetched15(image, mem, k).(axi := QUIET.(ar := [Req(1009, 15)], served := k + 1, r := [Beat(mem[1009 + k], false)]))
    ensures Next(Fetched15(image, mem, k).(axi := QUIET.(ar := [Req(1009, 15)], served := k + 1, r := [Beat(mem[1009 + k], false)])),
                 CLOCK, imageBytes) == Fetched15(image, mem, k + 1)
  {
    hide BufferWords, Beats, Buf, MemServed;
    Serves1(Fetched15(image, mem, k), 1009, 15, k, imageBytes);
    assert mem[1009..1009 + k] + [mem[1009 + k]] == mem[1009..1009 + k + 1];
  }

  /** `n` beats served and taken. */
  function Fetches(n: nat): seq<Action> { if n == 0 then [] else Fetches(n - 1) + [Serve, CLOCK] }

  lemma {:induction false} FetchAll(image: seq<Word>, imageBytes: nat, mem: seq<Word>, n: nat)
    requires Sizes(image, imageBytes, mem) && n <= 14
    ensures After(Fetched15(image, mem, 0), Fetches(n), imageBytes) == Fetched15(image, mem, n)
  {
    if n > 0 {
      FetchAll(image, imageBytes, mem, n - 1);
      hide Fetched15, Next;
      AfterAppend(Fetched15(image, mem, 0), Fetches(n - 1), [Serve, CLOCK], imageBytes);
      AfterTwo(Fetched15(image, mem, n - 1), Serve, CLOCK, imageBytes);
      FetchStep(image, imageBytes, mem, n - 1);
    }
  }

  /** The first burst is over and the second one, of 2 beats, about to be asked for. */
  ghost function Crossing(image: seq<Word>, mem: seq<Word>): Snap
    requires |mem| == MEM_WORDS
  {
    Fetched15(image, mem, 15).(
      dma := Dma(FromMemAr, 15, 0, 2, 0), axi := QUIET, tr := Trace(image, BufferWords(mem, FIRST, 17), [(0, 15), (15, 2)], []))
  }

  lemma Crosses(image: seq<Word>, imageBytes: nat, mem: seq<Word>)
    requires Sizes(image, imageBytes, mem)
    ensures After(Fetched15(image, mem, 14), [Serve, CLOCK], imageBytes) == Crossing(image, mem)
  {
    hide BufferWords, Beats, Buf, MemServed;
    FirstBurst();
    var s := Fetched15(image, mem, 14);
    AfterTwo(s, Serve, CLOCK, imageBytes);
    Serves1(s, 1009, 15, 14, imageBytes);
    assert mem[1009..1023] + [mem[1023]] == mem[1009..1024];
  }

  /** The second burst has been asked for. */
  ghost function Asked(image: seq<Word>, mem: seq<Word>): Snap
    requires |mem| == MEM_WORDS
  {
    Crossing(image, mem).(dma := Dma(FromMemR, 15, 0, 2, 0), axi := QUIET.(ar := [Req(1024, 2)]))
  }

  lemma Asks(image: seq<Word>, imageBytes: nat, mem: seq<Word>)
    requires Sizes(image, imageBytes, mem)
    ensures Next(Crossing(image, mem), CLOCK, imageBytes) == Asked(image, mem)
  {
    hide BufferWords, Beats, Buf;
    FirstBurst();
  }

  /** Its first beat has arrived; 16 words are there, so the command has been sent. */
  ghost function Commanded(image: seq<Word>, mem: seq<Word>): Snap
    requires |mem| == MEM_WORDS
  {
    Asked(image, mem).(
      pr := Proto(WaitRsp, true, 17, 0, false, false, REFUSED), dma := Dma(FromMemR, 15, 0, 2, 1), fifo := mem[1009..1025],
      axi := QUIET.(ar := [Req(1024, 2)], served := 1), cmdQ := [REFUSED])
  }

  lemma Commands(image: seq<Word>, imageBytes: nat, mem: seq<Word>)
    requires Sizes(image, imageBytes, mem)
    ensures After(Asked(image, mem), [Serve, CLOCK], imageBytes) == Commanded(image, mem)
  {
    hide BufferWords, Beats, Buf, MemServed;
    var s := Asked(image, mem);
    AfterTwo(s, Serve, CLOCK, imageBytes);
    Serves1(s, 1024, 2, 0, imageBytes);
    assert mem[1009..1024] + [mem[1024]] == mem[1009..1025];
  }

  // ----- the refusal -----

  /** The card after the refused command. */
  ghost function Refusing(): Card
  {
    READY.(len := 17, write := true, regular := true, buf := seq(17, _ => ZERO), error := true, cmd := REFUSED)
  }

  /** The command has been refused, and the last beat of its burst arrives. */
  ghost function Left(image: seq<Word>, mem: seq<Word>): Snap
    requires |mem| == MEM_WORDS
  {
    Commanded(image, mem).(
      pr := Proto(Idle, true, 17, 0, false, false, REFUSED), dma := Dma(DIdle, 15, 0, 2, 1), fifo := [], outcome := Failed,
      errs := NONE.(cut := true), cmdQ := [], card := Refusing(), axi := QUIET.(r := [Beat(mem[1025], true)]))
  }

  lemma Refuses(image: seq<Word>, imageBytes: nat, mem: seq<Word>)
    requires Sizes(image, imageBytes, mem)
    ensures After(Commanded(image, mem), [CARD, CARD], imageBytes) ==
            Commanded(image, mem).(cmdQ := [], card := Refusing(), dataQ := [Response(true)])
  {
    hide BufferWords;
    var s := Commanded(image, mem);
    AfterTwo(s, CARD, CARD, imageBytes);
    assert Next(s, CARD, imageBytes) == s.(cmdQ := [], card := Refusing().(st := CSendResponse));
  }

  lemma Fails(image: seq<Word>, imageBytes: nat, mem: seq<Word>)
    requires Sizes(image, imageBytes, mem)
    ensures var s := Commanded(image, mem).(cmdQ := [], card := Refusing(), dataQ := [Response(true)]);
            CutOff(s) && After(s, [CLOCK, Serve], imageBytes) == Left(image, mem)
  {
    hide BufferWords, Beats, MemServed;
    var s := Commanded(image, mem).(cmdQ := [], card := Refusing(), dataQ := [Response(true)]);
    AfterTwo(s, CLOCK, Serve, imageBytes);
    assert Next(s, CLOCK, imageBytes) == Left(image, mem).(axi := s.axi);
    Serves1(Left(image, mem).(axi := s.axi), 1024, 2, 1, imageBytes);
  }

  // ----- the next write -----

  /** The second command has been sent, with the beat left over in the FIFO. */
  ghost function Resent(image: seq<Word>, mem: seq<Word>): Snap
    requires |mem| == MEM_WORDS
  {
    Left(image, mem).(
      regs := RegsFor(SECOND, 1), pr := Proto(WaitRsp, true, 1, 0, false, false, ACCEPTED), dma := Dma(DIdle, 1, 0, 1, 1),
      fifo := [mem[1025]], outcome := Pending, cmdQ := [ACCEPTED], axi := QUIET.(ar := [Req(2048, 1)]),
      tr := Trace(image, BufferWords(mem, SECOND, 1), [(0, 1)], []))
  }

  /** It has been started, and its burst is about to be asked for. */
  ghost function Restarted(image: seq<Word>, mem: seq<Word>): Snap
    requires |mem| == MEM_WORDS
  {
    Left(image, mem).(
      regs := RegsFor(SECOND, 1), pr := Proto(WritePrefetch, true, 1, 0, false, false, REFUSED),
      dma := Dma(FromMemAr, 0, 0, 1, 0), outcome := Pending,
      tr := Trace(image, BufferWords(mem, SECOND, 1), [(0, 1)], []))
  }

  lemma Restarts(image: seq<Word>, imageBytes: nat, mem: seq<Word>)
    requires Sizes(image, imageBytes, mem)
    ensures After(Left(image, mem), [SetRegs(SECOND, 1), START, CLOCK], imageBytes) == Restarted(image, mem)
  {
    hide BufferWords, Beats, Buf;
    FirstBurst();
    var s := Left(image, mem);
    AfterThree(s, SetRegs(SECOND, 1), START, CLOCK, imageBytes);
    var s1 := Next(s, SetRegs(SECOND, 1), imageBytes);
    assert s1 == s.(regs := RegsFor(SECOND, 1));
    assert Next(s1, START, imageBytes) ==
           s1.(pr := Proto(WritePrefetch, true, 1, 0, false, false, REFUSED), dma := Dma(DIdle, 0, 0, 2, 1), outcome := Pending,
               tr := Trace(image, BufferWords(mem, SECOND, 1), [], []));
  }

  /** The beat left over is taken for the one just asked for. */
  lemma TakesStale(image: seq<Word>, imageBytes: nat, mem: seq<Word>)
    requires Sizes(image, imageBytes, mem)
    ensures After(Restarted(image, mem), [CLOCK, CLOCK], imageBytes) == Resent(image, mem)
  {
    hide BufferWords, Beats, Buf;
    FirstBurst();
    var s := Restarted(image, mem);
    AfterTwo(s, CLOCK, CLOCK, imageBytes);
    assert Next(s, CLOCK, imageBytes) ==
           s.(dma := Dma(FromMemR, 0, 0, 1, 0), axi := QUIET.(ar := [Req(2048, 1)], r := [Beat(mem[1025], true)]));
  }

  /** The card after the accepted command. */
  ghost function Accepting(): Card
  {
    Refusing().(len := 1, buf := [ZERO], error := false, cmd := ACCEPTED)
  }

  lemma Accepts24(image: seq<Word>, imageBytes: nat, mem: seq<Word>)
    requires Sizes(image, imageBytes, mem)
    ensures After(Resent(image, mem), [CARD, CARD], imageBytes) ==
            Resent(image, mem).(cmdQ := [], card := Accepting().(st := CRecvWriteData), dataQ := [Response(false)])
  {
    hide BufferWords;
    var s := Resent(image, mem);
    AfterTwo(s, CARD, CARD, imageBytes);
    assert seq(1, _ => ZERO) == [ZERO];
    assert Next(s, CARD, imageBytes) == s.(cmdQ := [], card := Accepting().(st := CSendResponse));
  }

  /** The word has reached the image. */
  ghost function Written(image: seq<Word>, mem: seq<Word>): Snap
    requires |mem| == MEM_WORDS && |image| > 0
  {
    Resent(image, mem).(
      pr := Proto(WaitWriteDone, true, 1, 1, false, false, ACCEPTED), fifo := [], cmdQ := [], dataQ := [WriteDone(false)],
      card := Accepting().(off := 1, buf := [mem[1025]]), image := Stored(image, 0, [mem[1025]]))
  }

  lemma Writes(image: seq<Word>, imageBytes: nat, mem: seq<Word>)
    requires Sizes(image, imageBytes, mem)
    ensures After(Resent(image, mem).(cmdQ := [], card := Accepting().(st := CRecvWriteData), dataQ := [Response(false)]),
                  [CLOCK, CARD, CARD], imageBytes) == Written(image, mem)
  {
    hide BufferWords, Beats, Stored;
    var s := Resent(image, mem).(cmdQ := [], card := Accepting().(st := CRecvWriteData), dataQ := [Response(false)]);
    AfterThree(s, CLOCK, CARD, CARD, imageBytes);
    var s1 := Next(s, CLOCK, imageBytes);
    assert s1 == s.(pr := Proto(WaitWriteDone, true, 1, 1, false, false, ACCEPTED), fifo := [], dataQ := [],
                    cmdQ := [WriteData(mem[1025], true)]);
    assert [ZERO][0 := mem[1025]] == [mem[1025]];
    assert Next(s1, CARD, imageBytes) == Written(image, mem).(dataQ := [], card := Written(image, mem).card.(st := CSendWriteDone));
  }

  /** The write is acknowledged and logged as done. */
  ghost function Acknowledged(image: seq<Word>, mem: seq<Word>): Snap
    requires |mem| == MEM_WORDS && |image| > 0
  {
    Written(image, mem).(
      pr := Proto(Idle, true, 1, 1, false, false, ACCEPTED), dataQ := [], outcome := Done,
      log := [Xfer(ACCEPTED, false, SECOND, 0, 1, [mem[2048]], [mem[1025]], [(0, 1)], [])])
  }

  lemma Acknowledges(image: seq<Word>, imageBytes: nat, mem: seq<Word>)
    requires Sizes(image, imageBytes, mem)
    ensures Next(Written(image, mem), CLOCK, imageBytes) == Acknowledged(image, mem)
  {
    hide Beats, Stored;
    assert BufferWords(mem, SECOND, 1) == [mem[2048]];
    assert Stored(image, 0, [mem[1025]])[0..1] == [mem[1025]];
  }

  lemma Then(s: Snap, a: seq<Action>, t: Snap, b: seq<Action>, imageBytes: nat)
    requires After(s, a, imageBytes) == t
    ensures After(s, a + b, imageBytes) == After(t, b, imageBytes)
  {
    AfterAppend(s, a, b, imageBytes);
  }

  /** The first half: from reset to the refusal that leaves a beat on the bus. */
  lemma BeatIsLeft(image: seq<Word>, imageBytes: nat, mem: seq<Word>) returns (acts: seq<Action>)
    requires Sizes(image, imageBytes, mem)
    ensures After(Fresh(image, imageBytes, false, mem), acts, imageBytes) == Left(image, mem)
  {
    Configures(image, imageBytes, mem);
    Starts(image, imageBytes, mem);
    FetchAll(image, imageBytes, mem, 14);
    Crosses(image, imageBytes, mem);
    Asks(image, imageBytes, mem);
    AfterOne(Crossing(image, mem), CLOCK, imageBytes);
    Commands(image, imageBytes, mem);
    Refuses(image, imageBytes, mem);
    Fails(image, imageBytes, mem);
    hide After, Next, Fresh, Configured, Fetched15, Crossing, Asked, Commanded, Left, Refusing, CutOff;
    var s := Fresh(image, imageBytes, false, mem);
    acts := [CARD, SetRegs(FIRST, 17), CLOCK] + [CARD];
    Then(s, acts, Configured(image, mem), [START, CLOCK, CLOCK], imageBytes);
    acts := acts + [START, CLOCK, CLOCK];
    Then(s, acts, Fetched15(image, mem, 0), Fetches(14), imageBytes);
    acts := acts + Fetches(14);
    Then(s, acts, Fetched15(image, mem, 14), [Serve, CLOCK], imageBytes);
    acts := acts + [Serve, CLOCK];
    Then(s, acts, Crossing(image, mem), [CLOCK], imageBytes);
    acts := acts + [CLOCK];
    Then(s, acts, Asked(image, mem), [Serve, CLOCK], imageBytes);
    acts := acts + [Serve, CLOCK];
    Then(s, acts, Commanded(image, mem), [CARD, CARD], imageBytes);
    acts := acts + [CARD, CARD];
    Then(s, acts, Commanded(image, mem).(cmdQ := [], card := Refusing(), dataQ := [Response(true)]), [CLOCK, Serve], imageBytes);
    acts := acts + [CLOCK, Serve];
  }

  /** The second half: the next write takes the beat left over. */
  lemma BeatIsWritten(image: seq<Word>, imageBytes: nat, mem: seq<Word>) returns (acts: seq<Action>)
    requires Sizes(image, imageBytes, mem)
    ensures After(Left(image, mem), acts, imageBytes) == Acknowledged(image, mem)
  {
    Restarts(image, imageBytes, mem);
    TakesStale(image, imageBytes, mem);
    Accepts24(image, imageBytes, mem);
    Writes(image, imageBytes, mem);
    Acknowledges(image, imageBytes, mem);
    AfterOne(Written(image, mem), CLOCK, imageBytes);
    hide After, Next, Left, Restarted, Resent, Accepting, Stored, Written, Acknowledged;
    var s := Left(image, mem);
    acts := [SetRegs(SECOND, 1), START, CLOCK];
    Then(s, acts, Restarted(image, mem), [CLOCK, CLOCK], imageBytes);
    acts := acts + [CLOCK, CLOCK];
    Then(s, acts, Resent(image, mem), [CARD, CARD], imageBytes);
    acts := acts + [CARD, CARD];
    Then(s, acts, Resent(image, mem).(cmdQ := [], card := Accepting().(st := CRecvWriteData), dataQ := [Response(false)]),
         [CLOCK, CARD, CARD], imageBytes);
    acts := acts + [CLOCK, CARD, CARD];
    Then(s, acts, Written(image, mem), [CLOCK], imageBytes);
    acts := acts + [CLOCK];
  }

  /** A write reported as done without any error whose logged buffer is not what the card has got. */
  ghost predicate SilentlyWrong(s: Snap, image: seq<Word>, mem: seq<Word>)
    requires |mem| == MEM_WORDS && |image| > 0
  {
    && s.pr.state == Idle && s.outcome == Done && s.errs == NONE.(cut := true) && s.mem == mem
    && |s.log| == 1 && s.log[0].cmd == ACCEPTED && s.log[0].addr == SECOND && !XferOk(s.log[0])
    && s.log[0].buffer == [mem[Buf(SECOND, 0)]] && s.log[0].image == [mem[Buf(FIRST, 16)]]
    && s.image == Stored(image, 0, [mem[Buf(FIRST, 16)]])
  }

  lemma Unsound(image: seq<Word>, mem: seq<Word>)
    requires |mem| == MEM_WORDS && |image| > 0 && mem[Buf(FIRST, 16)] != mem[Buf(SECOND, 0)]
    ensures SilentlyWrong(Acknowledged(image, mem), image, mem)
  {
    hide Stored;
    assert Buf(FIRST, 16) == 1025 && Buf(SECOND, 0) == 2048;
    var t := Acknowledged(image, mem).log[0];
    assert OnImage(t) && t.buffer[0] != t.image[0];
  }

  /** After a refusal that cuts off a burst, a write reports success without any error and leaves on
      the card a word that its buffer does not hold: from reset, over any image and any memory in
      which the two words differ, a refused write from the first buffer is followed by a one-word
      write from the second, and the card gets the last word of the first buffer. */
  lemma StaleWrite(image: seq<Word>, imageBytes: nat, mem: seq<Word>) returns (acts: seq<Action>)
    requires Sizes(image, imageBytes, mem) && mem[Buf(FIRST, 16)] != mem[Buf(SECOND, 0)]
    ensures SilentlyWrong(After(Fresh(image, imageBytes, false, mem), acts, imageBytes), image, mem)
  {
    var before := BeatIsLeft(image, imageBytes, mem);
    var after := BeatIsWritten(image, imageBytes, mem);
    acts := before + after;
    Unsound(image, mem);
    hide After, Fresh, Left, SilentlyWrong, Acknowledged;
    Then(Fresh(image, imageBytes, false, mem), before, Left(image, mem), after, imageBytes);
  }
}
