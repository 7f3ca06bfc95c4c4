/** The handshake between the simulation host and the worker thread that runs one task per
    submission.  Every atomic load, store, add, futex wait and futex wake is one step; the two
    threads interleave freely under sequential consistency. */
module SmpHandshake {
  const SPIN_LIMIT: nat := 1024

  /** Epoch words are 32 bits wide.  The state keeps each of them as the count it would be without
      wrap-around; the threads only ever compare the words. */
  function Word(n: nat): nat { n % 0x1_0000_0000 }
  predicate Same(a: nat, b: nat) { Word(a) == Word(b) }

  // ----- state -----

  /** The shared words of `struct smp_opt`. */
  datatype Shared = Shared(run: nat, done: nat, runSleepers: int, doneSleepers: int, stop: bool, shadow: nat)

  datatype Call = Submit | Drain | Destroy

  /** Where the host stands: idle between calls, in the drain loop (`HTarget` to `HDecSleep`), in
      the rest of submit or destroy. */
  datatype HostPc =
    | HIdle | HTarget | HSpin | HCheck | HIncSleep | HLoop | HReload | HFutex | HBlocked | HDecSleep
    | HShadow | HInc | HChkSleep | HWake
    | HStop | HJoin | HGone

  /** `cycle` is the host's own cycle counter, `reread` the value loaded before sleeping. */
  datatype Host = Host(pc: HostPc, call: Call, target: nat, reread: nat, spin: nat, cycle: nat)

  datatype WorkerPc =
    | WStart | WSpinStop | WSpinEpoch | WCheckStop | WCheckEpoch | WIncSleep
    | WLoopStop | WLoopEpoch | WFutex | WBlocked | WDecSleep | WLastStop | WLastLoad
    | WTask | WStore | WChkDone | WWake | WExit

  datatype Worker = Worker(pc: WorkerPc, seen: nat, epoch: nat, spin: nat)

  /** What has happened: the cycle of each submission and of each task run, and whether the
      worker first read the epoch only after a submission. */
  datatype Past = Past(submitted: seq<nat>, ran: seq<nat>, late: bool)

  datatype State = State(sh: Shared, host: Host, wk: Worker, past: Past)

  function Init(cycle: nat): State
  {
    State(Shared(0, 0, 0, 0, false, cycle), Host(HIdle, Drain, 0, 0, 0, cycle), Worker(WStart, 0, 0, 0), Past([], [], false))
  }

  // ----- the host -----

  function HostGoto(s: State, pc: HostPc): State { s.(host := s.host.(pc := pc)) }

  /** The drain loop has seen the target epoch done. */
  function Drained(s: State): State { HostGoto(s, if s.host.call == Submit then HShadow else HIdle) }

  function DrainNext(s: State): State
  {
    var h, sh := s.host, s.sh;
    match h.pc
    case HTarget => s.(host := h.(target := sh.run, spin := 0, pc := HSpin))
    case HSpin =>
      if h.spin >= SPIN_LIMIT then HostGoto(s, HCheck)
      else if Same(sh.done, h.target) then Drained(s)
      else s.(host := h.(spin := h.spin + 1))
    case HCheck => if Same(sh.done, h.target) then Drained(s) else HostGoto(s, HIncSleep)
    case HIncSleep => s.(sh := sh.(doneSleepers := sh.doneSleepers + 1), host := h.(pc := HLoop))
    case HLoop => HostGoto(s, if Same(sh.done, h.target) then HDecSleep else HReload)
    case HReload => s.(host := h.(reread := sh.done, pc := HFutex))
    case HFutex => HostGoto(s, if Same(sh.done, h.reread) then HBlocked else HLoop)
    case HDecSleep => Drained(s.(sh := sh.(doneSleepers := sh.doneSleepers - 1)))
    case _ => s
  }

  /** The wake-up part of submit or destroy is over. */
  function Returned(s: State): State { HostGoto(s, if s.host.call == Destroy then HJoin else HIdle) }

  function PublishNext(s: State): State
  {
    var h, sh := s.host, s.sh;
    match h.pc
    case HShadow => s.(sh := sh.(shadow := h.cycle), host := h.(pc := HInc))
    case HInc =>
      s.(sh := sh.(run := sh.run + 1), host := h.(pc := HChkSleep),
         past := if h.call == Submit then s.past.(submitted := s.past.submitted + [sh.shadow]) else s.past)
    case HChkSleep => if sh.runSleepers != 0 then HostGoto(s, HWake) else Returned(s)
    case HWake => Returned(if s.wk.pc == WBlocked then WorkerGoto(s, WLoopStop) else s)
    case HStop => s.(sh := sh.(stop := true), host := h.(pc := HInc))
    case HJoin => if s.wk.pc == WExit then HostGoto(s, HGone) else s
    case _ => s
  }

  function HostNext(s: State, call: Call): State
  {
    if s.host.pc == HIdle then s.(host := s.host.(call := call, pc := if call == Destroy then HStop else HTarget))
    else if s.host.pc == HTarget || Draining(s.host.pc) then DrainNext(s)
    else PublishNext(s)
  }

  // ----- the worker -----

  function WorkerGoto(s: State, pc: WorkerPc): State { s.(wk := s.wk.(pc := pc)) }

  /** The worker leaves the wait with the epoch it has just loaded, and starts the task. */
  function StartTask(s: State): State
  {
    s.(wk := s.wk.(epoch := s.sh.run, pc := WTask), past := s.past.(ran := s.past.ran + [s.sh.shadow]))
  }

  function WaitNext(s: State): State
  {
    var w, sh := s.wk, s.sh;
    match w.pc
    case WSpinStop =>
      if w.spin >= SPIN_LIMIT then WorkerGoto(s, WCheckStop)
      else WorkerGoto(s, if sh.stop then WExit else WSpinEpoch)
    case WSpinEpoch =>
      if !Same(sh.run, w.seen) then StartTask(s) else s.(wk := w.(spin := w.spin + 1, pc := WSpinStop))
    case WCheckStop => WorkerGoto(s, if sh.stop then WLastStop else WCheckEpoch)
    case WCheckEpoch => WorkerGoto(s, if Same(sh.run, w.seen) then WIncSleep else WLastStop)
    case WIncSleep => s.(sh := sh.(runSleepers := sh.runSleepers + 1), wk := w.(pc := WLoopStop))
    case WLoopStop => WorkerGoto(s, if sh.stop then WDecSleep else WLoopEpoch)
    case WLoopEpoch => WorkerGoto(s, if Same(sh.run, w.seen) then WFutex else WDecSleep)
    case WFutex => WorkerGoto(s, if Same(sh.run, w.seen) then WBlocked else WLoopStop)
    case WDecSleep => s.(sh := sh.(runSleepers := sh.runSleepers - 1), wk := w.(pc := WLastStop))
    case WLastStop => WorkerGoto(s, if sh.stop then WExit else WLastLoad)
    case WLastLoad => StartTask(s)
    case _ => s
  }

  /** The next round of the worker's main loop. */
  function NextRound(s: State): State { s.(wk := s.wk.(seen := s.wk.epoch, spin := 0, pc := WSpinStop)) }

  function TaskNext(s: State): State
  {
    var w, sh := s.wk, s.sh;
    match w.pc
    case WStart =>
      s.(wk := w.(seen := sh.run, spin := 0, pc := WSpinStop), past := s.past.(late := sh.run > 0))
    case WTask => WorkerGoto(s, WStore)
    case WStore => s.(sh := sh.(done := w.epoch), wk := w.(pc := WChkDone))
    case WChkDone => if sh.doneSleepers != 0 then WorkerGoto(s, WWake) else NextRound(s)
    case WWake => NextRound(if s.host.pc == HBlocked then HostGoto(s, HLoop) else s)
    case _ => s
  }

  function WorkerNext(s: State): State
  {
    if s.wk.pc == WStart || Running(s.wk.pc) || Publishing(s.wk.pc) || s.wk.pc == WExit then TaskNext(s) else WaitNext(s)
  }

  // ----- runs -----

  /** Who moves next.  A sleeping thread may also wake up on its own (a signal), and the host
      counts cycles between calls. */
  datatype Turn = HostTurn(call: Call) | WorkerTurn | HostSignal | WorkerSignal | Tick

  function Next(s: State, t: Turn): State
  {
    match t
    case HostTurn(call) => HostNext(s, call)
    case WorkerTurn => WorkerNext(s)
    case HostSignal => if s.host.pc == HBlocked then HostGoto(s, HLoop) else s
    case WorkerSignal => if s.wk.pc == WBlocked then WorkerGoto(s, WLoopStop) else s
    case Tick => if s.host.pc == HIdle then s.(host := s.host.(cycle := s.host.cycle + 1)) else s
  }

  function Run(s: State, turns: seq<Turn>): State
  {
    if turns == [] then s else Next(Run(s, turns[..|turns| - 1]), turns[|turns| - 1])
  }

  // ----- the invariant -----

  predicate Draining(pc: HostPc)
  {
    pc == HSpin || pc == HCheck || pc == HIncSleep || HostAsleep(pc)
  }

  predicate HostAsleep(pc: HostPc) { pc == HLoop || pc == HReload || pc == HFutex || pc == HBlocked || pc == HDecSleep }

  predicate WorkerAsleep(pc: WorkerPc)
  {
    pc == WLoopStop || pc == WLoopEpoch || pc == WFutex || pc == WBlocked || pc == WDecSleep
  }

  /** Inside the task or about to publish its end. */
  predicate Running(pc: WorkerPc) { pc == WTask || pc == WStore }

  /** The end is published but the main loop has not come round. */
  predicate Publishing(pc: WorkerPc) { pc == WChkDone || pc == WWake }

  /** The worker has found the epoch changed (or the stop flag set) and is on its way out of the wait. */
  predicate Noticed(pc: WorkerPc) { pc == WDecSleep || pc == WLastStop || pc == WLastLoad }

  /** With the stop flag set, the way out of the worker's loop. */
  predicate Leaving(pc: WorkerPc) { pc == WSpinStop || pc == WCheckStop || pc == WLastStop || pc == WExit }

  /** Destroy has bumped the run epoch. */
  predicate Bumped(s: State) { s.sh.stop && s.host.pc != HInc }

  /** The sleeper counts are exact; a sleeper on `run_epoch` has nothing to miss, or its wake-up is
      on the way; so has a sleeper on `done_epoch`, as far as the value it re-read goes. */
  predicate SleepOk(s: State)
  {
    && s.sh.runSleepers == (if WorkerAsleep(s.wk.pc) then 1 else 0)
    && s.sh.doneSleepers == (if HostAsleep(s.host.pc) then 1 else 0)
    && (s.wk.pc == WBlocked ==> s.sh.run == s.wk.seen || s.host.pc == HChkSleep || s.host.pc == HWake)
    && (s.host.pc == HFutex || s.host.pc == HBlocked ==> s.host.reread <= s.sh.done && s.sh.run <= s.host.reread + 1)
    && (s.host.pc == HBlocked ==> s.host.reread == s.sh.done || Publishing(s.wk.pc))
  }

  /** The call the host is in. */
  predicate CallOk(s: State)
  {
    var pc, call := s.host.pc, s.host.call;
    && (s.sh.stop <==> call == Destroy && pc != HStop)
    && (call == Destroy ==> pc == HStop || pc == HInc || pc == HChkSleep || pc == HWake || pc == HJoin || pc == HGone)
    && (call == Drain ==> pc == HIdle || pc == HTarget || Draining(pc))
    && (pc == HStop || pc == HJoin || pc == HGone ==> call == Destroy)
    && (pc == HGone ==> s.wk.pc == WExit)
    && (s.wk.pc == WExit ==> s.sh.stop)
  }

  /** The host has seen every submission done: a drain has returned or is about to, or a submit is
      past its drain. */
  predicate SawDone(s: State)
  {
    || s.host.pc == HShadow || s.host.pc == HDecSleep || (s.host.pc == HInc && s.host.call == Submit)
    || (s.host.pc == HIdle && s.host.call == Drain)
  }

  /** The host's counts, and what it knows once its drain is over. */
  predicate CountsOk(s: State)
  {
    var pc, submit, n := s.host.pc, s.host.call == Submit, |s.past.submitted|;
    && s.sh.run == n + (if Bumped(s) then 1 else 0)
    && (Draining(pc) ==> s.host.target == n)
    && (SawDone(s) ==> s.sh.done == n && !s.past.late)
    && (n > 0 && !(pc == HInc && submit) ==> s.sh.shadow == s.past.submitted[n - 1])
  }

  /** The task runs so far are those of the first `k` submissions; beyond the last submission
      (`k` then counts the bump of destroy) there is at most one more. */
  predicate RanOk(ran: seq<nat>, submitted: seq<nat>, k: nat)
  {
    if k <= |submitted| then ran == submitted[..k] else submitted <= ran && |ran| <= |submitted| + 1
  }

  /** The epochs, when the worker read `run_epoch` before the first submission. */
  predicate EpochsOk(s: State)
  {
    var pc, w, sh := s.wk.pc, s.wk, s.sh;
    && sh.done <= sh.run <= sh.done + (if Bumped(s) then 2 else 1)
    && (Publishing(pc) ==> w.epoch == sh.done)
    && (!Publishing(pc) ==> w.seen == sh.done)
    && (pc == WStart ==> sh.done == 0 && w.epoch == 0)
    && (Running(pc) ==> sh.done < w.epoch <= sh.run <= w.epoch + 1 && (!Bumped(s) ==> w.epoch == sh.run))
    && (Noticed(pc) ==> sh.stop || sh.run == sh.done + 1)
    && (pc == WLastLoad ==> sh.run > sh.done)
    && (Bumped(s) && sh.done == sh.run ==> Publishing(pc) || Leaving(pc))
  }

  /** What the worker has run, and with which cycle. */
  predicate RunsOk(s: State)
  {
    && RanOk(s.past.ran, s.past.submitted, if Running(s.wk.pc) then s.wk.epoch else s.sh.done)
    && (Running(s.wk.pc) ==> s.past.ran != [] && s.past.ran[|s.past.ran| - 1] == s.sh.shadow)
  }

  /** When the worker read `run_epoch` too late it waits for a second submission that cannot come:
      the first is never run, and no drain returns. */
  predicate LateOk(s: State)
  {
    var pc := s.wk.pc;
    && |s.past.submitted| <= 1 && pc != WStart && s.wk.seen <= s.sh.run && s.wk.epoch <= s.sh.run && s.sh.done <= s.sh.run
    && (!s.sh.stop ==>
          && |s.past.submitted| == 1 && s.wk.seen == 1 && s.sh.done == 0 && s.past.ran == []
          && !Running(pc) && !Publishing(pc) && !Noticed(pc))
  }

  predicate Inv(s: State)
  {
    && SleepOk(s) && CallOk(s) && CountsOk(s)
    && if s.past.late then LateOk(s) else EpochsOk(s) && RunsOk(s)
  }

  // ----- every step keeps it -----

  /** Epochs at most two apart agree as words only when they agree. */
  lemma CloseEpochs(a: nat, b: nat)
    requires a <= b <= a + 2
    ensures Same(b, a) <==> a == b
  {
  }

  lemma InitInv(cycle: nat)
    ensures Inv(Init(cycle))
  {
  }

  /** The task run for epoch `run`, the latest one. */
  lemma RanStarts(ran: seq<nat>, submitted: seq<nat>, k: nat, run: nat, x: nat)
    requires RanOk(ran, submitted, k) && k < run && (run == |submitted| || run == |submitted| + 1) && |submitted| <= k + 1
    requires submitted != [] ==> x == submitted[|submitted| - 1]
    ensures RanOk(ran + [x], submitted, run)
  {
  }

  lemma RanGrows(ran: seq<nat>, submitted: seq<nat>, x: nat, k: nat)
    requires RanOk(ran, submitted, k) && k <= |submitted|
    ensures RanOk(ran, submitted + [x], k)
  {
  }

  /** The drain test compares words, and so the epochs. */
  lemma DoneTest(s: State)
    requires Inv(s) && Draining(s.host.pc)
    ensures Same(s.sh.done, s.host.target) <==> s.sh.done == s.host.target
    ensures Same(s.sh.done, s.host.target) ==> !s.past.late
    ensures s.host.pc == HFutex ==> (Same(s.sh.done, s.host.reread) <==> s.sh.done == s.host.reread)
  {
    hide RanOk;
    CloseEpochs(s.sh.done, s.host.target);
    if s.host.pc == HFutex {
      CloseEpochs(s.host.reread, s.sh.done);
    }
  }

  /** So does the worker's test for a new epoch. */
  lemma RunTest(s: State)
    requires Inv(s) && s.wk.pc != WStart && !Running(s.wk.pc) && !Publishing(s.wk.pc)
    ensures Same(s.sh.run, s.wk.seen) <==> s.sh.run == s.wk.seen
  {
    hide RanOk, SleepOk;
    CloseEpochs(s.wk.seen, s.sh.run);
  }

  lemma DrainSleep(s: State)
    requires Inv(s) && (s.host.pc == HTarget || Draining(s.host.pc))
    ensures SleepOk(DrainNext(s))
  {
    hide Same, RanOk;
    if Draining(s.host.pc) {
      DoneTest(s);
    }
  }

  lemma DrainCall(s: State)
    requires Inv(s) && (s.host.pc == HTarget || Draining(s.host.pc))
    ensures CallOk(DrainNext(s))
  {
    hide Same, RanOk, SleepOk, CountsOk, EpochsOk, LateOk;
    if Draining(s.host.pc) {
      DoneTest(s);
    }
  }

  lemma DrainCounts(s: State)
    requires Inv(s) && (s.host.pc == HTarget || Draining(s.host.pc))
    ensures CountsOk(DrainNext(s))
  {
    hide Same, RanOk, SleepOk, RunsOk, EpochsOk, LateOk;
    if Draining(s.host.pc) {
      DoneTest(s);
    }
  }

  lemma DrainEpochs(s: State)
    requires Inv(s) && (s.host.pc == HTarget || Draining(s.host.pc)) && !DrainNext(s).past.late
    ensures EpochsOk(DrainNext(s))
  {
    hide Same, RanOk, SleepOk;
    if Draining(s.host.pc) {
      DoneTest(s);
    }
  }

  lemma DrainRuns(s: State)
    requires Inv(s) && (s.host.pc == HTarget || Draining(s.host.pc)) && !DrainNext(s).past.late
    ensures RunsOk(DrainNext(s))
  {
    hide Same, SleepOk, RanOk;
    if Draining(s.host.pc) {
      DoneTest(s);
    }
  }

  lemma DrainLate(s: State)
    requires Inv(s) && (s.host.pc == HTarget || Draining(s.host.pc)) && DrainNext(s).past.late
    ensures LateOk(DrainNext(s))
  {
    hide Same, SleepOk, RanOk;
    if Draining(s.host.pc) {
      DoneTest(s);
    }
  }

  lemma PublishSleep(s: State)
    requires Inv(s) && s.host.pc != HIdle && s.host.pc != HTarget && !Draining(s.host.pc)
    ensures SleepOk(PublishNext(s))
  {
    hide Same, RanOk;
  }

  lemma PublishCall(s: State)
    requires Inv(s) && s.host.pc != HIdle && s.host.pc != HTarget && !Draining(s.host.pc)
    ensures CallOk(PublishNext(s))
  {
    hide Same, RanOk, SleepOk;
  }

  lemma PublishCounts(s: State)
    requires Inv(s) && s.host.pc != HIdle && s.host.pc != HTarget && !Draining(s.host.pc)
    ensures CountsOk(PublishNext(s))
  {
    hide Same, RanOk, SleepOk, RunsOk, EpochsOk, LateOk;
  }

  lemma PublishEpochs(s: State)
    requires Inv(s) && s.host.pc != HIdle && s.host.pc != HTarget && !Draining(s.host.pc) && !PublishNext(s).past.late
    ensures EpochsOk(PublishNext(s))
  {
    hide Same, RanOk, SleepOk;
  }

  /** What the rest of submit and destroy can change. */
  lemma PublishFrame(s: State)
    ensures var t := PublishNext(s);
            && Running(t.wk.pc) == Running(s.wk.pc) && t.wk.epoch == s.wk.epoch && t.sh.done == s.sh.done
            && t.past.ran == s.past.ran && (t.sh.shadow == s.sh.shadow || s.host.pc == HShadow)
            && t.past.submitted == (if s.host.pc == HInc && s.host.call == Submit then s.past.submitted + [s.sh.shadow]
                                    else s.past.submitted)
  {
  }

  /** Nothing runs once the host has seen everything done. */
  lemma SawDoneIdle(s: State)
    requires Inv(s) && SawDone(s)
    ensures !Running(s.wk.pc) && s.sh.done == |s.past.submitted|
    ensures s.wk.pc == WStart ==> s.sh.run == 0
  {
    hide SleepOk, RanOk, Noticed, Draining, LateOk, RunsOk;
  }

  lemma PublishRuns(s: State)
    requires Inv(s) && s.host.pc != HIdle && s.host.pc != HTarget && !Draining(s.host.pc) && !PublishNext(s).past.late
    ensures RunsOk(PublishNext(s))
  {
    PublishLateSame(s);
    hide Same, SleepOk, RanOk, Draining, CallOk, CountsOk, EpochsOk, LateOk, PublishNext, Running;
    PublishFrame(s);
    if SawDone(s) {
      SawDoneIdle(s);
      RanGrows(s.past.ran, s.past.submitted, s.sh.shadow, s.sh.done);
    }
  }

  lemma PublishLateSame(s: State)
    ensures PublishNext(s).past.late == s.past.late
  {
  }

  lemma PublishLate(s: State)
    requires Inv(s) && s.host.pc != HIdle && s.host.pc != HTarget && !Draining(s.host.pc) && PublishNext(s).past.late
    ensures LateOk(PublishNext(s))
  {
    hide Same, SleepOk, RanOk;
  }

  lemma WaitSleep(s: State)
    requires Inv(s) && s.wk.pc != WStart && !Running(s.wk.pc) && !Publishing(s.wk.pc) && s.wk.pc != WExit
    ensures SleepOk(WaitNext(s))
  {
    hide Same, RanOk;
    RunTest(s);
  }

  lemma WaitCall(s: State)
    requires Inv(s) && s.wk.pc != WStart && !Running(s.wk.pc) && !Publishing(s.wk.pc) && s.wk.pc != WExit
    ensures CallOk(WaitNext(s))
  {
    hide Same, RanOk, SleepOk, CountsOk, EpochsOk, LateOk;
    RunTest(s);
  }

  lemma WaitCounts(s: State)
    requires Inv(s) && s.wk.pc != WStart && !Running(s.wk.pc) && !Publishing(s.wk.pc) && s.wk.pc != WExit
    ensures CountsOk(WaitNext(s))
  {
    hide Same, RanOk, SleepOk, RunsOk, EpochsOk, LateOk;
    RunTest(s);
  }

  lemma WaitEpochs(s: State)
    requires Inv(s) && s.wk.pc != WStart && !Running(s.wk.pc) && !Publishing(s.wk.pc) && s.wk.pc != WExit && !WaitNext(s).past.late
    ensures EpochsOk(WaitNext(s))
  {
    hide Same, RanOk, SleepOk;
    RunTest(s);
  }

  /** The task starts, for the latest epoch. */
  lemma StartRuns(s: State)
    requires Inv(s) && !s.past.late && !Running(s.wk.pc) && !Publishing(s.wk.pc) && s.sh.run > s.sh.done
    requires s.host.pc == HInc && s.host.call == Submit ==> s.sh.run == s.sh.done
    ensures RunsOk(StartTask(s))
  {
    hide Same, SleepOk, RanOk, Draining, CallOk;
    RanStarts(s.past.ran, s.past.submitted, s.sh.done, s.sh.run, s.sh.shadow);
  }

  /** A task only starts on a new epoch. */
  lemma StartsOnNew(s: State)
    requires Inv(s) && !s.past.late && s.wk.pc != WStart && !Running(s.wk.pc) && !Publishing(s.wk.pc) && s.wk.pc != WExit
    ensures WaitNext(s).wk.pc == WTask ==> WaitNext(s) == StartTask(s) && s.sh.run > s.sh.done
    ensures WaitNext(s).wk.pc != WTask ==> !Running(WaitNext(s).wk.pc) && WaitNext(s).past == s.past && WaitNext(s).sh.done == s.sh.done
  {
    hide Same, SleepOk, RanOk, CallOk, CountsOk;
    RunTest(s);
  }

  lemma WaitRuns(s: State)
    requires Inv(s) && s.wk.pc != WStart && !Running(s.wk.pc) && !Publishing(s.wk.pc) && s.wk.pc != WExit && !WaitNext(s).past.late
    ensures RunsOk(WaitNext(s))
  {
    StartsOnNew(s);
    hide WaitNext, SleepOk, CallOk, EpochsOk, RanOk, LateOk;
    if WaitNext(s).wk.pc == WTask {
      hide RunsOk;
      StartRuns(s);
    }
  }

  lemma WaitLate(s: State)
    requires Inv(s) && s.wk.pc != WStart && !Running(s.wk.pc) && !Publishing(s.wk.pc) && s.wk.pc != WExit && WaitNext(s).past.late
    ensures LateOk(WaitNext(s))
  {
    hide Same, SleepOk, RanOk;
    RunTest(s);
  }

  lemma TaskSleep(s: State)
    requires Inv(s) && (s.wk.pc == WStart || Running(s.wk.pc) || Publishing(s.wk.pc) || s.wk.pc == WExit)
    ensures SleepOk(TaskNext(s))
  {
    hide Same, RanOk;
  }

  lemma TaskCall(s: State)
    requires Inv(s) && (s.wk.pc == WStart || Running(s.wk.pc) || Publishing(s.wk.pc) || s.wk.pc == WExit)
    ensures CallOk(TaskNext(s))
  {
    hide Same, RanOk, SleepOk, CountsOk, EpochsOk, LateOk;
  }

  /** What the worker's task part can change. */
  lemma TaskFrame(s: State)
    ensures var t := TaskNext(s);
            && t.sh.run == s.sh.run && t.sh.stop == s.sh.stop && t.sh.shadow == s.sh.shadow
            && t.past.submitted == s.past.submitted && t.host.call == s.host.call && t.host.target == s.host.target
            && (t.host.pc == s.host.pc || (s.host.pc == HBlocked && t.host.pc == HLoop))
            && (t.sh.done == s.sh.done || Running(s.wk.pc))
            && (t.past.late == if s.wk.pc == WStart then s.sh.run > 0 else s.past.late)
  {
  }

  lemma TaskCounts(s: State)
    requires Inv(s) && (s.wk.pc == WStart || Running(s.wk.pc) || Publishing(s.wk.pc) || s.wk.pc == WExit)
    ensures CountsOk(TaskNext(s))
  {
    TaskFrame(s);
    hide Same, RanOk, SleepOk, RunsOk, EpochsOk, LateOk, CallOk, TaskNext, Running, Publishing;
    if SawDone(s) {
      SawDoneIdle(s);
    }
  }

  lemma TaskEpochs(s: State)
    requires Inv(s) && (s.wk.pc == WStart || Running(s.wk.pc) || Publishing(s.wk.pc) || s.wk.pc == WExit) && !TaskNext(s).past.late
    ensures EpochsOk(TaskNext(s))
  {
    hide Same, RanOk, SleepOk;
  }

  lemma TaskRuns(s: State)
    requires Inv(s) && (s.wk.pc == WStart || Running(s.wk.pc) || Publishing(s.wk.pc) || s.wk.pc == WExit) && !TaskNext(s).past.late
    ensures RunsOk(TaskNext(s))
  {
    hide Same, SleepOk, RanOk;
  }

  lemma TaskLate(s: State)
    requires Inv(s) && (s.wk.pc == WStart || Running(s.wk.pc) || Publishing(s.wk.pc) || s.wk.pc == WExit) && TaskNext(s).past.late
    ensures LateOk(TaskNext(s))
  {
    hide Same, SleepOk;
  }

  lemma HostKeeps(s: State, call: Call)
    requires Inv(s)
    ensures Inv(HostNext(s, call))
  {
    if s.host.pc == HIdle {
      IdleKeeps(s, call);
    } else if s.host.pc == HTarget || Draining(s.host.pc) {
      DrainSleep(s);
      DrainCall(s);
      DrainCounts(s);
      hide SleepOk, CallOk, CountsOk, EpochsOk, RunsOk, LateOk;
      if DrainNext(s).past.late {
        DrainLate(s);
      } else {
        DrainEpochs(s);
        DrainRuns(s);
      }
    } else {
      PublishSleep(s);
      PublishCall(s);
      PublishCounts(s);
      hide SleepOk, CallOk, CountsOk, EpochsOk, RunsOk, LateOk;
      if PublishNext(s).past.late {
        PublishLate(s);
      } else {
        PublishEpochs(s);
        PublishRuns(s);
      }
    }
  }

  lemma IdleSleep(s: State, call: Call)
    requires Inv(s) && s.host.pc == HIdle
    ensures SleepOk(HostNext(s, call))
  {
    hide RanOk, Same, EpochsOk, LateOk, RunsOk, DrainNext, PublishNext;
  }

  lemma IdleCall(s: State, call: Call)
    requires Inv(s) && s.host.pc == HIdle
    ensures CallOk(HostNext(s, call))
  {
    hide RanOk, Same, EpochsOk, LateOk, RunsOk, DrainNext, PublishNext;
  }

  lemma IdleCounts(s: State, call: Call)
    requires Inv(s) && s.host.pc == HIdle
    ensures CountsOk(HostNext(s, call))
  {
    hide RanOk, Same, EpochsOk, LateOk, RunsOk, DrainNext, PublishNext;
  }

  lemma IdleWorker(s: State, call: Call)
    requires Inv(s) && s.host.pc == HIdle
    ensures if HostNext(s, call).past.late then LateOk(HostNext(s, call)) else EpochsOk(HostNext(s, call)) && RunsOk(HostNext(s, call))
  {
    hide RanOk, Same, SleepOk, CountsOk, DrainNext, PublishNext;
  }

  lemma IdleKeeps(s: State, call: Call)
    requires Inv(s) && s.host.pc == HIdle
    ensures Inv(HostNext(s, call))
  {
    IdleSleep(s, call);
    IdleCall(s, call);
    IdleCounts(s, call);
    IdleWorker(s, call);
    hide SleepOk, CallOk, CountsOk, EpochsOk, RunsOk, LateOk, HostNext, WorkerNext, Next;
  }

  lemma WorkerKeeps(s: State)
    requires Inv(s)
    ensures Inv(WorkerNext(s))
  {
    if s.wk.pc == WStart || Running(s.wk.pc) || Publishing(s.wk.pc) || s.wk.pc == WExit {
      TaskSleep(s);
      TaskCall(s);
      TaskCounts(s);
      hide SleepOk, CallOk, CountsOk, EpochsOk, RunsOk, LateOk;
      if TaskNext(s).past.late {
        TaskLate(s);
      } else {
        TaskEpochs(s);
        TaskRuns(s);
      }
    } else {
      WaitSleep(s);
      WaitCall(s);
      WaitCounts(s);
      hide SleepOk, CallOk, CountsOk, EpochsOk, RunsOk, LateOk;
      if WaitNext(s).past.late {
        WaitLate(s);
      } else {
        WaitEpochs(s);
        WaitRuns(s);
      }
    }
  }

  // Signals and cycle counting change nothing that matters.

  lemma OtherSleep(s: State, t: Turn)
    requires Inv(s) && (t.HostSignal? || t.WorkerSignal? || t.Tick?)
    ensures SleepOk(Next(s, t))
  {
    hide RanOk, Same, EpochsOk, LateOk, RunsOk, HostNext, WorkerNext;
  }

  lemma OtherCall(s: State, t: Turn)
    requires Inv(s) && (t.HostSignal? || t.WorkerSignal? || t.Tick?)
    ensures CallOk(Next(s, t))
  {
    hide RanOk, Same, EpochsOk, LateOk, RunsOk, HostNext, WorkerNext;
  }

  lemma OtherCounts(s: State, t: Turn)
    requires Inv(s) && (t.HostSignal? || t.WorkerSignal? || t.Tick?)
    ensures CountsOk(Next(s, t))
  {
    hide RanOk, Same, EpochsOk, LateOk, RunsOk, HostNext, WorkerNext;
  }

  lemma OtherWorker(s: State, t: Turn)
    requires Inv(s) && (t.HostSignal? || t.WorkerSignal? || t.Tick?)
    ensures if Next(s, t).past.late then LateOk(Next(s, t)) else EpochsOk(Next(s, t)) && RunsOk(Next(s, t))
  {
    hide RanOk, Same, SleepOk, CountsOk, HostNext, WorkerNext;
  }

  lemma OtherKeeps(s: State, t: Turn)
    requires Inv(s) && (t.HostSignal? || t.WorkerSignal? || t.Tick?)
    ensures Inv(Next(s, t))
  {
    OtherSleep(s, t);
    OtherCall(s, t);
    OtherCounts(s, t);
    OtherWorker(s, t);
    hide SleepOk, CallOk, CountsOk, EpochsOk, RunsOk, LateOk, HostNext, WorkerNext, Next;
  }

  lemma NextKeeps(s: State, t: Turn)
    requires Inv(s)
    ensures Inv(Next(s, t))
  {
    hide Inv, HostNext, WorkerNext;
    match t
    case HostTurn(call) => HostKeeps(s, call);
    case WorkerTurn => WorkerKeeps(s);
    case _ => OtherKeeps(s, t);
  }

  /** The invariant holds after every schedule. */
  lemma {:induction false} RunKeeps(s: State, turns: seq<Turn>)
    requires Inv(s)
    ensures Inv(Run(s, turns))
  {
    hide Inv, Next;
    if turns != [] {
      RunKeeps(s, turns[..|turns| - 1]);
      NextKeeps(Run(s, turns[..|turns| - 1]), turns[|turns| - 1]);
    }
  }

  lemma Reached(cycle: nat, turns: seq<Turn>)
    ensures Inv(Run(Init(cycle), turns))
  {
    InitInv(cycle);
    hide Run, Inv;
    RunKeeps(Init(cycle), turns);
  }

  // ----- what it means -----

  lemma EpochWords(run: nat, done: nat)
    requires done <= run <= done + 1
    ensures Word(run) == Word(done) || Word(run) == Word(done + 1)
  {
  }

  /** In every run up to destroy, with the worker started in time: the tasks run are the
      submissions, in order, each once and with its own cycle; at most the last one is still to
      come; `run_epoch` is `done_epoch` or one more, modulo 2^32; and a drain returns only when
      everything has run and nothing is running. */
  lemma ExactlyOnce(cycle: nat, turns: seq<Turn>)
    requires var s := Run(Init(cycle), turns); !s.past.late && !s.sh.stop
    ensures var s := Run(Init(cycle), turns);
            && s.past.ran <= s.past.submitted && |s.past.submitted| <= |s.past.ran| + 1
            && (Word(s.sh.run) == Word(s.sh.done) || Word(s.sh.run) == Word(s.sh.done + 1))
            && (Running(s.wk.pc) ==> s.past.ran == s.past.submitted && s.past.ran != [] && s.past.ran[|s.past.ran| - 1] == s.sh.shadow)
            && (SawDone(s) ==> s.past.ran == s.past.submitted && !Running(s.wk.pc))
  {
    hide Run, Init, Inv, Word, Running, SawDone;
    Reached(cycle, turns);
    RunsInOrder(Run(Init(cycle), turns));
    DrainedMeansDone(Run(Init(cycle), turns));
  }

  lemma RanPrefix(ran: seq<nat>, submitted: seq<nat>, k: nat)
    requires RanOk(ran, submitted, k) && k <= |submitted|
    ensures ran <= submitted && |ran| == k && (k == |submitted| ==> ran == submitted)
  {
  }

  /** The epoch up to which tasks have been started. */
  function Started(s: State): nat { if Running(s.wk.pc) then s.wk.epoch else s.sh.done }

  lemma InTime(s: State)
    requires Inv(s) && !s.past.late && !s.sh.stop
    ensures s.sh.done <= s.sh.run <= s.sh.done + 1 && s.sh.run == |s.past.submitted|
    ensures Started(s) <= |s.past.submitted| <= Started(s) + 1 && (Running(s.wk.pc) ==> Started(s) == |s.past.submitted|)
    ensures RanOk(s.past.ran, s.past.submitted, Started(s))
    ensures Running(s.wk.pc) ==> s.past.ran != [] && s.past.ran[|s.past.ran| - 1] == s.sh.shadow
  {
    hide SleepOk, CallOk, Draining, Noticed, RanOk, Running, Publishing, LateOk, Leaving, SawDone;
  }

  lemma RunsInOrder(s: State)
    requires Inv(s) && !s.past.late && !s.sh.stop
    ensures s.past.ran <= s.past.submitted && |s.past.submitted| <= |s.past.ran| + 1
    ensures Word(s.sh.run) == Word(s.sh.done) || Word(s.sh.run) == Word(s.sh.done + 1)
    ensures Running(s.wk.pc) ==> s.past.ran == s.past.submitted && s.past.ran != [] && s.past.ran[|s.past.ran| - 1] == s.sh.shadow
  {
    hide Inv, Word, RanOk, Running, Started;
    InTime(s);
    EpochWords(s.sh.run, s.sh.done);
    RanPrefix(s.past.ran, s.past.submitted, Started(s));
  }

  lemma DrainedMeansDone(s: State)
    requires Inv(s) && !s.past.late && !s.sh.stop
    ensures SawDone(s) ==> s.past.ran == s.past.submitted && !Running(s.wk.pc)
  {
    if SawDone(s) {
      SawDoneIdle(s);
      InTime(s);
      RanPrefix(s.past.ran, s.past.submitted, Started(s));
    }
  }

  /** The shadow of the host's cycle never changes under a running task. */
  lemma ShadowStable(s: State, t: Turn)
    requires Inv(s) && Running(s.wk.pc)
    ensures Next(s, t).sh.shadow == s.sh.shadow
  {
    hide RanOk, SleepOk, Same;
  }

  /** A worker asleep on `run_epoch` has not slept through a submission. */
  lemma NeverSleepsThrough(cycle: nat, turns: seq<Turn>)
    requires Run(Init(cycle), turns).wk.pc == WBlocked
    ensures var s := Run(Init(cycle), turns);
            Same(s.sh.run, s.wk.seen) || s.host.pc == HChkSleep || s.host.pc == HWake
  {
    hide Run, Init;
    Reached(cycle, turns);
  }

  /** Had the worker read the epoch only after the first submission, that submission would never
      run and no drain would return. */
  lemma LateWorkerNeverRuns(cycle: nat, turns: seq<Turn>)
    requires var s := Run(Init(cycle), turns); s.past.late && !s.sh.stop
    ensures var s := Run(Init(cycle), turns);
            |s.past.submitted| == 1 && s.past.ran == [] && !SawDone(s)
  {
    hide Run, Init;
    Reached(cycle, turns);
  }

  /** After a submission, every drain that returns has the task run exactly when the worker
      started in time: being late is the only way to lose a submission before destroy. */
  lemma LostIffLate(cycle: nat, turns: seq<Turn>)
    requires var s := Run(Init(cycle), turns);
             !s.sh.stop && s.past.submitted != [] && s.wk.pc != WStart && Same(s.sh.run, s.wk.seen) && !Publishing(s.wk.pc)
    ensures var s := Run(Init(cycle), turns);
            s.past.late <==> s.past.ran != s.past.submitted
  {
    hide Run, Init;
    Reached(cycle, turns);
    var s := Run(Init(cycle), turns);
    CloseEpochs(s.wk.seen, s.sh.run);
    assert s.past.submitted[..|s.past.submitted|] == s.past.submitted;
  }

  /** Destroy: the memory goes only after the worker has left, and the join never waits for a
      sleeping worker; the last submission may be dropped,
      or the task run once more, but nothing else. */
  lemma DestroyBounds(cycle: nat, turns: seq<Turn>)
    requires var s := Run(Init(cycle), turns); !s.past.late && s.sh.stop
    ensures var s := Run(Init(cycle), turns);
            var n := |s.past.submitted|;
            && (s.past.ran == s.past.submitted || (n > 0 && s.past.ran == s.past.submitted[..n - 1])
                || (s.past.submitted <= s.past.ran && |s.past.ran| == n + 1))
            && (s.host.pc == HGone ==> s.wk.pc == WExit)
            && (s.host.pc == HJoin ==> s.wk.pc != WBlocked)
  {
    hide Run, Init, Inv;
    Reached(cycle, turns);
    DestroyMeans(Run(Init(cycle), turns));
  }

  lemma DestroyMeans(s: State)
    requires Inv(s) && !s.past.late && s.sh.stop
    ensures var n := |s.past.submitted|;
            && (s.past.ran == s.past.submitted || (n > 0 && s.past.ran == s.past.submitted[..n - 1])
                || (s.past.submitted <= s.past.ran && |s.past.ran| == n + 1))
            && (s.host.pc == HGone ==> s.wk.pc == WExit)
            && (s.host.pc == HJoin ==> s.wk.pc != WBlocked)
  {
    hide Draining, Noticed, HostAsleep, WorkerAsleep;
    assert s.past.submitted[..|s.past.submitted|] == s.past.submitted;
  }

  // ----- when destroy drops a task, and when it adds one -----

  /** With the stop flag set, the worker can still start a task from only two places: between its
      load of the flag and its load of the epoch in the spin loop, or before its last load. */
  predicate Quiet(pc: WorkerPc) { pc != WSpinEpoch && pc != WLastLoad }

  lemma QuietStep(s: State, t: Turn)
    requires s.sh.stop && Quiet(s.wk.pc)
    ensures Next(s, t).sh.stop && Quiet(Next(s, t).wk.pc) && Next(s, t).past.ran == s.past.ran
  {
    hide Same;
  }

  /** From anywhere else it never starts another. */
  lemma {:induction false} QuietForever(s: State, turns: seq<Turn>)
    requires s.sh.stop && Quiet(s.wk.pc)
    ensures var f := Run(s, turns);
            f.sh.stop && Quiet(f.wk.pc) && f.past.ran == s.past.ran
  {
    hide Next, Quiet;
    if turns != [] {
      QuietForever(s, turns[..|turns| - 1]);
      QuietStep(Run(s, turns[..|turns| - 1]), turns[|turns| - 1]);
    }
  }

  /** The worker will start a task with its next step: past its last test of the flag, with a new epoch. */
  predicate Committed(s: State)
  {
    s.sh.stop && !s.past.late && (s.wk.pc == WLastLoad || (s.wk.pc == WSpinEpoch && s.sh.run > s.wk.seen))
  }

  lemma CommittedStep(s: State, t: Turn)
    requires Inv(s) && Committed(s)
    ensures var s' := Next(s, t);
            if t.WorkerTurn? then s'.sh.stop && Quiet(s'.wk.pc) && |s'.past.ran| == |s.past.ran| + 1
            else Committed(s') && s'.past.ran == s.past.ran
  {
    if s.wk.pc == WSpinEpoch {
      RunTest(s);
    }
    hide RanOk, Same, SleepOk;
  }

  /** A committed worker runs exactly one more task before it leaves. */
  lemma {:induction false} CommittedRunsOnce(s: State, turns: seq<Turn>)
    requires Inv(s) && Committed(s)
    ensures var f := Run(s, turns);
            || (Committed(f) && f.past.ran == s.past.ran)
            || (f.sh.stop && Quiet(f.wk.pc) && |f.past.ran| == |s.past.ran| + 1)
  {
    hide Next, Inv, Committed, Quiet;
    if turns != [] {
      var f := Run(s, turns[..|turns| - 1]);
      CommittedRunsOnce(s, turns[..|turns| - 1]);
      RunKeeps(s, turns[..|turns| - 1]);
      if Committed(f) && f.past.ran == s.past.ran {
        CommittedStep(f, turns[|turns| - 1]);
      } else {
        QuietStep(f, turns[|turns| - 1]);
      }
    }
  }

  lemma {:induction false} RanGrowsOnly(s: State, turns: seq<Turn>)
    ensures s.past.ran <= Run(s, turns).past.ran
  {
    if turns != [] {
      RanGrowsOnly(s, turns[..|turns| - 1]);
      RanStep(Run(s, turns[..|turns| - 1]), turns[|turns| - 1]);
    }
  }

  lemma RanStep(s: State, t: Turn)
    ensures s.past.ran <= Next(s, t).past.ran
  {
    hide Same;
  }

  /** Destroy submits nothing. */
  lemma {:induction false} SubmittedStays(s: State, turns: seq<Turn>)
    requires Inv(s) && s.host.call == Destroy
    ensures var f := Run(s, turns);
            f.past.submitted == s.past.submitted && f.host.call == Destroy
  {
    hide Next, Inv;
    if turns != [] {
      var f := Run(s, turns[..|turns| - 1]);
      SubmittedStays(s, turns[..|turns| - 1]);
      RunKeeps(s, turns[..|turns| - 1]);
      SubmittedStep(f, turns[|turns| - 1]);
    }
  }

  lemma SubmittedStep(s: State, t: Turn)
    requires Inv(s) && s.host.call == Destroy
    ensures Next(s, t).past.submitted == s.past.submitted && Next(s, t).host.call == Destroy
  {
    hide RanOk, Same, SleepOk, EpochsOk, RunsOk, LateOk, WaitNext, TaskNext;
    WorkerKeepsHost(s);
  }

  lemma WorkerKeepsHost(s: State)
    ensures WorkerNext(s).past.submitted == s.past.submitted && WorkerNext(s).host.call == s.host.call
  {
    hide Same;
  }

  /** A destroy called after a drain has returned drops nothing: in every later state all submissions have run. */
  lemma DestroyAfterDrain(cycle: nat, before: seq<Turn>, after: seq<Turn>)
    requires var s := Run(Init(cycle), before); s.host.pc == HIdle && s.host.call == Drain
    ensures var f := Run(HostNext(Run(Init(cycle), before), Destroy), after);
            f.past.submitted == Run(Init(cycle), before).past.submitted <= f.past.ran
  {
    hide Run, Init, Inv;
    var s := Run(Init(cycle), before);
    Reached(cycle, before);
    DrainedNow(s);
    var d := HostNext(s, Destroy);
    HostKeeps(s, Destroy);
    SubmittedStays(d, after);
    RanGrowsOnly(d, after);
  }

  lemma DrainedNow(s: State)
    requires Inv(s) && s.host.pc == HIdle && s.host.call == Drain
    ensures s.past.ran == s.past.submitted
    ensures HostNext(s, Destroy).past == s.past && HostNext(s, Destroy).host.call == Destroy
  {
    assert CallOk(s) && !s.sh.stop && SawDone(s);
    DrainedMeansDone(s);
  }

  /** The moment destroy sets the flag, before it bumps the epoch. */
  predicate Stopping(s: State) { s.host.pc == HInc && s.host.call == Destroy && s.sh.stop }

  /** What is known then of a worker that started in time (or not at all yet). */
  lemma AtStop(s: State)
    requires Inv(s) && !s.past.late && Stopping(s)
    ensures |s.past.submitted| - 1 <= |s.past.ran| <= |s.past.submitted|
    ensures s.wk.pc == WLastLoad ==> Committed(s) && |s.past.ran| == |s.past.submitted| - 1
    ensures s.wk.pc == WSpinEpoch && |s.past.ran| < |s.past.submitted| ==> Committed(s)
  {
    hide SleepOk, RanOk, Noticed, Draining, WaitNext, TaskNext, DrainNext, Same;
    RanPrefix(s.past.ran, s.past.submitted, if Running(s.wk.pc) then s.wk.epoch else s.sh.done);
  }

  /** Destroy drops the last submission exactly when, at the moment it sets the flag, the task has
      not been started and the worker is not past its test of the flag: on every continuation to
      the end. */
  lemma DroppedIff(cycle: nat, before: seq<Turn>, after: seq<Turn>)
    requires var s := Run(Init(cycle), before); Stopping(s) && !s.past.late
    requires Run(Run(Init(cycle), before), after).host.pc == HGone
    ensures var s := Run(Init(cycle), before);
            var f := Run(s, after);
            && f.past.submitted == s.past.submitted
            && (|f.past.ran| < |f.past.submitted| <==> |s.past.ran| < |s.past.submitted| && Quiet(s.wk.pc))
  {
    hide Run, Init, Inv, Quiet, Committed, Stopping;
    var s := Run(Init(cycle), before);
    Reached(cycle, before);
    AtStop(s);
    StoppingCall(s);
    SubmittedStays(s, after);
    RunKeeps(s, after);
    GoneMeansExit(Run(s, after));
    RanGrowsOnly(s, after);
    if Quiet(s.wk.pc) {
      QuietForever(s, after);
    } else if |s.past.ran| < |s.past.submitted| {
      NotQuiet(s.wk.pc);
      CommittedRunsOnce(s, after);
      ExitIsQuiet(Run(s, after));
    }
  }

  /** Destroy adds a run exactly when, at the moment it bumps the epoch, everything has run and the
      worker is between its load of the flag and its load of the epoch: on every continuation to
      the end. */
  lemma AddedIff(cycle: nat, before: seq<Turn>, after: seq<Turn>)
    requires var s := Run(Init(cycle), before); Stopping(s) && !s.past.late
    requires Run(HostNext(Run(Init(cycle), before), Destroy), after).host.pc == HGone
    ensures var s := Run(Init(cycle), before);
            var f := Run(HostNext(s, Destroy), after);
            && f.past.submitted == s.past.submitted
            && (|f.past.ran| > |f.past.submitted| <==> |s.past.ran| == |s.past.submitted| && s.wk.pc == WSpinEpoch)
  {
    hide Run, Init, Inv, Quiet, Committed, Stopping;
    var s := Run(Init(cycle), before);
    Reached(cycle, before);
    AtStop(s);
    StoppingCall(s);
    var d := HostNext(s, Destroy);
    HostKeeps(s, Destroy);
    BumpFrame(s);
    SubmittedStays(d, after);
    RunKeeps(d, after);
    GoneMeansExit(Run(d, after));
    ExitIsQuiet(Run(d, after));
    if Quiet(s.wk.pc) {
      QuietSpin(s.wk.pc);
      QuietForever(d, after);
    } else {
      NotQuiet(s.wk.pc);
      BumpCommits(s);
      CommittedRunsOnce(d, after);
    }
  }

  lemma StoppingCall(s: State)
    requires Stopping(s)
    ensures s.host.call == Destroy && s.sh.stop && s.host.pc == HInc
  {
  }

  lemma BumpFrame(s: State)
    requires Stopping(s)
    ensures var d := HostNext(s, Destroy);
            && d.past == s.past && d.wk == s.wk && d.host.call == Destroy && d.sh.stop
  {
    hide DrainNext;
  }

  /** The bump leaves a committed worker committed, and commits one about to load the epoch. */
  lemma BumpCommits(s: State)
    requires Inv(s) && !s.past.late && Stopping(s) && !Quiet(s.wk.pc)
    ensures Committed(HostNext(s, Destroy))
  {
    AtStop(s);
    BumpFrame(s);
    hide SleepOk, RanOk, Noticed, WaitNext, TaskNext, DrainNext, Same;
  }

  lemma GoneMeansExit(s: State)
    requires Inv(s) && s.host.pc == HGone
    ensures s.wk.pc == WExit
  {
  }

  lemma ExitIsQuiet(s: State)
    requires s.wk.pc == WExit
    ensures Quiet(s.wk.pc) && !Committed(s)
  {
  }

  lemma NotQuiet(pc: WorkerPc)
    requires !Quiet(pc)
    ensures pc == WSpinEpoch || pc == WLastLoad
  {
  }

  lemma QuietSpin(pc: WorkerPc)
    requires Quiet(pc)
    ensures pc != WSpinEpoch && pc != WLastLoad
  {
  }

  // ----- runs that go wrong -----

  /** The states of a run, one per turn. */
  predicate Trail(states: seq<State>, turns: seq<Turn>)
  {
    && |states| == |turns| + 1
    && forall i | 0 <= i < |turns| :: states[i + 1] == Next(states[i], turns[i])
  }

  lemma {:induction false} TrailRuns(states: seq<State>, turns: seq<Turn>)
    requires Trail(states, turns)
    ensures Run(states[0], turns) == states[|turns|]
  {
    hide Next;
    if turns != [] {
      var k := |turns| - 1;
      assert states[k + 1] == Next(states[k], turns[k]);
      TrailRuns(states[..k + 1], turns[..k]);
    }
  }

  // Single moves, by the part of the thread they belong to.

  lemma NextIdle(s: State, t: Turn)
    requires t.HostTurn? && s.host.pc == HIdle
    ensures Next(s, t) == s.(host := s.host.(call := t.call, pc := if t.call == Destroy then HStop else HTarget))
  {
    hide DrainNext, PublishNext;
  }

  lemma NextDrain(s: State, t: Turn)
    requires t.HostTurn? && (s.host.pc == HTarget || Draining(s.host.pc))
    ensures Next(s, t) == DrainNext(s)
  {
  }

  lemma NextPublish(s: State, t: Turn)
    requires t.HostTurn? && s.host.pc != HIdle && s.host.pc != HTarget && !Draining(s.host.pc)
    ensures Next(s, t) == PublishNext(s)
  {
  }

  lemma NextWait(s: State, t: Turn)
    requires t.WorkerTurn? && s.wk.pc != WStart && !Running(s.wk.pc) && !Publishing(s.wk.pc) && s.wk.pc != WExit
    ensures Next(s, t) == WaitNext(s)
  {
  }

  lemma NextTask(s: State, t: Turn)
    requires t.WorkerTurn? && (s.wk.pc == WStart || Running(s.wk.pc) || Publishing(s.wk.pc))
    ensures Next(s, t) == TaskNext(s)
  {
  }

  /** The first submission with nothing else going on. */
  function Submitted(cycle: nat): State
  {
    State(Shared(1, 0, 0, 0, false, cycle), Host(HIdle, Submit, 0, 0, 0, cycle), Worker(WSpinStop, 0, 0, 0), Past([cycle], [], false))
  }

  const SUBMIT_FIRST: seq<Turn> := [WorkerTurn] + seq(6, _ => HostTurn(Submit))

  lemma SubmitFirst(cycle: nat)
    ensures Run(Init(cycle), SUBMIT_FIRST) == Submitted(cycle)
  {
    hide Next, HostNext, WorkerNext;
    var turns := SUBMIT_FIRST;
    var s0 := Init(cycle);
    NextTask(s0, turns[0]);
    var s1 := Next(s0, turns[0]);
    NextIdle(s1, turns[1]);
    var s2 := Next(s1, turns[1]);
    NextDrain(s2, turns[2]);
    var s3 := Next(s2, turns[2]);
    NextDrain(s3, turns[3]);
    var s4 := Next(s3, turns[3]);
    NextPublish(s4, turns[4]);
    var s5 := Next(s4, turns[4]);
    NextPublish(s5, turns[5]);
    var s6 := Next(s5, turns[5]);
    NextPublish(s6, turns[6]);
    var s7 := Next(s6, turns[6]);
    hide DrainNext, PublishNext, WaitNext, TaskNext;
    TrailRuns([s0, s1, s2, s3, s4, s5, s6, s7], turns);
  }

  /** A worker that reads the epoch only after the first submission. */
  lemma LateMoves(cycle: nat) returns (turns: seq<Turn>)
    ensures var s := Run(Init(cycle), turns);
            s.past.late && !s.sh.stop
  {
    hide Next, HostNext, WorkerNext;
    turns := seq(6, _ => HostTurn(Submit)) + [WorkerTurn];
    var s0 := Init(cycle);
    NextIdle(s0, turns[0]);
    var s1 := Next(s0, turns[0]);
    NextDrain(s1, turns[1]);
    var s2 := Next(s1, turns[1]);
    NextDrain(s2, turns[2]);
    var s3 := Next(s2, turns[2]);
    NextPublish(s3, turns[3]);
    var s4 := Next(s3, turns[3]);
    NextPublish(s4, turns[4]);
    var s5 := Next(s4, turns[4]);
    NextPublish(s5, turns[5]);
    var s6 := Next(s5, turns[5]);
    NextTask(s6, turns[6]);
    var s7 := Next(s6, turns[6]);
    hide DrainNext, PublishNext, WaitNext, TaskNext;
    TrailRuns([s0, s1, s2, s3, s4, s5, s6, s7], turns);
  }

  lemma WorkerCanBeLate(cycle: nat)
    ensures exists turns :: Run(Init(cycle), turns).past.late && !Run(Init(cycle), turns).sh.stop
  {
    hide Run, Init;
    var turns := LateMoves(cycle);
    assert Run(Init(cycle), turns).past.late;
  }

  lemma DropMoves(cycle: nat) returns (turns: seq<Turn>)
    ensures var s := Run(Submitted(cycle), turns);
            s.host.pc == HGone && s.past == Past([cycle], [], false)
  {
    hide Next, HostNext, WorkerNext;
    turns := [HostTurn(Destroy), HostTurn(Destroy), WorkerTurn, HostTurn(Destroy), HostTurn(Destroy), HostTurn(Destroy)];
    var s0 := Submitted(cycle);
    NextIdle(s0, turns[0]);
    var s1 := Next(s0, turns[0]);
    NextPublish(s1, turns[1]);
    var s2 := Next(s1, turns[1]);
    NextWait(s2, turns[2]);
    var s3 := Next(s2, turns[2]);
    NextPublish(s3, turns[3]);
    var s4 := Next(s3, turns[3]);
    NextPublish(s4, turns[4]);
    var s5 := Next(s4, turns[4]);
    NextPublish(s5, turns[5]);
    var s6 := Next(s5, turns[5]);
    hide DrainNext, PublishNext, WaitNext, TaskNext;
    TrailRuns([s0, s1, s2, s3, s4, s5, s6], turns);
  }

  /** Destroy right after a submit can drop its task. */
  lemma DestroyCanDrop(cycle: nat)
    ensures exists turns :: Run(Init(cycle), turns).host.pc == HGone && Run(Init(cycle), turns).past == Past([cycle], [], false)
  {
    hide Run, Init, Submitted;
    SubmitFirst(cycle);
    var turns := DropMoves(cycle);
    RunAppend(Init(cycle), SUBMIT_FIRST, turns);
    assert Run(Init(cycle), SUBMIT_FIRST + turns).host.pc == HGone;
  }

  lemma AddMoves(cycle: nat) returns (turns: seq<Turn>)
    ensures Run(Init(cycle), turns).past == Past([], [cycle], false)
  {
    hide Next, HostNext, WorkerNext;
    turns := [WorkerTurn, WorkerTurn, HostTurn(Destroy), HostTurn(Destroy), HostTurn(Destroy), WorkerTurn];
    var s0 := Init(cycle);
    NextTask(s0, turns[0]);
    var s1 := Next(s0, turns[0]);
    NextWait(s1, turns[1]);
    var s2 := Next(s1, turns[1]);
    NextIdle(s2, turns[2]);
    var s3 := Next(s2, turns[2]);
    NextPublish(s3, turns[3]);
    var s4 := Next(s3, turns[3]);
    NextPublish(s4, turns[4]);
    var s5 := Next(s4, turns[4]);
    assert s5 == State(Shared(1, 0, 0, 0, true, cycle), Host(HChkSleep, Destroy, 0, 0, 0, cycle), Worker(WSpinEpoch, 0, 0, 0),
                       Past([], [], false));
    NextWait(s5, turns[5]);
    var s6 := Next(s5, turns[5]);
    hide DrainNext, PublishNext, WaitNext, TaskNext;
    TrailRuns([s0, s1, s2, s3, s4, s5, s6], turns);
  }

  /** Destroy can make an idle worker run the task once more. */
  lemma DestroyCanAdd(cycle: nat)
    ensures exists turns :: Run(Init(cycle), turns).past == Past([], [cycle], false)
  {
    hide Run, Init;
    var turns := AddMoves(cycle);
    assert Run(Init(cycle), turns).past == Past([], [cycle], false);
  }

  lemma {:induction false} RunAppend(s: State, a: seq<Turn>, b: seq<Turn>)
    ensures Run(s, a + b) == Run(Run(s, a), b)
  {
    hide Next;
    if b == [] {
      assert a + b == a;
    } else {
      var k := |b| - 1;
      RunAppend(s, a, b[..k]);
      assert (a + b)[..|a + b| - 1] == a + b[..k];
      assert (a + b)[|a + b| - 1] == b[k];
    }
  }

  // ----- a drain that sleeps too long -----

  /** The host sleeps on `done_epoch` although its target is already done and published. */
  predicate Overslept(s: State)
  {
    Inv(s) && !s.past.late && s.host.pc == HBlocked && s.sh.done == s.host.target && !Publishing(s.wk.pc)
  }

  /** A published end is missed exactly when the value loaded just before sleeping was already the target. */
  lemma OversleptIff(s: State)
    requires Inv(s) && !s.past.late && s.host.pc == HBlocked && !Publishing(s.wk.pc)
    ensures Overslept(s) <==> s.host.reread == s.host.target
  {
    hide RanOk;
  }

  lemma OversleptStep(s: State, t: Turn)
    requires Overslept(s) && !t.HostSignal?
    ensures Overslept(Next(s, t)) && Next(s, t).host == s.host
  {
    NextKeeps(s, t);
    if s.wk.pc != WStart && !Running(s.wk.pc) {
      RunTest(s);
    }
    hide RanOk, Same;
  }

  /** Then nothing but a signal ever wakes the host again. */
  lemma {:induction false} OversleptForever(s: State, turns: seq<Turn>)
    requires Overslept(s) && forall i | 0 <= i < |turns| :: !turns[i].HostSignal?
    ensures Overslept(Run(s, turns)) && Run(s, turns).host == s.host
  {
    hide Next, Overslept;
    if turns != [] {
      OversleptForever(s, turns[..|turns| - 1]);
      OversleptStep(Run(s, turns[..|turns| - 1]), turns[|turns| - 1]);
    }
  }

  /** The spin phase of a drain whose task has not ended. */
  lemma {:induction false} Spins(s: State, k: nat)
    requires s.host.pc == HSpin && !Same(s.sh.done, s.host.target) && s.host.spin + k <= SPIN_LIMIT
    ensures Run(s, seq(k, _ => HostTurn(Drain))) == s.(host := s.host.(spin := s.host.spin + k))
  {
    if k > 0 {
      Spins(s, k - 1);
      assert seq(k, _ => HostTurn(Drain))[..k - 1] == seq(k - 1, _ => HostTurn(Drain));
    } else {
      assert s == s.(host := s.host.(spin := s.host.spin + k));
    }
  }

  /** The host's moves from the end of the spin phase to the re-read. */
  lemma ToReload(s: State)
    requires s.host.pc == HSpin && s.host.spin == SPIN_LIMIT && !Same(s.sh.done, s.host.target)
    ensures Run(s, seq(4, _ => HostTurn(Drain))) ==
            s.(host := s.host.(pc := HReload), sh := s.sh.(doneSleepers := s.sh.doneSleepers + 1))
  {
    hide Next, HostNext, WorkerNext;
    var turns := seq(4, _ => HostTurn(Drain));
    NextDrain(s, turns[0]);
    var s1 := Next(s, turns[0]);
    NextDrain(s1, turns[1]);
    var s2 := Next(s1, turns[1]);
    NextDrain(s2, turns[2]);
    var s3 := Next(s2, turns[2]);
    NextDrain(s3, turns[3]);
    var s4 := Next(s3, turns[3]);
    hide DrainNext, PublishNext, WaitNext, TaskNext;
    TrailRuns([s, s1, s2, s3, s4], turns);
  }

  /** A whole round of the worker, from noticing the epoch to publishing the end. */
  lemma WholeTask(s: State)
    requires s.wk.pc == WSpinStop && s.wk.spin == 0 && !Same(s.sh.run, s.wk.seen) && !s.sh.stop
    requires s.sh.doneSleepers != 0 && s.host.pc == HReload
    ensures Run(s, seq(6, _ => WorkerTurn)) ==
            State(s.sh.(done := s.sh.run), s.host, Worker(WSpinStop, s.sh.run, s.sh.run, 0),
                  s.past.(ran := s.past.ran + [s.sh.shadow]))
  {
    hide Next, HostNext, WorkerNext;
    var turns := seq(6, _ => WorkerTurn);
    NextWait(s, turns[0]);
    var s1 := Next(s, turns[0]);
    NextWait(s1, turns[1]);
    var s2 := Next(s1, turns[1]);
    NextTask(s2, turns[2]);
    var s3 := Next(s2, turns[2]);
    NextTask(s3, turns[3]);
    var s4 := Next(s3, turns[3]);
    NextTask(s4, turns[4]);
    var s5 := Next(s4, turns[4]);
    NextTask(s5, turns[5]);
    var s6 := Next(s5, turns[5]);
    hide DrainNext, PublishNext, WaitNext, TaskNext;
    TrailRuns([s, s1, s2, s3, s4, s5, s6], turns);
  }

  /** The re-read and the sleep. */
  lemma Sleeps(s: State)
    requires s.host.pc == HReload
    ensures Run(s, seq(2, _ => HostTurn(Drain))) == s.(host := s.host.(pc := HBlocked, reread := s.sh.done))
  {
    hide Next, HostNext, WorkerNext;
    var turns := seq(2, _ => HostTurn(Drain));
    NextDrain(s, turns[0]);
    var s1 := Next(s, turns[0]);
    NextDrain(s1, turns[1]);
    var s2 := Next(s1, turns[1]);
    hide DrainNext, PublishNext, WaitNext, TaskNext;
    TrailRuns([s, s1, s2], turns);
  }

  /** From a submission just made: the drain spins out, the worker ends the task between the
      host's last test and its re-read, and the host goes to sleep. */
  lemma OversleepMoves(cycle: nat) returns (turns: seq<Turn>)
    ensures var s := Run(Submitted(cycle), turns);
            s.host.pc == HBlocked && s.sh.done == s.host.target && s.wk.pc == WSpinStop && !s.past.late
  {
    var s0 := Submitted(cycle);
    var s1 := Next(s0, HostTurn(Drain));
    var s2 := Next(s1, HostTurn(Drain));
    var start := [HostTurn(Drain), HostTurn(Drain)];
    TrailRuns([s0, s1, s2], start);
    hide Run, Next;
    Spins(s2, SPIN_LIMIT);
    var a := start + seq(SPIN_LIMIT, _ => HostTurn(Drain));
    RunAppend(s0, start, seq(SPIN_LIMIT, _ => HostTurn(Drain)));
    var s3 := Run(s0, a);
    ToReload(s3);
    RunAppend(s0, a, seq(4, _ => HostTurn(Drain)));
    var b := a + seq(4, _ => HostTurn(Drain));
    var s4 := Run(s0, b);
    WholeTask(s4);
    RunAppend(s0, b, seq(6, _ => WorkerTurn));
    var c := b + seq(6, _ => WorkerTurn);
    Sleeps(Run(s0, c));
    RunAppend(s0, c, seq(2, _ => HostTurn(Drain)));
    turns := c + seq(2, _ => HostTurn(Drain));
  }

  /** So a drain can oversleep. */
  lemma DrainCanOversleep(cycle: nat)
    ensures exists turns :: Overslept(Run(Init(cycle), turns))
  {
    hide Run, Init, Submitted, Inv;
    SubmitFirst(cycle);
    var turns := OversleepMoves(cycle);
    RunAppend(Init(cycle), SUBMIT_FIRST, turns);
    Reached(cycle, SUBMIT_FIRST + turns);
    assert Overslept(Run(Init(cycle), SUBMIT_FIRST + turns));
  }
}
