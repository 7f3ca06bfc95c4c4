/** The platform-level interrupt controller: pending and claimed sources, the choice of the best
    one, and the output line. */
module Plic {
  const SOURCES: nat := 33
  const INPUTS: nat := 32
  const MAX_PRIORITY: nat := 7

  /** The registers, one flag per source; source 0 does not exist. */
  datatype Regs = Regs(priority: seq<nat>, pending: seq<bool>, claimed: seq<bool>, enable: seq<bool>, threshold: nat)

  /** What software has seen: claims handed out and completions. */
  datatype Event = Claim(source: nat) | Complete(source: nat)

  /** A register access. */
  datatype Access =
    | SetPriority(source: nat, value: nat)
    | SetEnable(word: nat, bits: seq<bool>)
    | SetThreshold(value: nat)
    | WriteComplete(value: nat)
    | ReadClaim
    | Nothing

  predicate Sized(r: Regs)
  {
    |r.priority| == SOURCES && |r.pending| == SOURCES && |r.claimed| == SOURCES && |r.enable| == SOURCES
  }

  /** A source that may be handed out: pending, not being served, enabled and above the threshold. */
  predicate Deliverable(r: Regs, s: nat)
    requires Sized(r)
  {
    0 < s < SOURCES && r.pending[s] && !r.claimed[s] && r.enable[s] && r.priority[s] > r.threshold
  }

  /** The lowest-numbered source of the highest priority among those that may be handed out; 0 if there is none. */
  ghost predicate Best(r: Regs, s: nat)
    requires Sized(r)
  {
    if s == 0 then forall t: nat :: !Deliverable(r, t)
    else
      && Deliverable(r, s)
      && forall t: nat | Deliverable(r, t) :: r.priority[t] < r.priority[s] || (r.priority[t] == r.priority[s] && s <= t)
  }

  lemma BestUnique(r: Regs, s: nat, t: nat)
    requires Sized(r) && Best(r, s) && Best(r, t)
    ensures s == t
  {
    assert Deliverable(r, s) || s == 0;
    assert Deliverable(r, t) || t == 0;
  }

  // ----- claims over a run -----

  /** The source has been claimed and not completed since. */
  predicate Serving(log: seq<Event>, s: nat)
  {
    log != [] &&
    (var e := log[|log| - 1];
     if e.source == s then e.Claim? else Serving(log[..|log| - 1], s))
  }

  /** Between two claims of a source lies its completion. */
  ghost predicate NoRepeat(log: seq<Event>)
  {
    forall i, j | 0 <= i < j < |log| && log[i].Claim? && log[j] == log[i] ::
      exists k :: i < k < j && log[k] == Complete(log[i].source)
  }

  lemma {:induction false} ServingSince(log: seq<Event>, s: nat, i: nat)
    requires i < |log| && log[i] == Claim(s) && !Serving(log, s)
    ensures exists k :: i < k < |log| && log[k] == Complete(s)
  {
    var last := |log| - 1;
    if log[last].source != s {
      assert log[..last][i] == log[i];
      ServingSince(log[..last], s, i);
      var k :| i < k < last && log[..last][k] == Complete(s);
      assert log[k] == Complete(s);
    } else {
      assert log[last] == Complete(s) && i < last;
    }
  }

  /** A claim of a source that is not being served keeps the history free of repeats. */
  lemma ClaimFresh(log: seq<Event>, s: nat)
    requires NoRepeat(log) && !Serving(log, s)
    ensures NoRepeat(log + [Claim(s)])
  {
    var log' := log + [Claim(s)];
    forall i, j | 0 <= i < j < |log'| && log'[i].Claim? && log'[j] == log'[i]
      ensures exists k :: i < k < j && log'[k] == Complete(log'[i].source)
    {
      if j < |log| {
        var k :| i < k < j && log[k] == Complete(log[i].source);
        assert log'[k] == Complete(log'[i].source);
      } else {
        ServingSince(log, s, i);
        var k :| i < k < |log| && log[k] == Complete(s);
        assert log'[k] == Complete(s);
      }
    }
  }

  lemma CompleteFresh(log: seq<Event>, s: nat)
    requires NoRepeat(log)
    ensures NoRepeat(log + [Complete(s)])
  {
    var log' := log + [Complete(s)];
    forall i, j | 0 <= i < j < |log'| && log'[i].Claim? && log'[j] == log'[i]
      ensures exists k :: i < k < j && log'[k] == Complete(log'[i].source)
    {
      var k :| i < k < j && log[k] == Complete(log[i].source);
      assert log'[k] == Complete(log'[i].source);
    }
  }

  lemma ServingNext(log: seq<Event>, e: Event, s: nat)
    ensures Serving(log + [e], s) == if e.source == s then e.Claim? else Serving(log, s)
  {
    assert (log + [e])[..|log|] == log;
  }

  /** Registers and history agree. */
  ghost predicate Agree(r: Regs, log: seq<Event>)
  {
    && Sized(r)
    && (forall s: nat | s < SOURCES :: r.claimed[s] == Serving(log, s))
    && (forall s: nat | s < SOURCES :: !(r.pending[s] && r.claimed[s]))
    && (forall s: nat | s < SOURCES && s % 32 == 0 :: !r.enable[s]) && r.priority[0] == 0
    && NoRepeat(log)
  }

  lemma ClaimKeeps(r: Regs, log: seq<Event>, s: nat)
    requires Agree(r, log) && Deliverable(r, s)
    ensures Agree(r.(pending := r.pending[s := false], claimed := r.claimed[s := true]), log + [Claim(s)])
  {
    ClaimFresh(log, s);
    forall t: nat | t < SOURCES
      ensures Serving(log + [Claim(s)], t) == r.claimed[s := true][t]
    {
      ServingNext(log, Claim(s), t);
    }
  }

  lemma CompleteKeeps(r: Regs, log: seq<Event>, s: nat)
    requires Agree(r, log) && 0 < s < SOURCES
    ensures Agree(r.(claimed := r.claimed[s := false]), log + [Complete(s)])
  {
    CompleteFresh(log, s);
    forall t: nat | t < SOURCES
      ensures Serving(log + [Complete(s)], t) == r.claimed[s := false][t]
    {
      ServingNext(log, Complete(s), t);
    }
  }

  /** The effect of the register writes.  Source 0 keeps priority 0; the first bit of every enable
      word is masked out, not only that of source 0. */
  function Written(r: Regs, a: Access): (r': Regs)
    requires Sized(r)
    ensures Sized(r')
  {
    match a
    case SetPriority(s, v) => if 0 < s < SOURCES then r.(priority := r.priority[s := v % (MAX_PRIORITY + 1)]) else r
    case SetEnable(w, bits) =>
      r.(enable := seq(SOURCES, s requires 0 <= s < SOURCES =>
                         if s / 32 == w then s % 32 != 0 && s % 32 < |bits| && bits[s % 32] else r.enable[s]))
    case SetThreshold(v) => r.(threshold := v % (MAX_PRIORITY + 1))
    case WriteComplete(s) => if 0 < s < SOURCES then r.(claimed := r.claimed[s := false]) else r
    case ReadClaim => r
    case Nothing => r
  }

  /** The effect of handing out a source. */
  function Claimed(r: Regs, s: nat): (r': Regs)
    requires Sized(r) && s < SOURCES
    ensures Sized(r')
  {
    if s == 0 then r else r.(pending := r.pending[s := false], claimed := r.claimed[s := true])
  }

  /** Active inputs make their sources pending, unless the source is being served. */
  function Sampled(r: Regs, inputs: seq<bool>): (r': Regs)
    requires Sized(r) && |inputs| == INPUTS
    ensures Sized(r')
  {
    r.(pending := seq(SOURCES, s requires 0 <= s < SOURCES => r.pending[s] || (s > 0 && inputs[s - 1] && !r.claimed[s])))
  }

  /** One clock: an access that reads `value`, then the inputs. */
  ghost predicate ClockStep(r: Regs, a: Access, inputs: seq<bool>, value: nat, r': Regs)
  {
    && Sized(r) && |inputs| == INPUTS && value < SOURCES
    && (if a.ReadClaim? then Best(r, value) && r' == Sampled(Claimed(r, value), inputs)
        else value == 0 && r' == Sampled(Written(r, a), inputs))
  }

  /** What an access adds to the history. */
  function EventOf(a: Access, value: nat): seq<Event>
  {
    if a.ReadClaim? && value != 0 then [Claim(value)]
    else if a.WriteComplete? && 0 < a.value < SOURCES then [Complete(a.value)]
    else []
  }

  function Events(accesses: seq<Access>, values: seq<nat>): seq<Event>
    requires |accesses| == |values|
  {
    if accesses == [] then []
    else
      var k := |accesses| - 1;
      Events(accesses[..k], values[..k]) + EventOf(accesses[k], values[k])
  }

  lemma NoEvents(accesses: seq<Access>)
    ensures Events(accesses[..0], []) == []
  {
  }

  lemma EventsNext(accesses: seq<Access>, values: seq<nat>, value: nat)
    requires |values| < |accesses|
    ensures Events(accesses[..|values| + 1], values + [value]) ==
            Events(accesses[..|values|], values) + EventOf(accesses[|values|], value)
  {
    var i := |values|;
    assert accesses[..i + 1][..i] == accesses[..i] && (values + [value])[..i] == values;
  }

  /** The line tells whether a source may be handed out. */
  ghost predicate LineOk(r: Regs, line: bool)
  {
    Sized(r) && (line <==> exists s: nat :: Deliverable(r, s))
  }

  // ----- a source that cannot be enabled -----

  const RESET := Regs(seq(SOURCES, _ => 0), NONE, NONE, NONE, 0)
  const NONE: seq<bool> := seq(SOURCES, _ => false)

  /** A disabled source can be enabled by a register write exactly when it is not the first of its
      enable word; so source 32, which belongs to the last input, never can. */
  lemma EnableIff(r: Regs, s: nat)
    requires Sized(r) && s < SOURCES && !r.enable[s]
    ensures (exists a: Access :: Written(r, a).enable[s]) <==> 0 < s && s % 32 != 0
  {
    if s % 32 != 0 {
      var a := SetEnable(s / 32, seq(32, _ => true));
      assert Written(r, a).enable[s];
    }
  }

  /** A run of the registers clock by clock. */
  ghost predicate Path(accesses: seq<Access>, inputs: seq<seq<bool>>, values: seq<nat>, trail: seq<Regs>)
  {
    && |inputs| == |values| == |accesses| && |trail| == |accesses| + 1
    && forall i | 0 <= i < |accesses| :: ClockStep(trail[i], accesses[i], inputs[i], values[i], trail[i + 1])
  }

  /** In no run from reset is a source claimed that is the first of its enable word. */
  lemma {:induction false} NeverHandedOut(accesses: seq<Access>, inputs: seq<seq<bool>>, values: seq<nat>, trail: seq<Regs>, i: nat)
    requires Path(accesses, inputs, values, trail) && trail[0] == RESET && i <= |accesses|
    ensures Sized(trail[i]) && forall s: nat | s < SOURCES && s % 32 == 0 :: !trail[i].enable[s]
    ensures i < |accesses| ==> values[i] == 0 || values[i] % 32 != 0
  {
    if i > 0 {
      NeverHandedOut(accesses, inputs, values, trail, i - 1);
      assert ClockStep(trail[i - 1], accesses[i - 1], inputs[i - 1], values[i - 1], trail[i]);
    }
    if i < |accesses| {
      assert ClockStep(trail[i], accesses[i], inputs[i], values[i], trail[i + 1]);
    }
  }

  /** The last input is lost: after reset its source gets priority 7, all bits of its enable word are
      written, the input is raised, and the claim returns no source while the source is pending. */
  lemma LastInputLost() returns (accesses: seq<Access>, inputs: seq<seq<bool>>, values: seq<nat>, trail: seq<Regs>)
    ensures Path(accesses, inputs, values, trail) && trail[0] == RESET
    ensures |accesses| == 3 && accesses[0] == SetPriority(32, 7) && accesses[1] == SetEnable(1, seq(32, _ => true))
    ensures accesses[2] == ReadClaim && |inputs[1]| == INPUTS && inputs[1][31] && values[2] == 0
    ensures trail[2].pending[32] && !trail[2].claimed[32] && trail[2].priority[32] == 7 > trail[2].threshold
  {
    accesses := [SetPriority(32, 7), SetEnable(1, seq(32, _ => true)), ReadClaim];
    var low, high := seq(INPUTS, _ => false), seq(INPUTS, i => i == 31);
    inputs, values := [low, high, low], [0, 0, 0];
    var r1 := Sampled(Written(RESET, accesses[0]), low);
    var r2 := Sampled(Written(r1, accesses[1]), high);
    trail := [RESET, r1, r2, Sampled(r2, low)];
    assert forall t: nat | t < SOURCES && r2.pending[t] :: t == 32;
    assert !r2.enable[32];
    assert Best(r2, 0);
  }

  class Controller {
    var r: Regs
    /** The output line. */
    var irq: bool
    ghost var log: seq<Event>

    ghost predicate Valid()
      reads this
    {
      Agree(r, log)
    }

    constructor ()
      ensures Valid() && !irq && log == [] && r == RESET
    {
      r := RESET;
      irq := false;
      log := [];
    }

    method FindBest() returns (best: nat)
      requires Sized(r)
      ensures Best(r, best) && best < SOURCES
    {
      best := 0;
      var highest := r.threshold;
      var s := 1;
      while s < SOURCES
        invariant 1 <= s <= SOURCES && best < s
        invariant if best == 0 then highest == r.threshold else Deliverable(r, best) && highest == r.priority[best]
        invariant forall t: nat | t < s && Deliverable(r, t) ::
                    best != 0 && (r.priority[t] < highest || (r.priority[t] == highest && best <= t))
      {
        if r.pending[s] && !r.claimed[s] && r.enable[s] && r.priority[s] > highest {
          best, highest := s, r.priority[s];
        }
        s := s + 1;
      }
    }

    /** The line is high exactly when some source may be handed out. */
    method UpdateIrq()
      requires Valid()
      modifies `irq
      ensures LineOk(r, irq)
    {
      var best := FindBest();
      irq := best != 0;
      if irq {
        assert Deliverable(r, best);
      }
    }

    /** Hands out the best source: never one that is being served, and never none while one may be. */
    method DoClaim() returns (source: nat)
      requires Valid()
      modifies `r, `log
      ensures Valid() && Best(old(r), source) && source < SOURCES && r == Claimed(old(r), source)
      ensures log == old(log) + EventOf(ReadClaim, source)
      ensures source != 0 ==> !Serving(old(log), source)
    {
      source := FindBest();
      if source != 0 {
        ClaimKeeps(r, log, source);
        r := r.(pending := r.pending[source := false], claimed := r.claimed[source := true]);
        log := log + [Claim(source)];
      }
    }

    method DoComplete(source: nat)
      requires Valid()
      modifies `r, `log
      ensures Valid() && r == Written(old(r), WriteComplete(source))
      ensures log == old(log) + EventOf(WriteComplete(source), 0)
    {
      if source == 0 || source >= SOURCES {
        return;
      }
      CompleteKeeps(r, log, source);
      r := r.(claimed := r.claimed[source := false]);
      log := log + [Complete(source)];
    }

    /** A register access: the change of the registers, the value read, the output line. */
    method Apb(a: Access) returns (value: nat)
      requires Valid()
      modifies this
      ensures Valid()
      ensures a.ReadClaim? ==> Best(old(r), value) && value < SOURCES && r == Claimed(old(r), value)
      ensures !a.ReadClaim? ==> value == 0 && r == Written(old(r), a)
      ensures log == old(log) + EventOf(a, value)
    {
      value := 0;
      if a.Nothing? {
        return;
      }
      if a.ReadClaim? {
        value := DoClaim();
      } else if a.WriteComplete? {
        DoComplete(a.value);
      } else {
        r := Written(r, a);
      }
      UpdateIrq();
    }

    /** A level at an input makes its source pending, unless the source is being served. */
    method Sample(inputs: seq<bool>)
      requires Valid() && |inputs| == INPUTS
      modifies `r
      ensures Valid() && r == Sampled(old(r), inputs)
    {
      var i := 0;
      while i < INPUTS
        invariant 0 <= i <= INPUTS && Valid() && r == old(r).(pending := r.pending)
        invariant forall s: nat | s < SOURCES ::
                    r.pending[s] == (old(r).pending[s] || (0 < s <= i && inputs[s - 1] && !old(r).claimed[s]))
      {
        if inputs[i] && !r.claimed[i + 1] {
          r := r.(pending := r.pending[i + 1 := true]);
        }
        i := i + 1;
      }
      assert r.pending == Sampled(old(r), inputs).pending;
    }

    /** One clock: a register access, the inputs, the output. */
    method Clock(a: Access, inputs: seq<bool>) returns (value: nat)
      requires Valid() && |inputs| == INPUTS
      modifies this
      ensures Valid() && ClockStep(old(r), a, inputs, value, r)
      ensures log == old(log) + EventOf(a, value)
      ensures LineOk(r, irq) && (value == 0 || value % 32 != 0)
    {
      value := Apb(a);
      Sample(inputs);
      UpdateIrq();
    }

    /** Every run, clock by clock: the registers follow the accesses and inputs, every claim returns the
        best source of its moment, the history is the claims returned and the completions written,
        no source is handed out twice without being completed in between, pending and claimed
        sources stay apart, and the line tells at each clock whether a source may be handed out.  The
        first source of an enable word is never enabled and never handed out. */
    method Run(accesses: seq<Access>, inputs: seq<seq<bool>>)
      returns (values: seq<nat>, lines: seq<bool>, ghost trail: seq<Regs>)
      requires Valid() && |accesses| == |inputs| && forall i | 0 <= i < |inputs| :: |inputs[i]| == INPUTS
      modifies this
      ensures Valid() && |values| == |lines| == |accesses| && |trail| == |accesses| + 1
      ensures trail[0] == old(r) && trail[|accesses|] == r
      ensures forall i | 0 <= i < |accesses| :: ClockStep(trail[i], accesses[i], inputs[i], values[i], trail[i + 1])
      ensures forall i | 0 <= i < |accesses| :: LineOk(trail[i + 1], lines[i])
      ensures log == old(log) + Events(accesses, values) && NoRepeat(log)
      ensures Sized(r) && forall s: nat | s < SOURCES :: !(r.pending[s] && r.claimed[s])
      ensures forall s: nat | s < SOURCES && s % 32 == 0 :: !r.enable[s]
      ensures forall i | 0 <= i < |accesses| :: values[i] == 0 || values[i] % 32 != 0
    {
      hide ClockStep, EventOf, LineOk, Events, NoRepeat;
      assert log == log + Events(accesses[..0], []) by { NoEvents(accesses); }
      values, lines, trail := [], [], [r];
      var i := 0;
      while i < |accesses|
        invariant 0 <= i <= |accesses| && Valid()
        invariant |values| == |lines| == i && |trail| == i + 1 && trail[0] == old(r) && trail[i] == r
        invariant forall k | 0 <= k < i :: ClockStep(trail[k], accesses[k], inputs[k], values[k], trail[k + 1])
        invariant forall k | 0 <= k < i :: LineOk(trail[k + 1], lines[k])
        invariant log == old(log) + Events(accesses[..i], values)
        invariant forall k | 0 <= k < i :: values[k] == 0 || values[k] % 32 != 0
      {
        var value := Clock(accesses[i], inputs[i]);
        EventsNext(accesses, values, value);
        values, lines, trail := values + [value], lines + [irq], trail + [r];
        i := i + 1;
      }
      assert accesses[..i] == accesses;
    }
  }
}
