/** The guard that detects a host suspend from jumps in wall time. Probes compare the guard's
    generation before and after their I/O; a changed generation discards the probe.

    The guard is one value, `Guard`, that every operation steps; `After` is a whole run of
    operations, from any mix of heartbeats, probe snapshots, starts and shutdowns. */
module ResumeGuard {
  const SECOND := 1_000_000_000
  const RESUME_GAP := 20 * SECOND
  const RESUME_PAUSE := 10 * SECOND
  const WRAP := 0x1_0000_0000 // the generation is a uint32

  datatype Guard = Guard(running: bool, lastTick: int, pauseUntil: int, generation: nat)

  datatype Op =
    | Start(now: int)
    | Shutdown
    | Observe(now: int) // a heartbeat, or the observation inside a snapshot

  const ZERO_TIME := -62_135_596_800 * SECOND // Go's zero time, year 1

  function Apply(g: Guard, op: Op): Guard {
    match op
    case Start(now) =>
      if g.running then g else g.(running := true, lastTick := now, pauseUntil := ZERO_TIME)
    case Shutdown =>
      if g.running then g.(running := false, generation := (g.generation + 1) % WRAP) else g
    case Observe(now) =>
      if !g.running then g
      else if now - g.lastTick > RESUME_GAP then
        g.(pauseUntil := now + RESUME_PAUSE, generation := (g.generation + 1) % WRAP, lastTick := now)
      else g.(lastTick := now)
  }

  function After(g: Guard, ops: seq<Op>): Guard {
    if ops == [] then g else Apply(After(g, ops[..|ops| - 1]), ops[|ops| - 1])
  }

  // An operation that must invalidate probes: a jump of more than 20 seconds, or a shutdown.
  predicate Breaks(g: Guard, op: Op) {
    g.running && (op.Shutdown? || (op.Observe? && op.now - g.lastTick > RESUME_GAP))
  }

  // No operation of the run breaks: consecutive observations are at most 20 seconds apart.
  ghost predicate Quiet(g: Guard, ops: seq<Op>) {
    forall i :: 0 <= i < |ops| ==> !Breaks(After(g, ops[..i]), ops[i])
  }

  function BreakCount(g: Guard, ops: seq<Op>): (n: nat)
    ensures n <= |ops|
  {
    if ops == [] then 0
    else
      var before := ops[..|ops| - 1];
      BreakCount(g, before) + if Breaks(After(g, before), ops[|ops| - 1]) then 1 else 0
  }

  lemma {:induction false} AfterAppend(g: Guard, xs: seq<Op>, ys: seq<Op>)
    ensures After(g, xs + ys) == After(After(g, xs), ys)
  {
    if ys == [] {
      assert xs + ys == xs;
    } else {
      var n := |ys| - 1;
      assert (xs + ys)[..|xs| + n] == xs + ys[..n];
      AfterAppend(g, xs, ys[..n]);
    }
  }

  lemma {:induction false} StepCounts(g: Guard, op: Op)
    requires g.generation < WRAP
    ensures Apply(g, op).generation == if Breaks(g, op) then (g.generation + 1) % WRAP else g.generation
  {
  }

  lemma {:induction false} CountWraps(n: nat)
    ensures (n % WRAP + 1) % WRAP == (n + 1) % WRAP && n % WRAP < WRAP
  {
  }

  lemma {:induction false} GenerationCountsBreaks(g: Guard, ops: seq<Op>)
    requires g.generation < WRAP
    ensures After(g, ops).generation == (g.generation + BreakCount(g, ops)) % WRAP
  {
    if ops != [] {
      var before := ops[..|ops| - 1];
      GenerationCountsBreaks(g, before);
      StepCounts(After(g, before), ops[|ops| - 1]);
      CountWraps(g.generation + BreakCount(g, before));
    }
  }

  lemma {:induction false} QuietPrefix(g: Guard, ops: seq<Op>, n: nat)
    requires n <= |ops| && Quiet(g, ops)
    ensures Quiet(g, ops[..n])
  {
    forall i | 0 <= i < n ensures !Breaks(After(g, ops[..n][..i]), ops[..n][i]) {
      assert ops[..n][..i] == ops[..i];
      assert !Breaks(After(g, ops[..i]), ops[i]);
    }
  }

  lemma {:induction false} QuietExtended(g: Guard, before: seq<Op>, last: Op)
    requires Quiet(g, before) && !Breaks(After(g, before), last)
    ensures Quiet(g, before + [last])
  {
    var ops := before + [last];
    forall i | 0 <= i < |ops| ensures !Breaks(After(g, ops[..i]), ops[i]) {
      assert ops[..i] == before[..i];
      if i < |before| {
        assert !Breaks(After(g, before[..i]), before[i]);
      } else {
        assert before[..i] == before;
      }
    }
  }

  lemma {:induction false} QuietMeansNoBreaks(g: Guard, ops: seq<Op>)
    ensures Quiet(g, ops) <==> BreakCount(g, ops) == 0
  {
    if ops != [] {
      var before, last := ops[..|ops| - 1], ops[|ops| - 1];
      assert ops == before + [last];
      QuietMeansNoBreaks(g, before);
      if Quiet(g, ops) {
        QuietPrefix(g, ops, |ops| - 1);
        assert !Breaks(After(g, before), last);
      } else if BreakCount(g, ops) == 0 {
        QuietExtended(g, before, last);
      }
    }
  }

  // Equal generations say exactly that no running guard was stopped and saw no jump, for any run
  // shorter than 2^32 operations. The guard may start during the run, or never run.
  lemma {:induction false} EqualGenerationMeansQuiet(g: Guard, ops: seq<Op>)
    requires g.generation < WRAP && |ops| < WRAP
    ensures After(g, ops).generation == g.generation <==> Quiet(g, ops)
  {
    GenerationCountsBreaks(g, ops);
    QuietMeansNoBreaks(g, ops);
  }

  // At 2^32 jumps the counter comes round and the comparison is blind.
  lemma {:induction false} WrapHidesJumps(g: Guard) returns (ops: seq<Op>)
    requires g.running && g.generation < WRAP
    ensures |ops| == 0x1_0000_0000 && !Quiet(g, ops) && After(g, ops).generation == g.generation
  {
    ops := Jumps(g, WRAP);
    GenerationCountsBreaks(g, ops);
    QuietMeansNoBreaks(g, ops);
  }

  lemma {:induction false} Jumps(g: Guard, n: nat) returns (ops: seq<Op>)
    requires g.running
    ensures |ops| == n && BreakCount(g, ops) == n && After(g, ops).running
  {
    if n == 0 {
      ops := [];
    } else {
      var before := Jumps(g, n - 1);
      ops := before + [Observe(After(g, before).lastTick + RESUME_GAP + 1)];
      assert ops[..n - 1] == before;
    }
  }

  // A quiet run of a running guard never stops it and never jumps: time moves on by at most 20
  // seconds per observation.
  lemma {:induction false} QuietKeepsRunning(g: Guard, ops: seq<Op>)
    requires g.running && Quiet(g, ops)
    ensures After(g, ops).running
  {
    if ops != [] {
      var n := |ops| - 1;
      QuietPrefix(g, ops, n);
      QuietKeepsRunning(g, ops[..n]);
    }
  }

  // The time of the latest observation, from the operations alone.
  function LastSeen(g: Guard, ops: seq<Op>): int {
    if ops == [] then g.lastTick
    else if ops[|ops| - 1].Observe? then ops[|ops| - 1].now
    else LastSeen(g, ops[..|ops| - 1])
  }

  predicate SteadyOp(lastSeen: int, op: Op) {
    !op.Shutdown? && (op.Observe? ==> op.now - lastSeen <= 20_000_000_000)
  }

  // The guard is not stopped, and no observation is more than 20 seconds later than the one before.
  ghost predicate Steady(g: Guard, ops: seq<Op>) {
    forall n {:trigger ops[n]} :: 0 <= n < |ops| ==> SteadyOp(LastSeen(g, ops[..n]), ops[n])
  }

  lemma {:induction false} SteadySplit(g: Guard, ops: seq<Op>)
    requires ops != []
    ensures var n := |ops| - 1; Steady(g, ops) <==> Steady(g, ops[..n]) && SteadyOp(LastSeen(g, ops[..n]), ops[n])
  {
    var n := |ops| - 1;
    var before := ops[..n];
    assert forall i :: 0 <= i < n ==> before[..i] == ops[..i] && before[i] == ops[i];
    if Steady(g, before) && SteadyOp(LastSeen(g, before), ops[n]) {
      forall i | 0 <= i < |ops| ensures SteadyOp(LastSeen(g, ops[..i]), ops[i]) {
        if i < n {
          assert SteadyOp(LastSeen(g, before[..i]), before[i]);
        }
      }
    }
    if Steady(g, ops) {
      forall i | 0 <= i < n ensures SteadyOp(LastSeen(g, before[..i]), before[i]) {
        assert SteadyOp(LastSeen(g, ops[..i]), ops[i]);
      }
      assert ops[..n] == before && SteadyOp(LastSeen(g, ops[..n]), ops[n]);
    }
  }

  lemma {:induction false} SteadyMeansNoBreaks(g: Guard, ops: seq<Op>)
    requires g.running
    ensures Steady(g, ops) <==> BreakCount(g, ops) == 0
    ensures Steady(g, ops) ==> After(g, ops).running && After(g, ops).lastTick == LastSeen(g, ops)
  {
    if ops != [] {
      var before, last := ops[..|ops| - 1], ops[|ops| - 1];
      SteadyMeansNoBreaks(g, before);
      SteadySplit(g, ops);
      if Steady(g, before) {
        SteadyStep(After(g, before), last);
      }
    }
  }

  lemma {:induction false} SteadyStep(g: Guard, op: Op)
    requires g.running
    ensures SteadyOp(g.lastTick, op) <==> !Breaks(g, op)
    ensures SteadyOp(g.lastTick, op) ==>
              Apply(g, op).running && Apply(g, op).lastTick == if op.Observe? then op.now else g.lastTick
  {
  }

  lemma {:induction false} SteadyPrefix(g: Guard, ops: seq<Op>, n: nat)
    requires n <= |ops| && Steady(g, ops)
    ensures Steady(g, ops[..n])
    decreases |ops|
  {
    if n < |ops| {
      SteadySplit(g, ops);
      assert ops[..|ops| - 1][..n] == ops[..n];
      SteadyPrefix(g, ops[..|ops| - 1], n);
    } else {
      assert ops[..n] == ops;
    }
  }

  // For a running guard, over fewer than 2^32 operations, equal generations say exactly that it was
  // not stopped and that no two consecutive observations lie more than 20 seconds apart; it then
  // ran all the time.
  lemma {:induction false} EqualGenerationMeansSteady(g: Guard, ops: seq<Op>)
    requires g.running && g.generation < WRAP && |ops| < WRAP
    ensures After(g, ops).generation == g.generation <==> Steady(g, ops)
    ensures Steady(g, ops) ==> forall n :: 0 <= n <= |ops| ==> After(g, ops[..n]).running
  {
    GenerationCountsBreaks(g, ops);
    SteadyMeansNoBreaks(g, ops);
    if Steady(g, ops) {
      forall n | 0 <= n <= |ops| ensures After(g, ops[..n]).running {
        SteadyPrefix(g, ops, n);
        SteadyMeansNoBreaks(g, ops[..n]);
      }
    }
  }

  // While the host is suspended nothing is observed: every time read is before or after.
  ghost predicate NothingObservedBetween(ops: seq<Op>, asleep: int, awake: int) {
    forall i :: 0 <= i < |ops| && (ops[i].Observe? || ops[i].Start?) ==> ops[i].now <= asleep || awake <= ops[i].now
  }

  // A run of observations that spans a suspend of more than 20 seconds is not quiet, whatever
  // the clock does otherwise.
  lemma {:induction false} SuspendIsDetected(g: Guard, ops: seq<Op>, asleep: int, awake: int)
    requires g.running && g.lastTick <= asleep
    requires awake - asleep > 20_000_000_000 && NothingObservedBetween(ops, asleep, awake)
    requires After(g, ops).lastTick >= awake
    ensures !Quiet(g, ops)
  {
    if ops != [] && Quiet(g, ops) {
      var n := |ops| - 1;
      QuietPrefix(g, ops, n);
      QuietKeepsRunning(g, ops[..n]);
      assert !Breaks(After(g, ops[..n]), ops[n]);
      if After(g, ops[..n]).lastTick >= awake {
        SuspendIsDetected(g, ops[..n], asleep, awake);
      } else {
        StaysBefore(g, ops[..n], asleep, awake);
      }
    }
  }

  lemma {:induction false} StaysBefore(g: Guard, ops: seq<Op>, asleep: int, awake: int)
    requires g.lastTick <= asleep < awake && NothingObservedBetween(ops, asleep, awake)
    ensures After(g, ops).lastTick <= asleep || After(g, ops).lastTick >= awake
  {
    if ops != [] {
      StaysBefore(g, ops[..|ops| - 1], asleep, awake);
    }
  }

  // Started, and not stopped since.
  ghost predicate StartedLast(ops: seq<Op>, i: nat)
    requires i < |ops|
  {
    ops[i].Start? && forall j :: i < j < |ops| ==> !ops[j].Shutdown?
  }

  // The guard runs exactly if its last start or stop was a start; if there was none, as before.
  lemma {:induction false} RunsSinceStart(g: Guard, ops: seq<Op>)
    ensures After(g, ops).running <==>
            || (g.running && forall i :: 0 <= i < |ops| ==> !ops[i].Shutdown?)
            || (exists i :: 0 <= i < |ops| && StartedLast(ops, i))
  {
    if ops != [] {
      var n := |ops| - 1;
      RunsSinceStart(g, ops[..n]);
      if i :| 0 <= i < n && StartedLast(ops[..n], i) && !ops[n].Shutdown? {
        assert StartedLast(ops, i);
      }
      if ops[n].Start? {
        assert StartedLast(ops, n);
      }
      if i :| 0 <= i < n && StartedLast(ops, i) {
        assert StartedLast(ops[..n], i);
      }
    }
  }

  // A jump counts once: afterwards the guard goes on from the time of the jump, and probes pause
  // until ten seconds after it, as long as nothing else breaks.
  lemma {:induction false} JumpCountsOnce(g: Guard, jump: int, ops: seq<Op>)
    requires g.running && g.generation < WRAP && jump - g.lastTick > 20_000_000_000 && |ops| < WRAP
    ensures var next := (g.generation + 1) % WRAP;
            var jumped := Guard(true, jump, jump + 10_000_000_000, next);
            && (After(g, [Observe(jump)] + ops).generation == next <==> Steady(jumped, ops))
            && (Steady(jumped, ops) ==> After(g, [Observe(jump)] + ops).pauseUntil == jump + 10_000_000_000)
  {
    var jumped := Guard(true, jump, jump + RESUME_PAUSE, (g.generation + 1) % WRAP);
    AfterAppend(g, [Observe(jump)], ops);
    assert [Observe(jump)][..0] == [];
    assert After(g, [Observe(jump)]) == jumped;
    EqualGenerationMeansSteady(jumped, ops);
    if Steady(jumped, ops) {
      EqualGenerationMeansQuiet(jumped, ops);
      PauseUnchanged(jumped, ops);
    }
  }

  // A guard that was stopped counts from the time it is started again: what happened before is no
  // jump, and no earlier pause remains.
  lemma {:induction false} StartIsFresh(g: Guard, now: int, ops: seq<Op>)
    requires !g.running && g.generation < WRAP && |ops| < WRAP
    ensures var started := Guard(true, now, ZERO_TIME, g.generation);
            && (After(g, [Start(now)] + ops).generation == g.generation <==> Steady(started, ops))
            && (Steady(started, ops) ==>
                  && After(g, [Start(now)] + ops).running
                  && After(g, [Start(now)] + ops).lastTick == LastSeen(started, ops)
                  && After(g, [Start(now)] + ops).pauseUntil == ZERO_TIME)
  {
    var started := Guard(true, now, ZERO_TIME, g.generation);
    AfterAppend(g, [Start(now)], ops);
    assert [Start(now)][..0] == [];
    assert After(g, [Start(now)]) == started;
    EqualGenerationMeansSteady(started, ops);
    SteadyMeansNoBreaks(started, ops);
    if Steady(started, ops) {
      EqualGenerationMeansQuiet(started, ops);
      PauseUnchanged(started, ops);
    }
  }

  // After a jump, scheduled probes stay paused for ten seconds of quiet observations.
  lemma {:induction false} PauseAfterJump(g: Guard, jump: int, ops: seq<Op>)
    requires g.running && jump - g.lastTick > 20_000_000_000
    requires Quiet(Apply(g, Observe(jump)), ops)
    ensures var h := After(Apply(g, Observe(jump)), ops);
            h.lastTick < h.pauseUntil <==> h.lastTick < jump + 10_000_000_000
  {
    if ops != [] {
      var n := |ops| - 1;
      var start := Apply(g, Observe(jump));
      QuietPrefix(start, ops, n);
      QuietKeepsRunning(start, ops[..n]);
      PauseAfterJump(g, jump, ops[..n]);
      PauseUnchanged(start, ops);
    }
  }

  lemma {:induction false} PauseUnchanged(g: Guard, ops: seq<Op>)
    requires g.running && Quiet(g, ops)
    ensures After(g, ops).pauseUntil == g.pauseUntil
  {
    if ops != [] {
      var n := |ops| - 1;
      QuietPrefix(g, ops, n);
      QuietKeepsRunning(g, ops[..n]);
      PauseUnchanged(g, ops[..n]);
      assert !Breaks(After(g, ops[..n]), ops[n]);
    }
  }

  class MonitorResumeGuard {
    var stop: bool // a heartbeat is running
    var lastTick: int
    var pauseUntil: int
    var generation: nat

    ghost predicate Valid()
      reads this
    {
      generation < WRAP
    }

    ghost function State(): Guard
      reads this
    {
      Guard(stop, lastTick, pauseUntil, generation)
    }

    constructor ()
      ensures Valid() && State() == Guard(false, ZERO_TIME, ZERO_TIME, 0)
    {
      stop, lastTick, pauseUntil, generation := false, ZERO_TIME, ZERO_TIME, 0;
    }

    method Start(now: int)
      requires Valid()
      modifies this
      ensures Valid() && State() == Apply(old(State()), Op.Start(now))
    {
      if stop {
        return;
      }
      stop := true;
      lastTick := now;
      pauseUntil := ZERO_TIME;
    }

    method Shutdown()
      requires Valid()
      modifies this
      ensures Valid() && State() == Apply(old(State()), Op.Shutdown)
    {
      if stop {
        stop := false;
        generation := (generation + 1) % WRAP;
      }
    }

    method Observe(now: int)
      requires Valid() && stop
      modifies this
      ensures Valid() && State() == Apply(old(State()), Op.Observe(now))
    {
      if now - lastTick > RESUME_GAP {
        pauseUntil := now + RESUME_PAUSE;
        generation := (generation + 1) % WRAP;
      }
      lastTick := now;
    }

    method Snapshot(now: int) returns (current: nat, allowed: bool)
      requires Valid()
      modifies this
      ensures Valid() && State() == Apply(old(State()), Op.Observe(now))
      ensures current == generation
      ensures allowed <==> !stop || lastTick >= pauseUntil
    {
      if !stop {
        return generation, true;
      }
      Observe(now);
      return generation, lastTick >= pauseUntil;
    }
  }
}
