/** The probe protocol of a chain of monitor tasks that replace one another, as a state machine
    whose steps are the critical sections of the code. Any number of callers run probes on any
    task of the chain, tasks are canceled and replaced at any time, and the resume guard observes
    the clock in between; every interleaving is a sequence of these steps.

    `MonitorTask` at the end is one task's locked sections as methods on an object. */
module MonitorTask {
  import opened MonitorHistory
  import opened ResumeGuard
  import opened Wrappers

  // A published result stands for the history it was computed from: it is the report that
  // `History.Record` returns for exactly that log.
  type Answer = seq<Sample>

  // A single-flight run: its task, the caller executing it, and what closing `done` published.
  // `added` counts the samples it put into the history.
  datatype Run = Run(task: nat, owner: nat, done: bool, result: Option<Answer>, added: nat)

  datatype Task = Task(canceled: bool, log: seq<Sample>, inflight: Option<nat>)

  datatype Caller =
    | Idle
    | Started(run: nat) // installed the run; the generation is not read yet
    | Probing(run: nat, since: nat) // read the generation after `since` guard operations
    | Waiting(run: nat)
    | Leaving(run: nat) // the run is closed; the context is checked once more
    | Answered(answer: Option<Answer>, from: Option<nat>)

  // `ops` is every guard operation so far and `published` every recorded sample with its run.
  datatype State = State(
    tasks: seq<Task>, runs: seq<Run>, callers: seq<Caller>,
    ops: seq<Op>, published: seq<(nat, Sample)>)

  const FRESH_GUARD := Guard(false, ZERO_TIME, ZERO_TIME, 0)

  function GenerationAfter(ops: seq<Op>, n: nat): nat
    requires n <= |ops|
  {
    After(FRESH_GUARD, ops[..n]).generation
  }

  function Samples(published: seq<(nat, Sample)>): (log: seq<Sample>)
    ensures |log| == |published|
  {
    if published == [] then [] else Samples(published[..|published| - 1]) + [published[|published| - 1].1]
  }

  // ---------- Steps ----------

  datatype Step =
    | Call(c: nat, t: nat)
    | ReadGeneration(c: nat, now: int)
    | Publish(c: nat, sample: Sample, now: int)
    | WakeDone(c: nat)
    | WakeCanceled(c: nat)
    | Leave(c: nat)
    | Cancel(t: nat)
    | Replace
    | GuardOp(op: Op)

  predicate Enabled(s: State, step: Step) {
    match step
    case Call(c, t) => c < |s.callers| && t < |s.tasks| && (s.callers[c].Idle? || s.callers[c].Answered?)
    case ReadGeneration(c, _) => c < |s.callers| && s.callers[c].Started?
    case Publish(c, _, _) => c < |s.callers| && s.callers[c].Probing?
    case WakeDone(c) =>
      c < |s.callers| && s.callers[c].Waiting? && s.callers[c].run < |s.runs| && s.runs[s.callers[c].run].done
    case WakeCanceled(c) =>
      && c < |s.callers| && s.callers[c].Waiting? && s.callers[c].run < |s.runs|
      && s.runs[s.callers[c].run].task < |s.tasks| && s.tasks[s.runs[s.callers[c].run].task].canceled
    case Leave(c) => c < |s.callers| && s.callers[c].Leaving?
    case Cancel(t) => t < |s.tasks|
    case Replace => s.tasks != [] && s.tasks[|s.tasks| - 1].canceled
    case GuardOp(_) => true
  }

  // The first locked section of runProbe: refuse, join the run in flight, or start one.
  function DoCall(s: State, c: nat, t: nat): State
    requires Enabled(s, Call(c, t))
  {
    var task := s.tasks[t];
    if task.canceled then s.(callers := s.callers[c := Answered(None, None)])
    else if task.inflight.Some? then s.(callers := s.callers[c := Waiting(task.inflight.value)])
    else
      var r := |s.runs|;
      s.(runs := s.runs + [Run(t, c, false, None, 0)],
         tasks := s.tasks[t := task.(inflight := Some(r))],
         callers := s.callers[c := Started(r)])
  }

  // The second locked section: the generation is read again under the task lock, the sample is
  // recorded unless the task was canceled or the generation moved, and the run is closed.
  function DoPublish(s: State, c: nat, sample: Sample, now: int): State
    requires Enabled(s, Publish(c, sample, now))
    requires s.callers[c].run < |s.runs| && s.runs[s.callers[c].run].task < |s.tasks|
    requires s.callers[c].since <= |s.ops|
  {
    var r := s.callers[c].run;
    var run := s.runs[r];
    var task := s.tasks[run.task];
    var ops := s.ops + [Observe(now)];
    if !task.canceled && GenerationAfter(s.ops, s.callers[c].since) == After(FRESH_GUARD, ops).generation then
      var log := task.log + [sample];
      State(s.tasks[run.task := Task(task.canceled, log, None)],
            s.runs[r := run.(done := true, result := Some(log), added := run.added + 1)],
            s.callers[c := Leaving(r)],
            ops, s.published + [(r, sample)])
    else
      State(s.tasks[run.task := task.(inflight := None)],
            s.runs[r := run.(done := true)],
            s.callers[c := Leaving(r)],
            ops, s.published)
  }

  function DoLeave(s: State, c: nat): State
    requires Enabled(s, Leave(c))
    requires s.callers[c].run < |s.runs| && s.runs[s.callers[c].run].task < |s.tasks|
  {
    var r := s.callers[c].run;
    if s.tasks[s.runs[r].task].canceled then s.(callers := s.callers[c := Answered(None, None)])
    else s.(callers := s.callers[c := Answered(s.runs[r].result, Some(r))])
  }

  function DoReadGeneration(s: State, c: nat, now: int): State
    requires Enabled(s, ReadGeneration(c, now))
  {
    s.(ops := s.ops + [Observe(now)], callers := s.callers[c := Probing(s.callers[c].run, |s.ops| + 1)])
  }

  function DoCancel(s: State, t: nat): State
    requires Enabled(s, Cancel(t))
  {
    s.(tasks := s.tasks[t := s.tasks[t].(canceled := true)])
  }

  // A replacement starts from its predecessor's history.
  function DoReplace(s: State): State
    requires Enabled(s, Replace)
  {
    s.(tasks := s.tasks + [Task(false, s.tasks[|s.tasks| - 1].log, None)])
  }

  ghost predicate Next(s: State, step: Step, s': State) {
    && Enabled(s, step)
    && match step
       case Call(c, t) => s' == DoCall(s, c, t)
       case ReadGeneration(c, now) => s' == DoReadGeneration(s, c, now)
       case Publish(c, sample, now) =>
         && s.callers[c].run < |s.runs| && s.runs[s.callers[c].run].task < |s.tasks| && s.callers[c].since <= |s.ops|
         && s' == DoPublish(s, c, sample, now)
       case WakeDone(c) => s' == s.(callers := s.callers[c := Leaving(s.callers[c].run)])
       case WakeCanceled(c) => s' == s.(callers := s.callers[c := Answered(None, None)])
       case Leave(c) =>
         && s.callers[c].run < |s.runs| && s.runs[s.callers[c].run].task < |s.tasks|
         && s' == DoLeave(s, c)
       case Cancel(t) => s' == DoCancel(s, t)
       case Replace => s' == DoReplace(s)
       case GuardOp(op) => s' == s.(ops := s.ops + [op])
  }

  ghost predicate Init(s: State) {
    && s.tasks == [Task(false, [], None)] && s.runs == [] && s.published == [] && s.ops == []
    && forall c :: 0 <= c < |s.callers| ==> s.callers[c] == Idle
  }

  // ---------- The invariant ----------

  predicate Executing(c: Caller, r: nat) {
    (c.Started? || c.Probing?) && c.run == r
  }

  // A run in flight is the one its task points to and its owner is executing it, so it will be
  // closed; it adds its one sample exactly when it publishes a result.
  ghost predicate RunOk(s: State, r: nat)
    requires r < |s.runs|
  {
    var run := s.runs[r];
    && run.task < |s.tasks| && run.owner < |s.callers|
    && run.added <= 1 && (run.result.Some? <==> run.added == 1)
    && (!run.done ==>
          run.added == 0 && s.tasks[run.task].inflight == Some(r) && Executing(s.callers[run.owner], r))
  }

  ghost predicate TaskOk(s: State, t: nat)
    requires t < |s.tasks|
  {
    && (t < |s.tasks| - 1 ==> s.tasks[t].canceled)
    && (s.tasks[t].inflight.Some? ==>
          var r := s.tasks[t].inflight.value;
          r < |s.runs| && s.runs[r].task == t && !s.runs[r].done)
  }

  ghost predicate CallerOk(s: State, c: nat)
    requires c < |s.callers|
  {
    match s.callers[c]
    case Idle => true
    case Started(r) => r < |s.runs| && s.runs[r].owner == c && !s.runs[r].done
    case Probing(r, since) => r < |s.runs| && s.runs[r].owner == c && !s.runs[r].done && since <= |s.ops|
    case Waiting(r) => r < |s.runs|
    case Leaving(r) => r < |s.runs| && s.runs[r].done
    case Answered(a, from) =>
      a.Some? ==> from.Some? && from.value < |s.runs| && s.runs[from.value].done && s.runs[from.value].result == a
  }

  ghost predicate Inv(s: State) {
    && s.tasks != []
    && (forall r :: 0 <= r < |s.runs| ==> RunOk(s, r))
    && (forall t :: 0 <= t < |s.tasks| ==> TaskOk(s, t))
    && (forall c :: 0 <= c < |s.callers| ==> CallerOk(s, c))
    && HistoryOk(s)
  }

  // The i-th published sample came from a closed run whose result is computed from the history right after it.
  ghost predicate PublishedOk(runs: seq<Run>, published: seq<(nat, Sample)>, i: nat)
    requires i < |published|
  {
    var r := published[i].0;
    && r < |runs| && runs[r].done
    && runs[r].result == Some(Samples(published[..i + 1]))
    && forall j :: 0 <= j < i ==> published[j].0 != r
  }

  ghost predicate IsPublished(published: seq<(nat, Sample)>, r: nat) {
    exists i :: 0 <= i < |published| && published[i].0 == r
  }

  // The newest task's history is every published sample, in order. Each came from a run of its
  // own, and every run that has a result published.
  ghost predicate HistoryOk(s: State) {
    && s.tasks != []
    && s.tasks[|s.tasks| - 1].log == Samples(s.published)
    && RunsPublished(s.runs, s.published)
  }

  function Added(runs: seq<Run>): nat {
    if runs == [] then 0 else Added(runs[..|runs| - 1]) + runs[|runs| - 1].added
  }

  ghost predicate RunsPublished(runs: seq<Run>, published: seq<(nat, Sample)>) {
    && |published| == Added(runs)
    && (forall i :: 0 <= i < |published| ==> PublishedOk(runs, published, i))
    && (forall r :: 0 <= r < |runs| && runs[r].result.Some? ==> IsPublished(published, r))
  }

  // ---------- Every step keeps it ----------

  lemma {:induction false} InitInv(s: State)
    requires Init(s)
    ensures Inv(s)
  {
  }

  // A step that only moves one caller.
  lemma {:induction false} MoveCaller(s: State, c: nat, to: Caller, ops: seq<Op>)
    requires Inv(s) && c < |s.callers| && |s.ops| <= |ops|
    requires CallerOk(s.(callers := s.callers[c := to], ops := ops), c)
    requires forall r :: Executing(s.callers[c], r) ==> Executing(to, r)
    ensures Inv(s.(callers := s.callers[c := to], ops := ops))
  {
    var s' := s.(callers := s.callers[c := to], ops := ops);
    forall r | 0 <= r < |s'.runs| ensures RunOk(s', r) { assert RunOk(s, r); }
    forall t | 0 <= t < |s'.tasks| ensures TaskOk(s', t) { assert TaskOk(s, t); }
    forall d | 0 <= d < |s'.callers| ensures CallerOk(s', d) { assert CallerOk(s, d); }
  }

  // A step that only cancels or adds a task.
  lemma {:induction false} MoveTasks(s: State, tasks: seq<Task>)
    requires Inv(s) && |tasks| >= |s.tasks|
    requires forall t :: 0 <= t < |s.tasks| ==>
               tasks[t].inflight == s.tasks[t].inflight && (s.tasks[t].canceled ==> tasks[t].canceled)
    requires forall t :: |s.tasks| <= t < |tasks| ==> tasks[t].inflight.None?
    requires forall t :: |s.tasks| - 1 <= t < |tasks| - 1 ==> tasks[t].canceled
    requires tasks[|tasks| - 1].log == s.tasks[|s.tasks| - 1].log
    ensures Inv(s.(tasks := tasks))
  {
    var s' := s.(tasks := tasks);
    forall r | 0 <= r < |s'.runs| ensures RunOk(s', r) { assert RunOk(s, r); }
    forall t | 0 <= t < |s'.tasks| ensures TaskOk(s', t) {
      if t < |s.tasks| { assert TaskOk(s, t); }
    }
    forall d | 0 <= d < |s'.callers| ensures CallerOk(s', d) { assert CallerOk(s, d); }
  }

  // A call that starts a run.
  lemma {:induction false} StartRun(s: State, c: nat, t: nat)
    requires Inv(s) && Enabled(s, Call(c, t))
    requires !s.tasks[t].canceled && s.tasks[t].inflight.None?
    ensures Inv(DoCall(s, c, t))
  {
    var s', n := DoCall(s, c, t), |s.runs|;
    assert CallerOk(s, c) && TaskOk(s, t);
    forall r | 0 <= r < |s'.runs| ensures RunOk(s', r) {
      if r < n { assert RunOk(s, r); }
    }
    forall u | 0 <= u < |s'.tasks| ensures TaskOk(s', u) { assert TaskOk(s, u); }
    forall d | 0 <= d < |s'.callers| ensures CallerOk(s', d) { assert CallerOk(s, d); }
    assert s'.runs[..n] == s.runs;
    forall i | 0 <= i < |s.published| ensures PublishedOk(s'.runs, s.published, i) {
      assert PublishedOk(s.runs, s.published, i);
    }
  }

  lemma {:induction false} AddedUpdate(runs: seq<Run>, r: nat, run: Run)
    requires r < |runs|
    ensures Added(runs[r := run]) + runs[r].added == Added(runs) + run.added
  {
    var n := |runs| - 1;
    if r == n {
      assert runs[r := run][..n] == runs[..n];
    } else {
      assert runs[r := run][..n] == runs[..n][r := run];
      AddedUpdate(runs[..n], r, run);
    }
  }

  lemma {:induction false} SamplesAppend(published: seq<(nat, Sample)>, r: nat, sample: Sample)
    ensures Samples(published + [(r, sample)]) == Samples(published) + [sample]
  {
    assert (published + [(r, sample)])[..|published|] == published;
  }

  lemma {:induction false} PublishedExtended(runs: seq<Run>, published: seq<(nat, Sample)>, r: nat, run: Run, sample: Sample)
    requires RunsPublished(runs, published)
    requires r < |runs| && runs[r].result.None? && !runs[r].done
    requires run.done && run.result == Some(Samples(published) + [sample])
    requires run.added == runs[r].added + 1
    ensures RunsPublished(runs[r := run], published + [(r, sample)])
  {
    var runs', published' := runs[r := run], published + [(r, sample)];
    var n := |published|;
    AddedUpdate(runs, r, run);
    SamplesAppend(published, r, sample);
    assert published'[..n + 1] == published';
    forall i | 0 <= i < n + 1 ensures PublishedOk(runs', published', i) {
      if i < n {
        assert PublishedOk(runs, published, i);
        assert published'[..i + 1] == published[..i + 1];
      } else {
        forall j | 0 <= j < n ensures published'[j].0 != r { assert PublishedOk(runs, published, j); }
      }
    }
    forall q | 0 <= q < |runs'| && runs'[q].result.Some? ensures IsPublished(published', q) {
      if q == r {
        assert published'[n].0 == q;
      } else {
        assert IsPublished(published, q);
        var i :| 0 <= i < n && published[i].0 == q;
        assert published'[i].0 == q;
      }
    }
  }

  lemma {:induction false} ClosedWithoutResult(runs: seq<Run>, published: seq<(nat, Sample)>, r: nat, run: Run)
    requires RunsPublished(runs, published)
    requires r < |runs| && run.result.None? && !runs[r].done && run.added == runs[r].added
    ensures RunsPublished(runs[r := run], published)
  {
    var runs' := runs[r := run];
    AddedUpdate(runs, r, run);
    forall i | 0 <= i < |published| ensures PublishedOk(runs', published, i) {
      assert PublishedOk(runs, published, i);
    }
  }

  // Closing a run: the task forgets it, its owner moves on, and nothing else changes.
  lemma {:induction false} CloseRun(s: State, c: nat, r: nat, run: Run, task: Task, s': State)
    requires Inv(s) && c < |s.callers| && s.callers[c].Probing? && s.callers[c].run == r && r < |s.runs|
    requires run.task == s.runs[r].task < |s.tasks| && run.owner == s.runs[r].owner && run.done
    requires run.added <= 1 && (run.result.Some? <==> run.added == 1)
    requires task.canceled == s.tasks[run.task].canceled && task.inflight.None?
    requires s'.runs == s.runs[r := run] && s'.tasks == s.tasks[run.task := task]
    requires s'.callers == s.callers[c := Leaving(r)] && |s.ops| <= |s'.ops|
    ensures forall q :: 0 <= q < |s'.runs| ==> RunOk(s', q)
    ensures forall t :: 0 <= t < |s'.tasks| ==> TaskOk(s', t)
    ensures forall d :: 0 <= d < |s'.callers| ==> CallerOk(s', d)
  {
    assert CallerOk(s, c) && RunOk(s, r);
    forall q | 0 <= q < |s'.runs| ensures RunOk(s', q) { assert RunOk(s, q); }
    forall u | 0 <= u < |s'.tasks| ensures TaskOk(s', u) { assert TaskOk(s, u); }
    forall d | 0 <= d < |s'.callers| ensures CallerOk(s', d) { assert CallerOk(s, d); }
  }

  // Publishing under the task lock: a sample only enters the history of a task that is not
  // canceled, which is the last of the chain.
  lemma {:induction false} PublishKeepsInv(s: State, c: nat, sample: Sample, now: int)
    requires Inv(s) && Enabled(s, Publish(c, sample, now))
    requires s.callers[c].run < |s.runs| && s.runs[s.callers[c].run].task < |s.tasks| && s.callers[c].since <= |s.ops|
    ensures Inv(DoPublish(s, c, sample, now))
  {
    var r := s.callers[c].run;
    var s', t := DoPublish(s, c, sample, now), s.runs[r].task;
    assert CallerOk(s, c) && RunOk(s, r) && TaskOk(s, t);
    CloseRun(s, c, r, s'.runs[r], s'.tasks[t], s');
    if s'.published == s.published {
      ClosedWithoutResult(s.runs, s.published, r, s'.runs[r]);
    } else {
      assert t == |s.tasks| - 1;
      SamplesAppend(s.published, r, sample);
      PublishedExtended(s.runs, s.published, r, s'.runs[r], sample);
    }
  }

  lemma {:induction false} CallKeepsInv(s: State, c: nat, t: nat)
    requires Inv(s) && Enabled(s, Call(c, t))
    ensures Inv(DoCall(s, c, t))
  {
    assert TaskOk(s, t);
    if s.tasks[t].canceled {
      MoveCaller(s, c, Answered(None, None), s.ops);
    } else if s.tasks[t].inflight.Some? {
      MoveCaller(s, c, Waiting(s.tasks[t].inflight.value), s.ops);
    } else {
      StartRun(s, c, t);
    }
  }

  lemma {:induction false} ReadGenerationKeepsInv(s: State, c: nat, now: int)
    requires Inv(s) && Enabled(s, ReadGeneration(c, now))
    ensures Inv(DoReadGeneration(s, c, now))
  {
    assert CallerOk(s, c);
    MoveCaller(s, c, Probing(s.callers[c].run, |s.ops| + 1), s.ops + [Observe(now)]);
  }

  lemma {:induction false} WakeKeepsInv(s: State, step: Step, s': State)
    requires Inv(s) && Next(s, step, s') && (step.WakeDone? || step.WakeCanceled?)
    ensures Inv(s')
  {
    assert CallerOk(s, step.c);
    MoveCaller(s, step.c, s'.callers[step.c], s.ops);
  }

  lemma {:induction false} LeaveKeepsInv(s: State, c: nat, s': State)
    requires Inv(s) && Next(s, Leave(c), s')
    ensures Inv(s')
  {
    assert CallerOk(s, c);
    MoveCaller(s, c, s'.callers[c], s.ops);
  }

  lemma {:induction false} TaskStepKeepsInv(s: State, step: Step, s': State)
    requires Inv(s) && Next(s, step, s') && (step.Cancel? || step.Replace?)
    ensures Inv(s')
  {
    MoveTasks(s, s'.tasks);
  }

  lemma {:induction false} GuardOpKeepsInv(s: State, op: Op)
    requires Inv(s)
    ensures Inv(s.(ops := s.ops + [op]))
  {
    var s' := s.(ops := s.ops + [op]);
    forall r | 0 <= r < |s'.runs| ensures RunOk(s', r) { assert RunOk(s, r); }
    forall t | 0 <= t < |s'.tasks| ensures TaskOk(s', t) { assert TaskOk(s, t); }
    forall d | 0 <= d < |s'.callers| ensures CallerOk(s', d) { assert CallerOk(s, d); }
  }

  lemma {:induction false} NextKeepsInv(s: State, step: Step, s': State)
    requires Inv(s) && Next(s, step, s')
    ensures Inv(s')
  {
    match step
    case Call(c, t) => CallKeepsInv(s, c, t);
    case ReadGeneration(c, now) => ReadGenerationKeepsInv(s, c, now);
    case Publish(c, sample, now) => PublishKeepsInv(s, c, sample, now);
    case WakeDone(_) => WakeKeepsInv(s, step, s');
    case WakeCanceled(_) => WakeKeepsInv(s, step, s');
    case Leave(c) => LeaveKeepsInv(s, c, s');
    case Cancel(_) => TaskStepKeepsInv(s, step, s');
    case Replace => TaskStepKeepsInv(s, step, s');
    case GuardOp(op) => GuardOpKeepsInv(s, op);
  }

  // ---------- What follows, over whole runs of the protocol ----------

  ghost predicate Execution(states: seq<State>, steps: seq<Step>) {
    && |states| == |steps| + 1
    && Init(states[0])
    && forall i :: 0 <= i < |steps| ==> Next(states[i], steps[i], states[i + 1])
  }

  lemma {:induction false} InvAlways(states: seq<State>, steps: seq<Step>, n: nat)
    requires Execution(states, steps) && n < |states|
    ensures Inv(states[n])
  {
    if n == 0 {
      InitInv(states[0]);
    } else {
      InvAlways(states, steps, n - 1);
      NextKeepsInv(states[n - 1], steps[n - 1], states[n]);
    }
  }

  // At most one probe of a task is in flight, and one caller executes it.
  lemma {:induction false} SingleFlight(states: seq<State>, steps: seq<Step>, n: nat, c: nat, d: nat, r: nat, q: nat)
    requires Execution(states, steps) && n < |states|
    requires c < |states[n].callers| && d < |states[n].callers|
    requires Executing(states[n].callers[c], r) && Executing(states[n].callers[d], q)
    ensures r < |states[n].runs| && q < |states[n].runs|
    ensures states[n].runs[r].task == states[n].runs[q].task ==> c == d && r == q
  {
    var s := states[n];
    InvAlways(states, steps, n);
    assert CallerOk(s, c) && CallerOk(s, d);
    assert RunOk(s, r) && RunOk(s, q);
  }

  // A waiter's run is closed, or it is in flight and its owner is still executing it.
  lemma {:induction false} NoWaiterLeftBehind(states: seq<State>, steps: seq<Step>, n: nat, c: nat)
    requires Execution(states, steps) && n < |states|
    requires c < |states[n].callers| && states[n].callers[c].Waiting?
    ensures var s, r := states[n], states[n].callers[c].run;
            && r < |s.runs|
            && (s.runs[r].done ||
                  (s.runs[r].task < |s.tasks| && s.tasks[s.runs[r].task].inflight == Some(r)
                   && s.runs[r].owner < |s.callers| && Executing(s.callers[s.runs[r].owner], r)))
  {
    InvAlways(states, steps, n);
    assert CallerOk(states[n], c) && RunOk(states[n], states[n].callers[c].run);
  }

  // Every answer that is not nil was computed by a run that added exactly one sample, from the
  // history up to and including that sample.
  lemma {:induction false} AnswersArePublished(states: seq<State>, steps: seq<Step>, n: nat, c: nat)
    returns (i: nat)
    requires Execution(states, steps) && n < |states|
    requires c < |states[n].callers| && states[n].callers[c].Answered? && states[n].callers[c].answer.Some?
    ensures var s, from := states[n], states[n].callers[c].from;
            && i < |s.published| && from == Some(s.published[i].0)
            && from.value < |s.runs| && s.runs[from.value].added == 1
            && states[n].callers[c].answer.value == Samples(s.published[..i + 1])
            && forall j :: 0 <= j < |s.published| && s.published[j].0 == from.value ==> j == i
  {
    var s := states[n];
    InvAlways(states, steps, n);
    assert CallerOk(s, c);
    var r := s.callers[c].from.value;
    assert RunOk(s, r) && IsPublished(s.published, r);
    i :| 0 <= i < |s.published| && s.published[i].0 == r;
    assert PublishedOk(s.runs, s.published, i);
    forall j | 0 <= j < |s.published| && s.published[j].0 == r ensures j == i {
      assert PublishedOk(s.runs, s.published, j);
    }
  }

  // A call is refused on a canceled task, joins the one run of the task that is in flight, or else
  // installs a new run that the caller owns.
  lemma {:induction false} CallIsAdmitted(states: seq<State>, steps: seq<Step>, n: nat, c: nat, t: nat)
    requires Execution(states, steps) && n < |steps| && steps[n] == Call(c, t)
    ensures var s, s' := states[n], states[n + 1];
            && t < |s.tasks| && c < |s'.callers|
            && (s.tasks[t].canceled ==> s'.callers[c] == Answered(None, None) && s'.runs == s.runs)
            && (!s.tasks[t].canceled ==>
                  var r := s'.callers[c].run;
                  && RunOf(s'.callers[c]) == Some(r) && r < |s'.runs| && s'.runs[r].task == t && !s'.runs[r].done
                  && s'.tasks[t].inflight == Some(r)
                  && (if s.tasks[t].inflight.Some? then s'.callers[c].Waiting? && s'.runs == s.runs && s.tasks[t].inflight == Some(r)
                      else s'.callers[c].Started? && r == |s.runs| && s'.runs[r].owner == c && |s'.runs| == |s.runs| + 1))
  {
    InvAlways(states, steps, n);
    assert Next(states[n], steps[n], states[n + 1]);
    assert TaskOk(states[n], t);
  }

  // The run that a caller executes, waits for or is about to answer from.
  function RunOf(caller: Caller): Option<nat> {
    match caller
    case Idle => None
    case Started(r) => Some(r)
    case Probing(r, _) => Some(r)
    case Waiting(r) => Some(r)
    case Leaving(r) => Some(r)
    case Answered(_, _) => None
  }

  predicate Calls(step: Step, c: nat) {
    step.Call? && step.c == c
  }

  // A caller sticks to its run until it has its answer, and a run to its task.
  lemma {:induction false} StepKeepsRun(s: State, step: Step, s': State, c: nat)
    requires Inv(s) && Next(s, step, s') && !Calls(step, c) && c < |s.callers|
    ensures |s'.callers| == |s.callers| && |s.runs| <= |s'.runs|
    ensures RunOf(s'.callers[c]).Some? ==> RunOf(s'.callers[c]) == RunOf(s.callers[c])
    ensures forall r :: 0 <= r < |s.runs| ==> s'.runs[r].task == s.runs[r].task
  {
  }

  lemma {:induction false} SameRunUntilAnswered(states: seq<State>, steps: seq<Step>, m: nat, n: nat, c: nat)
    requires Execution(states, steps) && m <= n < |states| && c < |states[m].callers|
    requires forall k :: m <= k < n ==> !Calls(steps[k], c)
    ensures c < |states[n].callers| && |states[m].runs| <= |states[n].runs|
    ensures RunOf(states[n].callers[c]).Some? ==> RunOf(states[n].callers[c]) == RunOf(states[m].callers[c])
    ensures forall r :: 0 <= r < |states[m].runs| ==> states[n].runs[r].task == states[m].runs[r].task
  {
    if m < n {
      SameRunUntilAnswered(states, steps, m, n - 1, c);
      InvAlways(states, steps, n - 1);
      StepKeepsRun(states[n - 1], steps[n - 1], states[n], c);
    }
  }

  // Whoever leaves, owner or waiter, has its run closed. On a live task the answer is the run's
  // result: the history up to the sample that the run published, and nil only if it published
  // none. On a canceled task it is nil.
  lemma {:induction false} LeaveAnswers(states: seq<State>, steps: seq<Step>, n: nat, c: nat)
    requires Execution(states, steps) && n < |steps| && steps[n] == Leave(c)
    ensures var s, after := states[n], states[n + 1].callers[c];
            && c < |s.callers| && RunOf(s.callers[c]).Some?
            && var r := RunOf(s.callers[c]).value;
               && r < |s.runs| && s.runs[r].done && s.runs[r].task < |s.tasks| && after.Answered?
               && (s.tasks[s.runs[r].task].canceled ==> after.answer == None)
               && (!s.tasks[s.runs[r].task].canceled ==>
                     && after.answer == s.runs[r].result
                     && (after.answer == None <==> !IsPublished(s.published, r))
                     && forall i :: 0 <= i < |s.published| && s.published[i].0 == r ==> after.answer == Some(Samples(s.published[..i + 1])))
  {
    var s := states[n];
    InvAlways(states, steps, n);
    assert Next(s, steps[n], states[n + 1]) && CallerOk(s, c);
    var r := s.callers[c].run;
    assert RunOk(s, r);
    forall i | 0 <= i < |s.published| && s.published[i].0 == r ensures s.runs[r].result == Some(Samples(s.published[..i + 1])) {
      assert PublishedOk(s.runs, s.published, i);
    }
  }

  // A caller of a task that is not answered at once leaves with the answer of the run it was
  // admitted to, which is a run of that task.
  lemma {:induction false} CallIsAnswered(states: seq<State>, steps: seq<Step>, m: nat, n: nat, c: nat, t: nat)
    requires Execution(states, steps) && m < n < |steps| && steps[m] == Call(c, t) && steps[n] == Leave(c)
    requires forall k :: m < k < n ==> !Calls(steps[k], c)
    ensures var s, after := states[n], states[n + 1].callers[c];
            && c < |states[m + 1].callers| && RunOf(states[m + 1].callers[c]).Some?
            && var r := RunOf(states[m + 1].callers[c]).value;
               && r < |s.runs| && s.runs[r].task == t && t < |s.tasks|
               && after.Answered? && after.answer == if s.tasks[t].canceled then None else s.runs[r].result
  {
    CallIsAdmitted(states, steps, m, c, t);
    SameRunUntilAnswered(states, steps, m + 1, n, c);
    LeaveAnswers(states, steps, n, c);
  }

  // A nil answer, in whatever way a caller comes to it, means that the task was canceled by then or
  // that the run closed without publishing.
  lemma {:induction false} NilMeansNothing(states: seq<State>, steps: seq<Step>, n: nat, c: nat)
    requires Execution(states, steps) && n < |steps| && c < |states[n].callers| && RunOf(states[n].callers[c]).Some?
    requires c < |states[n + 1].callers| && states[n + 1].callers[c].Answered? && states[n + 1].callers[c].answer == None
    ensures var s, r := states[n], RunOf(states[n].callers[c]).value;
            && r < |s.runs| && s.runs[r].task < |s.tasks|
            && (s.tasks[s.runs[r].task].canceled || (s.runs[r].done && !IsPublished(s.published, r)))
  {
    var s := states[n];
    InvAlways(states, steps, n);
    assert Next(s, steps[n], states[n + 1]) && CallerOk(s, c);
    assert RunOk(s, RunOf(s.callers[c]).value);
    if steps[n] == Leave(c) {
      LeaveAnswers(states, steps, n, c);
    }
  }

  // Nobody is stuck: a caller without a run may call any task; one that executes a run or has been
  // woken can go on, whatever its probe and the clock give; and one that waits can go on as soon as
  // the run's owner has, which can itself go on.
  lemma {:induction false} CallersGoOn(states: seq<State>, steps: seq<Step>, n: nat, c: nat, t: nat, sample: Sample, now: int)
    requires Execution(states, steps) && n < |states| && c < |states[n].callers| && t < |states[n].tasks|
    ensures var s := states[n];
            match s.callers[c]
            case Idle => Next(s, Call(c, t), DoCall(s, c, t))
            case Answered(_, _) => Next(s, Call(c, t), DoCall(s, c, t))
            case Started(_) => Next(s, ReadGeneration(c, now), DoReadGeneration(s, c, now))
            case Probing(_, _) => Enabled(s, Publish(c, sample, now)) && exists s' :: Next(s, Publish(c, sample, now), s')
            case Waiting(r) =>
              && r < |s.runs| && s.runs[r].owner < |s.callers|
              && (Enabled(s, WakeDone(c)) || Executing(s.callers[s.runs[r].owner], r))
              && (s.runs[r].task < |s.tasks| && s.tasks[s.runs[r].task].canceled ==> Enabled(s, WakeCanceled(c)))
            case Leaving(_) => Enabled(s, Leave(c)) && exists s' :: Next(s, Leave(c), s')
  {
    var s := states[n];
    InvAlways(states, steps, n);
    assert CallerOk(s, c);
    match s.callers[c] {
      case Probing(r, _) =>
        assert RunOk(s, r);
        assert Next(s, Publish(c, sample, now), DoPublish(s, c, sample, now));
      case Waiting(r) => assert RunOk(s, r);
      case Leaving(r) =>
        assert RunOk(s, r);
        assert Next(s, Leave(c), DoLeave(s, c));
      case _ =>
    }
  }

  // Along a chain of replacements no sample is lost or doubled: the newest task's history holds
  // exactly one sample for each run of the whole chain that recorded one.
  lemma {:induction false} ChainConservesSamples(states: seq<State>, steps: seq<Step>, n: nat)
    requires Execution(states, steps) && n < |states|
    ensures var s := states[n];
            && s.tasks != []
            && |s.tasks[|s.tasks| - 1].log| == Added(s.runs)
            && s.tasks[|s.tasks| - 1].log == Samples(s.published)
            && forall r :: 0 <= r < |s.runs| ==> s.runs[r].added <= 1 && (s.runs[r].added == 1 <==> IsPublished(s.published, r))
  {
    var s := states[n];
    InvAlways(states, steps, n);
    forall r | 0 <= r < |s.runs| ensures s.runs[r].added <= 1 && (s.runs[r].added == 1 <==> IsPublished(s.published, r)) {
      assert RunOk(s, r);
      if IsPublished(s.published, r) {
        var i :| 0 <= i < |s.published| && s.published[i].0 == r;
        assert PublishedOk(s.runs, s.published, i);
      }
    }
  }

  lemma {:induction false} CanceledStepFrozen(s: State, step: Step, s': State, t: nat)
    requires Next(s, step, s') && t < |s.tasks| && s.tasks[t].canceled
    ensures t < |s'.tasks| && s'.tasks[t].canceled && s'.tasks[t].log == s.tasks[t].log
  {
  }

  // After cancel a task's history never changes again, whatever its probes still do.
  lemma {:induction false} CanceledHistoryFrozen(states: seq<State>, steps: seq<Step>, m: nat, n: nat, t: nat)
    requires Execution(states, steps) && m <= n < |states|
    requires t < |states[m].tasks| && states[m].tasks[t].canceled
    ensures t < |states[n].tasks| && states[n].tasks[t].canceled && states[n].tasks[t].log == states[m].tasks[t].log
  {
    if m < n {
      CanceledHistoryFrozen(states, steps, m, n - 1, t);
      CanceledStepFrozen(states[n - 1], steps[n - 1], states[n], t);
    }
  }

  // The guard's operations in the first n steps: those of others, and the observations of probes.
  function OpsOf(steps: seq<Step>, n: nat): seq<Op>
    requires n <= |steps|
  {
    if n == 0 then []
    else
      var before := OpsOf(steps, n - 1);
      match steps[n - 1]
      case GuardOp(op) => before + [op]
      case ReadGeneration(_, now) => before + [Observe(now)]
      case Publish(_, _, now) => before + [Observe(now)]
      case _ => before
  }

  lemma {:induction false} GuardSeesAll(states: seq<State>, steps: seq<Step>, n: nat)
    requires Execution(states, steps) && n < |states|
    ensures states[n].ops == OpsOf(steps, n)
  {
    if n > 0 {
      assert Next(states[n - 1], steps[n - 1], states[n]);
      GuardSeesAll(states, steps, n - 1);
    }
  }

  // A task is canceled exactly if it was asked to.
  lemma {:induction false} CanceledIffAsked(states: seq<State>, steps: seq<Step>, n: nat, t: nat)
    requires Execution(states, steps) && n < |states| && t < |states[n].tasks|
    ensures states[n].tasks[t].canceled <==> exists k :: 0 <= k < n && steps[k] == Cancel(t)
  {
    if n > 0 {
      assert Next(states[n - 1], steps[n - 1], states[n]);
      if t < |states[n - 1].tasks| {
        CanceledIffAsked(states, steps, n - 1, t);
      } else {
        NotYetAsked(states, steps, n - 1, t);
      }
    }
  }

  lemma {:induction false} NotYetAsked(states: seq<State>, steps: seq<Step>, n: nat, t: nat)
    requires Execution(states, steps) && n < |states| && t >= |states[n].tasks|
    ensures forall k :: 0 <= k < n ==> steps[k] != Cancel(t)
  {
    if n > 0 {
      assert Next(states[n - 1], steps[n - 1], states[n]);
      NotYetAsked(states, steps, n - 1, t);
    }
  }

  // A replacement is live, with nothing in flight, and goes on from its predecessor's history.
  lemma {:induction false} ReplacementGoesOn(states: seq<State>, steps: seq<Step>, n: nat)
    requires Execution(states, steps) && n < |steps| && steps[n] == Replace
    ensures var s, s' := states[n], states[n + 1];
            && s.tasks != [] && s'.tasks[..|s.tasks|] == s.tasks && |s'.tasks| == |s.tasks| + 1
            && var task := s'.tasks[|s.tasks|];
               !task.canceled && task.inflight.None? && task.log == s.tasks[|s.tasks| - 1].log
  {
    assert Next(states[n], steps[n], states[n + 1]);
  }

  lemma {:induction false} StepOnlyAdds(s: State, step: Step, s': State, t: nat)
    requires Next(s, step, s') && t < |s.tasks|
    ensures t < |s'.tasks| && s.tasks[t].log <= s'.tasks[t].log && (s.tasks[t].canceled ==> s'.tasks[t].canceled)
  {
  }

  // Until then it only grows.
  lemma {:induction false} HistoryOnlyGrows(states: seq<State>, steps: seq<Step>, m: nat, n: nat, t: nat)
    requires Execution(states, steps) && m <= n < |states| && t < |states[m].tasks|
    ensures t < |states[n].tasks| && states[m].tasks[t].log <= states[n].tasks[t].log
    ensures states[m].tasks[t].canceled ==> states[n].tasks[t].canceled
  {
    if m < n {
      HistoryOnlyGrows(states, steps, m, n - 1, t);
      StepOnlyAdds(states[n - 1], steps[n - 1], states[n], t);
    }
  }

  lemma {:induction false} GenerationInRange(ops: seq<Op>)
    ensures After(FRESH_GUARD, ops).generation < WRAP
  {
    if ops != [] {
      GenerationInRange(ops[..|ops| - 1]);
    }
  }

  // A finished probe of a live task records its sample exactly when nothing broke the guard's run
  // between its two readings of the generation (fewer than 2^32 operations apart).
  lemma {:induction false} RecordsIffQuiet(s: State, c: nat, sample: Sample, now: int, s': State)
    requires Next(s, Publish(c, sample, now), s')
    requires !s.tasks[s.runs[s.callers[c].run].task].canceled
    requires |s.ops| + 1 - s.callers[c].since < WRAP
    ensures var since := s.callers[c].since;
            s'.published == s.published + [(s.callers[c].run, sample)] <==>
            Quiet(After(FRESH_GUARD, s.ops[..since]), s.ops[since..] + [Observe(now)])
  {
    var since := s.callers[c].since;
    var between := s.ops[since..] + [Observe(now)];
    assert s.ops + [Observe(now)] == s.ops[..since] + between;
    AfterAppend(FRESH_GUARD, s.ops[..since], between);
    GenerationInRange(s.ops[..since]);
    EqualGenerationMeansQuiet(After(FRESH_GUARD, s.ops[..since]), between);
  }

  predicate Publishes(step: Step, c: nat) {
    step.Publish? && step.c == c
  }

  // Between its two readings the caller keeps the first one, and the guard goes on.
  lemma {:induction false} KeepsReading(states: seq<State>, steps: seq<Step>, m: nat, n: nat, c: nat)
    requires Execution(states, steps) && m <= n < |states| && c < |states[m].callers| && states[m].callers[c].Probing?
    requires forall k :: m <= k < n ==> !Publishes(steps[k], c)
    ensures c < |states[n].callers| && states[n].callers[c] == states[m].callers[c]
    ensures states[m].ops <= states[n].ops
  {
    if m < n {
      KeepsReading(states, steps, m, n - 1, c);
      assert Next(states[n - 1], steps[n - 1], states[n]);
    }
  }

  // Over whole runs: a probe that reads the generation, and later closes its run on a live task,
  // records its sample exactly when nothing broke the guard's run from the one reading to the
  // other. On a canceled task it records none.
  lemma {:induction false} ProbeRecordsIffQuiet(states: seq<State>, steps: seq<Step>, m: nat, n: nat, c: nat, read: int, sample: Sample, now: int)
    requires Execution(states, steps) && m < n < |steps|
    requires steps[m] == ReadGeneration(c, read) && steps[n] == Publish(c, sample, now)
    requires forall k :: m < k < n ==> !Publishes(steps[k], c)
    requires |states[n].ops| - |states[m].ops| < WRAP
    ensures var s, s' := states[n], states[n + 1];
            && states[m + 1].ops == states[m].ops + [Observe(read)] && states[m + 1].ops <= s.ops
            && c < |states[m].callers| && RunOf(states[m].callers[c]).Some?
            && var r := RunOf(states[m].callers[c]).value;
            && r < |s.runs| && s.runs[r].task < |s.tasks|
            && (s.tasks[s.runs[r].task].canceled ==> s'.published == s.published)
            && (!s.tasks[s.runs[r].task].canceled ==>
                  var between := s.ops[|states[m + 1].ops|..] + [Observe(now)];
                  s'.published == s.published + (if Quiet(After(FRESH_GUARD, states[m + 1].ops), between) then [(r, sample)] else []))
  {
    assert Next(states[m], steps[m], states[m + 1]) && Next(states[n], steps[n], states[n + 1]);
    KeepsReading(states, steps, m + 1, n, c);
    var s, since := states[n], |states[m + 1].ops|;
    assert s.callers[c].since == since && s.ops[..since] == states[m + 1].ops;
    if !s.tasks[s.runs[s.callers[c].run].task].canceled {
      RecordsIffQuiet(s, c, sample, now, states[n + 1]);
    }
  }

  lemma {:induction false} SuspendedIsNotQuiet(g: Guard, before: seq<Op>, now: int, asleep: int, awake: int)
    requires g.running && g.lastTick <= asleep && awake - asleep > 20_000_000_000 && now >= awake
    requires NothingObservedBetween(before, asleep, awake)
    ensures !Quiet(g, before + [Observe(now)])
  {
    var between := before + [Observe(now)];
    assert NothingObservedBetween(between, asleep, awake) by {
      forall i | 0 <= i < |between| && (between[i].Observe? || between[i].Start?)
        ensures between[i].now <= asleep || awake <= between[i].now
      {
        if i < |before| { assert between[i] == before[i]; }
      }
    }
    assert between[..|before|] == before;
    if Quiet(g, between) {
      QuietPrefix(g, between, |before|);
      QuietKeepsRunning(g, before);
      SuspendIsDetected(g, between, asleep, awake);
    }
  }

  // So a probe that spans a suspend of more than 20 seconds never records a sample.
  lemma {:induction false} SuspendedProbeIsDiscarded(s: State, c: nat, sample: Sample, now: int, s': State, asleep: int, awake: int)
    requires Next(s, Publish(c, sample, now), s')
    requires |s.ops| + 1 - s.callers[c].since < WRAP
    requires var g := After(FRESH_GUARD, s.ops[..s.callers[c].since]); g.running && g.lastTick <= asleep
    requires awake - asleep > 20_000_000_000 && now >= awake
    requires NothingObservedBetween(s.ops[s.callers[c].since..], asleep, awake)
    ensures s'.published == s.published
    ensures s'.tasks[|s'.tasks| - 1].log == s.tasks[|s.tasks| - 1].log
  {
    var since := s.callers[c].since;
    SuspendedIsNotQuiet(After(FRESH_GUARD, s.ops[..since]), s.ops[since..], now, asleep, awake);
    if !s.tasks[s.runs[s.callers[c].run].task].canceled {
      RecordsIffQuiet(s, c, sample, now, s');
    }
  }

  // ---------- The task object ----------

  // What `record` returns for a sample taken now.
  ghost function MinuteReport(log: seq<Sample>, now: Instant): Option<Report> {
    ReportFor(RetainedBy(log), RingOf(log), |log|, MINUTE, now)
  }

  // The result that stands for an answer of the protocol.
  ghost function ResultOf(answer: Option<Answer>): Option<Report> {
    match answer
    case None => None
    case Some(log) => if log == [] then None else MinuteReport(log, log[|log| - 1].timestamp)
  }

  // `id` is the run's place in the protocol.
  class MonitorRun {
    ghost const id: nat
    var done: bool
    var result: Option<Report>

    ghost predicate Shows(s: State)
      reads this
    {
      id < |s.runs| && done == s.runs[id].done && result == ResultOf(s.runs[id].result)
    }

    constructor (ghost id: nat)
      ensures this.id == id && !done && result == None
    {
      this.id, done, result := id, false, None;
    }
  }

  datatype Admission = Refused | Joined(run: MonitorRun) | Owned(run: MonitorRun)

  // The run a task points to is open, has no result, and belongs to that task.
  lemma {:induction false} OwnRun(s: State, t: nat, c: nat)
    requires Inv(s) && t < |s.tasks| && c < |s.callers| && s.callers[c].Probing?
    requires s.tasks[t].inflight == Some(s.callers[c].run)
    ensures var r := s.callers[c].run; r < |s.runs| && s.runs[r].task == t && !s.runs[r].done && s.runs[r].result.None?
  {
    assert TaskOk(s, t);
    assert RunOk(s, s.callers[c].run);
  }

  // Where a caller is in the protocol after it was admitted.
  ghost predicate Admits(a: Admission, s: State, c: nat)
    requires c < |s.callers|
    reads if a.Refused? then {} else {a.run}
  {
    match a
    case Refused => s.callers[c] == Answered(None, None)
    case Joined(run) => s.callers[c] == Waiting(run.id) && run.Shows(s)
    case Owned(run) => s.callers[c] == Started(run.id) && run.Shows(s)
  }

  // Task `t` of the protocol as an object. Each method is one locked section and takes the object
  // from showing a state to showing the state after the step.
  class MonitorTask {
    const history: History
    const resumeGuard: MonitorResumeGuard
    var canceled: bool
    var inflight: MonitorRun?

    ghost predicate Shows(s: State, t: nat)
      reads this, history, history.buffer, history.buckets, resumeGuard, inflight
    {
      && history.Valid() && resumeGuard.Valid()
      && t < |s.tasks|
      && canceled == s.tasks[t].canceled && history.log == s.tasks[t].log
      && resumeGuard.State() == After(FRESH_GUARD, s.ops)
      && s.tasks[t].inflight == (if inflight == null then None else Some(inflight.id))
      && (inflight != null ==> inflight.Shows(s))
    }

    constructor (history: History, resumeGuard: MonitorResumeGuard)
      ensures this.history == history && this.resumeGuard == resumeGuard
      ensures !canceled && inflight == null
    {
      this.history := history;
      this.resumeGuard := resumeGuard;
      canceled := false;
      inflight := null;
    }

    // A task for a new configuration, which takes over a copy of the history.
    static method FromExisting(existing: MonitorTask, ghost s: State) returns (task: MonitorTask)
      requires Enabled(s, Replace) && existing.Shows(s, |s.tasks| - 1)
      ensures fresh(task) && fresh(task.history) && task.Shows(DoReplace(s), |s.tasks|)
    {
      var copy := existing.history.Clone();
      task := new MonitorTask(copy, existing.resumeGuard);
    }

    // Cancellation takes the same lock as publication, so it falls before or after it.
    method Cancel(ghost s: State, ghost t: nat)
      requires Shows(s, t)
      modifies this`canceled
      ensures Shows(DoCancel(s, t), t)
    {
      canceled := true;
    }

    // The locked section that opens runProbe.
    method Enter(ghost s: State, ghost t: nat, ghost c: nat) returns (a: Admission)
      requires Shows(s, t) && Inv(s) && Enabled(s, Call(c, t))
      modifies this`inflight
      ensures Shows(DoCall(s, c, t), t) && Admits(a, DoCall(s, c, t), c)
    {
      if canceled {
        return Refused;
      }
      if inflight != null {
        return Joined(inflight);
      }
      var run := new MonitorRun(|s.runs|);
      inflight := run;
      return Owned(run);
    }

    // The generation a probe starts from.
    method ReadGeneration(now: int, ghost s: State, ghost t: nat, ghost c: nat) returns (generation: nat)
      requires Shows(s, t) && Enabled(s, Step.ReadGeneration(c, now))
      modifies resumeGuard
      ensures var s' := DoReadGeneration(s, c, now);
              Shows(s', t) && generation == GenerationAfter(s'.ops, s'.callers[c].since)
    {
      AfterAppend(FRESH_GUARD, s.ops, [Observe(now)]);
      var current, _ := resumeGuard.Snapshot(now);
      generation := current;
      ghost var ops := s.ops + [Observe(now)];
      assert ops[..|ops|] == ops;
    }

    method Publish(run: MonitorRun, sample: Sample)
      requires history.Valid()
      modifies run`result, history, history.buffer, history.buckets
      ensures history.Valid() && history.log == old(history.log) + [sample]
      ensures run.result == ResultOf(Some(history.log)) && run.result.Some?
    {
      var report := history.Record(sample);
      run.result := Some(report);
    }

    // The locked section that closes a run. The sample is recorded, and its report published,
    // unless the task was canceled or the guard's generation moved since the run started.
    method Finish(run: MonitorRun, generation: nat, sample: Sample, now: int, ghost s: State, ghost t: nat, ghost c: nat)
      requires Shows(s, t) && Inv(s) && Enabled(s, Step.Publish(c, sample, now))
      requires inflight == run && s.callers[c].run == run.id && s.callers[c].since <= |s.ops|
      requires generation == GenerationAfter(s.ops, s.callers[c].since)
      modifies this`inflight, run, history, history.buffer, history.buckets, resumeGuard
      ensures run.id < |s.runs| && s.runs[run.id].task == t
      ensures var s' := DoPublish(s, c, sample, now); Shows(s', t) && run.Shows(s')
    {
      OwnRun(s, t, c);
      AfterAppend(FRESH_GUARD, s.ops, [Observe(now)]);
      var current, _ := resumeGuard.Snapshot(now);
      if !canceled && generation == current {
        Publish(run, sample);
      }
      inflight := null;
      run.done := true;
    }

    // The last look at the context, and what the caller returns.
    method Leave(run: MonitorRun, ghost s: State, ghost t: nat, ghost c: nat) returns (report: Option<Report>)
      requires Shows(s, t) && run.Shows(s) && Enabled(s, Step.Leave(c))
      requires s.callers[c].run == run.id && s.runs[run.id].task == t
      ensures report == ResultOf(DoLeave(s, c).callers[c].answer)
      ensures report == if s.tasks[t].canceled then None else ResultOf(s.runs[run.id].result)
    {
      report := if canceled then None else run.result;
    }
  }
}
