/** The certificate slot of a monitor task: checks that run without the lock, one at a time, and
    results that carry each new certificate once. Steps are the locked sections; callers, checks
    and cancellation interleave. */
module CertSlot {
  import opened Wrappers

  // Times are nanoseconds of the monotonic clock.
  const CHECK_INTERVAL := 3600 * 1_000_000_000

  // A certificate, by the data a check reads from it.
  type Info = int

  // `checks` holds the start of every check and `ends` when it ended, `found` what each successful
  // check that counted read, `sent` which of those were handed out, in order.
  datatype State = State(
    enabled: bool, inherited: Option<Info>,
    cert: Option<Info>, unsent: bool, checking: bool, nextCheck: Option<int>, canceled: bool, now: int,
    checks: seq<int>, ends: seq<int>, found: seq<Info>, sent: seq<int>)

  datatype Step =
    | Advance(delay: nat)
    | Refresh // begins a check if one is due; otherwise nothing
    | CheckDone(result: Option<Info>) // None: the check failed
    | Take
    | Cancel

  predicate Enabled(s: State, step: Step) {
    step.CheckDone? ==> s.checking
  }

  predicate IsDue(s: State) {
    s.enabled && !s.checking && (s.nextCheck.None? || s.now >= s.nextCheck.value)
  }

  function DoCheckDone(s: State, result: Option<Info>): State {
    var done := s.(checking := false, ends := s.ends + [s.now]);
    if s.canceled then done
    else
      var next := done.(nextCheck := Some(s.now + CHECK_INTERVAL));
      if result.None? then next
      else next.(cert := result, unsent := true, found := s.found + [result.value])
  }

  function Next(s: State, step: Step): State
    requires Enabled(s, step)
  {
    match step
    case Advance(d) => s.(now := s.now + d)
    case Refresh => if IsDue(s) then s.(checking := true, checks := s.checks + [s.now]) else s
    case CheckDone(result) => DoCheckDone(s, result)
    case Take => if s.unsent then s.(unsent := false, sent := s.sent + [|s.found| - 1]) else s
    case Cancel => s.(canceled := true)
  }

  // A replacement keeps the certificate of its predecessor if the target is the same. The hub
  // has it, so it is not unsent.
  function Initial(enabled: bool, inherited: Option<Info>, now: int): State {
    State(enabled, inherited, inherited, false, false, None, false, now, [], [], [], [])
  }

  // ---------- Invariants ----------

  // Certificates are handed out in order, each once, and the flag says whether the last is to come.
  ghost predicate HandedOut(found: seq<Info>, sent: seq<int>, unsent: bool) {
    && (forall i, j :: 0 <= i < j < |sent| ==> sent[i] < sent[j])
    && (forall i :: 0 <= i < |sent| ==> 0 <= sent[i] < |found|)
    && (unsent <==> found != [] && (sent == [] || sent[|sent| - 1] < |found| - 1))
  }

  predicate HoldsLast(cert: Option<Info>, inherited: Option<Info>, found: seq<Info>) {
    cert == if found == [] then inherited else Some(found[|found| - 1])
  }

  // Checks do not overlap, and each waits for an hour after the one before it ended.
  ghost predicate Spaced(checks: seq<int>, ends: seq<int>) {
    && |ends| <= |checks| <= |ends| + 1
    && (forall i :: 0 <= i < |ends| ==> checks[i] <= ends[i])
    && (forall i :: 0 < i < |checks| ==> ends[i - 1] + CHECK_INTERVAL <= checks[i])
  }

  ghost predicate Timed(checks: seq<int>, ends: seq<int>, checking: bool, nextCheck: Option<int>) {
    && |checks| == |ends| + (if checking then 1 else 0)
    && Spaced(checks, ends)
    && nextCheck == if ends == [] then None else Some(ends[|ends| - 1] + CHECK_INTERVAL)
  }

  ghost predicate Inv(s: State) {
    && HoldsLast(s.cert, s.inherited, s.found)
    && HandedOut(s.found, s.sent, s.unsent)
    && (s.checking ==> s.checks != [] && s.checks[|s.checks| - 1] <= s.now)
    && (!s.canceled ==> Timed(s.checks, s.ends, s.checking, s.nextCheck))
  }

  lemma {:induction false} CheckBegins(checks: seq<int>, ends: seq<int>, nextCheck: Option<int>, now: int)
    requires Timed(checks, ends, false, nextCheck) && (nextCheck.None? || now >= nextCheck.value)
    ensures Timed(checks + [now], ends, true, nextCheck)
  {
  }

  lemma {:induction false} CheckEnds(checks: seq<int>, ends: seq<int>, nextCheck: Option<int>, now: int)
    requires Timed(checks, ends, true, nextCheck) && checks[|checks| - 1] <= now
    ensures Timed(checks, ends + [now], false, Some(now + CHECK_INTERVAL))
  {
  }

  lemma {:induction false} CertFound(found: seq<Info>, sent: seq<int>, unsent: bool, info: Info)
    requires HandedOut(found, sent, unsent)
    ensures HandedOut(found + [info], sent, true)
  {
  }

  lemma {:induction false} CertTaken(found: seq<Info>, sent: seq<int>)
    requires HandedOut(found, sent, true)
    ensures HandedOut(found, sent + [|found| - 1], false)
  {
    forall i | 0 <= i < |sent| ensures sent[i] < |found| - 1 {
      assert i < |sent| - 1 ==> sent[i] < sent[|sent| - 1];
    }
  }

  lemma {:induction false} CheckDoneKeepsInv(s: State, result: Option<Info>)
    requires Inv(s) && s.checking
    ensures Inv(DoCheckDone(s, result))
  {
    if !s.canceled {
      CheckEnds(s.checks, s.ends, s.nextCheck, s.now);
      if result.Some? {
        CertFound(s.found, s.sent, s.unsent, result.value);
      }
    }
  }

  lemma {:induction false} NextKeepsInv(s: State, step: Step)
    requires Inv(s) && Enabled(s, step)
    ensures Inv(Next(s, step))
  {
    match step
    case Advance(_) =>
    case Refresh =>
      if IsDue(s) && !s.canceled {
        CheckBegins(s.checks, s.ends, s.nextCheck, s.now);
      }
    case CheckDone(result) => CheckDoneKeepsInv(s, result);
    case Take =>
      if s.unsent {
        CertTaken(s.found, s.sent);
      }
    case Cancel =>
  }

  ghost predicate Execution(states: seq<State>, steps: seq<Step>) {
    && |states| == |steps| + 1
    && states[0] == Initial(states[0].enabled, states[0].inherited, states[0].now)
    && forall i {:trigger Enabled(states[i], steps[i])} ::
         0 <= i < |steps| ==> Enabled(states[i], steps[i]) && states[i + 1] == Next(states[i], steps[i])
  }

  lemma {:induction false} InvAlways(states: seq<State>, steps: seq<Step>, n: nat)
    requires Execution(states, steps) && n < |states|
    ensures Inv(states[n])
  {
    if n > 0 {
      InvAlways(states, steps, n - 1);
      assert Enabled(states[n - 1], steps[n - 1]);
      NextKeepsInv(states[n - 1], steps[n - 1]);
    }
  }

  // The time that has passed in the first n steps.
  function Elapsed(steps: seq<Step>, n: nat): nat
    requires n <= |steps|
  {
    if n == 0 then 0
    else Elapsed(steps, n - 1) + match steps[n - 1] case Advance(d) => d case _ => 0
  }

  ghost predicate CanceledBy(steps: seq<Step>, n: nat)
    requires n <= |steps|
  {
    exists k :: 0 <= k < n && steps[k].Cancel?
  }

  // The certificates that checks have read, up to the cancellation.
  ghost function ReadBy(steps: seq<Step>, n: nat): seq<Info>
    requires n <= |steps|
  {
    if n == 0 then []
    else
      ReadBy(steps, n - 1) +
      match steps[n - 1]
      case CheckDone(Some(info)) => if CanceledBy(steps, n - 1) then [] else [info]
      case _ => []
  }

  // What the state records is what has happened: the time, the cancellation, the certificates
  // read, and the check that is running.
  lemma {:induction false} RecordsWhatHappened(states: seq<State>, steps: seq<Step>, n: nat)
    requires Execution(states, steps) && n < |states|
    ensures var s := states[n];
            && s.enabled == states[0].enabled && s.inherited == states[0].inherited
            && s.now == states[0].now + Elapsed(steps, n)
            && (s.canceled <==> CanceledBy(steps, n))
            && s.found == ReadBy(steps, n)
            && |s.checks| == |s.ends| + if s.checking then 1 else 0
  {
    if n > 0 {
      RecordsWhatHappened(states, steps, n - 1);
      assert Enabled(states[n - 1], steps[n - 1]);
      assert CanceledBy(steps, n) <==> CanceledBy(steps, n - 1) || steps[n - 1].Cancel?;
    }
  }

  // A check begins exactly when it may: not while one runs, and at the first request that comes an
  // hour after the last one ended, or later.
  lemma {:induction false} CheckBeginsWhenDue(states: seq<State>, steps: seq<Step>, n: nat)
    requires Execution(states, steps) && n < |steps| && steps[n] == Refresh && !states[n].canceled
    ensures var s, s' := states[n], states[n + 1];
            var due := |s.checks| == |s.ends| && (s.ends == [] || s.now >= s.ends[|s.ends| - 1] + 3_600_000_000_000);
            && s'.checks == s.checks + (if s.enabled && due then [s.now] else [])
            && (s'.checking <==> |s'.checks| > |s'.ends|) && s'.ends == s.ends
  {
    InvAlways(states, steps, n);
    assert Enabled(states[n], steps[n]);
  }

  lemma {:induction false} CheckEndsWhenDone(states: seq<State>, steps: seq<Step>, n: nat)
    requires Execution(states, steps) && n < |steps| && steps[n].CheckDone?
    ensures states[n + 1].ends == states[n].ends + [states[n].now] && !states[n + 1].checking
    ensures states[n + 1].checks == states[n].checks
  {
    assert Enabled(states[n], steps[n]);
  }

  // A result carries the latest certificate exactly if one was found that no result has carried;
  // afterwards there is none.
  lemma {:induction false} TakeCarriesNew(states: seq<State>, steps: seq<Step>, n: nat)
    requires Execution(states, steps) && n < |steps| && steps[n] == Take
    ensures var s, s' := states[n], states[n + 1];
            var isNew := s.found != [] && |s.found| - 1 !in s.sent;
            && s'.sent == s.sent + (if isNew then [|s.found| - 1] else [])
            && !s'.unsent && s'.found == s.found && s'.cert == s.cert
  {
    assert Enabled(states[n], steps[n]);
    EachCertSentOnce(states, steps, n);
  }

  // What `takeUnsentCert` has handed out: each successful check at most once and in order, and the
  // latest one either already, or by the next result. An immediate probe reads the slot as well,
  // without taking anything.
  lemma {:induction false} EachCertSentOnce(states: seq<State>, steps: seq<Step>, n: nat)
    requires Execution(states, steps) && n < |states|
    ensures var s := states[n];
            && (forall i, j :: 0 <= i < j < |s.sent| ==> s.sent[i] < s.sent[j] < |s.found|)
            && (s.found != [] && !s.unsent ==> s.sent != [] && s.sent[|s.sent| - 1] == |s.found| - 1)
            && (s.unsent ==> s.found != [] && |s.found| - 1 !in s.sent)
  {
    InvAlways(states, steps, n);
    var s := states[n];
    if s.unsent {
      forall i | 0 <= i < |s.sent| ensures s.sent[i] != |s.found| - 1 {
        assert i < |s.sent| - 1 ==> s.sent[i] < s.sent[|s.sent| - 1];
      }
    }
  }

  // A failed check keeps the certificate there was; the slot always holds the last one found.
  lemma {:induction false} LastCertIsKept(states: seq<State>, steps: seq<Step>, n: nat)
    requires Execution(states, steps) && n < |states|
    ensures var s := states[n]; s.cert == if s.found == [] then s.inherited else Some(s.found[|s.found| - 1])
  {
    InvAlways(states, steps, n);
  }

  // While the task is not canceled, checks never overlap and start an hour or more apart.
  lemma {:induction false} ChecksAreSpaced(states: seq<State>, steps: seq<Step>, n: nat, i: nat, j: nat)
    requires Execution(states, steps) && n < |states| && !states[n].canceled && i < j < |states[n].checks|
    ensures i < |states[n].ends| && states[n].ends[i] + CHECK_INTERVAL <= states[n].checks[j]
    decreases j
  {
    InvAlways(states, steps, n);
    if i + 1 < j {
      ChecksAreSpaced(states, steps, n, i, j - 1);
    }
  }

  // ---------- The slot ----------

  class CertSlot {
    const enabled: bool
    var cert: Option<Info>
    var certUnsent: bool
    var certChecking: bool
    var nextCertCheck: Option<int>
    ghost var was: State

    ghost predicate Valid()
      reads this
    {
      && Inv(was) && enabled == was.enabled
      && cert == was.cert && certUnsent == was.unsent && certChecking == was.checking && nextCertCheck == was.nextCheck
    }

    constructor (enabled: bool, inherited: Option<Info>, now: int)
      ensures Valid() && was == Initial(enabled, inherited, now)
    {
      this.enabled, cert, certUnsent, certChecking, nextCertCheck := enabled, inherited, false, false, None;
      was := Initial(enabled, inherited, now);
    }

    // The slot of a task that replaces another one. For the same target it keeps the certificate
    // last known there, which the hub has; a check is due at once either way.
    static method FromExisting(enabled: bool, target: string, existing: CertSlot, existingTarget: string, now: int)
      returns (slot: CertSlot)
      requires existing.Valid()
      ensures fresh(slot) && slot.Valid() && slot.was == Initial(enabled, slot.was.inherited, now)
      ensures slot.was.inherited ==
                if target != existingTarget then None
                else if existing.was.found == [] then existing.was.inherited
                else Some(existing.was.found[|existing.was.found| - 1])
      ensures slot.cert == slot.was.inherited && !slot.certUnsent && (IsDue(slot.was) <==> enabled)
    {
      var known := None;
      if target == existingTarget {
        known := existing.CertInfo();
      }
      slot := new CertSlot(enabled, known, now);
    }

    // The first locked section of refreshCert: whether to go on and check.
    method BeginCheck(now: int) returns (check: bool)
      requires Valid() && now == was.now
      modifies this
      ensures Valid() && was == Next(old(was), Refresh)
      ensures check <==> IsDue(old(was))
    {
      NextKeepsInv(was, Refresh);
      if !enabled || certChecking || (nextCertCheck.Some? && now < nextCertCheck.value) {
        was := Next(was, Refresh);
        return false;
      }
      certChecking := true;
      was := Next(was, Refresh);
      check := true;
    }

    // The second one, with what the check found.
    method EndCheck(result: Option<Info>, canceled: bool, now: int)
      requires Valid() && was.checking && canceled == was.canceled && now == was.now
      modifies this
      ensures Valid() && was == Next(old(was), CheckDone(result))
    {
      NextKeepsInv(was, CheckDone(result));
      was := Next(was, CheckDone(result));
      certChecking := false;
      if canceled {
        return;
      }
      nextCertCheck := Some(now + CHECK_INTERVAL);
      if result.None? {
        return;
      }
      cert := result;
      certUnsent := true;
    }

    // What an immediate probe reports, every time it is asked.
    method CertInfo() returns (info: Option<Info>)
      requires Valid()
      ensures info == if was.found == [] then was.inherited else Some(was.found[|was.found| - 1])
    {
      info := cert;
    }

    method TakeUnsentCert() returns (info: Option<Info>)
      requires Valid()
      modifies this
      ensures Valid() && was == Next(old(was), Take)
      ensures info == if old(was).unsent then Some(was.found[|was.found| - 1]) else None
    {
      NextKeepsInv(was, Take);
      was := Next(was, Take);
      if !certUnsent {
        return None;
      }
      certUnsent := false;
      info := cert;
    }
  }
}
