/** When the fast path is exact: how `TransitionPending`, which sees cached values alone, relates to
    what the evaluator does to the hub. */
module AlertPrediction {
  import AlertBookkeeping
  import opened MonitorAlerts
  import opened MonitorCache
  import opened Wrappers

  // ---------- When an evaluation acts ----------

  // What the evaluation does for one alert shows outside: a saved record or a message.
  ghost predicate Acts(a: Alert, monitors: seq<Monitor>, ledger: Ledger, results: map<string, Result>, now: int) {
    var w := WorkOn(a, monitors, true, ledger, results, now);
    Saves(a, w) || w.ledger.messages != ledger.messages
  }

  ghost predicate OpensOrRecovers(a: Alert, m: Monitor, results: map<string, Result>, now: int) {
    var obs := Observe(a, m, results, now);
    obs.Some? && obs.value != (m.id in a.states)
  }

  lemma {:induction false} ClosesWhen(a: Alert, monitors: seq<Monitor>, ledger: Ledger)
    ensures var closed := CloseRemoved(a, monitors, ledger);
            && (closed.changed <==> exists id <- a.states :: id !in Ids(monitors))
            && (!closed.changed ==> closed.states == a.states)
  {
    var gone := set id <- a.states | id !in Ids(monitors);
    assert CloseRemoved(a, monitors, ledger).changed <==> gone != {};
    if gone != {} {
      var id :| id in gone;
      assert id in a.states;
    }
    forall id <- a.states | id !in Ids(monitors) ensures gone != {} {
      assert id in gone;
    }
  }

  // In terms of the alert alone.
  lemma {:induction false} ActsWhen(a: Alert, monitors: seq<Monitor>, ledger: Ledger, results: map<string, Result>, now: int)
    requires Distinct(monitors)
    ensures Acts(a, monitors, ledger, results, now) <==>
            || a.triggered != (a.states != map[])
            || (exists id <- a.states :: id !in Ids(monitors))
            || (exists m <- monitors :: OpensOrRecovers(a, m, results, now))
  {
    var closed := CloseRemoved(a, monitors, ledger);
    ChangedIffSomeFlips(closed, a, monitors, results, now);
    forall m <- monitors ensures Flips(closed, a, m, results, now) <==> OpensOrRecovers(a, m, results, now) {
      assert m.id in Ids(monitors);
    }
    ClosesWhen(a, monitors, ledger);
  }

  lemma {:induction false} StepsSendMessages(w: Work, a: Alert, monitors: seq<Monitor>, results: map<string, Result>, now: int)
    ensures var done := StepMonitors(w, a, monitors, results, now);
            done == w || |w.ledger.messages| < |done.ledger.messages|
  {
    if monitors != [] {
      StepsSendMessages(w, a, monitors[..|monitors| - 1], results, now);
    }
  }

  // Work that acts leaves another alert or more messages behind, and idle work leaves everything.
  lemma {:induction false} ActingShows(a: Alert, monitors: seq<Monitor>, ledger: Ledger, results: map<string, Result>, now: int)
    requires Distinct(monitors)
    ensures var w := WorkOn(a, monitors, true, ledger, results, now);
            && |ledger.messages| <= |w.ledger.messages|
            && (Acts(a, monitors, ledger, results, now) ==> SavedAlert(a, w) != a || |ledger.messages| < |w.ledger.messages|)
            && (!Acts(a, monitors, ledger, results, now) ==> SavedAlert(a, w) == a && w.ledger == ledger)
  {
    var closed := CloseRemoved(a, monitors, ledger);
    var w := WorkOn(a, monitors, true, ledger, results, now);
    ChangedIffSomeFlips(closed, a, monitors, results, now);
    StepsSendMessages(closed, a, monitors, results, now);
    if closed.changed {
      var id :| id in a.states && id !in Ids(monitors);
      StepsTouchOnlyTheirMonitors(closed, a, monitors, results, now, id);
      assert w.states != a.states;
    } else {
      assert closed.ledger.history == ledger.history;
    }
  }

  // The evaluator steps accessible alerts one after the other; a ledger changed by earlier ones
  // makes no difference to whether a later one acts.
  ghost predicate SomeAct(h: Hub, n: nat, access: set<string>, results: map<string, Result>, now: int)
    requires n <= |h.alerts|
  {
    exists i :: 0 <= i < n && h.alerts[i].user in access && Acts(h.alerts[i], h.monitors, h.ledger, results, now)
  }

  ghost predicate Shows(before: Hub, after: Hub) {
    before.alerts != after.alerts || |before.ledger.messages| < |after.ledger.messages|
  }

  lemma {:induction false} FirstShow(h: Hub, n: nat, access: set<string>, results: map<string, Result>, now: int)
    requires h.up && Distinct(h.monitors) && n <= |h.alerts|
    ensures var r := EvaluateFirst(h, n, access, results, now);
            && |h.ledger.messages| <= |r.ledger.messages|
            && (if SomeAct(h, n, access, results, now) then Shows(h, r) else r == h)
  {
    if n > 0 {
      var i, a := n - 1, h.alerts[n - 1];
      var s := EvaluateFirst(h, i, access, results, now);
      FirstShow(h, i, access, results, now);
      if a.user in access {
        OneShows(h, s, i, access, results, now);
      }
    }
  }

  lemma {:induction false} OneShows(h: Hub, s: Hub, i: nat, access: set<string>, results: map<string, Result>, now: int)
    requires i < |h.alerts| && h.alerts[i].user in access
    requires s.up && Distinct(s.monitors) && s.monitors == h.monitors
    requires |s.alerts| == |h.alerts| && forall j :: i <= j < |h.alerts| ==> s.alerts[j] == h.alerts[j]
    requires |h.ledger.messages| <= |s.ledger.messages| && (Shows(h, s) || s == h)
    ensures var r := EvaluateOne(s, i, access, results, now);
            && |h.ledger.messages| <= |r.ledger.messages|
            && (Shows(h, s) || Acts(h.alerts[i], h.monitors, h.ledger, results, now) ==> Shows(h, r))
            && (!Shows(h, s) && !Acts(h.alerts[i], h.monitors, h.ledger, results, now) ==> r == h)
  {
    var r := EvaluateOne(s, i, access, results, now);
    ActingShows(h.alerts[i], h.monitors, s.ledger, results, now);
    if h.alerts != s.alerts {
      var j :| 0 <= j < |h.alerts| && h.alerts[j] != s.alerts[j];
      assert r.alerts[j] == s.alerts[j];
    } else if s == h && r.alerts[i] == h.alerts[i] {
      assert r.alerts == h.alerts;
    }
  }

  // A whole evaluation leaves the hub unchanged unless every state it reads decodes and an alert
  // of a user with access acts.
  lemma {:induction false} EvaluatedActs(h: Hub, access: set<string>, results: map<string, Result>, now: int)
    requires h.up && Distinct(h.monitors)
    ensures Evaluated(h, access, results, now) != h <==> Readable(h, access) && SomeAct(h, |h.alerts|, access, results, now)
  {
    FirstShow(h, |h.alerts|, access, results, now);
  }

  // ---------- The prediction against the evaluation ----------

  // The cache holds exactly the enabled monitors. Loading ignores decoding errors.
  ghost predicate CacheCurrent(cache: View, monitors: seq<Monitor>) {
    && Distinct(monitors)
    && cache.Keys == Ids(monitors)
    && forall m <- monitors :: cache[m.id] == CachedMonitor(m.interval, m.cert.expires)
  }

  // No stored certificate leaves an expiry behind a decoding error.
  ghost predicate CertsDecode(monitors: seq<Monitor>) {
    forall m <- monitors :: m.cert.expires > 0 ==> m.cert.decodes
  }

  // Every alert is one that the evaluator can step.
  predicate AllEvaluated(alerts: seq<Alert>, access: set<string>) {
    forall a <- alerts :: a.user in access && a.decodes
  }

  // Nothing that the evaluator passes over looks like a transition to the fast path.
  ghost predicate Reliable(h: Hub, access: set<string>) {
    && AllEvaluated(h.alerts, access)
    && ((exists a <- h.alerts :: a.kind.CertAlert?) ==> CertsDecode(h.monitors))
  }

  // Whatever is stored, an alert that would act is predicted.
  lemma {:induction false} ActsMeansPending(a: Alert, monitors: seq<Monitor>, cache: View, ledger: Ledger, results: map<string, Result>, now: int)
    requires CacheCurrent(cache, monitors)
    ensures Acts(a, monitors, ledger, results, now) ==> AlertPending(CachedCopy(a), cache, results, now)
  {
    ActsWhen(a, monitors, ledger, results, now);
    if exists m <- monitors :: OpensOrRecovers(a, m, results, now) {
      var m :| m in monitors && OpensOrRecovers(a, m, results, now);
      assert m.id in cache;
      assert AlertPending(CachedCopy(a), cache, results, now);
    }
  }

  lemma {:induction false} AlertPendingExact(a: Alert, monitors: seq<Monitor>, cache: View, ledger: Ledger, results: map<string, Result>, now: int)
    requires CacheCurrent(cache, monitors) && a.decodes && (a.kind.CertAlert? ==> CertsDecode(monitors))
    ensures AlertPending(CachedCopy(a), cache, results, now) <==> Acts(a, monitors, ledger, results, now)
  {
    ActsMeansPending(a, monitors, cache, ledger, results, now);
    ActsWhen(a, monitors, ledger, results, now);
    forall id | id in cache ensures exists m <- monitors :: m.id == id {}
  }

  // What handling the results of a system that is up comes to: the evaluator runs if predicted.
  function Handled(h: Hub, cache: View, access: set<string>, results: map<string, Result>, now: int): Hub {
    if !h.up || h.alerts == [] || !TransitionPending(CachedCopies(h.alerts), cache, results, now) then h
    else Evaluated(h, access, results, now)
  }

  // With a current cache the prediction misses nothing, whatever is stored and whoever has access:
  // the fast path comes to the same as always evaluating.
  lemma {:induction false} NoTransitionMissed(h: Hub, cache: View, access: set<string>, results: map<string, Result>, now: int)
    requires h.up && CacheCurrent(cache, h.monitors)
    ensures Evaluated(h, access, results, now) != h ==> TransitionPending(CachedCopies(h.alerts), cache, results, now)
    ensures Handled(h, cache, access, results, now) == Evaluated(h, access, results, now)
  {
    EvaluatedActs(h, access, results, now);
    var copies := CachedCopies(h.alerts);
    if Evaluated(h, access, results, now) != h {
      var i :| 0 <= i < |h.alerts| && Acts(h.alerts[i], h.monitors, h.ledger, results, now);
      ActsMeansPending(h.alerts[i], h.monitors, cache, h.ledger, results, now);
      assert copies[i] in copies;
    }
  }

  // The fast path is exact: it runs the evaluator exactly when the evaluator changes the hub.
  lemma {:induction false} FastPathExact(h: Hub, cache: View, access: set<string>, results: map<string, Result>, now: int)
    requires h.up && CacheCurrent(cache, h.monitors) && Reliable(h, access)
    ensures TransitionPending(CachedCopies(h.alerts), cache, results, now) <==> Evaluated(h, access, results, now) != h
  {
    NoTransitionMissed(h, cache, access, results, now);
    EvaluatedActs(h, access, results, now);
    var copies := CachedCopies(h.alerts);
    if TransitionPending(copies, cache, results, now) {
      var i :| 0 <= i < |copies| && AlertPending(copies[i], cache, results, now);
      assert h.alerts[i] in h.alerts;
      AlertPendingExact(h.alerts[i], h.monitors, cache, h.ledger, results, now);
    }
  }

  // A state that does not decode always calls for the evaluator, which then fails for an owner
  // with access, so the error shows with every payload until the state is repaired.
  lemma {:induction false} UndecodedStateIsPredicted(h: Hub, cache: View, access: set<string>, results: map<string, Result>, now: int, i: nat)
    requires i < |h.alerts| && !h.alerts[i].decodes
    ensures TransitionPending(CachedCopies(h.alerts), cache, results, now)
    ensures h.alerts[i].user in access ==> Evaluated(h, access, results, now) == h
  {
    assert CachedCopies(h.alerts)[i] in CachedCopies(h.alerts);
    assert h.alerts[i] in h.alerts;
  }

  // ---------- Where it is not exact ----------

  function LoadedView(monitors: seq<Monitor>): (cache: View)
    ensures cache.Keys == Ids(monitors)
    ensures Distinct(monitors) ==> CacheCurrent(cache, monitors)
  {
    if monitors == [] then map[]
    else
      var n := |monitors| - 1;
      assert monitors == monitors[..n] + [monitors[n]];
      LoadedView(monitors[..n])[monitors[n].id := CachedMonitor(monitors[n].interval, monitors[n].cert.expires)]
  }

  ghost function Due(a: Alert, monitors: seq<Monitor>, results: map<string, Result>, now: int): set<string> {
    set m <- monitors | Observe(a, m, results, now) == Some(true) :: m.id
  }

  lemma {:induction false} DueById(a: Alert, monitors: seq<Monitor>, results: map<string, Result>, now: int, m: Monitor)
    requires Distinct(monitors) && m in monitors
    ensures m.id in Due(a, monitors, results, now) <==> Observe(a, m, results, now) == Some(true)
  {
    if m.id in Due(a, monitors, results, now) {
      var k :| k in monitors && Observe(a, k, results, now) == Some(true) && k.id == m.id;
      assert k == m;
    }
  }

  // Its open incidents are exactly those that are due.
  ghost predicate Settled(a: Alert, monitors: seq<Monitor>, results: map<string, Result>, now: int) {
    a.states.Keys == Due(a, monitors, results, now) && (a.triggered <==> a.states != map[])
  }

  lemma {:induction false} SettledDoesNothing(a: Alert, monitors: seq<Monitor>, ledger: Ledger, results: map<string, Result>, now: int)
    requires Distinct(monitors) && Settled(a, monitors, results, now)
    ensures !Acts(a, monitors, ledger, results, now)
  {
    forall m <- monitors ensures !OpensOrRecovers(a, m, results, now) {
      DueById(a, monitors, results, now, m);
    }
    forall id <- a.states ensures id in Ids(monitors) {
      assert id in Due(a, monitors, results, now);
    }
    ActsWhen(a, monitors, ledger, results, now);
  }

  // The same alert as its user configured it. What evaluations change is free.
  ghost predicate SameAlert(a: Alert, b: Alert) {
    AlertBookkeeping.NoIncidents(a) == AlertBookkeeping.NoIncidents(b)
  }

  // The same system, monitors and alerts, with their incidents in step.
  ghost predicate SameSetup(h: Hub, h': Hub) {
    && h'.monitors == h.monitors && h'.up == h.up && |h'.alerts| == |h.alerts|
    && (forall i :: 0 <= i < |h.alerts| ==> SameAlert(h'.alerts[i], h.alerts[i]))
    && AlertBookkeeping.HubOk(h')
  }

  ghost predicate PredictionExact(h: Hub, access: set<string>, results: map<string, Result>, now: int) {
    TransitionPending(CachedCopies(h.alerts), LoadedView(h.monitors), results, now) <==> Evaluated(h, access, results, now) != h
  }

  // A hub whose alerts have nothing to do, save for one that may hold other incidents.
  lemma {:induction false} SettledHub(h: Hub, i: nat, own: set<string>, now: int) returns (h': Hub)
    requires Distinct(h.monitors) && AlertBookkeeping.AlertIds(h.alerts) && i < |h.alerts|
    ensures SameSetup(h, h') && h'.alerts[i].states.Keys == own
    ensures forall j :: 0 <= j < |h.alerts| && (j == i ==> own == Due(h.alerts[i], h.monitors, map[], now)) ==>
              Settled(h'.alerts[j], h.monitors, map[], now)
  {
    var keys := seq(|h.alerts|, j requires 0 <= j < |h.alerts| => if j == i then own else Due(h.alerts[j], h.monitors, map[], now));
    h' := AlertBookkeeping.WithIncidents(h, keys, |keys|);
    forall j | 0 <= j < |h.alerts| && (j == i ==> own == Due(h.alerts[i], h.monitors, map[], now))
      ensures Settled(h'.alerts[j], h.monitors, map[], now)
    {
      assert AlertBookkeeping.AlertOk(h', j);
      SameDue(h'.alerts[j], h.alerts[j], h.monitors, now);
    }
  }

  lemma {:induction false} SameDue(a: Alert, b: Alert, monitors: seq<Monitor>, now: int)
    requires SameAlert(a, b)
    ensures Due(a, monitors, map[], now) == Due(b, monitors, map[], now)
  {
    assert a.kind == b.kind && a.threshold == b.threshold;
    forall m <- monitors ensures Observe(a, m, map[], now) == Observe(b, m, map[], now) {}
  }

  // One alert that is predicted and cannot change anything makes the prediction wrong.
  lemma {:induction false} OneMispredicts(h: Hub, i: nat, access: set<string>, now: int)
    requires h.up && Distinct(h.monitors) && i < |h.alerts|
    requires AlertPending(CachedCopy(h.alerts[i]), LoadedView(h.monitors), map[], now)
    requires forall j :: 0 <= j < |h.alerts| && j != i ==> Settled(h.alerts[j], h.monitors, map[], now)
    requires h.alerts[i].user !in access || !h.alerts[i].decodes || Settled(h.alerts[i], h.monitors, map[], now)
    ensures TransitionPending(CachedCopies(h.alerts), LoadedView(h.monitors), map[], now)
    ensures Evaluated(h, access, map[], now) == h
  {
    var copies := CachedCopies(h.alerts);
    assert copies[i] in copies;
    EvaluatedActs(h, access, map[], now);
    forall j | 0 <= j < |h.alerts| && Settled(h.alerts[j], h.monitors, map[], now)
      ensures !Acts(h.alerts[j], h.monitors, h.ledger, map[], now)
    {
      SettledDoesNothing(h.alerts[j], h.monitors, h.ledger, map[], now);
    }
    assert h.alerts[i] in h.alerts;
  }

  lemma {:induction false} AnotherId(ids: set<string>) returns (id: string)
    ensures id !in ids
  {
    var n := LongestId(ids);
    id := seq(n + 1, _ => 'x');
  }

  lemma {:induction false} LongestId(ids: set<string>) returns (n: nat)
    ensures forall id <- ids :: |id| <= n
    decreases |ids|
  {
    n := 0;
    if ids != {} {
      var id :| id in ids;
      var rest := LongestId(ids - {id});
      n := if |id| > rest then |id| else rest;
      forall k <- ids ensures |k| <= n {
        if k != id { assert k in ids - {id}; }
      }
    }
  }

  // An alert that is never evaluated is predicted at every time: if its state does not decode, or
  // if it holds an incident of a monitor that was removed after its owner had lost access.
  lemma {:induction false} UnevaluatedMispredicts(h: Hub, i: nat, access: set<string>, now: int) returns (h': Hub)
    requires h.up && Distinct(h.monitors) && AlertBookkeeping.AlertIds(h.alerts) && i < |h.alerts|
    requires h.alerts[i].user !in access || !h.alerts[i].decodes
    ensures SameSetup(h, h')
    ensures TransitionPending(CachedCopies(h'.alerts), LoadedView(h.monitors), map[], now)
    ensures Evaluated(h', access, map[], now) == h'
  {
    var gone := AnotherId(Ids(h.monitors));
    h' := SettledHub(h, i, {gone}, now);
    assert SameAlert(h'.alerts[i], h.alerts[i]);
    assert gone in h'.alerts[i].states;
    OneMispredicts(h', i, access, now);
  }

  // A certificate that leaves an expiry behind a decoding error is seen by the cache and skipped
  // by the evaluator: at every time at which it is within the threshold of a certificate alert,
  // there is a state in which that alert is predicted and nothing happens.
  lemma {:induction false} UndecodedCertMispredicts(h: Hub, i: nat, bad: Monitor, access: set<string>, now: int) returns (h': Hub)
    requires h.up && Distinct(h.monitors) && AlertBookkeeping.AlertIds(h.alerts)
    requires i < |h.alerts| && h.alerts[i].kind.CertAlert?
    requires bad in h.monitors && 0 < bad.cert.expires <= CertExpiryCutoff(h.alerts[i].threshold, now) && !bad.cert.decodes
    ensures SameSetup(h, h')
    ensures TransitionPending(CachedCopies(h'.alerts), LoadedView(h.monitors), map[], now)
    ensures Evaluated(h', access, map[], now) == h'
  {
    h' := SettledHub(h, i, Due(h.alerts[i], h.monitors, map[], now), now);
    var a := h'.alerts[i];
    assert SameAlert(a, h.alerts[i]);
    DueById(h.alerts[i], h.monitors, map[], now, bad);
    UndecodedCertIsPending(a, h.monitors, bad, map[], now);
    OneMispredicts(h', i, access, now);
  }

  lemma {:induction false} UndecodedCertIsPending(a: Alert, monitors: seq<Monitor>, bad: Monitor, results: map<string, Result>, now: int)
    requires Distinct(monitors) && a.kind.CertAlert? && bad in monitors && bad.id !in a.states
    requires 0 < bad.cert.expires <= CertExpiryCutoff(a.threshold, now)
    ensures AlertPending(CachedCopy(a), LoadedView(monitors), results, now)
  {
    assert bad.id in LoadedView(monitors);
    assert CertFlips(CachedCopy(a), bad.id, LoadedView(monitors), now);
  }

  // And it stays predicted: no evaluation opens that incident, so at every later time and whatever
  // the results the alert is predicted again.
  lemma {:induction false} UndecodedCertStaysPredicted(a: Alert, monitors: seq<Monitor>, bad: Monitor, up: bool, ledger: Ledger,
                                                       results: map<string, Result>, now: int, results': map<string, Result>, later: int)
    requires Distinct(monitors) && a.kind.CertAlert? && bad in monitors && bad.id !in a.states && !bad.cert.decodes
    requires 0 < bad.cert.expires <= CertExpiryCutoff(a.threshold, now) && now <= later
    ensures var a' := SavedAlert(a, WorkOn(a, monitors, up, ledger, results, now));
            bad.id !in a'.states && AlertPending(CachedCopy(a'), LoadedView(monitors), results', later)
  {
    var closed := CloseRemoved(a, monitors, ledger);
    AlertBookkeeping.IncidentsFollowObservations(closed, a, monitors, results, now);
    assert Observe(a, bad, results, now) == None;
    var a' := SavedAlert(a, WorkOn(a, monitors, up, ledger, results, now));
    CutoffGrows(a.threshold, now, later);
    UndecodedCertIsPending(a', monitors, bad, results', later);
  }

  lemma {:induction false} CutoffGrows(days: real, now: int, later: int)
    requires now <= later
    ensures CertExpiryCutoff(days, now) <= CertExpiryCutoff(days, later)
  {
  }

  // Exactly when the fast path is exact for these alerts and monitors at every time, with every
  // result, and in every state that the bookkeeping can be in: when every alert's owner has access
  // and its state decodes, and, if there is a certificate alert, every stored certificate decodes.
  lemma {:induction false} FastPathExactIff(h: Hub, access: set<string>)
    requires h.up && Distinct(h.monitors) && AlertBookkeeping.AlertIds(h.alerts)
    ensures Reliable(h, access) <==>
            forall h': Hub, results: map<string, Result>, now: int ::
              SameSetup(h, h') ==> PredictionExact(h', access, results, now)
  {
    if Reliable(h, access) {
      forall h': Hub, results: map<string, Result>, now: int | SameSetup(h, h')
        ensures PredictionExact(h', access, results, now)
      {
        StaysReliable(h, h', access);
        FastPathExact(h', LoadedView(h.monitors), access, results, now);
      }
    } else {
      var h', now := Misprediction(h, access);
      assert !PredictionExact(h', access, map[], now);
    }
  }

  lemma {:induction false} StaysReliable(h: Hub, h': Hub, access: set<string>)
    requires SameSetup(h, h') && Reliable(h, access)
    ensures Reliable(h', access)
  {
    forall i | 0 <= i < |h'.alerts|
      ensures h.alerts[i] in h.alerts && h'.alerts[i].user == h.alerts[i].user
      ensures h'.alerts[i].decodes == h.alerts[i].decodes && h'.alerts[i].kind == h.alerts[i].kind
    {
      assert SameAlert(h'.alerts[i], h.alerts[i]);
    }
  }

  // A time at which an expiry is within a threshold.
  lemma {:induction false} WithinThreshold(days: real, expires: int) returns (now: int)
    ensures expires <= CertExpiryCutoff(days, now)
  {
    var ns := days * DAY as real;
    var duration := if ns >= 0.0 then ns.Floor else -((-ns).Floor);
    now := expires * MILLISECOND - duration;
    assert CertExpiryCutoff(days, now) == (expires * MILLISECOND) / MILLISECOND;
  }

  lemma {:induction false} Misprediction(h: Hub, access: set<string>) returns (h': Hub, now: int)
    requires h.up && Distinct(h.monitors) && AlertBookkeeping.AlertIds(h.alerts) && !Reliable(h, access)
    ensures SameSetup(h, h') && !PredictionExact(h', access, map[], now)
  {
    if !AllEvaluated(h.alerts, access) {
      var i :| 0 <= i < |h.alerts| && (h.alerts[i].user !in access || !h.alerts[i].decodes);
      now := 0;
      h' := UnevaluatedMispredicts(h, i, access, now);
    } else {
      var i :| 0 <= i < |h.alerts| && h.alerts[i].kind.CertAlert?;
      var bad :| bad in h.monitors && bad.cert.expires > 0 && !bad.cert.decodes;
      now := WithinThreshold(h.alerts[i].threshold, bad.cert.expires);
      h' := UndecodedCertMispredicts(h, i, bad, access, now);
    }
  }

  // ---------- Over whole runs of the cache ----------

  // The monitors that the evaluator finds in the database: those of the system that are enabled,
  // each once, as they are stored.
  ghost predicate Lists(monitors: seq<Monitor>, rows: Rows, system: string) {
    && Distinct(monitors)
    && (forall id :: id in rows && rows[id].system == system && rows[id].enabled ==> exists m <- monitors :: m.id == id)
    && (forall m <- monitors ::
          && m.id in rows && rows[m.id].system == system && rows[m.id].enabled
          && m.interval == rows[m.id].interval && m.cert == rows[m.id].cert)
  }

  lemma {:induction false} ListsMeansCurrent(monitors: seq<Monitor>, view: View, rows: Rows, system: string)
    requires Lists(monitors, rows, system) && Holds(view, rows, system)
    ensures CacheCurrent(view, monitors)
  {
    forall id ensures id in view <==> id in Ids(monitors) {
      if id in view {
        var m :| m in monitors && m.id == id;
      }
    }
  }

  // In every run of the cache's protocol, once hooks and handlers are done, handling results with
  // what `get` returns is the same as evaluating, and the evaluator then runs only to act.
  lemma {:induction false} QuietFastPathExact(states: seq<State>, steps: seq<Step>, n: nat, system: string,
                                              h: Hub, access: set<string>, results: map<string, Result>, now: int)
    requires Execution(states, steps) && n < |states| && states[n].load.NoLoad?
    requires states[n].pending == multiset{} && forall g :: g in states[n].handlers ==> g.todo == map[]
    requires h.up && Lists(h.monitors, states[n].rows, system)
    ensures var cache := Loaded(states[n], system).systems[system];
            && Handled(h, cache, access, results, now) == Evaluated(h, access, results, now)
            && (Reliable(h, access) ==>
                (TransitionPending(CachedCopies(h.alerts), cache, results, now) <==> Evaluated(h, access, results, now) != h))
  {
    QuietCacheIsFresh(states, steps, n, system);
    var cache := Loaded(states[n], system).systems[system];
    ListsMeansCurrent(h.monitors, cache, states[n].rows, system);
    NoTransitionMissed(h, cache, access, results, now);
    if Reliable(h, access) {
      FastPathExact(h, cache, access, results, now);
    }
  }

  // ---------- The handler ----------

  // Does no I/O and leaves the cached maps alone. The order of the maps makes no difference.
  method NetworkMonitorTransitionPending(alerts: seq<CachedAlert>, monitors: View, results: map<string, Result>, now: int)
    returns (pending: bool)
    ensures pending <==> TransitionPending(alerts, monitors, results, now)
  {
    for i := 0 to |alerts|
      invariant forall j :: 0 <= j < i ==> !AlertPending(alerts[j], monitors, results, now)
    {
      pending := AlertIsPending(alerts[i], monitors, results, now);
      if pending {
        return;
      }
    }
    pending := false;
  }

  method AlertIsPending(a: CachedAlert, monitors: View, results: map<string, Result>, now: int) returns (pending: bool)
    ensures pending <==> AlertPending(a, monitors, results, now)
  {
    if !a.statesValid || a.triggered != (a.states != map[]) {
      return true;
    }
    var open := a.states.Keys;
    while open != {}
      invariant open <= a.states.Keys
      invariant forall id <- a.states :: id in open || id in monitors
      decreases open
    {
      var id :| id in open;
      if id !in monitors {
        return true;
      }
      open := open - {id};
    }
    if a.kind.CertAlert? {
      pending := CertIsPending(a, monitors, now);
    } else {
      pending := LossIsPending(a, monitors, results, now);
    }
  }

  method CertIsPending(a: CachedAlert, monitors: View, now: int) returns (pending: bool)
    ensures pending <==> exists id <- monitors :: CertFlips(a, id, monitors, now)
  {
    var cutoff := CertExpiryCutoff(a.threshold, now);
    var todo := monitors.Keys;
    while todo != {}
      invariant todo <= monitors.Keys
      invariant forall id <- monitors :: id in todo || !CertFlips(a, id, monitors, now)
      decreases todo
    {
      var id :| id in todo;
      var expires := monitors[id].certExpires;
      if expires > 0 && (expires <= cutoff) != (id in a.states) {
        assert CertFlips(a, id, monitors, now);
        return true;
      }
      todo := todo - {id};
    }
    pending := false;
  }

  method LossIsPending(a: CachedAlert, monitors: View, results: map<string, Result>, now: int) returns (pending: bool)
    ensures pending <==> exists id <- results :: LossFlips(a, id, monitors, results, now)
  {
    var todo := results.Keys;
    while todo != {}
      invariant todo <= results.Keys
      invariant forall id <- results :: id in todo || !LossFlips(a, id, monitors, results, now)
      decreases todo
    {
      var id :| id in todo;
      if id in monitors && ResultReady(results[id], monitors[id].interval, now) {
        if Exceeds(results[id], a.threshold) != (id in a.states) {
          assert LossFlips(a, id, monitors, results, now);
          return true;
        }
      }
      todo := todo - {id};
    }
    pending := false;
  }

  // Nobody's invalidation or comparison is outstanding.
  ghost predicate AllDone(handlers: multiset<Handler>) {
    forall g :: g in handlers ==> g.todo == map[]
  }

  // What `pending` has to promise for skipping the evaluator to make no difference.
  ghost predicate Foretells(pending: bool, h: Hub, rows: Rows, system: string, access: set<string>, results: map<string, Result>, now: int) {
    Lists(h.monitors, rows, system) && !pending ==> Evaluated(h, access, results, now) == h
  }

  lemma {:induction false} PredictedWhenFresh(h: Hub, view: View, rows: Rows, system: string, access: set<string>,
                                              results: map<string, Result>, now: int)
    requires h.up && Holds(view, rows, system)
    ensures Foretells(TransitionPending(CachedCopies(h.alerts), view, results, now), h, rows, system, access, results, now)
  {
    if Lists(h.monitors, rows, system) {
      ListsMeansCurrent(h.monitors, view, rows, system);
      NoTransitionMissed(h, view, access, results, now);
    }
  }

  lemma {:induction false} ReadErrorsAreFound(h: Hub, access: set<string>, results: map<string, Result>, now: int)
    ensures !Readable(h, access) ==> forall view :: TransitionPending(CachedCopies(h.alerts), view, results, now)
  {
    if !Readable(h, access) {
      var i :| 0 <= i < |h.alerts| && !h.alerts[i].decodes;
      forall view ensures TransitionPending(CachedCopies(h.alerts), view, results, now) {
        UndecodedStateIsPredicted(h, view, access, results, now, i);
      }
    }
  }

  // The prediction from cached values; None if the cache's query fails. It is made from what is
  // read of the cache, which is accounted for, and current when nothing is outstanding.
  method Predict(cache: NetworkMonitorCache, system: string, alerts: seq<CachedAlert>, results: map<string, Result>,
                 rows: Option<Rows>, now: int, ghost access: set<string>, ghost h: Hub, ghost s: State)
    returns (pending: Option<bool>, ghost t: State)
    requires cache.Shows(s) && Inv(s) && s.load.NoLoad? && (rows.Some? ==> rows.value == s.rows)
    requires h.up && alerts == CachedCopies(h.alerts)
    modifies cache
    ensures cache.Shows(t) && Inv(t) && t.rows == s.rows && t.pending == s.pending && t.handlers == s.handlers
    ensures pending.None? ==> rows.None?
    ensures pending.Some? ==>
              exists view :: Accounted(s, system, view) && (pending.value <==> TransitionPending(alerts, view, results, now))
    ensures pending.Some? && s.pending == multiset{} && AllDone(s.handlers) ==>
              Foretells(pending.value, h, s.rows, system, access, results, now)
  {
    var monitors := cache.Get(system, rows, s);
    if monitors.None? {
      return None, s;
    }
    t := Loaded(s, system);
    var p := NetworkMonitorTransitionPending(alerts, monitors.value, results, now);
    pending := Some(p);
    if s.pending == multiset{} && AllDone(s.handlers) {
      PredictedWhenFresh(h, monitors.value, s.rows, system, access, results, now);
    }
  }

  // Handles the results of a payload after its transaction. `rows` is the committed database, None
  // if the cache's query fails. Whatever else is going on, the alerts are left alone or evaluated
  // as a whole, and a failure changes no alert, no incident and sends nothing. With nobody else
  // part way, a system that is up ends as if the evaluator had run.
  method HandleNetworkMonitorAlerts(am: AlertManager, cache: NetworkMonitorCache, system: string, certs: map<string, int>,
                                    results: map<string, Result>, access: set<string>, rows: Option<Rows>, now: int,
                                    ghost others: multiset<Handler>, ghost s: State)
    returns (failed: bool, ghost t: State)
    requires cache.Shows(s) && Inv(s) && s.load.NoLoad? && (rows.Some? ==> rows.value == s.rows)
    requires s.handlers == others + multiset{Handler(system, certs)}
    modifies am, cache
    ensures cache.Shows(t) && Inv(t) && t.rows == s.rows && t.pending == s.pending
    ensures t.handlers == others || t.handlers == others + multiset{Handler(system, map[])}
    ensures am.State() == old(am.State()) || am.State() == Evaluated(old(am.State()), access, results, now)
    ensures failed || !old(am.State()).up ==> am.State() == old(am.State())
    ensures failed ==> rows.None? || !Readable(old(am.State()), access)
    ensures old(am.State()).up && rows.Some? && !Readable(old(am.State()), access) ==> failed
    ensures var before := old(am.State());
            before.up && !failed && s.pending == multiset{} && AllDone(others) && Lists(before.monitors, s.rows, system) ==>
              am.State() == Evaluated(before, access, results, now)
  {
    t := cache.CheckCerts(system, certs, others, s);
    failed := false;
    if !am.up || am.alerts == [] {
      return;
    }
    var pending;
    pending, t := Predict(cache, system, CachedCopies(am.alerts), results, rows, now, access, am.State(), t);
    if pending.None? {
      return true, t;
    }
    ReadErrorsAreFound(am.State(), access, results, now);
    if pending.value {
      failed := am.EvaluateNetworkMonitorAlerts(access, results, now);
    }
  }
}
