/** Alerts on network monitors. `TransitionPending` predicts from cached values alone whether the
    transactional evaluator would do anything; `Evaluated` is what the evaluator does to the alerts,
    their incident history and the messages of one system. `AlertManager` is the evaluator itself. */
module MonitorAlerts {
  import opened MonitorCache
  import opened Wrappers

  // Times are nanoseconds since the Unix epoch.
  const MILLISECOND := 1_000_000
  const MINUTE := 60_000 * MILLISECOND
  const HOUR := 60 * MINUTE
  const DAY := 24 * HOUR

  // A reported percentage may be NaN or infinite.
  datatype Number = Finite(value: real) | NotFinite

  datatype Result = Result(sampleCount: int, lastProbeAt: int, packetLoss1h: Number)

  const NO_RESULT := Result(0, 0, Finite(0.0))

  // An enabled monitor of the system.
  datatype Monitor = Monitor(id: string, interval: int, cert: StoredCert)

  datatype Kind = LossAlert | CertAlert

  // `states` maps monitors with an open incident to its history record. It is stored as JSON;
  // `decodes` says whether reading it back reports no error.
  datatype Alert = Alert(
    id: nat, user: string, kind: Kind, threshold: real, triggered: bool, states: map<string, nat>, decodes: bool)

  datatype CachedAlert = CachedAlert(kind: Kind, threshold: real, triggered: bool, states: map<string, nat>, statesValid: bool)

  // ---------- Shared observations ----------

  function Min(a: int, b: int): int { if a < b then a else b }
  function Max(a: int, b: int): int { if a > b then a else b }

  // Three completed attempts, a recent probe and a loss that is a percentage.
  predicate ResultReady(r: Result, interval: int, now: int) {
    && r.sampleCount >= 3 && r.lastProbeAt > 0
    && r.packetLoss1h.Finite? && 0.0 <= r.packetLoss1h.value <= 100.0
    && var maxAge := Min(HOUR, Max(3 * interval * 1000 * MILLISECOND, 3 * MINUTE));
       -MINUTE <= now - r.lastProbeAt * MILLISECOND <= maxAge
  }

  // The latest expiry, in Unix milliseconds, within the given number of days. A float to integer
  // conversion truncates toward zero.
  function CertExpiryCutoff(days: real, now: int): int {
    var ns := days * DAY as real;
    (now + if ns >= 0.0 then ns.Floor else -((-ns).Floor)) / MILLISECOND
  }

  predicate Exceeds(r: Result, threshold: real)
    requires r.packetLoss1h.Finite?
  {
    r.packetLoss1h.value > threshold
  }

  // ---------- The predictor ----------

  predicate CertFlips(a: CachedAlert, id: string, monitors: View, now: int)
    requires id in monitors
  {
    && monitors[id].certExpires > 0
    && (monitors[id].certExpires <= CertExpiryCutoff(a.threshold, now)) != (id in a.states)
  }

  predicate LossFlips(a: CachedAlert, id: string, monitors: View, results: map<string, Result>, now: int)
    requires id in results
  {
    && id in monitors && ResultReady(results[id], monitors[id].interval, now)
    && Exceeds(results[id], a.threshold) != (id in a.states)
  }

  predicate AlertPending(a: CachedAlert, monitors: View, results: map<string, Result>, now: int) {
    || !a.statesValid
    || a.triggered != (a.states != map[])
    || (exists id <- a.states :: id !in monitors)
    || (match a.kind
        case CertAlert => exists id <- monitors :: CertFlips(a, id, monitors, now)
        case LossAlert => exists id <- results :: LossFlips(a, id, monitors, results, now))
  }

  predicate TransitionPending(alerts: seq<CachedAlert>, monitors: View, results: map<string, Result>, now: int) {
    exists a <- alerts :: AlertPending(a, monitors, results, now)
  }

  // What the hub keeps of an alert for the fast path.
  function CachedCopy(a: Alert): CachedAlert {
    CachedAlert(a.kind, a.threshold, a.triggered, a.states, a.decodes)
  }

  function CachedCopies(alerts: seq<Alert>): seq<CachedAlert> {
    seq(|alerts|, i requires 0 <= i < |alerts| => CachedCopy(alerts[i]))
  }

  // ---------- The evaluator ----------

  // Whether a monitor is past an alert's threshold now; None if it cannot be told.
  function Observe(a: Alert, m: Monitor, results: map<string, Result>, now: int): Option<bool> {
    match a.kind
    case CertAlert =>
      if !m.cert.decodes || m.cert.expires <= 0 then None
      else Some(m.cert.expires <= CertExpiryCutoff(a.threshold, now))
    case LossAlert =>
      var r := if m.id in results then results[m.id] else NO_RESULT;
      if ResultReady(r, m.interval, now) then Some(Exceeds(r, a.threshold)) else None
  }

  datatype Incident = Incident(alert: nat, resolved: bool)

  datatype Message = Message(alert: nat, monitor: string, raised: bool, incident: nat)

  // The database side of one evaluation: incident history, the next record ID, and the messages
  // to send after the commit.
  datatype Ledger = Ledger(history: map<nat, Incident>, next: nat, messages: seq<Message>)

  function Resolve(history: map<nat, Incident>, h: nat): map<nat, Incident> {
    if h in history then history[h := history[h].(resolved := true)] else history
  }

  function ResolveAll(history: map<nat, Incident>, hs: set<nat>): map<nat, Incident> {
    map h <- history :: if h in hs then history[h].(resolved := true) else history[h]
  }

  // One alert part way through its evaluation.
  datatype Work = Work(states: map<string, nat>, ledger: Ledger, changed: bool)

  function Ids(monitors: seq<Monitor>): set<string> {
    set m <- monitors :: m.id
  }

  // Incidents of monitors that are no longer enabled close silently.
  function CloseRemoved(a: Alert, monitors: seq<Monitor>, ledger: Ledger): Work {
    var gone := set id <- a.states | id !in Ids(monitors);
    Work(a.states - gone,
         ledger.(history := ResolveAll(ledger.history, set id <- gone :: a.states[id])),
         gone != {})
  }

  function Flips(w: Work, a: Alert, m: Monitor, results: map<string, Result>, now: int): bool {
    var obs := Observe(a, m, results, now);
    obs.Some? && obs.value != (m.id in w.states)
  }

  function StepMonitor(w: Work, a: Alert, m: Monitor, results: map<string, Result>, now: int): Work {
    var l := w.ledger;
    if !Flips(w, a, m, results, now) then w
    else if m.id !in w.states then
      Work(w.states[m.id := l.next],
           Ledger(l.history[l.next := Incident(a.id, false)], l.next + 1, l.messages + [Message(a.id, m.id, true, l.next)]),
           true)
    else
      Work(w.states - {m.id},
           l.(history := Resolve(l.history, w.states[m.id]), messages := l.messages + [Message(a.id, m.id, false, w.states[m.id])]),
           true)
  }

  function StepMonitors(w: Work, a: Alert, monitors: seq<Monitor>, results: map<string, Result>, now: int): Work {
    if monitors == [] then w
    else
      var n := |monitors| - 1;
      StepMonitor(StepMonitors(w, a, monitors[..n], results, now), a, monitors[n], results, now)
  }

  function WorkOn(a: Alert, monitors: seq<Monitor>, up: bool, ledger: Ledger, results: map<string, Result>, now: int): Work {
    var closed := CloseRemoved(a, monitors, ledger);
    if up then StepMonitors(closed, a, monitors, results, now) else closed
  }

  // The alert is saved when an incident changed or its flag was out of step.
  predicate Saves(a: Alert, w: Work) {
    w.changed || a.triggered != (w.states != map[])
  }

  function SavedAlert(a: Alert, w: Work): Alert {
    if Saves(a, w) then a.(states := w.states, triggered := w.states != map[]) else a
  }

  ghost predicate Distinct(monitors: seq<Monitor>) {
    forall i, j :: 0 <= i < j < |monitors| ==> monitors[i].id != monitors[j].id
  }

  // Stepping monitors leaves every other monitor's incident alone, so a step flips exactly when
  // it would have flipped at the start.
  lemma {:induction false} StepsTouchOnlyTheirMonitors(w: Work, a: Alert, monitors: seq<Monitor>, results: map<string, Result>, now: int, id: string)
    requires id !in Ids(monitors)
    ensures id in StepMonitors(w, a, monitors, results, now).states <==> id in w.states
  {
    if monitors != [] {
      var n := |monitors| - 1;
      assert forall m <- monitors[..n] :: m in monitors;
      assert monitors[n].id in Ids(monitors);
      StepsTouchOnlyTheirMonitors(w, a, monitors[..n], results, now, id);
    }
  }

  lemma {:induction false} ChangedIffSomeFlips(w: Work, a: Alert, monitors: seq<Monitor>, results: map<string, Result>, now: int)
    requires Distinct(monitors)
    ensures var done := StepMonitors(w, a, monitors, results, now);
            && (done.changed <==> w.changed || exists m <- monitors :: Flips(w, a, m, results, now))
            && (!done.changed ==> done == w)
            && |w.ledger.messages| <= |done.ledger.messages|
            && (|w.ledger.messages| < |done.ledger.messages| ==> done.changed)
  {
    if monitors != [] {
      var n := |monitors| - 1;
      var front, last := monitors[..n], monitors[n];
      ChangedIffSomeFlips(w, a, front, results, now);
      assert last.id !in Ids(front);
      StepsTouchOnlyTheirMonitors(w, a, front, results, now, last.id);
      assert Flips(StepMonitors(w, a, front, results, now), a, last, results, now) <==> Flips(w, a, last, results, now);
      assert monitors == front + [last];
      assert forall m :: m in monitors <==> m in front || m == last;
    }
  }

  // ---------- A whole evaluation ----------

  // The system's alerts, its enabled monitors and status, and the database side.
  datatype Hub = Hub(alerts: seq<Alert>, monitors: seq<Monitor>, up: bool, ledger: Ledger)

  // Alerts of users without access to the system are skipped.
  function EvaluateFirst(h: Hub, n: nat, access: set<string>, results: map<string, Result>, now: int): (r: Hub)
    requires n <= |h.alerts|
    ensures |r.alerts| == |h.alerts| && r.monitors == h.monitors && r.up == h.up
    ensures forall i :: n <= i < |h.alerts| ==> r.alerts[i] == h.alerts[i]
  {
    if n == 0 then h
    else EvaluateOne(EvaluateFirst(h, n - 1, access, results, now), n - 1, access, results, now)
  }

  function EvaluateOne(h: Hub, i: nat, access: set<string>, results: map<string, Result>, now: int): Hub
    requires i < |h.alerts|
  {
    var a := h.alerts[i];
    if a.user !in access then h
    else
      var w := WorkOn(a, h.monitors, h.up, h.ledger, results, now);
      h.(alerts := h.alerts[i := SavedAlert(a, w)], ledger := w.ledger)
  }

  // Every state that the evaluation reads decodes.
  predicate Readable(h: Hub, access: set<string>) {
    forall a <- h.alerts :: a.user in access ==> a.decodes
  }

  // One state that does not decode fails the whole transaction.
  function Evaluated(h: Hub, access: set<string>, results: map<string, Result>, now: int): Hub {
    if Readable(h, access) then EvaluateFirst(h, |h.alerts|, access, results, now) else h
  }

  // ---------- The evaluator itself ----------

  lemma {:induction false} ResolveOneMore(history: map<nat, Incident>, hs: set<nat>, h: nat)
    ensures Resolve(ResolveAll(history, hs), h) == ResolveAll(history, hs + {h})
  {
  }

  class AlertManager {
    var alerts: seq<Alert>
    var monitors: seq<Monitor>
    var up: bool
    var history: map<nat, Incident>
    var next: nat
    var messages: seq<Message>

    ghost function State(): Hub
      reads this
    {
      Hub(alerts, monitors, up, Ledger(history, next, messages))
    }

    constructor ()
      ensures State() == Hub([], [], false, Ledger(map[], 0, []))
    {
      alerts, monitors, up := [], [], false;
      history, next, messages := map[], 0, [];
    }

    method ResolveMonitorIncident(h: nat)
      modifies this`history
      ensures history == Resolve(old(history), h)
    {
      if h in history && !history[h].resolved {
        history := history[h := history[h].(resolved := true)];
      }
      assert history == Resolve(old(history), h);
    }

    // Closes the incidents of monitors that are no longer enabled.
    method CloseRemovedMonitors(a: Alert) returns (states: map<string, nat>, changed: bool)
      modifies this`history
      ensures Work(states, State().ledger, changed) == CloseRemoved(a, monitors, old(State()).ledger)
    {
      states, changed := a.states, false;
      var enabled := set m <- monitors :: m.id;
      var todo := a.states.Keys;
      ghost var gone: set<string> := {};
      while todo != {}
        invariant todo <= a.states.Keys
        invariant gone == set id <- a.states | id !in todo && id !in enabled
        invariant states == a.states - gone && changed == (gone != {})
        invariant history == ResolveAll(old(history), set id <- gone :: a.states[id])
        decreases todo
      {
        var id :| id in todo;
        if id !in enabled {
          ghost var before := history;
          ResolveMonitorIncident(states[id]);
          states := states - {id};
          changed := true;
          ResolveOneMore(old(history), set k <- gone :: a.states[k], a.states[id]);
          gone := gone + {id};
          assert (set k <- gone :: a.states[k]) == (set k <- gone - {id} :: a.states[k]) + {a.states[id]};
        }
        todo := todo - {id};
      }
      assert gone == set id <- a.states | id !in Ids(monitors);
    }

    // One monitor of one alert: opens or closes its incident and queues the message.
    method EvaluateMonitor(a: Alert, m: Monitor, results: map<string, Result>, now: int, open: map<string, nat>, touched: bool)
      returns (states: map<string, nat>, changed: bool)
      modifies this`history, this`next, this`messages
      ensures Work(states, State().ledger, changed) ==
              StepMonitor(Work(open, old(State()).ledger, touched), a, m, results, now)
    {
      states, changed := open, touched;
      var obs := Observe(a, m, results, now);
      if obs.None? {
        return;
      }
      var active := m.id in states;
      if obs.value == active {
        return;
      }
      if obs.value {
        history := history[next := Incident(a.id, false)];
        states := states[m.id := next];
        messages := messages + [Message(a.id, m.id, true, next)];
        next := next + 1;
      } else {
        ResolveMonitorIncident(states[m.id]);
        messages := messages + [Message(a.id, m.id, false, states[m.id])];
        states := states - {m.id};
      }
      changed := true;
    }

    method EvaluateAlert(i: nat, ghost access: set<string>, results: map<string, Result>, now: int)
      requires i < |alerts| && alerts[i].user in access
      modifies this
      ensures State() == EvaluateOne(old(State()), i, access, results, now)
    {
      var a := alerts[i];
      var states, changed := CloseRemovedMonitors(a);
      ghost var closed := Work(states, State().ledger, changed);
      if up {
        for j := 0 to |monitors|
          invariant alerts == old(alerts) && monitors == old(monitors) && up
          invariant Work(states, State().ledger, changed) == StepMonitors(closed, a, monitors[..j], results, now)
        {
          assert monitors[..j + 1][..j] == monitors[..j];
          states, changed := EvaluateMonitor(a, monitors[j], results, now, states, changed);
        }
        assert monitors[..|monitors|] == monitors;
      }
      if changed || a.triggered != (states != map[]) {
        alerts := alerts[i := a.(states := states, triggered := states != map[])];
      }
      assert alerts[i] == SavedAlert(a, Work(states, State().ledger, changed));
      assert alerts == old(alerts)[i := alerts[i]];
    }

    // The whole transaction. If it fails, everything is as before and no message goes out.
    method EvaluateNetworkMonitorAlerts(access: set<string>, results: map<string, Result>, now: int) returns (failed: bool)
      modifies this
      ensures State() == Evaluated(old(State()), access, results, now)
      ensures failed <==> !Readable(old(State()), access)
    {
      var saved := (alerts, history, next, messages);
      var n := |alerts|;
      for i := 0 to n
        invariant |alerts| == n && monitors == old(monitors) && up == old(up)
        invariant State() == EvaluateFirst(old(State()), i, access, results, now)
        invariant forall j :: 0 <= j < i && old(alerts)[j].user in access ==> old(alerts)[j].decodes
      {
        assert alerts[i] == old(alerts)[i];
        if alerts[i].user in access {
          if !alerts[i].decodes {
            assert !Readable(old(State()), access) by { assert old(alerts)[i] in old(alerts); }
            alerts, history, next, messages := saved.0, saved.1, saved.2, saved.3;
            return true;
          }
          EvaluateAlert(i, access, results, now);
        }
      }
      failed := false;
    }
  }
}
