/** The bookkeeping of incidents: over any sequence of operations, alerts stay in step with their
    incident history, and messages match the transitions one to one. */
module AlertBookkeeping {
  import opened MonitorAlerts

  datatype Op =
    | Evaluate(results: map<string, Result>, now: int)
    | EnableMonitor(monitor: Monitor)        // create or enable
    | ChangeMonitor(i: nat, monitor: Monitor) // same ID
    | DropMonitor(i: nat, now: int)          // disable or delete; the cleanup hook evaluates
    | SetStatus(up: bool)
    | AddAlert(alert: Alert)
    | SetThreshold(i: nat, threshold: real)
    | DeleteAlert(i: nat)                    // the delete hook resolves its history

  ghost predicate Allowed(h: Hub, op: Op) {
    match op
    case EnableMonitor(m) => m.id !in Ids(h.monitors)
    case ChangeMonitor(i, m) => i < |h.monitors| && m.id == h.monitors[i].id
    case DropMonitor(i, _) => i < |h.monitors|
    // record IDs are never reused
    case AddAlert(a) =>
      && !a.triggered && a.states == map[] && a.decodes
      && (forall b <- h.alerts :: b.id != a.id) && (forall k <- h.ledger.history :: h.ledger.history[k].alert != a.id)
    case SetThreshold(i, _) => i < |h.alerts|
    case DeleteAlert(i) => i < |h.alerts|
    case _ => true
  }

  // Everything still open under a deleted alert is resolved.
  function ResolveAlert(history: map<nat, Incident>, alert: nat): map<nat, Incident> {
    map k <- history :: if history[k].alert == alert then history[k].(resolved := true) else history[k]
  }

  function Apply(h: Hub, op: Op, access: set<string>): Hub
    requires Allowed(h, op)
  {
    match op
    case Evaluate(results, now) => Evaluated(h, access, results, now)
    case EnableMonitor(m) => h.(monitors := h.monitors + [m])
    case ChangeMonitor(i, m) => h.(monitors := h.monitors[i := m])
    case DropMonitor(i, now) =>
      Evaluated(h.(monitors := h.monitors[..i] + h.monitors[i + 1..]), access, map[], now)
    case SetStatus(up) => h.(up := up)
    case AddAlert(a) => h.(alerts := h.alerts + [a])
    case SetThreshold(i, t) => h.(alerts := h.alerts[i := h.alerts[i].(threshold := t)])
    case DeleteAlert(i) =>
      h.(alerts := h.alerts[..i] + h.alerts[i + 1..],
         ledger := h.ledger.(history := ResolveAlert(h.ledger.history, h.alerts[i].id)))
  }

  // The incidents the messages announced, in order: those raised, and those recovered.
  function Raised(messages: seq<Message>): seq<nat> {
    if messages == [] then []
    else
      var n := |messages| - 1;
      Raised(messages[..n]) + if messages[n].raised then [messages[n].incident] else []
  }

  function Recovered(messages: seq<Message>): seq<nat> {
    if messages == [] then []
    else
      var n := |messages| - 1;
      Recovered(messages[..n]) + if messages[n].raised then [] else [messages[n].incident]
  }

  // An alert's state map is a bijection onto its unresolved history.
  ghost predicate StatesMatch(alert: nat, states: map<string, nat>, history: map<nat, Incident>) {
    && (forall j, k | j in states && k in states && j != k :: states[j] != states[k])
    && (forall id <- states :: states[id] in history)
    && (forall k <- history | history[k].alert == alert :: !history[k].resolved <==> k in states.Values)
    && (forall id <- states :: history[states[id]].alert == alert)
  }

  // Every incident on record was raised by exactly one message, in record order, and recovered by
  // at most one, after which it stays resolved.
  ghost predicate LedgerOk(l: Ledger) {
    && (forall k: nat :: k in l.history <==> k < l.next)
    && Raised(l.messages) == seq(l.next, k => k)
    && (forall m <- l.messages :: m.incident in l.history && l.history[m.incident].alert == m.alert)
    && var done := Recovered(l.messages);
       && (forall i, j :: 0 <= i < j < |done| ==> done[i] != done[j])
       && (forall k <- done :: k in l.history && l.history[k].resolved)
  }

  // ---------- One evaluation ----------

  // Only incidents of this alert are added or resolved.
  ghost predicate OnlyOwn(alert: nat, before: map<nat, Incident>, after: map<nat, Incident>) {
    && (forall k <- before :: k in after && after[k].alert == before[k].alert && (before[k].resolved ==> after[k].resolved))
    && (forall k <- before :: before[k].alert != alert ==> after[k] == before[k])
    && (forall k <- after :: k in before || after[k].alert == alert)
  }

  ghost predicate WorkOk(alert: nat, start: Ledger, w: Work) {
    && StatesMatch(alert, w.states, w.ledger.history)
    && LedgerOk(w.ledger)
    && OnlyOwn(alert, start.history, w.ledger.history)
  }

  lemma {:induction false} CloseRemovedOk(a: Alert, monitors: seq<Monitor>, l: Ledger)
    requires StatesMatch(a.id, a.states, l.history) && LedgerOk(l)
    ensures WorkOk(a.id, l, CloseRemoved(a, monitors, l))
    ensures CloseRemoved(a, monitors, l).states.Keys <= Ids(monitors)
  {
    var w := CloseRemoved(a, monitors, l);
    var gone := set id <- a.states | id !in Ids(monitors);
    var ids := set id <- gone :: a.states[id];
    assert w.ledger.history.Keys == l.history.Keys;
    forall k <- w.ledger.history | l.history[k].alert == a.id
      ensures !w.ledger.history[k].resolved <==> k in w.states.Values
    {
      if k in ids {
        assert k !in w.states.Values;
      } else if !l.history[k].resolved {
        var id :| id in a.states && a.states[id] == k;
        assert w.states[id] == k;
      }
    }
  }

  lemma {:induction false} RaisedAppend(messages: seq<Message>, m: Message)
    ensures Raised(messages + [m]) == Raised(messages) + (if m.raised then [m.incident] else [])
    ensures Recovered(messages + [m]) == Recovered(messages) + (if m.raised then [] else [m.incident])
  {
    assert (messages + [m])[..|messages|] == messages;
  }

  lemma {:induction false} RaiseLedger(l: Ledger, alert: nat, monitor: string)
    requires LedgerOk(l)
    ensures LedgerOk(Ledger(l.history[l.next := Incident(alert, false)], l.next + 1,
                            l.messages + [Message(alert, monitor, true, l.next)]))
  {
    var message, incident := Message(alert, monitor, true, l.next), Incident(alert, false);
    RaisedAppend(l.messages, message);
    assert seq(l.next + 1, k => k) == seq(l.next, k => k) + [l.next];
    RaiseKeepsAnnounced(l.messages, message, l.history, incident);
    RaiseKeepsRecovered(l.messages, l.history, l.next, incident);
  }

  lemma {:induction false} RaiseKeepsAnnounced(messages: seq<Message>, m: Message, history: map<nat, Incident>, incident: Incident)
    requires m.incident !in history && incident.alert == m.alert
    requires forall k <- messages :: k.incident in history && history[k.incident].alert == k.alert
    ensures var after := history[m.incident := incident];
            forall k <- messages + [m] :: k.incident in after && after[k.incident].alert == k.alert
  {
  }

  lemma {:induction false} RaiseKeepsRecovered(messages: seq<Message>, history: map<nat, Incident>, h: nat, incident: Incident)
    requires h !in history && forall k <- Recovered(messages) :: k in history && history[k].resolved
    ensures forall k <- Recovered(messages) :: k in history[h := incident] && history[h := incident][k].resolved
  {
  }

  lemma {:induction false} RecoverLedger(l: Ledger, alert: nat, monitor: string, h: nat)
    requires LedgerOk(l) && h in l.history && !l.history[h].resolved && l.history[h].alert == alert
    ensures LedgerOk(l.(history := Resolve(l.history, h), messages := l.messages + [Message(alert, monitor, false, h)]))
  {
    RaisedAppend(l.messages, Message(alert, monitor, false, h));
    assert forall k <- Recovered(l.messages) :: k != h;
  }

  lemma {:induction false} RaiseStates(alert: nat, states: map<string, nat>, history: map<nat, Incident>, id: string, h: nat)
    requires StatesMatch(alert, states, history) && id !in states && h !in history
    ensures StatesMatch(alert, states[id := h], history[h := Incident(alert, false)])
  {
    var states', history' := states[id := h], history[h := Incident(alert, false)];
    assert states'[id] == h;
    forall k <- history' | history'[k].alert == alert ensures !history'[k].resolved <==> k in states'.Values {
      if k != h && k in states.Values {
        var j :| j in states && states[j] == k;
        assert states'[j] == k;
      }
    }
  }

  lemma {:induction false} RecoverStates(alert: nat, states: map<string, nat>, history: map<nat, Incident>, id: string)
    requires StatesMatch(alert, states, history) && id in states
    ensures StatesMatch(alert, states - {id}, Resolve(history, states[id]))
  {
    var states', history' := states - {id}, Resolve(history, states[id]);
    forall k <- history' | history'[k].alert == alert ensures !history'[k].resolved <==> k in states'.Values {
      if k != states[id] && k in states.Values {
        var j :| j in states && states[j] == k;
        assert states'[j] == k;
      }
    }
  }

  lemma {:induction false} OwnIncident(alert: nat, before: map<nat, Incident>, mid: map<nat, Incident>, k: nat, incident: Incident)
    requires OnlyOwn(alert, before, mid) && incident.alert == alert
    requires k in mid ==> mid[k].alert == alert && (mid[k].resolved ==> incident.resolved)
    ensures OnlyOwn(alert, before, mid[k := incident])
  {
  }

  lemma {:induction false} RaiseOk(w: Work, alert: nat, start: Ledger, id: string)
    requires WorkOk(alert, start, w) && id !in w.states
    ensures var l := w.ledger;
            WorkOk(alert, start,
                   Work(w.states[id := l.next],
                        Ledger(l.history[l.next := Incident(alert, false)], l.next + 1, l.messages + [Message(alert, id, true, l.next)]),
                        true))
  {
    RaiseLedger(w.ledger, alert, id);
    RaiseStates(alert, w.states, w.ledger.history, id, w.ledger.next);
    OwnIncident(alert, start.history, w.ledger.history, w.ledger.next, Incident(alert, false));
  }

  lemma {:induction false} RecoverOk(w: Work, alert: nat, start: Ledger, id: string)
    requires WorkOk(alert, start, w) && id in w.states
    ensures var l := w.ledger;
            WorkOk(alert, start,
                   Work(w.states - {id},
                        l.(history := Resolve(l.history, w.states[id]), messages := l.messages + [Message(alert, id, false, w.states[id])]),
                        true))
  {
    var h := w.states[id];
    assert h in w.states.Values;
    RecoverLedger(w.ledger, alert, id, h);
    RecoverStates(alert, w.states, w.ledger.history, id);
    OwnIncident(alert, start.history, w.ledger.history, h, w.ledger.history[h].(resolved := true));
  }

  lemma {:induction false} StepMonitorOk(w: Work, a: Alert, start: Ledger, m: Monitor, results: map<string, Result>, now: int)
    requires WorkOk(a.id, start, w)
    ensures WorkOk(a.id, start, StepMonitor(w, a, m, results, now))
  {
    if m.id in w.states {
      RecoverOk(w, a.id, start, m.id);
    } else {
      RaiseOk(w, a.id, start, m.id);
    }
  }

  lemma {:induction false} StepMonitorsOk(w: Work, a: Alert, start: Ledger, monitors: seq<Monitor>, results: map<string, Result>, now: int, enabled: set<string>)
    requires WorkOk(a.id, start, w) && w.states.Keys <= enabled && Ids(monitors) <= enabled
    ensures WorkOk(a.id, start, StepMonitors(w, a, monitors, results, now))
    ensures StepMonitors(w, a, monitors, results, now).states.Keys <= enabled
  {
    if monitors != [] {
      var n := |monitors| - 1;
      assert forall m <- monitors[..n] :: m in monitors;
      assert monitors[n].id in Ids(monitors);
      StepMonitorsOk(w, a, start, monitors[..n], results, now, enabled);
      var v := StepMonitors(w, a, monitors[..n], results, now);
      StepMonitorOk(v, a, start, monitors[n], results, now);
    }
  }

  function Transition(w: Work, a: Alert, m: Monitor, results: map<string, Result>, now: int): seq<(string, bool)> {
    if Flips(w, a, m, results, now) then [(m.id, m.id !in w.states)] else []
  }

  // The transitions an alert makes, in monitor order: (monitor, raised).
  function Transitions(w: Work, a: Alert, monitors: seq<Monitor>, results: map<string, Result>, now: int): seq<(string, bool)> {
    if monitors == [] then []
    else
      var n := |monitors| - 1;
      Transitions(w, a, monitors[..n], results, now)
      + Transition(w, a, monitors[n], results, now)
  }

  function Announced(messages: seq<Message>): seq<(string, bool)> {
    if messages == [] then []
    else
      var n := |messages| - 1;
      Announced(messages[..n]) + [(messages[n].monitor, messages[n].raised)]
  }

  lemma {:induction false} AnnouncedAppend(messages: seq<Message>, m: Message)
    ensures Announced(messages + [m]) == Announced(messages) + [(m.monitor, m.raised)]
  {
    assert (messages + [m])[..|messages|] == messages;
  }

  lemma {:induction false} StepAnnounces(start: Work, w: Work, a: Alert, m: Monitor, results: map<string, Result>, now: int)
    requires m.id in start.states <==> m.id in w.states
    ensures Announced(StepMonitor(w, a, m, results, now).ledger.messages) ==
            Announced(w.ledger.messages) + Transition(start, a, m, results, now)
  {
    var l, l' := w.ledger.messages, StepMonitor(w, a, m, results, now).ledger.messages;
    if l' != l {
      AnnouncedAppend(l, l'[|l|]);
    }
  }

  lemma {:induction false} SameId(w: Work, a: Alert, monitors: seq<Monitor>, results: map<string, Result>, now: int)
    requires Distinct(monitors) && monitors != []
    ensures Distinct(monitors[..|monitors| - 1])
    ensures var last := monitors[|monitors| - 1];
            last.id in w.states <==> last.id in StepMonitors(w, a, monitors[..|monitors| - 1], results, now).states
  {
    var n := |monitors| - 1;
    assert monitors[n].id !in Ids(monitors[..n]);
    StepsTouchOnlyTheirMonitors(w, a, monitors[..n], results, now, monitors[n].id);
  }

  lemma {:induction false} Regroup<T>(a: seq<T>, b: seq<T>, c: seq<T>)
    ensures (a + b) + c == a + (b + c)
  {
  }

  // Messages match transitions one to one, in order.
  lemma {:induction false} MessagesAreTransitions(w: Work, a: Alert, monitors: seq<Monitor>, results: map<string, Result>, now: int)
    requires Distinct(monitors)
    ensures Announced(StepMonitors(w, a, monitors, results, now).ledger.messages) ==
            Announced(w.ledger.messages) + Transitions(w, a, monitors, results, now)
  {
    if monitors != [] {
      var n := |monitors| - 1;
      var front, m := monitors[..n], monitors[n];
      var v := StepMonitors(w, a, front, results, now);
      SameId(w, a, monitors, results, now);
      MessagesAreTransitions(w, a, front, results, now);
      StepAnnounces(w, v, a, m, results, now);
      assert StepMonitors(w, a, monitors, results, now) == StepMonitor(v, a, m, results, now);
      Regroup(Announced(w.ledger.messages), Transitions(w, a, front, results, now), Transition(w, a, m, results, now));
    }
  }

  // And the incidents end up open for exactly the monitors past their threshold, among those that
  // could be observed.
  lemma {:induction false} IncidentsFollowObservations(w: Work, a: Alert, monitors: seq<Monitor>, results: map<string, Result>, now: int)
    requires Distinct(monitors)
    ensures forall m <- monitors ::
              var obs := Observe(a, m, results, now);
              m.id in StepMonitors(w, a, monitors, results, now).states <==> if obs.Some? then obs.value else m.id in w.states
  {
    if monitors != [] {
      var n := |monitors| - 1;
      var front, last := monitors[..n], monitors[n];
      IncidentsFollowObservations(w, a, front, results, now);
      assert last.id !in Ids(front);
      StepsTouchOnlyTheirMonitors(w, a, front, results, now, last.id);
      assert monitors == front + [last];
      forall m <- front ensures m.id != last.id { assert m.id in Ids(front); }
    }
  }

  // ---------- The hub ----------

  ghost predicate AlertOk(h: Hub, i: nat)
    requires i < |h.alerts|
  {
    var a := h.alerts[i];
    && StatesMatch(a.id, a.states, h.ledger.history)
    && (a.triggered <==> a.states != map[])
  }

  ghost predicate AlertIds(alerts: seq<Alert>) {
    forall i, j :: 0 <= i < j < |alerts| ==> alerts[i].id != alerts[j].id
  }

  ghost predicate IsAlert(alerts: seq<Alert>, id: nat) {
    exists a <- alerts :: a.id == id
  }

  ghost predicate HubOk(h: Hub) {
    && Distinct(h.monitors) && AlertIds(h.alerts)
    && LedgerOk(h.ledger)
    && (forall i {:trigger AlertOk(h, i)} | 0 <= i < |h.alerts| :: AlertOk(h, i))
    // nothing stays open under a deleted alert
    && OpenHaveAlert(h.alerts, h.ledger.history)
  }

  // What is stored decodes, and there is nothing stored under an alert that is never evaluated.
  ghost predicate Owned(h: Hub, access: set<string>) {
    forall i :: 0 <= i < |h.alerts| ==> h.alerts[i].decodes && (h.alerts[i].user !in access ==> h.alerts[i].states == map[])
  }

  ghost predicate KeysEnabled(h: Hub, n: nat)
    requires n <= |h.alerts|
  {
    forall i :: 0 <= i < n ==> h.alerts[i].states.Keys <= Ids(h.monitors)
  }

  lemma {:induction false} OthersUnaffected(alert: nat, other: nat, states: map<string, nat>, before: map<nat, Incident>, after: map<nat, Incident>)
    requires OnlyOwn(alert, before, after) && other != alert
    requires StatesMatch(other, states, before)
    ensures StatesMatch(other, states, after)
  {
  }

  lemma {:induction false} OpenStillHasAlert(alerts: seq<Alert>, alerts': seq<Alert>, i: nat, before: map<nat, Incident>, after: map<nat, Incident>)
    requires |alerts'| == |alerts| && (forall j :: 0 <= j < |alerts| ==> alerts'[j].id == alerts[j].id)
    requires i < |alerts| && OnlyOwn(alerts[i].id, before, after) && OpenHaveAlert(alerts, before)
    ensures OpenHaveAlert(alerts', after)
  {
    forall k <- after ensures after[k].resolved || IsAlert(alerts', after[k].alert) {
      if after[k].alert == alerts[i].id {
        assert alerts'[i].id == alerts[i].id;
      } else if !after[k].resolved {
        assert IsAlert(alerts, before[k].alert);
        var j :| 0 <= j < |alerts| && alerts[j].id == after[k].alert;
        assert alerts'[j].id == alerts[j].id;
      }
    }
  }

  // The hub once the work on one alert is done.
  function WithWork(h: Hub, i: nat, w: Work): Hub
    requires i < |h.alerts|
  {
    h.(alerts := h.alerts[i := h.alerts[i].(states := w.states, triggered := w.states != map[])], ledger := w.ledger)
  }

  lemma {:induction false} WithWorkOk(h: Hub, i: nat, w: Work)
    requires HubOk(h) && i < |h.alerts| && WorkOk(h.alerts[i].id, h.ledger, w)
    ensures HubOk(WithWork(h, i, w))
  {
    var a, h' := h.alerts[i], WithWork(h, i, w);
    forall j | 0 <= j < |h'.alerts| ensures AlertOk(h', j) {
      assert AlertOk(h, j);
      if j != i {
        OthersUnaffected(a.id, h.alerts[j].id, h.alerts[j].states, h.ledger.history, w.ledger.history);
      }
    }
    OpenStillHasAlert(h.alerts, h'.alerts, i, h.ledger.history, w.ledger.history);
  }

  lemma {:induction false} EvaluateOneOk(h: Hub, i: nat, access: set<string>, results: map<string, Result>, now: int)
    requires HubOk(h) && i < |h.alerts|
    ensures HubOk(EvaluateOne(h, i, access, results, now))
    ensures var h' := EvaluateOne(h, i, access, results, now);
            h'.alerts[i].user in access ==> h'.alerts[i].states.Keys <= Ids(h.monitors)
  {
    var a := h.alerts[i];
    if a.user in access {
      assert AlertOk(h, i);
      var w := WorkOn(a, h.monitors, h.up, h.ledger, results, now);
      CloseRemovedOk(a, h.monitors, h.ledger);
      StepMonitorsOk(CloseRemoved(a, h.monitors, h.ledger), a, h.ledger, h.monitors, results, now, Ids(h.monitors));
      SavedMatches(a, h.monitors, h.up, h.ledger, results, now);
      assert EvaluateOne(h, i, access, results, now) == WithWork(h, i, w);
      WithWorkOk(h, i, w);
    }
  }

  // What is saved is what was worked out: an alert that is not saved had nothing to save.
  lemma {:induction false} SavedMatches(a: Alert, monitors: seq<Monitor>, up: bool, l: Ledger, results: map<string, Result>, now: int)
    requires Distinct(monitors)
    ensures var w := WorkOn(a, monitors, up, l, results, now);
            SavedAlert(a, w) == a.(states := w.states, triggered := w.states != map[])
  {
    var closed := CloseRemoved(a, monitors, l);
    if !closed.changed {
      assert closed.states == a.states;
    }
    ChangedIffSomeFlips(closed, a, monitors, results, now);
  }

  lemma {:induction false} EvaluateFirstOk(h: Hub, n: nat, access: set<string>, results: map<string, Result>, now: int)
    requires HubOk(h) && Owned(h, access) && n <= |h.alerts|
    ensures HubOk(EvaluateFirst(h, n, access, results, now))
    ensures Owned(EvaluateFirst(h, n, access, results, now), access)
    ensures KeysEnabled(EvaluateFirst(h, n, access, results, now), n)
  {
    if n > 0 {
      EvaluateFirstOk(h, n - 1, access, results, now);
      OneMoreOk(EvaluateFirst(h, n - 1, access, results, now), n - 1, access, results, now, EvaluateFirst(h, n, access, results, now));
    }
  }

  lemma {:induction false} OneMoreOk(h: Hub, i: nat, access: set<string>, results: map<string, Result>, now: int, h': Hub)
    requires HubOk(h) && Owned(h, access) && i < |h.alerts| && KeysEnabled(h, i)
    requires h' == EvaluateOne(h, i, access, results, now)
    ensures HubOk(h') && Owned(h', access) && i < |h'.alerts| && KeysEnabled(h', i + 1)
  {
    EvaluateOneOk(h, i, access, results, now);
    OthersKept(h, i, access, results, now);
  }

  // Evaluating one alert rewrites no other, and leaves an inaccessible one alone.
  lemma {:induction false} OthersKept(h: Hub, i: nat, access: set<string>, results: map<string, Result>, now: int)
    requires Owned(h, access) && i < |h.alerts| && KeysEnabled(h, i)
    requires var a := EvaluateOne(h, i, access, results, now).alerts[i]; a.user in access ==> a.states.Keys <= Ids(h.monitors)
    ensures Owned(EvaluateOne(h, i, access, results, now), access)
    ensures KeysEnabled(EvaluateOne(h, i, access, results, now), i + 1)
  {
    var h' := EvaluateOne(h, i, access, results, now);
    assert h'.monitors == h.monitors && |h'.alerts| == |h.alerts|;
    forall j | 0 <= j < |h.alerts| ensures h'.alerts[j].decodes && h'.alerts[j].user == h.alerts[j].user {
    }
  }

  ghost predicate OpenHaveAlert(alerts: seq<Alert>, history: map<nat, Incident>) {
    forall k <- history :: history[k].resolved || IsAlert(alerts, history[k].alert)
  }

  lemma {:induction false} OpenAfterDelete(alerts: seq<Alert>, i: nat, history: map<nat, Incident>)
    requires i < |alerts| && OpenHaveAlert(alerts, history)
    ensures OpenHaveAlert(alerts[..i] + alerts[i + 1..], ResolveAlert(history, alerts[i].id))
  {
    var alerts', history' := alerts[..i] + alerts[i + 1..], ResolveAlert(history, alerts[i].id);
    forall k <- history' ensures history'[k].resolved || IsAlert(alerts', history'[k].alert) {
      if history[k].alert != alerts[i].id && !history[k].resolved {
        assert IsAlert(alerts, history[k].alert);
        var j :| 0 <= j < |alerts| && alerts[j].id == history[k].alert;
        assert alerts'[if j < i then j else j - 1] == alerts[j];
      }
    }
  }

  lemma {:induction false} DeleteOk(h: Hub, i: nat, access: set<string>)
    requires HubOk(h) && i < |h.alerts|
    ensures HubOk(Apply(h, DeleteAlert(i), access))
  {
    var h', id := Apply(h, DeleteAlert(i), access), h.alerts[i].id;
    assert OnlyOwn(id, h.ledger.history, h'.ledger.history);
    assert h'.ledger.history.Keys == h.ledger.history.Keys;
    forall j | 0 <= j < |h'.alerts| ensures AlertOk(h', j) {
      var k := if j < i then j else j + 1;
      assert h'.alerts[j] == h.alerts[k] && AlertOk(h, k);
      OthersUnaffected(id, h.alerts[k].id, h.alerts[k].states, h.ledger.history, h'.ledger.history);
    }
    OpenAfterDelete(h.alerts, i, h.ledger.history);
  }

  lemma {:induction false} AddOk(h: Hub, a: Alert, access: set<string>)
    requires HubOk(h) && Allowed(h, AddAlert(a))
    ensures HubOk(Apply(h, AddAlert(a), access))
  {
    var h' := Apply(h, AddAlert(a), access);
    forall j | 0 <= j < |h'.alerts| ensures AlertOk(h', j) {
      if j < |h.alerts| { assert AlertOk(h, j); }
    }
    forall k <- h'.ledger.history ensures h'.ledger.history[k].resolved || IsAlert(h'.alerts, h'.ledger.history[k].alert) {
      if !h.ledger.history[k].resolved {
        assert IsAlert(h.alerts, h.ledger.history[k].alert);
        var j :| 0 <= j < |h.alerts| && h.alerts[j].id == h.ledger.history[k].alert;
        assert h'.alerts[j] == h.alerts[j];
      }
    }
  }

  // Operations that leave the ledger and every alert's incidents alone.
  lemma {:induction false} QuietOpOk(h: Hub, h': Hub)
    requires HubOk(h) && Distinct(h'.monitors)
    requires h'.ledger == h.ledger && |h'.alerts| == |h.alerts|
    requires forall i :: 0 <= i < |h.alerts| ==> h'.alerts[i] == h.alerts[i].(threshold := h'.alerts[i].threshold)
    ensures HubOk(h')
  {
    forall j | 0 <= j < |h'.alerts| ensures AlertOk(h', j) { assert AlertOk(h, j); }
    forall k <- h'.ledger.history ensures h'.ledger.history[k].resolved || IsAlert(h'.alerts, h'.ledger.history[k].alert) {
      if !h.ledger.history[k].resolved {
        assert IsAlert(h.alerts, h.ledger.history[k].alert);
        var j :| 0 <= j < |h.alerts| && h.alerts[j].id == h.ledger.history[k].alert;
        assert h'.alerts[j].id == h.alerts[j].id;
      }
    }
  }

  // In step, with every alert's incidents on enabled monitors.
  ghost predicate InStep(h: Hub, access: set<string>) {
    HubOk(h) && Owned(h, access) && KeysEnabled(h, |h.alerts|)
  }

  lemma {:induction false} EvaluatedInStep(h: Hub, access: set<string>, results: map<string, Result>, now: int)
    requires HubOk(h) && Owned(h, access)
    ensures InStep(Evaluated(h, access, results, now), access)
  {
    assert Readable(h, access);
    EvaluateFirstOk(h, |h.alerts|, access, results, now);
  }

  // Dropping a monitor leaves incidents behind until the cleanup has run.
  lemma {:induction false} DropInStep(h: Hub, i: nat, now: int, access: set<string>)
    requires InStep(h, access) && i < |h.monitors|
    ensures InStep(Apply(h, DropMonitor(i, now), access), access)
  {
    var dropped := h.(monitors := h.monitors[..i] + h.monitors[i + 1..]);
    QuietOpOk(h, dropped);
    EvaluatedInStep(dropped, access, map[], now);
  }

  lemma {:induction false} EnableInStep(h: Hub, m: Monitor, access: set<string>)
    requires InStep(h, access) && Allowed(h, EnableMonitor(m))
    ensures InStep(Apply(h, EnableMonitor(m), access), access)
  {
    var h' := Apply(h, EnableMonitor(m), access);
    forall i | 0 <= i < |h.monitors| ensures h.monitors[i].id != m.id { assert h.monitors[i] in h.monitors; }
    QuietOpOk(h, h');
    assert forall k <- h.monitors :: k in h'.monitors;
  }

  lemma {:induction false} ChangeInStep(h: Hub, i: nat, m: Monitor, access: set<string>)
    requires InStep(h, access) && Allowed(h, ChangeMonitor(i, m))
    ensures InStep(Apply(h, ChangeMonitor(i, m), access), access)
  {
    var h' := Apply(h, ChangeMonitor(i, m), access);
    QuietOpOk(h, h');
    forall id <- Ids(h.monitors) ensures id in Ids(h'.monitors) {
      var j :| 0 <= j < |h.monitors| && h.monitors[j].id == id;
      assert h'.monitors[j] in h'.monitors && h'.monitors[j].id == id;
    }
  }

  lemma {:induction false} ApplyInStep(h: Hub, op: Op, access: set<string>)
    requires InStep(h, access) && Allowed(h, op)
    ensures InStep(Apply(h, op, access), access)
  {
    match op
    case Evaluate(results, now) => EvaluatedInStep(h, access, results, now);
    case EnableMonitor(m) => EnableInStep(h, m, access);
    case ChangeMonitor(i, m) => ChangeInStep(h, i, m, access);
    case DropMonitor(i, now) => DropInStep(h, i, now, access);
    case SetStatus(_) => QuietOpOk(h, Apply(h, op, access));
    case AddAlert(a) => AddOk(h, a, access);
    case SetThreshold(_, _) => QuietOpOk(h, Apply(h, op, access));
    case DeleteAlert(i) => DeleteOk(h, i, access);
  }

  // ---------- What an evaluation does, in the values of the records ----------

  const NANOS_PER_DAY := 86_400_000_000_000

  // Three attempts or more, a loss between 0 and 100 percent, and a last probe that is at most a
  // minute ahead, and old by at most an hour, and by at most three intervals or three minutes.
  predicate Reported(r: Result, interval: int, now: int) {
    var age := now - r.lastProbeAt * 1_000_000;
    && r.sampleCount >= 3 && r.lastProbeAt > 0
    && r.packetLoss1h.Finite? && 0.0 <= r.packetLoss1h.value && r.packetLoss1h.value <= 100.0
    && age >= -60_000_000_000 && age <= 3_600_000_000_000
    && (age <= 3 * interval * 1_000_000_000 || age <= 180_000_000_000)
  }

  // The expiry is at most so many days after `now`. Days are cut to whole nanoseconds toward zero.
  predicate ExpiresWithin(expires: int, days: real, now: int) {
    var left := (expires * 1_000_000 - now) as real;
    if days >= 0.0 then left <= days * NANOS_PER_DAY as real else left < days * NANOS_PER_DAY as real + 1.0
  }

  // Whether an alert of a system that is up has an incident for a monitor after an evaluation.
  ghost predicate OpenAfter(a: Alert, m: Monitor, results: map<string, Result>, now: int) {
    match a.kind
    case LossAlert =>
      if m.id in results && Reported(results[m.id], m.interval, now) then results[m.id].packetLoss1h.value > a.threshold
      else m.id in a.states
    case CertAlert =>
      if m.cert.decodes && m.cert.expires > 0 then ExpiresWithin(m.cert.expires, a.threshold, now)
      else m.id in a.states
  }

  lemma {:induction false} CutoffMeaning(expires: int, days: real, now: int)
    ensures expires <= CertExpiryCutoff(days, now) <==> ExpiresWithin(expires, days, now)
  {
    assert DAY == NANOS_PER_DAY;
    var ns := days * DAY as real;
    var whole := if ns >= 0.0 then ns.Floor else -((-ns).Floor);
    assert expires <= (now + whole) / MILLISECOND <==> expires * 1_000_000 <= now + whole;
    var left := expires * 1_000_000 - now;
    if days >= 0.0 {
      assert ns >= 0.0;
      assert left <= ns.Floor <==> left as real <= ns;
    } else {
      assert ns < 0.0;
      assert left <= -((-ns).Floor) <==> (left as real) < ns + 1.0;
    }
  }

  lemma {:induction false} OpenAfterWork(a: Alert, monitors: seq<Monitor>, l: Ledger, results: map<string, Result>, now: int, m: Monitor)
    requires Distinct(monitors) && m in monitors
    ensures m.id in WorkOn(a, monitors, true, l, results, now).states <==> OpenAfter(a, m, results, now)
  {
    IncidentsFollowObservations(CloseRemoved(a, monitors, l), a, monitors, results, now);
    assert m.id in Ids(monitors);
    CutoffMeaning(m.cert.expires, a.threshold, now);
    assert m.id in results ==> (ResultReady(results[m.id], m.interval, now) <==> Reported(results[m.id], m.interval, now));
  }

  // A system that is down: its enabled monitors keep their incidents, and nothing is sent.
  lemma {:induction false} DownWork(a: Alert, monitors: seq<Monitor>, l: Ledger, results: map<string, Result>, now: int)
    ensures var w := WorkOn(a, monitors, false, l, results, now);
            w.ledger.messages == l.messages && forall id <- Ids(monitors) :: id in w.states <==> id in a.states
  {
  }

  // What the evaluation of the whole system leaves of each alert.
  lemma {:induction false} EvaluatedAlert(h: Hub, n: nat, access: set<string>, results: map<string, Result>, now: int, i: nat) returns (l: Ledger)
    requires i < n <= |h.alerts|
    ensures var a := h.alerts[i];
            EvaluateFirst(h, n, access, results, now).alerts[i] ==
            if a.user in access then SavedAlert(a, WorkOn(a, h.monitors, h.up, l, results, now)) else a
  {
    if i == n - 1 {
      l := EvaluateFirst(h, i, access, results, now).ledger;
    } else {
      l := EvaluatedAlert(h, n - 1, access, results, now, i);
    }
  }

  lemma {:induction false} DownSendsNothing(h: Hub, n: nat, access: set<string>, results: map<string, Result>, now: int)
    requires !h.up && n <= |h.alerts|
    ensures EvaluateFirst(h, n, access, results, now).ledger.messages == h.ledger.messages
  {
    if n > 0 {
      DownSendsNothing(h, n - 1, access, results, now);
      var before := EvaluateFirst(h, n - 1, access, results, now);
      DownWork(h.alerts[n - 1], h.monitors, before.ledger, results, now);
    }
  }

  // One alert after an evaluation. Its record keeps what its user configured. Alerts of users
  // without access stay as they are; of the others, incidents of monitors that are not enabled
  // are closed, and those of enabled ones are open as their results and certificates say. A
  // system that is down opens and recovers none and sends nothing.
  lemma {:induction false} EvaluationMeaning(h: Hub, access: set<string>, results: map<string, Result>, now: int, i: nat)
    requires Distinct(h.monitors) && Readable(h, access) && i < |h.alerts|
    ensures var h', a := Evaluated(h, access, results, now), h.alerts[i];
            && |h'.alerts| == |h.alerts| && h'.monitors == h.monitors && h'.up == h.up
            && h'.alerts[i] == a.(states := h'.alerts[i].states, triggered := h'.alerts[i].triggered)
            && (a.user !in access ==> h'.alerts[i] == a)
            && (a.user in access ==>
                && (h'.alerts[i].triggered <==> h'.alerts[i].states != map[])
                && (forall id <- h'.alerts[i].states :: exists m <- h.monitors :: m.id == id)
                && forall m <- h.monitors ::
                     m.id in h'.alerts[i].states <==> if h.up then OpenAfter(a, m, results, now) else m.id in a.states)
            && (!h.up ==> h'.ledger.messages == h.ledger.messages)
  {
    var a, n := h.alerts[i], |h.alerts|;
    var l := EvaluatedAlert(h, n, access, results, now, i);
    if !h.up {
      DownSendsNothing(h, n, access, results, now);
    }
    if a.user in access {
      OneAlertMeaning(a, h.monitors, h.up, l, results, now);
    }
  }

  lemma {:induction false} OneAlertMeaning(a: Alert, monitors: seq<Monitor>, up: bool, l: Ledger, results: map<string, Result>, now: int)
    requires Distinct(monitors)
    ensures var a' := SavedAlert(a, WorkOn(a, monitors, up, l, results, now));
            && (a'.triggered <==> a'.states != map[])
            && (forall id <- a'.states :: exists m <- monitors :: m.id == id)
            && forall m <- monitors ::
                 m.id in a'.states <==> if up then OpenAfter(a, m, results, now) else m.id in a.states
  {
    SavedMatches(a, monitors, up, l, results, now);
    var w := WorkOn(a, monitors, up, l, results, now);
    OnlyEnabledStay(a, monitors, up, l, results, now);
    forall m <- monitors
      ensures m.id in w.states <==> if up then OpenAfter(a, m, results, now) else m.id in a.states
    {
      assert m.id in Ids(monitors);
      if up {
        OpenAfterWork(a, monitors, l, results, now, m);
      } else {
        DownWork(a, monitors, l, results, now);
      }
    }
  }

  lemma {:induction false} OnlyEnabledStay(a: Alert, monitors: seq<Monitor>, up: bool, l: Ledger, results: map<string, Result>, now: int)
    ensures forall id <- WorkOn(a, monitors, up, l, results, now).states :: exists m <- monitors :: m.id == id
  {
    var w := WorkOn(a, monitors, up, l, results, now);
    forall id <- w.states ensures exists m <- monitors :: m.id == id {
      if id !in Ids(monitors) {
        StepsTouchOnlyTheirMonitors(CloseRemoved(a, monitors, l), a, monitors, results, now, id);
      }
    }
  }

  // The messages that tell how an alert's incidents changed, in monitor order.
  function Changes(alert: nat, before: map<string, nat>, after: map<string, nat>, monitors: seq<Monitor>): seq<Message> {
    if monitors == [] then []
    else
      var n := |monitors| - 1;
      Changes(alert, before, after, monitors[..n]) + Change(alert, before, after, monitors[n].id)
  }

  function Change(alert: nat, before: map<string, nat>, after: map<string, nat>, id: string): seq<Message> {
    if id in after && id !in before then [Message(alert, id, true, after[id])]
    else if id in before && id !in after then [Message(alert, id, false, before[id])]
    else []
  }

  predicate AgreeOn(a: map<string, nat>, b: map<string, nat>, id: string) {
    (id in a <==> id in b) && (id in a ==> a[id] == b[id])
  }

  lemma {:induction false} ChangesCongruent(alert: nat, before: map<string, nat>, before': map<string, nat>,
                                            after: map<string, nat>, after': map<string, nat>, monitors: seq<Monitor>)
    requires forall m <- monitors :: AgreeOn(before, before', m.id) && AgreeOn(after, after', m.id)
    ensures Changes(alert, before, after, monitors) == Changes(alert, before', after', monitors)
  {
    if monitors != [] {
      var n := |monitors| - 1;
      assert monitors[n] in monitors;
      ChangesCongruent(alert, before, before', after, after', monitors[..n]);
    }
  }

  lemma {:induction false} StepsKeepOthers(w: Work, a: Alert, monitors: seq<Monitor>, results: map<string, Result>, now: int, id: string)
    requires id !in Ids(monitors)
    ensures AgreeOn(w.states, StepMonitors(w, a, monitors, results, now).states, id)
  {
    if monitors != [] {
      var n := |monitors| - 1;
      assert forall m <- monitors[..n] :: m in monitors;
      assert monitors[n].id in Ids(monitors);
      StepsKeepOthers(w, a, monitors[..n], results, now, id);
    }
  }

  lemma {:induction false} StepAnnouncesChange(w: Work, v: Work, a: Alert, m: Monitor, results: map<string, Result>, now: int)
    requires AgreeOn(w.states, v.states, m.id)
    ensures var done := StepMonitor(v, a, m, results, now);
            && done.ledger.messages == v.ledger.messages + Change(a.id, w.states, done.states, m.id)
            && forall id :: id != m.id ==> AgreeOn(v.states, done.states, id)
  {
  }

  lemma {:induction false} StepsAnnounceChanges(w: Work, a: Alert, monitors: seq<Monitor>, results: map<string, Result>, now: int)
    requires Distinct(monitors)
    ensures var done := StepMonitors(w, a, monitors, results, now);
            done.ledger.messages == w.ledger.messages + Changes(a.id, w.states, done.states, monitors)
  {
    if monitors != [] {
      var n := |monitors| - 1;
      var front, last := monitors[..n], monitors[n];
      var v, done := StepMonitors(w, a, front, results, now), StepMonitors(w, a, monitors, results, now);
      StepsAnnounceChanges(w, a, front, results, now);
      assert last.id !in Ids(front);
      StepsKeepOthers(w, a, front, results, now, last.id);
      StepAnnouncesChange(w, v, a, last, results, now);
      forall m <- front ensures m.id != last.id { assert m.id in Ids(front); }
      ChangesCongruent(a.id, w.states, w.states, v.states, done.states, front);
    }
  }

  lemma {:induction false} WorkAnnouncesChanges(a: Alert, monitors: seq<Monitor>, l: Ledger, results: map<string, Result>, now: int)
    requires Distinct(monitors)
    ensures var w := WorkOn(a, monitors, true, l, results, now);
            w.ledger.messages == l.messages + Changes(a.id, a.states, SavedAlert(a, w).states, monitors)
  {
    var closed, w := CloseRemoved(a, monitors, l), WorkOn(a, monitors, true, l, results, now);
    StepsAnnounceChanges(closed, a, monitors, results, now);
    SavedMatches(a, monitors, true, l, results, now);
    forall m <- monitors ensures AgreeOn(closed.states, a.states, m.id) {
      assert m.id in Ids(monitors);
    }
    ChangesCongruent(a.id, closed.states, a.states, w.states, w.states, monitors);
  }

  // The same for the first n alerts, in alert order.
  function AllChanges(before: seq<Alert>, after: seq<Alert>, monitors: seq<Monitor>, n: nat): seq<Message>
    requires n <= |before| == |after|
  {
    if n == 0 then []
    else
      AllChanges(before, after, monitors, n - 1)
      + Changes(before[n - 1].id, before[n - 1].states, after[n - 1].states, monitors)
  }

  lemma {:induction false} AllChangesCongruent(before: seq<Alert>, after: seq<Alert>, after': seq<Alert>, monitors: seq<Monitor>, n: nat)
    requires n <= |before| == |after| == |after'| && forall i :: 0 <= i < n ==> after[i] == after'[i]
    ensures AllChanges(before, after, monitors, n) == AllChanges(before, after', monitors, n)
  {
    if n > 0 {
      AllChangesCongruent(before, after, after', monitors, n - 1);
    }
  }

  lemma {:induction false} NoChanges(alert: nat, states: map<string, nat>, monitors: seq<Monitor>)
    ensures Changes(alert, states, states, monitors) == []
  {
    if monitors != [] {
      NoChanges(alert, states, monitors[..|monitors| - 1]);
    }
  }

  // Alert i alone has changed, and the messages added tell how.
  ghost predicate OneTold(h: Hub, h': Hub, i: nat)
    requires i < |h.alerts|
  {
    && |h'.alerts| == |h.alerts| && (forall j :: 0 <= j < |h.alerts| && j != i ==> h'.alerts[j] == h.alerts[j])
    && h'.ledger.messages == h.ledger.messages + Changes(h.alerts[i].id, h.alerts[i].states, h'.alerts[i].states, h.monitors)
  }

  // The first n alerts alone have changed, and the messages added tell how.
  ghost predicate AllTold(h: Hub, h': Hub, n: nat)
    requires n <= |h.alerts|
  {
    && |h'.alerts| == |h.alerts| && (forall j :: n <= j < |h.alerts| ==> h'.alerts[j] == h.alerts[j])
    && h'.monitors == h.monitors
    && h'.ledger.messages == h.ledger.messages + AllChanges(h.alerts, h'.alerts, h.monitors, n)
  }

  lemma {:induction false} OneMessages(h: Hub, i: nat, access: set<string>, results: map<string, Result>, now: int)
    requires h.up && Distinct(h.monitors) && i < |h.alerts|
    ensures OneTold(h, EvaluateOne(h, i, access, results, now), i)
  {
    if h.alerts[i].user in access {
      WorkAnnouncesChanges(h.alerts[i], h.monitors, h.ledger, results, now);
    } else {
      NoChanges(h.alerts[i].id, h.alerts[i].states, h.monitors);
    }
  }

  lemma {:induction false} OneMoreTold(h: Hub, before: Hub, h': Hub, i: nat)
    requires i < |h.alerts| && AllTold(h, before, i) && OneTold(before, h', i) && h'.monitors == h.monitors
    ensures AllTold(h, h', i + 1)
  {
    AllChangesCongruent(h.alerts, before.alerts, h'.alerts, h.monitors, i);
    assert before.alerts[i] == h.alerts[i];
  }

  lemma {:induction false} NextMessages(h: Hub, before: Hub, i: nat, access: set<string>, results: map<string, Result>, now: int)
    requires i < |h.alerts| && AllTold(h, before, i)
    requires before.up && Distinct(before.monitors)
    ensures AllTold(h, EvaluateOne(before, i, access, results, now), i + 1)
  {
    OneMessages(before, i, access, results, now);
    OneMoreTold(h, before, EvaluateOne(before, i, access, results, now), i);
  }

  lemma {:induction false} FirstMessages(h: Hub, n: nat, access: set<string>, results: map<string, Result>, now: int)
    requires h.up && Distinct(h.monitors) && n <= |h.alerts|
    ensures AllTold(h, EvaluateFirst(h, n, access, results, now), n)
  {
    if n > 0 {
      var before := EvaluateFirst(h, n - 1, access, results, now);
      FirstMessages(h, n - 1, access, results, now);
      NextMessages(h, before, n - 1, access, results, now);
    }
  }

  // The messages of an evaluation are those that the change of the records calls for: one for each
  // incident of an enabled monitor that is opened or closed, in the order of alerts and monitors.
  lemma {:induction false} MessagesTellChanges(h: Hub, access: set<string>, results: map<string, Result>, now: int)
    requires Distinct(h.monitors)
    ensures var h' := Evaluated(h, access, results, now);
            && |h'.alerts| == |h.alerts|
            && h'.ledger.messages ==
               h.ledger.messages + if h.up then AllChanges(h.alerts, h'.alerts, h.monitors, |h.alerts|) else []
  {
    if !h.up {
      DownSendsNothing(h, |h.alerts|, access, results, now);
    } else if Readable(h, access) {
      FirstMessages(h, |h.alerts|, access, results, now);
    } else {
      NothingChanges(h.alerts, h.monitors, |h.alerts|);
    }
  }

  lemma {:induction false} NothingChanges(alerts: seq<Alert>, monitors: seq<Monitor>, n: nat)
    requires n <= |alerts|
    ensures AllChanges(alerts, alerts, monitors, n) == []
  {
    if n > 0 {
      NothingChanges(alerts, monitors, n - 1);
      NoChanges(alerts[n - 1].id, alerts[n - 1].states, monitors);
    }
  }

  // ---------- Hubs with given incidents ----------

  lemma {:induction false} OpenOne(alert: nat, id: string, start: Ledger, w: Work) returns (r: Work)
    requires WorkOk(alert, start, w) && id !in w.states
    ensures WorkOk(alert, start, r) && r.states.Keys == w.states.Keys + {id}
  {
    var l := w.ledger;
    RaiseOk(w, alert, start, id);
    r := Work(w.states[id := l.next],
              Ledger(l.history[l.next := Incident(alert, false)], l.next + 1, l.messages + [Message(alert, id, true, l.next)]),
              true);
  }

  lemma {:induction false} OneOfThem(ids: set<string>, id: string, rest: set<string>, keys: set<string>)
    requires id in ids && rest == ids - {id} && ids !! keys
    ensures |rest| < |ids| && rest !! keys && id !in keys + rest && (keys + rest) + {id} == keys + ids
  {
  }

  lemma {:induction false} OpenIncidents(alert: nat, ids: set<string>, start: Ledger, w: Work) returns (r: Work)
    requires WorkOk(alert, start, w) && ids !! w.states.Keys
    ensures WorkOk(alert, start, r) && r.states.Keys == w.states.Keys + ids
    decreases |ids|
  {
    if ids == {} {
      return w;
    }
    var id :| id in ids;
    var rest := ids - {id};
    OneOfThem(ids, id, rest, w.states.Keys);
    var before := OpenIncidents(alert, rest, start, w);
    r := OpenOne(alert, id, start, before);
  }

  lemma {:induction false} OpenFor(h: Hub, i: nat, ids: set<string>) returns (w: Work)
    requires HubOk(h) && i < |h.alerts| && h.alerts[i].states == map[]
    ensures w.states.Keys == ids && HubOk(WithWork(h, i, w))
  {
    assert AlertOk(h, i);
    var none := Work(map[], h.ledger, false);
    assert WorkOk(h.alerts[i].id, h.ledger, none);
    w := OpenIncidents(h.alerts[i].id, ids, h.ledger, none);
    WithWorkOk(h, i, w);
  }

  function NoIncidents(a: Alert): Alert {
    a.(states := map[], triggered := false)
  }

  function Cleared(h: Hub): Hub {
    h.(alerts := seq(|h.alerts|, i requires 0 <= i < |h.alerts| => NoIncidents(h.alerts[i])), ledger := Ledger(map[], 0, []))
  }

  lemma {:induction false} ClearedOk(h: Hub)
    requires Distinct(h.monitors) && AlertIds(h.alerts)
    ensures HubOk(Cleared(h))
  {
    forall i | 0 <= i < |h.alerts| ensures AlertOk(Cleared(h), i) {}
  }

  // The same system and alerts, with open incidents for exactly the given monitors.
  ghost predicate HasIncidents(h: Hub, h': Hub, keys: seq<set<string>>, n: nat)
    requires |keys| == |h.alerts|
  {
    && h'.monitors == h.monitors && h'.up == h.up && |h'.alerts| == |h.alerts|
    && forall i :: 0 <= i < |h.alerts| ==>
         NoIncidents(h'.alerts[i]) == NoIncidents(h.alerts[i]) && h'.alerts[i].states.Keys == if i < n then keys[i] else {}
  }

  lemma {:induction false} OneMoreHasIncidents(h: Hub, before: Hub, keys: seq<set<string>>, i: nat, w: Work)
    requires |keys| == |h.alerts| && i < |keys| && HasIncidents(h, before, keys, i) && w.states.Keys == keys[i]
    ensures HasIncidents(h, WithWork(before, i, w), keys, i + 1)
  {
  }

  lemma {:induction false} WithIncidents(h: Hub, keys: seq<set<string>>, n: nat) returns (h': Hub)
    requires Distinct(h.monitors) && AlertIds(h.alerts) && |keys| == |h.alerts| && n <= |keys|
    ensures HubOk(h') && HasIncidents(h, h', keys, n)
  {
    if n == 0 {
      ClearedOk(h);
      return Cleared(h);
    }
    var before := WithIncidents(h, keys, n - 1);
    assert before.alerts[n - 1].states.Keys == {};
    var w := OpenFor(before, n - 1, keys[n - 1]);
    OneMoreHasIncidents(h, before, keys, n - 1, w);
    h' := WithWork(before, n - 1, w);
  }

  // What each operation changes besides evaluating: the one thing it is about.
  lemma {:induction false} OperationChanges(h: Hub, op: Op, access: set<string>)
    requires Allowed(h, op)
    ensures var h' := Apply(h, op, access);
            match op
            case EnableMonitor(m) => h'.monitors == h.monitors + [m] && h' == h.(monitors := h'.monitors)
            case ChangeMonitor(i, m) =>
              && |h'.monitors| == |h.monitors| && h'.monitors[i] == m && h' == h.(monitors := h'.monitors)
              && (forall j :: 0 <= j < |h.monitors| && j != i ==> h'.monitors[j] == h.monitors[j])
            case DropMonitor(i, _) => h'.monitors == h.monitors[..i] + h.monitors[i + 1..] && h'.up == h.up
            case SetStatus(up) => h' == h.(up := up)
            case AddAlert(a) => h'.alerts == h.alerts + [a] && h' == h.(alerts := h'.alerts)
            case SetThreshold(i, t) =>
              && |h'.alerts| == |h.alerts| && h'.alerts[i] == h.alerts[i].(threshold := t) && h' == h.(alerts := h'.alerts)
              && (forall j :: 0 <= j < |h.alerts| && j != i ==> h'.alerts[j] == h.alerts[j])
            case DeleteAlert(i) =>
              && h'.alerts == h.alerts[..i] + h.alerts[i + 1..] && h'.monitors == h.monitors && h'.up == h.up
              && h'.ledger.messages == h.ledger.messages && h'.ledger.next == h.ledger.next
              && h'.ledger.history.Keys == h.ledger.history.Keys
              && forall k <- h.ledger.history ::
                   h'.ledger.history[k] ==
                     if h.ledger.history[k].alert == h.alerts[i].id then Incident(h.alerts[i].id, true) else h.ledger.history[k]
            case Evaluate(_, _) => h'.monitors == h.monitors && h'.up == h.up
  {
    if op.DropMonitor? {
      var dropped := h.(monitors := h.monitors[..op.i] + h.monitors[op.i + 1..]);
      assert Evaluated(dropped, access, map[], op.now).monitors == dropped.monitors;
    }
  }

  // A monitor that is dropped closes its incidents at once, for every alert that is evaluated.
  lemma {:induction false} DroppedMonitorCloses(h: Hub, i: nat, now: int, access: set<string>, j: nat)
    requires Distinct(h.monitors) && i < |h.monitors| && Readable(h, access) && j < |h.alerts| && h.alerts[j].user in access
    ensures var h' := Apply(h, DropMonitor(i, now), access);
            && |h'.alerts| == |h.alerts| && h.monitors[i].id !in h'.alerts[j].states
            && forall k :: 0 <= k < |h.monitors| && k != i && !h.up ==>
                 (h.monitors[k].id in h'.alerts[j].states <==> h.monitors[k].id in h.alerts[j].states)
  {
    var left := h.monitors[..i] + h.monitors[i + 1..];
    var dropped := h.(monitors := left);
    forall k | 0 <= k < |h.monitors| && k != i ensures h.monitors[k] in left {
      assert h.monitors[k] == if k < i then left[k] else left[k - 1];
    }
    EvaluationMeaning(dropped, access, map[], now, j);
  }

  // ---------- Over whole runs ----------

  ghost predicate Execution(states: seq<Hub>, ops: seq<Op>, access: set<string>) {
    && |states| == |ops| + 1
    && states[0].alerts == [] && states[0].monitors == [] && states[0].ledger == Ledger(map[], 0, [])
    && forall i {:trigger Allowed(states[i], ops[i])} ::
         0 <= i < |ops| ==> Allowed(states[i], ops[i]) && states[i + 1] == Apply(states[i], ops[i], access)
  }

  // After any operations, for every alert: it is triggered exactly when its state map is not
  // empty, the map is a bijection onto its unresolved history, its keys are enabled monitors, and
  // it is empty for a user without access.
  // Every incident on record was announced by exactly one message in record order, and at most
  // once as recovered.
  lemma {:induction false} IncidentsStayInStep(states: seq<Hub>, ops: seq<Op>, access: set<string>, n: nat)
    requires Execution(states, ops, access) && n < |states|
    ensures InStep(states[n], access)
  {
    if n > 0 {
      IncidentsStayInStep(states, ops, access, n - 1);
      assert Allowed(states[n - 1], ops[n - 1]);
      ApplyInStep(states[n - 1], ops[n - 1], access);
    }
  }
}
