/** The agent's connection manager: an event loop, the goroutines that feed it, and the slot that
    holds the current WebSocket connection, as a state machine. Each step is one locked section,
    one channel operation or one read of a shared variable, so the handlers of the loop take
    several steps and everything else may happen in between.

    `ConnectionManager` at the end runs the handlers as methods on an object and shows that, left
    alone, they do what the loop's own steps do. */
module ConnectionManager {
  import opened Wrappers

  // Times are nanoseconds of the monotonic clock.
  const SECOND := 1_000_000_000
  const RETRY_DELAY := 5 * SECOND

  datatype Connection = Disconnected | WebSocketConnected | SSHConnected

  // What is sent on the event channel. SSH changes have their own coalescing channel.
  datatype Event = WebSocketConnect | WebSocketDisconnect

  // startWebSocketConnection between two of its steps: entered, found disconnected, allowed to
  // dial, dialing.
  datatype Attempt = Entered | FoundDisconnected | Allowed | Dialing

  // The one `connect` that is pending or running.
  datatype Connector = NoConnect | Fresh | Waiting(since: int) | Attempting(attempt: Attempt) | Ending

  datatype Loop =
    | Starting // Start runs connect itself before it enters the loop
    | Idle
    | Ticking(attempt: Attempt)
    | TookEvent(event: Event)
    | TookSSHChange
    | SawSSH(has: bool)
    | Changing(to: Connection)
    | Changed(to: Connection)
    | Spawning // isConnecting is set, the goroutine not started yet

  // Connections are numbered by the dial that made them; `live` are those whose reader has not
  // run OnClose. `dials` holds the start of every dial.
  datatype State = State(
    connection: Connection, loop: Loop, armed: bool, connecting: bool, connector: Connector,
    configured: bool, conn: Option<nat>, verified: bool, live: set<nat>,
    queue: Option<Event>, senders: multiset<Event>,
    sshConnections: nat, notifies: nat, token: bool,
    now: int, lastAttempt: Option<int>, dials: seq<int>)

  datatype Step =
    | Advance(delay: nat)
    | OpenSSH
    | CloseSSH
    | NotifySSHChange
    | Authenticate(conn: nat)
    | Close(conn: nat)
    | Send(event: Event)
    | TakeEvent
    | TakeSSHChange
    | Tick
    | Handle // the next step of the handler the loop is in
    | TickAttempt(ok: bool)
    | Connect(ok: bool) // the next step of connect; ok says whether a dial succeeds

  predicate Handling(loop: Loop) {
    !loop.Starting? && !loop.Idle? && !loop.Ticking?
  }

  predicate Enabled(s: State, step: Step) {
    match step
    case Advance(_) => true
    case OpenSSH => true
    case CloseSSH => s.sshConnections > 0
    case NotifySSHChange => s.notifies > 0
    case Authenticate(k) => k in s.live
    case Close(k) => k in s.live
    case Send(e) => e in s.senders && s.queue.None?
    case TakeEvent => s.loop.Idle? && s.queue.Some?
    case TakeSSHChange => s.loop.Idle? && s.token
    case Tick => s.loop.Idle? && s.armed
    case Handle => Handling(s.loop)
    case TickAttempt(_) => s.loop.Ticking?
    case Connect(_) =>
      match s.connector
      case NoConnect => false
      case Waiting(since) => s.now >= since + RETRY_DELAY
      case _ => true
  }

  // ---------- Handlers ----------

  function AfterEvent(s: State, e: Event): Loop {
    match e
    case WebSocketConnect =>
      // refused when a superseded connection authenticated
      if s.conn.Some? && s.verified then Changing(WebSocketConnected) else Idle
    case WebSocketDisconnect =>
      // ignored when an older connection closed after its replacement was installed
      if s.conn.None? && s.connection.WebSocketConnected? then Changing(Disconnected) else Idle
  }

  function AfterSSHChange(s: State, has: bool): Loop {
    if has then
      if s.connection.Disconnected? && s.sshConnections > 0 then Changing(SSHConnected) else Idle
    else
      if s.connection.SSHConnected? && s.sshConnections == 0 then Changing(Disconnected) else Idle
  }

  // The next step of handleEvent, handleSSHChange or handleStateChange.
  function HandlerStep(s: State): State
    requires Handling(s.loop)
  {
    match s.loop
    case TookEvent(e) => s.(loop := AfterEvent(s, e))
    case TookSSHChange => s.(loop := SawSSH(s.sshConnections > 0))
    case SawSSH(has) => s.(loop := AfterSSHChange(s, has))
    case Changing(to) => s.(connection := to, loop := if s.connection == to then Idle else Changed(to))
    case Changed(to) =>
      if to.Disconnected? then s.(armed := true, connecting := true, loop := if s.connecting then Idle else Spawning)
      else s.(armed := false, loop := Idle)
    case Spawning => s.(connector := Fresh, loop := Idle)
  }

  // ---------- Dialing ----------

  predicate Settled(s: State) {
    s.lastAttempt.None? || s.now - s.lastAttempt.value >= RETRY_DELAY
  }

  // The next step of an attempt, and where that leaves it; None is the end of the attempt.
  function AttemptStep(s: State, attempt: Attempt, ok: bool): (State, Option<Attempt>) {
    match attempt
    case Entered => (s, if s.connection.Disconnected? then Some(FoundDisconnected) else None)
    case FoundDisconnected => (s, if s.configured && Settled(s) then Some(Allowed) else None)
    case Allowed => (s.(lastAttempt := Some(s.now), dials := s.dials + [s.now]), Some(Dialing))
    case Dialing =>
      if ok then (s.(conn := Some(|s.dials|), verified := false, live := s.live + {|s.dials|}), None)
      else (s, None)
  }

  function ConnectStep(s: State, ok: bool): State
    requires !s.connector.NoConnect?
  {
    match s.connector
    case Fresh =>
      s.(connecting := true,
         connector := if s.configured && !Settled(s) then Waiting(s.now) else Attempting(Entered))
    case Waiting(_) => s.(connector := Attempting(Entered))
    case Attempting(attempt) =>
      var (s', next) := AttemptStep(s, attempt, ok);
      s'.(connector := if next.Some? then Attempting(next.value) else Ending)
    case Ending =>
      s.(connecting := false, connector := NoConnect, loop := if s.loop.Starting? then Idle else s.loop)
  }

  function TickStep(s: State, ok: bool): State
    requires s.loop.Ticking?
  {
    var (s', next) := AttemptStep(s, s.loop.attempt, ok);
    s'.(loop := if next.Some? then Ticking(next.value) else Idle)
  }

  function Next(s: State, step: Step): State
    requires Enabled(s, step)
  {
    match step
    case Advance(d) => s.(now := s.now + d)
    case OpenSSH =>
      s.(sshConnections := s.sshConnections + 1, notifies := if s.sshConnections == 0 then s.notifies + 1 else s.notifies)
    case CloseSSH =>
      s.(sshConnections := s.sshConnections - 1, notifies := if s.sshConnections == 1 then s.notifies + 1 else s.notifies)
    case NotifySSHChange => s.(notifies := s.notifies - 1, token := true)
    case Authenticate(k) =>
      if s.conn == Some(k) then s.(verified := true, senders := s.senders + multiset{WebSocketConnect}) else s
    case Close(k) =>
      var closed := s.(live := s.live - {k});
      if s.conn == Some(k) then
        closed.(conn := None, verified := false, senders := s.senders + multiset{WebSocketDisconnect})
      else closed
    case Send(e) => s.(senders := s.senders - multiset{e}, queue := Some(e))
    case TakeEvent => s.(queue := None, loop := TookEvent(s.queue.value))
    case TakeSSHChange => s.(token := false, loop := TookSSHChange)
    case Tick => if s.connecting then s else s.(loop := Ticking(Entered))
    case Handle => HandlerStep(s)
    case TickAttempt(ok) => TickStep(s, ok)
    case Connect(ok) => ConnectStep(s, ok)
  }

  function Initial(configured: bool, now: int): State {
    State(Disconnected, Starting, true, false, Fresh, configured, None, false, {}, None, multiset{}, 0, 0, false, now, None, [])
  }

  // ---------- Invariants ----------

  predicate Outstanding(queue: Option<Event>, senders: multiset<Event>, e: Event) {
    queue == Some(e) || e in senders
  }

  // No SSH disconnect is lost.
  predicate SSHAccounted(s: State) {
    (s.connection.SSHConnected? || s.loop == Changing(SSHConnected)) && s.sshConnections == 0 ==>
      s.token || s.notifies > 0 || s.loop.TookSSHChange? || s.loop == SawSSH(false) || s.loop == Changing(Disconnected)
  }

  // No WebSocket disconnect is lost.
  predicate WebSocketAccounted(s: State) {
    (s.connection.WebSocketConnected? || s.loop == Changing(WebSocketConnected)) && s.conn.None? ==>
      || Outstanding(s.queue, s.senders, WebSocketDisconnect)
      || s.loop == TookEvent(WebSocketDisconnect) || s.loop == Changing(Disconnected)
  }

  // No WebSocket connect is lost.
  predicate VerifiedAccounted(s: State) {
    s.verified ==>
      && s.conn.Some?
      && (|| (s.connection.WebSocketConnected? && s.loop != Changing(Disconnected))
          || Outstanding(s.queue, s.senders, WebSocketConnect)
          || s.loop == TookEvent(WebSocketConnect) || s.loop == Changing(WebSocketConnected))
  }

  // isConnecting holds exactly while a connect is pending or running, save for the first
  // instant of Start.
  predicate ConnectingExact(s: State) {
    && (s.connecting <==>
        s.loop.Spawning? || (!s.connector.NoConnect? && !(s.loop.Starting? && s.connector.Fresh?)))
    && (s.loop.Spawning? ==> s.connector.NoConnect?)
    && (s.loop.Starting? ==> !s.connector.NoConnect?)
    && (s.loop.Ticking? ==> s.connector.NoConnect?)
  }

  predicate TickerExact(s: State) {
    && (s.loop.Changed? ==> s.connection == s.loop.to)
    && (s.loop.Starting? || s.loop.Spawning? ==> s.connection.Disconnected?)
    && (s.loop == Changing(SSHConnected) ==> s.connection.Disconnected?)
    && (!s.loop.Changed? ==> (s.armed <==> s.connection.Disconnected?))
  }

  predicate Apart(dials: seq<int>) {
    forall i, j :: 0 <= i < j < |dials| ==> dials[i] + RETRY_DELAY <= dials[j]
  }

  predicate DialsRecorded(dials: seq<int>, lastAttempt: Option<int>, now: int) {
    && lastAttempt == (if dials == [] then None else Some(dials[|dials| - 1]))
    && Apart(dials)
    && (dials != [] ==> dials[|dials| - 1] <= now)
  }

  predicate DialsAccounted(s: State) {
    && DialsRecorded(s.dials, s.lastAttempt, s.now)
    && (s.loop == Ticking(Allowed) || s.connector == Attempting(Allowed) ==> Settled(s))
    && (s.connector.Waiting? ==> s.lastAttempt.Some? && s.lastAttempt.value <= s.connector.since)
  }

  // A dial in progress has a number that no live connection has, and the slot holds a live one.
  predicate Numbered(s: State) {
    && (forall k <- s.live :: 0 < k <= |s.dials|)
    && (s.loop == Ticking(Dialing) || s.connector == Attempting(Dialing) ==> s.dials != [] && |s.dials| !in s.live)
    && (s.conn.Some? ==> s.conn.value in s.live)
  }

  // Nothing is dialed without a WebSocket client, and the ticker only dials while disconnected.
  predicate Permitted(s: State) {
    && (!s.configured ==> s.dials == [] && s.loop != Ticking(Allowed) && s.connector != Attempting(Allowed))
    && (s.loop.Ticking? ==> s.connection.Disconnected?)
  }

  ghost predicate Inv(s: State) {
    SSHAccounted(s) && WebSocketAccounted(s) && VerifiedAccounted(s)
    && ConnectingExact(s) && TickerExact(s) && DialsAccounted(s) && Numbered(s) && Permitted(s)
  }

  lemma {:induction false} SSHChangeKeepsInv(s: State, step: Step)
    requires Inv(s) && Enabled(s, step) && (step.OpenSSH? || step.CloseSSH? || step.NotifySSHChange? || step.Advance?)
    ensures Inv(Next(s, step))
  {
  }

  lemma {:induction false} AuthenticateKeepsInv(s: State, k: nat)
    requires Inv(s) && Enabled(s, Authenticate(k))
    ensures Inv(Next(s, Authenticate(k)))
  {
    var s' := Next(s, Authenticate(k));
    assert Outstanding(s.queue, s.senders, WebSocketDisconnect) ==> Outstanding(s'.queue, s'.senders, WebSocketDisconnect);
  }

  lemma {:induction false} CloseKeepsWebSocket(s: State, k: nat)
    requires WebSocketAccounted(s) && Enabled(s, Close(k))
    ensures WebSocketAccounted(Next(s, Close(k)))
  {
    var s' := Next(s, Close(k));
    assert Outstanding(s.queue, s.senders, WebSocketDisconnect) ==> Outstanding(s'.queue, s'.senders, WebSocketDisconnect);
  }

  lemma {:induction false} CloseKeepsVerified(s: State, k: nat)
    requires VerifiedAccounted(s) && Enabled(s, Close(k))
    ensures VerifiedAccounted(Next(s, Close(k)))
  {
    var s' := Next(s, Close(k));
    assert Outstanding(s.queue, s.senders, WebSocketConnect) ==> Outstanding(s'.queue, s'.senders, WebSocketConnect);
  }

  lemma {:induction false} CloseKeepsDials(s: State, k: nat)
    requires DialsAccounted(s) && Enabled(s, Close(k))
    ensures DialsAccounted(Next(s, Close(k)))
  {
    assert Next(s, Close(k)).dials == s.dials;
  }

  lemma {:induction false} CloseKeepsNumbers(s: State, k: nat)
    requires Numbered(s) && Permitted(s) && Enabled(s, Close(k))
    ensures Numbered(Next(s, Close(k))) && Permitted(Next(s, Close(k)))
  {
    assert Next(s, Close(k)).live == s.live - {k};
  }

  lemma {:induction false} CloseKeepsLoop(s: State, k: nat)
    requires SSHAccounted(s) && ConnectingExact(s) && TickerExact(s) && Enabled(s, Close(k))
    ensures var s' := Next(s, Close(k));
            SSHAccounted(s') && ConnectingExact(s') && TickerExact(s')
  {
    assert Next(s, Close(k)).loop == s.loop;
  }

  lemma {:induction false} CloseKeepsInv(s: State, k: nat)
    requires Inv(s) && Enabled(s, Close(k))
    ensures Inv(Next(s, Close(k)))
  {
    CloseKeepsWebSocket(s, k);
    CloseKeepsVerified(s, k);
    CloseKeepsDials(s, k);
    CloseKeepsNumbers(s, k);
    CloseKeepsLoop(s, k);
  }

  lemma {:induction false} SendKeepsInv(s: State, e: Event)
    requires Inv(s) && Enabled(s, Send(e))
    ensures Inv(Next(s, Send(e)))
  {
    var s' := Next(s, Send(e));
    assert Outstanding(s.queue, s.senders, WebSocketConnect) ==> Outstanding(s'.queue, s'.senders, WebSocketConnect);
    assert Outstanding(s.queue, s.senders, WebSocketDisconnect) ==> Outstanding(s'.queue, s'.senders, WebSocketDisconnect);
  }

  lemma {:induction false} TakeKeepsInv(s: State, step: Step)
    requires Inv(s) && Enabled(s, step) && (step.TakeEvent? || step.TakeSSHChange? || step.Tick?)
    ensures Inv(Next(s, step))
  {
  }

  lemma {:induction false} EventStepKeepsInv(s: State)
    requires Inv(s) && s.loop.TookEvent?
    ensures Inv(HandlerStep(s))
  {
  }

  lemma {:induction false} SSHStepKeepsInv(s: State)
    requires Inv(s) && (s.loop.TookSSHChange? || s.loop.SawSSH?)
    ensures Inv(HandlerStep(s))
  {
  }

  lemma {:induction false} ChangingStepKeepsInv(s: State)
    requires Inv(s) && s.loop.Changing?
    ensures Inv(HandlerStep(s))
  {
  }

  lemma {:induction false} ConnectedStepKeepsInv(s: State)
    requires Inv(s) && s.loop.Changed? && !s.loop.to.Disconnected?
    ensures Inv(HandlerStep(s))
  {
  }

  lemma {:induction false} DisconnectedStepKeepsInv(s: State)
    requires Inv(s) && s.loop.Changed? && s.loop.to.Disconnected?
    ensures Inv(HandlerStep(s))
  {
  }

  lemma {:induction false} SpawnStepKeepsInv(s: State)
    requires Inv(s) && s.loop.Spawning?
    ensures Inv(HandlerStep(s))
  {
  }

  lemma {:induction false} HandlerStepKeepsInv(s: State)
    requires Inv(s) && Handling(s.loop)
    ensures Inv(HandlerStep(s))
  {
    match s.loop
    case TookEvent(_) => EventStepKeepsInv(s);
    case TookSSHChange => SSHStepKeepsInv(s);
    case SawSSH(_) => SSHStepKeepsInv(s);
    case Changing(_) => ChangingStepKeepsInv(s);
    case Changed(to) => if to.Disconnected? { DisconnectedStepKeepsInv(s); } else { ConnectedStepKeepsInv(s); }
    case Spawning => SpawnStepKeepsInv(s);
  }

  // A step of an attempt touches only the slot and the record of dials.
  lemma {:induction false} AttemptStepAccounted(s: State, attempt: Attempt, ok: bool)
    requires Inv(s) && (attempt.Allowed? ==> Settled(s))
    ensures var (s', next) := AttemptStep(s, attempt, ok);
            && SSHAccounted(s') && WebSocketAccounted(s') && VerifiedAccounted(s')
            && ConnectingExact(s') && TickerExact(s')
            && (next == Some(Allowed) ==> Settled(s'))
  {
  }

  lemma {:induction false} AttemptStepDials(s: State, attempt: Attempt, ok: bool)
    requires DialsAccounted(s) && (attempt.Allowed? ==> Settled(s))
    ensures var s' := AttemptStep(s, attempt, ok).0; DialsRecorded(s'.dials, s'.lastAttempt, s'.now)
  {
  }

  // The step of an attempt, seen from the numbers: a dial gets a new one, a connection keeps it.
  predicate AttemptNumbered(s: State, next: Option<Attempt>) {
    && (forall k <- s.live :: 0 < k <= |s.dials|)
    && (next == Some(Dialing) ==> s.dials != [] && |s.dials| !in s.live)
    && (s.conn.Some? ==> s.conn.value in s.live)
    && (!s.configured ==> s.dials == [] && next != Some(Allowed))
  }

  lemma {:induction false} AttemptStepNumbered(s: State, attempt: Attempt, ok: bool)
    requires Numbered(s) && Permitted(s)
    requires attempt.Allowed? ==> s.configured
    requires attempt.Dialing? ==> s.dials != [] && |s.dials| !in s.live
    ensures var (s', next) := AttemptStep(s, attempt, ok); AttemptNumbered(s', next)
  {
  }

  // A ticking loop that goes on to another step of its attempt, or ends it.
  lemma {:induction false} TickGoesOnKeepsInv(s: State, loop: Loop)
    requires SSHAccounted(s) && WebSocketAccounted(s) && VerifiedAccounted(s) && ConnectingExact(s) && TickerExact(s)
    requires DialsRecorded(s.dials, s.lastAttempt, s.now) && s.loop.Ticking? && s.connection.Disconnected?
    requires loop.Idle? || (loop.Ticking? && (loop.attempt.Allowed? ==> Settled(s)))
    requires AttemptNumbered(s, if loop.Ticking? then Some(loop.attempt) else None)
    ensures Inv(s.(loop := loop))
  {
  }

  lemma {:induction false} TickStepKeepsInv(s: State, ok: bool)
    requires Inv(s) && s.loop.Ticking?
    ensures Inv(TickStep(s, ok))
  {
    AttemptStepAccounted(s, s.loop.attempt, ok);
    AttemptStepDials(s, s.loop.attempt, ok);
    AttemptStepNumbered(s, s.loop.attempt, ok);
    TickGoesOnKeepsInv(AttemptStep(s, s.loop.attempt, ok).0, TickStep(s, ok).loop);
  }

  lemma {:induction false} ConnectAttemptKeepsInv(s: State, ok: bool)
    requires Inv(s) && s.connector.Attempting?
    ensures Inv(ConnectStep(s, ok))
  {
    AttemptStepAccounted(s, s.connector.attempt, ok);
    AttemptStepDials(s, s.connector.attempt, ok);
    AttemptStepNumbered(s, s.connector.attempt, ok);
  }

  lemma {:induction false} ConnectBeginsKeepsInv(s: State, ok: bool)
    requires Inv(s) && (s.connector.Fresh? || s.connector.Waiting?)
    ensures Inv(ConnectStep(s, ok))
  {
  }

  lemma {:induction false} ConnectEndsKeepsInv(s: State, ok: bool)
    requires Inv(s) && s.connector.Ending?
    ensures Inv(ConnectStep(s, ok))
  {
  }

  lemma {:induction false} ConnectStepKeepsInv(s: State, ok: bool)
    requires Inv(s) && !s.connector.NoConnect?
    ensures Inv(ConnectStep(s, ok))
  {
    match s.connector
    case Fresh => ConnectBeginsKeepsInv(s, ok);
    case Waiting(_) => ConnectBeginsKeepsInv(s, ok);
    case Attempting(_) => ConnectAttemptKeepsInv(s, ok);
    case Ending => ConnectEndsKeepsInv(s, ok);
  }

  lemma {:induction false} NextKeepsInv(s: State, step: Step)
    requires Inv(s) && Enabled(s, step)
    ensures Inv(Next(s, step))
  {
    match step
    case Advance(_) => SSHChangeKeepsInv(s, step);
    case OpenSSH => SSHChangeKeepsInv(s, step);
    case CloseSSH => SSHChangeKeepsInv(s, step);
    case NotifySSHChange => SSHChangeKeepsInv(s, step);
    case Authenticate(k) => AuthenticateKeepsInv(s, k);
    case Close(k) => CloseKeepsInv(s, k);
    case Send(e) => SendKeepsInv(s, e);
    case TakeEvent => TakeKeepsInv(s, step);
    case TakeSSHChange => TakeKeepsInv(s, step);
    case Tick => TakeKeepsInv(s, step);
    case Handle => HandlerStepKeepsInv(s);
    case TickAttempt(ok) => TickStepKeepsInv(s, ok);
    case Connect(ok) => ConnectStepKeepsInv(s, ok);
  }

  // ---------- What follows, over whole runs ----------

  ghost predicate Execution(states: seq<State>, steps: seq<Step>) {
    && |states| == |steps| + 1
    && states[0] == Initial(states[0].configured, states[0].now)
    && forall i {:trigger Enabled(states[i], steps[i])} ::
         0 <= i < |steps| ==> Enabled(states[i], steps[i]) && states[i + 1] == Next(states[i], steps[i])
  }

  lemma {:induction false} InvAlways(states: seq<State>, steps: seq<Step>, n: nat)
    requires Execution(states, steps) && n < |states|
    ensures Inv(states[n])
  {
    if n > 0 {
      InvAlways(states, steps, n - 1);
      assert Enabled(states[n - 1], steps[n - 1]);
      NextKeepsInv(states[n - 1], steps[n - 1]);
    }
  }

  // Nothing is left for the loop or the goroutines that feed it.
  predicate Resting(s: State) {
    s.loop.Idle? && s.queue.None? && s.senders == multiset{} && !s.token && s.notifies == 0
  }

  // The state says how the agent is connected: SSH and WebSocket states stand for real
  // connections, an authenticated connection is never overlooked, and exactly a disconnected
  // agent keeps retrying.
  predicate Truthful(s: State) {
    && (s.connection.SSHConnected? ==> s.sshConnections > 0)
    && (s.connection.WebSocketConnected? ==> s.conn.Some? && s.conn.value in s.live)
    && (s.verified ==> s.conn.Some? && s.connection.WebSocketConnected?)
    && (s.armed <==> s.connection.Disconnected?)
  }

  lemma {:induction false} NoLostDisconnect(states: seq<State>, steps: seq<Step>, n: nat)
    requires Execution(states, steps) && n < |states|
    ensures var s := states[n];
            s.connection.SSHConnected? && s.sshConnections == 0 ==>
              s.token || s.notifies > 0 || s.loop.TookSSHChange? || s.loop == SawSSH(false) || s.loop == Changing(Disconnected)
    ensures var s := states[n];
            s.connection.WebSocketConnected? && s.conn.None? ==>
              || s.queue == Some(WebSocketDisconnect) || WebSocketDisconnect in s.senders
              || s.loop == TookEvent(WebSocketDisconnect) || s.loop == Changing(Disconnected)
  {
    InvAlways(states, steps, n);
  }

  lemma {:induction false} RestIsTruthful(states: seq<State>, steps: seq<Step>, n: nat)
    requires Execution(states, steps) && n < |states| && Resting(states[n])
    ensures Truthful(states[n])
  {
    InvAlways(states, steps, n);
  }

  // The steps the manager takes on its own, without the outside world or a dial.
  predicate Internal(step: Step) {
    step.Send? || step.NotifySSHChange? || step.TakeEvent? || step.TakeSSHChange? || step.Handle?
  }

  function Rank(loop: Loop): nat {
    match loop
    case TookSSHChange => 5
    case SawSSH(_) => 4
    case TookEvent(_) => 4
    case Changing(_) => 3
    case Changed(_) => 2
    case Spawning => 1
    case _ => 0
  }

  function Work(s: State): nat {
    7 * |s.senders| + (if s.queue.Some? then 6 else 0) + 7 * s.notifies + (if s.token then 6 else 0) + Rank(s.loop)
  }

  lemma {:induction false} ChoiceRank(s: State)
    requires s.loop.TookEvent? || s.loop.TookSSHChange? || s.loop.SawSSH?
    ensures var loop := HandlerStep(s).loop; Rank(loop) < Rank(s.loop) && !loop.Starting? && !loop.Ticking?
  {
    match s.loop
    case TookEvent(e) => assert HandlerStep(s).loop == AfterEvent(s, e);
    case TookSSHChange => assert HandlerStep(s).loop.SawSSH?;
    case SawSSH(has) => assert HandlerStep(s).loop == AfterSSHChange(s, has);
  }

  lemma {:induction false} ChangeRank(s: State)
    requires s.loop.Changing? || s.loop.Changed? || s.loop.Spawning?
    ensures var loop := HandlerStep(s).loop; Rank(loop) < Rank(s.loop) && !loop.Starting? && !loop.Ticking?
  {
    match s.loop
    case Changing(to) => assert HandlerStep(s).loop in {Idle, Changed(to)};
    case Changed(_) => assert HandlerStep(s).loop in {Idle, Spawning};
    case Spawning => assert HandlerStep(s).loop.Idle?;
  }

  lemma {:induction false} HandlerStepRank(s: State)
    requires Handling(s.loop)
    ensures Rank(HandlerStep(s).loop) < Rank(s.loop)
    ensures !HandlerStep(s).loop.Starting? && !HandlerStep(s).loop.Ticking?
  {
    if s.loop.TookEvent? || s.loop.TookSSHChange? || s.loop.SawSSH? {
      ChoiceRank(s);
    } else {
      ChangeRank(s);
    }
  }

  // The sources of later work, which handlers leave alone.
  predicate SameFeeds(s: State, s': State) {
    s'.senders == s.senders && s'.queue == s.queue && s'.notifies == s.notifies && s'.token == s.token
  }

  lemma {:induction false} ChoiceFeeds(s: State)
    requires s.loop.TookEvent? || s.loop.TookSSHChange? || s.loop.SawSSH?
    ensures SameFeeds(s, HandlerStep(s))
  {
    assert HandlerStep(s) == s.(loop := HandlerStep(s).loop);
  }

  lemma {:induction false} ChangeFeeds(s: State)
    requires s.loop.Changing? || s.loop.Changed? || s.loop.Spawning?
    ensures SameFeeds(s, HandlerStep(s))
  {
  }

  lemma {:induction false} HandlerStepFeeds(s: State)
    requires Handling(s.loop)
    ensures SameFeeds(s, HandlerStep(s))
  {
    match s.loop
    case TookEvent(_) => ChoiceFeeds(s);
    case TookSSHChange => ChoiceFeeds(s);
    case SawSSH(_) => ChoiceFeeds(s);
    case Changing(_) => ChangeFeeds(s);
    case Changed(_) => ChangeFeeds(s);
    case Spawning => ChangeFeeds(s);
  }

  lemma {:induction false} QueueStepIsProgress(s: State, step: Step)
    requires Internal(step) && Enabled(s, step) && !step.Handle? && !s.loop.Starting? && !s.loop.Ticking?
    ensures Work(Next(s, step)) < Work(s)
    ensures !Next(s, step).loop.Starting? && !Next(s, step).loop.Ticking?
  {
    if step.Send? {
      assert |s.senders| == |s.senders - multiset{step.event}| + 1;
    }
  }

  lemma {:induction false} InternalStepIsProgress(s: State, step: Step)
    requires Internal(step) && Enabled(s, step) && !s.loop.Starting? && !s.loop.Ticking?
    ensures Work(Next(s, step)) < Work(s)
    ensures !Next(s, step).loop.Starting? && !Next(s, step).loop.Ticking?
  {
    if step.Handle? {
      HandlerStepRank(s);
      HandlerStepFeeds(s);
    } else {
      QueueStepIsProgress(s, step);
    }
  }

  lemma {:induction false} SomeInternalStep(s: State) returns (step: Step)
    requires !Resting(s) && !s.loop.Starting? && !s.loop.Ticking?
    ensures Internal(step) && Enabled(s, step)
  {
    if s.notifies > 0 {
      step := NotifySSHChange;
    } else if !s.loop.Idle? {
      step := Handle;
    } else if s.token {
      step := TakeSSHChange;
    } else if s.queue.Some? {
      step := TakeEvent;
    } else {
      var e :| e in s.senders;
      step := Send(e);
    }
  }

  // The manager's own steps from a state of an execution, in any order.
  ghost predicate InternalRun(states: seq<State>, steps: seq<Step>) {
    && |states| == |steps| + 1
    && Inv(states[0]) && !states[0].loop.Starting? && !states[0].loop.Ticking?
    && forall i {:trigger Enabled(states[i], steps[i])} ::
         0 <= i < |steps| ==> Internal(steps[i]) && Enabled(states[i], steps[i]) && states[i + 1] == Next(states[i], steps[i])
  }

  lemma {:induction false} InternalRunProgress(states: seq<State>, steps: seq<Step>, n: nat)
    requires InternalRun(states, steps) && n < |states|
    ensures Inv(states[n]) && !states[n].loop.Starting? && !states[n].loop.Ticking?
    ensures n + Work(states[n]) <= Work(states[0])
  {
    if n > 0 {
      InternalRunProgress(states, steps, n - 1);
      assert Enabled(states[n - 1], steps[n - 1]);
      InternalStepIsProgress(states[n - 1], steps[n - 1]);
      NextKeepsInv(states[n - 1], steps[n - 1]);
    }
  }

  // Once the outside world is quiet the manager's own steps cannot go on for ever, and whatever
  // order they run in they can only stop at a truthful rest.
  lemma {:induction false} SettlesTruthfully(states: seq<State>, steps: seq<Step>)
    requires InternalRun(states, steps)
    ensures |steps| <= Work(states[0])
    ensures var last := states[|steps|];
            || (Resting(last) && Truthful(last))
            || exists step :: Internal(step) && Enabled(last, step)
  {
    InternalRunProgress(states, steps, |steps|);
    var last := states[|steps|];
    if !Resting(last) {
      var step := SomeInternalStep(last);
    }
  }

  // isConnecting holds exactly while a connect is pending or running, so the ticker and the
  // reconnect goroutine never dial together. Between its handlers the loop has the ticker armed
  // exactly while disconnected.
  lemma {:induction false} OneDialAtATime(states: seq<State>, steps: seq<Step>, n: nat)
    requires Execution(states, steps) && n < |states|
    ensures states[n].loop.Idle? ==> (states[n].connecting <==> !states[n].connector.NoConnect?)
    ensures !(states[n].loop.Ticking? && states[n].connector.Attempting?)
    ensures states[n].loop.Idle? ==> (states[n].armed <==> states[n].connection.Disconnected?)
  {
    InvAlways(states, steps, n);
  }

  // Any two dials start at least five seconds apart.
  lemma {:induction false} DialsAreApart(states: seq<State>, steps: seq<Step>, n: nat, i: nat, j: nat)
    requires Execution(states, steps) && n < |states| && i < j < |states[n].dials|
    ensures states[n].dials[j] - states[n].dials[i] >= 5_000_000_000
  {
    InvAlways(states, steps, n);
  }

  // ---------- Retrying ----------

  // The four steps of an attempt that finds the agent disconnected: it records a dial now, and a
  // dial that succeeds installs a live connection that is new and not verified.
  predicate Dialed(s: State, s': State, ok: bool) {
    && s'.dials == s.dials + [s.now] && s'.lastAttempt == Some(s.now)
    && (if ok then s'.conn.Some? && s'.conn.value !in s.live && s'.live == s.live + {s'.conn.value} && !s'.verified
        else s'.conn == s.conn && s'.live == s.live && s'.verified == s.verified)
    && s'.connection == s.connection && s'.now == s.now && s'.armed == s.armed
  }

  // The given steps one after the other, each enabled when its turn comes.
  ghost predicate Runs(s: State, more: seq<Step>, last: State)
    decreases |more|
  {
    if more == [] then s == last
    else Enabled(s, more[0]) && Runs(Next(s, more[0]), more[1..], last)
  }

  lemma {:induction false} RunsOn(s: State, step: Step, more: seq<Step>, last: State)
    requires Enabled(s, step) && Runs(Next(s, step), more, last)
    ensures Runs(s, [step] + more, last)
  {
    assert ([step] + more)[1..] == more;
  }

  lemma {:induction false} FourSteps(s: State, step: Step, s1: State, s2: State, s3: State, s4: State)
    requires Enabled(s, step) && s1 == Next(s, step) && Enabled(s1, step) && s2 == Next(s1, step)
    requires Enabled(s2, step) && s3 == Next(s2, step) && Enabled(s3, step) && s4 == Next(s3, step)
    ensures Runs(s, [step, step, step, step], s4)
  {
    RunsOn(s3, step, [], s4);
    RunsOn(s2, step, [step], s4);
    RunsOn(s1, step, [step, step], s4);
    RunsOn(s, step, [step, step, step], s4);
    assert [step] + [] == [step] && [step] + [step] == [step, step] && [step] + [step, step] == [step, step, step];
    assert [step] + [step, step, step] == [step, step, step, step];
  }

  lemma {:induction false} NewNumber(s: State)
    requires Numbered(s)
    ensures |s.dials| + 1 !in s.live
  {
  }

  lemma {:induction false} TickAttemptDials(s: State, ok: bool) returns (s': State)
    requires Numbered(s) && s.loop == Ticking(Entered) && s.connection.Disconnected? && s.configured && Settled(s)
    ensures Runs(s, [TickAttempt(ok), TickAttempt(ok), TickAttempt(ok), TickAttempt(ok)], s')
    ensures Dialed(s, s', ok) && s'.loop.Idle?
  {
    NewNumber(s);
    var allowed := s.(loop := Ticking(Allowed));
    var dialing := s.(loop := Ticking(Dialing), lastAttempt := Some(s.now), dials := s.dials + [s.now]);
    s' := TickStep(dialing, ok);
    FourSteps(s, TickAttempt(ok), s.(loop := Ticking(FoundDisconnected)), allowed, dialing, s');
  }

  // The ticker of a disconnected agent dials: whenever the loop is idle and nothing is connecting,
  // five seconds after the last attempt or later.
  lemma {:induction false} TickerDials(states: seq<State>, steps: seq<Step>, n: nat, ok: bool) returns (s': State)
    requires Execution(states, steps) && n < |states|
    requires states[n].loop.Idle? && states[n].connection.Disconnected? && states[n].configured && !states[n].connecting
    requires states[n].lastAttempt.None? || states[n].now >= states[n].lastAttempt.value + 5_000_000_000
    ensures Runs(states[n], [Tick, TickAttempt(ok), TickAttempt(ok), TickAttempt(ok), TickAttempt(ok)], s')
    ensures Dialed(states[n], s', ok) && s'.loop.Idle?
  {
    InvAlways(states, steps, n);
    var more := [TickAttempt(ok), TickAttempt(ok), TickAttempt(ok), TickAttempt(ok)];
    s' := TickAttemptDials(states[n].(loop := Ticking(Entered)), ok);
    RunsOn(states[n], Tick, more, s');
    assert [Tick] + more == [Tick, TickAttempt(ok), TickAttempt(ok), TickAttempt(ok), TickAttempt(ok)];
  }

  lemma {:induction false} ConnectAttemptDials(s: State, ok: bool) returns (s': State)
    requires Numbered(s) && s.connector == Attempting(Entered) && s.connection.Disconnected? && s.configured && Settled(s)
    ensures Runs(s, [Connect(ok), Connect(ok), Connect(ok), Connect(ok)], s')
    ensures Dialed(s, s', ok) && s'.connector.Ending?
  {
    NewNumber(s);
    var allowed := s.(connector := Attempting(Allowed));
    var dialing := s.(connector := Attempting(Dialing), lastAttempt := Some(s.now), dials := s.dials + [s.now]);
    s' := ConnectStep(dialing, ok);
    FourSteps(s, Connect(ok), s.(connector := Attempting(FoundDisconnected)), allowed, dialing, s');
  }

  // A pending connect dials while the agent is disconnected: at once, or after its five seconds.
  lemma {:induction false} ConnectDials(states: seq<State>, steps: seq<Step>, n: nat, ok: bool) returns (s': State)
    requires Execution(states, steps) && n < |states|
    requires states[n].connection.Disconnected? && states[n].configured
    requires match states[n].connector
             case Fresh => states[n].lastAttempt.None? || states[n].now >= states[n].lastAttempt.value + 5_000_000_000
             case Waiting(since) => states[n].now >= since + 5_000_000_000
             case _ => false
    ensures Runs(states[n], [Connect(ok), Connect(ok), Connect(ok), Connect(ok), Connect(ok)], s')
    ensures Dialed(states[n], s', ok) && s'.connector.Ending?
    ensures Enabled(s', Connect(ok)) && Next(s', Connect(ok)).connector.NoConnect? && !Next(s', Connect(ok)).connecting
  {
    InvAlways(states, steps, n);
    var more := [Connect(ok), Connect(ok), Connect(ok), Connect(ok)];
    var entered := Next(states[n], Connect(ok));
    s' := ConnectAttemptDials(entered, ok);
    RunsOn(states[n], Connect(ok), more, s');
    assert [Connect(ok)] + more == [Connect(ok), Connect(ok), Connect(ok), Connect(ok), Connect(ok)];
  }

  // A connect that starts within five seconds of the last attempt waits for five seconds first.
  lemma {:induction false} ConnectWaits(states: seq<State>, steps: seq<Step>, n: nat, ok: bool)
    requires Execution(states, steps) && n < |states| && states[n].connector.Fresh? && states[n].configured
    requires states[n].lastAttempt.Some? && states[n].now < states[n].lastAttempt.value + 5_000_000_000
    ensures Enabled(states[n], Connect(ok)) && Next(states[n], Connect(ok)).connector == Waiting(states[n].now)
    ensures forall later: State :: later.connector == Waiting(states[n].now) ==>
              (Enabled(later, Connect(ok)) <==> later.now >= states[n].now + 5_000_000_000)
  {
  }

  // An attempt that is not wanted any more, or comes too early, ends without a dial: entered while
  // connected, without a WebSocket client, or within five seconds of the last attempt.
  lemma {:induction false} UnwantedAttemptEnds(s: State, ok: bool)
    requires || (s.connector == Attempting(Entered) && !s.connection.Disconnected?)
             || (s.connector == Attempting(FoundDisconnected)
                 && (!s.configured || (s.lastAttempt.Some? && s.now < s.lastAttempt.value + 5_000_000_000)))
    ensures Enabled(s, Connect(ok)) && Next(s, Connect(ok)) == s.(connector := Ending)
  {
  }

  lemma {:induction false} EarlyTickEnds(s: State, ok: bool)
    requires s.loop == Ticking(FoundDisconnected)
    requires !s.configured || (s.lastAttempt.Some? && s.now < s.lastAttempt.value + 5_000_000_000)
    ensures Enabled(s, TickAttempt(ok)) && Next(s, TickAttempt(ok)) == s.(loop := Idle)
  {
  }

  // ---------- What the counters stand for ----------

  function Opened(steps: seq<Step>, n: nat): nat
    requires n <= |steps|
  {
    if n == 0 then 0 else Opened(steps, n - 1) + if steps[n - 1].OpenSSH? then 1 else 0
  }

  function Closed(steps: seq<Step>, n: nat): nat
    requires n <= |steps|
  {
    if n == 0 then 0 else Closed(steps, n - 1) + if steps[n - 1].CloseSSH? then 1 else 0
  }

  function Waited(steps: seq<Step>, n: nat): nat
    requires n <= |steps|
  {
    if n == 0 then 0 else Waited(steps, n - 1) + match steps[n - 1] case Advance(d) => d case _ => 0
  }

  // The SSH connections counted are those opened and not closed, and time is what has passed.
  lemma {:induction false} CountsAreExact(states: seq<State>, steps: seq<Step>, n: nat)
    requires Execution(states, steps) && n < |states|
    ensures states[n].sshConnections == Opened(steps, n) - Closed(steps, n)
    ensures states[n].now == states[0].now + Waited(steps, n) && states[n].configured == states[0].configured
  {
    if n > 0 {
      CountsAreExact(states, steps, n - 1);
      assert Enabled(states[n - 1], steps[n - 1]);
      if !Counts(steps[n - 1]) {
        OtherStepsDoNotCount(states[n - 1], steps[n - 1]);
      }
    }
  }

  predicate SameCounts(s: State, s': State) {
    s'.sshConnections == s.sshConnections && s'.now == s.now && s'.configured == s.configured && s'.notifies == s.notifies
  }

  lemma {:induction false} ChoiceCounts(s: State)
    requires s.loop.TookEvent? || s.loop.TookSSHChange? || s.loop.SawSSH?
    ensures SameCounts(s, HandlerStep(s))
  {
    assert HandlerStep(s) == s.(loop := HandlerStep(s).loop);
  }

  lemma {:induction false} ChangeCounts(s: State)
    requires s.loop.Changing? || s.loop.Changed? || s.loop.Spawning?
    ensures SameCounts(s, HandlerStep(s))
  {
  }

  lemma {:induction false} AttemptCounts(s: State, attempt: Attempt, ok: bool)
    ensures SameCounts(s, AttemptStep(s, attempt, ok).0)
  {
  }

  lemma {:induction false} ConnectCounts(s: State, ok: bool)
    requires !s.connector.NoConnect?
    ensures SameCounts(s, ConnectStep(s, ok))
  {
    if s.connector.Attempting? {
      AttemptCounts(s, s.connector.attempt, ok);
    }
  }

  lemma {:induction false} TickCounts(s: State, ok: bool)
    requires s.loop.Ticking?
    ensures SameCounts(s, TickStep(s, ok))
  {
    AttemptCounts(s, s.loop.attempt, ok);
  }

  // Only these four kinds of steps count.
  predicate Counts(step: Step) {
    step.Advance? || step.OpenSSH? || step.CloseSSH? || step.NotifySSHChange?
  }

  lemma {:induction false} FeedCounts(s: State, step: Step)
    requires Enabled(s, step) && !Counts(step) && !step.Handle? && !step.TickAttempt? && !step.Connect?
    ensures SameCounts(s, Next(s, step))
  {
  }

  lemma {:induction false} OtherStepsDoNotCount(s: State, step: Step)
    requires Enabled(s, step) && !Counts(step)
    ensures SameCounts(s, Next(s, step))
  {
    match step
    case Handle =>
      if s.loop.TookEvent? || s.loop.TookSSHChange? || s.loop.SawSSH? { ChoiceCounts(s); } else { ChangeCounts(s); }
    case TickAttempt(ok) => TickCounts(s, ok);
    case Connect(ok) => ConnectCounts(s, ok);
    case _ => FeedCounts(s, step);
  }

  // The loop is notified when the first connection opens and when the last one closes, and only then.
  lemma {:induction false} NotifiesOnEdges(states: seq<State>, steps: seq<Step>, n: nat)
    requires Execution(states, steps) && n < |steps|
    ensures var s, s' := states[n], states[n + 1];
            s'.notifies == s.notifies + if steps[n].NotifySSHChange? then -1
                                        else if (s.sshConnections == 0) != (s'.sshConnections == 0) then 1 else 0
  {
    assert Enabled(states[n], steps[n]);
    if !Counts(steps[n]) {
      OtherStepsDoNotCount(states[n], steps[n]);
    }
  }

  // Without a WebSocket client nothing is ever dialed.
  lemma {:induction false} UnconfiguredNeverDials(states: seq<State>, steps: seq<Step>, n: nat)
    requires Execution(states, steps) && n < |states| && !states[n].configured
    ensures states[n].dials == [] && states[n].live == {} && states[n].conn.None?
  {
    InvAlways(states, steps, n);
  }

  // ---------- Handlers left alone ----------

  // Running the handler the loop is in to its end, with nothing in between.
  function Handled(s: State): (r: State)
    ensures !Handling(r.loop)
    decreases Rank(s.loop)
  {
    if Handling(s.loop) then
      HandlerStepRank(s);
      Handled(HandlerStep(s))
    else s
  }

  lemma {:induction false} StateChangeHandled(s: State)
    requires s.loop.Changing?
    ensures Handled(s) ==
              if s.connection == s.loop.to then s.(loop := Idle)
              else if s.loop.to != Disconnected then s.(connection := s.loop.to, armed := false, loop := Idle)
              else if s.connecting then s.(connection := Disconnected, armed := true, loop := Idle)
              else s.(connection := Disconnected, armed := true, connecting := true, connector := Fresh, loop := Idle)
  {
    var changed := HandlerStep(s);
    assert Handled(s) == Handled(changed);
    if changed.loop.Changed? {
      var last := HandlerStep(changed);
      assert Handled(changed) == Handled(last);
      if last.loop.Spawning? {
        assert Handled(last) == Handled(HandlerStep(last));
      }
    }
  }

  // A lost WebSocket is noticed: unless a replacement is installed, the agent is disconnected,
  // retries, and has a connect pending.
  lemma {:induction false} DisconnectIsHandled(s: State)
    requires Inv(s) && s.loop == TookEvent(WebSocketDisconnect)
    ensures Inv(Handled(s))
    ensures s.conn.Some? ==> Handled(s) == s.(loop := Idle)
    ensures s.conn.None? && s.connection.WebSocketConnected? ==>
              Handled(s).connection.Disconnected? && Handled(s).armed && Handled(s).connecting && !Handled(s).connector.NoConnect?
  {
    HandledKeepsInv(s);
    if s.conn.None? && s.connection.WebSocketConnected? {
      assert Handled(s) == Handled(HandlerStep(s));
      StateChangeHandled(HandlerStep(s));
    }
  }

  // An authenticated WebSocket takes over, also from SSH; a superseded connection changes nothing.
  lemma {:induction false} ConnectIsHandled(s: State)
    requires s.loop == TookEvent(WebSocketConnect)
    ensures Handled(s) ==
              if s.conn.Some? && s.verified && !s.connection.WebSocketConnected?
              then s.(connection := WebSocketConnected, armed := false, loop := Idle) else s.(loop := Idle)
  {
    assert Handled(s) == Handled(HandlerStep(s));
    if HandlerStep(s).loop.Changing? {
      StateChangeHandled(HandlerStep(s));
    }
  }

  // An SSH connection takes a disconnected agent over and nothing else; the last one that closes
  // gives it back, with a connect pending.
  lemma {:induction false} SSHIsHandled(s: State)
    requires s.loop.TookSSHChange?
    ensures s.connection.Disconnected? && s.sshConnections > 0 ==>
              Handled(s) == s.(connection := SSHConnected, armed := false, loop := Idle)
    ensures s.connection.SSHConnected? && s.sshConnections == 0 && !s.connecting ==>
              Handled(s) == s.(connection := Disconnected, armed := true, connecting := true, connector := Fresh, loop := Idle)
    ensures s.connection.SSHConnected? && s.sshConnections == 0 && s.connecting ==>
              Handled(s) == s.(connection := Disconnected, armed := true, loop := Idle)
    ensures s.connection.WebSocketConnected? || (s.connection.SSHConnected? <==> s.sshConnections > 0) ==>
              Handled(s) == s.(loop := Idle)
  {
    var saw := s.(loop := SawSSH(s.sshConnections > 0));
    var next := HandlerStep(saw);
    assert Handled(s) == Handled(saw) && Handled(saw) == Handled(next);
    if next.loop.Changing? {
      StateChangeHandled(next);
    }
  }

  lemma {:induction false} HandledKeepsInv(s: State)
    requires Inv(s)
    ensures Inv(Handled(s))
    decreases Rank(s.loop)
  {
    if Handling(s.loop) {
      HandlerStepRank(s);
      HandlerStepKeepsInv(s);
      HandledKeepsInv(HandlerStep(s));
    }
  }

  // ---------- A rest that is not verified ----------

  // An execution that has come to a state.
  datatype Trace = Trace(states: seq<State>, steps: seq<Step>) {
    ghost predicate At(s: State) {
      Execution(states, steps) && states[|steps|] == s
    }
  }

  lemma {:induction false} Goes(t: Trace, s: State, step: Step) returns (t': Trace)
    requires t.At(s) && Enabled(s, step)
    ensures t'.At(Next(s, step))
  {
    t' := Trace(t.states + [Next(s, step)], t.steps + [step]);
    forall i | 0 <= i < |t'.steps|
      ensures Enabled(t'.states[i], t'.steps[i]) && t'.states[i + 1] == Next(t'.states[i], t'.steps[i])
    {
      if i < |t.steps| {
        assert Enabled(t.states[i], t.steps[i]);
      }
    }
  }

  lemma {:induction false} HandlesToEnd(t: Trace, s: State) returns (t': Trace)
    requires t.At(s)
    ensures t'.At(Handled(s))
    decreases Rank(s.loop)
  {
    t' := t;
    if Handling(s.loop) {
      HandlerStepRank(s);
      t' := Goes(t, s, Handle);
      t' := HandlesToEnd(t', HandlerStep(s));
    }
  }

  // A dial that succeeds, from the moment it is allowed to the end of its connect.
  lemma {:induction false} DialSucceeds(t: Trace, s: State) returns (t': Trace)
    requires t.At(s) && s.connector == Attempting(Dialing) && s.loop.Idle?
    ensures t'.At(s.(conn := Some(|s.dials|), verified := false, live := s.live + {|s.dials|}, connecting := false, connector := NoConnect))
  {
    t' := Goes(t, s, Connect(true));
    t' := Goes(t', Next(s, Connect(true)), Connect(true));
  }

  lemma {:induction false} DialBegins(t: Trace, s: State) returns (t': Trace)
    requires t.At(s) && s.connector.Fresh? && s.configured && s.connection.Disconnected? && Settled(s)
    ensures t'.At(s.(connecting := true, connector := Attempting(Dialing), lastAttempt := Some(s.now), dials := s.dials + [s.now]))
  {
    t' := Goes(t, s, Connect(true));
    var entered := s.(connecting := true, connector := Attempting(Entered));
    t' := Goes(t', entered, Connect(true));
    t' := Goes(t', entered.(connector := Attempting(FoundDisconnected)), Connect(true));
    t' := Goes(t', entered.(connector := Attempting(Allowed)), Connect(true));
  }

  // Start dials, and the connection is made but not verified.
  lemma {:induction false} FirstDial() returns (t: Trace, s: State)
    ensures t.At(s) && s == Initial(true, 0).(loop := Idle, connector := NoConnect, conn := Some(1), live := {1}, lastAttempt := Some(0), dials := [0])
  {
    s := Initial(true, 0);
    t := Trace([s], []);
    t := DialBegins(t, s);
    s := s.(connecting := true, connector := Attempting(Dialing), lastAttempt := Some(0), dials := [0]);
    t := Goes(t, s, Connect(true));
    s := s.(conn := Some(1), live := {1}, connector := Ending);
    t := Goes(t, s, Connect(true));
    s := Next(s, Connect(true));
  }

  lemma {:induction false} SSHComes(t: Trace, s: State) returns (t': Trace)
    requires t.At(s) && s.loop.Idle? && s.connection.Disconnected? && s.sshConnections == 0 && s.notifies == 0 && !s.token
    ensures t'.At(s.(sshConnections := 1, connection := SSHConnected, armed := false))
  {
    t' := Goes(t, s, OpenSSH);
    t' := Goes(t', s.(sshConnections := 1, notifies := 1), NotifySSHChange);
    t' := Goes(t', s.(sshConnections := 1, token := true), TakeSSHChange);
    var taken := s.(sshConnections := 1, loop := TookSSHChange);
    t' := Goes(t', taken, Handle);
    t' := Goes(t', taken.(loop := SawSSH(true)), Handle);
    t' := HandlesToEnd(t', taken.(loop := Changing(SSHConnected)));
    StateChangeHandled(taken.(loop := Changing(SSHConnected)));
  }

  lemma {:induction false} SSHGoes(t: Trace, s: State) returns (t': Trace)
    requires t.At(s) && s.loop.Idle? && s.connection.SSHConnected? && s.sshConnections == 1 && s.notifies == 0 && !s.token && !s.connecting
    ensures t'.At(s.(sshConnections := 0, connection := Disconnected, armed := true, connecting := true, connector := Fresh))
  {
    t' := Goes(t, s, CloseSSH);
    t' := Goes(t', s.(sshConnections := 0, notifies := 1), NotifySSHChange);
    t' := Goes(t', s.(sshConnections := 0, token := true), TakeSSHChange);
    var taken := s.(sshConnections := 0, loop := TookSSHChange);
    t' := Goes(t', taken, Handle);
    t' := Goes(t', taken.(loop := SawSSH(false)), Handle);
    t' := HandlesToEnd(t', taken.(loop := Changing(Disconnected)));
    StateChangeHandled(taken.(loop := Changing(Disconnected)));
  }

  lemma {:induction false} AuthenticationHandled(t: Trace, s: State, k: nat) returns (t': Trace)
    requires t.At(s) && s.loop.Idle? && s.connection.Disconnected? && s.conn == Some(k) && k in s.live
    requires s.senders == multiset{} && s.queue.None?
    ensures t'.At(s.(verified := true, connection := WebSocketConnected, armed := false))
  {
    t' := Goes(t, s, Authenticate(k));
    var verified := s.(verified := true);
    t' := Goes(t', verified.(senders := multiset{WebSocketConnect}), Send(WebSocketConnect));
    t' := Goes(t', verified.(queue := Some(WebSocketConnect)), TakeEvent);
    t' := Goes(t', verified.(loop := TookEvent(WebSocketConnect)), Handle);
    t' := HandlesToEnd(t', verified.(loop := Changing(WebSocketConnected)));
    StateChangeHandled(verified.(loop := Changing(WebSocketConnected)));
  }

  // A rest in WebSocketConnected need not be verified. The first connection is slow to
  // authenticate; an SSH connection comes and goes, so the agent dials again; while it dials the
  // first connection authenticates; and then the dial replaces it.
  lemma {:induction false} UnverifiedRest() returns (states: seq<State>, steps: seq<Step>)
    ensures Execution(states, steps)
    ensures var s := states[|steps|]; Resting(s) && s.connection.WebSocketConnected? && s.conn.Some? && !s.verified
  {
    var t, s := FirstDial();
    t := SSHComes(t, s);
    s := s.(sshConnections := 1, connection := SSHConnected, armed := false);
    t := SSHGoes(t, s);
    s := s.(sshConnections := 0, connection := Disconnected, armed := true, connecting := true, connector := Fresh);
    t := Goes(t, s, Advance(RETRY_DELAY));
    s := s.(now := RETRY_DELAY);
    t := DialBegins(t, s);
    s := s.(connector := Attempting(Dialing), lastAttempt := Some(s.now), dials := s.dials + [s.now]);
    t := AuthenticationHandled(t, s, 1);
    s := s.(verified := true, connection := WebSocketConnected, armed := false);
    t := DialSucceeds(t, s);
    states, steps := t.states, t.steps;
  }

  // The manager's fields, with the connection slot of its WebSocket client. Each method runs one
  // handler or callback with nothing in between; `s` is the state the object is in.
  class ConnectionManager {
    var state: Connection
    var armed: bool
    var isConnecting: bool
    var connector: Connector
    var sshConnections: nat
    var sshChanged: bool
    var conn: Option<nat>
    var hubVerified: bool

    ghost predicate Shows(s: State)
      reads this
    {
      && state == s.connection && armed == s.armed && isConnecting == s.connecting && connector == s.connector
      && sshConnections == s.sshConnections && sshChanged == s.token
      && conn == s.conn && hubVerified == s.verified
    }

    constructor (configured: bool, now: int)
      ensures Shows(Initial(configured, now))
    {
      state, armed, isConnecting, connector := Disconnected, true, false, Fresh;
      sshConnections, sshChanged, conn, hubVerified := 0, false, None, false;
    }

    method SetConnecting(v: bool) returns (previous: bool)
      modifies this`isConnecting
      ensures previous == old(isConnecting) && isConnecting == v
    {
      previous := isConnecting;
      isConnecting := v;
    }

    method HandleStateChange(newState: Connection, ghost s: State)
      requires Shows(s) && s.loop == Changing(newState)
      modifies this
      ensures Shows(Handled(s))
    {
      StateChangeHandled(s);
      if state == newState {
        return;
      }
      state := newState;
      if newState.Disconnected? {
        armed := true;
        var already := SetConnecting(true);
        if already {
          return;
        }
        connector := Fresh;
      } else {
        armed := false;
      }
    }

    method HandleEvent(event: Event, ghost s: State)
      requires Shows(s) && s.loop == TookEvent(event)
      modifies this
      ensures Shows(Handled(s))
    {
      assert Handled(s) == Handled(HandlerStep(s));
      match event
      case WebSocketConnect =>
        if conn.Some? && hubVerified {
          HandleStateChange(WebSocketConnected, HandlerStep(s));
        }
      case WebSocketDisconnect =>
        if conn.Some? {
          return;
        }
        if state.WebSocketConnected? {
          HandleStateChange(Disconnected, HandlerStep(s));
        }
    }

    method HandleSSHChange(ghost s: State)
      requires Shows(s) && s.loop.TookSSHChange?
      modifies this
      ensures Shows(Handled(s))
    {
      ghost var saw := HandlerStep(s);
      assert Handled(s) == Handled(saw) && Handled(saw) == Handled(HandlerStep(saw));
      if sshConnections > 0 {
        if state.Disconnected? && sshConnections > 0 {
          HandleStateChange(SSHConnected, HandlerStep(saw));
        }
      } else if state.SSHConnected? && sshConnections == 0 {
        HandleStateChange(Disconnected, HandlerStep(saw));
      }
    }

    // Leaves a token for the loop; one that is already there is enough.
    method NotifySSHChange(ghost s: State)
      requires Shows(s) && s.notifies > 0
      modifies this`sshChanged
      ensures Shows(Next(s, Step.NotifySSHChange))
    {
      sshChanged := true;
    }

    // The first connection and the last closing one go on to notify the loop, no other does.
    method SSHConnectionOpened(ghost s: State) returns (first: bool)
      requires Shows(s)
      modifies this`sshConnections
      ensures Shows(Next(s, OpenSSH))
      ensures Next(s, OpenSSH).notifies == s.notifies + if first then 1 else 0
    {
      sshConnections := sshConnections + 1;
      first := sshConnections == 1;
    }

    method SSHConnectionClosed(ghost s: State) returns (last: bool)
      requires Shows(s) && sshConnections > 0
      modifies this`sshConnections
      ensures Shows(Next(s, CloseSSH))
      ensures Next(s, CloseSSH).notifies == s.notifies + if last then 1 else 0
    {
      sshConnections := sshConnections - 1;
      last := sshConnections == 0;
    }

    // What OnClose does to the slot; `event` is what it goes on to send.
    method OnClose(k: nat, ghost s: State) returns (event: Option<Event>)
      requires Shows(s) && k in s.live
      modifies this
      ensures Shows(Next(s, Close(k)))
      ensures Next(s, Close(k)).senders == s.senders + if event.Some? then multiset{event.value} else multiset{}
    {
      if conn != Some(k) {
        return None;
      }
      conn := None;
      hubVerified := false;
      event := Some(WebSocketDisconnect);
    }

    method HandleAuthChallenge(k: nat, ghost s: State) returns (event: Option<Event>)
      requires Shows(s) && k in s.live
      modifies this
      ensures Shows(Next(s, Authenticate(k)))
      ensures Next(s, Authenticate(k)).senders == s.senders + if event.Some? then multiset{event.value} else multiset{}
    {
      if conn != Some(k) {
        return None;
      }
      hubVerified := true;
      event := Some(WebSocketConnect);
    }
  }
}
