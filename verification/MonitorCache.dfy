/** The hub's cache of enabled monitors and the protocol that keeps it from going stale: database
    commits, the hooks that run after them, loads that hold the cache lock through their query, and
    certificate writes that bypass the hooks. Every interleaving is a sequence of steps. */
module MonitorCache {
  import opened Wrappers

  // Stored certificate info as JSON decoding sees it: whether it reports an error, and the expiry
  // (Unix milliseconds) it leaves behind either way. A decoder that fails on one field still sets
  // the others.
  datatype StoredCert = StoredCert(decodes: bool, expires: int)

  datatype CachedMonitor = CachedMonitor(interval: int, certExpires: int)

  // A stored monitor.
  datatype Row = Row(system: string, enabled: bool, interval: int, cert: StoredCert)

  type Rows = map<string, Row>
  type View = map<string, CachedMonitor>

  // What a load of a system reads: its enabled monitors. Decoding errors are ignored.
  function ViewOf(rows: Rows, system: string): View {
    map id <- rows | rows[id].system == system && rows[id].enabled :: CachedMonitor(rows[id].interval, rows[id].cert.expires)
  }

  // The result payload a handler still has to compare with the cache, by monitor.
  datatype Handler = Handler(system: string, todo: map<string, int>)

  datatype Load = NoLoad | Locked(system: string) | Queried(system: string, rows: View)

  datatype State = State(
    rows: Rows,                 // the committed database
    systems: map<string, View>, // the cache
    load: Load,                 // the load that holds the cache lock, if any
    pending: multiset<string>,  // invalidations that hooks still have to run
    handlers: multiset<Handler>)

  datatype Step =
    | Create(id: string, row: Row)
    | Remove(id: string)
    | Save(id: string, row: Row, rewritten: bool) // rewritten: the stored text differs anyway
    | WriteCerts(system: string, certs: map<string, int>) // by SQL, without hooks
    | Invalidate(system: string)
    | Check(handler: Handler, id: string)
    | BeginLoad(system: string)
    | Query
    | Store
    | FailLoad

  // The fields whose change makes the update hook evict.
  predicate ConfigChanged(before: Row, after: Row) {
    || before.system != after.system || before.enabled != after.enabled
    || before.interval != after.interval || before.cert != after.cert
  }

  predicate CertChanged(systems: map<string, View>, system: string, id: string, expires: int) {
    system in systems && id in systems[system] && systems[system][id].certExpires != expires
  }

  predicate Enabled(s: State, step: Step) {
    match step
    case Create(id, _) => id !in s.rows
    case Remove(id) => id in s.rows
    case Save(id, _, _) => id in s.rows
    case WriteCerts(_, _) => true
    case Invalidate(system) => system in s.pending && s.load.NoLoad?
    case Check(h, id) => h in s.handlers && id in h.todo && s.load.NoLoad?
    case BeginLoad(system) => s.load.NoLoad? && system !in s.systems
    case Query => s.load.Locked?
    case Store => s.load.Queried?
    case FailLoad => !s.load.NoLoad?
  }

  function WithCerts(rows: Rows, system: string, certs: map<string, int>): Rows {
    map id <- rows ::
      if id in certs && rows[id].system == system then rows[id].(cert := StoredCert(true, certs[id])) else rows[id]
  }

  function Next(s: State, step: Step): State
    requires Enabled(s, step)
  {
    match step
    case Create(id, row) => s.(rows := s.rows[id := row], pending := s.pending + multiset{row.system})
    case Remove(id) => s.(rows := s.rows - {id}, pending := s.pending + multiset{s.rows[id].system})
    case Save(id, row, rewritten) =>
      var saved := s.(rows := s.rows[id := row]);
      if ConfigChanged(s.rows[id], row) || rewritten then
        saved.(pending := s.pending + multiset{s.rows[id].system, row.system})
      else saved
    case WriteCerts(system, certs) =>
      s.(rows := WithCerts(s.rows, system, certs), handlers := s.handlers + multiset{Handler(system, certs)})
    case Invalidate(system) =>
      s.(systems := s.systems - {system}, pending := s.pending - multiset{system})
    case Check(h, id) =>
      if CertChanged(s.systems, h.system, id, h.todo[id]) then
        // the handler invalidates the whole system and stops comparing
        s.(handlers := s.handlers - multiset{h}, pending := s.pending + multiset{h.system})
      else
        s.(handlers := s.handlers - multiset{h} + multiset{Handler(h.system, h.todo - {id})})
    case BeginLoad(system) => s.(load := Locked(system))
    case Query => s.(load := Queried(s.load.system, ViewOf(s.rows, s.load.system)))
    case Store => s.(systems := s.systems[s.load.system := s.load.rows], load := NoLoad)
    case FailLoad => s.(load := NoLoad)
  }

  // ---------- The invariant ----------

  predicate Compares(h: Handler, system: string, id: string, expires: int) {
    h.system == system && id in h.todo && h.todo[id] == expires
  }

  // A handler is still going to compare this monitor with its present expiry.
  ghost predicate WillCheck(handlers: multiset<Handler>, system: string, id: string, expires: int) {
    exists h :: h in handlers && Compares(h, system, id, expires)
  }

  // Rows loaded for a system are current, or an invalidation is outstanding, or they differ in
  // certificate expiries alone and each difference still has to be checked.
  ghost predicate Accounted(s: State, system: string, loaded: View) {
    var current := ViewOf(s.rows, system);
    || system in s.pending
    || (&& loaded.Keys == current.Keys
        && forall id <- current ::
             && loaded[id].interval == current[id].interval
             && (loaded[id].certExpires == current[id].certExpires
                 || WillCheck(s.handlers, system, id, current[id].certExpires)))
  }

  ghost predicate Inv(s: State) {
    && (forall system <- s.systems :: Accounted(s, system, s.systems[system]))
    && (s.load.Queried? ==> Accounted(s, s.load.system, s.load.rows))
  }

  // A commit that leaves a system's monitors alone, or has its invalidation outstanding, and
  // takes no check away, keeps loaded rows accounted for.
  lemma {:induction false} AccountedAfterCommit(s: State, s': State, system: string, loaded: View)
    requires Accounted(s, system, loaded)
    requires s.pending <= s'.pending && s.handlers <= s'.handlers
    requires ViewOf(s'.rows, system) == ViewOf(s.rows, system) || system in s'.pending
    ensures Accounted(s', system, loaded)
  {
    if system !in s'.pending {
      var current := ViewOf(s.rows, system);
      forall id <- current | WillCheck(s.handlers, system, id, current[id].certExpires)
        ensures WillCheck(s'.handlers, system, id, current[id].certExpires)
      {
        var h :| h in s.handlers && Compares(h, system, id, current[id].certExpires);
        assert h in s'.handlers;
      }
    }
  }

  lemma {:induction false} CommitKeepsInv(s: State, s': State)
    requires Inv(s)
    requires s'.systems == s.systems && s'.load == s.load
    requires s.pending <= s'.pending && s.handlers <= s'.handlers
    requires forall system :: ViewOf(s'.rows, system) == ViewOf(s.rows, system) || system in s'.pending
    ensures Inv(s')
  {
    forall system <- s.systems ensures Accounted(s', system, s.systems[system]) {
      AccountedAfterCommit(s, s', system, s.systems[system]);
    }
    if s.load.Queried? {
      AccountedAfterCommit(s, s', s.load.system, s.load.rows);
    }
  }

  lemma {:induction false} AccountedAfterCerts(s: State, system: string, certs: map<string, int>, other: string, loaded: View)
    requires Accounted(s, other, loaded)
    ensures Accounted(Next(s, WriteCerts(system, certs)), other, loaded)
  {
    var s' := Next(s, WriteCerts(system, certs));
    var was, current := ViewOf(s.rows, other), ViewOf(s'.rows, other);
    assert was.Keys == current.Keys;
    if other !in s.pending {
      forall id <- current
        ensures loaded[id].certExpires == current[id].certExpires || WillCheck(s'.handlers, other, id, current[id].certExpires)
      {
        if id in certs && other == system {
          assert Compares(Handler(system, certs), other, id, current[id].certExpires);
        } else if loaded[id].certExpires != was[id].certExpires {
          var h :| h in s.handlers && Compares(h, other, id, was[id].certExpires);
          assert h in s'.handlers;
        }
      }
    }
  }

  // A check that finds no difference may be dropped: the cached expiry is the present one.
  lemma {:induction false} AccountedAfterCheck(s: State, h: Handler, id: string, system: string)
    requires Enabled(s, Check(h, id)) && system in s.systems
    requires Accounted(s, system, s.systems[system])
    ensures Accounted(Next(s, Check(h, id)), system, s.systems[system])
  {
    var s', loaded := Next(s, Check(h, id)), s.systems[system];
    var current := ViewOf(s.rows, system);
    if system !in s'.pending {
      forall k <- current | loaded[k].certExpires != current[k].certExpires
        ensures WillCheck(s'.handlers, system, k, current[k].certExpires)
      {
        var g :| g in s.handlers && Compares(g, system, k, current[k].certExpires);
        if g == h {
          assert Compares(Handler(h.system, h.todo - {id}), system, k, current[k].certExpires);
        } else {
          assert g in s'.handlers;
        }
      }
    }
  }

  // Rewriting one row leaves the systems it never belonged to alone.
  lemma {:induction false} OtherViewsUnchanged(rows: Rows, rows': Rows, id: string, system: string)
    requires rows - {id} == rows' - {id}
    requires id in rows ==> rows[id].system != system
    requires id in rows' ==> rows'[id].system != system
    ensures ViewOf(rows', system) == ViewOf(rows, system)
  {
    forall k: string
      ensures k in ViewOf(rows', system) <==> k in ViewOf(rows, system)
      ensures k in ViewOf(rows, system) ==> ViewOf(rows', system)[k] == ViewOf(rows, system)[k]
    {
      if k != id {
        assert k in rows <==> k in rows - {id};
        assert k in rows' <==> k in rows' - {id};
        assert k in rows ==> rows[k] == (rows - {id})[k] == (rows' - {id})[k];
      }
    }
  }

  // A commit to one row keeps the invariant when its hook evicts every system the row was in.
  lemma {:induction false} RowCommitKeepsInv(s: State, s': State, id: string)
    requires Inv(s)
    requires s'.systems == s.systems && s'.load == s.load
    requires s.pending <= s'.pending && s.handlers == s'.handlers
    requires s.rows - {id} == s'.rows - {id}
    requires s.rows == s'.rows || ((id in s.rows ==> s.rows[id].system in s'.pending) && (id in s'.rows ==> s'.rows[id].system in s'.pending))
    ensures Inv(s')
  {
    forall system ensures ViewOf(s'.rows, system) == ViewOf(s.rows, system) || system in s'.pending {
      if s.rows != s'.rows && system !in s'.pending {
        OtherViewsUnchanged(s.rows, s'.rows, id, system);
      }
    }
    CommitKeepsInv(s, s');
  }

  // A step of the cache alone: every entry it leaves behind was accounted for.
  lemma {:induction false} CacheStepKeepsInv(s: State, s': State)
    requires s'.rows == s.rows && s'.handlers == s.handlers
    requires forall system <- s'.systems ::
               Accounted(s, system, s'.systems[system]) && (system in s.pending ==> system in s'.pending)
    requires s'.load.Queried? ==>
               Accounted(s, s'.load.system, s'.load.rows) && (s'.load.system in s.pending ==> s'.load.system in s'.pending)
    ensures Inv(s')
  {
    forall system <- s'.systems ensures Accounted(s', system, s'.systems[system]) {
      assert Accounted(s, system, s'.systems[system]);
    }
  }

  lemma {:induction false} WriteCertsKeepsInv(s: State, system: string, certs: map<string, int>)
    requires Inv(s)
    ensures Inv(Next(s, WriteCerts(system, certs)))
  {
    forall other <- s.systems ensures Accounted(Next(s, WriteCerts(system, certs)), other, s.systems[other]) {
      AccountedAfterCerts(s, system, certs, other, s.systems[other]);
    }
    if s.load.Queried? {
      AccountedAfterCerts(s, system, certs, s.load.system, s.load.rows);
    }
  }

  lemma {:induction false} CheckKeepsInv(s: State, h: Handler, id: string)
    requires Inv(s) && Enabled(s, Check(h, id))
    ensures Inv(Next(s, Check(h, id)))
  {
    forall system <- s.systems ensures Accounted(Next(s, Check(h, id)), system, s.systems[system]) {
      AccountedAfterCheck(s, h, id, system);
    }
  }

  lemma {:induction false} SaveKeepsInv(s: State, id: string, row: Row, rewritten: bool)
    requires Inv(s) && Enabled(s, Save(id, row, rewritten))
    ensures Inv(Next(s, Save(id, row, rewritten)))
  {
    RowCommitKeepsInv(s, Next(s, Save(id, row, rewritten)), id);
  }

  lemma {:induction false} CommitStepKeepsInv(s: State, step: Step)
    requires Inv(s) && Enabled(s, step) && (step.Create? || step.Remove?)
    ensures Inv(Next(s, step))
  {
    RowCommitKeepsInv(s, Next(s, step), step.id);
  }

  lemma {:induction false} LoadStepKeepsInv(s: State, step: Step)
    requires Inv(s) && Enabled(s, step) && (step.BeginLoad? || step.Query? || step.Store? || step.FailLoad?)
    ensures Inv(Next(s, step))
  {
    CacheStepKeepsInv(s, Next(s, step));
  }

  lemma {:induction false} InvalidateKeepsInv(s: State, system: string)
    requires Inv(s) && Enabled(s, Invalidate(system))
    ensures Inv(Next(s, Invalidate(system)))
  {
    CacheStepKeepsInv(s, Next(s, Invalidate(system)));
  }

  lemma {:induction false} NextKeepsInv(s: State, step: Step)
    requires Inv(s) && Enabled(s, step)
    ensures Inv(Next(s, step))
  {
    match step
    case Create(_, _) => CommitStepKeepsInv(s, step);
    case Remove(_) => CommitStepKeepsInv(s, step);
    case Save(id, row, rewritten) => SaveKeepsInv(s, id, row, rewritten);
    case WriteCerts(system, certs) => WriteCertsKeepsInv(s, system, certs);
    case Check(h, id) => CheckKeepsInv(s, h, id);
    case Invalidate(system) => InvalidateKeepsInv(s, system);
    case BeginLoad(_) => LoadStepKeepsInv(s, step);
    case Query => LoadStepKeepsInv(s, step);
    case Store => LoadStepKeepsInv(s, step);
    case FailLoad => LoadStepKeepsInv(s, step);
  }

  // ---------- What follows, over whole runs ----------

  ghost predicate Execution(states: seq<State>, steps: seq<Step>) {
    && |states| == |steps| + 1
    && states[0].systems == map[] && states[0].load == NoLoad && states[0].pending == multiset{} && states[0].handlers == multiset{}
    && forall i {:trigger Enabled(states[i], steps[i])} ::
         0 <= i < |steps| ==> Enabled(states[i], steps[i]) && states[i + 1] == Next(states[i], steps[i])
  }

  lemma {:induction false} InvAlways(states: seq<State>, steps: seq<Step>, n: nat)
    requires Execution(states, steps) && n < |states|
    ensures Inv(states[n])
  {
    if n > 0 {
      InvAlways(states, steps, n - 1);
      assert Enabled(states[n - 1], steps[n - 1]);
      NextKeepsInv(states[n - 1], steps[n - 1]);
    }
  }

  // A cached entry that differs from the database always has an invalidation of its system
  // outstanding, or a handler still comparing the monitor it is wrong about.
  lemma {:induction false} StaleEntryIsOutstanding(states: seq<State>, steps: seq<Step>, n: nat, system: string)
    requires Execution(states, steps) && n < |states|
    requires system in states[n].systems && !Holds(states[n].systems[system], states[n].rows, system)
    ensures system in states[n].pending || exists h :: h in states[n].handlers && h.system == system && h.todo != map[]
  {
    InvAlways(states, steps, n);
    var s := states[n];
    var loaded, current := s.systems[system], ViewOf(s.rows, system);
    assert Accounted(s, system, loaded);
    if system !in s.pending {
      var id :| id in current && loaded[id] != current[id];
      var h :| h in s.handlers && Compares(h, system, id, current[id].certExpires);
    }
  }

  // Once all hooks and handlers have run, an entry is absent or holds exactly the enabled monitors
  // of the system, and so does everything `get` returns.
  lemma {:induction false} QuietCacheIsFresh(states: seq<State>, steps: seq<Step>, n: nat, system: string)
    requires Execution(states, steps) && n < |states|
    requires states[n].pending == multiset{} && forall h :: h in states[n].handlers ==> h.todo == map[]
    ensures system in states[n].systems ==> Holds(states[n].systems[system], states[n].rows, system)
    ensures states[n].load.Queried? && states[n].load.system == system ==> Holds(states[n].load.rows, states[n].rows, system)
    ensures states[n].load.NoLoad? ==> Holds(Loaded(states[n], system).systems[system], states[n].rows, system)
  {
    InvAlways(states, steps, n);
    var s := states[n];
    if system in s.systems {
      FreshWhenQuiet(s, system, s.systems[system]);
    }
    if s.load.Queried? {
      FreshWhenQuiet(s, s.load.system, s.load.rows);
    }
  }

  lemma {:induction false} FreshWhenQuiet(s: State, system: string, loaded: View)
    requires s.pending == multiset{} && forall h :: h in s.handlers ==> h.todo == map[]
    requires Accounted(s, system, loaded)
    ensures loaded == ViewOf(s.rows, system)
  {
  }

  // While a load holds the lock, nothing else that needs it comes in between; it ends by storing
  // what it read, or with nothing.
  lemma {:induction false} LoadExcludes(states: seq<State>, steps: seq<Step>, n: nat)
    requires Execution(states, steps) && n < |steps| && !states[n].load.NoLoad?
    ensures !steps[n].Invalidate? && !steps[n].Check? && !steps[n].BeginLoad?
    ensures var s, s' := states[n], states[n + 1];
            match steps[n]
            case Query => s.load.Locked? && s'.load == Queried(s.load.system, ViewOf(s.rows, s.load.system)) && s'.systems == s.systems
            case Store => s.load.Queried? && s'.load.NoLoad? && s'.systems == s.systems[s.load.system := s.load.rows]
            case FailLoad => s'.load.NoLoad? && s'.systems == s.systems
            case _ => s'.load == s.load && s'.systems == s.systems
  {
    assert Enabled(states[n], steps[n]);
  }

  // A monitor that is created or deleted is stored or gone, and its system is to be evicted.
  lemma {:induction false} CreationsAndDeletions(states: seq<State>, steps: seq<Step>, n: nat)
    requires Execution(states, steps) && n < |steps|
    ensures var s, s' := states[n], states[n + 1];
            match steps[n]
            case Create(id, row) => id !in s.rows && s'.rows == s.rows[id := row] && s'.pending == s.pending + multiset{row.system}
            case Remove(id) =>
              id in s.rows && id !in s'.rows && s.rows == s'.rows[id := s.rows[id]] && s'.pending == s.pending + multiset{s.rows[id].system}
            case Save(id, row, _) => id in s.rows && s'.rows == s.rows[id := row]
            case WriteCerts(_, _) => s'.rows.Keys == s.rows.Keys
            case _ => s'.rows == s.rows
  {
    assert Enabled(states[n], steps[n]);
  }

  // Metric saves invoke the update hook too; those that leave configuration and certificate as they
  // were evict nothing.
  lemma {:induction false} MetricSavesDoNotEvict(s: State, id: string, row: Row)
    requires id in s.rows
    requires row.system == s.rows[id].system && row.enabled == s.rows[id].enabled
    requires row.interval == s.rows[id].interval && row.cert == s.rows[id].cert
    ensures Next(s, Save(id, row, false)) == s
  {
  }

  // Any other save evicts the system the monitor was in and the one it is in.
  lemma {:induction false} OtherSavesEvict(s: State, id: string, row: Row, rewritten: bool)
    requires id in s.rows
    requires || row.system != s.rows[id].system || row.enabled != s.rows[id].enabled
             || row.interval != s.rows[id].interval || row.cert != s.rows[id].cert
    ensures var s' := Next(s, Save(id, row, rewritten));
            s'.rows == s.rows[id := row] && s'.pending == s.pending + multiset{s.rows[id].system, row.system}
  {
  }

  // Certificate writes store what they bring, for monitors of the system, and have it compared.
  lemma {:induction false} CertsAreWritten(s: State, system: string, certs: map<string, int>)
    ensures var s' := Next(s, WriteCerts(system, certs));
            && s'.rows.Keys == s.rows.Keys && s'.handlers == s.handlers + multiset{Handler(system, certs)}
            && forall id <- s.rows ::
                 if s.rows[id].system == system && id in certs
                 then s'.rows[id].cert == StoredCert(true, certs[id]) && s'.rows[id].(cert := s.rows[id].cert) == s.rows[id]
                 else s'.rows[id] == s.rows[id]
  {
  }

  // Comparing an expiry that the cache has, or knows nothing of, evicts nothing; any other one evicts.
  lemma {:induction false} ComparisonEvictsStale(s: State, h: Handler, id: string)
    requires Enabled(s, Check(h, id))
    ensures var stale := h.system in s.systems && id in s.systems[h.system] && s.systems[h.system][id].certExpires != h.todo[id];
            Next(s, Check(h, id)).pending == s.pending + if stale then multiset{h.system} else multiset{}
  {
  }

  // The lock is what makes this true. If a load stored rows it had queried without it, the
  // invalidation of a commit in between could run first, and the entry would stay stale.
  lemma {:induction false} LateStoreWouldBeStale(system: string, id: string)
    returns (before: State, queried: View, after: State)
    ensures Inv(before) && queried == ViewOf(before.rows, system) && id !in before.rows
    ensures var committed := Next(before, Create(id, Row(system, true, 60, StoredCert(true, 0))));
            && Enabled(committed, Invalidate(system))
            && var s := Next(committed, Invalidate(system));
               after == s.(systems := s.systems[system := queried])
    ensures after.pending == multiset{} && after.handlers == multiset{} && !Inv(after)
  {
    before := State(map[], map[], NoLoad, multiset{}, multiset{});
    queried := ViewOf(before.rows, system);
    var committed := Next(before, Create(id, Row(system, true, 60, StoredCert(true, 0))));
    var s := Next(committed, Invalidate(system));
    after := s.(systems := s.systems[system := queried]);
    assert id in ViewOf(after.rows, system);
    assert !Accounted(after, system, queried);
  }

  // ---------- The cache object ----------

  // A whole load that nothing comes in between, if one is needed.
  function Loaded(s: State, system: string): State
    requires s.load.NoLoad?
  {
    if system in s.systems then s
    else Next(Next(Next(s, BeginLoad(system)), Query), Store)
  }

  // Each method is one locked section, or a run of them by one caller. It takes the object from
  // showing a state of the protocol to showing the state after its steps.
  class NetworkMonitorCache {
    var systems: map<string, View>

    ghost predicate Shows(s: State)
      reads this
    {
      systems == s.systems
    }

    constructor ()
      ensures forall s: State :: s.systems == map[] ==> Shows(s)
    {
      systems := map[];
    }

    // Runs an outstanding invalidation.
    method Invalidate(system: string, ghost s: State)
      requires Shows(s) && Inv(s) && Enabled(s, Step.Invalidate(system))
      modifies this
      ensures Shows(Next(s, Step.Invalidate(system))) && Inv(Next(s, Step.Invalidate(system)))
    {
      InvalidateKeepsInv(s, system);
      systems := systems - {system};
    }

    method CertDiffers(system: string, id: string, expires: int) returns (changed: bool)
      ensures changed <==> CertChanged(systems, system, id, expires)
    {
      if system !in systems || id !in systems[system] {
        return false;
      }
      changed := systems[system][id].certExpires != expires;
    }

    // Compares the expiries of a result payload with the cache until one differs. Afterwards none
    // does, and the comparisons that were left are accounted for.
    method CheckCerts(system: string, certs: map<string, int>, ghost others: multiset<Handler>, ghost s: State) returns (ghost t: State)
      requires Shows(s) && Inv(s) && s.load.NoLoad? && s.handlers == others + multiset{Handler(system, certs)}
      modifies this
      ensures Shows(t) && Inv(t) && t.rows == s.rows && t.load == s.load && t.pending == s.pending
      ensures t.systems == s.systems || t.systems == s.systems - {system}
      ensures t.handlers == others || t.handlers == others + multiset{Handler(system, map[])}
      ensures forall id <- certs :: !CertChanged(t.systems, system, id, certs[id])
    {
      var todo := certs;
      t := s;
      while todo != map[]
        invariant t == s.(handlers := others + multiset{Handler(system, todo)})
        invariant Shows(t) && Inv(t)
        invariant forall id <- todo :: id in certs && todo[id] == certs[id]
        invariant forall id <- certs :: id in todo || !CertChanged(s.systems, system, id, certs[id])
        decreases todo.Keys
      {
        var id :| id in todo;
        var changed := CertDiffers(system, id, todo[id]);
        ghost var checked := AfterCheck(t, system, todo, others, id);
        if changed {
          Invalidate(system, checked);
          t := Next(checked, Step.Invalidate(system));
          return;
        }
        t := checked;
        todo := todo - {id};
      }
    }

    // `rows` is the committed database while the lock is held; None if the query fails.
    method Get(system: string, rows: Option<Rows>, ghost s: State) returns (monitors: Option<View>)
      requires Shows(s) && Inv(s) && s.load.NoLoad? && (rows.Some? ==> rows.value == s.rows)
      modifies this
      ensures monitors.None? ==> Shows(s) && rows.None?
      ensures monitors.Some? ==>
                var t := Loaded(s, system);
                Shows(t) && Inv(t) && system in t.systems && monitors.value == t.systems[system]
      ensures monitors.Some? ==> Accounted(s, system, monitors.value)
      ensures monitors.Some? && s.pending == multiset{} && (forall h :: h in s.handlers ==> h.todo == map[]) ==>
                Holds(monitors.value, s.rows, system)
    {
      if s.pending == multiset{} && forall h :: h in s.handlers ==> h.todo == map[] {
        GetIsFresh(s, system);
      }
      if system in systems {
        return Some(systems[system]);
      }
      if rows.None? {
        return None;
      }
      LoadedKeepsInv(s, system);
      var view := ViewOf(rows.value, system);
      systems := systems[system := view];
      monitors := Some(view);
    }
  }

  // What one comparison of a handler leads to.
  lemma {:induction false} AfterCheck(s: State, system: string, todo: map<string, int>, others: multiset<Handler>, id: string)
    returns (s': State)
    requires Inv(s) && s.load.NoLoad? && id in todo && s.handlers == others + multiset{Handler(system, todo)}
    ensures s' == Next(s, Check(Handler(system, todo), id)) && Inv(s')
    ensures s' == if CertChanged(s.systems, system, id, todo[id])
                  then s.(handlers := others, pending := s.pending + multiset{system})
                  else s.(handlers := others + multiset{Handler(system, todo - {id})})
  {
    var h := Handler(system, todo);
    s' := Next(s, Check(h, id));
    CheckKeepsInv(s, h, id);
    assert s.handlers - multiset{h} == others;
  }

  // The enabled monitors of a system, by what is stored: no other is there, and each with its
  // interval and the expiry that decoding leaves.
  ghost predicate Holds(view: View, rows: Rows, system: string) {
    && (forall id :: id in view <==> id in rows && rows[id].system == system && rows[id].enabled)
    && forall id <- view :: view[id].interval == rows[id].interval && view[id].certExpires == rows[id].cert.expires
  }

  lemma {:induction false} GetIsFresh(s: State, system: string)
    requires Inv(s) && s.load.NoLoad? && s.pending == multiset{} && forall h :: h in s.handlers ==> h.todo == map[]
    ensures Loaded(s, system).systems[system] == ViewOf(s.rows, system)
    ensures Holds(ViewOf(s.rows, system), s.rows, system)
  {
    if system in s.systems {
      FreshWhenQuiet(s, system, s.systems[system]);
    }
  }

  lemma {:induction false} LoadedKeepsInv(s: State, system: string)
    requires Inv(s) && s.load.NoLoad?
    ensures Inv(Loaded(s, system))
  {
    if system !in s.systems {
      var locked := Next(s, BeginLoad(system));
      LoadStepKeepsInv(s, BeginLoad(system));
      LoadStepKeepsInv(locked, Query);
      LoadStepKeepsInv(Next(locked, Query), Store);
    }
  }
}
