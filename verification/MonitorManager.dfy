/** The manager of the monitor tasks: full and incremental sync requests against a map from
    monitor ID to task. The reference is a plain map from ID to configuration.

    Tasks are entries of `tasks`, known by their index; an entry is never removed, so an index is
    a task's identity for good. `log` is the reference history of MonitorHistory. */
module MonitorManager {
  import opened MonitorHistory
  import MonitorTask
  import opened ResumeGuard
  import opened Wrappers

  // An immutable monitor configuration.
  datatype Config = Config(
    id: string, target: string, protocol: string, port: nat, interval: nat, server: string, skipTLSVerify: bool)

  datatype Task = Task(config: Config, canceled: bool, log: seq<Sample>)

  datatype SyncRequest =
    | Replace(configs: seq<Config>)
    | Upsert(config: Config)
    | Delete(id: string)
    | Unknown(action: int)

  datatype SyncError = MissingId | UnknownAction

  // What a request means for the configured monitors: the last configuration of an ID wins and
  // configurations without an ID are dropped.
  function LastWins(configs: seq<Config>): (m: map<string, Config>)
    ensures "" !in m
    ensures forall id <- m :: m[id].id == id
  {
    if configs == [] then map[]
    else
      var c := configs[|configs| - 1];
      var before := LastWins(configs[..|configs| - 1]);
      if c.id == "" then before else before[c.id := c]
  }

  function Requested(configs: map<string, Config>, req: SyncRequest): map<string, Config> {
    match req
    case Replace(cs) => LastWins(cs)
    case Upsert(c) => if c.id == "" then configs else configs[c.id := c]
    case Delete(id) => configs - {id}
    case Unknown(_) => configs
  }

  ghost predicate Mentions(configs: seq<Config>, id: string) {
    exists i :: 0 <= i < |configs| && configs[i].id == id
  }

  lemma {:induction false} MentionsOneMore(configs: seq<Config>, c: Config, id: string)
    ensures Mentions(configs + [c], id) <==> Mentions(configs, id) || c.id == id
  {
    var all := configs + [c];
    if i :| 0 <= i < |configs| && configs[i].id == id {
      assert all[i].id == id;
    }
    assert all[|configs|] == c;
  }

  // The i-th configuration is the last one of its ID.
  ghost predicate IsLast(configs: seq<Config>, i: nat)
    requires i < |configs|
  {
    forall j :: i < j < |configs| ==> configs[j].id != configs[i].id
  }

  // An ID is configured by a list if it occurs in it and is not empty, and its last occurrence counts.
  lemma {:induction false} LastWinsMeaning(configs: seq<Config>, id: string)
    ensures id in LastWins(configs) <==> id != "" && Mentions(configs, id)
    ensures forall i :: 0 <= i < |configs| && IsLast(configs, i) && configs[i].id == id != "" ==> LastWins(configs)[id] == configs[i]
  {
    if configs != [] {
      var n := |configs| - 1;
      var front, last := configs[..n], configs[n];
      assert configs == front + [last];
      LastWinsMeaning(front, id);
      MentionsOneMore(front, last, id);
      forall i | 0 <= i < n && IsLast(configs, i) && configs[i].id == id ensures IsLast(front, i) && last.id != id {
        assert front[i] == configs[i];
      }
    }
  }

  // What a request leaves of one ID: a full list decides alone; an upsert and a deletion decide
  // about their own ID and leave every other as it was; nothing else changes anything.
  lemma {:induction false} RequestedMeaning(configs: map<string, Config>, req: SyncRequest, id: string)
    ensures req.Replace? ==>
              && (id in Requested(configs, req) <==> id != "" && Mentions(req.configs, id))
              && forall i :: 0 <= i < |req.configs| && IsLast(req.configs, i) && req.configs[i].id == id != "" ==>
                   Requested(configs, req)[id] == req.configs[i]
    ensures req.Upsert? && id == req.config.id != "" ==> id in Requested(configs, req) && Requested(configs, req)[id] == req.config
    ensures req.Delete? && id == req.id ==> id !in Requested(configs, req)
    ensures (req.Upsert? && (req.config.id == "" || id != req.config.id)) || (req.Delete? && id != req.id) || req.Unknown? ==>
              && (id in Requested(configs, req) <==> id in configs)
              && (id in configs ==> Requested(configs, req)[id] == configs[id])
  {
    if req.Replace? {
      LastWinsMeaning(req.configs, id);
    }
  }

  // The manager's state as a value.
  datatype Managed = Managed(tasks: seq<Task>, monitors: map<string, nat>, guarded: bool) {
    ghost predicate MappedOk(id: string)
      requires id in monitors
    {
      var t := monitors[id];
      id != "" && t < |tasks| && tasks[t].config.id == id && !tasks[t].canceled
    }

    ghost predicate LiveOk(t: nat)
      requires t < |tasks|
    {
      var id := tasks[t].config.id;
      !tasks[t].canceled ==> id in monitors && monitors[id] == t
    }

    // The live tasks are exactly the mapped ones, one per ID.
    ghost predicate Tracked() {
      && (forall id {:trigger MappedOk(id)} | id in monitors :: MappedOk(id))
      && (forall t {:trigger LiveOk(t)} | 0 <= t < |tasks| :: LiveOk(t))
    }

    function ConfigOf(id: string): Config
      requires Tracked() && id in monitors
    {
      assert MappedOk(id);
      tasks[monitors[id]].config
    }

    function LogOf(id: string): seq<Sample>
      requires Tracked() && id in monitors
    {
      assert MappedOk(id);
      tasks[monitors[id]].log
    }

    // And the resume guard runs exactly while there are any.
    ghost predicate Valid() {
      Tracked() && (guarded <==> monitors != map[])
    }

    ghost function Configs(): map<string, Config>
      requires Tracked()
    {
      map id <- monitors :: ConfigOf(id)
    }

    // How the task of one ID follows from the state before a request: an unchanged configuration
    // keeps the very task, a changed one gets a new task with the same history, a new ID gets an
    // empty one.
    ghost predicate Follows(id: string, before: Managed)
      requires Tracked() && before.Tracked() && id in monitors
    {
      if id in before.monitors && before.ConfigOf(id) == ConfigOf(id) then
        monitors[id] == before.monitors[id]
      else
        && monitors[id] >= |before.tasks|
        && LogOf(id) == if id in before.monitors then before.LogOf(id) else []
    }

    ghost predicate Keeps(t: nat, before: Managed)
      requires t < |before.tasks| <= |tasks|
    {
      && tasks[t].config == before.tasks[t].config && tasks[t].log == before.tasks[t].log
      && (before.tasks[t].canceled ==> tasks[t].canceled)
    }

    // Nothing is forgotten: earlier tasks keep their index, configuration and history, and a
    // canceled task stays canceled.
    ghost predicate Extends(before: Managed) {
      && |before.tasks| <= |tasks|
      && forall t {:trigger Keeps(t, before)} | 0 <= t < |before.tasks| :: Keeps(t, before)
    }
  }

  // ---------- The two changes a request is made of ----------

  function Removed(m: Managed, id: string): Managed
    requires id in m.monitors && m.monitors[id] < |m.tasks|
  {
    var t := m.monitors[id];
    m.(tasks := m.tasks[t := m.tasks[t].(canceled := true)], monitors := m.monitors - {id})
  }

  lemma {:induction false} RemoveTracks(m: Managed, id: string)
    requires m.Tracked() && id in m.monitors
    ensures m.MappedOk(id)
    ensures var m' := Removed(m, id);
            && m'.Tracked() && m'.Extends(m)
            && forall k <- m'.monitors :: m'.monitors[k] == m.monitors[k]
  {
    assert m.MappedOk(id);
    var m' := Removed(m, id);
    forall k | k in m'.monitors ensures m'.MappedOk(k) { assert m.MappedOk(k); }
    forall t | 0 <= t < |m'.tasks| ensures m'.LiveOk(t) && m'.Keeps(t, m) { assert m.LiveOk(t); }
  }

  // The task an ID has, if any, is canceled, and a new one starts from its history.
  function Installed(m: Managed, config: Config): Managed
    requires config.id in m.monitors ==> m.monitors[config.id] < |m.tasks|
  {
    if config.id in m.monitors then
      var t := m.monitors[config.id];
      Managed(m.tasks[t := m.tasks[t].(canceled := true)] + [Task(config, false, m.tasks[t].log)],
              m.monitors[config.id := |m.tasks|], true)
    else
      Managed(m.tasks + [Task(config, false, [])], m.monitors[config.id := |m.tasks|], true)
  }

  lemma {:induction false} InstallTracks(m: Managed, config: Config)
    requires m.Tracked() && config.id != ""
    ensures config.id in m.monitors ==> m.MappedOk(config.id)
    ensures var m' := Installed(m, config);
            && m'.Tracked() && m'.Extends(m)
            && m'.monitors == m.monitors[config.id := |m.tasks|]
            && m'.ConfigOf(config.id) == config
            && m'.LogOf(config.id) == if config.id in m.monitors then m.LogOf(config.id) else []
  {
    if config.id in m.monitors { assert m.MappedOk(config.id); }
    var m' := Installed(m, config);
    forall k | k in m'.monitors ensures m'.MappedOk(k) {
      if k != config.id { assert m.MappedOk(k); }
    }
    forall t | 0 <= t < |m'.tasks| ensures m'.LiveOk(t) {
      if t < |m.tasks| { assert m.LiveOk(t); }
    }
    forall t | 0 <= t < |m.tasks| ensures m'.Keeps(t, m) {}
  }

  lemma {:induction false} ExtendsTransitive(a: Managed, b: Managed, c: Managed)
    requires b.Extends(a) && c.Extends(b)
    ensures c.Extends(a)
  {
    forall t | 0 <= t < |a.tasks| ensures c.Keeps(t, a) { assert b.Keeps(t, a) && c.Keeps(t, b); }
  }

  // What an untouched mapping still refers to.
  lemma {:induction false} SameTask(a: Managed, b: Managed, id: string)
    requires a.Tracked() && b.Tracked() && b.Extends(a)
    requires id in a.monitors && id in b.monitors && a.monitors[id] == b.monitors[id]
    ensures b.ConfigOf(id) == a.ConfigOf(id) && b.LogOf(id) == a.LogOf(id)
  {
    assert a.MappedOk(id) && b.Keeps(a.monitors[id], a);
  }

  // The guard has no part in which task is whose.
  lemma {:induction false} GuardIrrelevant(before: Managed, m: Managed, guarded: bool)
    requires m.Tracked() && m.Extends(before)
    ensures var m' := m.(guarded := guarded);
            && m'.Tracked() && m'.Extends(before)
            && forall id <- m.monitors :: m'.ConfigOf(id) == m.ConfigOf(id) && m'.LogOf(id) == m.LogOf(id)
  {
    var m' := m.(guarded := guarded);
    forall id | id in m'.monitors ensures m'.MappedOk(id) { assert m.MappedOk(id); }
    forall t | 0 <= t < |m'.tasks| ensures m'.LiveOk(t) { assert m.LiveOk(t); }
    forall t | 0 <= t < |before.tasks| ensures m'.Keeps(t, before) { assert m.Keeps(t, before); }
  }

  // One handled request, as `HandleSyncRequest` promises it.
  ghost predicate Handled(before: Managed, req: SyncRequest, after: Managed) {
    && before.Valid() && after.Valid()
    && after.Configs() == Requested(before.Configs(), req)
    && (forall id <- after.monitors :: after.Follows(id, before))
    && after.Extends(before)
  }

  // A history that was recorded to while live, and frozen otherwise.
  ghost predicate GrewOnlyIfLive(before: Task, after: Task) {
    && after.config == before.config && after.canceled == before.canceled
    && (if before.canceled then after.log == before.log else before.log <= after.log)
  }

  // A stretch of an execution of the probe protocol, from its i-th to its j-th state, seen from one
  // of its tasks.
  datatype Stretch = Stretch(states: seq<MonitorTask.State>, steps: seq<MonitorTask.Step>, i: nat, j: nat, t: nat)

  predicate IsTask(task: Task, s: MonitorTask.State, t: nat) {
    t < |s.tasks| && s.tasks[t].canceled == task.canceled && s.tasks[t].log == task.log
  }

  ghost predicate PlaysOut(p: Stretch, before: Task, after: Task) {
    && MonitorTask.Execution(p.states, p.steps) && p.i <= p.j < |p.states|
    && IsTask(before, p.states[p.i], p.t) && IsTask(after, p.states[p.j], p.t)
    && after.config == before.config && after.canceled == before.canceled
  }

  // Between requests each task goes on with its probes; nothing else changes.
  ghost predicate Recorded(before: Managed, after: Managed) {
    && |after.tasks| == |before.tasks|
    && after.monitors == before.monitors && after.guarded == before.guarded
    && forall t :: 0 <= t < |before.tasks| ==> exists p :: PlaysOut(p, before.tasks[t], after.tasks[t])
  }

  lemma {:induction false} ProbesOnlyRecord(before: Managed, after: Managed)
    requires Recorded(before, after)
    ensures forall t :: 0 <= t < |before.tasks| ==> GrewOnlyIfLive(before.tasks[t], after.tasks[t])
  {
    forall t | 0 <= t < |before.tasks| ensures GrewOnlyIfLive(before.tasks[t], after.tasks[t]) {
      var p :| PlaysOut(p, before.tasks[t], after.tasks[t]);
      MonitorTask.HistoryOnlyGrows(p.states, p.steps, p.i, p.j, p.t);
      if before.tasks[t].canceled {
        MonitorTask.CanceledHistoryFrozen(p.states, p.steps, p.i, p.j, p.t);
      }
    }
  }

  lemma {:induction false} RecordingKeeps(before: Managed, after: Managed)
    requires before.Valid() && Recorded(before, after)
    ensures after.Valid() && after.Configs() == before.Configs()
    ensures forall id <- before.monitors :: before.LogOf(id) <= after.LogOf(id)
  {
    ProbesOnlyRecord(before, after);
    forall id | id in after.monitors ensures after.MappedOk(id) {
      assert before.MappedOk(id);
      assert GrewOnlyIfLive(before.tasks[before.monitors[id]], after.tasks[before.monitors[id]]);
    }
    forall t | 0 <= t < |after.tasks| ensures after.LiveOk(t) {
      assert before.LiveOk(t) && GrewOnlyIfLive(before.tasks[t], after.tasks[t]);
    }
    forall id | id in before.monitors ensures after.ConfigOf(id) == before.ConfigOf(id) && before.LogOf(id) <= after.LogOf(id) {
      assert before.MappedOk(id);
      assert GrewOnlyIfLive(before.tasks[before.monitors[id]], after.tasks[before.monitors[id]]);
    }
  }

  function RequestedAll(reqs: seq<SyncRequest>): map<string, Config> {
    if reqs == [] then map[] else Requested(RequestedAll(reqs[..|reqs| - 1]), reqs[|reqs| - 1])
  }

  // A run of the manager: before each request live tasks may record, and then it is handled.
  ghost predicate Run(states: seq<Managed>, recorded: seq<Managed>, reqs: seq<SyncRequest>) {
    && |states| == |reqs| + 1 && |recorded| == |reqs|
    && states[0] == Managed([], map[], false)
    && forall i {:trigger Handled(recorded[i], reqs[i], states[i + 1])} ::
         0 <= i < |reqs| ==> Recorded(states[i], recorded[i]) && Handled(recorded[i], reqs[i], states[i + 1])
  }

  lemma {:induction false} ValidAlways(states: seq<Managed>, recorded: seq<Managed>, reqs: seq<SyncRequest>, n: nat)
    requires Run(states, recorded, reqs) && n <= |reqs|
    ensures states[n].Valid() && states[n].Configs() == RequestedAll(reqs[..n])
  {
    if n > 0 {
      var i := n - 1;
      ValidAlways(states, recorded, reqs, i);
      assert Handled(recorded[i], reqs[i], states[i + 1]);
      RecordingKeeps(states[i], recorded[i]);
      assert reqs[..n][..i] == reqs[..i];
    }
  }

  // After any sequence of requests the map is the reference map, its tasks are the only live
  // ones, and the guard runs exactly while there are monitors.
  lemma {:induction false} ManagerRefinesConfigMap(states: seq<Managed>, recorded: seq<Managed>, reqs: seq<SyncRequest>, n: nat)
    requires Run(states, recorded, reqs) && n <= |reqs|
    ensures var m, reference := states[n], RequestedAll(reqs[..n]);
            && m.Valid() && m.Configs() == reference
            && (m.guarded <==> reference != map[])
            && forall t :: 0 <= t < |m.tasks| && !m.tasks[t].canceled ==>
                 var id := m.tasks[t].config.id; id in reference && id in m.monitors && m.monitors[id] == t
  {
    ValidAlways(states, recorded, reqs, n);
    var m := states[n];
    assert m.Configs().Keys == m.monitors.Keys;
    forall t | 0 <= t < |m.tasks| && !m.tasks[t].canceled
      ensures var id := m.tasks[t].config.id; id in m.Configs() && id in m.monitors && m.monitors[id] == t
    {
      assert m.LiveOk(t);
    }
  }

  ghost predicate Configured(reqs: seq<SyncRequest>, i: nat, id: string)
    requires i <= |reqs|
  {
    id in RequestedAll(reqs[..i])
  }

  lemma {:induction false} HandlingKeepsHistory(before: Managed, recorded: Managed, req: SyncRequest, after: Managed, id: string)
    requires before.Valid() && Recorded(before, recorded) && Handled(recorded, req, after)
    requires id in before.monitors && id in after.monitors
    ensures before.LogOf(id) <= after.LogOf(id)
  {
    RecordingKeeps(before, recorded);
    assert after.Follows(id, recorded);
    if recorded.ConfigOf(id) == after.ConfigOf(id) {
      SameTask(recorded, after, id);
    }
  }

  lemma {:induction false} ConfiguredIsMapped(states: seq<Managed>, recorded: seq<Managed>, reqs: seq<SyncRequest>, i: nat, id: string)
    requires Run(states, recorded, reqs) && i <= |reqs| && Configured(reqs, i, id)
    ensures states[i].Valid() && id in states[i].monitors
  {
    ValidAlways(states, recorded, reqs, i);
    assert id in states[i].Configs();
  }

  lemma {:induction false} RequestKeepsHistory(states: seq<Managed>, recorded: seq<Managed>, reqs: seq<SyncRequest>, i: nat, id: string)
    requires Run(states, recorded, reqs) && i < |reqs|
    requires Configured(reqs, i, id) && Configured(reqs, i + 1, id)
    ensures states[i].Valid() && states[i + 1].Valid() && id in states[i].monitors && id in states[i + 1].monitors
    ensures states[i].LogOf(id) <= states[i + 1].LogOf(id)
  {
    ConfiguredIsMapped(states, recorded, reqs, i, id);
    ConfiguredIsMapped(states, recorded, reqs, i + 1, id);
    assert Handled(recorded[i], reqs[i], states[i + 1]);
    HandlingKeepsHistory(states[i], recorded[i], reqs[i], states[i + 1], id);
  }

  // A history only ever grows as long as its monitor stays configured, across any number of
  // replacements of its task.
  lemma {:induction false} HistoryKept(states: seq<Managed>, recorded: seq<Managed>, reqs: seq<SyncRequest>, m: nat, n: nat, id: string)
    requires Run(states, recorded, reqs) && m <= n <= |reqs|
    requires forall i :: m <= i <= n ==> Configured(reqs, i, id)
    ensures states[m].Valid() && states[n].Valid() && id in states[m].monitors && id in states[n].monitors
    ensures states[m].LogOf(id) <= states[n].LogOf(id)
  {
    ConfiguredIsMapped(states, recorded, reqs, m, id);
    if m < n {
      HistoryKept(states, recorded, reqs, m, n - 1, id);
      RequestKeepsHistory(states, recorded, reqs, n - 1, id);
    }
  }

  // Part way through a replacement: the IDs in `todo` are as before, the others are done.
  ghost predicate Replacing(before: Managed, m: Managed, newKeys: map<string, Config>, todo: set<string>) {
    && before.Tracked() && m.Tracked() && m.Extends(before)
    && m.monitors.Keys <= newKeys.Keys && newKeys.Keys - todo <= m.monitors.Keys
    && (forall id <- todo :: id in m.monitors <==> id in before.monitors)
    && (forall id <- todo :: id in m.monitors ==> m.monitors[id] == before.monitors[id])
    && (forall id <- newKeys.Keys - todo :: m.ConfigOf(id) == newKeys[id] && m.Follows(id, before))
  }

  lemma {:induction false} SelfFollows(m: Managed)
    requires m.Tracked()
    ensures m.Extends(m) && forall id <- m.monitors :: m.Follows(id, m)
  {
    forall t | 0 <= t < |m.tasks| ensures m.Keeps(t, m) {}
  }

  lemma {:induction false} InstallProgress(before: Managed, m: Managed, config: Config, newKeys: map<string, Config>, todo: set<string>)
    requires config.id != "" && config.id in todo && todo <= newKeys.Keys && newKeys[config.id] == config
    requires Replacing(before, m, newKeys, todo)
    requires config.id in m.monitors ==> m.MappedOk(config.id) && m.ConfigOf(config.id) != config
    ensures Replacing(before, Installed(m, config), newKeys, todo - {config.id})
  {
    var m' := Installed(m, config);
    InstallTracks(m, config);
    ExtendsTransitive(before, m, m');
    forall id | id in newKeys.Keys - (todo - {config.id}) ensures m'.ConfigOf(id) == newKeys[id] && m'.Follows(id, before) {
      if id == config.id {
        if id in m.monitors { SameTask(before, m, id); }
      } else {
        assert m.Follows(id, before);
        SameTask(m, m', id);
      }
    }
  }

  lemma {:induction false} SkipProgress(before: Managed, m: Managed, config: Config, newKeys: map<string, Config>, todo: set<string>)
    requires config.id in todo && todo <= newKeys.Keys && newKeys[config.id] == config
    requires Replacing(before, m, newKeys, todo)
    requires config.id in m.monitors && m.ConfigOf(config.id) == config
    ensures Replacing(before, m, newKeys, todo - {config.id})
  {
    SameTask(before, m, config.id);
  }

  lemma {:induction false} KeptFollows(before: Managed, kept: Managed, m: Managed)
    requires before.Tracked() && kept.Tracked() && m.Tracked()
    requires kept.Extends(before) && m.Extends(kept) && |kept.tasks| == |before.tasks|
    requires kept.monitors.Keys == before.monitors.Keys * m.monitors.Keys
    requires forall id <- kept.monitors :: kept.monitors[id] == before.monitors[id]
    requires forall id <- m.monitors :: m.Follows(id, kept)
    ensures m.Extends(before) && forall id <- m.monitors :: m.Follows(id, before)
  {
    ExtendsTransitive(before, kept, m);
    forall id | id in m.monitors ensures m.Follows(id, before) {
      assert m.Follows(id, kept);
      if id in kept.monitors { SameTask(before, kept, id); }
    }
  }

  lemma {:induction false} ConfigsAre(m: Managed, configs: map<string, Config>)
    requires m.Tracked() && m.monitors.Keys == configs.Keys
    requires forall id <- configs :: m.ConfigOf(id) == configs[id]
    ensures m.Configs() == configs
  {
  }

  // One monitor installed or already right, the others untouched.
  lemma {:induction false} UpsertHandled(before: Managed, m: Managed, config: Config)
    requires before.Valid() && config.id != ""
    requires m == (if config.id in before.monitors && before.ConfigOf(config.id) == config then before else
                     (InstallTracks(before, config); Installed(before, config)))
    ensures Handled(before, Upsert(config), m)
  {
    SelfFollows(before);
    InstallTracks(before, config);
    forall id | id in m.monitors ensures m.Follows(id, before) {
      if id != config.id { SameTask(before, m, id); }
    }
    forall id | id in m.monitors && id != config.id ensures m.ConfigOf(id) == before.ConfigOf(id) {
      SameTask(before, m, id);
    }
    ConfigsAre(m, before.Configs()[config.id := config]);
  }

  lemma {:induction false} NoEmptyId(m: Managed)
    requires m.Tracked()
    ensures "" !in m.monitors
  {
    assert "" in m.monitors ==> m.MappedOk("");
  }

  // A monitor forgotten if it was there, the others untouched; the guard follows.
  lemma {:induction false} DeleteHandled(before: Managed, m: Managed, id: string)
    requires before.Valid() && m.Valid() && m.Extends(before)
    requires m.monitors == before.monitors - {id}
    ensures Handled(before, Delete(id), m)
  {
    forall k | k in m.monitors ensures m.Follows(k, before) && m.ConfigOf(k) == before.ConfigOf(k) {
      SameTask(before, m, k);
    }
    ConfigsAre(m, before.Configs() - {id});
  }

  class MonitorManager {
    var tasks: seq<Task>
    var monitors: map<string, nat>
    const resumeGuard: MonitorResumeGuard

    ghost function State(): Managed
      reads this, resumeGuard
    {
      Managed(tasks, monitors, resumeGuard.stop)
    }

    ghost predicate Valid()
      reads this, resumeGuard
    {
      resumeGuard.Valid() && State().Valid()
    }

    constructor ()
      ensures Valid() && State() == Managed([], map[], false)
    {
      tasks := [];
      monitors := map[];
      resumeGuard := new MonitorResumeGuard();
    }

    method Cancel(t: nat)
      requires t < |tasks|
      modifies this`tasks
      ensures tasks == old(tasks)[t := old(tasks[t]).(canceled := true)]
    {
      tasks := tasks[t := tasks[t].(canceled := true)];
    }

    // Cancels and forgets one mapped task.
    method Remove(id: string)
      requires State().Tracked() && id in monitors
      modifies this`tasks, this`monitors
      ensures old(State()).MappedOk(id) && State() == Removed(old(State()), id)
    {
      assert State().MappedOk(id);
      Cancel(monitors[id]);
      monitors := monitors - {id};
    }

    // Installs a task for a configuration that is new or changed. The old task is canceled before
    // its history is copied.
    method Install(config: Config, now: int)
      requires State().Tracked() && resumeGuard.Valid()
      modifies this, resumeGuard
      ensures resumeGuard.Valid()
      ensures config.id in old(monitors) ==> old(State()).MappedOk(config.id)
      ensures State() == Installed(old(State()), config)
    {
      var log := [];
      if config.id in monitors {
        assert State().MappedOk(config.id);
        Cancel(monitors[config.id]);
        log := tasks[monitors[config.id]].log;
      }
      resumeGuard.Start(now);
      monitors := monitors[config.id := |tasks|];
      tasks := tasks + [Task(config, false, log)];
    }

    method CollectConfigs(configs: seq<Config>) returns (newKeys: map<string, Config>)
      ensures newKeys == LastWins(configs)
    {
      newKeys := map[];
      for i := 0 to |configs|
        invariant newKeys == LastWins(configs[..i])
      {
        assert configs[..i + 1][..i] == configs[..i];
        if configs[i].id != "" {
          newKeys := newKeys[configs[i].id := configs[i]];
        }
      }
      assert configs[..|configs|] == configs;
    }

    method StopRemoved(keep: set<string>)
      requires State().Tracked()
      modifies this`tasks, this`monitors
      ensures State().Tracked() && State().Extends(old(State())) && |tasks| == |old(tasks)|
      ensures monitors == map id <- old(monitors) | id in keep :: old(monitors)[id]
    {
      var keys := monitors.Keys;
      while keys != {}
        invariant State().Tracked() && State().Extends(old(State())) && |tasks| == |old(tasks)|
        invariant keys <= monitors.Keys
        invariant forall id <- old(monitors) :: id in monitors <==> id in keep || id in keys
        invariant forall id <- monitors :: id in old(monitors) && monitors[id] == old(monitors)[id]
        decreases keys
      {
        var key :| key in keys;
        if key !in keep {
          ghost var m := State();
          Remove(key);
          RemoveTracks(m, key);
          ExtendsTransitive(old(State()), m, State());
        }
        keys := keys - {key};
      }
    }

    // Starts new monitors and restarts the ones whose configuration changed.
    method InstallChanged(newKeys: map<string, Config>, now: int)
      requires State().Tracked() && resumeGuard.Valid()
      requires monitors.Keys <= newKeys.Keys && (monitors != map[] ==> resumeGuard.stop)
      requires forall id <- newKeys :: id != "" && newKeys[id].id == id
      modifies this, resumeGuard
      ensures State().Tracked() && resumeGuard.Valid() && State().Extends(old(State()))
      ensures monitors.Keys == newKeys.Keys && (monitors != map[] ==> resumeGuard.stop)
      ensures forall id <- newKeys :: State().ConfigOf(id) == newKeys[id] && State().Follows(id, old(State()))
    {
      ghost var before := State();
      SelfFollows(before);
      var todo := newKeys.Keys;
      while todo != {}
        invariant State().Tracked() && resumeGuard.Valid() && (monitors != map[] ==> resumeGuard.stop)
        invariant todo <= newKeys.Keys && Replacing(before, State(), newKeys, todo)
        decreases todo
      {
        var key :| key in todo;
        InstallIfChanged(newKeys[key], now, before, newKeys, todo);
        todo := todo - {key};
      }
    }

    method InstallIfChanged(config: Config, now: int, ghost before: Managed, ghost newKeys: map<string, Config>, ghost todo: set<string>)
      requires State().Tracked() && resumeGuard.Valid() && (monitors != map[] ==> resumeGuard.stop)
      requires config.id != "" && config.id in todo && todo <= newKeys.Keys && newKeys[config.id] == config
      requires Replacing(before, State(), newKeys, todo)
      modifies this, resumeGuard
      ensures State().Tracked() && resumeGuard.Valid() && (monitors != map[] ==> resumeGuard.stop)
      ensures Replacing(before, State(), newKeys, todo - {config.id})
      ensures config.id in monitors && State().ConfigOf(config.id) == config
    {
      ghost var m := State();
      if config.id in monitors {
        assert m.MappedOk(config.id);
      }
      if config.id !in monitors || tasks[monitors[config.id]].config != config {
        Install(config, now);
        InstallTracks(m, config);
        InstallProgress(before, m, config, newKeys, todo);
      } else {
        SkipProgress(before, m, config, newKeys, todo);
      }
    }

    // With no monitors left the heartbeat stops.
    method StopGuardIfIdle()
      requires State().Tracked() && resumeGuard.Valid() && (monitors != map[] ==> resumeGuard.stop)
      modifies resumeGuard
      ensures Valid()
    {
      SelfFollows(State());
      GuardIrrelevant(State(), State(), false);
      if monitors == map[] {
        resumeGuard.Shutdown();
      }
    }

    // Replaces all monitors with the given configurations.
    method SyncMonitors(configs: seq<Config>, now: int)
      requires Valid()
      modifies this, resumeGuard
      ensures Valid() && Handled(old(State()), Replace(configs), State())
    {
      var newKeys := CollectConfigs(configs);
      ghost var before := State();
      StopRemoved(newKeys.Keys);
      ghost var kept := State();
      InstallChanged(newKeys, now);
      ghost var m := State();
      KeptFollows(before, kept, m);
      StopGuardIfIdle();
      GuardIrrelevant(before, m, State().guarded);
      ConfigsAre(State(), newKeys);
    }

    // Creates or replaces one task. The result is the task an immediate probe runs on.
    method UpsertMonitor(config: Config, now: int) returns (task: Option<nat>)
      requires Valid()
      modifies this, resumeGuard
      ensures Valid() && Handled(old(State()), Upsert(config), State())
      ensures if config.id == "" then task == None else config.id in monitors && task == Some(monitors[config.id])
    {
      ghost var before := State();
      if config.id == "" {
        SelfFollows(before);
        return None;
      }
      if config.id in monitors {
        assert before.MappedOk(config.id);
      }
      if config.id !in monitors || tasks[monitors[config.id]].config != config {
        Install(config, now);
      }
      task := Some(monitors[config.id]);
      UpsertHandled(before, State(), config);
    }

    method DeleteMonitor(id: string)
      requires Valid()
      modifies this, resumeGuard
      ensures Valid() && Handled(old(State()), Delete(id), State())
    {
      ghost var before := State();
      SelfFollows(before);
      if id == "" {
        NoEmptyId(before);
        DeleteHandled(before, before, id);
        return;
      }
      if id in monitors {
        Remove(id);
        RemoveTracks(before, id);
      }
      ghost var m := State();
      StopGuardIfIdle();
      GuardIrrelevant(before, m, State().guarded);
      DeleteHandled(before, State(), id);
    }

    // Stops everything: no task stays live and the guard stops.
    method Stop()
      requires Valid()
      modifies this, resumeGuard
      ensures Valid() && Handled(old(State()), Replace([]), State())
      ensures !resumeGuard.stop && forall t :: 0 <= t < |tasks| ==> tasks[t].canceled
    {
      StopRemoved({});
      assert monitors == map[];
      GuardIrrelevant(old(State()), State(), false);
      resumeGuard.Shutdown();
      forall t | 0 <= t < |tasks| ensures tasks[t].canceled {
        assert State().LiveOk(t);
      }
      ConfigsAre(State(), map[]);
    }

    method HandleSyncRequest(req: SyncRequest, now: int) returns (error: Option<SyncError>)
      requires Valid()
      modifies this, resumeGuard
      ensures Valid() && Handled(old(State()), req, State())
      ensures error == match req
                       case Replace(_) => None
                       case Upsert(config) => if config.id == "" then Some(MissingId) else None
                       case Delete(id) => if id == "" then Some(MissingId) else None
                       case Unknown(_) => Some(UnknownAction)
    {
      error := None;
      match req
      case Replace(configs) => SyncMonitors(configs, now);
      case Upsert(config) =>
        var task := UpsertMonitor(config, now);
        if task.None? {
          error := Some(MissingId);
        }
      case Delete(id) =>
        if id == "" {
          error := Some(MissingId);
          SelfFollows(State());
          NoEmptyId(State());
          DeleteHandled(State(), State(), id);
        } else {
          DeleteMonitor(id);
        }
      case Unknown(_) =>
        error := Some(UnknownAction);
        SelfFollows(State());
    }
  }
}
