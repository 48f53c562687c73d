/** GPU averages. Every sample is added to one accumulator per GPU, and each reader (a cache key)
    remembers a snapshot of the accumulators at its last read.

    The reference gives each reader its own list of samples since its last read: `Pending`. The
    manager keeps no such lists, but its averages are those of `Pending`, and what it delivers to
    a reader over time is every sample once. */
module GpuAverages {
  import opened Wrappers

  // What one sample adds. Only some collectors report engines.
  datatype Sample = Sample(usage: real, power: real, powerPkg: real, engines: Option<map<string, real>>)

  // The incremental values of a GPU, and of a snapshot of it.
  datatype Totals = Totals(count: nat, usage: real, power: real, powerPkg: real, engines: Option<map<string, real>>)

  // Values that are replaced by each sample.
  datatype Instants = Instants(temperature: real, memoryUsed: real, memoryTotal: real,
                               fanSpeed: Option<real>, powerLimit: Option<real>)

  datatype Report = Report(name: string, instants: Instants,
                           usage: real, power: real, powerPkg: real, engines: Option<map<string, real>>)

  type Key = k: nat | k < 0x1_0000

  // Counts are converted to 32 bits; past that the conversion from float is undefined.
  const MAX_COUNT := 0xffff_ffff

  const ZERO := Totals(0, 0.0, 0.0, 0.0, None)
  const NO_INSTANTS := Instants(0.0, 0.0, 0.0, None, None)

  // ---------- Rounding ----------

  // Half away from zero.
  function Round(x: real): int {
    if x >= 0.0 then (x + 0.5).Floor else -((-x + 0.5).Floor)
  }

  // The nearest integer, and of two that are as near the one farther from zero.
  lemma {:induction false} RoundMeaning(x: real, n: int)
    ensures Round(x) == n <==>
            if x >= 0.0 then n as real - 0.5 <= x < n as real + 0.5 else n as real - 0.5 < x <= n as real + 0.5
  {
  }

  function TwoDecimals(x: real): (r: real)
    ensures -0.005 <= r - x <= 0.005
  {
    Round(x * 100.0) as real / 100.0
  }

  // ---------- Accumulators ----------

  function At(engines: map<string, real>, name: string): real {
    if name in engines then engines[name] else 0.0
  }

  function Entries(engines: Option<map<string, real>>): map<string, real> {
    if engines.Some? then engines.value else map[]
  }

  function Sums(engines: map<string, real>, more: map<string, real>): map<string, real> {
    map name <- engines.Keys + more.Keys :: At(engines, name) + At(more, name)
  }

  function Accumulated(t: Totals, s: Sample): Totals {
    Totals(t.count + 1, t.usage + s.usage, t.power + s.power, t.powerPkg + s.powerPkg,
           if s.engines.Some? then Some(Sums(Entries(t.engines), s.engines.value)) else t.engines)
  }

  function Total(log: seq<Sample>): Totals {
    if log == [] then ZERO else Accumulated(Total(log[..|log| - 1]), log[|log| - 1])
  }

  // ---------- The reference: sums over lists of samples ----------

  datatype Quantity = Usage | Power | PowerPkg | Engine(name: string)

  function Value(s: Sample, q: Quantity): real {
    match q
    case Usage => s.usage
    case Power => s.power
    case PowerPkg => s.powerPkg
    case Engine(name) => if s.engines.Some? && name in s.engines.value then s.engines.value[name] else 0.0
  }

  function Held(t: Totals, q: Quantity): real {
    match q
    case Usage => t.usage
    case Power => t.power
    case PowerPkg => t.powerPkg
    case Engine(name) => At(Entries(t.engines), name)
  }

  function Sum(log: seq<Sample>, q: Quantity): real {
    if log == [] then 0.0 else Value(log[0], q) + Sum(log[1..], q)
  }

  function Mean(window: seq<Sample>, q: Quantity): real
    requires window != []
  {
    Sum(window, q) / |window| as real
  }

  lemma {:induction false} SumAppend(a: seq<Sample>, b: seq<Sample>, q: Quantity)
    ensures Sum(a + b, q) == Sum(a, q) + Sum(b, q)
  {
    if a == [] {
      assert a + b == b;
    } else {
      SumAppend(a[1..], b, q);
      assert (a + b)[1..] == a[1..] + b;
    }
  }

  // An accumulator holds the sums of everything it was fed.
  lemma {:induction false} TotalHoldsSums(log: seq<Sample>, q: Quantity)
    ensures Total(log).count == |log|
    ensures Held(Total(log), q) == Sum(log, q)
  {
    if log != [] {
      var front, last := log[..|log| - 1], log[|log| - 1];
      TotalHoldsSums(front, q);
      SumAppend(front, [last], q);
      assert log == front + [last];
      assert Sum([last], q) == Value(last, q);
    }
  }

  lemma {:induction false} TotalAppend(log: seq<Sample>, sample: Sample)
    ensures Total(log + [sample]) == Accumulated(Total(log), sample)
  {
    assert (log + [sample])[..|log|] == log;
  }

  // Every engine a sample reported has an entry, and so has no other.
  lemma {:induction false} EngineEntries(log: seq<Sample>, name: string)
    ensures (Total(log).engines.Some? && name in Total(log).engines.value) <==>
            exists s <- log :: s.engines.Some? && name in s.engines.value
  {
    if log != [] {
      var front, last := log[..|log| - 1], log[|log| - 1];
      EngineEntries(front, name);
      assert log == front + [last];
    }
  }

  // ---------- The reference: readers ----------

  datatype Op = Arrive(id: string, sample: Sample) | Read(key: Key)

  function Arrivals(history: seq<Op>, id: string): seq<Sample> {
    if history == [] then []
    else
      var front, last := history[..|history| - 1], history[|history| - 1];
      if last.Arrive? && last.id == id then Arrivals(front, id) + [last.sample] else Arrivals(front, id)
  }

  // The samples of a GPU since a reader's last read.
  function Pending(history: seq<Op>, key: Key, id: string): seq<Sample> {
    if history == [] then []
    else
      var front, last := history[..|history| - 1], history[|history| - 1];
      match last
      case Arrive(other, sample) => if other == id then Pending(front, key, id) + [sample] else Pending(front, key, id)
      case Read(other) => if other == key then [] else Pending(front, key, id)
  }

  // The windows a reader's reads have covered.
  function Windows(history: seq<Op>, key: Key, id: string): seq<seq<Sample>> {
    if history == [] then []
    else
      var front, last := history[..|history| - 1], history[|history| - 1];
      if last == Read(key) then Windows(front, key, id) + [Pending(front, key, id)] else Windows(front, key, id)
  }

  function Flatten(windows: seq<seq<Sample>>): seq<Sample> {
    if windows == [] then [] else Flatten(windows[..|windows| - 1]) + windows[|windows| - 1]
  }

  // A reader is shown every sample exactly once and in order, whatever the other readers do.
  lemma {:induction false} NothingLostOrRepeated(history: seq<Op>, key: Key, id: string)
    ensures Flatten(Windows(history, key, id)) + Pending(history, key, id) == Arrivals(history, id)
  {
    if history != [] {
      var front, last := history[..|history| - 1], history[|history| - 1];
      NothingLostOrRepeated(front, key, id);
      if last == Read(key) {
        var windows := Windows(history, key, id);
        assert windows[..|windows| - 1] == Windows(front, key, id);
      }
    }
  }

  // A window's unrounded average times its count.
  function Share(window: seq<Sample>, q: Quantity): real {
    if window == [] then 0.0 else Mean(window, q) * |window| as real
  }

  function Weighted(windows: seq<seq<Sample>>, q: Quantity): real {
    if windows == [] then 0.0
    else Weighted(windows[..|windows| - 1], q) + Share(windows[|windows| - 1], q)
  }

  lemma {:induction false} TimesCount(sum: real, mean: real, n: real)
    requires n != 0.0 && mean == sum / n
    ensures mean * n == sum
  {
  }

  lemma {:induction false} ShareIsSum(window: seq<Sample>, q: Quantity)
    ensures Share(window, q) == Sum(window, q)
  {
    if window != [] {
      TimesCount(Sum(window, q), Mean(window, q), |window| as real);
    }
  }

  lemma {:induction false} WeightedIsSum(windows: seq<seq<Sample>>, q: Quantity)
    ensures Weighted(windows, q) == Sum(Flatten(windows), q)
  {
    if windows != [] {
      var front, last := windows[..|windows| - 1], windows[|windows| - 1];
      WeightedIsSum(front, q);
      ShareIsSum(last, q);
      SumAppend(Flatten(front), last, q);
    }
  }

  // For every reader, the unrounded averages times their counts, with what is still pending,
  // add up to the whole accumulator.
  lemma {:induction false} AveragesConserve(history: seq<Op>, key: Key, id: string, q: Quantity)
    ensures Weighted(Windows(history, key, id), q) + Sum(Pending(history, key, id), q) ==
            Held(Total(Arrivals(history, id)), q)
  {
    var windows, pending := Windows(history, key, id), Pending(history, key, id);
    NothingLostOrRepeated(history, key, id);
    WeightedIsSum(windows, q);
    SumAppend(Flatten(windows), pending, q);
    TotalHoldsSums(Arrivals(history, id), q);
  }

  // ---------- Snapshots stand for the lists ----------

  type Snapshots = map<Key, map<string, Totals>>

  function SnapshotOf(snapshots: Snapshots, key: Key, id: string): Option<Totals> {
    if key in snapshots && id in snapshots[key] then Some(snapshots[key][id]) else None
  }

  // A snapshot is the accumulator of what the reader has been shown.
  ghost predicate SnapshotExact(snapshot: Option<Totals>, shown: seq<Sample>) {
    match snapshot
    case Some(t) => t == Total(shown)
    case None => shown == []
  }

  function Shown(history: seq<Op>, key: Key, id: string): seq<Sample> {
    Flatten(Windows(history, key, id))
  }

  ghost predicate Tracks(totals: map<string, Totals>, snapshots: Snapshots, history: seq<Op>) {
    && (forall id {:trigger Arrivals(history, id)} ::
          if id in totals then totals[id] == Total(Arrivals(history, id)) else Arrivals(history, id) == [])
    && (forall key: Key, id: string {:trigger SnapshotOf(snapshots, key, id)} ::
          SnapshotExact(SnapshotOf(snapshots, key, id), Shown(history, key, id)))
    && (forall key <- snapshots :: snapshots[key].Keys <= totals.Keys)
  }

  lemma {:induction false} ArriveTracks(totals: map<string, Totals>, snapshots: Snapshots, history: seq<Op>, id: string, sample: Sample)
    requires Tracks(totals, snapshots, history)
    ensures var before := if id in totals then totals[id] else ZERO;
            Tracks(totals[id := Accumulated(before, sample)], snapshots, history + [Arrive(id, sample)])
  {
    var history' := history + [Arrive(id, sample)];
    assert history'[..|history|] == history;
    var totals' := totals[id := Accumulated(if id in totals then totals[id] else ZERO, sample)];
    forall other
      ensures if other in totals' then totals'[other] == Total(Arrivals(history', other)) else Arrivals(history', other) == []
    {
      if other == id {
        assert Arrivals(history', id) == Arrivals(history, id) + [sample];
        TotalAppend(Arrivals(history, id), sample);
      } else {
        assert Arrivals(history', other) == Arrivals(history, other);
      }
    }
    forall key: Key, other: string
      ensures SnapshotExact(SnapshotOf(snapshots, key, other), Shown(history', key, other))
    {
      assert Windows(history', key, other) == Windows(history, key, other);
    }
  }

  lemma {:induction false} ReadTracks(totals: map<string, Totals>, snapshots: Snapshots, history: seq<Op>, key: Key)
    requires Tracks(totals, snapshots, history)
    ensures Tracks(totals, snapshots[key := totals], history + [Read(key)])
  {
    var history' := history + [Read(key)];
    assert history'[..|history|] == history;
    assert forall id :: Arrivals(history', id) == Arrivals(history, id);
    forall other: Key, id: string
      ensures SnapshotExact(SnapshotOf(snapshots[key := totals], other, id), Shown(history', other, id))
    {
      NothingLostOrRepeated(history', key, id);
      assert Shown(history', key, id) + [] == Shown(history', key, id);
      assert SnapshotExact(SnapshotOf(snapshots, other, id), Shown(history, other, id));
    }
  }

  // The difference between accumulator and snapshot is the sum of the reader's own list.
  function Delta(current: Totals, snapshot: Option<Totals>, q: Quantity): real {
    Held(current, q) - if snapshot.Some? then Held(snapshot.value, q) else 0.0
  }

  function DeltaCount(current: Totals, snapshot: Option<Totals>): int {
    current.count - if snapshot.Some? then snapshot.value.count else 0
  }

  lemma {:induction false} DeltaIsPending(totals: map<string, Totals>, snapshots: Snapshots, history: seq<Op>, key: Key, id: string, q: Quantity)
    requires Tracks(totals, snapshots, history) && id in totals
    ensures var snapshot, pending := SnapshotOf(snapshots, key, id), Pending(history, key, id);
            && DeltaCount(totals[id], snapshot) == |pending|
            && Delta(totals[id], snapshot, q) == Sum(pending, q)
  {
    var snapshot, pending := SnapshotOf(snapshots, key, id), Pending(history, key, id);
    assert SnapshotExact(snapshot, Shown(history, key, id));
    NothingLostOrRepeated(history, key, id);
    TotalHoldsSums(Shown(history, key, id), q);
    TotalHoldsSums(Arrivals(history, id), q);
    SumAppend(Shown(history, key, id), pending, q);
  }

  // ---------- What a read reports ----------

  predicate Near(x: real, y: real) {
    -0.005 <= x - y <= 0.005
  }

  // The usage of a GPU with engines is that of its busiest one.
  ghost predicate Peak(peak: real, window: seq<Sample>, names: set<string>)
    requires window != []
  {
    && peak >= 0.0
    && (forall name <- names :: Mean(window, Engine(name)) <= peak)
    && (peak == 0.0 || exists name <- names :: Mean(window, Engine(name)) == peak)
  }

  ghost predicate Averages(r: Report, window: seq<Sample>, engines: Option<map<string, real>>)
    requires window != []
  {
    && Near(r.power, Mean(window, Power))
    && Near(r.powerPkg, Mean(window, PowerPkg))
    && match engines
       case None => r.engines.None? && Near(r.usage, Mean(window, Usage))
       case Some(held) =>
         && r.engines.Some? && r.engines.value.Keys == held.Keys
         && (forall name <- held :: Near(r.engines.value[name], Mean(window, Engine(name))))
         && exists peak :: Peak(peak, window, held.Keys) && Near(r.usage, peak)
  }

  predicate SameAverages(r: Report, other: Report) {
    r.usage == other.usage && r.power == other.power && r.powerPkg == other.powerPkg && r.engines == other.engines
  }

  function Nothing(name: string): Report {
    Report(name, NO_INSTANTS, 0.0, 0.0, 0.0, None)
  }

  datatype Gpu = Gpu(name: string, instants: Instants, totals: Totals)

  // A discrete GPU that reports no temperature and no memory is suspended.
  predicate Suspended(gpu: Gpu) {
    gpu.totals.engines.None? && gpu.instants.temperature == 0.0 && gpu.instants.memoryUsed == 0.0
  }

  // What a read without new samples carries forward.
  function Carried(gpu: Gpu, lastAvg: Option<Report>): Report {
    if Suspended(gpu) || lastAvg.None? then Nothing(gpu.name) else lastAvg.value
  }

  // The samples that the latest read to see any saw, whoever read, and the engines known then.
  ghost function LastWindow(history: seq<Op>, id: string): seq<Sample> {
    if history == [] then []
    else
      var front, last := history[..|history| - 1], history[|history| - 1];
      if last.Read? && Pending(front, last.key, id) != [] then Pending(front, last.key, id) else LastWindow(front, id)
  }

  ghost function LastEngines(history: seq<Op>, id: string): Option<map<string, real>> {
    if history == [] then None
    else
      var front, last := history[..|history| - 1], history[|history| - 1];
      if last.Read? && Pending(front, last.key, id) != [] then Total(Arrivals(front, id)).engines else LastEngines(front, id)
  }

  // The last averages are those of that window.
  ghost predicate Remembers(lastAvg: map<string, Report>, history: seq<Op>, id: string) {
    var window := LastWindow(history, id);
    if window == [] then id !in lastAvg
    else id in lastAvg && Averages(lastAvg[id], window, LastEngines(history, id))
  }

  ghost predicate IsZero(r: Report) {
    r.usage == 0.0 && r.power == 0.0 && r.powerPkg == 0.0 && r.engines.None?
  }

  // What a reader is shown of a GPU: averages over its own samples since its last read. Without
  // any, those over the last window that any reader saw; but zeros if there was none, or if the
  // GPU knows of no engines and reports neither a temperature nor memory in use.
  ghost predicate ShownAverages(r: Report, history: seq<Op>, key: Key, id: string, instants: Instants) {
    var window, engines := Pending(history, key, id), Total(Arrivals(history, id)).engines;
    if window != [] then Averages(r, window, engines)
    else if engines.None? && instants.temperature == 0.0 && instants.memoryUsed == 0.0 then IsZero(r)
    else if LastWindow(history, id) == [] then IsZero(r)
    else Averages(r, LastWindow(history, id), LastEngines(history, id))
  }

  // Present values are shown as they are, to two decimals.
  ghost predicate ShownInstants(shown: Instants, held: Instants) {
    && Near(shown.temperature, held.temperature) && Near(shown.memoryUsed, held.memoryUsed)
    && Near(shown.memoryTotal, held.memoryTotal)
    && shown.fanSpeed == held.fanSpeed && shown.powerLimit == held.powerLimit
  }

  // Other GPUs of the same name make a GPU be shown with its id.
  ghost predicate ShownName(name: string, id: string, gpus: map<string, Gpu>)
    requires id in gpus
  {
    name == if exists other <- gpus :: other != id && gpus[other].name == gpus[id].name then gpus[id].name + " " + id
            else gpus[id].name
  }

  lemma {:induction false} SameAveragesShown(r: Report, other: Report, window: seq<Sample>, engines: Option<map<string, real>>)
    requires window != [] && SameAverages(r, other) && Averages(other, window, engines)
    ensures Averages(r, window, engines)
  {
  }

  function Rounded(i: Instants): Instants {
    Instants(TwoDecimals(i.temperature), TwoDecimals(i.memoryUsed), TwoDecimals(i.memoryTotal), i.fanSpeed, i.powerLimit)
  }

  function TotalsOf(gpus: map<string, Gpu>): map<string, Totals> {
    map id <- gpus :: gpus[id].totals
  }

  function Lookup(averages: map<string, Report>, id: string): Option<Report> {
    if id in averages then Some(averages[id]) else None
  }

  // The report of one GPU: its averages over the reader's own list, its present values, and a
  // name told apart from GPUs of the same name.
  ghost predicate Reading(r: Report, id: string, gpus: map<string, Gpu>, window: seq<Sample>, lastAvg: Option<Report>)
    requires id in gpus
  {
    var gpu := gpus[id];
    && r.instants == Rounded(gpu.instants)
    && r.name == (if NameIsShared(gpus, id) then gpu.name + " " + id else gpu.name)
    && (window != [] ==> Averages(r, window, gpu.totals.engines))
    && (window == [] ==> SameAverages(r, Carried(gpu, lastAvg)))
  }

  // A read replaces the last average, whichever key computed it, only when it saw new samples.
  ghost predicate Reported(r: Report, id: string, gpus: map<string, Gpu>, window: seq<Sample>, before: Option<Report>, after: Option<Report>)
    requires id in gpus
  {
    && Reading(r, id, gpus, window, before)
    && if window == [] then after == before else after.Some? && SameAverages(after.value, r)
  }

  predicate NameIsShared(gpus: map<string, Gpu>, id: string)
    requires id in gpus
  {
    exists other <- gpus :: other != id && gpus[other].name == gpus[id].name
  }

  // What was read is what is to be shown.
  lemma {:induction false} ReportedIsShown(r: Report, id: string, gpus: map<string, Gpu>, history: seq<Op>, key: Key,
                                           before: map<string, Report>, after: Option<Report>)
    requires id in gpus && gpus[id].totals == Total(Arrivals(history, id)) && Remembers(before, history, id)
    requires Reported(r, id, gpus, Pending(history, key, id), Lookup(before, id), after)
    ensures ShownAverages(r, history, key, id, gpus[id].instants)
    ensures ShownInstants(r.instants, gpus[id].instants) && ShownName(r.name, id, gpus)
  {
    var last := LastWindow(history, id);
    if Pending(history, key, id) == [] && last != [] && !Suspended(gpus[id]) {
      SameAveragesShown(r, before[id], last, LastEngines(history, id));
    }
  }

  lemma {:induction false} ReadRemembers(r: Report, id: string, gpus: map<string, Gpu>, history: seq<Op>, key: Key,
                                         before: map<string, Report>, after: map<string, Report>)
    requires id in gpus && gpus[id].totals == Total(Arrivals(history, id)) && Remembers(before, history, id)
    requires Reported(r, id, gpus, Pending(history, key, id), Lookup(before, id), Lookup(after, id))
    ensures Remembers(after, history + [Read(key)], id)
  {
    var history' := history + [Read(key)];
    assert history'[..|history|] == history;
    var window := Pending(history, key, id);
    if window != [] {
      SameAveragesShown(after[id], r, window, gpus[id].totals.engines);
    }
  }

  lemma {:induction false} ArrivalRemembers(lastAvg: map<string, Report>, history: seq<Op>, other: string, sample: Sample, id: string)
    requires Remembers(lastAvg, history, id)
    ensures Remembers(lastAvg, history + [Arrive(other, sample)], id)
  {
    assert (history + [Arrive(other, sample)])[..|history|] == history;
  }

  // ---------- The manager ----------

  method AddEngines(into: map<string, real>, more: map<string, real>) returns (sums: map<string, real>)
    ensures sums == Sums(into, more)
  {
    sums := into;
    var todo := more.Keys;
    while todo != {}
      invariant todo <= more.Keys
      invariant sums.Keys == into.Keys + (more.Keys - todo)
      invariant forall name <- sums :: sums[name] == At(into, name) + if name in todo then 0.0 else At(more, name)
    {
      var name :| name in todo;
      sums := sums[name := At(sums, name) + more[name]];
      todo := todo - {name};
    }
  }

  method Feed(t: Totals, s: Sample) returns (fed: Totals)
    ensures fed == Accumulated(t, s)
  {
    var engines := t.engines;
    if s.engines.Some? {
      var sums := AddEngines(Entries(engines), s.engines.value);
      engines := Some(sums);
    }
    fed := Totals(t.count + 1, t.usage + s.usage, t.power + s.power, t.powerPkg + s.powerPkg, engines);
  }

  // Averages every engine and finds the busiest, in whatever order the map is iterated.
  method EngineAverages(held: map<string, real>, current: Totals, snapshot: Option<Totals>, ghost window: seq<Sample>)
    returns (averages: map<string, real>, usage: real)
    requires current.engines == Some(held) && window != []
    requires DeltaCount(current, snapshot) == |window|
    requires forall q :: Delta(current, snapshot, q) == Sum(window, q)
    ensures averages.Keys == held.Keys
    ensures forall name <- held :: Near(averages[name], Mean(window, Engine(name)))
    ensures exists peak :: Peak(peak, window, held.Keys) && Near(usage, peak)
  {
    var peak := 0.0;
    averages := map[];
    var todo := held.Keys;
    while todo != {}
      invariant todo <= held.Keys && averages.Keys == held.Keys - todo
      invariant forall name <- averages :: Near(averages[name], Mean(window, Engine(name)))
      invariant Peak(peak, window, held.Keys - todo)
    {
      var name :| name in todo;
      var delta := held[name] - (if snapshot.Some? then At(Entries(snapshot.value.engines), name) else 0.0);
      var mean := delta / DeltaCount(current, snapshot) as real;
      assert Delta(current, snapshot, Engine(name)) == delta;
      assert mean == Mean(window, Engine(name));
      averages := averages[name := TwoDecimals(mean)];
      peak := if mean > peak then mean else peak;
      todo := todo - {name};
    }
    usage := TwoDecimals(peak);
    assert held.Keys - todo == held.Keys;
  }

  class GPUManager {
    var gpus: map<string, Gpu>
    var lastAvg: map<string, Report>
    var snapshots: Snapshots
    ghost var history: seq<Op>

    ghost predicate Valid()
      reads this
    {
      && Tracks(TotalsOf(gpus), snapshots, history)
      && lastAvg.Keys <= gpus.Keys
      && forall id <- lastAvg :: lastAvg[id].name == gpus[id].name
    }

    ghost predicate Remembering()
      reads this
    {
      forall id {:trigger Remembers(lastAvg, history, id)} :: Remembers(lastAvg, history, id)
    }

    constructor ()
      ensures Valid() && Remembering() && history == [] && gpus == map[]
    {
      gpus, lastAvg, snapshots, history := map[], map[], map[], [];
    }

    // A parsed sample. Parsers that report no present values leave those alone.
    method AddSample(id: string, name: string, instants: Option<Instants>, sample: Sample)
      requires Valid() && (id in gpus ==> gpus[id].totals.count < MAX_COUNT)
      modifies this
      ensures Valid() && history == old(history) + [Arrive(id, sample)]
      ensures gpus.Keys == old(gpus).Keys + {id} && snapshots == old(snapshots) && lastAvg == old(lastAvg)
      ensures forall other <- old(gpus) :: other != id ==> gpus[other] == old(gpus)[other]
      ensures instants.Some? ==> gpus[id].instants == instants.value
      ensures gpus[id].name == if id in old(gpus) then old(gpus)[id].name else name
      ensures old(Remembering()) ==> Remembering()
    {
      forall other | Remembers(lastAvg, history, other) ensures Remembers(lastAvg, history + [Arrive(id, sample)], other) {
        ArrivalRemembers(lastAvg, history, id, sample, other);
      }
      var gpu := if id in gpus then gpus[id] else Gpu(name, NO_INSTANTS, ZERO);
      var totals := Feed(gpu.totals, sample);
      ghost var was := TotalsOf(gpus);
      ArriveTracks(was, snapshots, history, id, sample);
      gpus := gpus[id := Gpu(gpu.name, if instants.Some? then instants.value else gpu.instants, totals)];
      assert TotalsOf(gpus) == was[id := totals];
      history := history + [Arrive(id, sample)];
    }

    method CalculateGPUAverage(id: string, key: Key) returns (avg: Report)
      requires Valid() && id in gpus
      modifies this`lastAvg
      ensures avg.name == gpus[id].name
      ensures var window := Pending(history, key, id);
              && (window != [] ==> Averages(avg, window, gpus[id].totals.engines) && lastAvg == old(lastAvg)[id := avg])
              && (window == [] ==> SameAverages(avg, Carried(gpus[id], Lookup(old(lastAvg), id))) && lastAvg == old(lastAvg))
    {
      var gpu := gpus[id];
      var snapshot := SnapshotOf(snapshots, key, id);
      ghost var window := Pending(history, key, id);
      forall q ensures DeltaCount(gpu.totals, snapshot) == |window| && Delta(gpu.totals, snapshot, q) == Sum(window, q) {
        DeltaIsPending(TotalsOf(gpus), snapshots, history, key, id, q);
      }
      assert Delta(gpu.totals, snapshot, Usage) == Sum(window, Usage);
      var count := DeltaCount(gpu.totals, snapshot);
      if count == 0 {
        if Suspended(gpu) {
          return Nothing(gpu.name);
        }
        return if id in lastAvg then lastAvg[id] else Nothing(gpu.name);
      }
      var usage := TwoDecimals(Delta(gpu.totals, snapshot, Usage) / count as real);
      var power := TwoDecimals(Delta(gpu.totals, snapshot, Power) / count as real);
      var powerPkg := TwoDecimals(Delta(gpu.totals, snapshot, PowerPkg) / count as real);
      if gpu.totals.engines.Some? {
        var engines, busiest := EngineAverages(gpu.totals.engines.value, gpu.totals, snapshot, window);
        avg := Report(gpu.name, gpu.instants, busiest, power, powerPkg, Some(engines));
      } else {
        avg := Report(gpu.name, gpu.instants, usage, power, powerPkg, None);
      }
      lastAvg := lastAvg[id := avg];
    }

    method ReadGPU(id: string, key: Key) returns (r: Report)
      requires Valid() && id in gpus
      modifies this`lastAvg
      ensures Valid()
      ensures Reported(r, id, gpus, Pending(history, key, id), Lookup(old(lastAvg), id), Lookup(lastAvg, id))
      ensures forall other :: other != id ==> Lookup(lastAvg, other) == Lookup(old(lastAvg), other)
    {
      var gpu := gpus[id];
      var avg := CalculateGPUAverage(id, key);
      var name := if NameIsShared(gpus, id) then gpu.name + " " + id else avg.name;
      r := avg.(instants := Rounded(gpu.instants), name := name);
    }

    method ReadGPUs(key: Key) returns (data: map<string, Report>, taken: map<string, Totals>)
      requires Valid()
      modifies this`lastAvg
      ensures Valid()
      ensures data.Keys == gpus.Keys && taken == TotalsOf(gpus)
      ensures forall id {:trigger data[id]} | id in gpus ::
                Reported(data[id], id, gpus, Pending(history, key, id), Lookup(old(lastAvg), id), Lookup(lastAvg, id))
    {
      data, taken := map[], map[];
      ghost var all, past, before := gpus, history, lastAvg;
      var todo := gpus.Keys;
      while todo != {}
        invariant gpus == all && history == past && Valid()
        invariant todo <= all.Keys && data.Keys == all.Keys - todo && taken.Keys == data.Keys
        invariant forall id <- taken :: taken[id] == all[id].totals
        invariant forall id {:trigger data[id]} | id in data ::
                    Reported(data[id], id, all, Pending(past, key, id), Lookup(before, id), Lookup(lastAvg, id))
        invariant forall id {:trigger id in todo} | id in todo :: Lookup(lastAvg, id) == Lookup(before, id)
      {
        var id :| id in todo;
        var r := ReadGPU(id, key);
        data := data[id := r];
        taken := taken[id := gpus[id].totals];
        todo := todo - {id};
      }
      assert taken == TotalsOf(gpus);
    }

    // Reads with a key: every GPU's averages are those of the samples since the key's last read,
    // and no other key's snapshot moves.
    method GetCurrentData(key: Key) returns (data: map<string, Report>)
      requires Valid() && Remembering()
      modifies this
      ensures Valid() && Remembering() && history == old(history) + [Read(key)] && gpus == old(gpus)
      ensures data.Keys == gpus.Keys
      ensures forall id {:trigger data[id]} | id in gpus ::
                && ShownAverages(data[id], old(history), key, id, gpus[id].instants)
                && ShownInstants(data[id].instants, gpus[id].instants) && ShownName(data[id].name, id, gpus)
      ensures snapshots == old(snapshots)[key := TotalsOf(gpus)]
    {
      ghost var before, past := lastAvg, history;
      var taken;
      data, taken := ReadGPUs(key);
      DataIsShown(data, gpus, past, key, before, lastAvg);
      ReadTracks(TotalsOf(gpus), snapshots, history, key);
      snapshots := snapshots[key := taken];
      history := history + [Read(key)];
    }
  }

  lemma {:induction false} DataIsShown(data: map<string, Report>, gpus: map<string, Gpu>, history: seq<Op>, key: Key,
                                       before: map<string, Report>, after: map<string, Report>)
    requires data.Keys == gpus.Keys && before.Keys <= gpus.Keys && after.Keys <= gpus.Keys
    requires forall id {:trigger Arrivals(history, id)} ::
               if id in gpus then gpus[id].totals == Total(Arrivals(history, id)) else Arrivals(history, id) == []
    requires forall id {:trigger Remembers(before, history, id)} :: Remembers(before, history, id)
    requires forall id {:trigger data[id]} | id in gpus ::
               Reported(data[id], id, gpus, Pending(history, key, id), Lookup(before, id), Lookup(after, id))
    ensures forall id {:trigger data[id]} | id in gpus ::
              && ShownAverages(data[id], history, key, id, gpus[id].instants)
              && ShownInstants(data[id].instants, gpus[id].instants) && ShownName(data[id].name, id, gpus)
    ensures forall id {:trigger Remembers(after, history + [Read(key)], id)} :: Remembers(after, history + [Read(key)], id)
  {
    forall id | id in gpus
      ensures ShownAverages(data[id], history, key, id, gpus[id].instants)
      ensures ShownInstants(data[id].instants, gpus[id].instants) && ShownName(data[id].name, id, gpus)
    {
      assert Arrivals(history, id) == Arrivals(history, id) && Remembers(before, history, id);
      ReportedIsShown(data[id], id, gpus, history, key, before, Lookup(after, id));
    }
    forall id ensures Remembers(after, history + [Read(key)], id) {
      assert Remembers(before, history, id);
      if id in gpus {
        assert gpus[id].totals == Total(Arrivals(history, id));
        ReadRemembers(data[id], id, gpus, history, key, before, after);
      } else {
        NeverSeen(history, key, id);
        assert (history + [Read(key)])[..|history|] == history;
      }
    }
  }

  lemma {:induction false} NeverSeen(history: seq<Op>, key: Key, id: string)
    requires Arrivals(history, id) == []
    ensures Pending(history, key, id) == []
  {
    NothingLostOrRepeated(history, key, id);
  }
}
