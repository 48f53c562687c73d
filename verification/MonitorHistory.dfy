/** The sample history behind one network monitor: a pruned list of raw samples for short
    queries and a ring of 61 minute aggregates for queries of up to an hour.

    The reference is the unbounded log of every sample ever recorded. `RetainedBy` and
    `RingOf` say what the two retention layers hold after any log, and the lemmas say when
    a query on them answers exactly like the same query on the log. */
module MonitorHistory {
  import opened Wrappers

  const SECOND := 1_000_000_000
  const MINUTE := 60 * SECOND
  const HOUR := 3600 * SECOND
  const RAW_RETENTION := 61 * SECOND
  const RING := 61
  const MAX_INT64 := 0x7fff_ffff_ffff_ffff

  // Nanoseconds since the Unix epoch. The range is where int32(Unix()/60) is exact and
  // nonnegative: outside it the minute wraps, and a negative minute indexes out of the ring.
  type Instant = t: int | 0 <= t < MINUTE * 0x8000_0000

  type Micros = r: int | -MAX_INT64 - 1 <= r <= MAX_INT64

  // A negative response means the attempt was lost.
  datatype Sample = Sample(responseUs: Micros, timestamp: Instant)

  // Go truncates Unix()/60 toward zero; a cutoff may fall before the epoch.
  function Minute(t: int): (m: int)
    ensures t >= 0 ==> m == t / MINUTE
  {
    var seconds := t / SECOND;
    if seconds >= 0 then seconds / 60 else -(-seconds / 60)
  }

  function MinuteOf(s: Sample): (m: nat) {
    Minute(s.timestamp)
  }

  function Slot(s: Sample): (i: nat)
    ensures i < RING
  {
    MinuteOf(s) % RING
  }

  // ---------- Aggregates ----------

  datatype Aggregate = Aggregate(sumUs: int, minUs: int, maxUs: int, totalCount: int, successCount: int) {
    function AddResponse(r: Micros): Aggregate {
      var counted := this.(totalCount := totalCount + 1);
      if r < 0 then counted
      else
        counted.(successCount := successCount + 1,
                 sumUs := sumUs + r,
                 minUs := if r < minUs then r else minUs,
                 maxUs := if r > maxUs then r else maxUs)
    }

    function AddAggregate(other: Aggregate): Aggregate {
      if other.totalCount == 0 then this
      else
        var counted := this.(totalCount := totalCount + other.totalCount,
                             successCount := successCount + other.successCount,
                             sumUs := sumUs + other.sumUs);
        if other.successCount == 0 then counted
        else
          counted.(minUs := if minUs == MAX_INT64 || other.minUs < minUs then other.minUs else minUs,
                   maxUs := if other.maxUs > maxUs then other.maxUs else maxUs)
    }

    predicate HasData() {
      totalCount > 0
    }

    // Go divides toward zero; both operands are nonnegative in every reachable aggregate.
    function AvgResponse(): int {
      if successCount <= 0 then 0 else sumUs / successCount
    }

    // Percent, rounded to two decimals.
    function LossPercentage(): real {
      if totalCount == 0 then 0.0
      else
        ((totalCount - successCount) as real / totalCount as real * 10000.0 + 0.5).Floor as real / 100.0
    }

    // What every aggregate of real samples satisfies.
    ghost predicate WellFormed() {
      && 0 <= successCount <= totalCount
      && (successCount == 0 ==> sumUs == 0 && minUs == MAX_INT64 && maxUs == 0)
      && (successCount > 0 ==> 0 <= minUs <= maxUs <= MAX_INT64)
    }
  }

  const EMPTY := Aggregate(0, MAX_INT64, 0, 0, 0)

  // The samples of a log picked by `keep`, folded in log order. This is the meaning of a query.
  function Stats(log: seq<Sample>, keep: Sample -> bool): (agg: Aggregate)
    ensures agg.WellFormed()
  {
    if log == [] then EMPTY
    else
      var last := log[|log| - 1];
      var before := Stats(log[..|log| - 1], keep);
      if keep(last) then before.AddResponse(last.responseUs) else before
  }

  // The picked samples themselves.
  function Picked(log: seq<Sample>, keep: Sample -> bool): seq<Sample> {
    if log == [] then []
    else
      var n := |log| - 1;
      var before := Picked(log[..n], keep);
      if keep(log[n]) then before + [log[n]] else before
  }

  function Answered(s: Sample): bool {
    s.responseUs >= 0
  }

  function Sum(samples: seq<Sample>): int {
    if samples == [] then 0 else Sum(samples[..|samples| - 1]) + samples[|samples| - 1].responseUs
  }

  // The numbers of an aggregate that come from exactly these answered responses.
  ghost predicate Summarizes(agg: Aggregate, answered: seq<Sample>) {
    && agg.successCount == |answered| && agg.sumUs == Sum(answered)
    && (forall s <- answered :: agg.minUs <= s.responseUs <= agg.maxUs)
    && (answered != [] ==> exists s <- answered :: s.responseUs == agg.minUs)
    && (answered != [] ==> exists s <- answered :: s.responseUs == agg.maxUs)
  }

  lemma {:induction false} AddSummarizes(agg: Aggregate, answered: seq<Sample>, s: Sample)
    requires agg.WellFormed() && Summarizes(agg, answered) && Answered(s)
    ensures Summarizes(agg.AddResponse(s.responseUs), answered + [s])
  {
    var next, all := agg.AddResponse(s.responseUs), answered + [s];
    assert all[..|answered|] == answered && all[|answered|] == s;
    assert s in all && forall t <- answered :: t in all;
    if answered != [] {
      var lo :| lo in answered && lo.responseUs == agg.minUs;
      var hi :| hi in answered && hi.responseUs == agg.maxUs;
    }
  }

  // What a query counts: the picked samples, and the number, sum, minimum and maximum of the
  // responses among them that were answered.
  lemma {:induction false} StatsMeaning(log: seq<Sample>, keep: Sample -> bool)
    ensures Stats(log, keep).totalCount == |Picked(log, keep)|
    ensures Summarizes(Stats(log, keep), Picked(Picked(log, keep), Answered))
  {
    if log != [] {
      var n := |log| - 1;
      StatsMeaning(log[..n], keep);
      if keep(log[n]) {
        var picked := Picked(log[..n], keep);
        assert (picked + [log[n]])[..|picked|] == picked;
        if Answered(log[n]) {
          AddSummarizes(Stats(log[..n], keep), Picked(picked, Answered), log[n]);
        }
      }
    }
  }

  lemma {:induction false} StatsOfPicked(log: seq<Sample>, q: Sample -> bool, p: Sample -> bool, both: Sample -> bool)
    requires forall s <- log :: both(s) == (p(s) && q(s))
    ensures Stats(Picked(log, q), p) == Stats(log, both)
  {
    if log != [] {
      var n := |log| - 1;
      assert log[n] in log;
      StatsOfPicked(log[..n], q, p, both);
      var picked := Picked(log[..n], q);
      assert (picked + [log[n]])[..|picked|] == picked;
    }
  }

  lemma {:induction false} PickedExact(log: seq<Sample>, keep: Sample -> bool, s: Sample)
    ensures s in Picked(log, keep) <==> s in log && keep(s)
  {
    if log != [] {
      var n := |log| - 1;
      PickedExact(log[..n], keep, s);
      assert log == log[..n] + [log[n]];
    }
  }

  // Picking fewer samples counts fewer.
  lemma {:induction false} StatsFewer(log: seq<Sample>, p: Sample -> bool, q: Sample -> bool)
    requires forall s <- log :: q(s) ==> p(s)
    ensures Stats(log, q).totalCount <= Stats(log, p).totalCount
    ensures (exists s <- log :: p(s) && !q(s)) ==> Stats(log, q).totalCount < Stats(log, p).totalCount
  {
    if log != [] {
      var n := |log| - 1;
      assert log[n] in log && log == log[..n] + [log[n]];
      StatsFewer(log[..n], p, q);
    }
  }

  lemma {:induction false} StatsOfBoth(xs: seq<Sample>, ys: seq<Sample>, p: Sample -> bool)
    ensures Stats(xs + ys, p).totalCount == Stats(xs, p).totalCount + Stats(ys, p).totalCount
  {
    if ys == [] {
      assert xs + ys == xs;
    } else {
      var n := |ys| - 1;
      assert (xs + ys)[..|xs| + n] == xs + ys[..n];
      StatsOfBoth(xs, ys[..n], p);
    }
  }

  function Since(cutoff: int): Sample -> bool {
    (s: Sample) => s.timestamp >= cutoff
  }

  function InMinutes(first: int, last: int): Sample -> bool {
    (s: Sample) => first <= MinuteOf(s) <= last
  }

  // Merging two aggregates and then adding a response may be done in either order, on either side.
  lemma {:induction false} MergeCommutesWithAdd(a: Aggregate, b: Aggregate, r: Micros)
    requires a.WellFormed() && b.WellFormed()
    ensures a.AddResponse(r).AddAggregate(b) == a.AddAggregate(b).AddResponse(r)
    ensures a.AddAggregate(b.AddResponse(r)) == a.AddAggregate(b).AddResponse(r)
  {
  }

  // Splitting the picked samples in two and merging the halves changes nothing: the order in
  // which aggregates are merged never matters.
  lemma {:induction false} StatsSplit(log: seq<Sample>, p: Sample -> bool, q: Sample -> bool, both: Sample -> bool)
    requires forall s <- log :: both(s) == (p(s) || q(s))
    requires forall s <- log :: !(p(s) && q(s))
    ensures Stats(log, p).AddAggregate(Stats(log, q)) == Stats(log, both)
  {
    if log != [] {
      var n := |log| - 1;
      var last := log[n];
      assert last in log;
      StatsSplit(log[..n], p, q, both);
      MergeCommutesWithAdd(Stats(log[..n], p), Stats(log[..n], q), last.responseUs);
    }
  }

  // Only the picked samples matter.
  lemma {:induction false} StatsCongruent(log: seq<Sample>, p: Sample -> bool, q: Sample -> bool)
    requires forall s <- log :: p(s) == q(s)
    ensures Stats(log, p) == Stats(log, q)
  {
    if log != [] {
      var n := |log| - 1;
      assert log[n] in log;
      StatsCongruent(log[..n], p, q);
    }
  }

  lemma {:induction false} StatsNone(log: seq<Sample>, p: Sample -> bool)
    requires forall s <- log :: !p(s)
    ensures Stats(log, p) == EMPTY
  {
    if log != [] {
      var n := |log| - 1;
      assert log[n] in log;
      StatsNone(log[..n], p);
    }
  }

  lemma {:induction false} StatsAppend(xs: seq<Sample>, ys: seq<Sample>, p: Sample -> bool)
    requires forall s <- xs :: !p(s)
    ensures Stats(xs + ys, p) == Stats(ys, p)
  {
    if ys == [] {
      assert xs + ys == xs;
      StatsNone(xs, p);
    } else {
      var n := |ys| - 1;
      assert (xs + ys)[..|xs| + n] == xs + ys[..n];
      StatsAppend(xs, ys[..n], p);
    }
  }

  // ---------- What the two layers hold after a log ----------

  // Timestamps never go back.
  ghost predicate Ordered(log: seq<Sample>) {
    forall i, j :: 0 <= i < j < |log| ==> log[i].timestamp <= log[j].timestamp
  }

  // Drops the leading samples older than the cutoff, up to the first one that is not.
  function DropOld(samples: seq<Sample>, cutoff: int): (kept: seq<Sample>)
    ensures |kept| <= |samples|
  {
    if samples != [] && samples[0].timestamp < cutoff then DropOld(samples[1..], cutoff) else samples
  }

  function Retain(samples: seq<Sample>, s: Sample): seq<Sample> {
    DropOld(samples, s.timestamp - RAW_RETENTION) + [s]
  }

  function RetainedBy(log: seq<Sample>): (kept: seq<Sample>)
    ensures |kept| <= |log|
  {
    if log == [] then [] else Retain(RetainedBy(log[..|log| - 1]), log[|log| - 1])
  }

  datatype Bucket = Bucket(minute: int, filled: bool, stats: Aggregate)

  const UNUSED := Bucket(0, false, Aggregate(0, 0, 0, 0, 0))

  function RingAdd(ring: seq<Bucket>, s: Sample): (r: seq<Bucket>)
    requires |ring| == RING
    ensures |r| == RING
  {
    var b := ring[Slot(s)];
    var current := if !b.filled || b.minute != MinuteOf(s) then Bucket(MinuteOf(s), true, EMPTY) else b;
    ring[Slot(s) := current.(stats := current.stats.AddResponse(s.responseUs))]
  }

  function RingOf(log: seq<Sample>): (r: seq<Bucket>)
    ensures |r| == RING
  {
    if log == [] then seq(RING, _ => UNUSED) else RingAdd(RingOf(log[..|log| - 1]), log[|log| - 1])
  }

  // The aggregate of the first n slots whose minute lies in the window, merged in slot order.
  function MergeSlots(ring: seq<Bucket>, first: int, last: int, n: nat): Aggregate
    requires n <= |ring|
  {
    if n == 0 then EMPTY
    else
      var b := ring[n - 1];
      var before := MergeSlots(ring, first, last, n - 1);
      if !b.filled || b.minute < first || b.minute > last then before else before.AddAggregate(b.stats)
  }

  // ---------- The raw layer is exact ----------

  lemma {:induction false} DropOldSplits(samples: seq<Sample>, cutoff: int) returns (dropped: seq<Sample>)
    ensures samples == dropped + DropOld(samples, cutoff)
    ensures forall s <- dropped :: s.timestamp < cutoff
    ensures var kept := DropOld(samples, cutoff); kept != [] ==> kept[0].timestamp >= cutoff
  {
    if samples != [] && samples[0].timestamp < cutoff {
      var rest := DropOldSplits(samples[1..], cutoff);
      dropped := [samples[0]] + rest;
    } else {
      dropped := [];
    }
  }

  // The samples that are no longer on the raw list.
  function Dropped(log: seq<Sample>): seq<Sample> {
    log[..|log| - |RetainedBy(log)|]
  }

  lemma {:induction false} DroppedOneMore(before: seq<Sample>, last: Sample) returns (more: seq<Sample>)
    requires before == Dropped(before) + RetainedBy(before)
    ensures var log := before + [last]; log == Dropped(log) + RetainedBy(log) && Dropped(log) == Dropped(before) + more
    ensures forall s <- more :: s.timestamp < last.timestamp - RAW_RETENTION
  {
    var log, rest := before + [last], RetainedBy(before);
    more := DropOldSplits(rest, last.timestamp - RAW_RETENTION);
    assert log[..|before|] == before && log[|before|] == last;
    var left := DropOld(rest, last.timestamp - RAW_RETENTION);
    assert RetainedBy(log) == left + [last];
    RegroupSplit(Dropped(before), more, left, last);
  }

  lemma {:induction false} RegroupSplit(dropped: seq<Sample>, more: seq<Sample>, left: seq<Sample>, last: Sample)
    ensures dropped + (more + left) + [last] == (dropped + more) + (left + [last])
  {
  }

  lemma {:induction false} RetainedSplits(log: seq<Sample>)
    ensures log == Dropped(log) + RetainedBy(log)
  {
    if log != [] {
      var n := |log| - 1;
      RetainedSplits(log[..n]);
      var _ := DroppedOneMore(log[..n], log[n]);
      assert log == log[..n] + [log[n]];
    }
  }

  lemma {:induction false} DroppedIsOld(log: seq<Sample>)
    requires Ordered(log) && log != []
    ensures forall s <- Dropped(log) :: s.timestamp < log[|log| - 1].timestamp - RAW_RETENTION
  {
    var n := |log| - 1;
    var before, last := log[..n], log[n];
    assert log == before + [last];
    RetainedSplits(before);
    var more := DroppedOneMore(before, last);
    if n > 0 {
      DroppedIsOld(before);
      assert log[n - 1].timestamp <= last.timestamp;
    }
  }

  lemma {:induction false} RetainedIsRecent(log: seq<Sample>)
    requires log != []
    ensures RetainedBy(log) != [] && RetainedBy(log)[0].timestamp >= log[|log| - 1].timestamp - RAW_RETENTION
  {
    var n := |log| - 1;
    var more := DropOldSplits(RetainedBy(log[..n]), log[n].timestamp - RAW_RETENTION);
  }

  // With ordered timestamps the raw list is exactly the suffix of samples within 61 seconds of
  // the newest one: what was dropped is older, what is kept is not.
  lemma {:induction false} RawRetentionExact(log: seq<Sample>)
    requires Ordered(log) && log != []
    ensures log == Dropped(log) + RetainedBy(log)
    ensures forall s <- Dropped(log) :: s.timestamp < log[|log| - 1].timestamp - RAW_RETENTION
    ensures forall s <- RetainedBy(log) :: s.timestamp >= log[|log| - 1].timestamp - RAW_RETENTION
  {
    RetainedSplits(log);
    DroppedIsOld(log);
    RetainedIsRecent(log);
    var kept, n := RetainedBy(log), |Dropped(log)|;
    forall s <- kept ensures s.timestamp >= log[|log| - 1].timestamp - RAW_RETENTION {
      var i :| 0 <= i < |kept| && kept[i] == s;
      assert log[n] == kept[0] && log[n + i] == kept[i];
    }
  }

  // On any log, ordered or not, a query on the raw list answers like the same query on the whole
  // log if and only if no dropped sample is in its window.
  lemma {:induction false} RawQueryExactIff(log: seq<Sample>, cutoff: int)
    ensures Stats(RetainedBy(log), Since(cutoff)) == Stats(log, Since(cutoff)) <==>
            forall s <- Dropped(log) :: s.timestamp < cutoff
  {
    var dropped := Dropped(log);
    RetainedSplits(log);
    if forall s <- dropped :: s.timestamp < cutoff {
      StatsAppend(dropped, RetainedBy(log), Since(cutoff));
    } else {
      StatsOfBoth(dropped, RetainedBy(log), Since(cutoff));
      StatsFewer(dropped, Since(cutoff), (s: Sample) => false);
      StatsNone(dropped, (s: Sample) => false);
    }
  }

  // So with ordered timestamps it does when its cutoff is no earlier than the newest sample less
  // the retention.
  lemma {:induction false} RawQueryExact(log: seq<Sample>, cutoff: int)
    requires Ordered(log)
    requires log != [] ==> log[|log| - 1].timestamp - cutoff <= RAW_RETENTION
    ensures Stats(RetainedBy(log), Since(cutoff)) == Stats(log, Since(cutoff))
  {
    if log != [] {
      RawRetentionExact(log);
      RawQueryExactIff(log, cutoff);
    }
  }

  // The log that an earlier cutoff gets wrong: a sample it asks for is already dropped.
  lemma {:induction false} DroppedSample(cutoff: Instant, newest: Instant) returns (log: seq<Sample>)
    requires newest - cutoff > RAW_RETENTION
    ensures Ordered(log) && forall s <- log :: s.timestamp <= newest
    ensures Stats(RetainedBy(log), Since(cutoff)) != Stats(log, Since(cutoff))
  {
    var a, b := Sample(5, cutoff), Sample(7, newest);
    log := [a, b];
    assert log[..1] == [a] && [a][..0] == [];
    assert RetainedBy([a]) == [a];
    assert DropOld([a], newest - RAW_RETENTION) == [];
    assert RetainedBy(log) == [b];
    CountOfTwo(a, b, Since(cutoff));
    CountOfOne(b, Since(cutoff));
  }

  lemma {:induction false} CountOfOne(a: Sample, keep: Sample -> bool)
    ensures Stats([a], keep).totalCount == if keep(a) then 1 else 0
  {
    assert [a][..0] == [];
  }

  lemma {:induction false} CountOfTwo(a: Sample, b: Sample, keep: Sample -> bool)
    ensures Stats([a, b], keep).totalCount == (if keep(a) then 1 else 0) + if keep(b) then 1 else 0
  {
    assert [a, b][..1] == [a];
    CountOfOne(a, keep);
  }

  // ---------- The ring is exact ----------

  // Recording `s` discards what the slot held of another minute.
  predicate Evicts(s: Sample, earlier: Sample) {
    Slot(earlier) == Slot(s) && MinuteOf(earlier) != MinuteOf(s)
  }

  // The samples that the ring still stands for, in log order.
  function Surviving(log: seq<Sample>): seq<Sample> {
    if log == [] then []
    else
      var last := log[|log| - 1];
      Picked(Surviving(log[..|log| - 1]), (s: Sample) => !Evicts(last, s)) + [last]
  }

  // Slot i holds the surviving samples of one minute, and no other survives in its residue class.
  ghost predicate SlotExact(kept: seq<Sample>, ring: seq<Bucket>, i: nat)
    requires i < |ring|
  {
    var b := ring[i];
    && (!b.filled ==> forall s <- kept :: Slot(s) != i)
    && (b.filled ==>
          && b.minute % RING == i
          && b.stats == Stats(kept, InMinutes(b.minute, b.minute))
          && forall s <- kept :: Slot(s) == i ==> MinuteOf(s) == b.minute)
  }

  lemma {:induction false} MinuteMonotone(t: int, u: int)
    requires t <= u
    ensures Minute(t) <= Minute(u)
  {
  }

  lemma {:induction false} StatsOneMore(log: seq<Sample>, s: Sample, p: Sample -> bool)
    ensures Stats(log + [s], p) == if p(s) then Stats(log, p).AddResponse(s.responseUs) else Stats(log, p)
  {
    assert (log + [s])[..|log|] == log;
  }

  // The statistics of one minute after a sample has discarded what it evicts.
  lemma {:induction false} MinuteAfterEviction(kept: seq<Sample>, last: Sample, m: int)
    ensures var left := Picked(kept, (s: Sample) => !Evicts(last, s));
            Stats(left, InMinutes(m, m)) ==
            if m % RING == Slot(last) && m != MinuteOf(last) then EMPTY else Stats(kept, InMinutes(m, m))
  {
    var stays, both := (s: Sample) => !Evicts(last, s), (s: Sample) => MinuteOf(s) == m && !Evicts(last, s);
    StatsOfPicked(kept, stays, InMinutes(m, m), both);
    if m % RING == Slot(last) && m != MinuteOf(last) {
      StatsNone(kept, both);
    } else {
      StatsCongruent(kept, both, InMinutes(m, m));
    }
  }

  lemma {:induction false} SlotStaysExact(kept: seq<Sample>, ring: seq<Bucket>, last: Sample, i: nat)
    requires |ring| == RING && i < RING && SlotExact(kept, ring, i)
    ensures SlotExact(Picked(kept, (s: Sample) => !Evicts(last, s)) + [last], RingAdd(ring, last), i)
  {
    var stays := (s: Sample) => !Evicts(last, s);
    var left, b, c := Picked(kept, stays), ring[i], RingAdd(ring, last)[i];
    forall s ensures s in left <==> s in kept && stays(s) { PickedExact(kept, stays, s); }
    StatsOneMore(left, last, InMinutes(c.minute, c.minute));
    MinuteAfterEviction(kept, last, c.minute);
    if Slot(last) == i && (!b.filled || b.minute != MinuteOf(last)) {
      StatsNone(kept, InMinutes(c.minute, c.minute));
    }
  }

  lemma {:induction false} RingSlotsExact(log: seq<Sample>, i: nat)
    requires i < RING
    ensures SlotExact(Surviving(log), RingOf(log), i)
  {
    if log != [] {
      RingSlotsExact(log[..|log| - 1], i);
      SlotStaysExact(Surviving(log[..|log| - 1]), RingOf(log[..|log| - 1]), log[|log| - 1], i);
    }
  }

  // The samples of a window in the first n slots.
  function InSlots(first: int, last: int, n: nat): Sample -> bool {
    (s: Sample) => first <= MinuteOf(s) <= last && Slot(s) < n
  }

  // Merging the first n slots in slot order is the query on the surviving samples of those slots.
  lemma {:induction false} MergeSlotsExact(log: seq<Sample>, first: int, last: int, n: nat)
    requires n <= RING
    ensures MergeSlots(RingOf(log), first, last, n) == Stats(Surviving(log), InSlots(first, last, n))
  {
    if n == 0 {
      StatsNone(Surviving(log), InSlots(first, last, 0));
    } else {
      MergeSlotsExact(log, first, last, n - 1);
      RingSlotsExact(log, n - 1);
      OneMoreSlot(Surviving(log), RingOf(log), first, last, n - 1);
    }
  }

  lemma {:induction false} OneMoreSlot(kept: seq<Sample>, ring: seq<Bucket>, first: int, last: int, i: nat)
    requires |ring| == RING && i < RING && SlotExact(kept, ring, i)
    ensures var b := ring[i];
            Stats(kept, InSlots(first, last, i + 1)) ==
            if !b.filled || b.minute < first || b.minute > last then Stats(kept, InSlots(first, last, i))
            else Stats(kept, InSlots(first, last, i)).AddAggregate(b.stats)
  {
    var b := ring[i];
    if !b.filled || b.minute < first || b.minute > last {
      StatsCongruent(kept, InSlots(first, last, i), InSlots(first, last, i + 1));
    } else {
      StatsSplit(kept, InSlots(first, last, i), InMinutes(b.minute, b.minute), InSlots(first, last, i + 1));
    }
  }

  // A ring query is exactly the query on the surviving samples, after any log.
  lemma {:induction false} RingMeaning(log: seq<Sample>, first: int, last: int)
    ensures MergeSlots(RingOf(log), first, last, RING) == Stats(Surviving(log), InMinutes(first, last))
  {
    MergeSlotsExact(log, first, last, RING);
    StatsCongruent(Surviving(log), InSlots(first, last, RING), InMinutes(first, last));
  }

  // A sample of the window is followed by one that evicts it.
  ghost predicate Loses(log: seq<Sample>, keep: Sample -> bool) {
    exists i, j :: 0 <= i < j < |log| && keep(log[i]) && Evicts(log[j], log[i])
  }

  lemma {:induction false} SurvivingIsOld(log: seq<Sample>, s: Sample)
    requires s in Surviving(log)
    ensures s in log
  {
    var n := |log| - 1;
    if s != log[n] {
      PickedExact(Surviving(log[..n]), (x: Sample) => !Evicts(log[n], x), s);
      SurvivingIsOld(log[..n], s);
    }
  }

  lemma {:induction false} NotEvictedSurvives(log: seq<Sample>, i: nat)
    requires i < |log| && forall j :: i < j < |log| ==> !Evicts(log[j], log[i])
    ensures log[i] in Surviving(log)
  {
    var n := |log| - 1;
    if i < n {
      assert log[..n][i] == log[i];
      NotEvictedSurvives(log[..n], i);
      PickedExact(Surviving(log[..n]), (x: Sample) => !Evicts(log[n], x), log[i]);
    }
  }

  // What has survived is all that is picked, or less, exactly as the window loses a sample.
  lemma {:induction false} SurvivingStats(log: seq<Sample>, keep: Sample -> bool)
    ensures !Loses(log, keep) ==> Stats(Surviving(log), keep) == Stats(log, keep)
    ensures Loses(log, keep) ==> Stats(Surviving(log), keep).totalCount < Stats(log, keep).totalCount
  {
    if log != [] {
      var n := |log| - 1;
      var before, last := log[..n], log[n];
      assert log == before + [last];
      var kept, stays := Surviving(before), (s: Sample) => !Evicts(last, s);
      var both := (s: Sample) => keep(s) && !Evicts(last, s);
      SurvivingStats(before, keep);
      LosesOneMore(before, last, keep);
      StatsOfPicked(kept, stays, keep, both);
      StatsOneMore(Picked(kept, stays), last, keep);
      StatsOneMore(before, last, keep);
      StatsFewer(kept, keep, both);
      if !Loses(log, keep) {
        NothingEvicted(before, last, keep, both);
      } else if !Loses(before, keep) {
        SomethingEvicted(before, last, keep, both);
      }
    }
  }

  lemma {:induction false} NothingEvicted(before: seq<Sample>, last: Sample, keep: Sample -> bool, both: Sample -> bool)
    requires forall s :: both(s) == (keep(s) && !Evicts(last, s))
    requires forall s <- before :: !(keep(s) && Evicts(last, s))
    ensures Stats(Surviving(before), both) == Stats(Surviving(before), keep)
  {
    forall s <- Surviving(before) ensures both(s) == keep(s) { SurvivingIsOld(before, s); }
    StatsCongruent(Surviving(before), both, keep);
  }

  lemma {:induction false} SomethingEvicted(before: seq<Sample>, last: Sample, keep: Sample -> bool, both: Sample -> bool)
    requires forall s :: both(s) == (keep(s) && !Evicts(last, s))
    requires !Loses(before, keep) && exists s <- before :: keep(s) && Evicts(last, s)
    ensures Stats(Surviving(before), both).totalCount < Stats(Surviving(before), keep).totalCount
  {
    var i :| 0 <= i < |before| && keep(before[i]) && Evicts(last, before[i]);
    NotEvictedSurvives(before, i);
    StatsFewer(Surviving(before), keep, both);
  }

  lemma {:induction false} LosesOneMore(before: seq<Sample>, last: Sample, keep: Sample -> bool)
    ensures Loses(before + [last], keep) <==>
            Loses(before, keep) || exists s <- before :: keep(s) && Evicts(last, s)
  {
    var log := before + [last];
    if Loses(before, keep) {
      var i, j :| 0 <= i < j < |before| && keep(before[i]) && Evicts(before[j], before[i]);
      assert log[i] == before[i] && log[j] == before[j];
    }
    if s :| s in before && keep(s) && Evicts(last, s) {
      var i :| 0 <= i < |before| && before[i] == s;
      assert log[i] == s && log[|before|] == last;
    }
    if Loses(log, keep) {
      var i, j :| 0 <= i < j < |log| && keep(log[i]) && Evicts(log[j], log[i]);
      assert log[i] == before[i] && before[i] in before;
    }
  }

  // On any log, ordered or not, the ring answers a window like the log if and only if no sample
  // of the window is followed by one of another minute in the same slot.
  lemma {:induction false} RingExactIff(log: seq<Sample>, first: int, last: int)
    ensures MergeSlots(RingOf(log), first, last, RING) == Stats(log, InMinutes(first, last)) <==>
            !Loses(log, InMinutes(first, last))
  {
    RingMeaning(log, first, last);
    SurvivingStats(log, InMinutes(first, last));
  }

  lemma {:induction false} SameSlotSameMinute(m: int, n: int)
    requires m % RING == n % RING && -RING < m - n < RING
    ensures m == n
  {
  }

  // So with ordered timestamps a window that begins no more than 60 minutes before the newest
  // sample is answered right: every sample of its minutes is counted once and nothing else is.
  lemma {:induction false} RingQueryExact(log: seq<Sample>, first: int, last: int)
    requires Ordered(log)
    requires forall s <- log :: MinuteOf(s) - first <= RING - 1
    ensures MergeSlots(RingOf(log), first, last, RING) == Stats(log, InMinutes(first, last))
  {
    RingExactIff(log, first, last);
    forall i, j | 0 <= i < j < |log| && InMinutes(first, last)(log[i]) ensures !Evicts(log[j], log[i]) {
      MinuteMonotone(log[i].timestamp, log[j].timestamp);
      assert log[j] in log;
      if Slot(log[i]) == Slot(log[j]) {
        SameSlotSameMinute(MinuteOf(log[j]), MinuteOf(log[i]));
      }
    }
  }

  // That is exactly what the ring can answer: over the logs whose newest sample lies in a given
  // minute or before, a window is right on all of them if and only if it begins within 60 minutes
  // of that minute, wherever it ends.
  lemma {:induction false} RingSpanIsExact(first: nat, last: nat, newest: nat)
    requires first <= last && MINUTE * (newest + 1) < MINUTE * 0x8000_0000
    ensures newest - first <= RING - 1 <==>
            forall log: seq<Sample> :: Ordered(log) && (forall s <- log :: MinuteOf(s) <= newest) ==>
              MergeSlots(RingOf(log), first, last, RING) == Stats(log, InMinutes(first, last))
  {
    if newest - first <= RING - 1 {
      forall log: seq<Sample> | Ordered(log) && (forall s <- log :: MinuteOf(s) <= newest)
        ensures MergeSlots(RingOf(log), first, last, RING) == Stats(log, InMinutes(first, last))
      {
        RingQueryExact(log, first, last);
      }
    } else {
      var log := OverwrittenMinute(first, last);
    }
  }

  // The log that an earlier window gets wrong: the first minute's slot is reused 61 minutes later,
  // even when that is after the window's end.
  lemma {:induction false} OverwrittenMinute(first: nat, last: nat) returns (log: seq<Sample>)
    requires first <= last && MINUTE * (first + RING) < MINUTE * 0x8000_0000
    ensures Ordered(log) && |log| == 2
    ensures log[0].timestamp == first * MINUTE && log[1].timestamp == (first + RING) * MINUTE
    ensures forall s <- log :: MinuteOf(s) <= first + RING
    ensures MergeSlots(RingOf(log), first, last, RING) != Stats(log, InMinutes(first, last))
  {
    var a, b := Sample(5, first * MINUTE), Sample(7, (first + RING) * MINUTE);
    log := [a, b];
    MinuteStarts(first);
    MinuteStarts(first + RING);
    ReusedSlot(a, b, last);
    RingExactIff(log, first, last);
  }

  lemma {:induction false} MinuteStarts(m: nat)
    ensures Minute(m * MINUTE) == m
  {
  }

  lemma {:induction false} ReusedSlot(a: Sample, b: Sample, last: int)
    requires MinuteOf(b) == MinuteOf(a) + RING && MinuteOf(a) <= last
    ensures Loses([a, b], InMinutes(MinuteOf(a), last))
  {
    var log := [a, b];
    assert InMinutes(MinuteOf(a), last)(log[0]) && Evicts(log[1], log[0]);
  }

  // ---------- Queries and reports ----------

  // The aggregate of a window, from whichever layer serves windows of that length.
  function Query(samples: seq<Sample>, ring: seq<Bucket>, duration: int, now: int): Aggregate
    requires |ring| == RING
  {
    if duration <= RAW_RETENTION then Stats(samples, Since(now - duration))
    else MergeSlots(ring, Minute(now - duration), Minute(now), RING)
  }

  // What the same window means on the whole log.
  ghost function LogQuery(log: seq<Sample>, duration: int, now: int): Aggregate {
    if duration <= RAW_RETENTION then Stats(log, Since(now - duration))
    else Stats(log, InMinutes(Minute(now - duration), Minute(now)))
  }

  // The layer that serves a query has lost a sample of its window.
  ghost predicate Misses(log: seq<Sample>, duration: int, now: int) {
    if duration <= RAW_RETENTION then exists s <- Dropped(log) :: s.timestamp >= now - duration
    else Loses(log, InMinutes(Minute(now - duration), Minute(now)))
  }

  // On any log at all, also when the clock went back, a query answers like the log if and only if
  // its layer has lost nothing of the window.
  lemma {:induction false} QueryExactIff(log: seq<Sample>, duration: int, now: int)
    ensures Query(RetainedBy(log), RingOf(log), duration, now) == LogQuery(log, duration, now) <==>
            !Misses(log, duration, now)
  {
    if duration <= RAW_RETENTION {
      RawQueryExactIff(log, now - duration);
    } else {
      RingExactIff(log, Minute(now - duration), Minute(now));
    }
  }

  // The layer that serves a query still holds all of its window when the newest sample was taken
  // at `newest`.
  ghost predicate Reaches(duration: int, now: int, newest: int) {
    if duration <= RAW_RETENTION then newest - (now - duration) <= RAW_RETENTION
    else Minute(newest) - Minute(now - duration) <= RING - 1
  }

  // Such queries answer like the unbounded log, whichever layer serves them.
  lemma {:induction false} QueryExact(log: seq<Sample>, duration: int, now: int)
    requires Ordered(log)
    requires log != [] ==> Reaches(duration, now, log[|log| - 1].timestamp)
    ensures Query(RetainedBy(log), RingOf(log), duration, now) == LogQuery(log, duration, now)
  {
    if duration <= RAW_RETENTION {
      RawQueryExact(log, now - duration);
    } else {
      forall s <- log ensures MinuteOf(s) - Minute(now - duration) <= RING - 1 {
        var i :| 0 <= i < |log| && log[i] == s;
        MinuteMonotone(s.timestamp, log[|log| - 1].timestamp);
      }
      RingQueryExact(log, Minute(now - duration), Minute(now));
    }
  }

  // Queries of up to an hour reach as long as the newest sample is not later than `now`.
  lemma {:induction false} HourReaches(duration: int, now: Instant, newest: Instant)
    requires duration <= 3_600_000_000_000 && newest <= now
    ensures Reaches(duration, now, newest)
  {
    MinuteMonotone(newest, now);
  }

  // Reach is exact: over the logs with no sample later than `newest`, a query answers like the log
  // on all of them if and only if it reaches.
  lemma {:induction false} QueryExactIffReaches(duration: int, now: int, newest: Instant)
    requires now - duration >= 0
    ensures Reaches(duration, now, newest) <==>
            forall log: seq<Sample> :: Ordered(log) && (forall s <- log :: s.timestamp <= newest) ==>
              Query(RetainedBy(log), RingOf(log), duration, now) == LogQuery(log, duration, now)
  {
    if Reaches(duration, now, newest) {
      forall log: seq<Sample> | Ordered(log) && (forall s <- log :: s.timestamp <= newest)
        ensures Query(RetainedBy(log), RingOf(log), duration, now) == LogQuery(log, duration, now)
      {
        if log != [] {
          assert log[|log| - 1] in log;
          MinuteMonotone(log[|log| - 1].timestamp, newest);
        }
        QueryExact(log, duration, now);
      }
    } else {
      var log := OutOfReach(duration, now, newest);
    }
  }

  lemma {:induction false} MinuteBegins(m: nat, t: Instant)
    requires m <= Minute(t)
    ensures m * MINUTE <= t
  {
  }

  lemma {:induction false} OutOfReach(duration: int, now: int, newest: Instant) returns (log: seq<Sample>)
    requires now - duration >= 0 && !Reaches(duration, now, newest)
    ensures Ordered(log) && forall s <- log :: s.timestamp <= newest
    ensures Query(RetainedBy(log), RingOf(log), duration, now) != LogQuery(log, duration, now)
  {
    if duration <= RAW_RETENTION {
      log := DroppedSample(now - duration, newest);
    } else {
      var first := Minute(now - duration);
      MinuteMonotone(now - duration, now);
      MinuteBegins(first + RING, newest);
      log := OverwrittenMinute(first, Minute(now));
      assert forall s <- log :: s == log[0] || s == log[1];
    }
  }

  lemma {:induction false} MinuteEnds(t: Instant)
    ensures t < (Minute(t) + 1) * MINUTE
  {
  }

  lemma {:induction false} HourBack(t: Instant)
    requires t >= HOUR
    ensures Minute(t - HOUR) == Minute(t) - 60
  {
  }

  // A caller that reads the clock before it takes the lock can be overtaken by a probe. If the
  // minute changes in between, the hour loses its first minute.
  lemma {:induction false} LateSampleLosesMinute(now: Instant) returns (log: seq<Sample>)
    requires now >= HOUR && (Minute(now) + 1) * MINUTE < MINUTE * 0x8000_0000
    ensures Ordered(log) && |log| == 2 && log[0].timestamp <= now < log[1].timestamp
    ensures log[1].timestamp == (Minute(now) + 1) * MINUTE
    ensures Query(RetainedBy(log), RingOf(log), HOUR, now) != LogQuery(log, HOUR, now)
  {
    HourBack(now);
    MinuteBegins(Minute(now - HOUR), now);
    MinuteEnds(now);
    log := OverwrittenMinute(Minute(now - HOUR), Minute(now));
  }

  // A minute window covers the whole duration, and reaches back less than a minute further.
  lemma {:induction false} WindowCoverage(s: Sample, duration: int, now: Instant)
    requires duration >= 0 && s.timestamp <= now
    ensures s.timestamp >= now - duration ==> InMinutes(Minute(now - duration), Minute(now))(s)
    ensures InMinutes(Minute(now - duration), Minute(now))(s) ==> s.timestamp > now - duration - MINUTE
  {
    MinuteMonotone(s.timestamp, now);
    if s.timestamp >= now - duration {
      MinuteMonotone(now - duration, s.timestamp);
    }
  }

  datatype Report = Report(
    avgResponse: int, minResponse: int, maxResponse: int, packetLoss: real,
    totalCount: int, successCount: int, responseSum: int,
    lastProbeAt: int, // Unix milliseconds
    avgResponse1h: int, minResponse1h: int, maxResponse1h: int, packetLoss1h: real,
    sampleCount: int)

  // The latest sample alone, for windows that fall between two samples.
  function LatestOnly(samples: seq<Sample>): Aggregate {
    if samples == [] then EMPTY else EMPTY.AddResponse(samples[|samples| - 1].responseUs)
  }

  // All fields of a report, from the aggregates of its window and of the last hour.
  function ReportOf(agg: Aggregate, hour: Aggregate, lastProbeAt: int, sampleCount: int): Report {
    Report(agg.AvgResponse(),
           if agg.successCount == 0 then 0 else agg.minUs,
           if agg.successCount == 0 then 0 else agg.maxUs,
           agg.LossPercentage(), agg.totalCount, agg.successCount, agg.sumUs, lastProbeAt,
           hour.AvgResponse(),
           if hour.successCount == 0 then 0 else hour.minUs,
           if hour.successCount == 0 then 0 else hour.maxUs,
           hour.LossPercentage(), sampleCount)
  }

  function ReportFor(samples: seq<Sample>, ring: seq<Bucket>, sampleCount: int, duration: int, now: int): Option<Report>
    requires |ring| == RING
  {
    var window := Query(samples, ring, duration, now);
    var agg := if window.HasData() then window else LatestOnly(samples);
    if !agg.HasData() then None
    else
      var lastProbeAt := if samples == [] then 0 else samples[|samples| - 1].timestamp / 1_000_000;
      Some(ReportOf(agg, Query(samples, ring, HOUR, now), lastProbeAt, sampleCount))
  }

  // The same on the whole log: nothing for an empty log; otherwise the window, or the latest
  // sample when the window is empty, and the last hour.
  ghost function LogReport(log: seq<Sample>, duration: int, now: int): Option<Report> {
    if log == [] then None
    else
      var last := log[|log| - 1];
      var window := LogQuery(log, duration, now);
      var agg := if window.HasData() then window else EMPTY.AddResponse(last.responseUs);
      Some(ReportOf(agg, LogQuery(log, HOUR, now), last.timestamp / 1_000_000, |log|))
  }

  // n copies of x added up.
  ghost function Times(n: nat, x: int): int {
    if n == 0 then 0 else Times(n - 1, x) + x
  }

  lemma {:induction false} TimesMonotone(n: nat, x: int, y: int)
    requires x <= y
    ensures Times(n, x) <= Times(n, y)
  {
    if n > 0 { TimesMonotone(n - 1, x, y); }
  }

  lemma {:induction false} TimesAdds(m: nat, n: nat, x: int)
    ensures Times(m + n, x) == Times(m, x) + Times(n, x)
  {
    if n > 0 { TimesAdds(m, n - 1, x); }
  }

  lemma {:induction false} TimesIsProduct(n: nat, x: int)
    ensures Times(n, x) == n * x
  {
    if n > 0 { TimesIsProduct(n - 1, x); }
  }

  // The sum is one that responses between the recorded extremes can have.
  ghost predicate Bounded(agg: Aggregate) {
    agg.WellFormed() && Times(agg.successCount, agg.minUs) <= agg.sumUs <= Times(agg.successCount, agg.maxUs)
  }

  lemma {:induction false} AddResponseBounded(agg: Aggregate, r: Micros)
    requires Bounded(agg)
    ensures Bounded(agg.AddResponse(r))
  {
    var next := agg.AddResponse(r);
    TimesMonotone(agg.successCount, next.minUs, agg.minUs);
    TimesMonotone(agg.successCount, agg.maxUs, next.maxUs);
  }

  lemma {:induction false} MergeBounded(a: Aggregate, b: Aggregate)
    requires Bounded(a) && Bounded(b)
    ensures Bounded(a.AddAggregate(b))
  {
    var c := a.AddAggregate(b);
    TimesAdds(a.successCount, b.successCount, c.minUs);
    TimesAdds(a.successCount, b.successCount, c.maxUs);
    TimesMonotone(a.successCount, c.minUs, a.minUs);
    TimesMonotone(b.successCount, c.minUs, b.minUs);
    TimesMonotone(a.successCount, a.maxUs, c.maxUs);
    TimesMonotone(b.successCount, b.maxUs, c.maxUs);
  }

  lemma {:induction false} StatsBounded(log: seq<Sample>, keep: Sample -> bool)
    ensures Bounded(Stats(log, keep))
  {
    if log != [] {
      var before := log[..|log| - 1];
      StatsBounded(before, keep);
      AddResponseBounded(Stats(before, keep), log[|log| - 1].responseUs);
    }
  }

  lemma {:induction false} RingBounded(log: seq<Sample>, i: nat)
    requires i < RING
    ensures RingOf(log)[i].filled ==> Bounded(RingOf(log)[i].stats)
  {
    if log != [] {
      var before, last := log[..|log| - 1], log[|log| - 1];
      RingBounded(before, i);
      var b := RingOf(before)[i];
      if Slot(last) == i {
        AddResponseBounded(EMPTY, last.responseUs);
        if b.filled { AddResponseBounded(b.stats, last.responseUs); }
      }
    }
  }

  lemma {:induction false} MergeSlotsBounded(log: seq<Sample>, first: int, last: int, n: nat)
    requires n <= RING
    ensures Bounded(MergeSlots(RingOf(log), first, last, n))
  {
    if n > 0 {
      MergeSlotsBounded(log, first, last, n - 1);
      RingBounded(log, n - 1);
      if RingOf(log)[n - 1].filled {
        MergeBounded(MergeSlots(RingOf(log), first, last, n - 1), RingOf(log)[n - 1].stats);
      }
    }
  }

  lemma {:induction false} QueryBounded(log: seq<Sample>, duration: int, now: int)
    ensures Bounded(Query(RetainedBy(log), RingOf(log), duration, now))
  {
    StatsBounded(RetainedBy(log), Since(now - duration));
    MergeSlotsBounded(log, Minute(now - duration), Minute(now), RING);
  }

  lemma {:induction false} QuotientBetween(sum: int, n: nat, lo: int, hi: int)
    requires n > 0 && Times(n, lo) <= sum <= Times(n, hi)
    ensures lo <= sum / n <= hi
  {
    var q := sum / n;
    TimesIsProduct(n, q);
    assert Times(n, q) <= sum < Times(n, q) + n;
    if q < lo {
      TimesMonotone(n, q + 1, lo);
      TimesIsProduct(n, q + 1);
      assert false;
    }
    if q > hi {
      TimesMonotone(n, hi + 1, q);
      TimesIsProduct(n, hi + 1);
      TimesIsProduct(n, hi);
      assert false;
    }
  }

  lemma {:induction false} LossIsPercentage(agg: Aggregate)
    requires agg.WellFormed()
    ensures 0.0 <= agg.LossPercentage() <= 100.0
  {
    if agg.totalCount > 0 {
      var lost, total := (agg.totalCount - agg.successCount) as real, agg.totalCount as real;
      assert 0.0 <= lost / total <= 1.0;
    }
  }

  // A reported average lies between the reported extremes and a reported loss is a percentage,
  // for the window and for the hour.
  ghost predicate Sound(r: Report) {
    && 0 <= r.minResponse <= r.avgResponse <= r.maxResponse
    && 0 <= r.minResponse1h <= r.avgResponse1h <= r.maxResponse1h
    && 0.0 <= r.packetLoss <= 100.0
    && 0.0 <= r.packetLoss1h <= 100.0
    && 0 <= r.successCount <= r.totalCount
  }

  lemma {:induction false} AverageBetweenExtremes(agg: Aggregate)
    requires Bounded(agg)
    ensures agg.successCount > 0 ==> agg.minUs <= agg.AvgResponse() <= agg.maxUs
    ensures 0.0 <= agg.LossPercentage() <= 100.0
  {
    LossIsPercentage(agg);
    if agg.successCount > 0 {
      QuotientBetween(agg.sumUs, agg.successCount, agg.minUs, agg.maxUs);
    }
  }

  // Every report is sound, after any log at all, ordered or not.
  lemma {:induction false} ReportSound(log: seq<Sample>, duration: int, now: int)
    ensures var r := ReportFor(RetainedBy(log), RingOf(log), |log|, duration, now); r.Some? ==> Sound(r.value)
  {
    QueryBounded(log, duration, now);
    QueryBounded(log, HOUR, now);
    LatestBounded(RetainedBy(log));
    var window, hour := Query(RetainedBy(log), RingOf(log), duration, now), Query(RetainedBy(log), RingOf(log), HOUR, now);
    var agg := if window.HasData() then window else LatestOnly(RetainedBy(log));
    var r := ReportFor(RetainedBy(log), RingOf(log), |log|, duration, now);
    if r.Some? {
      ReportOfSound(agg, hour, r.value.lastProbeAt, |log|);
    }
  }

  lemma {:induction false} LatestBounded(samples: seq<Sample>)
    ensures Bounded(LatestOnly(samples))
  {
    if samples != [] {
      AddResponseBounded(EMPTY, samples[|samples| - 1].responseUs);
    }
  }

  lemma {:induction false} ReportOfSound(agg: Aggregate, hour: Aggregate, lastProbeAt: int, sampleCount: int)
    requires Bounded(agg) && Bounded(hour)
    ensures Sound(ReportOf(agg, hour, lastProbeAt, sampleCount))
  {
    AverageBetweenExtremes(agg);
    AverageBetweenExtremes(hour);
  }

  // After any log a report is absent exactly before the first sample.
  lemma {:induction false} ReportedOnceRecorded(log: seq<Sample>, duration: int, now: int)
    ensures ReportFor(RetainedBy(log), RingOf(log), |log|, duration, now).None? <==> log == []
  {
    if log == [] {
      StatsNone(log, Since(now - duration));
      RingMeaning(log, Minute(now - duration), Minute(now));
    } else {
      assert RetainedBy(log) == Retain(RetainedBy(log[..|log| - 1]), log[|log| - 1]);
    }
  }

  // A report exists exactly when something was ever recorded, and every field of it is that of
  // the report on the whole log, as long as neither the window nor the last hour has lost a sample.
  lemma {:induction false} ReportExact(log: seq<Sample>, duration: int, now: int)
    requires !Misses(log, duration, now) && !Misses(log, HOUR, now)
    ensures ReportFor(RetainedBy(log), RingOf(log), |log|, duration, now) == LogReport(log, duration, now)
  {
    QueryExactIff(log, duration, now);
    QueryExactIff(log, HOUR, now);
    ReportedOnceRecorded(log, duration, now);
    if log != [] {
      assert RetainedBy(log) == Retain(RetainedBy(log[..|log| - 1]), log[|log| - 1]);
    }
  }

  function Lost(s: Sample): bool {
    s.responseUs < 0
  }

  lemma {:induction false} AnsweredOrLost(samples: seq<Sample>)
    ensures |Picked(samples, Answered)| + |Picked(samples, Lost)| == |samples|
  {
    if samples != [] {
      AnsweredOrLost(samples[..|samples| - 1]);
    }
  }

  // A loss in percent to within half of the last decimal reported.
  predicate IsShare(loss: real, lost: nat, total: nat) {
    if total == 0 then loss == 0.0
    else -0.005 <= loss - lost as real / total as real * 100.0 <= 0.005
  }

  lemma {:induction false} LossRounded(agg: Aggregate)
    requires agg.WellFormed()
    ensures IsShare(agg.LossPercentage(), agg.totalCount - agg.successCount, agg.totalCount)
  {
    if agg.totalCount > 0 {
      var share := (agg.totalCount - agg.successCount) as real / agg.totalCount as real;
      var hundredths := (share * 10000.0 + 0.5).Floor as real;
      assert -0.5 <= hundredths - share * 10000.0 <= 0.5;
    }
  }

  // The average, minimum and maximum of the answered samples, and the share of the lost ones.
  ghost predicate Measures(avg: int, lo: int, hi: int, loss: real, samples: seq<Sample>) {
    var answered := Picked(samples, (s: Sample) => s.responseUs >= 0);
    && IsShare(loss, |Picked(samples, (s: Sample) => s.responseUs < 0)|, |samples|)
    && (if answered == [] then avg == 0 && lo == 0 && hi == 0
        else
          && avg == Sum(answered) / |answered|
          && (forall s <- answered :: lo <= s.responseUs <= hi)
          && (exists s <- answered :: s.responseUs == lo)
          && (exists s <- answered :: s.responseUs == hi))
  }

  // The samples of the last `duration` up to `now`: to the nanosecond for short durations, in whole
  // minutes for long ones.
  ghost function WindowOf(log: seq<Sample>, duration: int, now: int): seq<Sample> {
    if duration <= 61_000_000_000 then Picked(log, (s: Sample) => s.timestamp >= now - duration)
    else Picked(log, (s: Sample) => Minute(now - duration) <= Minute(s.timestamp) <= Minute(now))
  }

  // What a report tells of a log: of the samples of its window, or the latest if there are none in
  // it; of those of the last hour; and of the whole log.
  ghost predicate Tells(r: Report, log: seq<Sample>, duration: int, now: int)
    requires log != []
  {
    var last := log[|log| - 1];
    var window := WindowOf(log, duration, now);
    var samples := if window == [] then [last] else window;
    && Measures(r.avgResponse, r.minResponse, r.maxResponse, r.packetLoss, samples)
    && r.totalCount == |samples|
    && r.successCount == |Picked(samples, (s: Sample) => s.responseUs >= 0)|
    && r.responseSum == Sum(Picked(samples, (s: Sample) => s.responseUs >= 0))
    && Measures(r.avgResponse1h, r.minResponse1h, r.maxResponse1h, r.packetLoss1h, WindowOf(log, 3_600_000_000_000, now))
    && r.lastProbeAt == last.timestamp / 1_000_000
    && r.sampleCount == |log|
  }

  lemma {:induction false} PickedCongruent(log: seq<Sample>, p: Sample -> bool, q: Sample -> bool)
    requires forall s <- log :: p(s) == q(s)
    ensures Picked(log, p) == Picked(log, q)
  {
    if log != [] {
      var n := |log| - 1;
      assert log[n] in log;
      PickedCongruent(log[..n], p, q);
    }
  }

  lemma {:induction false} AggregateMeasures(agg: Aggregate, samples: seq<Sample>)
    requires agg.WellFormed() && agg.totalCount == |samples| && Summarizes(agg, Picked(samples, Answered))
    ensures Measures(agg.AvgResponse(), if agg.successCount == 0 then 0 else agg.minUs,
                     if agg.successCount == 0 then 0 else agg.maxUs, agg.LossPercentage(), samples)
    ensures agg.successCount == |Picked(samples, (s: Sample) => s.responseUs >= 0)|
    ensures agg.sumUs == Sum(Picked(samples, (s: Sample) => s.responseUs >= 0))
  {
    AnsweredOrLost(samples);
    LossRounded(agg);
    PickedCongruent(samples, Answered, (s: Sample) => s.responseUs >= 0);
    PickedCongruent(samples, Lost, (s: Sample) => s.responseUs < 0);
  }

  lemma {:induction false} LogQueryMeasures(log: seq<Sample>, duration: int, now: int)
    ensures var agg, window := LogQuery(log, duration, now), WindowOf(log, duration, now);
            agg.WellFormed() && agg.totalCount == |window| && Summarizes(agg, Picked(window, Answered))
  {
    if duration <= RAW_RETENTION {
      StatsMeaning(log, Since(now - duration));
      PickedCongruent(log, Since(now - duration), (s: Sample) => s.timestamp >= now - duration);
    } else {
      var first, last := Minute(now - duration), Minute(now);
      StatsMeaning(log, InMinutes(first, last));
      PickedCongruent(log, InMinutes(first, last), (s: Sample) => Minute(now - duration) <= Minute(s.timestamp) <= Minute(now));
    }
  }

  lemma {:induction false} LatestMeasures(s: Sample)
    ensures var agg := EMPTY.AddResponse(s.responseUs);
            agg.WellFormed() && agg.totalCount == 1 && Summarizes(agg, Picked([s], Answered))
  {
    assert [s][..0] == [];
    assert Picked([s], Answered) == if Answered(s) then [s] else [];
    assert Sum([s]) == s.responseUs;
  }

  // While nothing of the window or the last hour is lost, a report tells what the log says.
  lemma {:induction false} ReportMeaning(log: seq<Sample>, duration: int, now: int)
    requires log != [] && !Misses(log, duration, now) && !Misses(log, HOUR, now)
    ensures var r := ReportFor(RetainedBy(log), RingOf(log), |log|, duration, now);
            r.Some? && Tells(r.value, log, duration, now)
  {
    ReportExact(log, duration, now);
    LogQueryMeasures(log, duration, now);
    LogQueryMeasures(log, HOUR, now);
    var last, window := log[|log| - 1], LogQuery(log, duration, now);
    LatestMeasures(last);
    AggregateMeasures(if window.HasData() then window else EMPTY.AddResponse(last.responseUs),
                      if window.HasData() then WindowOf(log, duration, now) else [last]);
    AggregateMeasures(LogQuery(log, HOUR, now), WindowOf(log, HOUR, now));
  }

  // For a clock read no earlier than the newest sample this covers every duration up to an hour.
  lemma {:induction false} ReportExactInOrder(log: seq<Sample>, duration: int, now: Instant)
    requires Ordered(log) && duration <= 3_600_000_000_000
    requires log != [] ==> log[|log| - 1].timestamp <= now
    ensures ReportFor(RetainedBy(log), RingOf(log), |log|, duration, now) == LogReport(log, duration, now)
  {
    if log != [] {
      HourReaches(duration, now, log[|log| - 1].timestamp);
      HourReaches(HOUR, now, log[|log| - 1].timestamp);
    }
    QueryExact(log, duration, now);
    QueryExact(log, HOUR, now);
    QueryExactIff(log, duration, now);
    QueryExactIff(log, HOUR, now);
    ReportExact(log, duration, now);
  }

  // ---------- The history object ----------

  lemma {:induction false} LayersStep(log: seq<Sample>, sample: Sample)
    ensures RetainedBy(log + [sample]) == Retain(RetainedBy(log), sample)
    ensures RingOf(log + [sample]) == RingAdd(RingOf(log), sample)
  {
    assert (log + [sample])[..|log|] == log;
  }

  // The raw list is the first `count` elements of a buffer that is compacted in place and grows
  // when it is full.
  class History {
    var sampleCount: int
    var buffer: array<Sample>
    var count: nat
    const buckets: array<Bucket>
    ghost var log: seq<Sample> // every sample ever recorded, in order

    ghost predicate Allocated()
      reads this
    {
      count <= buffer.Length && buckets.Length == RING
    }

    function Samples(): seq<Sample>
      reads this, buffer
      requires Allocated()
    {
      buffer[..count]
    }

    ghost predicate Valid()
      reads this, buffer, buckets
    {
      && Allocated()
      && sampleCount == |log|
      && Samples() == RetainedBy(log)
      && buckets[..] == RingOf(log)
    }

    constructor ()
      ensures Valid() && fresh(buckets) && fresh(buffer) && log == []
    {
      sampleCount, count, log := 0, 0, [];
      buffer := new Sample[4];
      buckets := new Bucket[RING](_ => UNUSED);
    }

    // A copy for a replacement task. It shares no storage with the original.
    method Clone() returns (copy: History)
      requires Allocated()
      ensures fresh(copy) && fresh(copy.buckets) && fresh(copy.buffer) && copy.Allocated()
      ensures copy.sampleCount == sampleCount && copy.Samples() == Samples() && copy.buckets[..] == buckets[..]
      ensures copy.log == log && (Valid() ==> copy.Valid())
    {
      copy := new History();
      var storage := new Sample[count];
      forall i | 0 <= i < count {
        storage[i] := buffer[i];
      }
      copy.buffer, copy.count := storage, count;
      forall i | 0 <= i < RING {
        copy.buckets[i] := buckets[i];
      }
      copy.sampleCount := sampleCount;
      copy.log := log;
    }

    // The index the raw list is compacted from: everything before it is older than the cutoff.
    method FirstKept(cutoff: int) returns (start: nat)
      requires Allocated()
      ensures start <= count && Samples()[start..] == DropOld(Samples(), cutoff)
    {
      start := 0;
      ghost var samples := Samples();
      assert samples == samples[0..];
      for i := 0 to count
        invariant start == 0 && (i == count ==> i == 0)
        invariant DropOld(samples, cutoff) == DropOld(samples[i..], cutoff)
      {
        if buffer[i].timestamp >= cutoff {
          start := i;
          break;
        }
        assert samples[i..][1..] == samples[i + 1..];
        if i == count - 1 {
          start := count;
          break;
        }
      }
      assert samples[0..] == samples;
    }

    // Moves the elements from `start` on to the front. Reading stays ahead of writing.
    method Compact(start: nat)
      requires Allocated() && start <= count
      modifies this`count, buffer
      ensures Allocated() && Samples() == old(Samples())[start..]
    {
      var size := count - start;
      ghost var was := buffer[..];
      for i := 0 to size
        invariant count == old(count)
        invariant forall k :: 0 <= k < i ==> buffer[k] == was[start + k]
        invariant forall k :: i <= k < buffer.Length ==> buffer[k] == was[k]
      {
        buffer[i] := buffer[start + i];
      }
      assert buffer[..size] == was[start..count];
      count := size;
    }

    method Append(sample: Sample)
      requires Allocated()
      modifies this`buffer, this`count, buffer
      ensures Allocated() && (buffer == old(buffer) || fresh(buffer))
      ensures Samples() == old(Samples()) + [sample]
    {
      if count == buffer.Length {
        var storage := new Sample[2 * buffer.Length + 1];
        forall i | 0 <= i < count {
          storage[i] := buffer[i];
        }
        buffer := storage;
        assert Samples() == old(Samples());
      }
      buffer[count] := sample;
      count := count + 1;
    }

    // Prunes the raw list and appends.
    method AddToRaw(sample: Sample)
      requires Allocated()
      modifies this`buffer, this`count, buffer
      ensures Allocated() && (buffer == old(buffer) || fresh(buffer))
      ensures Samples() == Retain(old(Samples()), sample)
    {
      var start := FirstKept(sample.timestamp - RAW_RETENTION);
      if start > 0 {
        Compact(start);
      }
      Append(sample);
    }

    method AddSample(sample: Sample)
      requires Valid()
      modifies this, buffer, buckets
      ensures Valid() && log == old(log) + [sample]
      ensures buffer == old(buffer) || fresh(buffer)
    {
      LayersStep(log, sample);
      sampleCount := sampleCount + 1;
      AddToRaw(sample);
      AddToRing(sample);
      log := log + [sample];
    }

    method AddToRing(sample: Sample)
      requires buckets.Length == RING
      modifies buckets
      ensures buckets[..] == RingAdd(old(buckets[..]), sample)
    {
      var slot := Slot(sample);
      if !buckets[slot].filled || buckets[slot].minute != MinuteOf(sample) {
        buckets[slot] := Bucket(MinuteOf(sample), true, EMPTY);
      }
      buckets[slot] := buckets[slot].(stats := buckets[slot].stats.AddResponse(sample.responseUs));
      assert buckets[..] == RingAdd(old(buckets[..]), sample);
    }

    method AggregateSamplesSince(cutoff: int) returns (agg: Aggregate)
      requires Allocated()
      ensures agg == Stats(Samples(), Since(cutoff))
    {
      agg := EMPTY;
      for i := 0 to count
        invariant agg == Stats(buffer[..i], Since(cutoff))
      {
        assert buffer[..i + 1][..i] == buffer[..i];
        if buffer[i].timestamp >= cutoff {
          agg := agg.AddResponse(buffer[i].responseUs);
        }
      }
    }

    method AggregateBucketsSince(cutoff: int, now: int) returns (agg: Aggregate)
      requires buckets.Length == RING
      ensures agg == MergeSlots(buckets[..], Minute(cutoff), Minute(now), RING)
    {
      agg := EMPTY;
      var startMinute, endMinute := Minute(cutoff), Minute(now);
      for i := 0 to buckets.Length
        invariant agg == MergeSlots(buckets[..], startMinute, endMinute, i)
      {
        var bucket := buckets[i];
        if bucket.filled && startMinute <= bucket.minute <= endMinute {
          agg := agg.AddAggregate(bucket.stats);
        }
      }
    }

    method Aggregate(duration: int, now: int) returns (agg: Aggregate)
      requires Allocated()
      ensures agg == Query(Samples(), buckets[..], duration, now)
    {
      if duration <= RAW_RETENTION {
        agg := AggregateSamplesSince(now - duration);
      } else {
        agg := AggregateBucketsSince(now - duration, now);
      }
    }

    method ResultLocked(duration: int, now: int) returns (report: Option<Report>)
      requires Valid()
      ensures report == ReportFor(RetainedBy(log), RingOf(log), |log|, duration, now)
    {
      var agg := Aggregate(duration, now);
      if !agg.HasData() {
        agg := EMPTY;
        if count > 0 {
          agg := agg.AddResponse(buffer[count - 1].responseUs);
        }
      }
      var hour := Aggregate(HOUR, now);
      if !agg.HasData() {
        return None;
      }
      var lastProbeAt := if count == 0 then 0 else buffer[count - 1].timestamp / 1_000_000;
      var lo, hi := agg.minUs, agg.maxUs;
      if agg.successCount == 0 {
        lo, hi := 0, 0;
      }
      var lo1h, hi1h := hour.minUs, hour.maxUs;
      if hour.successCount == 0 {
        lo1h, hi1h := 0, 0;
      }
      report := Some(Report(agg.AvgResponse(), lo, hi, agg.LossPercentage(),
                            agg.totalCount, agg.successCount, agg.sumUs, lastProbeAt,
                            hour.AvgResponse(), lo1h, hi1h, hour.LossPercentage(), sampleCount));
    }

    method Result(duration: int, now: int) returns (report: Option<Report>)
      requires Valid()
      ensures report == ReportFor(RetainedBy(log), RingOf(log), |log|, duration, now)
      ensures report.Some? ==> Sound(report.value)
      ensures report.None? <==> log == []
      ensures report.Some? && !Misses(log, duration, now) && !Misses(log, HOUR, now) ==> Tells(report.value, log, duration, now)
    {
      ReportedOnceRecorded(log, duration, now);
      ReportSound(log, duration, now);
      if log != [] && !Misses(log, duration, now) && !Misses(log, HOUR, now) {
        ReportMeaning(log, duration, now);
      }
      report := ResultLocked(duration, now);
    }

    // Records a sample and reports its own minute, which is never empty.
    method Record(sample: Sample) returns (report: Report)
      requires Valid()
      modifies this, buffer, buckets
      ensures Valid() && log == old(log) + [sample]
      ensures buffer == old(buffer) || fresh(buffer)
      ensures Some(report) == ReportFor(RetainedBy(log), RingOf(log), |log|, MINUTE, sample.timestamp)
      ensures Sound(report)
      ensures !Misses(log, MINUTE, sample.timestamp) && !Misses(log, HOUR, sample.timestamp) ==>
                Tells(report, log, MINUTE, sample.timestamp)
    {
      RecordedIsReported(log, sample);
      AddSample(sample);
      var result := ResultLocked(MINUTE, sample.timestamp);
      report := result.value;
    }
  }

  lemma {:induction false} RecordedIsReported(before: seq<Sample>, sample: Sample)
    ensures var log := before + [sample];
            var r := ReportFor(RetainedBy(log), RingOf(log), |log|, MINUTE, sample.timestamp);
            && r.Some? && Sound(r.value)
            && (!Misses(log, MINUTE, sample.timestamp) && !Misses(log, HOUR, sample.timestamp) ==>
                Tells(r.value, log, MINUTE, sample.timestamp))
  {
    var log := before + [sample];
    LatestIsReported(before, sample);
    ReportSound(log, MINUTE, sample.timestamp);
    if !Misses(log, MINUTE, sample.timestamp) && !Misses(log, HOUR, sample.timestamp) {
      ReportMeaning(log, MINUTE, sample.timestamp);
    }
  }

  lemma {:induction false} LatestIsReported(before: seq<Sample>, sample: Sample)
    ensures var log := before + [sample];
            ReportFor(RetainedBy(log), RingOf(log), |log|, MINUTE, sample.timestamp).Some?
  {
    var log := before + [sample];
    assert log[..|before|] == before;
    assert RetainedBy(log) == Retain(RetainedBy(before), sample);
  }
}
