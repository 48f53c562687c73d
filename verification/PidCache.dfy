/** The cache of container process ids: rounds over the container list, and a background batch of
    look-ups that completes in between. A state machine whose steps are the locked sections, with
    the cache as an object at the end. */
module PidCache {
  import opened ListenPorts
  import opened PortMap
  import opened Wrappers

  // Times are whole seconds.
  const RETRY_AFTER := 30
  const GENERATIONS := 0x1_0000_0000

  type Generation = g: nat | g < GENERATIONS

  // ---------- Uptime ----------

  function CountDigits(s: string): (i: nat)
    ensures i <= |s|
  {
    if s != [] && IsDigit(s[0]) then 1 + CountDigits(s[1..]) else 0
  }

  // The uptime in seconds when the status text has second precision.
  function UptimeSeconds(status: string): Option<nat> {
    if !("Up " <= status) then None
    else
      var rest := status[3..];
      if "Less than a second" <= rest then Some(0)
      else
        var i := CountDigits(rest);
        if i == 0 || i > 3 || !(" second" <= rest[i..]) then None else Some(ReadDigits(rest[..i], 0).0)
  }

  lemma {:induction false} CountDecimal(n: nat, rest: string)
    ensures CountDigits(Decimal(n) + rest) == |Decimal(n)| + CountDigits(rest)
  {
    var s := Decimal(n) + rest;
    if n < 10 {
      assert s[1..] == rest;
    } else {
      var tail := [Digit(n % 10)] + rest;
      CountDecimal(n / 10, tail);
      assert s == Decimal(n / 10) + tail;
      assert tail[1..] == rest;
    }
  }

  lemma {:induction false} OneDigit(n: nat)
    ensures |Decimal(n)| >= 1
    ensures |Decimal(n)| <= 1 <==> n < 10
  {
    if n >= 10 {
      OneDigit(n / 10);
    }
  }

  lemma {:induction false} TwoDigits(n: nat)
    ensures |Decimal(n)| <= 2 <==> n < 100
  {
    OneDigit(n);
    OneDigit(n / 10);
  }

  lemma {:induction false} ThreeDigits(n: nat)
    ensures 1 <= |Decimal(n)|
    ensures |Decimal(n)| <= 3 <==> n < 1000
  {
    OneDigit(n);
    TwoDigits(n / 10);
  }

  // Docker's text is read back, as long as the number has at most three digits.
  lemma {:induction false} UptimeReadsBack(n: nat, rest: string)
    ensures UptimeSeconds("Up " + (Decimal(n) + (" second" + rest))) == if n < 1000 then Some(n) else None
  {
    var tail := " second" + rest;
    var status := "Up " + (Decimal(n) + tail);
    assert status[3..] == Decimal(n) + tail;
    ReadDecimal(n, tail);
    CountDecimal(n, tail);
    ThreeDigits(n);
    assert (Decimal(n) + tail)[..|Decimal(n)|] == Decimal(n);
    assert (Decimal(n) + tail)[|Decimal(n)|..] == tail;
    ReadDecimal(n, "");
    assert Decimal(n) + "" == Decimal(n);
  }

  // Under a second counts as none, and anything else but seconds is not precise enough.
  lemma {:induction false} UptimeOtherwise(n: nat, unit: string, rest: string, status: string)
    ensures UptimeSeconds("Up " + ("Less than a second" + rest)) == Some(0)
    ensures unit != "" && !IsDigit(unit[0]) && !(" second" <= unit) ==> UptimeSeconds("Up " + (Decimal(n) + unit)) == None
    ensures !("Up " <= status) ==> UptimeSeconds(status) == None
  {
    var less := "Less than a second" + rest;
    assert ("Up " + less)[3..] == less && less[..18] == "Less than a second";
    if unit != "" && !IsDigit(unit[0]) && !(" second" <= unit) {
      assert ("Up " + (Decimal(n) + unit))[3..] == Decimal(n) + unit;
      CountDecimal(n, unit);
      ReadDecimal(n, unit);
      OneDigit(n);
      assert (Decimal(n) + unit)[|Decimal(n)|..] == unit;
      StartsWithDecimal(n, unit);
    }
  }

  lemma {:induction false} StartsWithDecimal(n: nat, unit: string)
    ensures Decimal(n) != "" && IsDigit((Decimal(n) + unit)[0]) && !("Less than a second" <= Decimal(n) + unit)
  {
    if n >= 10 {
      StartsWithDecimal(n / 10, [Digit(n % 10)] + unit);
      assert Decimal(n) + unit == Decimal(n / 10) + ([Digit(n % 10)] + unit);
    } else {
      assert (Decimal(n) + unit)[0] == Digit(n) && "Less than a second"[0] == 'L';
    }
  }

  // ---------- State ----------

  // `fetchedAt` is the last successful look-up, 0 for never.
  datatype Entry = Entry(fetchedAt: int, retryAt: int, expireAfter: int, gen: Generation, pid: nat, failed: bool)

  datatype Due = Due(id: string, fetchedAt: int)

  // `notes` are the ids noted in the present round, each with whether it was live; `inFlight` the
  // ids of the running batch that are not answered; `answers` every answer so far.
  datatype State = State(
    entries: map<string, Entry>, gen: Generation, due: seq<Due>, running: bool,
    inRound: bool, notes: seq<(string, bool)>, inFlight: multiset<string>, answers: seq<(string, Option<nat>)>)

  // What a cache is created with: how long each id's PID is trusted, and the size of a batch.
  datatype Settings = Settings(expireAfter: string -> int, maxPerRound: int)

  datatype Step =
    | Begin
    | Note(id: string, state: string, status: string, now: int)
    | End
    | Answer(id: string, answer: Option<nat>, at: int) // None: the look-up failed
    | Finish

  predicate Enabled(s: State, step: Step) {
    match step
    case Begin => !s.inRound
    case Note(_, _, _, _) => s.inRound
    case End => s.inRound
    case Answer(id, _, _) => id in s.inFlight
    case Finish => s.running && s.inFlight == multiset{}
  }

  predicate Live(state: string) {
    state == "" || state == "running" || state == "paused"
  }

  // An entry needs a look-up.
  predicate NeedsLookUp(e: Entry, status: string, now: int) {
    && now >= e.retryAt
    && (|| e.fetchedAt == 0 || e.failed || e.pid == 0
        || now - e.fetchedAt >= e.expireAfter
        || (UptimeSeconds(status).Some? && e.fetchedAt < now - (UptimeSeconds(status).value + 2)))
  }

  function DoNote(c: Settings, s: State, id: string, state: string, status: string, now: int): State {
    var noted := s.(notes := s.notes + [(id, Live(state))]);
    if !Live(state) then noted.(entries := s.entries - {id})
    else if id !in s.entries then
      noted.(entries := s.entries[id := Entry(0, 0, c.expireAfter(id), s.gen, 0, false)], due := s.due + [Due(id, 0)])
    else
      var e := s.entries[id];
      noted.(entries := s.entries[id := e.(gen := s.gen)],
             due := if NeedsLookUp(e, status, now) then s.due + [Due(id, e.fetchedAt)] else s.due)
  }

  predicate Older(a: Due, b: Due) {
    a.fetchedAt < b.fetchedAt
  }

  function BatchSize(due: seq<Due>, maxPerRound: int): (n: nat)
    ensures n <= |due|
  {
    if 0 < maxPerRound < |due| then maxPerRound else |due|
  }

  function IdsOf(due: seq<Due>): seq<string> {
    if due == [] then [] else IdsOf(due[..|due| - 1]) + [due[|due| - 1].id]
  }

  // The ids a batch looks up: never fetched ones first, then the oldest.
  function Selected(due: seq<Due>, maxPerRound: int): seq<Due> {
    var sorted := SortBy(due, Older);
    sorted[..BatchSize(sorted, maxPerRound)]
  }

  function Swept(s: State): map<string, Entry> {
    map id <- s.entries | s.entries[id].gen == s.gen :: s.entries[id]
  }

  function DoEnd(c: Settings, s: State): State {
    var swept := s.(entries := Swept(s), inRound := false);
    if s.due == [] || s.running then swept
    else swept.(running := true, inFlight := multiset(IdsOf(Selected(s.due, c.maxPerRound))))
  }

  function Answered(e: Entry, answer: Option<nat>, at: int): Entry {
    match answer
    case None => e.(failed := true, retryAt := at + RETRY_AFTER)
    case Some(pid) =>
      if pid == 0 then e.(pid := 0, fetchedAt := at, failed := false, retryAt := at + RETRY_AFTER)
      else e.(pid := pid, fetchedAt := at, failed := false, retryAt := 0)
  }

  function DoAnswer(s: State, id: string, answer: Option<nat>, at: int): State {
    s.(inFlight := s.inFlight - multiset{id}, answers := s.answers + [(id, answer)],
       entries := if id in s.entries then s.entries[id := Answered(s.entries[id], answer, at)] else s.entries)
  }

  function Next(c: Settings, s: State, step: Step): State
    requires Enabled(s, step)
  {
    match step
    case Begin => s.(gen := (s.gen + 1) % GENERATIONS, due := [], inRound := true, notes := [])
    case Note(id, state, status, now) => DoNote(c, s, id, state, status, now)
    case End => DoEnd(c, s)
    case Answer(id, answer, at) => DoAnswer(s, id, answer, at)
    case Finish => s.(running := false)
  }

  const INITIAL := State(map[], 0, [], false, false, [], multiset{}, [])

  // ---------- Invariants ----------

  // The ids whose last note in a round was live.
  function LiveNoted(notes: seq<(string, bool)>): set<string> {
    if notes == [] then {}
    else
      var (id, live) := notes[|notes| - 1];
      var before := LiveNoted(notes[..|notes| - 1]);
      if live then before + {id} else before - {id}
  }

  lemma {:induction false} LiveNotedAppend(notes: seq<(string, bool)>, id: string, live: bool)
    ensures LiveNoted(notes + [(id, live)]) == if live then LiveNoted(notes) + {id} else LiveNoted(notes) - {id}
  {
    assert (notes + [(id, live)])[..|notes|] == notes;
  }

  // The entries of the present generation are exactly those of ids last noted live. Between rounds
  // there are no others.
  ghost predicate Marked(entries: map<string, Entry>, gen: Generation, live: set<string>, inRound: bool) {
    && live <= entries.Keys
    && (forall id <- entries :: entries[id].gen == gen <==> id in live)
    && (!inRound ==> entries.Keys == live)
  }

  // The last PID a look-up of the id returned, 0 if none did.
  function LastPid(answers: seq<(string, Option<nat>)>, id: string): nat {
    if answers == [] then 0
    else
      var (other, answer) := answers[|answers| - 1];
      if other == id && answer.Some? then answer.value else LastPid(answers[..|answers| - 1], id)
  }

  lemma {:induction false} LastPidAppend(answers: seq<(string, Option<nat>)>, other: string, answer: Option<nat>, id: string)
    ensures LastPid(answers + [(other, answer)], id) ==
            if other == id && answer.Some? then answer.value else LastPid(answers, id)
  {
    assert (answers + [(other, answer)])[..|answers|] == answers;
  }

  ghost predicate PidsReturned(entries: map<string, Entry>, answers: seq<(string, Option<nat>)>) {
    forall id <- entries :: entries[id].pid == 0 || entries[id].pid == LastPid(answers, id)
  }

  predicate BatchBounded(c: Settings, s: State) {
    && (!s.running ==> s.inFlight == multiset{})
    && (c.maxPerRound > 0 ==> |s.inFlight| <= c.maxPerRound)
  }

  ghost predicate Inv(c: Settings, s: State) {
    && Marked(s.entries, s.gen, LiveNoted(s.notes), s.inRound)
    && PidsReturned(s.entries, s.answers)
    && BatchBounded(c, s)
  }

  lemma {:induction false} BeginKeepsInv(c: Settings, s: State)
    requires Inv(c, s) && Enabled(s, Begin)
    ensures Inv(c, Next(c, s, Begin))
  {
    assert (s.gen + 1) % GENERATIONS != s.gen;
  }

  lemma {:induction false} MarkedWith(entries: map<string, Entry>, gen: Generation, live: set<string>, id: string, e: Entry)
    requires Marked(entries, gen, live, true) && e.gen == gen
    ensures Marked(entries[id := e], gen, live + {id}, true)
  {
  }

  lemma {:induction false} MarkedWithout(entries: map<string, Entry>, gen: Generation, live: set<string>, id: string)
    requires Marked(entries, gen, live, true)
    ensures Marked(entries - {id}, gen, live - {id}, true)
  {
  }

  lemma {:induction false} NoteKeepsInv(c: Settings, s: State, id: string, state: string, status: string, now: int)
    requires Inv(c, s) && s.inRound
    ensures Inv(c, DoNote(c, s, id, state, status, now))
  {
    LiveNotedAppend(s.notes, id, Live(state));
    if !Live(state) {
      MarkedWithout(s.entries, s.gen, LiveNoted(s.notes), id);
    } else {
      var s' := DoNote(c, s, id, state, status, now);
      var e := s'.entries[id];
      assert e.gen == s.gen && (e.pid == 0 || (id in s.entries && e.pid == s.entries[id].pid));
      MarkedWith(s.entries, s.gen, LiveNoted(s.notes), id, e);
      assert s'.entries == s.entries[id := e];
    }
  }

  lemma {:induction false} IdsOfLength(due: seq<Due>)
    ensures |IdsOf(due)| == |due|
  {
    if due != [] {
      IdsOfLength(due[..|due| - 1]);
    }
  }

  lemma {:induction false} SortLength<T>(s: seq<T>, less: (T, T) -> bool)
    ensures |SortBy(s, less)| == |s|
  {
    if s != [] {
      SortLength(s[..|s| - 1], less);
      InsertLength(s[|s| - 1], SortBy(s[..|s| - 1], less), less);
    }
  }

  lemma {:induction false} InsertLength<T>(x: T, s: seq<T>, less: (T, T) -> bool)
    ensures |Insert(x, s, less)| == |s| + 1
  {
    if s != [] && less(x, s[|s| - 1]) {
      InsertLength(x, s[..|s| - 1], less);
    }
  }

  lemma {:induction false} EndKeepsInv(c: Settings, s: State)
    requires Inv(c, s) && s.inRound
    ensures Inv(c, DoEnd(c, s))
  {
    IdsOfLength(Selected(s.due, c.maxPerRound));
    assert Swept(s).Keys == LiveNoted(s.notes);
  }

  lemma {:induction false} AnswerKeepsInv(c: Settings, s: State, id: string, answer: Option<nat>, at: int)
    requires Inv(c, s) && id in s.inFlight
    ensures Inv(c, DoAnswer(s, id, answer, at))
  {
    var s' := DoAnswer(s, id, answer, at);
    forall other <- s'.entries ensures s'.entries[other].pid == 0 || s'.entries[other].pid == LastPid(s'.answers, other) {
      LastPidAppend(s.answers, id, answer, other);
    }
    assert |s'.inFlight| == |s.inFlight| - 1;
  }

  lemma {:induction false} NextKeepsInv(c: Settings, s: State, step: Step)
    requires Inv(c, s) && Enabled(s, step)
    ensures Inv(c, Next(c, s, step))
  {
    match step
    case Begin => BeginKeepsInv(c, s);
    case Note(id, state, status, now) => NoteKeepsInv(c, s, id, state, status, now);
    case End => EndKeepsInv(c, s);
    case Answer(id, answer, at) => AnswerKeepsInv(c, s, id, answer, at);
    case Finish =>
  }

  // ---------- What follows, over whole runs ----------

  ghost predicate Execution(c: Settings, states: seq<State>, steps: seq<Step>) {
    && |states| == |steps| + 1 && states[0] == INITIAL
    && forall i {:trigger Enabled(states[i], steps[i])} ::
         0 <= i < |steps| ==> Enabled(states[i], steps[i]) && states[i + 1] == Next(c, states[i], steps[i])
  }

  lemma {:induction false} InvAlways(c: Settings, states: seq<State>, steps: seq<Step>, n: nat)
    requires Execution(c, states, steps) && n < |states|
    ensures Inv(c, states[n])
  {
    if n > 0 {
      InvAlways(c, states, steps, n - 1);
      assert Enabled(states[n - 1], steps[n - 1]);
      NextKeepsInv(c, states[n - 1], steps[n - 1]);
    }
  }

  // ---------- What an entry stands for ----------

  // The answers about an id, with their times, since its entry was made.
  ghost function Heard(states: seq<State>, steps: seq<Step>, n: nat, id: string): seq<(Option<nat>, int)>
    requires n <= |steps| < |states|
  {
    if n == 0 || id !in states[n - 1].entries then []
    else
      var before := Heard(states, steps, n - 1, id);
      match steps[n - 1]
      case Answer(other, answer, at) => if other == id then before + [(answer, at)] else before
      case _ => before
  }

  // The latest answer that was not a failure.
  function LastSuccess(heard: seq<(Option<nat>, int)>): (nat, int) {
    if heard == [] then (0, 0)
    else if heard[|heard| - 1].0.Some? then (heard[|heard| - 1].0.value, heard[|heard| - 1].1)
    else LastSuccess(heard[..|heard| - 1])
  }

  // An entry holds the latest PID and its time, whether a failure came after it, and until when a
  // failure or an empty answer puts off the next look-up.
  ghost predicate Tells(e: Entry, heard: seq<(Option<nat>, int)>) {
    && (e.pid, e.fetchedAt) == LastSuccess(heard)
    && (e.failed <==> heard != [] && heard[|heard| - 1].0.None?)
    && e.retryAt == if heard == [] || heard[|heard| - 1].0.None? == (heard[|heard| - 1].0 == Some(0)) then 0
                    else heard[|heard| - 1].1 + 30
  }

  lemma {:induction false} AnswerTells(e: Entry, heard: seq<(Option<nat>, int)>, answer: Option<nat>, at: int)
    requires Tells(e, heard)
    ensures Tells(Answered(e, answer, at), heard + [(answer, at)])
    ensures Answered(e, answer, at).expireAfter == e.expireAfter
  {
    assert (heard + [(answer, at)])[..|heard|] == heard;
  }

  // In every run an entry tells of the answers since it was made, whatever rounds went on meanwhile.
  lemma {:induction false} EntryTells(c: Settings, states: seq<State>, steps: seq<Step>, n: nat, id: string)
    requires Execution(c, states, steps) && n <= |steps| && id in states[n].entries
    ensures Tells(states[n].entries[id], Heard(states, steps, n, id))
    ensures states[n].entries[id].expireAfter == c.expireAfter(id)
  {
    if n > 0 {
      var before := states[n - 1];
      assert Enabled(before, steps[n - 1]);
      if id in before.entries {
        EntryTells(c, states, steps, n - 1, id);
        StepTells(c, before, steps[n - 1], id, Heard(states, steps, n - 1, id));
      }
    }
  }

  lemma {:induction false} StepTells(c: Settings, s: State, step: Step, id: string, heard: seq<(Option<nat>, int)>)
    requires Enabled(s, step) && id in s.entries && Tells(s.entries[id], heard) && id in Next(c, s, step).entries
    ensures var e := Next(c, s, step).entries[id];
            && e.expireAfter == s.entries[id].expireAfter
            && Tells(e, if step.Answer? && step.id == id then heard + [(step.answer, step.at)] else heard)
  {
    if step.Answer? && step.id == id {
      AnswerTells(s.entries[id], heard, step.answer, step.at);
    }
  }

  // Started after the PID was read: it is not the same process any more.
  ghost predicate Restarted(status: string, fetchedAt: int, now: int) {
    exists up :: UptimeSeconds(status) == Some(up) && fetchedAt + up + 2 < now
  }

  // A container that is listed and live has an entry afterwards; one that is not has none. It is
  // queued if it is new, and else once it is no longer put off: if it has no PID, if the last
  // look-up failed, if the PID is too old, or if it was restarted since.
  lemma {:induction false} NoteQueues(c: Settings, states: seq<State>, steps: seq<Step>, n: nat)
    requires Execution(c, states, steps) && n < |steps| && steps[n].Note?
    ensures var s, s', step := states[n], states[n + 1], steps[n];
            var live, id := step.state == "" || step.state == "running" || step.state == "paused", step.id;
            && (id in s'.entries <==> live)
            && (forall other: string :: other != id ==> (other in s'.entries <==> other in s.entries))
            && (forall other <- s.entries :: other != id ==> s'.entries[other] == s.entries[other])
            && (id in s.entries && live ==> s'.entries[id] == s.entries[id].(gen := s.gen))
            && s'.notes == s.notes + [(id, live)]
            && s'.due == s.due +
                 if !live then []
                 else if id !in s.entries then [Due(id, 0)]
                 else
                   var e := s.entries[id];
                   if e.retryAt <= step.now
                      && (e.pid == 0 || e.fetchedAt == 0 || e.failed || e.fetchedAt + c.expireAfter(id) <= step.now
                          || Restarted(step.status, e.fetchedAt, step.now))
                   then [Due(id, e.fetchedAt)] else []
  {
    assert Enabled(states[n], steps[n]);
    if steps[n].id in states[n].entries {
      EntryTells(c, states, steps, n, steps[n].id);
    }
  }

  // A round begins with nothing queued, and leaves entries and a running batch alone.
  lemma {:induction false} BeginClears(c: Settings, states: seq<State>, steps: seq<Step>, n: nat)
    requires Execution(c, states, steps) && n < |steps| && steps[n].Begin?
    ensures var s, s' := states[n], states[n + 1];
            && s'.due == [] && s'.notes == [] && s'.inRound
            && s'.entries == s.entries && s'.running == s.running && s'.inFlight == s.inFlight
  {
    assert Enabled(states[n], steps[n]);
  }

  // At the end of a round, if something is queued and no batch runs, one starts: as many as are
  // allowed, none of them fresher than any that has to wait, and the first queued first among equals.
  lemma {:induction false} EndStarts(c: Settings, states: seq<State>, steps: seq<Step>, n: nat) returns (batch: seq<Due>, rest: seq<Due>)
    requires Execution(c, states, steps) && n < |steps| && steps[n].End?
    ensures var s, s' := states[n], states[n + 1];
            && !s'.inRound && s'.due == s.due
            && (if s.due == [] || s.running then s'.running == s.running && s'.inFlight == s.inFlight
                else
                  && s'.running && s'.inFlight == multiset(IdsOf(batch))
                  && multiset(batch) + multiset(rest) == multiset(s.due)
                  && (if 0 < c.maxPerRound < |s.due| then |batch| == c.maxPerRound else rest == [])
                  && (forall i, j :: 0 <= i < |batch| && 0 <= j < |rest| ==> batch[i].fetchedAt <= rest[j].fetchedAt)
                  && forall at: int :: Those(batch + rest, FetchedAt(at)) == Those(s.due, FetchedAt(at)))
  {
    assert Enabled(states[n], steps[n]);
    batch, rest := BatchOf(states[n].due, c.maxPerRound);
  }

  function FetchedAt(at: int): Due -> bool {
    (d: Due) => d.fetchedAt == at
  }

  lemma {:induction false} BatchOf(due: seq<Due>, maxPerRound: int) returns (batch: seq<Due>, rest: seq<Due>)
    ensures batch == Selected(due, maxPerRound) && multiset(batch) + multiset(rest) == multiset(due)
    ensures if 0 < maxPerRound < |due| then |batch| == maxPerRound else rest == []
    ensures forall i, j :: 0 <= i < |batch| && 0 <= j < |rest| ==> batch[i].fetchedAt <= rest[j].fetchedAt
    ensures forall at: int :: Those(batch + rest, FetchedAt(at)) == Those(due, FetchedAt(at))
  {
    var sorted := SortBy(due, Older);
    SortLength(due, Older);
    assert Orders(Older);
    SortBySorts(due, Older);
    batch := Selected(due, maxPerRound);
    rest := sorted[|batch|..];
    assert sorted == batch + rest;
    forall at: int ensures Those(sorted, FetchedAt(at)) == Those(due, FetchedAt(at)) {
      SortKeepsOrder(due, Older, FetchedAt(at));
    }
    forall i, j | 0 <= i < |batch| && 0 <= j < |rest| ensures batch[i].fetchedAt <= rest[j].fetchedAt {
      assert !Older(sorted[|batch| + j], sorted[i]);
    }
  }

  // An answer leaves the batch and every other entry alone, and the batch is over once all came.
  lemma {:induction false} AnswersDrain(c: Settings, states: seq<State>, steps: seq<Step>, n: nat)
    requires Execution(c, states, steps) && n < |steps| && (steps[n].Answer? || steps[n].Finish?)
    ensures var s, s' := states[n], states[n + 1];
            && s'.entries.Keys == s.entries.Keys && s'.due == s.due && s'.inRound == s.inRound && s'.notes == s.notes
            && (forall other <- s.entries :: !(steps[n].Answer? && steps[n].id == other) ==> s'.entries[other] == s.entries[other])
            && (steps[n].Answer? ==>
                  && s'.inFlight == s.inFlight - multiset{steps[n].id} && s'.running == s.running
                  && s'.answers == s.answers + [(steps[n].id, steps[n].answer)])
            && (steps[n].Finish? ==> s.inFlight == multiset{} && !s'.running && s'.inFlight == s.inFlight && s'.answers == s.answers)
  {
    assert Enabled(states[n], steps[n]);
  }

  // After every round, however often the generation has wrapped and whatever look-ups completed
  // meanwhile, the entries are exactly those of the ids last noted live in it.
  lemma {:induction false} EntriesAreTheListed(c: Settings, states: seq<State>, steps: seq<Step>, n: nat)
    requires Execution(c, states, steps) && n < |states| && !states[n].inRound
    ensures states[n].entries.Keys == LiveNoted(states[n].notes)
  {
    InvAlways(c, states, steps, n);
  }

  // A PID shown is the last one a look-up of that very container returned.
  lemma {:induction false} PidWasReturned(c: Settings, states: seq<State>, steps: seq<Step>, n: nat, id: string)
    requires Execution(c, states, steps) && n < |states| && id in states[n].entries && states[n].entries[id].pid != 0
    ensures states[n].entries[id].pid == LastPid(states[n].answers, id)
    ensures (id, Some(states[n].entries[id].pid)) in states[n].answers
  {
    InvAlways(c, states, steps, n);
    LastPidReturned(states[n].answers, id);
  }

  lemma {:induction false} LastPidReturned(answers: seq<(string, Option<nat>)>, id: string)
    requires LastPid(answers, id) != 0
    ensures (id, Some(LastPid(answers, id))) in answers
  {
    var (other, answer) := answers[|answers| - 1];
    if other == id && answer.Some? {
      assert answers[|answers| - 1] == (id, Some(LastPid(answers, id)));
    } else {
      LastPidReturned(answers[..|answers| - 1], id);
    }
  }

  // One batch at a time, of at most maxPerRound ids; and only a round that ends starts one.
  lemma {:induction false} OneBatchAtATime(c: Settings, states: seq<State>, steps: seq<Step>, n: nat)
    requires Execution(c, states, steps) && n < |steps|
    ensures c.maxPerRound > 0 ==> |states[n].inFlight| <= c.maxPerRound
    ensures !(states[n + 1].inFlight <= states[n].inFlight) ==> steps[n].End? && !states[n].running && states[n].inFlight == multiset{}
  {
    InvAlways(c, states, steps, n);
    assert Enabled(states[n], steps[n]);
  }

  // No id left out of a batch is older than one that is in it.
  lemma {:induction false} OldestFirst(due: seq<Due>, maxPerRound: int, i: nat, j: nat)
    requires var sorted := SortBy(due, Older); i < |Selected(due, maxPerRound)| && |Selected(due, maxPerRound)| <= j < |sorted|
    ensures multiset(SortBy(due, Older)) == multiset(due)
    ensures Selected(due, maxPerRound)[i].fetchedAt <= SortBy(due, Older)[j].fetchedAt
  {
    assert Orders(Older);
    SortBySorts(due, Older);
  }

  // A failed look-up never blanks a known PID, and only a container that is not live, or is no
  // longer listed, loses its entry.
  lemma {:induction false} PidIsKept(c: Settings, s: State, step: Step, id: string)
    requires Enabled(s, step) && id in s.entries
    requires !(step.Answer? && step.id == id && step.answer.Some?)
    requires !(step.Note? && step.id == id && !Live(step.state))
    requires !(step.End? && s.entries[id].gen != s.gen)
    ensures id in Next(c, s, step).entries && Next(c, s, step).entries[id].pid == s.entries[id].pid
  {
  }

  // ---------- The cache ----------

  method Select(due: seq<Due>, maxPerRound: int) returns (ids: seq<string>)
    ensures ids == IdsOf(Selected(due, maxPerRound))
  {
    var sorted := SortBy(due, Older);
    SortLength(due, Older);
    var n := |sorted|;
    if maxPerRound > 0 && n > maxPerRound {
      n := maxPerRound;
    }
    ids := [];
    for i := 0 to n
      invariant ids == IdsOf(sorted[..i])
    {
      assert sorted[..i + 1][..i] == sorted[..i];
      ids := ids + [sorted[i].id];
    }
  }

  class ContainerPidCache {
    const settings: Settings
    var entries: map<string, Entry>
    var gen: Generation
    var due: seq<Due>
    var running: bool
    var inFlight: multiset<string>
    ghost var inRound: bool
    ghost var notes: seq<(string, bool)>
    ghost var answers: seq<(string, Option<nat>)>

    ghost function Current(): State
      reads this
    {
      State(entries, gen, due, running, inRound, notes, inFlight, answers)
    }

    constructor (settings: Settings)
      ensures this.settings == settings && Current() == INITIAL && Inv(settings, Current())
    {
      this.settings := settings;
      entries, gen, due, running, inFlight := map[], 0, [], false, multiset{};
      inRound, notes, answers := false, [], [];
    }

    method BeginRound()
      requires Inv(settings, Current()) && Enabled(Current(), Begin)
      modifies this
      ensures Current() == Next(settings, old(Current()), Begin) && Inv(settings, Current())
    {
      BeginKeepsInv(settings, Current());
      gen := if gen == GENERATIONS - 1 then 0 else gen + 1;
      due := [];
      inRound, notes := true, [];
    }

    method Note(id: string, state: string, status: string, now: int)
      requires Inv(settings, Current()) && inRound
      modifies this
      ensures Current() == DoNote(settings, old(Current()), id, state, status, now) && Inv(settings, Current())
    {
      NoteKeepsInv(settings, Current(), id, state, status, now);
      notes := notes + [(id, Live(state))];
      if state != "" && state != "running" && state != "paused" {
        entries := entries - {id};
        return;
      }
      if id !in entries {
        entries := entries[id := Entry(0, 0, settings.expireAfter(id), gen, 0, false)];
        due := due + [Due(id, 0)];
        return;
      }
      var e := entries[id];
      entries := entries[id := e.(gen := gen)];
      if now < e.retryAt {
        return;
      }
      if e.fetchedAt == 0 || e.failed || e.pid == 0 || now - e.fetchedAt >= e.expireAfter {
        due := due + [Due(id, e.fetchedAt)];
      } else {
        var uptime := UptimeSeconds(status);
        if uptime.Some? && e.fetchedAt < now - (uptime.value + 2) {
          due := due + [Due(id, e.fetchedAt)];
        }
      }
    }

    // Forgets the containers that are no longer listed, in whatever order the map is iterated.
    method Sweep()
      requires Inv(settings, Current())
      modifies this`entries
      ensures entries == Swept(old(Current()))
    {
      var all := entries;
      var todo := entries.Keys;
      while todo != {}
        invariant todo <= all.Keys
        invariant entries.Keys == set id <- all | id in todo || all[id].gen == gen
        invariant forall id <- entries :: entries[id] == all[id]
      {
        var id :| id in todo;
        todo := todo - {id};
        if all[id].gen != gen {
          entries := entries - {id};
        }
      }
    }

    // The batch to look up is what the caller starts in the background, if any.
    method EndRound() returns (batch: Option<seq<string>>)
      requires Inv(settings, Current()) && inRound
      modifies this
      ensures Current() == DoEnd(settings, old(Current())) && Inv(settings, Current())
      ensures batch.Some? <==> old(due) != [] && !old(running)
      ensures batch.Some? ==> multiset(batch.value) == inFlight
    {
      ghost var was, next := Current(), DoEnd(settings, Current());
      EndKeepsInv(settings, was);
      Sweep();
      inRound := false;
      if due == [] || running {
        assert Current() == next;
        return None;
      }
      var ids := Select(due, settings.maxPerRound);
      running, inFlight := true, multiset(ids);
      batch := Some(ids);
      assert Current() == next;
    }

    // The locked section at the end of one look-up.
    method LookUpAnswered(id: string, answer: Option<nat>, at: int)
      requires Inv(settings, Current()) && id in inFlight
      modifies this
      ensures Current() == DoAnswer(old(Current()), id, answer, at) && Inv(settings, Current())
      ensures entries.Keys == old(entries).Keys
      ensures answer.None? ==> forall k <- entries :: entries[k].pid == old(entries)[k].pid
    {
      AnswerKeepsInv(settings, Current(), id, answer, at);
      inFlight := inFlight - multiset{id};
      answers := answers + [(id, answer)];
      if id !in entries {
        return;
      }
      var e := entries[id];
      if answer.None? {
        e := e.(failed := true, retryAt := at + RETRY_AFTER);
      } else if answer.value == 0 {
        e := e.(pid := 0, fetchedAt := at, failed := false, retryAt := at + RETRY_AFTER);
      } else {
        e := e.(pid := answer.value, fetchedAt := at, failed := false, retryAt := 0);
      }
      entries := entries[id := e];
    }

    method BatchDone()
      requires Inv(settings, Current()) && running && inFlight == multiset{}
      modifies this`running
      ensures Current() == Next(settings, old(Current()), Finish) && Inv(settings, Current())
    {
      running := false;
    }

    method Pid(id: string) returns (pid: nat)
      requires Inv(settings, Current())
      ensures id in entries ==> pid == entries[id].pid
      ensures id !in entries ==> pid == 0
      ensures pid != 0 ==> pid == LastPid(answers, id)
    {
      pid := if id in entries then entries[id].pid else 0;
    }
  }
}
