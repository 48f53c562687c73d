/** The listening ports of a host-network container as text: ranges of consecutive ports, low ports
    first, at most twenty entries, and a reader that takes the text back to the ports. */
module ListenPorts {
  import opened PortMap
  import opened Wrappers

  const MAX_ENTRIES := 20
  const EPHEMERAL_START := 32768

  datatype Range = Range(first: nat, last: nat)

  // ---------- Ranges ----------

  ghost predicate Increasing(ports: seq<nat>) {
    forall i, j :: 0 <= i < j < |ports| ==> ports[i] < ports[j]
  }

  function PushPort(runs: seq<Range>, p: nat): seq<Range> {
    if runs != [] && p == runs[|runs| - 1].last + 1 then runs[..|runs| - 1] + [Range(runs[|runs| - 1].first, p)]
    else runs + [Range(p, p)]
  }

  function Runs(ports: seq<nat>): seq<Range> {
    if ports == [] then [] else PushPort(Runs(ports[..|ports| - 1]), ports[|ports| - 1])
  }

  // The ports of one entry.
  function Span(r: Range): seq<nat> {
    seq(if r.first <= r.last then r.last + 1 - r.first else 0, i requires 0 <= i => r.first + i)
  }

  // The ports that entries stand for, in order.
  function Flat(runs: seq<Range>): seq<nat> {
    if runs == [] then [] else Flat(runs[..|runs| - 1]) + Span(runs[|runs| - 1])
  }

  ghost predicate AllUpTo(runs: seq<Range>) {
    forall r <- runs :: r.first <= r.last
  }

  lemma {:induction false} FlatAppend(runs: seq<Range>, r: Range)
    ensures Flat(runs + [r]) == Flat(runs) + Span(r)
  {
    assert (runs + [r])[..|runs|] == runs;
  }

  lemma {:induction false} PushPortFlat(runs: seq<Range>, p: nat)
    requires AllUpTo(runs)
    ensures Flat(PushPort(runs, p)) == Flat(runs) + [p]
  {
    if runs != [] && p == runs[|runs| - 1].last + 1 {
      var front, last := runs[..|runs| - 1], runs[|runs| - 1];
      assert last in runs;
      SpanGrows(last);
      FlatAppend(front, Range(last.first, p));
    } else {
      FlatAppend(runs, Range(p, p));
      assert Span(Range(p, p)) == [p];
    }
  }

  lemma {:induction false} SpanGrows(r: Range)
    requires r.first <= r.last
    ensures Span(Range(r.first, r.last + 1)) == Span(r) + [r.last + 1]
  {
  }

  lemma {:induction false} PushPortUpTo(runs: seq<Range>, p: nat)
    requires AllUpTo(runs)
    ensures AllUpTo(PushPort(runs, p))
  {
    if runs != [] {
      assert runs[|runs| - 1] in runs;
    }
  }

  // Entries stand for exactly the ports, in order.
  lemma {:induction false} RunsFlat(ports: seq<nat>)
    ensures AllUpTo(Runs(ports)) && Flat(Runs(ports)) == ports
  {
    if ports != [] {
      var front, p := ports[..|ports| - 1], ports[|ports| - 1];
      RunsFlat(front);
      PushPortFlat(Runs(front), p);
      PushPortUpTo(Runs(front), p);
      assert ports == front + [p];
    }
  }

  // There is a gap between each two entries, so none could be longer.
  ghost predicate Gaps(runs: seq<Range>) {
    forall i :: 0 < i < |runs| ==> runs[i - 1].last + 1 < runs[i].first
  }

  lemma {:induction false} RunsLast(ports: seq<nat>)
    ensures ports == [] <==> Runs(ports) == []
    ensures ports != [] ==> Runs(ports)[|Runs(ports)| - 1].last == ports[|ports| - 1]
  {
  }

  lemma {:induction false} PushPortGaps(runs: seq<Range>, p: nat)
    requires Gaps(runs) && (runs != [] ==> runs[|runs| - 1].last < p)
    ensures Gaps(PushPort(runs, p))
  {
  }

  lemma {:induction false} RunsGaps(ports: seq<nat>)
    requires Increasing(ports)
    ensures Gaps(Runs(ports))
  {
    if ports != [] {
      var front := ports[..|ports| - 1];
      RunsGaps(front);
      RunsLast(front);
      PushPortGaps(Runs(front), ports[|ports| - 1]);
    }
  }

  // The entries as the code finds them: from each port on, as far as the ports are consecutive.
  method PortRanges(ports: seq<nat>) returns (out: seq<Range>)
    ensures out == Runs(ports)
  {
    out := [];
    var i := 0;
    while i < |ports|
      invariant i <= |ports| && out == Runs(ports[..i])
      invariant 0 < i < |ports| ==> ports[i] != ports[i - 1] + 1
    {
      var j := RunEnd(ports, i, out);
      out := out + [Range(ports[i], ports[j])];
      i := j + 1;
    }
    assert ports[..i] == ports;
  }

  // The last of the consecutive ports that begin at `i`.
  method RunEnd(ports: seq<nat>, i: nat, ghost out: seq<Range>) returns (j: nat)
    requires i < |ports| && out == Runs(ports[..i]) && (i > 0 ==> ports[i] != ports[i - 1] + 1)
    ensures i <= j < |ports| && (j + 1 < |ports| ==> ports[j + 1] != ports[j] + 1)
    ensures Runs(ports[..j + 1]) == out + [Range(ports[i], ports[j])]
  {
    j := i;
    RunStarts(ports, i);
    while j + 1 < |ports| && ports[j + 1] == ports[j] + 1
      invariant i <= j < |ports| && Runs(ports[..j + 1]) == out + [Range(ports[i], ports[j])]
    {
      RunGrows(ports, out, i, j);
      j := j + 1;
    }
  }

  lemma {:induction false} RunStarts(ports: seq<nat>, i: nat)
    requires i < |ports| && (i > 0 ==> ports[i] != ports[i - 1] + 1)
    ensures Runs(ports[..i + 1]) == Runs(ports[..i]) + [Range(ports[i], ports[i])]
  {
    assert ports[..i + 1][..i] == ports[..i];
    RunsLast(ports[..i]);
  }

  lemma {:induction false} RunGrows(ports: seq<nat>, out: seq<Range>, i: nat, j: nat)
    requires i <= j && j + 1 < |ports| && ports[j + 1] == ports[j] + 1
    requires Runs(ports[..j + 1]) == out + [Range(ports[i], ports[j])]
    ensures Runs(ports[..j + 2]) == out + [Range(ports[i], ports[j + 1])]
  {
    assert ports[..j + 2][..j + 1] == ports[..j + 1];
  }

  // ---------- Text ----------

  function Digit(d: nat): char
    requires d < 10
  {
    '0' + d as char
  }

  predicate IsDigit(c: char) {
    '0' <= c <= '9'
  }

  function Decimal(n: nat): string {
    if n < 10 then [Digit(n)] else Decimal(n / 10) + [Digit(n % 10)]
  }

  function PrintRange(r: Range): string {
    if r.first == r.last then Decimal(r.first) else Decimal(r.first) + ("-" + Decimal(r.last))
  }

  function Join(entries: seq<Range>): string {
    if entries == [] then ""
    else if |entries| == 1 then PrintRange(entries[0])
    else PrintRange(entries[0]) + (", " + Join(entries[1..]))
  }

  // ---------- Reading it back ----------

  function ReadDigits(s: string, n: nat): (nat, string)
    decreases |s|
  {
    if s != [] && IsDigit(s[0]) then ReadDigits(s[1..], 10 * n + (s[0] - '0') as int) else (n, s)
  }

  lemma {:induction false} ReadDigitsShrinks(s: string, n: nat)
    ensures |ReadDigits(s, n).1| <= |s|
    ensures s != [] && IsDigit(s[0]) ==> |ReadDigits(s, n).1| < |s|
    decreases |s|
  {
    if s != [] && IsDigit(s[0]) {
      ReadDigitsShrinks(s[1..], 10 * n + (s[0] - '0') as int);
    }
  }

  predicate StartsWithDigit(s: string) {
    s != [] && IsDigit(s[0])
  }

  // An entry and what follows it.
  function ReadEntry(s: string): (Range, string) {
    var (first, rest) := ReadDigits(s, 0);
    if rest != [] && rest[0] == '-' then
      var (last, rest') := ReadDigits(rest[1..], 0);
      (Range(first, last), rest')
    else (Range(first, first), rest)
  }

  lemma {:induction false} ReadEntryShrinks(s: string)
    requires StartsWithDigit(s)
    ensures |ReadEntry(s).1| < |s|
  {
    ReadDigitsShrinks(s, 0);
    var rest := ReadDigits(s, 0).1;
    if rest != [] {
      ReadDigitsShrinks(rest[1..], 0);
    }
  }

  function ReadList(s: string): Option<seq<Range>>
    decreases |s|
  {
    if !StartsWithDigit(s) then None
    else
      var (entry, rest) := ReadEntry(s);
      if rest == "" then Some([entry])
      else if |rest| >= 2 && rest[..2] == ", " then
        ReadEntryShrinks(s);
        var later := ReadList(rest[2..]);
        if later.Some? then Some([entry] + later.value) else None
      else None
  }

  lemma {:induction false} ReadDecimal(n: nat, rest: string)
    ensures StartsWithDigit(Decimal(n))
    ensures ReadDigits(Decimal(n) + rest, 0) == ReadDigits(rest, n)
  {
    var s := Decimal(n) + rest;
    if n < 10 {
      assert s[0] == Digit(n) && s[1..] == rest;
    } else {
      var tail := [Digit(n % 10)] + rest;
      ReadDecimal(n / 10, tail);
      assert s == Decimal(n / 10) + tail;
      assert tail[1..] == rest;
    }
  }

  lemma {:induction false} ReadPrinted(r: Range, rest: string)
    requires !StartsWithDigit(rest) && (rest == "" || rest[0] != '-')
    ensures StartsWithDigit(PrintRange(r) + rest)
    ensures ReadEntry(PrintRange(r) + rest) == (r, rest)
  {
    if r.first == r.last {
      ReadDecimal(r.first, rest);
    } else {
      var tail := "-" + (Decimal(r.last) + rest);
      ReadDecimal(r.first, tail);
      assert PrintRange(r) + rest == Decimal(r.first) + tail;
      assert tail[1..] == Decimal(r.last) + rest;
      ReadDecimal(r.last, rest);
    }
  }

  // Reading undoes joining.
  lemma {:induction false} ReadJoined(entries: seq<Range>)
    requires entries != []
    ensures ReadList(Join(entries)) == Some(entries)
    decreases |entries|
  {
    var r, s := entries[0], Join(entries);
    var rest := if |entries| == 1 then "" else ", " + Join(entries[1..]);
    assert s == PrintRange(r) + rest;
    ReadPrinted(r, rest);
    assert StartsWithDigit(s) && ReadEntry(s) == (r, rest);
    if |entries| == 1 {
      assert ReadList(s) == Some([r]);
      assert entries == [r];
    } else {
      ReadJoined(entries[1..]);
      assert rest[2..] == Join(entries[1..]) && rest[..2] == ", ";
      assert entries == [r] + entries[1..];
      assert ReadList(s) == Some(entries);
    }
  }

  // ---------- The listening ports ----------

  // The reference: the members of a set of ports from one number up to another, in order.
  function Ascending(s: set<Port>, lo: nat, hi: nat): (ports: seq<nat>)
    requires lo <= hi
    decreases hi - lo
  {
    if lo == hi then [] else (if lo in s then [lo] else []) + Ascending(s, lo + 1, hi)
  }

  // A list of exactly those members.
  ghost predicate Lists(a: seq<nat>, s: set<Port>, lo: nat, hi: nat) {
    && (forall i :: 0 <= i < |a| ==> a[i] in s && lo <= a[i] < hi)
    && (forall p <- s :: lo <= p < hi ==> p in a)
  }

  lemma {:induction false} AscendingExact(s: set<Port>, lo: nat, hi: nat)
    requires lo <= hi
    ensures Increasing(Ascending(s, lo, hi)) && Lists(Ascending(s, lo, hi), s, lo, hi)
    decreases hi - lo
  {
    if lo < hi {
      AscendingExact(s, lo + 1, hi);
      PrependLowest(Ascending(s, lo + 1, hi), s, lo, hi);
    }
  }

  lemma {:induction false} PrependLowest(rest: seq<nat>, s: set<Port>, lo: nat, hi: nat)
    requires lo < hi && Increasing(rest) && Lists(rest, s, lo + 1, hi)
    ensures var a := (if lo in s then [lo] else []) + rest; Increasing(a) && Lists(a, s, lo, hi)
  {
    if lo in s {
      var a := [lo] + rest;
      assert a[0] == lo;
      forall p <- s | lo < p < hi ensures p in a {
        assert p in rest;
      }
      assert Increasing(a);
    } else {
      assert [] + rest == rest;
    }
  }

  // Any ascending list of them is the same.
  lemma {:induction false} AscendingUnique(a: seq<nat>, s: set<Port>, lo: nat, hi: nat)
    requires lo <= hi && Increasing(a) && Lists(a, s, lo, hi)
    ensures a == Ascending(s, lo, hi)
  {
    AscendingExact(s, lo, hi);
    SameMembers(a, Ascending(s, lo, hi));
  }

  ghost predicate Within(a: seq<nat>, b: seq<nat>) {
    forall i :: 0 <= i < |a| ==> a[i] in b
  }

  lemma {:induction false} SameMembers(a: seq<nat>, b: seq<nat>)
    requires Increasing(a) && Increasing(b) && Within(a, b) && Within(b, a)
    ensures a == b
  {
    NoneOrSome(a, b);
    if a != [] {
      SameLast(a, b);
      WithinFront(a, b);
      WithinFront(b, a);
      SameMembers(a[..|a| - 1], b[..|b| - 1]);
      assert a == a[..|a| - 1] + [a[|a| - 1]];
      assert b == b[..|b| - 1] + [b[|b| - 1]];
    }
  }

  lemma {:induction false} NoneOrSome(a: seq<nat>, b: seq<nat>)
    requires Within(a, b) && Within(b, a)
    ensures a == [] <==> b == []
  {
    if a != [] { assert a[0] in b; }
    if b != [] { assert b[0] in a; }
  }

  lemma {:induction false} SameLast(a: seq<nat>, b: seq<nat>)
    requires Increasing(a) && Increasing(b) && a != [] && b != [] && Within(a, b) && Within(b, a)
    ensures a[|a| - 1] == b[|b| - 1]
  {
    var i :| 0 <= i < |a| && a[i] == b[|b| - 1];
    var j :| 0 <= j < |b| && b[j] == a[|a| - 1];
  }

  lemma {:induction false} WithinFront(a: seq<nat>, b: seq<nat>)
    requires Increasing(a) && Within(a, b) && a != [] && b != [] && a[|a| - 1] == b[|b| - 1]
    ensures Within(a[..|a| - 1], b[..|b| - 1])
  {
    var front' := b[..|b| - 1];
    forall i | 0 <= i < |a| - 1 ensures a[i] in front' {
      var j :| 0 <= j < |b| && b[j] == a[i];
      assert a[i] < a[|a| - 1];
      assert front'[j] == a[i];
    }
  }

  lemma {:induction false} AscendingSplit(s: set<Port>, lo: nat, mid: nat, hi: nat)
    requires lo <= mid <= hi
    ensures Ascending(s, lo, hi) == Ascending(s, lo, mid) + Ascending(s, mid, hi)
    decreases mid - lo
  {
    if lo < mid {
      AscendingSplit(s, lo + 1, mid, hi);
    }
  }

  function Listening(ports: seq<Port>): set<Port> {
    set p <- ports | p != 0
  }

  function Entries(s: set<Port>): seq<Range> {
    Runs(Ascending(s, 0, EPHEMERAL_START)) + Runs(Ascending(s, EPHEMERAL_START, 0x1_0000))
  }

  function Kept(s: set<Port>): seq<Range> {
    if |Entries(s)| > MAX_ENTRIES then Entries(s)[..MAX_ENTRIES] else Entries(s)
  }

  function ListenText(s: set<Port>): string {
    if s == {} then "" else "L:" + Join(Kept(s))
  }

  predicate Less(a: nat, b: nat) {
    a < b
  }

  lemma {:induction false} SortedIsAscending(ports: seq<nat>, s: set<Port>, lo: nat, hi: nat)
    requires lo <= hi && Distinct(ports) && Lists(ports, s, lo, hi)
    ensures SortBy(ports, Less) == Ascending(s, lo, hi)
  {
    var sorted := SortBy(ports, Less);
    SortBySorts(ports, Less);
    forall i | 0 <= i < |sorted| ensures sorted[i] in s && lo <= sorted[i] < hi {
      assert sorted[i] in multiset(sorted);
      assert sorted[i] in ports;
    }
    forall p <- s | lo <= p < hi ensures p in sorted {
      assert p in multiset(ports);
    }
    forall i, j | 0 <= i < j < |sorted| ensures sorted[i] < sorted[j] {
      SameOnce(ports, sorted, i, j);
      assert !Less(sorted[j], sorted[i]);
    }
    AscendingUnique(sorted, s, lo, hi);
  }

  lemma {:induction false} ListsOneMore(a: seq<nat>, s: set<Port>, p: Port, lo: nat, hi: nat)
    requires Lists(a, s, lo, hi) && Distinct(a) && p !in s
    ensures lo <= p < hi ==> Lists(a + [p], s + {p}, lo, hi) && Distinct(a + [p])
    ensures !(lo <= p < hi) ==> Lists(a, s + {p}, lo, hi)
  {
  }

  // Splits the set into low and high ports, in whatever order it is iterated.
  method Split(s: set<Port>) returns (low: seq<nat>, high: seq<nat>)
    ensures Distinct(low) && Lists(low, s, 0, EPHEMERAL_START)
    ensures Distinct(high) && Lists(high, s, EPHEMERAL_START, 0x1_0000)
  {
    low, high := [], [];
    var todo := s;
    ghost var done: set<Port> := {};
    while todo != {}
      invariant done !! todo && s == done + todo
      invariant Distinct(low) && Lists(low, done, 0, EPHEMERAL_START)
      invariant Distinct(high) && Lists(high, done, EPHEMERAL_START, 0x1_0000)
    {
      var p :| p in todo;
      todo := todo - {p};
      ListsOneMore(low, done, p, 0, EPHEMERAL_START);
      ListsOneMore(high, done, p, EPHEMERAL_START, 0x1_0000);
      done := done + {p};
      if p < EPHEMERAL_START {
        low := low + [p];
      } else {
        high := high + [p];
      }
    }
    assert done == s;
  }

  method FormatListenPorts(ports: seq<Port>) returns (text: string)
    ensures text == ListenText(Listening(ports))
  {
    var s := Listening(ports);
    if s == {} {
      return "";
    }
    var low, high := Split(s);
    SortedIsAscending(low, s, 0, EPHEMERAL_START);
    SortedIsAscending(high, s, EPHEMERAL_START, 0x1_0000);
    var lowEntries := PortRanges(SortBy(low, Less));
    var highEntries := PortRanges(SortBy(high, Less));
    var entries := lowEntries + highEntries;
    if |entries| > MAX_ENTRIES {
      entries := entries[..MAX_ENTRIES];
    }
    text := "L:" + Join(entries);
  }

  // ---------- What the text says ----------

  lemma {:induction false} FlatConcat(a: seq<Range>, b: seq<Range>)
    ensures Flat(a + b) == Flat(a) + Flat(b)
    decreases |b|
  {
    if b == [] {
      assert a + b == a;
    } else {
      var front, last := b[..|b| - 1], b[|b| - 1];
      assert b == front + [last];
      FlatConcat(a, front);
      FlatAppend(a + front, last);
      assert a + b == (a + front) + [last];
      assert Flat(b) == Flat(front) + Span(last);
    }
  }

  // All entries together stand for exactly the ports, in ascending order, and so low ports come
  // before ephemeral ones.
  lemma {:induction false} EntriesExact(s: set<Port>)
    ensures AllUpTo(Entries(s)) && Flat(Entries(s)) == Ascending(s, 0, 0x1_0000)
  {
    var low, high := Ascending(s, 0, EPHEMERAL_START), Ascending(s, EPHEMERAL_START, 0x1_0000);
    RunsFlat(low);
    RunsFlat(high);
    FlatConcat(Runs(low), Runs(high));
    AscendingSplit(s, 0, EPHEMERAL_START, 0x1_0000);
  }

  lemma {:induction false} RunsWithin(ports: seq<nat>, lo: nat, hi: nat)
    requires forall p <- ports :: lo <= p < hi
    ensures AllUpTo(Runs(ports)) && forall r <- Runs(ports) :: lo <= r.first && r.last < hi
  {
    RunsFlat(ports);
    var runs := Runs(ports);
    forall r <- runs ensures lo <= r.first && r.last < hi {
      EndsInFlat(runs, r);
    }
  }

  lemma {:induction false} EndsInFlat(runs: seq<Range>, r: Range)
    requires AllUpTo(runs) && r in runs
    ensures r.first in Flat(runs) && r.last in Flat(runs)
  {
    var front, last := runs[..|runs| - 1], runs[|runs| - 1];
    assert runs == front + [last];
    if r == last {
      assert Span(r)[0] == r.first && Span(r)[r.last - r.first] == r.last;
    } else {
      EndsInFlat(front, r);
    }
  }

  // No entry mixes low and ephemeral ports, the low ones come first, and entries of a kind have
  // gaps between them.
  lemma {:induction false} LowPortsFirst(s: set<Port>) returns (k: nat)
    ensures k <= |Entries(s)|
    ensures forall r <- Entries(s)[..k] :: r.last < 32768
    ensures forall r <- Entries(s)[k..] :: 32768 <= r.first
    ensures Gaps(Entries(s)[..k]) && Gaps(Entries(s)[k..])
  {
    var low, high := Ascending(s, 0, EPHEMERAL_START), Ascending(s, EPHEMERAL_START, 0x1_0000);
    AscendingExact(s, 0, EPHEMERAL_START);
    AscendingExact(s, EPHEMERAL_START, 0x1_0000);
    RunsWithin(low, 0, EPHEMERAL_START);
    RunsWithin(high, EPHEMERAL_START, 0x1_0000);
    RunsGaps(low);
    RunsGaps(high);
    k := |Runs(low)|;
    assert Entries(s)[..k] == Runs(low) && Entries(s)[k..] == Runs(high);
  }

  // Reading the text back gives the entries kept, and they stand for all the ports exactly when
  // there were at most twenty.
  lemma {:induction false} ListenTextReadsBack(s: set<Port>)
    requires s != {}
    ensures |ListenText(s)| >= 2 && ListenText(s)[..2] == "L:"
    ensures ReadList(ListenText(s)[2..]) == Some(Kept(s)) && |Kept(s)| <= 20 && AllUpTo(Kept(s))
    ensures forall i :: 0 <= i < |Flat(Kept(s))| ==> Flat(Kept(s))[i] in s
    ensures (forall p <- s :: p in Flat(Kept(s))) <==> |Entries(s)| <= 20
  {
    KeptExact(s);
    SomethingListed(s);
    ReadJoined(Kept(s));
    assert ListenText(s)[2..] == Join(Kept(s));
  }

  lemma {:induction false} KeptExact(s: set<Port>)
    ensures AllUpTo(Kept(s))
    ensures forall i :: 0 <= i < |Flat(Kept(s))| ==> Flat(Kept(s))[i] in s
    ensures (forall p <- s :: p in Flat(Kept(s))) <==> |Entries(s)| <= 20
  {
    EntriesExact(s);
    AscendingExact(s, 0, 0x1_0000);
    var kept, rest := SplitKept(s);
    KeptPorts(s, kept, rest);
  }

  lemma {:induction false} SplitKept(s: set<Port>) returns (kept: seq<Range>, rest: seq<Range>)
    ensures kept == Kept(s) && AllUpTo(kept) && AllUpTo(rest)
    ensures Flat(kept) + Flat(rest) == Ascending(s, 0, 0x1_0000)
    ensures rest == [] <==> |Entries(s)| <= MAX_ENTRIES
  {
    EntriesExact(s);
    var entries := Entries(s);
    var n := if |entries| > MAX_ENTRIES then MAX_ENTRIES else |entries|;
    kept, rest := entries[..n], entries[n..];
    FlatConcat(kept, rest);
    assert entries == kept + rest;
  }

  lemma {:induction false} KeptPorts(s: set<Port>, kept: seq<Range>, rest: seq<Range>)
    requires AllUpTo(kept) && AllUpTo(rest)
    requires Increasing(Flat(kept) + Flat(rest)) && Lists(Flat(kept) + Flat(rest), s, 0, 0x1_0000)
    ensures forall i :: 0 <= i < |Flat(kept)| ==> Flat(kept)[i] in s
    ensures (forall p <- s :: p in Flat(kept)) <==> rest == []
  {
    var all := Flat(kept) + Flat(rest);
    forall i | 0 <= i < |Flat(kept)| ensures Flat(kept)[i] in s {
      assert all[i] == Flat(kept)[i];
    }
    if rest == [] {
      assert all == Flat(kept);
    } else {
      LeftOut(kept, rest);
      var j :| 0 <= j < |Flat(rest)| && Flat(rest)[j] == rest[0].first;
      assert all[|Flat(kept)| + j] == rest[0].first;
    }
  }

  lemma {:induction false} SomethingListed(s: set<Port>)
    requires s != {}
    ensures Kept(s) != []
  {
    EntriesExact(s);
    AscendingExact(s, 0, 0x1_0000);
    var p :| p in s;
    assert p in Flat(Entries(s));
  }

  // A port of an entry that was cut off is nowhere else.
  lemma {:induction false} LeftOut(kept: seq<Range>, rest: seq<Range>)
    requires AllUpTo(kept) && AllUpTo(rest) && rest != [] && Increasing(Flat(kept) + Flat(rest))
    ensures rest[0].first in Flat(rest) && rest[0].first !in Flat(kept)
  {
    EndsInFlat(rest, rest[0]);
    var all := Flat(kept) + Flat(rest);
    var j :| 0 <= j < |Flat(rest)| && Flat(rest)[j] == rest[0].first;
    assert all[|Flat(kept)| + j] == rest[0].first;
    forall i | 0 <= i < |Flat(kept)| ensures Flat(kept)[i] != rest[0].first {
      assert all[i] == Flat(kept)[i];
    }
  }

  // No two of the ports are consecutive.
  ghost predicate Apart(s: set<Port>) {
    forall p <- s :: p + 1 !in s
  }

  lemma {:induction false} RunsApart(ports: seq<nat>)
    requires forall i :: 0 < i < |ports| ==> ports[i] != ports[i - 1] + 1
    ensures |Runs(ports)| == |ports|
  {
    if ports != [] {
      var front, p := ports[..|ports| - 1], ports[|ports| - 1];
      RunsApart(front);
      RunsLast(front);
      assert front != [] ==> p != front[|front| - 1] + 1;
      PushPortApart(Runs(front), p);
    }
  }

  lemma {:induction false} PushPortApart(runs: seq<Range>, p: nat)
    requires runs != [] ==> p != runs[|runs| - 1].last + 1
    ensures |PushPort(runs, p)| == |runs| + 1
  {
  }

  lemma {:induction false} AscendingApart(s: set<Port>, lo: nat, hi: nat)
    requires Apart(s) && lo <= hi
    ensures |Runs(Ascending(s, lo, hi))| == |Ascending(s, lo, hi)|
  {
    AscendingExact(s, lo, hi);
    var a := Ascending(s, lo, hi);
    forall i | 0 < i < |a| ensures a[i] != a[i - 1] + 1 {
      assert a[i - 1] in s && a[i] in s;
    }
    RunsApart(a);
  }

  lemma {:induction false} IncreasingSize(a: seq<nat>, s: set<Port>)
    requires Increasing(a) && Lists(a, s, 0, 0x1_0000)
    ensures |a| == |s|
  {
    if a == [] {
      assert s == {};
    } else {
      var front, last := a[..|a| - 1], a[|a| - 1];
      assert a == front + [last];
      IncreasingSize(front, s - {last});
    }
  }

  // Ports that are apart need an entry each, so more than twenty of them are not all listed.
  lemma {:induction false} ApartPortsAreCut(s: set<Port>)
    requires Apart(s) && s != {}
    ensures |Entries(s)| == |s|
    ensures (forall p <- s :: p in Flat(Kept(s))) <==> |s| <= 20
  {
    AscendingApart(s, 0, EPHEMERAL_START);
    AscendingApart(s, EPHEMERAL_START, 0x1_0000);
    AscendingSplit(s, 0, EPHEMERAL_START, 0x1_0000);
    AscendingExact(s, 0, 0x1_0000);
    IncreasingSize(Ascending(s, 0, 0x1_0000), s);
    ListenTextReadsBack(s);
  }

  // The even ports up to 2n.
  function Evens(n: nat): set<Port>
    requires n < 100
  {
    if n == 0 then {} else Evens(n - 1) + {2 * n}
  }

  lemma {:induction false} EvensEven(n: nat)
    requires n < 100
    ensures forall p <- Evens(n) :: p % 2 == 0 && p <= 2 * n
  {
    if n > 0 {
      EvensEven(n - 1);
    }
  }

  lemma {:induction false} EvensSize(n: nat)
    requires n < 100
    ensures |Evens(n)| == n
  {
    if n > 0 {
      EvensSize(n - 1);
      EvensEven(n - 1);
      assert 2 * n !in Evens(n - 1);
    }
  }

  // Such as the 21 ports 2, 4, ..., 42, or more of them: some port is missing from the text.
  lemma {:induction false} TooManyPorts(n: nat) returns (p: Port)
    requires 21 <= n < 100
    ensures p in Evens(n) && p !in Flat(Kept(Evens(n)))
  {
    EvensEven(n);
    EvensSize(n);
    assert Apart(Evens(n));
    ApartPortsAreCut(Evens(n));
    p :| p in Evens(n) && p !in Flat(Kept(Evens(n)));
  }

  // ---------- The whole text of a host-network container ----------

  // Whether it runs a Ray node, and the worker's head node if known.
  datatype Role = NoRole | Head | Worker(head: string)

  function RoleText(role: Role): string {
    match role
    case NoRole => ""
    case Head => "R:head"
    case Worker(head) => if head == "" then "R:worker" else "R:worker=" + head
  }

  function ContainerText(role: Role, s: set<Port>): string {
    var r, l := RoleText(role), ListenText(s);
    if r == "" then l else if l == "" then r else r + (";" + l)
  }

  predicate IsListenPortMap(text: string) {
    text == "host" || "L:" <= text || "R:" <= text
  }

  // Everything before and after the first semicolon.
  function FirstPart(text: string): string {
    if text == "" || text[0] == ';' then "" else [text[0]] + FirstPart(text[1..])
  }

  function AfterFirst(text: string): string {
    if text == "" then "" else if text[0] == ';' then text[1..] else AfterFirst(text[1..])
  }

  lemma {:induction false} FirstPartOf(part: string, rest: string)
    requires ';' !in part
    ensures FirstPart(part) == part && AfterFirst(part) == ""
    ensures FirstPart(part + (";" + rest)) == part && AfterFirst(part + (";" + rest)) == rest
  {
    var text := part + (";" + rest);
    if part != "" {
      FirstPartOf(part[1..], rest);
      assert text[1..] == part[1..] + (";" + rest);
      assert part == [part[0]] + part[1..];
    } else {
      assert text[1..] == rest;
    }
  }

  function ReadRole(part: string): Role {
    if part == "R:head" then Head
    else if "R:worker=" <= part then Worker(part[9..])
    else Worker("")
  }

  // What a reader makes of the text: the role and the listening ports' own text.
  function ReadContainer(text: string): (Role, string) {
    if "R:" <= text then (ReadRole(FirstPart(text)), AfterFirst(text)) else (NoRole, text)
  }

  lemma {:induction false} RoleReadsBack(role: Role)
    requires !role.NoRole?
    ensures ReadRole(RoleText(role)) == role && "R:" <= RoleText(role)
    ensures ';' !in RoleText(role) <==> !(role.Worker? && ';' in role.head)
  {
    var r := RoleText(role);
    assert r[..2] == "R:";
    if role.Worker? && role.head != "" {
      assert r == "R:worker=" + role.head && r[9..] == role.head;
    }
  }

  lemma {:induction false} ListenTextIsNoRole(s: set<Port>)
    ensures !("R:" <= ListenText(s))
  {
    if s != {} {
      assert ListenText(s)[0] == 'L' && "R:"[0] == 'R';
    }
  }

  // Role and ports are both read back, if the head node's name has no semicolon.
  lemma {:induction false} ContainerTextReadsBack(role: Role, s: set<Port>)
    requires role.Worker? ==> ';' !in role.head
    ensures ReadContainer(ContainerText(role, s)) == (role, ListenText(s))
  {
    ListenTextIsNoRole(s);
    if !role.NoRole? {
      RoleReadsBack(role);
      StartReadsBack(RoleText(role), ListenText(s), ContainerText(role, s));
    }
  }

  lemma {:induction false} StartReadsBack(r: string, l: string, text: string)
    requires "R:" <= r && ';' !in r && text == if l == "" then r else r + (";" + l)
    ensures ReadContainer(text) == (ReadRole(r), l)
  {
    FirstPartOf(r, l);
    assert text[..2] == r[..2];
  }

  // The words for a role; no head node, no equals sign.
  lemma {:induction false} RoleWords(head: string)
    ensures ContainerText(Head, {}) == "R:head" && ContainerText(Worker(""), {}) == "R:worker"
    ensures head != "" ==> ContainerText(Worker(head), {}) == "R:worker=" + head
    ensures ContainerText(NoRole, {}) == ""
  {
  }

  // No other text is taken for one of these, such as a list of published ports, which starts with
  // a digit or with an address.
  lemma {:induction false} OthersAreNotRecognized(text: string)
    ensures IsListenPortMap("host") && !IsListenPortMap("")
    ensures text != "host" && |text| >= 2 && (text[0] !in {'L', 'R'} || text[1] != ':') ==> !IsListenPortMap(text)
    ensures |text| >= 2 && text[0] in {'L', 'R'} && text[1] == ':' ==> IsListenPortMap(text)
  {
    assert "L:"[0] == 'L' && "L:"[1] == ':' && "R:"[0] == 'R' && "R:"[1] == ':';
    if |text| >= 2 && text[1] == ':' {
      assert text[..2] == [text[0], ':'];
    }
  }

  // A port listens if it is in the list and is not zero.
  lemma {:induction false} ListeningMeaning(ports: seq<Port>, p: Port)
    ensures p in Listening(ports) <==> p in ports && p > 0
  {
  }

  // Everything written for a host-network container is recognized when its statistics are reused,
  // and says nothing exactly when there is nothing to say.
  lemma {:induction false} OwnTextIsRecognized(role: Role, s: set<Port>)
    ensures ContainerText(role, s) == "" <==> role.NoRole? && s == {}
    ensures ContainerText(role, s) != "" ==> IsListenPortMap(ContainerText(role, s))
  {
    var text := ContainerText(role, s);
    if s != {} {
      assert ListenText(s)[..2] == "L:";
    }
    if role.Worker? && role.head != "" {
      assert RoleText(role)[..2] == "R:";
    }
    if !role.NoRole? {
      assert RoleText(role)[..2] == "R:";
      assert text[..2] == "R:";
    }
  }
}
