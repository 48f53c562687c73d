/** Published ports of a container as ranges: deduplication, sorting, merging in place, and what the
    ranges then stand for. */
module PortMap {
  type Port = p: nat | p < 0x1_0000

  datatype ApiPort = ApiPort(ip: string, kind: string, publicPort: Port, privatePort: Port)

  // One published port, and a range of them with consecutive host and container ports.
  datatype Single = Single(ip: string, proto: string, host: Port, ctr: Port)

  datatype Mapping = Mapping(ip: string, proto: string, hostFirst: Port, hostLast: Port, ctrFirst: Port, ctrLast: Port)

  function Lone(s: Single): Mapping {
    Mapping(s.ip, s.proto, s.host, s.host, s.ctr, s.ctr)
  }

  function Lones(s: seq<Single>): seq<Mapping> {
    seq(|s|, i requires 0 <= i < |s| => Lone(s[i]))
  }

  // ---------- Sorting ----------

  // Insertion after the elements that are not greater keeps equal ones in order.
  function Insert<T>(x: T, s: seq<T>, less: (T, T) -> bool): seq<T> {
    if s == [] then [x]
    else if less(x, s[|s| - 1]) then Insert(x, s[..|s| - 1], less) + [s[|s| - 1]]
    else s + [x]
  }

  function SortBy<T>(s: seq<T>, less: (T, T) -> bool): seq<T> {
    if s == [] then [] else Insert(s[|s| - 1], SortBy(s[..|s| - 1], less), less)
  }

  ghost predicate Ordered<T>(s: seq<T>, less: (T, T) -> bool) {
    forall i, j :: 0 <= i < j < |s| ==> !less(s[j], s[i])
  }

  // A strict weak order.
  ghost predicate Orders<T(!new)>(less: (T, T) -> bool) {
    && (forall a, b :: less(a, b) ==> !less(b, a))
    && (forall a, b, c :: less(a, c) ==> less(a, b) || less(b, c))
  }

  lemma {:induction false} InsertSorts<T(!new)>(x: T, s: seq<T>, less: (T, T) -> bool)
    requires Orders(less) && Ordered(s, less)
    ensures Ordered(Insert(x, s, less), less)
    ensures multiset(Insert(x, s, less)) == multiset(s) + multiset{x}
  {
    if s != [] {
      var front, last := s[..|s| - 1], s[|s| - 1];
      assert s == front + [last];
      if less(x, last) {
        InsertSorts(x, front, less);
        var r := Insert(x, front, less);
        forall y <- r ensures !less(last, y) {
          assert y in multiset(r);
          assert y == x || y in front;
        }
        OrderedPush(r, last, less);
      } else {
        forall y <- s ensures !less(x, y) {
          assert y == last || y in front;
          assert !less(last, y);
        }
        OrderedPush(s, x, less);
      }
    }
  }

  lemma {:induction false} OrderedPush<T>(s: seq<T>, x: T, less: (T, T) -> bool)
    requires Ordered(s, less) && forall y <- s :: !less(x, y)
    ensures Ordered(s + [x], less)
  {
  }

  lemma {:induction false} SortBySorts<T(!new)>(s: seq<T>, less: (T, T) -> bool)
    requires Orders(less)
    ensures Ordered(SortBy(s, less), less)
    ensures multiset(SortBy(s, less)) == multiset(s)
  {
    if s != [] {
      SortBySorts(s[..|s| - 1], less);
      InsertSorts(s[|s| - 1], SortBy(s[..|s| - 1], less), less);
      assert s == s[..|s| - 1] + [s[|s| - 1]];
    }
  }

  function Those<T>(s: seq<T>, p: T -> bool): seq<T> {
    if s == [] then []
    else
      var n := |s| - 1;
      if p(s[n]) then Those(s[..n], p) + [s[n]] else Those(s[..n], p)
  }

  lemma {:induction false} ThoseAppend<T>(s: seq<T>, x: T, p: T -> bool)
    ensures Those(s + [x], p) == if p(x) then Those(s, p) + [x] else Those(s, p)
  {
    assert (s + [x])[..|s|] == s;
  }

  lemma {:induction false} InsertKeepsOrder<T>(x: T, s: seq<T>, less: (T, T) -> bool, p: T -> bool)
    requires forall a, b :: p(a) && p(b) ==> !less(a, b)
    ensures Those(Insert(x, s, less), p) == Those(s + [x], p)
  {
    ThoseAppend(s, x, p);
    if s != [] && less(x, s[|s| - 1]) {
      var front, last := s[..|s| - 1], s[|s| - 1];
      InsertKeepsOrder(x, front, less, p);
      ThoseAppend(front, x, p);
      ThoseAppend(Insert(x, front, less), last, p);
    }
  }

  // Sorting is stable: elements of which none is less than another stay in their order.
  lemma {:induction false} SortKeepsOrder<T>(s: seq<T>, less: (T, T) -> bool, p: T -> bool)
    requires forall a, b :: p(a) && p(b) ==> !less(a, b)
    ensures Those(SortBy(s, less), p) == Those(s, p)
  {
    if s != [] {
      var front, last := s[..|s| - 1], s[|s| - 1];
      SortKeepsOrder(front, less, p);
      InsertKeepsOrder(last, SortBy(front, less), less, p);
      ThoseAppend(SortBy(front, less), last, p);
    }
  }

  // Text in byte order.
  predicate TextLess(a: string, b: string) {
    b != [] && (a == [] || a[0] < b[0] || (a[0] == b[0] && TextLess(a[1..], b[1..])))
  }

  lemma {:induction false} TextLessOrders(a: string, b: string, c: string)
    ensures TextLess(a, b) ==> !TextLess(b, a)
    ensures TextLess(a, c) ==> TextLess(a, b) || TextLess(b, c)
    ensures TextLess(a, b) || TextLess(b, a) || a == b
    decreases |a| + |b| + |c|
  {
    if a != [] && b != [] {
      if c != [] {
        TextLessOrders(a[1..], b[1..], c[1..]);
      } else {
        TextLessOrders(a[1..], b[1..], []);
      }
      assert a == [a[0]] + a[1..] && b == [b[0]] + b[1..];
    }
  }

  predicate SingleLess(a: Single, b: Single) {
    if a.ip != b.ip then TextLess(a.ip, b.ip)
    else if a.proto != b.proto then TextLess(a.proto, b.proto)
    else if a.host != b.host then a.host < b.host
    else a.ctr < b.ctr
  }

  lemma {:induction false} SingleLessOrders()
    ensures Orders(SingleLess)
    ensures forall a, b :: SingleLess(a, b) || SingleLess(b, a) || a == b
  {
    forall a: Single, b: Single
      ensures SingleLess(a, b) ==> !SingleLess(b, a)
      ensures SingleLess(a, b) || SingleLess(b, a) || a == b
    {
      TextLessOrders(a.ip, b.ip, b.ip);
      TextLessOrders(a.proto, b.proto, b.proto);
    }
    forall a: Single, b: Single, c: Single | SingleLess(a, c) ensures SingleLess(a, b) || SingleLess(b, c) {
      TextLessOrders(a.ip, b.ip, c.ip);
      TextLessOrders(b.ip, c.ip, a.ip);
      TextLessOrders(a.proto, b.proto, c.proto);
      TextLessOrders(b.proto, c.proto, a.proto);
    }
  }

  predicate HostLess(a: Mapping, b: Mapping) {
    a.hostFirst < b.hostFirst
  }

  // ---------- Merging ----------

  // The mapping `m` continues the range `last`.
  predicate Continues(last: Mapping, m: Mapping) {
    && m.ip == last.ip && m.proto == last.proto
    && m.hostFirst == last.hostLast + 1 && m.ctrFirst == last.ctrLast + 1
  }

  function Push(merged: seq<Mapping>, m: Mapping): seq<Mapping> {
    if merged == [] then [m]
    else
      var last := merged[|merged| - 1];
      if Continues(last, m) then merged[..|merged| - 1] + [last.(hostLast := m.hostLast, ctrLast := m.ctrLast)]
      else merged + [m]
  }

  function Merged(ms: seq<Mapping>): seq<Mapping> {
    if ms == [] then [] else Push(Merged(ms[..|ms| - 1]), ms[|ms| - 1])
  }

  lemma {:induction false} MergedOneMore(ms: seq<Mapping>, i: nat)
    requires i < |ms|
    ensures Merged(ms[..i + 1]) == Push(Merged(ms[..i]), ms[i])
  {
    assert ms[..i + 1][..i] == ms[..i];
  }

  // Pushes onto the first `n` elements, overwriting at most the next one.
  method PushOnto(a: array<Mapping>, n: nat, m: Mapping) returns (n': nat)
    requires 0 < n < a.Length
    modifies a
    ensures n' <= n + 1 && n' > 0 && a[..n'] == Push(old(a[..n]), m)
    ensures forall k :: n < k < a.Length ==> a[k] == old(a[k])
  {
    ghost var merged := a[..n];
    var last := a[n - 1];
    if Continues(last, m) {
      a[n - 1] := last.(hostLast := m.hostLast, ctrLast := m.ctrLast);
      n' := n;
      assert a[..n] == merged[..n - 1] + [a[n - 1]];
    } else {
      a[n] := m;
      n' := n + 1;
      assert a[..n'] == merged + [m];
    }
  }

  // Compacts the array in place. The write position never passes the read position, so no
  // element is overwritten before it is read.
  method MergeInPlace(a: array<Mapping>) returns (n: nat)
    requires a.Length > 0
    modifies a
    ensures n <= a.Length && a[..n] == Merged(old(a[..]))
  {
    n := 1;
    ghost var was := a[..];
    MergedOneMore(was, 0);
    assert a[..1] == [was[0]];
    for read := 1 to a.Length
      invariant 1 <= n <= read
      invariant forall k :: read <= k < a.Length ==> a[k] == was[k]
      invariant a[..n] == Merged(was[..read])
    {
      MergedOneMore(was, read);
      n := PushOnto(a, n, a[read]);
    }
    assert was[..a.Length] == was;
  }

  // ---------- What ranges stand for ----------

  predicate SameWidth(m: Mapping) {
    m.hostFirst <= m.hostLast && m.hostLast - m.hostFirst == m.ctrLast - m.ctrFirst
  }

  function Expand(m: Mapping): seq<Single>
    requires SameWidth(m)
  {
    seq(m.hostLast - m.hostFirst + 1, i requires 0 <= i <= m.hostLast - m.hostFirst =>
      Single(m.ip, m.proto, m.hostFirst + i, m.ctrFirst + i))
  }

  ghost predicate SameWidths(ms: seq<Mapping>) {
    forall m <- ms :: SameWidth(m)
  }

  function ExpandAll(ms: seq<Mapping>): seq<Single>
    requires SameWidths(ms)
  {
    if ms == [] then [] else ExpandAll(ms[..|ms| - 1]) + Expand(ms[|ms| - 1])
  }

  lemma {:induction false} PushExpands(merged: seq<Mapping>, s: Single, before: seq<Single>)
    requires SameWidths(merged) && ExpandAll(merged) == before
    ensures SameWidths(Push(merged, Lone(s)))
    ensures ExpandAll(Push(merged, Lone(s))) == before + [s]
  {
    var pushed := Push(merged, Lone(s));
    if merged != [] && Continues(merged[|merged| - 1], Lone(s)) {
      var front, last := merged[..|merged| - 1], merged[|merged| - 1];
      assert last in merged;
      var longer := last.(hostLast := s.host, ctrLast := s.ctr);
      assert pushed[..|pushed| - 1] == front && pushed[|pushed| - 1] == longer;
      assert Expand(longer) == Expand(last) + [s];
    } else {
      assert pushed == merged + [Lone(s)] && pushed[..|pushed| - 1] == merged;
      assert Expand(Lone(s)) == [s];
    }
  }

  // The ranges of a list of singles.
  function Ranges(s: seq<Single>): seq<Mapping> {
    if s == [] then [] else Push(Ranges(s[..|s| - 1]), Lone(s[|s| - 1]))
  }

  lemma {:induction false} MergedLones(s: seq<Single>)
    ensures Merged(Lones(s)) == Ranges(s)
  {
    if s != [] {
      assert Lones(s)[..|s| - 1] == Lones(s[..|s| - 1]);
      MergedLones(s[..|s| - 1]);
    }
  }

  lemma {:induction false} RangesPush(s: seq<Single>, merged: seq<Mapping>)
    requires s != [] && merged == Ranges(s[..|s| - 1])
    ensures Ranges(s) == Push(merged, Lone(s[|s| - 1])) && s == s[..|s| - 1] + [s[|s| - 1]]
  {
  }

  // Expanding the ranges gives back exactly the singles, in order, and every range is as wide on
  // the host as in the container.
  lemma {:induction false} RangesExpand(s: seq<Single>)
    ensures SameWidths(Ranges(s)) && ExpandAll(Ranges(s)) == s
  {
    if s != [] {
      var front, last := s[..|s| - 1], s[|s| - 1];
      var merged := Ranges(front);
      RangesExpand(front);
      PushExpands(merged, last, front);
      RangesPush(s, merged);
    }
  }

  // Neighbouring ranges never continue one another.
  ghost predicate Broken(ms: seq<Mapping>) {
    forall i :: 0 < i < |ms| ==> !Continues(ms[i - 1], ms[i])
  }

  lemma {:induction false} RangesBroken(s: seq<Single>)
    ensures Broken(Ranges(s))
  {
    if s != [] {
      RangesBroken(s[..|s| - 1]);
    }
  }

  // ---------- When ranges are as long as they can be ----------

  // No range continues another, wherever they stand.
  ghost predicate Maximal(ms: seq<Mapping>) {
    forall i, j :: 0 <= i < |ms| && 0 <= j < |ms| ==> !Continues(ms[i], ms[j])
  }

  predicate Follows(l: Single, m: Single) {
    m.ip == l.ip && m.proto == l.proto && m.host == l.host + 1 && m.ctr == l.ctr + 1
  }

  // `x` shares a host port with one of two consecutive singles, and sorts between them.
  predicate Between(l: Single, x: Single, m: Single) {
    x.ip == l.ip && x.proto == l.proto && ((x.host == l.host && x.ctr > l.ctr) || (x.host == m.host && x.ctr < m.ctr))
  }

  ghost predicate Crowded(s: set<Single>) {
    exists l, x, m :: l in s && x in s && m in s && Follows(l, m) && Between(l, x, m)
  }

  // The position of a range's first single.
  function Start(ms: seq<Mapping>, i: nat): nat
    requires SameWidths(ms) && i <= |ms|
  {
    |ExpandAll(ms[..i])|
  }

  lemma {:induction false} ExpandSplit(ms: seq<Mapping>, i: nat)
    requires SameWidths(ms) && i < |ms|
    ensures Start(ms, i + 1) == Start(ms, i) + |Expand(ms[i])|
    ensures ExpandAll(ms[..i + 1]) == ExpandAll(ms[..i]) + Expand(ms[i])
    ensures ExpandAll(ms[..i + 1]) <= ExpandAll(ms)
    decreases |ms| - i
  {
    assert ms[..i + 1][..i] == ms[..i];
    if i + 1 == |ms| {
      assert ms[..i + 1] == ms;
    } else {
      ExpandSplit(ms, i + 1);
    }
  }

  // A range's singles stand at its place among all.
  lemma {:induction false} SinglesOfRange(ms: seq<Mapping>, i: nat, k: nat)
    requires SameWidths(ms) && i < |ms| && k < |Expand(ms[i])|
    ensures Start(ms, i) + k < |ExpandAll(ms)| && ExpandAll(ms)[Start(ms, i) + k] == Expand(ms[i])[k]
  {
    ExpandSplit(ms, i);
    var upto := ExpandAll(ms[..i + 1]);
    assert upto[Start(ms, i) + k] == Expand(ms[i])[k];
  }

  lemma {:induction false} StartsGrow(ms: seq<Mapping>, i: nat, j: nat)
    requires SameWidths(ms) && i < j <= |ms|
    ensures Start(ms, i) < Start(ms, j)
    decreases j - i
  {
    ExpandSplit(ms, i);
    assert ms[i] in ms;
    if i + 1 < j {
      StartsGrow(ms, i + 1, j);
    }
  }

  // Where a single stands: its range and its place there.
  lemma {:induction false} RangeOfSingle(ms: seq<Mapping>, p: nat) returns (i: nat, k: nat)
    requires SameWidths(ms) && p < |ExpandAll(ms)|
    ensures i < |ms| && k < |Expand(ms[i])| && p == Start(ms, i) + k
    decreases |ms|
  {
    var n := |ms| - 1;
    var front := ms[..n];
    assert ms == front + [ms[n]];
    if p < |ExpandAll(front)| {
      i, k := RangeOfSingle(front, p);
      assert ms[..i] == front[..i];
    } else {
      i, k := n, p - |ExpandAll(front)|;
    }
  }

  ghost predicate Distinct<T>(s: seq<T>) {
    forall i, j :: 0 <= i < j < |s| ==> s[i] != s[j]
  }

  ghost predicate Canonical(s: seq<Single>) {
    Ordered(s, SingleLess) && Distinct(s)
  }

  lemma {:induction false} LessMeansBefore(s: seq<Single>, p: nat, q: nat)
    requires Canonical(s) && p < |s| && q < |s|
    ensures SingleLess(s[p], s[q]) <==> p < q
  {
    SingleLessOrders();
    if p < q {
      assert !SingleLess(s[q], s[p]) && s[p] != s[q];
    } else if q < p {
      assert !SingleLess(s[p], s[q]);
    }
  }

  // What sorts between two consecutive singles shares a host port with one of them.
  lemma {:induction false} BetweenIsBetween(l: Single, x: Single, m: Single)
    requires Follows(l, m)
    ensures Between(l, x, m) <==> SingleLess(l, x) && SingleLess(x, m)
  {
    TextLessOrders(l.ip, x.ip, l.ip);
    TextLessOrders(l.proto, x.proto, l.proto);
  }

  // Unless the input is crowded, consecutive singles are neighbours.
  lemma {:induction false} ConsecutiveAreNeighbours(s: seq<Single>, p: nat, q: nat)
    requires Canonical(s) && p < |s| && q < |s| && Follows(s[p], s[q])
    ensures p < q && (q == p + 1 || Crowded(set x <- s))
  {
    LessMeansBefore(s, p, q);
    if q > p + 1 {
      LessMeansBefore(s, p, p + 1);
      LessMeansBefore(s, p + 1, q);
      BetweenIsBetween(s[p], s[p + 1], s[q]);
      assert s[p] in s && s[p + 1] in s && s[q] in s;
    }
  }

  // The ranges of a list: they expand to it, and no two neighbours belong together.
  ghost predicate Cover(ms: seq<Mapping>, s: seq<Single>) {
    SameWidths(ms) && ExpandAll(ms) == s && Broken(ms)
  }

  lemma {:induction false} RangesCover(s: seq<Single>)
    ensures Cover(Ranges(s), s)
  {
    RangesExpand(s);
    RangesBroken(s);
  }

  // The last single of a range and the first of one that continues it.
  lemma {:induction false} ContinuingSingles(ms: seq<Mapping>, s: seq<Single>, i: nat, j: nat)
    requires Cover(ms, s) && i < |ms| && j < |ms| && Continues(ms[i], ms[j])
    ensures Start(ms, i) < Start(ms, i + 1) <= |s| && Start(ms, j) < |s|
    ensures Follows(s[Start(ms, i + 1) - 1], s[Start(ms, j)])
  {
    assert ms[i] in ms && ms[j] in ms;
    ExpandSplit(ms, i);
    SinglesOfRange(ms, i, |Expand(ms[i])| - 1);
    SinglesOfRange(ms, j, 0);
  }

  lemma {:induction false} NotMaximalIsCrowded(ms: seq<Mapping>, s: seq<Single>, i: nat, j: nat)
    requires Canonical(s) && Cover(ms, s) && i < |ms| && j < |ms| && Continues(ms[i], ms[j])
    ensures Crowded(set x <- s)
  {
    ContinuingSingles(ms, s, i, j);
    ConsecutiveAreNeighbours(s, Start(ms, i + 1) - 1, Start(ms, j));
    if Start(ms, j) == Start(ms, i + 1) {
      SameStart(ms, i + 1, j);
    }
  }

  lemma {:induction false} SameStart(ms: seq<Mapping>, i: nat, j: nat)
    requires SameWidths(ms) && i <= |ms| && j <= |ms| && Start(ms, i) == Start(ms, j)
    ensures i == j
  {
    if i < j {
      StartsGrow(ms, i, j);
    } else if j < i {
      StartsGrow(ms, j, i);
    }
  }

  // A single followed by something else ends its range.
  lemma {:induction false} EndsRange(ms: seq<Mapping>, s: seq<Single>, p: nat, i: nat, k: nat, m: Single)
    requires SameWidths(ms) && ExpandAll(ms) == s && Distinct(s) && p < |s|
    requires i < |ms| && ms[i] in ms && k < |Expand(ms[i])| && p == Start(ms, i) + k
    requires Follows(s[p], m) && (p + 1 < |s| ==> s[p + 1] != m)
    ensures ms[i].hostLast == s[p].host && ms[i].ctrLast == s[p].ctr && ms[i].ip == s[p].ip && ms[i].proto == s[p].proto
  {
    SinglesOfRange(ms, i, k);
    if k + 1 < |Expand(ms[i])| {
      SinglesOfRange(ms, i, k + 1);
    }
  }

  lemma {:induction false} BeginsRange(ms: seq<Mapping>, s: seq<Single>, q: nat, j: nat, k: nat, l: Single)
    requires SameWidths(ms) && ExpandAll(ms) == s && Distinct(s) && q < |s|
    requires j < |ms| && ms[j] in ms && k < |Expand(ms[j])| && q == Start(ms, j) + k
    requires Follows(l, s[q]) && (q > 0 ==> s[q - 1] != l)
    ensures ms[j].hostFirst == s[q].host && ms[j].ctrFirst == s[q].ctr && ms[j].ip == s[q].ip && ms[j].proto == s[q].proto
  {
    SinglesOfRange(ms, j, k);
    if k > 0 {
      SinglesOfRange(ms, j, k - 1);
    }
  }

  lemma {:induction false} ApartIsNotMaximal(ms: seq<Mapping>, s: seq<Single>, p: nat, q: nat)
    requires Cover(ms, s) && Distinct(s) && p + 1 < q < |s| && Follows(s[p], s[q])
    ensures !Maximal(ms)
  {
    var i, k := RangeOfSingle(ms, p);
    var j, k' := RangeOfSingle(ms, q);
    assert ms[i] in ms && ms[j] in ms;
    EndsRange(ms, s, p, i, k, s[q]);
    BeginsRange(ms, s, q, j, k', s[p]);
    assert Continues(ms[i], ms[j]);
  }

  lemma {:induction false} CrowdedIsNotMaximal(ms: seq<Mapping>, s: seq<Single>)
    requires Canonical(s) && Cover(ms, s) && Crowded(set x <- s)
    ensures !Maximal(ms)
  {
    var l, x, m :| l in s && x in s && m in s && Follows(l, m) && Between(l, x, m);
    var p :| 0 <= p < |s| && s[p] == l;
    var r :| 0 <= r < |s| && s[r] == x;
    var q :| 0 <= q < |s| && s[q] == m;
    BetweenIsBetween(l, x, m);
    LessMeansBefore(s, p, r);
    LessMeansBefore(s, r, q);
    ApartIsNotMaximal(ms, s, p, q);
  }

  // Ranges are as long as they can be exactly when the input is not crowded.
  lemma {:induction false} MaximalIffNotCrowded(s: seq<Single>)
    requires Canonical(s)
    ensures Maximal(Ranges(s)) <==> !Crowded(set x <- s)
  {
    RangesCover(s);
    var ms := Ranges(s);
    if Crowded(set x <- s) {
      CrowdedIsNotMaximal(ms, s);
    } else if !Maximal(ms) {
      var i, j :| 0 <= i < |ms| && 0 <= j < |ms| && Continues(ms[i], ms[j]);
      NotMaximalIsCrowded(ms, s, i, j);
    }
  }

  // In particular when every host port is published once per address and protocol.
  lemma {:induction false} UniqueHostPortsNotCrowded(s: set<Single>)
    requires forall a, b :: a in s && b in s && a.ip == b.ip && a.proto == b.proto && a.host == b.host ==> a == b
    ensures !Crowded(s)
  {
  }

  // ---------- The published ports of a container ----------

  // The wildcard addresses are one, and TCP is the default.
  function Normalized(p: ApiPort): Single {
    Single(if p.ip == "0.0.0.0" || p.ip == "::" then "" else p.ip, if p.kind == "" then "tcp" else p.kind,
           p.publicPort, p.privatePort)
  }

  function Published(ports: seq<ApiPort>): set<Single> {
    set p <- ports | p.publicPort != 0 :: Normalized(p)
  }

  predicate IsWildcard(ip: string) {
    ip == "" || ip == "0.0.0.0" || ip == "::"
  }

  // A binding stands in the listing with its own ports, its address unless it is a wildcard, and
  // its protocol, TCP if none is given; unpublished ports do not.
  lemma {:induction false} PublishedMeaning(ports: seq<ApiPort>, x: Single)
    ensures x in Published(ports) <==>
            exists p <- ports ::
              && p.publicPort != 0 && x.host == p.publicPort && x.ctr == p.privatePort
              && (x.ip == p.ip || (x.ip == "" && IsWildcard(p.ip))) && (IsWildcard(x.ip) ==> x.ip == "")
              && (x.proto == p.kind || (x.proto == "tcp" && p.kind == "")) && x.proto != ""
  {
    if x in Published(ports) {
      var p :| p in ports && p.publicPort != 0 && Normalized(p) == x;
    }
    forall p <- ports | (p.publicPort != 0 && x.host == p.publicPort && x.ctr == p.privatePort
                         && (x.ip == p.ip || (x.ip == "" && IsWildcard(p.ip))) && (IsWildcard(x.ip) ==> x.ip == "")
                         && (x.proto == p.kind || (x.proto == "tcp" && p.kind == "")) && x.proto != "")
      ensures x in Published(ports)
    {
      assert Normalized(p) == x;
    }
  }

  // A host port published on both wildcard addresses can break up a range: 1 to 1, 1 to 5 and 2 to 2
  // stay apart, although the first and the last are consecutive.
  lemma {:induction false} CrowdedExample(s: seq<Single>) returns (ports: seq<ApiPort>)
    ensures ports == [ApiPort("0.0.0.0", "tcp", 1, 1), ApiPort("::", "tcp", 1, 5), ApiPort("0.0.0.0", "tcp", 2, 2)]
    ensures Crowded(Published(ports))
    ensures Canonical(s) && (set x <- s) == Published(ports) ==> !Maximal(Ranges(s))
  {
    ports := [ApiPort("0.0.0.0", "tcp", 1, 1), ApiPort("::", "tcp", 1, 5), ApiPort("0.0.0.0", "tcp", 2, 2)];
    var l, x, m := Single("", "tcp", 1, 1), Single("", "tcp", 1, 5), Single("", "tcp", 2, 2);
    assert Normalized(ports[0]) == l && Normalized(ports[1]) == x && Normalized(ports[2]) == m;
    var published := Published(ports);
    assert l in published && x in published && m in published && Follows(l, m) && Between(l, x, m);
    if Canonical(s) && (set y <- s) == published {
      MaximalIffNotCrowded(s);
    }
  }

  // Whether ranges are as long as they can be does not depend on their order.
  lemma {:induction false} MaximalReordered(ms: seq<Mapping>, ms': seq<Mapping>)
    requires multiset(ms) == multiset(ms')
    ensures Maximal(ms) ==> Maximal(ms')
  {
    forall i, j | 0 <= i < |ms'| && 0 <= j < |ms'| && Maximal(ms) ensures !Continues(ms'[i], ms'[j]) {
      assert ms'[i] in multiset(ms) && ms'[j] in multiset(ms);
      assert ms'[i] in ms && ms'[j] in ms;
    }
  }

  method Singles(ports: seq<ApiPort>) returns (singles: seq<Single>)
    ensures Distinct(singles) && (set x <- singles) == Published(ports)
  {
    singles := [];
    var seen: set<Single> := {};
    for i := 0 to |ports|
      invariant Distinct(singles) && seen == (set x <- singles) && seen == Published(ports[..i])
    {
      assert ports[..i + 1] == ports[..i] + [ports[i]];
      assert Published(ports[..i + 1]) == Published(ports[..i]) + Published([ports[i]]);
      assert Published([ports[i]]) == if ports[i].publicPort == 0 then {} else {Normalized(ports[i])};
      if ports[i].publicPort != 0 {
        var m := Normalized(ports[i]);
        if m !in seen {
          seen := seen + {m};
          assert (set x <- singles + [m]) == (set x <- singles) + {m};
          singles := singles + [m];
        }
      }
    }
    assert ports[..|ports|] == ports;
  }

  lemma {:induction false} SortedIsCanonical(singles: seq<Single>)
    requires Distinct(singles)
    ensures Canonical(SortBy(singles, SingleLess)) && (set x <- SortBy(singles, SingleLess)) == set x <- singles
  {
    SingleLessOrders();
    var sorted := SortBy(singles, SingleLess);
    SortBySorts(singles, SingleLess);
    forall x ensures x in sorted <==> x in singles {
      assert x in sorted <==> x in multiset(sorted);
    }
    forall i, j | 0 <= i < j < |sorted| ensures sorted[i] != sorted[j] {
      SameOnce(singles, sorted, i, j);
    }
  }

  lemma {:induction false} DistinctOnce<T>(s: seq<T>, x: T)
    requires Distinct(s)
    ensures multiset(s)[x] <= 1
  {
    if s != [] {
      var front, last := s[..|s| - 1], s[|s| - 1];
      DistinctOnce(front, x);
      assert s == front + [last];
      if x == last {
        assert x !in front;
      }
    }
  }

  lemma {:induction false} SameOnce<T>(s: seq<T>, t: seq<T>, i: nat, j: nat)
    requires Distinct(s) && multiset(t) == multiset(s) && i < j < |t|
    ensures t[i] != t[j]
  {
    DistinctOnce(s, t[i]);
    var a, b := t[..j], t[j..];
    assert t == a + b && t[i] == a[i] && t[j] == b[0];
    assert t[i] in multiset(a) && t[j] in multiset(b);
    assert multiset(t)[t[i]] == multiset(a)[t[i]] + multiset(b)[t[i]];
  }

  // A range stands for a published port.
  predicate Holds(m: Mapping, x: Single) {
    && m.ip == x.ip && m.proto == x.proto && m.hostFirst <= x.host <= m.hostLast
    && x.ctr - m.ctrFirst == x.host - m.hostFirst
  }

  // Each published port is held by exactly one range, and ranges hold nothing else.
  lemma {:induction false} HeldOnce(ms: seq<Mapping>, s: seq<Single>, x: Single)
    requires Cover(ms, s) && Distinct(s)
    ensures x in s <==> exists i :: 0 <= i < |ms| && Holds(ms[i], x)
    ensures forall i, j :: 0 <= i < |ms| && 0 <= j < |ms| && Holds(ms[i], x) && Holds(ms[j], x) ==> i == j
  {
    if x in s {
      var p :| 0 <= p < |s| && s[p] == x;
      var i, k := RangeOfSingle(ms, p);
      assert ms[i] in ms;
      SinglesOfRange(ms, i, k);
      assert Holds(ms[i], x);
    }
    forall i | 0 <= i < |ms| && Holds(ms[i], x) ensures x in s {
      var _ := HeldAt(ms, s, i, x);
    }
    forall i, j | 0 <= i < |ms| && 0 <= j < |ms| && Holds(ms[i], x) && Holds(ms[j], x) ensures i == j {
      HeldBySame(ms, s, i, j, x);
    }
  }

  lemma {:induction false} HeldBySame(ms: seq<Mapping>, s: seq<Single>, i: nat, j: nat, x: Single)
    requires Cover(ms, s) && Distinct(s) && i < |ms| && j < |ms| && Holds(ms[i], x) && Holds(ms[j], x)
    ensures i == j
  {
    var p := HeldAt(ms, s, i, x);
    var q := HeldAt(ms, s, j, x);
    SamePlace(ms, i, p - Start(ms, i), j, q - Start(ms, j));
  }

  lemma {:induction false} HeldAt(ms: seq<Mapping>, s: seq<Single>, i: nat, x: Single) returns (p: nat)
    requires Cover(ms, s) && i < |ms| && Holds(ms[i], x)
    ensures p < |s| && s[p] == x && Start(ms, i) <= p < Start(ms, i) + |Expand(ms[i])| && ms[i] in ms
  {
    assert ms[i] in ms;
    SinglesOfRange(ms, i, x.host - ms[i].hostFirst);
    p := Start(ms, i) + (x.host - ms[i].hostFirst);
  }

  lemma {:induction false} SamePlace(ms: seq<Mapping>, i: nat, k: nat, j: nat, k': nat)
    requires SameWidths(ms) && i < |ms| && j < |ms| && k < |Expand(ms[i])| && k' < |Expand(ms[j])|
    requires Start(ms, i) + k == Start(ms, j) + k'
    ensures i == j
  {
    ExpandSplit(ms, i);
    ExpandSplit(ms, j);
    if i < j {
      StartsAtLeast(ms, i + 1, j);
    } else if j < i {
      StartsAtLeast(ms, j + 1, i);
    }
  }

  lemma {:induction false} StartsAtLeast(ms: seq<Mapping>, i: nat, j: nat)
    requires SameWidths(ms) && i <= j <= |ms|
    ensures Start(ms, i) <= Start(ms, j)
  {
    if i < j {
      StartsGrow(ms, i, j);
    }
  }

  lemma {:induction false} RangesHoldSingles(ranges: seq<Mapping>, s: seq<Single>, x: Single)
    requires multiset(ranges) == multiset(Ranges(s)) && Distinct(s)
    ensures x in s <==> exists m <- ranges :: Holds(m, x)
  {
    var ms := Ranges(s);
    RangesCover(s);
    HeldOnce(ms, s, x);
    if x in s {
      var i :| 0 <= i < |ms| && Holds(ms[i], x);
      assert ms[i] in multiset(ms);
      assert ms[i] in ranges;
    }
    forall m <- ranges | Holds(m, x) ensures x in s {
      assert m in multiset(ranges);
      var i :| 0 <= i < |ms| && ms[i] == m;
    }
  }

  function AtHost(h: Port): Mapping -> bool {
    (m: Mapping) => m.hostFirst == h
  }

  datatype Listing = HostNetwork | Ranged(ranges: seq<Mapping>)

  // What formatPortMap writes out: "host", or the ranges in order of their host ports. `s` is the
  // sorted list of published ports the ranges cover.
  method PortMapOf(ports: seq<ApiPort>, networkMode: string) returns (listing: Listing, ghost s: seq<Single>)
    ensures networkMode == "host" <==> listing.HostNetwork?
    ensures networkMode != "host" ==>
              && Canonical(s) && (set x <- s) == Published(ports)
              && multiset(listing.ranges) == multiset(Ranges(s))
              && (forall i, j :: 0 <= i < j < |listing.ranges| ==> listing.ranges[i].hostFirst <= listing.ranges[j].hostFirst)
              && (forall h: Port :: Those(listing.ranges, AtHost(h)) == Those(Ranges(s), AtHost(h)))
              && (Maximal(listing.ranges) <==> !Crowded(Published(ports)))
              && forall x :: x in Published(ports) <==> exists m <- listing.ranges :: Holds(m, x)
  {
    s := [];
    if networkMode == "host" {
      return HostNetwork, s;
    }
    var singles := Singles(ports);
    if singles == [] {
      assert (set x <- singles) == set x <- s;
      MaximalIffNotCrowded(s);
      return Ranged([]), s;
    }
    var sorted := SortBy(singles, SingleLess);
    SortedIsCanonical(singles);
    s := sorted;
    var merged := MergeSorted(sorted);
    SortBySorts(merged, HostLess);
    listing := Ranged(SortBy(merged, HostLess));
    forall h: Port ensures Those(listing.ranges, AtHost(h)) == Those(merged, AtHost(h)) {
      SortKeepsOrder(merged, HostLess, AtHost(h));
    }
    forall i, j | 0 <= i < j < |listing.ranges| ensures listing.ranges[i].hostFirst <= listing.ranges[j].hostFirst {
      assert !HostLess(listing.ranges[j], listing.ranges[i]);
    }
    MaximalIffNotCrowded(s);
    MaximalReordered(merged, listing.ranges);
    MaximalReordered(listing.ranges, merged);
    forall x ensures x in Published(ports) <==> exists m <- listing.ranges :: Holds(m, x) {
      RangesHoldSingles(listing.ranges, s, x);
    }
  }

  method MergeSorted(s: seq<Single>) returns (merged: seq<Mapping>)
    ensures merged == Ranges(s)
  {
    MergedLones(s);
    var a := new Mapping[|s|](i requires 0 <= i < |s| => Lone(s[i]));
    assert a[..] == Lones(s);
    if |s| == 0 {
      return [];
    }
    var n := MergeInPlace(a);
    merged := a[..n];
  }
}
