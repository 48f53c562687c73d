/** Which containers are shown under the name their labels give them: the fixpoint that takes back
    label names which are not unique, as a reference on sets and as the loops that compute it. */
module ContainerNames {
  import opened ContainerTemplate

  // ---------- Resolving names ----------

  class ApiInfo {
    const dockerName: string
    const labels: Labels
    var displayName: string

    constructor (dockerName: string, labels: Labels)
      ensures this.dockerName == dockerName && this.labels == labels && displayName == ""
    {
      this.dockerName, this.labels, displayName := dockerName, labels, "";
    }
  }

  // The name a container is reported under when the containers in `fromLabel` use their label.
  function NameOf(c: ApiInfo, parts: seq<Part>, fromLabel: set<ApiInfo>): string {
    var name := Rendered(parts, c.labels);
    if c in fromLabel && name.Some? then name.value else c.dockerName
  }

  ghost predicate UniqueIn(c: ApiInfo, parts: seq<Part>, reported: set<ApiInfo>, fromLabel: set<ApiInfo>) {
    forall other <- reported :: other != c ==> NameOf(other, parts, fromLabel) != NameOf(c, parts, fromLabel)
  }

  // One round: label names that are not unique are taken back, all at once.
  ghost function Kept(parts: seq<Part>, reported: set<ApiInfo>, fromLabel: set<ApiInfo>): set<ApiInfo> {
    set c <- fromLabel | UniqueIn(c, parts, reported, fromLabel)
  }

  // The containers that keep their label names in the end.
  ghost function Resolved(parts: seq<Part>, reported: set<ApiInfo>, fromLabel: set<ApiInfo>): (r: set<ApiInfo>)
    ensures r <= fromLabel
    decreases |fromLabel|
  {
    var kept := Kept(parts, reported, fromLabel);
    if kept == fromLabel then fromLabel
    else
      SmallerSet(kept, fromLabel);
      Resolved(parts, reported, kept)
  }

  lemma {:induction false} SmallerSet<T>(a: set<T>, b: set<T>)
    requires a < b
    ensures |a| < |b|
  {
    var x :| x in b && x !in a;
    assert |b - a| > 0;
    assert b == a + (b - a);
    assert |b| == |a| + |b - a|;
  }

  ghost function Labelled(parts: seq<Part>, reported: set<ApiInfo>): set<ApiInfo> {
    set c <- reported | Rendered(parts, c.labels).Some?
  }

  ghost function FinalName(c: ApiInfo, parts: seq<Part>, reported: set<ApiInfo>): string {
    NameOf(c, parts, Resolved(parts, reported, Labelled(parts, reported)))
  }

  lemma {:induction false} ResolvedIsStable(parts: seq<Part>, reported: set<ApiInfo>, fromLabel: set<ApiInfo>)
    ensures Kept(parts, reported, Resolved(parts, reported, fromLabel)) == Resolved(parts, reported, fromLabel)
    decreases |fromLabel|
  {
    var kept := Kept(parts, reported, fromLabel);
    if kept != fromLabel {
      SmallerSet(kept, fromLabel);
      ResolvedIsStable(parts, reported, kept);
    }
  }

  // A name taken from labels is unique among the reported names.
  lemma {:induction false} LabelNamesAreUnique(parts: seq<Part>, reported: set<ApiInfo>, c: ApiInfo, other: ApiInfo)
    requires c in Resolved(parts, reported, Labelled(parts, reported)) && other in reported && other != c
    ensures FinalName(c, parts, reported) != FinalName(other, parts, reported)
  {
    ResolvedIsStable(parts, reported, Labelled(parts, reported));
    assert UniqueIn(c, parts, reported, Resolved(parts, reported, Labelled(parts, reported)));
  }

  // When Docker names are distinct, so are all reported names.
  lemma {:induction false} AllNamesAreDistinct(parts: seq<Part>, reported: set<ApiInfo>, c: ApiInfo, other: ApiInfo)
    requires forall a, b | a in reported && b in reported && a != b :: a.dockerName != b.dockerName
    requires c in reported && other in reported && c != other
    ensures FinalName(c, parts, reported) != FinalName(other, parts, reported)
  {
    var final := Resolved(parts, reported, Labelled(parts, reported));
    if c in final {
      LabelNamesAreUnique(parts, reported, c, other);
    } else if other in final {
      LabelNamesAreUnique(parts, reported, other, c);
    }
  }

  // Replicas: containers that render to the same name keep their Docker names.
  lemma {:induction false} ReplicasKeepDockerNames(parts: seq<Part>, reported: set<ApiInfo>, c: ApiInfo, other: ApiInfo)
    requires c in reported && other in reported && c != other
    requires Rendered(parts, c.labels).Some? && Rendered(parts, c.labels) == Rendered(parts, other.labels)
    ensures FinalName(c, parts, reported) == c.dockerName
  {
    var all := Labelled(parts, reported);
    assert c in all && other in all;
    assert c !in Kept(parts, reported, all);
  }

  // A label name that no other reported container has, as a Docker name or a label name, is used.
  lemma {:induction false} UnrivalledNameIsUsed(parts: seq<Part>, reported: set<ApiInfo>, fromLabel: set<ApiInfo>, c: ApiInfo)
    requires c in fromLabel && Rendered(parts, c.labels).Some?
    requires forall other <- reported :: other != c ==>
               other.dockerName != Rendered(parts, c.labels).value && Rendered(parts, other.labels) != Rendered(parts, c.labels)
    ensures c in Resolved(parts, reported, fromLabel)
    decreases |fromLabel|
  {
    var kept := Kept(parts, reported, fromLabel);
    assert UniqueIn(c, parts, reported, fromLabel);
    if kept != fromLabel {
      SmallerSet(kept, fromLabel);
      UnrivalledNameIsUsed(parts, reported, kept, c);
    }
  }

  // ---------- Resolving names, as the code does it ----------

  ghost function Bearers(candidates: map<ApiInfo, string>, among: set<ApiInfo>, name: string): set<ApiInfo> {
    set c <- among | c in candidates && candidates[c] == name
  }

  lemma {:induction false} MoreThanOne<T>(s: set<T>, x: T)
    requires x in s
    ensures |s| > 1 <==> exists y <- s :: y != x
  {
    assert |s - {x}| == |s| - 1;
    if |s - {x}| > 0 {
      var y :| y in s - {x};
    }
    assert forall y <- s :: y != x ==> y in s - {x};
  }

  // Another candidate has the same name.
  ghost predicate Shared(candidates: map<ApiInfo, string>, c: ApiInfo)
    requires c in candidates
  {
    exists other <- candidates :: other != c && candidates[other] == candidates[c]
  }

  lemma {:induction false} SharedIffCounted(candidates: map<ApiInfo, string>, c: ApiInfo)
    requires c in candidates
    ensures |Bearers(candidates, candidates.Keys, candidates[c])| > 1 <==> Shared(candidates, c)
  {
    var bearers := Bearers(candidates, candidates.Keys, candidates[c]);
    MoreThanOne(bearers, c);
    assert forall other <- candidates :: candidates[other] == candidates[c] ==> other in bearers;
  }

  lemma {:induction false} OneMoreBearer(candidates: map<ApiInfo, string>, done: set<ApiInfo>, c: ApiInfo)
    requires c in candidates && c !in done
    ensures var name := candidates[c];
            && |Bearers(candidates, done + {c}, name)| == |Bearers(candidates, done, name)| + 1
            && forall n :: n != name ==> Bearers(candidates, done + {c}, n) == Bearers(candidates, done, n)
  {
    var name := candidates[c];
    assert Bearers(candidates, done + {c}, name) == Bearers(candidates, done, name) + {c};
  }

  method CountNames(candidates: map<ApiInfo, string>) returns (counts: map<string, nat>)
    ensures forall c <- candidates :: candidates[c] in counts && (counts[candidates[c]] > 1 <==> Shared(candidates, c))
  {
    counts := map[];
    var todo := candidates.Keys;
    while todo != {}
      invariant todo <= candidates.Keys
      invariant forall c <- candidates.Keys - todo :: candidates[c] in counts
      invariant forall name <- counts :: counts[name] == |Bearers(candidates, candidates.Keys - todo, name)|
      invariant forall name :: name !in counts ==> Bearers(candidates, candidates.Keys - todo, name) == {}
    {
      var c :| c in todo;
      var name := candidates[c];
      ghost var done := candidates.Keys - todo;
      todo := todo - {c};
      assert candidates.Keys - todo == done + {c};
      OneMoreBearer(candidates, done, c);
      counts := counts[name := if name in counts then counts[name] + 1 else 1];
    }
    assert candidates.Keys - todo == candidates.Keys;
    forall c <- candidates ensures counts[candidates[c]] > 1 <==> Shared(candidates, c) {
      SharedIffCounted(candidates, c);
    }
  }

  ghost function AllShared(candidates: map<ApiInfo, string>): set<ApiInfo> {
    set c <- candidates | Shared(candidates, c)
  }

  // Takes back the label names counted more than once, in whatever order the map is iterated.
  method TakeBack(candidates: map<ApiInfo, string>, fromLabel: set<ApiInfo>, counts: map<string, nat>, ghost shared: set<ApiInfo>)
    returns (candidates': map<ApiInfo, string>, fromLabel': set<ApiInfo>)
    requires fromLabel <= candidates.Keys
    requires forall c <- candidates :: candidates[c] in counts && (counts[candidates[c]] > 1 <==> c in shared)
    ensures fromLabel' == fromLabel - shared && candidates'.Keys == candidates.Keys
    ensures forall c <- candidates ::
              candidates'[c] == if c in fromLabel && c !in fromLabel' then c.dockerName else candidates[c]
  {
    candidates', fromLabel' := candidates, fromLabel;
    var todo := fromLabel;
    while todo != {}
      invariant todo <= fromLabel && candidates'.Keys == candidates.Keys
      invariant fromLabel' == (fromLabel - shared) + todo
      invariant forall c <- candidates ::
                  candidates'[c] == if c in fromLabel && c !in fromLabel' then c.dockerName else candidates[c]
    {
      var c :| c in todo;
      assert c in fromLabel' && candidates'[c] == candidates[c];
      todo := todo - {c};
      if counts[candidates'[c]] > 1 {
        candidates' := candidates'[c := c.dockerName];
        fromLabel' := fromLabel' - {c};
      }
    }
  }

  ghost predicate Names(candidates: map<ApiInfo, string>, parts: seq<Part>, fromLabel: set<ApiInfo>) {
    forall c <- candidates :: candidates[c] == NameOf(c, parts, fromLabel)
  }

  // Such a round is the one the reference makes.
  lemma {:induction false} RoundIsKept(candidates: map<ApiInfo, string>, fromLabel: set<ApiInfo>, parts: seq<Part>)
    requires fromLabel <= Labelled(parts, candidates.Keys) && Names(candidates, parts, fromLabel)
    ensures fromLabel - AllShared(candidates) == Kept(parts, candidates.Keys, fromLabel)
  {
    forall c <- fromLabel ensures Shared(candidates, c) <==> !UniqueIn(c, parts, candidates.Keys, fromLabel) {
      assert forall other <- candidates :: candidates[other] == NameOf(other, parts, fromLabel);
    }
  }

  lemma {:induction false} RoundNames(candidates: map<ApiInfo, string>, fromLabel: set<ApiInfo>, parts: seq<Part>,
                                      candidates': map<ApiInfo, string>, fromLabel': set<ApiInfo>)
    requires fromLabel' <= fromLabel && Names(candidates, parts, fromLabel) && candidates'.Keys == candidates.Keys
    requires forall c <- candidates ::
               candidates'[c] == if c in fromLabel && c !in fromLabel' then c.dockerName else candidates[c]
    ensures Names(candidates', parts, fromLabel')
  {
    forall c <- candidates' ensures candidates'[c] == NameOf(c, parts, fromLabel') {
      assert candidates[c] == NameOf(c, parts, fromLabel);
    }
  }

  ghost function Reported(list: seq<ApiInfo>, excluded: string -> bool): set<ApiInfo> {
    set c <- list | !excluded(c.dockerName)
  }

  lemma {:induction false} OneMoreReported(list: seq<ApiInfo>, i: nat, excluded: string -> bool)
    requires i < |list|
    ensures excluded(list[i].dockerName) ==> Reported(list[..i + 1], excluded) == Reported(list[..i], excluded)
    ensures !excluded(list[i].dockerName) ==> Reported(list[..i + 1], excluded) == Reported(list[..i], excluded) + {list[i]}
  {
    assert list[..i + 1] == list[..i] + [list[i]];
  }

  lemma {:induction false} OneMoreLabelled(parts: seq<Part>, reported: set<ApiInfo>, c: ApiInfo)
    ensures Labelled(parts, reported + {c}) == Labelled(parts, reported) + if Rendered(parts, c.labels).Some? then {c} else {}
  {
  }

  // One more container among the candidates, under its label name if it renders.
  method AddCandidate(c: ApiInfo, parts: seq<Part>, candidates: map<ApiInfo, string>, fromLabel: set<ApiInfo>)
    returns (candidates': map<ApiInfo, string>, fromLabel': set<ApiInfo>)
    requires fromLabel == Labelled(parts, candidates.Keys) && Names(candidates, parts, fromLabel)
    ensures candidates'.Keys == candidates.Keys + {c} && fromLabel' == Labelled(parts, candidates'.Keys)
    ensures Names(candidates', parts, fromLabel')
  {
    OneMoreLabelled(parts, candidates.Keys, c);
    candidates', fromLabel' := candidates[c := c.dockerName], fromLabel;
    var name, ok := Render(parts, c.labels);
    if ok {
      candidates' := candidates'[c := name];
      fromLabel' := fromLabel + {c};
    }
  }

  ghost predicate Renamed(list: seq<ApiInfo>)
    reads list
  {
    forall c <- list :: c.displayName == c.dockerName
  }

  method ShowDockerName(c: ApiInfo, ghost done: seq<ApiInfo>)
    requires Renamed(done)
    modifies c
    ensures Renamed(done + [c])
  {
    c.displayName := c.dockerName;
  }

  method Candidates(list: seq<ApiInfo>, parts: seq<Part>, excluded: string -> bool)
    returns (candidates: map<ApiInfo, string>, fromLabel: set<ApiInfo>)
    modifies list
    ensures forall c <- list :: c.displayName == c.dockerName
    ensures candidates.Keys == Reported(list, excluded) && fromLabel == Labelled(parts, candidates.Keys)
    ensures Names(candidates, parts, fromLabel)
  {
    candidates, fromLabel := map[], {};
    assert Reported(list[..0], excluded) == {};
    for i := 0 to |list|
      invariant Renamed(list[..i])
      invariant candidates.Keys == Reported(list[..i], excluded)
      invariant fromLabel == Labelled(parts, candidates.Keys) && Names(candidates, parts, fromLabel)
    {
      var c := list[i];
      OneMoreReported(list, i, excluded);
      assert list[..i + 1] == list[..i] + [c];
      ShowDockerName(c, list[..i]);
      if !excluded(c.dockerName) {
        candidates, fromLabel := AddCandidate(c, parts, candidates, fromLabel);
      }
    }
    assert list[..|list|] == list;
  }

  method Round(candidates: map<ApiInfo, string>, fromLabel: set<ApiInfo>, ghost parts: seq<Part>)
    returns (candidates': map<ApiInfo, string>, fromLabel': set<ApiInfo>)
    requires fromLabel <= Labelled(parts, candidates.Keys) && Names(candidates, parts, fromLabel)
    ensures fromLabel' == Kept(parts, candidates.Keys, fromLabel)
    ensures candidates'.Keys == candidates.Keys && Names(candidates', parts, fromLabel')
  {
    var counts := CountNames(candidates);
    candidates', fromLabel' := TakeBack(candidates, fromLabel, counts, AllShared(candidates));
    RoundIsKept(candidates, fromLabel, parts);
    RoundNames(candidates, fromLabel, parts, candidates', fromLabel');
  }

  // The rounds, until one changes nothing.
  method Resolve(candidates: map<ApiInfo, string>, fromLabel: set<ApiInfo>, ghost parts: seq<Part>)
    returns (names: map<ApiInfo, string>)
    requires fromLabel <= Labelled(parts, candidates.Keys) && Names(candidates, parts, fromLabel)
    ensures names.Keys == candidates.Keys
    ensures Names(names, parts, Resolved(parts, candidates.Keys, fromLabel))
  {
    names := candidates;
    var left := fromLabel;
    var changed := true;
    while changed
      invariant names.Keys == candidates.Keys && left <= fromLabel && Names(names, parts, left)
      invariant Resolved(parts, candidates.Keys, left) == Resolved(parts, candidates.Keys, fromLabel)
      invariant !changed ==> Resolved(parts, candidates.Keys, left) == left
      decreases |left|, changed
    {
      var before := left;
      names, left := Round(names, left, parts);
      changed := left != before;
      if changed {
        SmallerSet(left, before);
      }
    }
  }

  // Sets the display name of every container; excluded ones and those whose label name is
  // missing or not unique keep their Docker name.
  method ResolveContainerNames(list: seq<ApiInfo>, parts: seq<Part>, excluded: string -> bool)
    modifies list
    ensures forall c <- list ::
              c.displayName == if excluded(c.dockerName) then c.dockerName else FinalName(c, parts, Reported(list, excluded))
  {
    var candidates, fromLabel := Candidates(list, parts, excluded);
    var names := Resolve(candidates, fromLabel, parts);
    var todo := names.Keys;
    while todo != {}
      invariant todo <= names.Keys
      invariant forall c <- list :: c.displayName == if c in names && c !in todo then names[c] else c.dockerName
    {
      var c :| c in todo;
      c.displayName := names[c];
      todo := todo - {c};
    }
  }
}
