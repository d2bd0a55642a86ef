/** The call tree that Timeline prints, told from the intervals alone: which events are nested in
    which, and how deep each one is printed. */
module TimelineNesting {
  import opened Sequences
  import opened Timeline

  /** The event starts before the other one ends, or is an instant at its end. */
  predicate Joins(other: Event, e: Event)
  {
    e.beg < other.end || e.beg == e.end == other.end
  }

  /** A sorted chain of events that are not inverted, on a clock that is not about to wrap around. */
  ghost predicate Timed(chain: seq<Event>)
  {
    ByStart(chain) && forall e :: e in chain ==> e.beg <= e.end && e.beg + 1 < WORD
  }

  lemma {:induction false} FitsIsJoins(parent: Event, e: Event)
    requires e.beg <= e.end && e.beg + 1 < WORD
    ensures Fits(parent, e) <==> Joins(parent, e)
  {
    assert (e.beg + 1) % WORD == e.beg + 1;
  }

  /** From event i up to event n each one joins some event since i: there is no gap in between. */
  ghost predicate Unbroken(chain: seq<Event>, i: nat, n: nat)
    requires n <= |chain|
  {
    forall m :: i < m < n ==> JoinsSome(chain, i, m)
  }

  ghost predicate JoinsSome(chain: seq<Event>, i: nat, m: nat)
    requires m < |chain|
  {
    exists l :: i <= l < m && Joins(chain[l], chain[m])
  }

  /** The events around event k. */
  ghost function Around(chain: seq<Event>, k: nat): set<nat>
    requires k < |chain|
  {
    set i: nat | i < k && IsAround(chain, i, k)
  }

  ghost predicate IsAround(chain: seq<Event>, i: nat, k: nat)
    requires k < |chain|
  {
    Unbroken(chain, i, k + 1)
  }

  // ---------------------------------------------------------------- the events that stay open

  // The open events that the event does not close, by their indices, the outermost first.
  function Kept(chain: seq<Event>, path: seq<nat>, e: Event): seq<nat>
  {
    if path == [] then []
    else if path[|path| - 1] < |chain| && Fits(chain[path[|path| - 1]], e) then path
    else Kept(chain, path[..|path| - 1], e)
  }

  // paths[n] are the events open after the first n.
  ghost predicate Traces(chain: seq<Event>, paths: seq<seq<nat>>)
  {
    |paths| == |chain| + 1 && paths[0] == [] && forall k :: 0 <= k < |chain| ==> Traced(chain, paths, k)
  }

  predicate Traced(chain: seq<Event>, paths: seq<seq<nat>>, k: nat)
    requires k < |chain| && |paths| == |chain| + 1
  {
    paths[k + 1] == Kept(chain, paths[k], chain[k]) + [k]
  }

  lemma {:induction false} TraceExists(chain: seq<Event>) returns (paths: seq<seq<nat>>)
    ensures Traces(chain, paths)
  {
    paths := [[]];
    for n := 0 to |chain|
      invariant |paths| == n + 1 && paths[0] == []
      invariant forall k :: 0 <= k < n ==> paths[k + 1] == Kept(chain, paths[k], chain[k]) + [k]
    {
      paths := paths + [Kept(chain, paths[n], chain[n]) + [n]];
    }
  }

  predicate Rising(path: seq<nat>)
  {
    forall i, k :: 0 <= i < k < |path| ==> path[i] < path[k]
  }

  predicate Below(path: seq<nat>, n: nat)
  {
    forall k :: 0 <= k < |path| ==> path[k] < n
  }

  lemma {:induction false} KeptIsPrefix(chain: seq<Event>, path: seq<nat>, e: Event)
    ensures Kept(chain, path, e) <= path
  {
    if path != [] { KeptIsPrefix(chain, path[..|path| - 1], e); }
  }

  lemma {:induction false} RisesOn(path: seq<nat>, kept: seq<nat>, k: nat)
    requires Rising(path) && Below(path, k) && kept <= path
    ensures Rising(kept + [k]) && Below(kept + [k], k + 1)
  {
  }

  lemma {:induction false} PathRises(chain: seq<Event>, paths: seq<seq<nat>>, n: nat)
    requires Traces(chain, paths) && n <= |chain|
    ensures Rising(paths[n]) && Below(paths[n], n)
    ensures n > 0 ==> paths[n] != [] && paths[n][|paths[n]| - 1] == n - 1
  {
    if n > 0 {
      PathRises(chain, paths, n - 1);
      assert Traced(chain, paths, n - 1);
      KeptIsPrefix(chain, paths[n - 1], chain[n - 1]);
      RisesOn(paths[n - 1], Kept(chain, paths[n - 1], chain[n - 1]), n - 1);
    }
  }

  predicate FitsSince(chain: seq<Event>, path: seq<nat>, e: Event, i: nat)
    requires Below(path, |chain|)
  {
    exists k :: 0 <= k < |path| && i <= path[k] && Fits(chain[path[k]], e)
  }

  lemma {:induction false} FitsBefore(chain: seq<Event>, path: seq<nat>, e: Event, i: nat)
    requires path != [] && Below(path, |chain|) && !Fits(chain[path[|path| - 1]], e)
    ensures FitsSince(chain, path, e, i) <==> FitsSince(chain, path[..|path| - 1], e, i)
  {
    var init := path[..|path| - 1];
    if FitsSince(chain, init, e, i) {
      var k :| 0 <= k < |init| && i <= init[k] && Fits(chain[init[k]], e);
      assert path[k] == init[k];
    }
    if FitsSince(chain, path, e, i) {
      var k :| 0 <= k < |path| && i <= path[k] && Fits(chain[path[k]], e);
      assert path[k] == init[k];
    }
  }

  lemma {:induction false} KeptMembers(chain: seq<Event>, path: seq<nat>, e: Event, i: nat)
    requires Rising(path) && Below(path, |chain|)
    ensures i in Kept(chain, path, e) <==> i in path && FitsSince(chain, path, e, i)
  {
    if path != [] {
      var init, last := path[..|path| - 1], path[|path| - 1];
      assert path == init + [last];
      if Fits(chain[last], e) {
        assert path[|path| - 1] == last;
      } else {
        KeptMembers(chain, init, e, i);
        FitsBefore(chain, path, e, i);
      }
    }
  }

  // An event that was closed is no obstacle: what joins it joins an event that is still open.
  lemma {:induction false} OpenOneJoined(chain: seq<Event>, n: nat, l: nat) returns (o: nat)
    requires Timed(chain) && l < n < |chain| && Joins(chain[l], chain[n])
    ensures l <= o < n && Unbroken(chain, o, n) && Joins(chain[o], chain[n])
  {
    o := l;
    if !Unbroken(chain, l, n) {
      var m :| l < m < n && !JoinsSome(chain, l, m);
      assert !Joins(chain[l], chain[m]);
      assert chain[m] in chain && chain[n] in chain;
      assert chain[m].beg <= chain[n].beg;
      o := m;
      forall j | m < j < n ensures JoinsSome(chain, m, j) {
        assert chain[j].beg <= chain[n].beg && Joins(chain[m], chain[j]);
      }
    }
  }

  lemma {:induction false} PathMembers(chain: seq<Event>, paths: seq<seq<nat>>, n: nat, i: nat)
    requires Timed(chain) && Traces(chain, paths) && n <= |chain| && i < n
    ensures i in paths[n] <==> Unbroken(chain, i, n)
    decreases n, 1
  {
    var kept := Kept(chain, paths[n - 1], chain[n - 1]);
    assert Traced(chain, paths, n - 1);
    if i < n - 1 {
      PathMembers(chain, paths, n - 1, i);
      PathRises(chain, paths, n - 1);
      KeptMembers(chain, paths[n - 1], chain[n - 1], i);
      MemberOfMore(kept, n - 1, i);
      if Unbroken(chain, i, n - 1) {
        JoinedIsOpen(chain, paths, n - 1, i);
      }
      UnbrokenMore(chain, i, n);
    } else {
      assert (kept + [i])[|kept|] == i;
    }
  }

  lemma {:induction false} UnbrokenMore(chain: seq<Event>, i: nat, n: nat)
    requires i < n - 1 < |chain|
    ensures Unbroken(chain, i, n) <==> Unbroken(chain, i, n - 1) && JoinsSome(chain, i, n - 1)
  {
  }

  lemma {:induction false} JoinedIsOpen(chain: seq<Event>, paths: seq<seq<nat>>, n: nat, i: nat)
    requires Timed(chain) && Traces(chain, paths) && i < n < |chain| && Below(paths[n], |chain|)
    ensures JoinsSome(chain, i, n) <==> FitsSince(chain, paths[n], chain[n], i)
    decreases n, 2
  {
    var path, e := paths[n], chain[n];
    assert e in chain;
    PathRises(chain, paths, n);
    if JoinsSome(chain, i, n) {
      var l :| i <= l < n && Joins(chain[l], e);
      var o := OpenOneJoined(chain, n, l);
      PathMembers(chain, paths, n, o);
      FitsIsJoins(chain[o], e);
    }
    if FitsSince(chain, path, e, i) {
      var k :| 0 <= k < |path| && i <= path[k] && Fits(chain[path[k]], e);
      FitsIsJoins(chain[path[k]], e);
    }
  }

  lemma {:induction false} RisingSize(path: seq<nat>)
    requires Rising(path)
    ensures |Members(path)| == |path|
  {
    if path != [] {
      var init, last := path[..|path| - 1], path[|path| - 1];
      RisingInit(path);
      RisingSize(init);
      OneMoreMember(init, last);
      TakeMore(path, |init|);
      TakeAll(path);
    }
  }

  lemma {:induction false} OneMoreMember(path: seq<nat>, i: nat)
    requires i !in Members(path)
    ensures |Members(path + [i])| == |Members(path)| + 1
  {
    MoreMembers(path, i);
  }

  lemma {:induction false} RisingInit(path: seq<nat>)
    requires Rising(path) && path != []
    ensures Rising(path[..|path| - 1]) && path[|path| - 1] !in Members(path[..|path| - 1])
  {
  }

  function Members(path: seq<nat>): set<nat>
  {
    set i | i in path
  }

  lemma {:induction false} MoreMembers(path: seq<nat>, i: nat)
    ensures Members(path + [i]) == Members(path) + {i}
  {
  }

  lemma {:induction false} AroundIsPath(chain: seq<Event>, paths: seq<seq<nat>>, k: nat)
    requires Timed(chain) && Traces(chain, paths) && k < |chain|
    ensures |paths[k + 1]| == |Around(chain, k)| + 1
    ensures forall i: nat :: i < k ==> (i in Around(chain, k) <==> i in paths[k + 1])
  {
    var kept := Kept(chain, paths[k], chain[k]);
    assert Traced(chain, paths, k);
    forall i: nat | i < k ensures (IsAround(chain, i, k) <==> i in kept) && (i in kept <==> i in paths[k + 1]) {
      PathMembers(chain, paths, k + 1, i);
      MemberOfMore(kept, k, i);
    }
    PathRises(chain, paths, k);
    KeptIsPrefix(chain, paths[k], chain[k]);
    KeptBelow(kept, paths[k], k);
    RisingSize(kept);
    assert Members(kept) == Around(chain, k);
  }

  lemma {:induction false} MemberOfMore(path: seq<nat>, k: nat, i: nat)
    requires i != k
    ensures i in path + [k] <==> i in path
  {
  }

  lemma {:induction false} KeptBelow(kept: seq<nat>, path: seq<nat>, k: nat)
    requires kept <= path && Below(path, k) && Rising(path)
    ensures Rising(kept) && forall i :: i in kept ==> i < k
  {
  }

  // ---------------------------------------------------------------- depths along the path

  lemma {:induction false} PathPrefix(chain: seq<Event>, paths: seq<seq<nat>>, i: nat, n: nat)
    requires Traces(chain, paths) && i < n <= |chain|
    ensures i in paths[n] ==> paths[i + 1] <= paths[n]
  {
    if i + 1 < n {
      PathPrefix(chain, paths, i, n - 1);
      PathRises(chain, paths, i + 1);
      PathRises(chain, paths, n - 1);
      assert Traced(chain, paths, n - 1);
      KeptIsPrefix(chain, paths[n - 1], chain[n - 1]);
      PrefixGrows(paths[i + 1], paths[n - 1], Kept(chain, paths[n - 1], chain[n - 1]), i, n - 1);
    }
  }

  lemma {:induction false} PrefixGrows(a: seq<nat>, path: seq<nat>, kept: seq<nat>, i: nat, k: nat)
    requires Rising(path) && kept <= path && i != k && a != [] && a[|a| - 1] == i
    requires i in path ==> a <= path
    ensures i in kept + [k] ==> a <= kept + [k]
  {
    MemberOfMore(kept, k, i);
    if i in kept { PrefixReaches(a, kept, path, i); }
  }

  // A prefix of the path that has the last element of another prefix extends it.
  lemma {:induction false} PrefixReaches(a: seq<nat>, b: seq<nat>, path: seq<nat>, i: nat)
    requires Rising(path) && a <= path && b <= path && a != [] && a[|a| - 1] == i
    ensures i in b <==> |a| <= |b|
    ensures i in b ==> a <= b
  {
    if k :| 0 <= k < |b| && b[k] == i {
      assert path[k] == path[|a| - 1];
    }
    if |a| <= |b| { assert b[|a| - 1] == i; }
  }

  // In the printout event k is somewhere inside event i.
  ghost predicate DeeperSince(depths: seq<nat>, i: nat, k: nat)
    requires i <= k < |depths|
  {
    forall m :: i < m <= k ==> depths[m] > depths[i]
  }

  lemma {:induction false} DeeperMore(depths: seq<nat>, i: nat, k: nat)
    requires i < k < |depths|
    ensures DeeperSince(depths, i, k) <==> DeeperSince(depths, i, k - 1) && depths[k] > depths[i]
  {
  }

  ghost predicate DepthsOfPaths(depths: seq<nat>, paths: seq<seq<nat>>)
  {
    |paths| == |depths| + 1 && forall k :: 0 <= k < |depths| ==> |paths[k + 1]| == depths[k] + 1
  }

  lemma {:induction false} OpenStays(a: seq<nat>, path: seq<nat>, kept: seq<nat>, i: nat, k: nat)
    requires Rising(path) && kept <= path && i < k && a != [] && a[|a| - 1] == i
    requires i in path ==> a <= path
    ensures i in kept + [k] <==> i in path && |kept + [k]| > |a|
  {
    MemberOfMore(kept, k, i);
    if i in path { PrefixReaches(a, kept, path, i); }
  }

  // While i is open everything is deeper, and what closes it is not.
  lemma {:induction false} DeeperWhileOpen(chain: seq<Event>, paths: seq<seq<nat>>, depths: seq<nat>, i: nat, k: nat)
    requires Traces(chain, paths) && DepthsOfPaths(depths, paths) && i <= k < |chain|
    ensures i in paths[k + 1] <==> DeeperSince(depths, i, k)
  {
    PathRises(chain, paths, i + 1);
    if i < k {
      DeeperWhileOpen(chain, paths, depths, i, k - 1);
      PathPrefix(chain, paths, i, k);
      PathRises(chain, paths, k);
      KeptIsPrefix(chain, paths[k], chain[k]);
      assert Traced(chain, paths, k);
      OpenStays(paths[i + 1], paths[k], Kept(chain, paths[k], chain[k]), i, k);
      DeeperMore(depths, i, k);
    }
  }

  // ---------------------------------------------------------------- the path is the tree's last branch

  function LastBranch(ts: seq<Tree>): seq<Event>
  {
    if ts == [] then [] else [ts[|ts| - 1].event] + LastBranch(ts[|ts| - 1].kids)
  }

  function KeptEvents(branch: seq<Event>, e: Event): seq<Event>
  {
    if branch == [] then []
    else if Fits(branch[|branch| - 1], e) then branch
    else KeptEvents(branch[..|branch| - 1], e)
  }

  lemma {:induction false} KeptUnder(top: Event, rest: seq<Event>, e: Event)
    ensures KeptEvents([top] + rest, e)
            == if KeptEvents(rest, e) != [] || Fits(top, e) then [top] + KeptEvents(rest, e) else []
  {
    var branch := [top] + rest;
    if rest == [] {
      assert branch == [top] && branch[..0] == [];
    } else {
      assert branch[..|branch| - 1] == [top] + rest[..|rest| - 1];
      KeptUnder(top, rest[..|rest| - 1], e);
    }
  }

  lemma {:induction false} EscapesAll(e: Event, ts: seq<Tree>)
    requires ts != []
    ensures Escapes(e, ts[|ts| - 1]) <==> KeptEvents(LastBranch(ts), e) == []
    decreases ts
  {
    var t := ts[|ts| - 1];
    KeptUnder(t.event, LastBranch(t.kids), e);
    if t.kids != [] { EscapesAll(e, t.kids); }
  }

  function Depths(ts: seq<Tree>, depth: nat): seq<nat>
    decreases ts, 1
  {
    if ts == [] then [] else Depths(ts[..|ts| - 1], depth) + DepthsOf(ts[|ts| - 1], depth)
  }

  function DepthsOf(t: Tree, depth: nat): seq<nat>
    decreases t, 0
  {
    [depth] + Depths(t.kids, depth + 1)
  }

  // Where a new event comes in the tree.
  lemma {:induction false} PlaceCases(ts: seq<Tree>, e: Event)
    ensures KeptEvents(LastBranch(ts), e) == [] ==> Place(ts, e) == ts + [Node(e, [])]
    ensures KeptEvents(LastBranch(ts), e) != [] ==> ts != [] && var t := ts[|ts| - 1];
              && Place(ts, e) == ts[..|ts| - 1] + [Node(t.event, Place(t.kids, e))]
              && LastBranch(ts) == [t.event] + LastBranch(t.kids)
              && KeptEvents(LastBranch(ts), e) == [t.event] + KeptEvents(LastBranch(t.kids), e)
  {
    if ts != [] {
      EscapesAll(e, ts);
      KeptUnder(ts[|ts| - 1].event, LastBranch(ts[|ts| - 1].kids), e);
    }
  }

  lemma {:induction false} PlaceBranch(ts: seq<Tree>, e: Event)
    ensures LastBranch(Place(ts, e)) == KeptEvents(LastBranch(ts), e) + [e]
    decreases ts
  {
    PlaceCases(ts, e);
    if KeptEvents(LastBranch(ts), e) == [] {
      DepthsMore(ts, Node(e, []), 0);
    } else {
      var t := ts[|ts| - 1];
      PlaceBranch(t.kids, e);
      DepthsMore(ts[..|ts| - 1], Node(t.event, Place(t.kids, e)), 0);
      Regroup([t.event], KeptEvents(LastBranch(t.kids), e), [e]);
    }
  }

  lemma {:induction false} PlaceDepths(ts: seq<Tree>, e: Event, depth: nat)
    ensures Depths(Place(ts, e), depth) == Depths(ts, depth) + [depth + |KeptEvents(LastBranch(ts), e)|]
    decreases ts
  {
    PlaceCases(ts, e);
    if KeptEvents(LastBranch(ts), e) == [] {
      DepthsMore(ts, Node(e, []), depth);
      LeafDepth(e, depth);
    } else {
      PlaceDepths(ts[|ts| - 1].kids, e, depth + 1);
      InsideStep(ts, e, depth);
    }
  }

  // The new event goes under the last tree.
  lemma {:induction false} InsideStep(ts: seq<Tree>, e: Event, depth: nat)
    requires ts != []
    requires var t := ts[|ts| - 1];
      && Place(ts, e) == ts[..|ts| - 1] + [Node(t.event, Place(t.kids, e))]
      && KeptEvents(LastBranch(ts), e) == [t.event] + KeptEvents(LastBranch(t.kids), e)
      && Depths(Place(t.kids, e), depth + 1)
         == Depths(t.kids, depth + 1) + [depth + 1 + |KeptEvents(LastBranch(t.kids), e)|]
    ensures Depths(Place(ts, e), depth) == Depths(ts, depth) + [depth + |KeptEvents(LastBranch(ts), e)|]
  {
    var init, t := ts[..|ts| - 1], ts[|ts| - 1];
    assert ts == init + [t];
    DepthInside(init, t, Place(t.kids, e), depth, depth + |KeptEvents(LastBranch(ts), e)|);
  }

  lemma {:induction false} LeafDepth(e: Event, depth: nat)
    ensures DepthsOf(Node(e, []), depth) == [depth]
  {
  }

  lemma {:induction false} DepthInside(init: seq<Tree>, t: Tree, kids: seq<Tree>, depth: nat, d: nat)
    requires Depths(kids, depth + 1) == Depths(t.kids, depth + 1) + [d]
    ensures Depths(init + [Node(t.event, kids)], depth) == Depths(init + [t], depth) + [d]
  {
    Regroup([depth], Depths(t.kids, depth + 1), [d]);
    DepthsMore(init, Node(t.event, kids), depth);
    DepthsMore(init, t, depth);
    Regroup(Depths(init, depth), DepthsOf(t, depth), [d]);
  }

  lemma {:induction false} DepthsMore(ts: seq<Tree>, t: Tree, depth: nat)
    ensures Depths(ts + [t], depth) == Depths(ts, depth) + DepthsOf(t, depth)
    ensures LastBranch(ts + [t]) == [t.event] + LastBranch(t.kids)
  {
    assert (ts + [t])[..|ts|] == ts;
  }

  function EventsAt(chain: seq<Event>, path: seq<nat>): (events: seq<Event>)
    requires Below(path, |chain|)
    ensures |events| == |path| && forall k :: 0 <= k < |path| ==> events[k] == chain[path[k]]
  {
    seq(|path|, k requires 0 <= k < |path| => chain[path[k]])
  }

  lemma {:induction false} KeptAlike(chain: seq<Event>, path: seq<nat>, e: Event)
    requires Below(path, |chain|)
    ensures Below(Kept(chain, path, e), |chain|)
    ensures KeptEvents(EventsAt(chain, path), e) == EventsAt(chain, Kept(chain, path, e))
  {
    if path != [] {
      var init := path[..|path| - 1];
      assert EventsAt(chain, path)[..|path| - 1] == EventsAt(chain, init);
      KeptAlike(chain, init, e);
    }
  }

  lemma {:induction false} EventsAtMore(chain: seq<Event>, path: seq<nat>, i: nat)
    requires Below(path, |chain|) && i < |chain|
    ensures EventsAt(chain, path + [i]) == EventsAt(chain, path) + [chain[i]]
  {
  }

  // forests[n] is the call tree of the first n events.
  ghost predicate Grows(chain: seq<Event>, forests: seq<seq<Tree>>)
  {
    |forests| == |chain| + 1 && forests[0] == [] && forall k :: 0 <= k < |chain| ==> Grown(chain, forests, k)
  }

  predicate Grown(chain: seq<Event>, forests: seq<seq<Tree>>, k: nat)
    requires k < |chain| && |forests| == |chain| + 1
  {
    forests[k + 1] == Place(forests[k], chain[k])
  }

  lemma {:induction false} BuildGrows(chain: seq<Event>) returns (forests: seq<seq<Tree>>)
    ensures Grows(chain, forests) && forests[|chain|] == Build(chain)
  {
    forests := [[]];
    for n := 0 to |chain|
      invariant |forests| == n + 1 && forests[0] == [] && forests[n] == Build(chain[..n])
      invariant forall k :: 0 <= k < n ==> forests[k + 1] == Place(forests[k], chain[k])
    {
      TakeMore(chain, n);
      BuildMore(chain[..n], chain[n]);
      forests := forests + [Place(forests[n], chain[n])];
    }
    TakeAll(chain);
  }

  lemma {:induction false} BranchIsPath(chain: seq<Event>, paths: seq<seq<nat>>, forests: seq<seq<Tree>>, n: nat)
    requires Traces(chain, paths) && Grows(chain, forests) && n <= |chain|
    ensures Below(paths[n], |chain|) && LastBranch(forests[n]) == EventsAt(chain, paths[n])
  {
    PathRises(chain, paths, n);
    if n > 0 {
      BranchIsPath(chain, paths, forests, n - 1);
      assert Traced(chain, paths, n - 1) && Grown(chain, forests, n - 1);
      BranchStep(chain, paths[n - 1], forests[n - 1], n - 1);
    }
  }

  lemma {:induction false} BranchStep(chain: seq<Event>, path: seq<nat>, ts: seq<Tree>, k: nat)
    requires k < |chain| && Below(path, |chain|) && LastBranch(ts) == EventsAt(chain, path)
    requires Below(Kept(chain, path, chain[k]) + [k], |chain|)
    ensures LastBranch(Place(ts, chain[k])) == EventsAt(chain, Kept(chain, path, chain[k]) + [k])
  {
    KeptAlike(chain, path, chain[k]);
    PlaceBranch(ts, chain[k]);
    EventsAtMore(chain, Kept(chain, path, chain[k]), k);
  }

  lemma {:induction false} DepthsFollowPaths(chain: seq<Event>, paths: seq<seq<nat>>, forests: seq<seq<Tree>>, n: nat)
    requires Traces(chain, paths) && Grows(chain, forests) && n <= |chain|
    ensures var depths := Depths(forests[n], 0);
      |depths| == n && forall k :: 0 <= k < n ==> |paths[k + 1]| == depths[k] + 1
  {
    if n > 0 {
      DepthsFollowPaths(chain, paths, forests, n - 1);
      NextDepth(chain, paths, forests, n);
    }
  }

  lemma {:induction false} NextDepth(chain: seq<Event>, paths: seq<seq<nat>>, forests: seq<seq<Tree>>, n: nat)
    requires Traces(chain, paths) && Grows(chain, forests) && 0 < n <= |chain|
    ensures |paths[n]| > 0 && Depths(forests[n], 0) == Depths(forests[n - 1], 0) + [|paths[n]| - 1]
  {
    BranchIsPath(chain, paths, forests, n - 1);
    PathRises(chain, paths, n);
    assert Traced(chain, paths, n - 1) && Grown(chain, forests, n - 1);
    DepthStep(chain, paths[n - 1], forests[n - 1], n - 1);
  }

  lemma {:induction false} DepthStep(chain: seq<Event>, path: seq<nat>, ts: seq<Tree>, k: nat)
    requires k < |chain| && Below(path, |chain|) && LastBranch(ts) == EventsAt(chain, path)
    ensures Depths(Place(ts, chain[k]), 0) == Depths(ts, 0) + [|Kept(chain, path, chain[k])|]
  {
    KeptAlike(chain, path, chain[k]);
    PlaceDepths(ts, chain[k], 0);
  }

  // ---------------------------------------------------------------- what is printed

  /** The depths at which the starts of the events are printed, in order. */
  function StartDepths(lines: seq<Line>): seq<nat>
  {
    if lines == [] then []
    else StartDepths(lines[..|lines| - 1]) + if lines[|lines| - 1].Start? then [lines[|lines| - 1].depth] else []
  }

  lemma {:induction false} StartDepthsJoin(a: seq<Line>, b: seq<Line>)
    ensures StartDepths(a + b) == StartDepths(a) + StartDepths(b)
  {
    if b == [] {
      assert a + b == a;
    } else {
      assert (a + b)[..|a + b| - 1] == a + b[..|b| - 1];
      StartDepthsJoin(a, b[..|b| - 1]);
    }
  }

  lemma {:induction false} PrintedDepths(ts: seq<Tree>, depth: nat)
    ensures StartDepths(RenderAll(ts, depth)) == Depths(ts, depth)
    decreases ts
  {
    if ts != [] {
      var t := ts[|ts| - 1];
      var first, inside, last := Start(t.event, depth), RenderAll(t.kids, depth + 1), End(t.event, Sum(t), depth);
      PrintedDepths(ts[..|ts| - 1], depth);
      PrintedDepths(t.kids, depth + 1);
      StartDepthsJoin(RenderAll(ts[..|ts| - 1], depth), Render(t, depth));
      StartDepthsJoin([first] + inside, [last]);
      StartDepthsJoin([first], inside);
      assert [first][..0] == [] && [last][..0] == [];
      assert StartDepths([first]) == [depth] && StartDepths([last]) == [];
    }
  }

  /** Each event is printed as deep as there are events around it, and those are the ones that a reader
      of the printout sees around it: every line start since theirs is deeper. An event is around a
      later one exactly if from its start to that of the later one there is no gap, each event in between
      starting before the end of another since, or being an instant there. */
  lemma {:induction false} NestingIsOverlap(chain: seq<Event>, k: nat)
    requires Timed(chain) && k < |chain|
    ensures var depths := StartDepths(RenderAll(Build(chain), 0));
      && |depths| == |chain| && depths[k] == |Around(chain, k)|
      && forall i: nat :: i < k ==> (i in Around(chain, k) <==> DeeperSince(depths, i, k))
  {
    PrintedDepths(Build(chain), 0);
    var depths := StartDepths(RenderAll(Build(chain), 0));
    var paths := TraceExists(chain);
    var forests := BuildGrows(chain);
    DepthsFollowPaths(chain, paths, forests, |chain|);
    AroundIsPath(chain, paths, k);
    forall i: nat | i < k ensures i in Around(chain, k) <==> DeeperSince(depths, i, k) {
      DeeperWhileOpen(chain, paths, depths, i, k);
    }
  }

  /** So an event that starts before an earlier one ends is nested in it. */
  lemma {:induction false} OverlapNests(chain: seq<Event>, i: nat, k: nat)
    requires Timed(chain) && i < k < |chain| && chain[k].beg < chain[i].end
    ensures i in Around(chain, k)
  {
    forall m | i < m < k + 1 ensures JoinsSome(chain, i, m) {
      assert chain[m].beg <= chain[k].beg && Joins(chain[i], chain[m]);
    }
  }

  /** And one that starts after all earlier ones have ended is a root of the printout. */
  lemma {:induction false} LateStartIsRoot(chain: seq<Event>, k: nat)
    requires Timed(chain) && k < |chain| && forall i :: 0 <= i < k ==> chain[i].end < chain[k].beg
    ensures Around(chain, k) == {}
    ensures |StartDepths(RenderAll(Build(chain), 0))| == |chain| && StartDepths(RenderAll(Build(chain), 0))[k] == 0
  {
    forall i: nat | i < k ensures i !in Around(chain, k) {
      assert !JoinsSome(chain, i, k);
    }
    NestingIsOverlap(chain, k);
  }

  // ---------------------------------------------------------------- reading the printout

  // The events whose end is still to come, each with the overhead seen so far.
  type Stack = seq<(Event, int)>

  /** A start is as deep as there are events open. An end closes the event opened last, and shows its own
      overhead and that of everything closed inside it. */
  predicate Readable(line: Line, open: Stack)
  {
    match line
    case Start(_, depth) => depth == |open|
    case End(e, overhead, depth) => open != [] && depth == |open| - 1 && open[|open| - 1] == (e, overhead)
  }

  function AfterLine(line: Line, open: Stack): Stack
    requires Readable(line, open)
  {
    match line
    case Start(e, _) => open + [(e, e.overhead)]
    case End(_, overhead, _) => Added(open[..|open| - 1], overhead)
  }

  function Added(open: Stack, overhead: int): Stack
  {
    if open == [] then open
    else open[|open| - 1 := (open[|open| - 1].0, open[|open| - 1].1 + overhead)]
  }

  predicate Reads(lines: seq<Line>, open: Stack)
    decreases |lines|
  {
    lines == [] || (Readable(lines[0], open) && Reads(lines[1..], AfterLine(lines[0], open)))
  }

  function AfterLines(lines: seq<Line>, open: Stack): Stack
    requires Reads(lines, open)
    decreases |lines|
  {
    if lines == [] then open else AfterLines(lines[1..], AfterLine(lines[0], open))
  }

  lemma {:induction false} ReadsJoin(a: seq<Line>, b: seq<Line>, open: Stack)
    requires Reads(a, open) && Reads(b, AfterLines(a, open))
    ensures Reads(a + b, open) && AfterLines(a + b, open) == AfterLines(b, AfterLines(a, open))
    decreases |a|
  {
    if a == [] {
      assert a + b == b;
    } else {
      assert (a + b)[0] == a[0] && (a + b)[1..] == a[1..] + b;
      ReadsJoin(a[1..], b, AfterLine(a[0], open));
    }
  }

  lemma {:induction false} OneLine(line: Line, open: Stack)
    requires Readable(line, open)
    ensures Reads([line], open) && AfterLines([line], open) == AfterLine(line, open)
  {
    assert [line][1..] == [];
  }

  lemma {:induction false} AddedTwice(open: Stack, a: int, b: int)
    ensures Added(Added(open, a), b) == Added(open, a + b)
  {
  }

  lemma {:induction false} TreeReads(t: Tree, open: Stack)
    ensures Reads(Render(t, |open|), open) && AfterLines(Render(t, |open|), open) == Added(open, Sum(t))
    decreases t, 0
  {
    var first, inside, last := Start(t.event, |open|), RenderAll(t.kids, |open| + 1), End(t.event, Sum(t), |open|);
    var inner := open + [(t.event, t.event.overhead)];
    OneLine(first, open);
    ForestReads(t.kids, inner);
    ReadsJoin([first], inside, open);
    assert Added(inner, SumAll(t.kids)) == open + [(t.event, Sum(t))];
    OneLine(last, open + [(t.event, Sum(t))]);
    ReadsJoin([first] + inside, [last], open);
    assert (open + [(t.event, Sum(t))])[..|open|] == open;
  }

  lemma {:induction false} ForestReads(ts: seq<Tree>, open: Stack)
    ensures Reads(RenderAll(ts, |open|), open) && AfterLines(RenderAll(ts, |open|), open) == Added(open, SumAll(ts))
    decreases ts, 1
  {
    if ts != [] {
      var init, last := ts[..|ts| - 1], ts[|ts| - 1];
      ForestReads(init, open);
      TreeReads(last, Added(open, SumAll(init)));
      ReadsJoin(RenderAll(init, |open|), Render(last, |open|), open);
      AddedTwice(open, SumAll(init), Sum(last));
    }
  }

  /** The printout of a chain reads from its first line to its last, and leaves nothing open. */
  lemma {:induction false} PrintoutReads(chain: seq<Event>)
    ensures Reads(RenderAll(Build(chain), 0), []) && AfterLines(RenderAll(Build(chain), 0), []) == []
  {
    ForestReads(Build(chain), []);
  }
}
