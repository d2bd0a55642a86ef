/** Timeline::print of src/utils/timeline.cc: grouping the events of a session and turning its
    intervals, sorted by start, into a nested call tree with one pass over a stack. */
module Timeline {
  import opened Sequences

  const WORD := 0x1_0000_0000_0000_0000    // clock ticks are unsigned 64-bit

  datatype Event = Event(beg: nat, end: nat, overhead: int, sess: string, func: string)

  // A printed line: the start of an event, or its end with the overhead inside it.
  datatype Line = Start(event: Event, depth: nat) | End(event: Event, overhead: int, depth: nat)

  datatype Tree = Node(event: Event, kids: seq<Tree>)

  // An event belongs under an earlier one unless it starts after that has ended. Instant events on
  // the boundary and partially overlapping ones belong to the earlier one.
  predicate Fits(parent: Event, e: Event)
  {
    var next := (e.beg + 1) % WORD;
    (if next < e.end then next else e.end) <= parent.end
  }

  // ---------------------------------------------------------------- trees

  /** The overhead of an event and of everything nested in it. */
  function Sum(t: Tree): int
  {
    t.event.overhead + SumAll(t.kids)
  }

  function SumAll(ts: seq<Tree>): int
  {
    if ts == [] then 0 else SumAll(ts[..|ts| - 1]) + Sum(ts[|ts| - 1])
  }

  /** How a tree is printed. */
  function Render(t: Tree, depth: nat): seq<Line>
    decreases t, 0
  {
    [Start(t.event, depth)] + RenderAll(t.kids, depth + 1) + [End(t.event, Sum(t), depth)]
  }

  function RenderAll(ts: seq<Tree>, depth: nat): seq<Line>
    decreases ts, 1
  {
    if ts == [] then [] else RenderAll(ts[..|ts| - 1], depth) + Render(ts[|ts| - 1], depth)
  }

  /** The events of a tree in the order they start. */
  function Events(t: Tree): seq<Event>
    decreases t, 0
  {
    [t.event] + EventsAll(t.kids)
  }

  function EventsAll(ts: seq<Tree>): seq<Event>
    decreases ts, 1
  {
    if ts == [] then [] else EventsAll(ts[..|ts| - 1]) + Events(ts[|ts| - 1])
  }

  // `e` starts after the tree and everything on its last branch has ended.
  predicate Escapes(e: Event, t: Tree)
  {
    !Fits(t.event, e) && (t.kids != [] ==> Escapes(e, t.kids[|t.kids| - 1]))
  }

  /** Every event is under the innermost open event it fits. */
  predicate Nested(t: Tree)
    decreases t, 0
  {
    NestedAll(t.kids) && forall i :: 0 <= i < |t.kids| ==> Fits(t.event, t.kids[i].event)
  }

  predicate NestedAll(ts: seq<Tree>)
    decreases ts, 1
  {
    && (forall i :: 0 <= i < |ts| ==> Nested(ts[i]))
    && (forall i :: 0 < i < |ts| ==> Escapes(ts[i].event, ts[i - 1]))
  }

  // ---------------------------------------------------------------- the call tree is determined

  // Adding one more event where it belongs.
  function Place(ts: seq<Tree>, e: Event): seq<Tree>
  {
    if ts != [] && !Escapes(e, ts[|ts| - 1])
    then ts[..|ts| - 1] + [Node(ts[|ts| - 1].event, Place(ts[|ts| - 1].kids, e))]
    else ts + [Node(e, [])]
  }

  /** The call tree of a chain, one event after another, without a stack. */
  function Build(chain: seq<Event>): seq<Tree>
  {
    if chain == [] then [] else Place(Build(chain[..|chain| - 1]), chain[|chain| - 1])
  }

  // The trees without the event that starts last.
  function WithoutLast(ts: seq<Tree>): seq<Tree>
    requires ts != []
  {
    var t := ts[|ts| - 1];
    if t.kids == [] then ts[..|ts| - 1] else ts[..|ts| - 1] + [Node(t.event, WithoutLast(t.kids))]
  }

  function LastEvent(ts: seq<Tree>): Event
    requires ts != []
  {
    var t := ts[|ts| - 1];
    if t.kids == [] then t.event else LastEvent(t.kids)
  }

  lemma {:induction false} LastIsLast(ts: seq<Tree>)
    requires ts != []
    ensures EventsAll(ts) == EventsAll(WithoutLast(ts)) + [LastEvent(ts)]
  {
    var init, t := ts[..|ts| - 1], ts[|ts| - 1];
    if t.kids != [] {
      LastIsLast(t.kids);
      var less := Node(t.event, WithoutLast(t.kids));
      RenderMore(init, less, 0);
      assert Events(t) == Events(less) + [LastEvent(ts)];
    }
  }

  lemma {:induction false} LastStaysInside(parent: Event, ts: seq<Tree>)
    requires ts != [] && Nested(Node(parent, ts))
    ensures !Escapes(LastEvent(ts), Node(parent, WithoutLast(ts)))
    decreases ts
  {
    var t := ts[|ts| - 1];
    assert Fits(parent, t.event);
    if t.kids != [] {
      assert Nested(t) && t == Node(t.event, t.kids);
      LastStaysInside(t.event, t.kids);
    }
  }

  lemma {:induction false} NestedInit(ts: seq<Tree>)
    requires ts != [] && NestedAll(ts)
    ensures NestedAll(ts[..|ts| - 1]) && Nested(ts[|ts| - 1]) && Follows(ts[|ts| - 1].event, ts[..|ts| - 1])
  {
  }

  lemma {:induction false} RootsStay(ts: seq<Tree>)
    requires ts != []
    ensures |WithoutLast(ts)| <= |ts|
    ensures forall i :: 0 <= i < |WithoutLast(ts)| ==> WithoutLast(ts)[i].event == ts[i].event
  {
  }

  lemma {:induction false} LastLeavesNesting(ts: seq<Tree>)
    requires ts != [] && NestedAll(ts)
    ensures NestedAll(WithoutLast(ts))
    decreases ts
  {
    var init, t := ts[..|ts| - 1], ts[|ts| - 1];
    NestedInit(ts);
    if t.kids != [] {
      LastLeavesNesting(t.kids);
      RootsStay(t.kids);
      NestedMore(init, Node(t.event, WithoutLast(t.kids)));
    }
  }

  lemma {:induction false} PlaceInside(init: seq<Tree>, less: Tree, e: Event)
    requires !Escapes(e, less)
    ensures Place(init + [less], e) == init + [Node(less.event, Place(less.kids, e))]
  {
    assert (init + [less])[..|init|] == init;
  }

  lemma {:induction false} PlaceBeside(init: seq<Tree>, e: Event)
    requires Follows(e, init)
    ensures Place(init, e) == init + [Node(e, [])]
  {
  }

  lemma {:induction false} LastIsPlaced(ts: seq<Tree>)
    requires ts != [] && NestedAll(ts)
    ensures Place(WithoutLast(ts), LastEvent(ts)) == ts
    decreases ts
  {
    var init, t := ts[..|ts| - 1], ts[|ts| - 1];
    NestedInit(ts);
    assert ts == init + [t] && t == Node(t.event, t.kids);
    if t.kids != [] {
      LastIsPlaced(t.kids);
      LastStaysInside(t.event, t.kids);
      PlaceInside(init, Node(t.event, WithoutLast(t.kids)), LastEvent(ts));
    } else {
      PlaceBeside(init, t.event);
    }
  }

  /** The nesting rule leaves no choice: a nested forest is the one its events build. So the walk
      prints the call tree of its chain, and no other printout would meet the rule. */
  lemma {:induction false} NestingIsUnique(ts: seq<Tree>)
    requires NestedAll(ts)
    ensures ts == Build(EventsAll(ts))
    decreases |EventsAll(ts)|
  {
    if ts != [] {
      LastIsLast(ts);
      LastIsPlaced(ts);
      LastLeavesNesting(ts);
      var events := EventsAll(ts);
      assert events[..|events| - 1] == EventsAll(WithoutLast(ts));
      NestingIsUnique(WithoutLast(ts));
    }
  }

  lemma {:induction false} PlaceAddsLast(ts: seq<Tree>, e: Event)
    ensures EventsAll(Place(ts, e)) == EventsAll(ts) + [e]
    decreases ts
  {
    if ts != [] && !Escapes(e, ts[|ts| - 1]) {
      var init, t := ts[..|ts| - 1], ts[|ts| - 1];
      PlaceAddsLast(t.kids, e);
      RenderMore(init, Node(t.event, Place(t.kids, e)), 0);
      Regroup([t.event], EventsAll(t.kids), [e]);
      Regroup(EventsAll(init), Events(t), [e]);
    } else {
      RenderMore(ts, Node(e, []), 0);
      assert Events(Node(e, [])) == [e];
    }
  }

  lemma {:induction false} PlaceFits(parent: Event, ts: seq<Tree>, e: Event)
    requires forall i :: 0 <= i < |ts| ==> Fits(parent, ts[i].event)
    requires !Escapes(e, Node(parent, ts))
    ensures forall i :: 0 <= i < |Place(ts, e)| ==> Fits(parent, Place(ts, e)[i].event)
  {
  }

  lemma {:induction false} PlaceKeepsNesting(ts: seq<Tree>, e: Event)
    requires NestedAll(ts)
    ensures NestedAll(Place(ts, e))
    decreases ts
  {
    if ts != [] && !Escapes(e, ts[|ts| - 1]) {
      var init, t := ts[..|ts| - 1], ts[|ts| - 1];
      NestedInit(ts);
      PlaceKeepsNesting(t.kids, e);
      assert t == Node(t.event, t.kids);
      PlaceFits(t.event, t.kids, e);
      NestedMore(init, Node(t.event, Place(t.kids, e)));
    } else {
      NestedMore(ts, Node(e, []));
    }
  }

  lemma {:induction false} BuildNests(chain: seq<Event>)
    ensures NestedAll(Build(chain))
  {
    if chain != [] {
      var init := chain[..|chain| - 1];
      BuildNests(init);
      PlaceKeepsNesting(Build(init), chain[|chain| - 1]);
    }
  }

  lemma {:induction false} BuildMore(init: seq<Event>, last: Event)
    ensures Build(init + [last]) == Place(Build(init), last)
  {
    assert (init + [last])[..|init|] == init;
  }

  lemma {:induction false} BuildHasEvents(chain: seq<Event>, n: nat)
    requires n <= |chain|
    ensures EventsAll(Build(chain[..n])) == chain[..n]
  {
    if n > 0 {
      BuildHasEvents(chain, n - 1);
      TakeMore(chain, n - 1);
      BuildMore(chain[..n - 1], chain[n - 1]);
      PlaceAddsLast(Build(chain[..n - 1]), chain[n - 1]);
    } else {
      assert chain[..n] == [] && Build([]) == [];
    }
  }

  /** Every chain has a nested call tree of exactly its events, and only one. */
  lemma {:induction false} BuildIsNested(chain: seq<Event>, ts: seq<Tree>)
    ensures NestedAll(ts) && EventsAll(ts) == chain <==> ts == Build(chain)
  {
    BuildNests(chain);
    BuildHasEvents(chain, |chain|);
    TakeAll(chain);
    if NestedAll(ts) && EventsAll(ts) == chain {
      NestingIsUnique(ts);
    }
  }

  // ---------------------------------------------------------------- the stack as a partial tree

  // An open event with the subtrees already complete under it.
  datatype Frame = Frame(event: Event, kids: seq<Tree>)

  // What has been printed of an open event.
  function RenderFrame(f: Frame, depth: nat): seq<Line>
  {
    [Start(f.event, depth)] + RenderAll(f.kids, depth + 1)
  }

  function RenderOpen(frames: seq<Frame>): seq<Line>
  {
    if frames == [] then []
    else RenderOpen(frames[..|frames| - 1]) + RenderFrame(frames[|frames| - 1], |frames| - 1)
  }

  function EventsOpen(frames: seq<Frame>): seq<Event>
  {
    if frames == [] then []
    else EventsOpen(frames[..|frames| - 1]) + Events(Node(frames[|frames| - 1].event, frames[|frames| - 1].kids))
  }

  // The complete trees of the session, and the open events from the outermost in.
  datatype Partial = Partial(roots: seq<Tree>, frames: seq<Frame>)

  function RenderPartial(p: Partial): seq<Line>
  {
    RenderAll(p.roots, 0) + RenderOpen(p.frames)
  }

  function EventsPartial(p: Partial): seq<Event>
  {
    EventsAll(p.roots) + EventsOpen(p.frames)
  }

  // A new event on top of the stack.
  function Pushed(p: Partial, e: Event): Partial
  {
    p.(frames := p.frames + [Frame(e, [])])
  }

  // The top event is complete.
  function Popped(p: Partial): Partial
    requires p.frames != []
  {
    var f := p.frames[|p.frames| - 1];
    var t := Node(f.event, f.kids);
    var rest := p.frames[..|p.frames| - 1];
    if rest == [] then Partial(p.roots + [t], [])
    else
      var under := rest[|rest| - 1];
      Partial(p.roots, rest[|rest| - 1 := under.(kids := under.kids + [t])])
  }

  lemma {:induction false} OpenMore(frames: seq<Frame>, f: Frame)
    ensures RenderOpen(frames + [f]) == RenderOpen(frames) + RenderFrame(f, |frames|)
    ensures EventsOpen(frames + [f]) == EventsOpen(frames) + Events(Node(f.event, f.kids))
  {
    assert (frames + [f])[..|frames|] == frames;
  }

  lemma {:induction false} PushRenders(p: Partial, e: Event)
    ensures RenderPartial(Pushed(p, e)) == RenderPartial(p) + [Start(e, |p.frames|)]
    ensures EventsPartial(Pushed(p, e)) == EventsPartial(p) + [e]
  {
    OpenMore(p.frames, Frame(e, []));
    assert RenderAll([], |p.frames| + 1) == [] && Events(Node(e, [])) == [e];
  }

  lemma {:induction false} RenderMore(ts: seq<Tree>, t: Tree, depth: nat)
    ensures RenderAll(ts + [t], depth) == RenderAll(ts, depth) + Render(t, depth)
    ensures EventsAll(ts + [t]) == EventsAll(ts) + Events(t)
    ensures SumAll(ts + [t]) == SumAll(ts) + Sum(t)
  {
    assert (ts + [t])[..|ts|] == ts;
  }

  // A complete tree is its frame and its end.
  lemma {:induction false} FrameEnds(f: Frame, depth: nat)
    ensures Render(Node(f.event, f.kids), depth)
            == RenderFrame(f, depth) + [End(f.event, Sum(Node(f.event, f.kids)), depth)]
  {
  }

  lemma {:induction false} FrameGrows(f: Frame, t: Tree, depth: nat)
    ensures RenderFrame(f.(kids := f.kids + [t]), depth) == RenderFrame(f, depth) + Render(t, depth + 1)
    ensures Events(Node(f.event, f.kids + [t])) == Events(Node(f.event, f.kids)) + Events(t)
  {
    RenderMore(f.kids, t, depth + 1);
  }

  // Closing the top frame inside the one below it prints its end and keeps the events.
  lemma {:induction false} PopInside(base: seq<Frame>, under: Frame, f: Frame)
    ensures var t, n := Node(f.event, f.kids), |base|;
      && RenderOpen(base + [under.(kids := under.kids + [t])])
         == RenderOpen(base + [under] + [f]) + [End(f.event, Sum(t), n + 1)]
      && EventsOpen(base + [under.(kids := under.kids + [t])]) == EventsOpen(base + [under] + [f])
  {
    var t, n := Node(f.event, f.kids), |base|;
    OpenMore(base, under.(kids := under.kids + [t]));
    OpenMore(base, under);
    OpenMore(base + [under], f);
    FrameGrows(under, t, n);
    FrameEnds(f, n + 1);
    Regroup4(RenderOpen(base), RenderFrame(under, n), RenderFrame(f, n + 1), [End(f.event, Sum(t), n + 1)]);
    Regroup(EventsOpen(base), Events(Node(under.event, under.kids)), Events(t));
  }

  lemma {:induction false} Regroup4<T>(a: seq<T>, b: seq<T>, c: seq<T>, d: seq<T>)
    ensures a + (b + (c + d)) == (a + b) + c + d
  {
  }

  // Closing the outermost event makes it a root.
  lemma {:induction false} PopOutermost(roots: seq<Tree>, f: Frame)
    ensures var t := Node(f.event, f.kids);
      && RenderAll(roots + [t], 0) + RenderOpen([]) == RenderAll(roots, 0) + RenderOpen([f]) + [End(f.event, Sum(t), 0)]
      && EventsAll(roots + [t]) + EventsOpen([]) == EventsAll(roots) + EventsOpen([f])
  {
    OpenMore([], f);
    assert [] + [f] == [f];
    RenderMore(roots, Node(f.event, f.kids), 0);
    FrameEnds(f, 0);
  }

  lemma {:induction false} PopRenders(p: Partial)
    requires p.frames != []
    ensures var f := p.frames[|p.frames| - 1];
      && RenderPartial(Popped(p)) == RenderPartial(p) + [End(f.event, Sum(Node(f.event, f.kids)), |p.frames| - 1)]
      && EventsPartial(Popped(p)) == EventsPartial(p)
  {
    var n := |p.frames|;
    var f := p.frames[n - 1];
    if n == 1 {
      assert p.frames == [f];
      PopOutermost(p.roots, f);
    } else {
      var t, base, under := Node(f.event, f.kids), p.frames[..n - 2], p.frames[n - 2];
      assert p.frames == base + [under] + [f];
      assert Popped(p).frames == base + [under.(kids := under.kids + [t])];
      PopInside(base, under, f);
      Regroup(RenderAll(p.roots, 0), RenderOpen(p.frames), [End(f.event, Sum(t), n - 1)]);
    }
  }

  // ---------------------------------------------------------------- the walk over the stack

  function TopKids(p: Partial): seq<Tree>
  {
    if p.frames == [] then p.roots else p.frames[|p.frames| - 1].kids
  }

  // The overhead known for an open event: its own and that of its complete subtrees.
  function Known(f: Frame): int
  {
    f.event.overhead + SumAll(f.kids)
  }

  // The source's stack holds the open events with their known overheads, except that the top one
  // still lacks `carry`, the sum of the subtree closed last.
  predicate Mirrors(dfs: seq<(Event, int)>, p: Partial, carry: int)
  {
    && |dfs| == |p.frames|
    && (forall i :: 0 <= i < |dfs| ==> dfs[i].0 == p.frames[i].event)
    && (forall i :: 0 <= i < |dfs| - 1 ==> dfs[i].1 == Known(p.frames[i]))
    && (dfs != [] ==> dfs[|dfs| - 1].1 + carry == Known(p.frames[|dfs| - 1]))
  }

  predicate Follows(e: Event, ts: seq<Tree>)
  {
    ts != [] ==> Escapes(e, ts[|ts| - 1])
  }

  predicate NestedPartial(p: Partial)
  {
    && NestedAll(p.roots) && NestedFrames(p.frames)
    && (p.frames != [] ==> Follows(p.frames[0].event, p.roots))
  }

  predicate NestedFrames(frames: seq<Frame>)
  {
    && (forall i :: 0 <= i < |frames| ==> Nested(Node(frames[i].event, frames[i].kids)))
    && (forall i :: 0 < i < |frames| ==>
          Fits(frames[i - 1].event, frames[i].event) && Follows(frames[i].event, frames[i - 1].kids))
  }

  lemma {:induction false} PushKeepsFrames(frames: seq<Frame>, e: Event)
    requires NestedFrames(frames)
    requires frames != [] ==> Fits(frames[|frames| - 1].event, e) && Follows(e, frames[|frames| - 1].kids)
    ensures NestedFrames(frames + [Frame(e, [])])
  {
    LeafNests(e);
    var more := frames + [Frame(e, [])];
    assert forall i :: 0 <= i < |frames| ==> more[i] == frames[i];
  }

  lemma {:induction false} LeafNests(e: Event)
    ensures Nested(Node(e, []))
  {
  }

  // The top event becomes the last subtree of the one around it.
  lemma {:induction false} PopKeepsFrames(base: seq<Frame>, under: Frame, t: Tree)
    requires NestedFrames(base + [under]) && Nested(t) && Fits(under.event, t.event) && Follows(t.event, under.kids)
    ensures NestedFrames(base + [under.(kids := under.kids + [t])])
  {
    var n := |base|;
    assert (base + [under])[n] == under && Nested(Node(under.event, under.kids));
    NestedMore(under.kids, t);
    assert Nested(Node(under.event, under.kids + [t]));
    forall i | 0 <= i < n ensures (base + [under])[i] == base[i] {
    }
  }

  lemma {:induction false} NestedMore(ts: seq<Tree>, t: Tree)
    requires NestedAll(ts) && Nested(t) && Follows(t.event, ts)
    ensures NestedAll(ts + [t])
  {
  }

  lemma {:induction false} PopKeepsNesting(p: Partial)
    requires NestedPartial(p) && p.frames != []
    ensures NestedPartial(Popped(p))
  {
    var n := |p.frames|;
    var t := Node(p.frames[n - 1].event, p.frames[n - 1].kids);
    assert Nested(t);
    if n == 1 {
      NestedMore(p.roots, t);
    } else {
      var base, under := p.frames[..n - 2], p.frames[n - 2];
      assert p.frames[..n - 1] == base + [under];
      assert Popped(p).frames == base + [under.(kids := under.kids + [t])];
      PopKeepsFrames(base, under, t);
    }
  }

  // What starts after the top event and its subtrees starts after the tree they become.
  lemma {:induction false} PopFollows(p: Partial, e: Event)
    requires p.frames != [] && Follows(e, TopKids(p)) && !Fits(p.frames[|p.frames| - 1].event, e)
    ensures Follows(e, TopKids(Popped(p)))
  {
  }

  lemma {:induction false} PushKeepsNesting(p: Partial, e: Event)
    requires NestedPartial(p) && Follows(e, TopKids(p))
    requires p.frames != [] ==> Fits(p.frames[|p.frames| - 1].event, e)
    ensures NestedPartial(Pushed(p, e))
  {
    PushKeepsFrames(p.frames, e);
  }

  lemma {:induction false} PopMirrors(dfs: seq<(Event, int)>, p: Partial)
    requires Mirrors(dfs, p, 0) && p.frames != []
    ensures Mirrors(dfs[..|dfs| - 1], Popped(p), dfs[|dfs| - 1].1)
    ensures dfs[|dfs| - 1].1 == Sum(Node(p.frames[|p.frames| - 1].event, p.frames[|p.frames| - 1].kids))
  {
    var n := |p.frames|;
    var f := p.frames[n - 1];
    if n > 1 {
      KnownMore(p.frames[n - 2], Node(f.event, f.kids));
      var under := p.frames[n - 2].(kids := p.frames[n - 2].kids + [Node(f.event, f.kids)]);
      MirrorsBelow(dfs[..n - 1], p.frames[..n - 1], under, dfs[n - 1].1, p.roots);
    }
  }

  lemma {:induction false} MirrorsBelow(dfs: seq<(Event, int)>, frames: seq<Frame>, under: Frame, carry: int,
                                        roots: seq<Tree>)
    requires frames != [] && |dfs| == |frames| && under.event == frames[|frames| - 1].event
    requires forall i :: 0 <= i < |dfs| ==> dfs[i].0 == frames[i].event
    requires forall i :: 0 <= i < |dfs| - 1 ==> dfs[i].1 == Known(frames[i])
    requires dfs[|dfs| - 1].1 + carry == Known(under)
    ensures Mirrors(dfs, Partial(roots, frames[|frames| - 1 := under]), carry)
  {
  }

  lemma {:induction false} KnownMore(f: Frame, t: Tree)
    ensures Known(f.(kids := f.kids + [t])) == Known(f) + Sum(t)
  {
    RenderMore(f.kids, t, 0);
  }

  lemma {:induction false} CarryMirrors(dfs: seq<(Event, int)>, p: Partial, carry: int)
    requires dfs != [] && Mirrors(dfs, p, carry)
    ensures Mirrors(dfs[|dfs| - 1 := (dfs[|dfs| - 1].0, dfs[|dfs| - 1].1 + carry)], p, 0)
  {
  }

  // ---------------------------------------------------------------- the loops of print

  // The sum of the subtree closed last goes to the event around it.
  method AddCarry(dfs: seq<(Event, int)>, carry: int, ghost p: Partial)
      returns (dfs': seq<(Event, int)>, carry': int, top: Event)
    requires dfs != [] && Mirrors(dfs, p, carry)
    ensures Mirrors(dfs', p, 0) && |dfs'| == |dfs| && carry' == dfs'[|dfs| - 1].1
    ensures top == dfs'[|dfs| - 1].0 == p.frames[|p.frames| - 1].event
  {
    CarryMirrors(dfs, p, carry);
    top := dfs[|dfs| - 1].0;
    carry' := dfs[|dfs| - 1].1 + carry;
    dfs' := dfs[|dfs| - 1 := (top, carry')];
  }

  // Close the top event, whose overhead is complete.
  method CloseTop(dfs: seq<(Event, int)>, lines: seq<Line>, ghost p: Partial)
      returns (dfs': seq<(Event, int)>, lines': seq<Line>, ghost p': Partial)
    requires dfs != [] && Mirrors(dfs, p, 0) && NestedPartial(p) && lines == RenderPartial(p)
    ensures p' == Popped(p) && |dfs'| == |dfs| - 1
    ensures Mirrors(dfs', p', dfs[|dfs| - 1].1) && NestedPartial(p') && lines' == RenderPartial(p')
    ensures EventsPartial(p') == EventsPartial(p)
  {
    PopMirrors(dfs, p);
    PopRenders(p);
    PopKeepsNesting(p);
    var top := |dfs| - 1;
    lines' := lines + [End(dfs[top].0, dfs[top].1, top)];
    dfs' := dfs[..top];
    p' := Popped(p);
  }

  // Close the open events that `e` does not fit, adding each one's overhead to the one around it.
  method CloseUntilFits(e: Event, dfs0: seq<(Event, int)>, lines0: seq<Line>, ghost p0: Partial)
      returns (dfs: seq<(Event, int)>, lines: seq<Line>, ghost p: Partial)
    requires Mirrors(dfs0, p0, 0) && NestedPartial(p0) && lines0 == RenderPartial(p0) && Follows(e, TopKids(p0))
    ensures Mirrors(dfs, p, 0) && NestedPartial(p) && lines == RenderPartial(p) && Follows(e, TopKids(p))
    ensures EventsPartial(p) == EventsPartial(p0)
    ensures dfs == [] || Fits(dfs[|dfs| - 1].0, e)
  {
    dfs, lines, p := dfs0, lines0, p0;
    var carry := 0;
    while dfs != []
      invariant Mirrors(dfs, p, carry) && NestedPartial(p) && lines == RenderPartial(p)
      invariant EventsPartial(p) == EventsPartial(p0) && Follows(e, TopKids(p))
      decreases |dfs|
    {
      var top;
      dfs, carry, top := AddCarry(dfs, carry, p);
      if Fits(top, e) {
        break;
      }
      PopFollows(p, e);
      dfs, lines, p := CloseTop(dfs, lines, p);
    }
  }

  method OpenEvent(e: Event, dfs0: seq<(Event, int)>, lines0: seq<Line>, ghost p0: Partial)
      returns (dfs: seq<(Event, int)>, lines: seq<Line>, ghost p: Partial)
    requires Mirrors(dfs0, p0, 0) && NestedPartial(p0) && lines0 == RenderPartial(p0) && Follows(e, TopKids(p0))
    requires dfs0 == [] || Fits(dfs0[|dfs0| - 1].0, e)
    ensures Mirrors(dfs, p, 0) && NestedPartial(p) && lines == RenderPartial(p) && TopKids(p) == []
    ensures EventsPartial(p) == EventsPartial(p0) + [e]
  {
    PushRenders(p0, e);
    PushKeepsNesting(p0, e);
    dfs := dfs0 + [(e, e.overhead)];
    lines := lines0 + [Start(e, |dfs| - 1)];
    p := Pushed(p0, e);
  }

  method CloseAll(dfs0: seq<(Event, int)>, lines0: seq<Line>, ghost p0: Partial)
      returns (lines: seq<Line>, ghost forest: seq<Tree>)
    requires Mirrors(dfs0, p0, 0) && NestedPartial(p0) && lines0 == RenderPartial(p0)
    ensures lines == RenderAll(forest, 0) && NestedAll(forest) && EventsAll(forest) == EventsPartial(p0)
  {
    var dfs := dfs0;
    ghost var p := p0;
    lines := lines0;
    var carry := 0;
    while dfs != []
      invariant Mirrors(dfs, p, carry) && NestedPartial(p) && lines == RenderPartial(p)
      invariant EventsPartial(p) == EventsPartial(p0)
      decreases |dfs|
    {
      var top;
      dfs, carry, top := AddCarry(dfs, carry, p);
      dfs, lines, p := CloseTop(dfs, lines, p);
    }
    forest := p.roots;
  }

  method OpenInTurn(chain: seq<Event>) returns (dfs: seq<(Event, int)>, lines: seq<Line>, ghost p: Partial)
    ensures Mirrors(dfs, p, 0) && NestedPartial(p) && lines == RenderPartial(p) && EventsPartial(p) == chain
  {
    dfs, lines, p := [], [], Partial([], []);
    for n := 0 to |chain|
      invariant Mirrors(dfs, p, 0) && NestedPartial(p) && lines == RenderPartial(p)
      invariant EventsPartial(p) == chain[..n] && TopKids(p) == []
    {
      dfs, lines, p := CloseUntilFits(chain[n], dfs, lines, p);
      dfs, lines, p := OpenEvent(chain[n], dfs, lines, p);
      TakeMore(chain, n);
    }
    TakeAll(chain);
  }

  /** The loops of print over one sorted chain print its call tree. */
  method Walk(chain: seq<Event>) returns (lines: seq<Line>)
    ensures lines == RenderAll(Build(chain), 0)
  {
    var dfs;
    ghost var p, forest;
    dfs, lines, p := OpenInTurn(chain);
    lines, forest := CloseAll(dfs, lines, p);
    NestingIsUnique(forest);
  }

  // ---------------------------------------------------------------- what the printout means

  function StartsOf(lines: seq<Line>): seq<Event>
  {
    if lines == [] then []
    else StartsOf(lines[..|lines| - 1]) + if lines[|lines| - 1].Start? then [lines[|lines| - 1].event] else []
  }

  function EndsOf(lines: seq<Line>): seq<Event>
  {
    if lines == [] then []
    else EndsOf(lines[..|lines| - 1]) + if lines[|lines| - 1].End? then [lines[|lines| - 1].event] else []
  }

  lemma {:induction false} LinesJoin(a: seq<Line>, b: seq<Line>)
    ensures StartsOf(a + b) == StartsOf(a) + StartsOf(b)
    ensures EndsOf(a + b) == EndsOf(a) + EndsOf(b)
  {
    if b == [] {
      assert a + b == a;
    } else {
      assert (a + b)[..|a + b| - 1] == a + b[..|b| - 1];
      LinesJoin(a, b[..|b| - 1]);
    }
  }

  lemma {:induction false} FirstAndLast(first: Line, inside: seq<Line>, last: Line)
    requires first.Start? && last.End?
    ensures StartsOf([first] + inside + [last]) == [first.event] + StartsOf(inside)
    ensures EndsOf([first] + inside + [last]) == EndsOf(inside) + [last.event]
  {
    LinesJoin([first] + inside, [last]);
    LinesJoin([first], inside);
    assert [first][..0] == [] && [last][..0] == [];
  }

  lemma {:induction false} SameCounts(a: seq<Event>, b: seq<Event>, e: Event)
    requires multiset(a) == multiset(b)
    ensures multiset(a + [e]) == multiset([e] + b)
  {
  }

  lemma {:induction false} TreeOpensAndCloses(t: Tree, depth: nat)
    ensures StartsOf(Render(t, depth)) == Events(t)
    ensures multiset(EndsOf(Render(t, depth))) == multiset(Events(t))
    decreases t, 0
  {
    var inside := RenderAll(t.kids, depth + 1);
    OpensAndCloses(t.kids, depth + 1);
    FirstAndLast(Start(t.event, depth), inside, End(t.event, Sum(t), depth));
    SameCounts(EndsOf(inside), EventsAll(t.kids), t.event);
  }

  lemma {:induction false} CountsJoin(a: seq<Event>, b: seq<Event>, c: seq<Event>, d: seq<Event>)
    requires multiset(a) == multiset(b) && multiset(c) == multiset(d)
    ensures multiset(a + c) == multiset(b + d)
  {
  }

  /** Every event of the chain is opened once, in order of its start, and closed once. */
  lemma {:induction false} OpensAndCloses(ts: seq<Tree>, depth: nat)
    ensures StartsOf(RenderAll(ts, depth)) == EventsAll(ts)
    ensures multiset(EndsOf(RenderAll(ts, depth))) == multiset(EventsAll(ts))
    decreases ts, 1
  {
    if ts != [] {
      var init, last := ts[..|ts| - 1], ts[|ts| - 1];
      OpensAndCloses(init, depth);
      TreeOpensAndCloses(last, depth);
      LinesJoin(RenderAll(init, depth), Render(last, depth));
      CountsJoin(EndsOf(RenderAll(init, depth)), EventsAll(init), EndsOf(Render(last, depth)), Events(last));
    }
  }

  /** std::accumulate over the chain, the overhead in the session's header. */
  function TotalOverhead(chain: seq<Event>): int
  {
    if chain == [] then 0 else TotalOverhead(chain[..|chain| - 1]) + chain[|chain| - 1].overhead
  }

  lemma {:induction false} OverheadJoins(a: seq<Event>, b: seq<Event>)
    ensures TotalOverhead(a + b) == TotalOverhead(a) + TotalOverhead(b)
  {
    if b == [] {
      assert a + b == a;
    } else {
      assert (a + b)[..|a + b| - 1] == a + b[..|b| - 1];
      OverheadJoins(a, b[..|b| - 1]);
    }
  }

  lemma {:induction false} TreeOverhead(t: Tree)
    ensures Sum(t) == TotalOverhead(Events(t))
    decreases t, 0
  {
    HeaderOverhead(t.kids);
    OverheadJoins([t.event], EventsAll(t.kids));
    assert [t.event][..0] == [];
  }

  /** The overheads closed at the roots add up to the header's, and each event's to the overheads
      of its whole subtree. */
  lemma {:induction false} HeaderOverhead(ts: seq<Tree>)
    ensures SumAll(ts) == TotalOverhead(EventsAll(ts))
    decreases ts, 1
  {
    if ts != [] {
      HeaderOverhead(ts[..|ts| - 1]);
      TreeOverhead(ts[|ts| - 1]);
      OverheadJoins(EventsAll(ts[..|ts| - 1]), Events(ts[|ts| - 1]));
    }
  }

  // ---------------------------------------------------------------- sessions

  ghost predicate ByStart(chain: seq<Event>)
  {
    forall i, k :: 0 <= i < k < |chain| ==> chain[i].beg <= chain[k].beg
  }

  method InsertByStart(chain: seq<Event>, e: Event) returns (r: seq<Event>)
    requires ByStart(chain)
    ensures ByStart(r) && multiset(r) == multiset(chain) + multiset{e}
  {
    var k := 0;
    while k < |chain| && chain[k].beg <= e.beg
      invariant k <= |chain| && forall i :: 0 <= i < k ==> chain[i].beg <= e.beg
    {
      k := k + 1;
    }
    InsertKeepsOrder(chain, k, e);
    InsertAddsOne(chain, k, e);
    r := chain[..k] + [e] + chain[k..];
  }

  // std::sort by the start tick.
  method SortByStart(events: seq<Event>) returns (chain: seq<Event>)
    ensures ByStart(chain) && multiset(chain) == multiset(events)
  {
    chain := [];
    for n := 0 to |events|
      invariant ByStart(chain) && multiset(chain) == multiset(events[..n])
    {
      chain := InsertByStart(chain, events[n]);
      TakeMore(events, n);
    }
    TakeAll(events);
  }

  lemma {:induction false} InsertKeepsOrder(chain: seq<Event>, k: nat, e: Event)
    requires ByStart(chain) && k <= |chain|
    requires (forall i :: 0 <= i < k ==> chain[i].beg <= e.beg) && (k < |chain| ==> e.beg < chain[k].beg)
    ensures ByStart(chain[..k] + [e] + chain[k..])
  {
    assert forall i :: k <= i < |chain| ==> e.beg <= chain[i].beg;
  }

  lemma {:induction false} InsertAddsOne(chain: seq<Event>, k: nat, e: Event)
    requires k <= |chain|
    ensures multiset(chain[..k] + [e] + chain[k..]) == multiset(chain) + multiset{e}
  {
    assert chain == chain[..k] + chain[k..];
  }

  // The events of an inverted interval, of one session, and of sessions that are not complete yet.
  function Inverted(events: seq<Event>): seq<Event>
  {
    if events == [] then []
    else
      var e := events[|events| - 1];
      Inverted(events[..|events| - 1]) + if e.beg > e.end then [e] else []
  }

  function OfSession(events: seq<Event>, sess: string): seq<Event>
  {
    if events == [] then []
    else
      var e := events[|events| - 1];
      OfSession(events[..|events| - 1], sess) + if e.beg <= e.end && e.sess == sess then [e] else []
  }

  function Waiting(events: seq<Event>, ready: set<string>): seq<Event>
  {
    if events == [] then []
    else
      var e := events[|events| - 1];
      Waiting(events[..|events| - 1], ready) + if e.beg <= e.end && e.sess !in ready then [e] else []
  }

  lemma {:induction false} CountMore(init: seq<Event>, last: Event, take: bool, e: Event)
    ensures multiset(init + if take then [last] else [])[e] == multiset(init)[e] + if take && last == e then 1 else 0
  {
    assert init + [] == init;
  }

  lemma {:induction false} InvertedMore(init: seq<Event>, last: Event, e: Event)
    ensures multiset(Inverted(init + [last]))[e]
            == multiset(Inverted(init))[e] + if last.beg > last.end && last == e then 1 else 0
  {
    assert (init + [last])[..|init|] == init;
    CountMore(Inverted(init), last, last.beg > last.end, e);
  }

  lemma {:induction false} WaitingMore(init: seq<Event>, ready: set<string>, last: Event, e: Event)
    ensures multiset(Waiting(init + [last], ready))[e] == multiset(Waiting(init, ready))[e]
              + if last.beg <= last.end && last.sess !in ready && last == e then 1 else 0
  {
    assert (init + [last])[..|init|] == init;
    CountMore(Waiting(init, ready), last, last.beg <= last.end && last.sess !in ready, e);
  }

  lemma {:induction false} OfSessionMore(init: seq<Event>, sess: string, last: Event, e: Event)
    ensures multiset(OfSession(init + [last], sess))[e] == multiset(OfSession(init, sess))[e]
              + if last.beg <= last.end && last.sess == sess && last == e then 1 else 0
  {
    assert (init + [last])[..|init|] == init;
    CountMore(OfSession(init, sess), last, last.beg <= last.end && last.sess == sess, e);
  }

  /** Every consumed event is dropped as inverted, put back, or in the chain of its session, as
      often as it was consumed. */
  lemma {:induction false} EventsArePartitioned(events: seq<Event>, ready: set<string>, e: Event)
    ensures multiset(events)[e] == multiset(Inverted(events))[e] + multiset(Waiting(events, ready))[e]
              + if e.sess in ready then multiset(OfSession(events, e.sess))[e] else 0
  {
    if events != [] {
      var init, last := events[..|events| - 1], events[|events| - 1];
      assert events == init + [last];
      EventsArePartitioned(init, ready, e);
      CountMore(init, last, true, e);
      InvertedMore(init, last, e);
      WaitingMore(init, ready, last, e);
      OfSessionMore(init, e.sess, last, e);
    }
  }

  // The clock from the first start to the end of the event started last.
  function Span(chain: seq<Event>): int
    requires chain != []
  {
    chain[|chain| - 1].end - chain[0].beg
  }

  function LatestEnd(chain: seq<Event>): (latest: int)
    requires chain != []
    ensures forall e :: e in chain ==> e.end <= latest
    ensures exists e :: e in chain && e.end == latest
  {
    var last := chain[|chain| - 1];
    if |chain| == 1 then last.end
    else
      var before := LatestEnd(chain[..|chain| - 1]);
      assert chain == chain[..|chain| - 1] + [last];
      if before < last.end then last.end else before
  }

  /** From the first start to the last end. The source's span falls short of it exactly when some
      event outlasts the one started last, as an event that encloses it may. */
  lemma {:induction false} SpanIsExtent(chain: seq<Event>)
    requires chain != [] && ByStart(chain)
    ensures forall e :: e in chain ==> chain[0].beg <= e.beg
    ensures Span(chain) <= LatestEnd(chain) - chain[0].beg
    ensures Span(chain) == LatestEnd(chain) - chain[0].beg
            <==> forall e :: e in chain ==> e.end <= chain[|chain| - 1].end
  {
    assert chain[|chain| - 1] in chain;
  }

  datatype Report = Report(chain: seq<Event>, duration: int, overhead: int, lines: seq<Line>)

  method SumOverhead(chain: seq<Event>) returns (total: int)
    ensures total == TotalOverhead(chain)
  {
    total := 0;
    for n := 0 to |chain|
      invariant total == TotalOverhead(chain[..n])
    {
      total := total + chain[n].overhead;
      assert chain[..n + 1][..n] == chain[..n];
    }
    assert chain[..|chain|] == chain;
  }

  method Group(events: seq<Event>, ready: set<string>)
      returns (groups: map<string, seq<Event>>, dropped: seq<Event>, requeued: seq<Event>)
    ensures groups.Keys == ready && forall s :: s in ready ==> groups[s] == OfSession(events, s)
    ensures dropped == Inverted(events) && requeued == Waiting(events, ready)
  {
    groups, dropped, requeued := map s | s in ready :: [], [], [];
    for n := 0 to |events|
      invariant groups.Keys == ready && forall s :: s in ready ==> groups[s] == OfSession(events[..n], s)
      invariant dropped == Inverted(events[..n]) && requeued == Waiting(events[..n], ready)
    {
      var e := events[n];
      assert events[..n + 1][..n] == events[..n];
      if e.beg > e.end {
        dropped := dropped + [e];
      } else if e.sess in groups {
        groups := groups[e.sess := groups[e.sess] + [e]];
      } else {
        requeued := requeued + [e];
      }
    }
    assert events[..|events|] == events;
  }

  /** print, for the consumed events and the sessions that were stopped. Each session with events
      gets one report: its events sorted by start, the total overhead, and the call tree. */
  method Print(events: seq<Event>, ready: set<string>)
      returns (reports: map<string, Report>, dropped: seq<Event>, requeued: seq<Event>)
    ensures dropped == Inverted(events) && requeued == Waiting(events, ready)
    ensures forall s :: s in reports <==> s in ready && OfSession(events, s) != []
    ensures forall s :: s in reports ==>
              && ByStart(reports[s].chain) && multiset(reports[s].chain) == multiset(OfSession(events, s))
              && reports[s].chain != [] && reports[s].duration == Span(reports[s].chain) - reports[s].overhead
              && reports[s].overhead == TotalOverhead(reports[s].chain)
              && reports[s].lines == RenderAll(Build(reports[s].chain), 0)
  {
    var groups;
    groups, dropped, requeued := Group(events, ready);
    reports := map[];
    var left := ready;
    while left != {}
      invariant left <= ready
      invariant forall s :: s in reports <==> s in ready && s !in left && OfSession(events, s) != []
      invariant forall s :: s in reports ==>
              && ByStart(reports[s].chain) && multiset(reports[s].chain) == multiset(OfSession(events, s))
              && reports[s].chain != [] && reports[s].duration == Span(reports[s].chain) - reports[s].overhead
              && reports[s].overhead == TotalOverhead(reports[s].chain)
              && reports[s].lines == RenderAll(Build(reports[s].chain), 0)
      decreases |left|
    {
      var s :| s in left;
      left := left - {s};
      if groups[s] == [] { continue; }
      var chain := SortByStart(groups[s]);
      assert |multiset(chain)| == |multiset(groups[s])|;
      var overhead := SumOverhead(chain);
      var lines := Walk(chain);
      var duration := Span(chain) - overhead;
      reports := reports[s := Report(chain, duration, overhead, lines)];
    }
  }
}
