/** Nested and concurrent child contexts: each has its own memory, which its parent takes over when it ends. */
module MemoryTree {
  import opened Memory

  /** A context: its parent (created before it), its manager, and the message types its parent takes over. */
  datatype Context = Context(parent: nat, owner: Owner, retained: set<MessageType>)

  type Tree = seq<Context>

  type Times = map<nat, nat>

  /** Context 0 is the session's.  `posted` tells, by id, what was posted and where; `ended` tells of every context
      that has ended how many had ended before it. */
  datatype Post = Post(at: nat, message: Message)

  datatype State = State(tree: Tree, ended: Times, memories: seq<seq<Message>>, posted: map<nat, Post>)

  datatype Step =
    | Open(parent: nat, runnableName: string, retained: set<MessageType>)
    | Say(at: nat, messages: seq<Message>)
    | Exit(at: nat)

  ghost predicate WellFormed(t: Tree) { |t| > 0 && forall c :: 0 < c < |t| ==> t[c].parent < c }

  function ChildOwner(parent: Owner, runnableName: string): Owner {
    Owner(parent.entryName, runnableName, parent.path + if runnableName != "" then [runnableName] else [])
  }

  function Initial(root: Owner): State { State([Context(0, root, {})], map[], [[]], map[]) }

  predicate IsOpen(st: State, c: nat) { c < |st.tree| && c !in st.ended }

  /** Only open contexts act, and every message is posted once.  Contexts may end in any order. */
  ghost predicate Allowed(st: State, s: Step) {
    match s
    case Open(p, _, _) => IsOpen(st, p)
    case Say(c, ms) => IsOpen(st, c) && Distinct(ms) && forall m <- ms :: m.id !in st.posted
    case Exit(c) => c > 0 && IsOpen(st, c)
  }

  /** What `async with` and `gather` ensure besides: a context ends after its children. */
  ghost predicate ChildrenFirst(st: State, s: Step) {
    s.Exit? ==> forall d :: 0 < d < |st.tree| && st.tree[d].parent == s.at ==> d in st.ended
  }

  function Record(posted: map<nat, Post>, c: nat, ms: seq<Message>): map<nat, Post> {
    if ms == [] then posted
    else Record(posted, c, ms[..|ms| - 1])[ms[|ms| - 1].id := Post(c, ms[|ms| - 1])]
  }

  ghost predicate Sound(st: State) {
    && WellFormed(st.tree) && |st.memories| == |st.tree|
    && (forall c <- st.ended :: 0 < c < |st.tree| && st.ended[c] < |st.ended|)
    && (forall id <- st.posted :: st.posted[id].at < |st.tree| && st.posted[id].message.id == id)
  }

  function Apply(st: State, s: Step): State
    requires WellFormed(st.tree) && |st.memories| == |st.tree|
  {
    match s
    case Open(p, name, kinds) =>
      if p < |st.tree| then
        var child := Context(p, ChildOwner(st.tree[p].owner, name), kinds);
        State(st.tree + [child], st.ended, st.memories + [[]], st.posted)
      else st
    case Say(c, ms) =>
      if c < |st.tree| then
        State(st.tree, st.ended, st.memories[c := Added(st.tree[c].owner, st.memories[c], ms)],
              Record(st.posted, c, ms))
      else st
    case Exit(c) =>
      if 0 < c < |st.tree| then
        var p := st.tree[c].parent;
        State(st.tree, st.ended[c := |st.ended|],
              st.memories[p := Added(st.tree[p].owner, st.memories[p], Retain(st.tree[c].retained, st.memories[c]))],
              st.posted)
      else st
  }

  // ---- Where a message has got to ----

  /** What a context that has ended passes on no longer leaves its parent if the parent ended before it. */
  predicate Stuck(t: Tree, ended: Times, x: nat)
    requires 0 < x < |t| && x in ended
  {
    t[x].parent in ended && ended[t[x].parent] < ended[x]
  }

  /** The message as it arrives at context `c` when it was posted at `x`: stamped by every context on the way.  All of
      them but `c` have ended, each before its parent did, and retained it. */
  function Arrived(t: Tree, ended: Times, x: nat, c: nat, m: Message): seq<Message>
    requires WellFormed(t) && x < |t|
    decreases x
  {
    var stamped := Stamp(t[x].owner, m);
    if x == c then [stamped]
    else if x == 0 || x !in ended || m.kind !in t[x].retained then []
    else if t[x].parent != c && Stuck(t, ended, x) then []
    else Arrived(t, ended, t[x].parent, c, stamped)
  }

  function ArrivedPost(st: State, id: nat, c: nat): seq<Message>
    requires Sound(st) && id in st.posted
  {
    Arrived(st.tree, st.ended, st.posted[id].at, c, st.posted[id].message)
  }

  /** Context `c` holds exactly what has arrived there, in creation order. */
  ghost predicate Holds(st: State, c: nat)
    requires Sound(st) && c < |st.tree|
  {
    && Ordered(st.memories[c])
    && (forall m <- st.memories[c] :: m.id in st.posted && ArrivedPost(st, m.id, c) == [m])
    && (forall id <- st.posted :: ArrivedPost(st, id, c) != [] ==> ArrivedPost(st, id, c)[0] in st.memories[c])
  }

  ghost predicate Inv(st: State) { Sound(st) && forall c :: 0 <= c < |st.tree| ==> Holds(st, c) }

  lemma {:induction false} ArrivedKeepsId(t: Tree, ended: Times, x: nat, c: nat, m: Message)
    requires WellFormed(t) && x < |t|
    ensures |Arrived(t, ended, x, c, m)| <= 1
    ensures forall a <- Arrived(t, ended, x, c, m) :: a.id == m.id && a.kind == m.kind
    decreases x
  {
    if x != c && x > 0 { ArrivedKeepsId(t, ended, t[x].parent, c, Stamp(t[x].owner, m)); }
  }

  /** Nothing passes an open context. */
  lemma {:induction false} OpenStops(t: Tree, ended: Times, x: nat, c: nat, d: nat, m: Message)
    requires WellFormed(t) && x < |t| && c !in ended && d < c && Arrived(t, ended, x, c, m) != []
    ensures Arrived(t, ended, x, d, m) == []
    decreases x
  {
    if x != c {
      ArrivedIsBelow(t, ended, x, c, m);
      ArrivedIsBelow(t, ended, t[x].parent, c, Stamp(t[x].owner, m));
      OpenStops(t, ended, t[x].parent, c, d, Stamp(t[x].owner, m));
    }
  }

  lemma {:induction false} ArrivedIsBelow(t: Tree, ended: Times, x: nat, c: nat, m: Message)
    requires WellFormed(t) && x < |t| && Arrived(t, ended, x, c, m) != []
    ensures c <= x
    decreases x
  {
    if x != c { ArrivedIsBelow(t, ended, t[x].parent, c, Stamp(t[x].owner, m)); }
  }

  // ---- Opening a context ----

  lemma {:induction false} OpenArrives(t: Tree, ended: Times, child: Context, x: nat, c: nat, m: Message)
    requires WellFormed(t) && x < |t| && child.parent < |t|
    ensures WellFormed(t + [child])
    ensures Arrived(t + [child], ended, x, c, m) == if c == |t| then [] else Arrived(t, ended, x, c, m)
    decreases x
  {
    if x != c && x > 0 { OpenArrives(t, ended, child, t[x].parent, c, Stamp(t[x].owner, m)); }
  }

  lemma {:induction false} OpenKeeps(st: State, s: Step)
    requires Inv(st) && s.Open? && Allowed(st, s)
    ensures Inv(Apply(st, s))
  {
    var st' := Apply(st, s);
    assert WellFormed(st'.tree);
    assert Sound(st');
    forall c | 0 <= c < |st'.tree| ensures Holds(st', c) {
      forall id <- st.posted
        ensures ArrivedPost(st', id, c) == if c == |st.tree| then [] else ArrivedPost(st, id, c)
      {
        OpenArrives(st.tree, st.ended, st'.tree[|st.tree|], st.posted[id].at, c, st.posted[id].message);
      }
      if c < |st.tree| { assert Holds(st, c); }
    }
  }

  // ---- Posting ----

  lemma {:induction false} RecordHolds(posted: map<nat, Post>, c: nat, ms: seq<Message>)
    requires Distinct(ms) && forall m <- ms :: m.id !in posted
    ensures forall m <- ms :: m.id in Record(posted, c, ms) && Record(posted, c, ms)[m.id] == Post(c, m)
    ensures forall id <- posted :: id in Record(posted, c, ms) && Record(posted, c, ms)[id] == posted[id]
    ensures forall id <- Record(posted, c, ms) :: id in posted || exists m :: m in ms && m.id == id
    decreases |ms|
  {
    if ms == [] {
    } else {
      var init, last := ms[..|ms| - 1], ms[|ms| - 1];
      assert ms == init + [last];
      RecordHolds(posted, c, init);
    }
  }

  /** What memory `c` holds after messages with new ids were added, member by member. */
  lemma {:induction false} AddedHolds(o: Owner, memory: seq<Message>, more: seq<Message>)
    requires Ordered(memory) && Distinct(more) && forall a, b :: a in memory && b in more ==> a.id != b.id
    ensures Ordered(Added(o, memory, more))
    ensures forall x :: x in Added(o, memory, more) <==> x in memory || exists m :: m in more && x == Stamp(o, m)
  {
    var all := memory + StampAll(o, more);
    forall i, j | 0 <= i < j < |all| ensures all[i].id != all[j].id {
      if i < |memory| && j >= |memory| { assert all[i] in memory && more[j - |memory|] in more; }
    }
    SortHolds(all);
    forall m <- more ensures Stamp(o, m) in StampAll(o, more) {
      var i :| 0 <= i < |more| && more[i] == m;
      assert StampAll(o, more)[i] == Stamp(o, m);
    }
    forall x <- StampAll(o, more) ensures exists m :: m in more && x == Stamp(o, m) {
      var i :| 0 <= i < |more| && StampAll(o, more)[i] == x;
      assert more[i] in more;
    }
  }

  lemma {:induction false} SayIsSound(st: State, c: nat, ms: seq<Message>)
    requires Inv(st) && Allowed(st, Say(c, ms))
    ensures Sound(Apply(st, Say(c, ms)))
  {
    RecordHolds(st.posted, c, ms);
  }

  lemma {:induction false} SayKeepsAt(st: State, c: nat, ms: seq<Message>, d: nat)
    requires Inv(st) && Allowed(st, Say(c, ms)) && Sound(Apply(st, Say(c, ms))) && d < |st.tree|
    ensures Holds(Apply(st, Say(c, ms)), d)
  {
    var st' := Apply(st, Say(c, ms));
    RecordHolds(st.posted, c, ms);
    assert Holds(st, d);
    forall m <- ms ensures ArrivedPost(st', m.id, d) == if d == c then [Stamp(st.tree[c].owner, m)] else [] { }
    forall id <- st.posted ensures ArrivedPost(st', id, d) == ArrivedPost(st, id, d) { }
    if d == c { AddedHolds(st.tree[c].owner, st.memories[c], ms); }
  }

  lemma {:induction false} SayKeeps(st: State, s: Step)
    requires Inv(st) && s.Say? && Allowed(st, s)
    ensures Inv(Apply(st, s))
  {
    SayIsSound(st, s.at, s.messages);
    forall d | 0 <= d < |st.tree| ensures Holds(Apply(st, s), d) { SayKeepsAt(st, s.at, s.messages, d); }
  }

  // ---- Ending a context ----

  /** What has arrived at the ending context moves on to its parent if retained, even if the parent has ended already;
      nothing else moves. */
  lemma {:induction false} ExitArrives(t: Tree, ended: Times, x: nat, c: nat, d: nat, m: Message)
    requires WellFormed(t) && x < |t| && 0 < c < |t| && c !in ended && forall y <- ended :: ended[y] < |ended|
    ensures var p := t[c].parent;
      Arrived(t, ended[c := |ended|], x, d, m) ==
        if d == p && Arrived(t, ended, x, c, m) != [] then
          if m.kind in t[c].retained then [Stamp(t[p].owner, Arrived(t, ended, x, c, m)[0])] else []
        else Arrived(t, ended, x, d, m)
    decreases x
  {
    if x == d {
      if Arrived(t, ended, x, c, m) != [] { ArrivedIsBelow(t, ended, x, c, m); }
    } else if x == c {
      EndingStops(t, ended, c, d, m);
    } else if x > 0 && x in ended && m.kind in t[x].retained {
      ExitArrives(t, ended, t[x].parent, c, d, Stamp(t[x].owner, m));
    }
  }

  /** From the ending context itself a message goes as far as the parent. */
  lemma {:induction false} EndingStops(t: Tree, ended: Times, c: nat, d: nat, m: Message)
    requires WellFormed(t) && 0 < c < |t| && c !in ended && c != d && forall y <- ended :: ended[y] < |ended|
    ensures var p := t[c].parent;
      Arrived(t, ended[c := |ended|], c, d, m) ==
        if d == p && m.kind in t[c].retained then [Stamp(t[p].owner, Stamp(t[c].owner, m))] else []
  {
  }

  lemma {:induction false} ExitIsSound(st: State, c: nat)
    requires Inv(st) && Allowed(st, Exit(c))
    ensures Sound(Apply(st, Exit(c)))
  {
    assert |st.ended[c := |st.ended|]| == |st.ended| + 1;
  }

  lemma {:induction false} ExitKeepsAway(st: State, c: nat, d: nat)
    requires Inv(st) && Allowed(st, Exit(c)) && Sound(Apply(st, Exit(c))) && d < |st.tree| && d != st.tree[c].parent
    ensures Holds(Apply(st, Exit(c)), d)
  {
    var st' := Apply(st, Exit(c));
    assert Holds(st, d);
    forall id <- st.posted ensures ArrivedPost(st', id, d) == ArrivedPost(st, id, d) {
      ExitArrives(st.tree, st.ended, st.posted[id].at, c, d, st.posted[id].message);
    }
  }

  /** What the parent holds after a child ended, by id. */
  lemma {:induction false} ExitMoves(st: State, c: nat, id: nat)
    requires Inv(st) && Allowed(st, Exit(c)) && Sound(Apply(st, Exit(c))) && id in st.posted
    ensures var p := st.tree[c].parent; var a := ArrivedPost(st, id, c);
      ArrivedPost(Apply(st, Exit(c)), id, p) ==
        if a != [] then if a[0].kind in st.tree[c].retained then [Stamp(st.tree[p].owner, a[0])] else []
        else ArrivedPost(st, id, p)
    ensures ArrivedPost(st, id, c) != [] ==> ArrivedPost(st, id, st.tree[c].parent) == []
  {
    var post := st.posted[id];
    ExitArrives(st.tree, st.ended, post.at, c, st.tree[c].parent, post.message);
    ArrivedKeepsId(st.tree, st.ended, post.at, c, post.message);
    if ArrivedPost(st, id, c) != [] {
      OpenStops(st.tree, st.ended, post.at, c, st.tree[c].parent, post.message);
    }
  }

  /** `x` is the parent's copy of a retained message of context `c`. */
  ghost predicate Moved(st: State, c: nat, x: Message)
    requires Sound(st) && 0 < c < |st.tree|
  {
    exists b :: b in st.memories[c] && b.kind in st.tree[c].retained && x == Stamp(st.tree[st.tree[c].parent].owner, b)
  }

  /** The messages that move are not yet at the parent, so its memory stays in creation order. */
  lemma {:induction false} ExitAdds(st: State, c: nat)
    requires Inv(st) && Allowed(st, Exit(c)) && Sound(Apply(st, Exit(c)))
    ensures var p := st.tree[c].parent; var now := Apply(st, Exit(c)).memories[p];
      Ordered(now) && forall x :: x in now <==> x in st.memories[p] || Moved(st, c, x)
  {
    var p := st.tree[c].parent;
    assert Holds(st, p) && Holds(st, c);
    var kept := Retain(st.tree[c].retained, st.memories[c]);
    RetainHolds(st.tree[c].retained, st.memories[c]);
    RetainOrdered(st.tree[c].retained, st.memories[c]);
    forall a, b | a in st.memories[p] && b in kept ensures a.id != b.id { ExitMoves(st, c, b.id); }
    AddedHolds(st.tree[p].owner, st.memories[p], kept);
    var now := Apply(st, Exit(c)).memories[p];
    forall x: Message {:trigger x in now} ensures x in now <==> x in st.memories[p] || Moved(st, c, x) { }
  }

  lemma {:induction false} ExitHoldsOnlyArrived(st: State, c: nat, x: Message)
    requires Inv(st) && Allowed(st, Exit(c)) && Sound(Apply(st, Exit(c)))
    requires x in Apply(st, Exit(c)).memories[st.tree[c].parent]
    ensures x.id in st.posted && ArrivedPost(Apply(st, Exit(c)), x.id, st.tree[c].parent) == [x]
  {
    var p := st.tree[c].parent;
    assert Holds(st, p) && Holds(st, c);
    ExitAdds(st, c);
    if x in st.memories[p] {
      ExitMoves(st, c, x.id);
    } else {
      var b :| b in st.memories[c] && b.kind in st.tree[c].retained && x == Stamp(st.tree[p].owner, b);
      ExitMoves(st, c, b.id);
    }
  }

  lemma {:induction false} ExitHoldsAllArrived(st: State, c: nat, id: nat)
    requires Inv(st) && Allowed(st, Exit(c)) && Sound(Apply(st, Exit(c))) && id in st.posted
    requires ArrivedPost(Apply(st, Exit(c)), id, st.tree[c].parent) != []
    ensures ArrivedPost(Apply(st, Exit(c)), id, st.tree[c].parent)[0] in Apply(st, Exit(c)).memories[st.tree[c].parent]
  {
    var p := st.tree[c].parent;
    assert Holds(st, p) && Holds(st, c);
    ExitAdds(st, c);
    ExitMoves(st, c, id);
  }

  lemma {:induction false} ExitKeepsParent(st: State, c: nat)
    requires Inv(st) && Allowed(st, Exit(c)) && Sound(Apply(st, Exit(c)))
    ensures Holds(Apply(st, Exit(c)), st.tree[c].parent)
  {
    var st', p := Apply(st, Exit(c)), st.tree[c].parent;
    ExitAdds(st, c);
    forall x <- st'.memories[p] ensures x.id in st'.posted && ArrivedPost(st', x.id, p) == [x] {
      ExitHoldsOnlyArrived(st, c, x);
    }
    forall id <- st'.posted ensures ArrivedPost(st', id, p) != [] ==> ArrivedPost(st', id, p)[0] in st'.memories[p] {
      if ArrivedPost(st', id, p) != [] { ExitHoldsAllArrived(st, c, id); }
    }
  }

  lemma {:induction false} ExitKeeps(st: State, s: Step)
    requires Inv(st) && s.Exit? && Allowed(st, s)
    ensures Inv(Apply(st, s))
  {
    ExitIsSound(st, s.at);
    forall d | 0 <= d < |st.tree| ensures Holds(Apply(st, s), d) {
      if d == st.tree[s.at].parent { ExitKeepsParent(st, s.at); } else { ExitKeepsAway(st, s.at, d); }
    }
  }

  // ---- Runs ----

  /** The steps are allowed one after the other and lead from `st` to `end`. */
  ghost predicate Runs(st: State, steps: seq<Step>, end: State)
    decreases |steps|
  {
    if steps == [] then st == end
    else (WellFormed(st.tree) && |st.memories| == |st.tree| && Allowed(st, steps[0])
          && Runs(Apply(st, steps[0]), steps[1..], end))
  }

  /** In the run, every context ends after its children. */
  ghost predicate Structured(st: State, steps: seq<Step>)
    decreases |steps|
  {
    steps == [] ||
    (WellFormed(st.tree) && |st.memories| == |st.tree| && ChildrenFirst(st, steps[0])
     && Structured(Apply(st, steps[0]), steps[1..]))
  }

  lemma {:induction false} StepKeeps(st: State, s: Step)
    requires Inv(st) && Allowed(st, s)
    ensures Inv(Apply(st, s))
  {
    match s
    case Open(_, _, _) => OpenKeeps(st, s);
    case Say(_, _) => SayKeeps(st, s);
    case Exit(_) => ExitKeeps(st, s);
  }

  lemma {:induction false} RunKeeps(st: State, steps: seq<Step>, end: State)
    requires Inv(st) && Runs(st, steps, end)
    ensures Inv(end)
    decreases |steps|
  {
    if steps == [] {
    } else {
      StepKeeps(st, steps[0]);
      RunKeeps(Apply(st, steps[0]), steps[1..], end);
    }
  }

  // ---- What reaches the session ----

  /** Retained at every level crossed. */
  predicate RetainedToRoot(t: Tree, x: nat, kind: MessageType)
    requires WellFormed(t) && x < |t|
    decreases x
  {
    x == 0 || (kind in t[x].retained && RetainedToRoot(t, t[x].parent, kind))
  }

  /** Every context from `x` up ended, and before its parent did; the session's context never ends. */
  predicate InsideOut(t: Tree, ended: Times, x: nat)
    requires WellFormed(t) && x < |t|
    decreases x
  {
    x == 0 ||
    (x in ended && (t[x].parent in ended ==> ended[x] < ended[t[x].parent]) && InsideOut(t, ended, t[x].parent))
  }

  /** The message with the stamps of every context from `x` up to the root. */
  function StampedToRoot(t: Tree, x: nat, m: Message): Message
    requires WellFormed(t) && x < |t|
    decreases x
  {
    var stamped := Stamp(t[x].owner, m);
    if x == 0 then stamped else StampedToRoot(t, t[x].parent, stamped)
  }

  /** No two contexts end at the same time. */
  ghost predicate Timed(ended: Times) { forall c, d :: c in ended && d in ended && c != d ==> ended[c] != ended[d] }

  lemma {:induction false} ArrivesExactly(t: Tree, ended: Times, x: nat, m: Message)
    requires WellFormed(t) && x < |t| && Timed(ended) && 0 !in ended
    ensures Arrived(t, ended, x, 0, m) ==
      if RetainedToRoot(t, x, m.kind) && InsideOut(t, ended, x) then [StampedToRoot(t, x, m)] else []
    decreases x
  {
    if x == 0 {
    } else {
      ArrivesExactly(t, ended, t[x].parent, Stamp(t[x].owner, m));
    }
  }

  lemma {:induction false} StepTimed(st: State, s: Step)
    requires Inv(st) && Timed(st.ended) && Allowed(st, s)
    ensures Timed(Apply(st, s).ended)
  {
  }

  lemma {:induction false} RunTimed(st: State, steps: seq<Step>, end: State)
    requires Inv(st) && Timed(st.ended) && Runs(st, steps, end)
    ensures Inv(end) && Timed(end.ended)
    decreases |steps|
  {
    if steps == [] {
    } else {
      StepTimed(st, steps[0]);
      StepKeeps(st, steps[0]);
      RunTimed(Apply(st, steps[0]), steps[1..], end);
    }
  }

  // ---- Main results ----

  /** In every run, whatever the order in which contexts end: the session's memory holds, in creation order and each
      once, exactly the messages retained at every level they crossed whose contexts have ended from the inside out.
      A retained message of a context that ended after its parent is lost, and so is everything that came up through
      such a context. */
  lemma {:induction false} ReachesSessionExactly(root: Owner, steps: seq<Step>, end: State)
    requires Runs(Initial(root), steps, end)
    ensures Inv(end) && Ordered(end.memories[0])
    ensures forall m <- end.memories[0] :: m.id in end.posted
    ensures forall id <- end.posted ::
      var post := end.posted[id]; var m := StampedToRoot(end.tree, post.at, post.message);
      if RetainedToRoot(end.tree, post.at, post.message.kind) && InsideOut(end.tree, end.ended, post.at)
      then m in end.memories[0] && m.id == id
      else forall x <- end.memories[0] :: x.id != id
  {
    RunTimed(Initial(root), steps, end);
    assert Holds(end, 0);
    forall id <- end.posted
      ensures ArrivedPost(end, id, 0) ==
        if RetainedToRoot(end.tree, end.posted[id].at, end.posted[id].message.kind)
           && InsideOut(end.tree, end.ended, end.posted[id].at)
        then [StampedToRoot(end.tree, end.posted[id].at, end.posted[id].message)] else []
      ensures forall a <- ArrivedPost(end, id, 0) :: a.id == id
    {
      ArrivesExactly(end.tree, end.ended, end.posted[id].at, end.posted[id].message);
      ArrivedKeepsId(end.tree, end.ended, end.posted[id].at, 0, end.posted[id].message);
    }
  }

  ghost predicate AllEnded(st: State) { forall c :: 0 < c < |st.tree| ==> c in st.ended }

  /** Whoever has ended ended after all its children. */
  ghost predicate Layered(st: State)
    requires Sound(st)
  {
    forall c :: 0 < c < |st.tree| && st.tree[c].parent in st.ended ==>
      c in st.ended && st.ended[c] < st.ended[st.tree[c].parent]
  }

  lemma {:induction false} RunLayered(st: State, steps: seq<Step>, end: State)
    requires Inv(st) && Layered(st) && Runs(st, steps, end) && Structured(st, steps)
    ensures Inv(end) && Layered(end)
    decreases |steps|
  {
    if steps == [] {
    } else {
      StepKeeps(st, steps[0]);
      RunLayered(Apply(st, steps[0]), steps[1..], end);
    }
  }

  lemma {:induction false} LayeredIsInsideOut(st: State, x: nat)
    requires Sound(st) && Layered(st) && AllEnded(st) && x < |st.tree|
    ensures InsideOut(st.tree, st.ended, x)
    decreases x
  {
    if x == 0 {
    } else {
      LayeredIsInsideOut(st, st.tree[x].parent);
    }
  }

  /** With children ending first, nothing is lost: once every child has ended, the session's memory holds exactly the
      messages retained at every level they crossed. */
  lemma {:induction false} Consolidation(root: Owner, steps: seq<Step>, end: State)
    requires Runs(Initial(root), steps, end) && Structured(Initial(root), steps) && AllEnded(end)
    ensures Inv(end) && Ordered(end.memories[0])
    ensures forall m <- end.memories[0] :: m.id in end.posted
    ensures forall id <- end.posted ::
      var post := end.posted[id]; var m := StampedToRoot(end.tree, post.at, post.message);
      if RetainedToRoot(end.tree, post.at, post.message.kind) then m in end.memories[0] && m.id == id
      else forall x <- end.memories[0] :: x.id != id
  {
    ReachesSessionExactly(root, steps, end);
    RunLayered(Initial(root), steps, end);
    forall id <- end.posted ensures InsideOut(end.tree, end.ended, end.posted[id].at) {
      LayeredIsInsideOut(end, end.posted[id].at);
    }
  }

  /** The order in which contexts ended, and in which messages were posted, leaves no trace: two finished runs over the
      same tree with the same posts leave the same memory. */
  lemma {:induction false} OrderLeavesNoTrace(
    root: Owner, steps: seq<Step>, end: State, steps': seq<Step>, end': State)
    requires Runs(Initial(root), steps, end) && Structured(Initial(root), steps) && AllEnded(end)
    requires Runs(Initial(root), steps', end') && Structured(Initial(root), steps') && AllEnded(end')
    requires end.tree == end'.tree && end.posted == end'.posted
    ensures Inv(end) && Inv(end') && end.memories[0] == end'.memories[0]
  {
    SessionHoldsPosts(root, steps, end);
    SessionHoldsPosts(root, steps', end');
    assert Holds(end, 0) && Holds(end', 0);
    SameArrivals(end, end');
    SameArrivals(end', end);
    OrderedIsUnique(end.memories[0], end'.memories[0]);
  }

  lemma {:induction false} SameArrivals(a: State, b: State)
    requires Sound(a) && Sound(b) && Holds(a, 0) && Holds(b, 0) && a.tree == b.tree && a.posted == b.posted
    requires forall id <- a.posted :: ArrivedPost(a, id, 0) == Expected(a.tree, a.posted[id])
    requires forall id <- b.posted :: ArrivedPost(b, id, 0) == Expected(b.tree, b.posted[id])
    ensures forall m <- a.memories[0] :: m in b.memories[0]
  {
    forall m <- a.memories[0] ensures m in b.memories[0] { assert ArrivedPost(b, m.id, 0) == [m]; }
  }

  /** What the session is given of a post when nothing is lost. */
  function Expected(t: Tree, post: Post): seq<Message>
    requires WellFormed(t) && post.at < |t|
  {
    if RetainedToRoot(t, post.at, post.message.kind) then [StampedToRoot(t, post.at, post.message)] else []
  }

  lemma {:induction false} SessionHoldsPosts(root: Owner, steps: seq<Step>, end: State)
    requires Runs(Initial(root), steps, end) && Structured(Initial(root), steps) && AllEnded(end)
    ensures Inv(end)
    ensures forall id <- end.posted :: ArrivedPost(end, id, 0) == Expected(end.tree, end.posted[id])
  {
    RunTimed(Initial(root), steps, end);
    RunLayered(Initial(root), steps, end);
    forall id <- end.posted
      ensures ArrivedPost(end, id, 0) == Expected(end.tree, end.posted[id])
    {
      LayeredIsInsideOut(end, end.posted[id].at);
      ArrivesExactly(end.tree, end.ended, end.posted[id].at, end.posted[id].message);
    }
  }

  // ---- Stamps ----

  /** Children are managed the way their parents are, one runnable further down. */
  ghost predicate Inherited(t: Tree)
    requires WellFormed(t)
  {
    forall c :: 0 < c < |t| ==> t[c].owner == ChildOwner(t[t[c].parent].owner, t[c].owner.runnableName)
  }

  lemma {:induction false} RunInherits(st: State, steps: seq<Step>, end: State)
    requires Inv(st) && Inherited(st.tree) && Runs(st, steps, end)
    ensures Inv(end) && Inherited(end.tree)
    decreases |steps|
  {
    if steps == [] {
    } else {
      StepKeeps(st, steps[0]);
      RunInherits(Apply(st, steps[0]), steps[1..], end);
    }
  }

  /** The nearest name on the way up. */
  function NearestRunnable(t: Tree, x: nat): string
    requires WellFormed(t) && x < |t|
    decreases x
  {
    if x == 0 || t[x].owner.runnableName != "" then t[x].owner.runnableName else NearestRunnable(t, t[x].parent)
  }

  /** The path stays that of the context where the message was posted, the runnable is the nearest named one from
      there, and the entry is the session's. */
  lemma {:induction false} StampsStay(t: Tree, x: nat, m: Message)
    requires WellFormed(t) && Inherited(t) && x < |t|
    ensures var s := StampedToRoot(t, x, m);
      && s.id == m.id && s.kind == m.kind && s.content == m.content
      && s.path == (if m.path != [] then m.path else t[x].owner.path)
      && s.runnableName == (if m.runnableName != "" then m.runnableName else NearestRunnable(t, x))
      && s.entryName == (if t[0].owner.entryName != "" then t[0].owner.entryName else m.entryName)
    decreases x
  {
    if x == 0 {
    } else {
      StampsStay(t, t[x].parent, Stamp(t[x].owner, m));
      SameEntry(t, x);
    }
  }

  lemma {:induction false} SameEntry(t: Tree, x: nat)
    requires WellFormed(t) && Inherited(t) && x < |t|
    ensures t[x].owner.entryName == t[0].owner.entryName
    decreases x
  {
    if x == 0 {
    } else {
      SameEntry(t, t[x].parent);
    }
  }

  // ---- Telling children's messages apart ----

  /** The path test of the views that leave children out. */
  predicate IsFromChild(own: seq<string>, other: seq<string>) {
    |other| > |own| && forall i :: 0 <= i < |own| ==> own[i] == other[i]
  }

  /** Some context from `x` up to, but not including, its ancestor `c` has a name. */
  predicate NamedBelow(t: Tree, x: nat, c: nat)
    requires WellFormed(t) && x < |t|
    decreases x
  {
    x != c && x > 0 && (t[x].owner.runnableName != "" || NamedBelow(t, t[x].parent, c))
  }

  predicate Descends(t: Tree, x: nat, c: nat)
    requires WellFormed(t) && x < |t|
    decreases x
  {
    x == c || (x > 0 && Descends(t, t[x].parent, c))
  }

  /** A descendant's message is recognised as one exactly when a named runnable lies between; children without a
      runnable are taken for the context itself. */
  lemma {:induction false} ChildIsRecognisedExactly(t: Tree, x: nat, c: nat)
    requires WellFormed(t) && Inherited(t) && x < |t| && Descends(t, x, c)
    ensures c < |t| && t[c].owner.path <= t[x].owner.path
    ensures IsFromChild(t[c].owner.path, t[x].owner.path) <==> NamedBelow(t, x, c)
    decreases x
  {
    if x != c {
      var p := t[x].parent;
      ChildIsRecognisedExactly(t, p, c);
      assert t[p].owner.path <= t[x].owner.path;
      assert t[x].owner == ChildOwner(t[p].owner, t[x].owner.runnableName);
    }
  }

  // ---- Why contexts must end inside out ----

  const ALL: set<MessageType> := {Ai, Human, Sys}

  lemma {:induction false} Then(st: State, s: Step, rest: seq<Step>, end: State)
    requires WellFormed(st.tree) && |st.memories| == |st.tree| && Allowed(st, s) && Runs(Apply(st, s), rest, end)
    ensures Runs(st, [s] + rest, end)
  {
    assert ([s] + rest)[1..] == rest;
  }

  function Grandchild(root: Owner, m: Message): State {
    Apply(Apply(Apply(Initial(root), Open(0, "", ALL)), Open(1, "", ALL)), Say(2, [m]))
  }

  /** A message is posted at a grandchild of the session's context. */
  lemma {:induction false} PostedBelow(root: Owner, m: Message, rest: seq<Step>, end: State)
    returns (st: State)
    ensures st == Grandchild(root, m)
    ensures WellFormed(st.tree) && |st.tree| == |st.memories| == 3 && st.tree[1].parent == 0 && st.tree[2].parent == 1
    ensures st.tree[1].retained == st.tree[2].retained == ALL && st.ended == map[]
    ensures m.id in st.posted && st.posted[m.id] == Post(2, m)
    ensures Runs(st, rest, end) ==>
      Runs(Initial(root), [Open(0, "", ALL)] + ([Open(1, "", ALL)] + ([Say(2, [m])] + rest)), end)
  {
    var st1 := Apply(Initial(root), Open(0, "", ALL));
    var st2 := Apply(st1, Open(1, "", ALL));
    RecordHolds(st2.posted, 2, [m]);
    assert m in [m];
    st := Apply(st2, Say(2, [m]));
    if Runs(st, rest, end) {
      Then(st2, Say(2, [m]), rest, end);
      Then(st1, Open(1, "", ALL), [Say(2, [m])] + rest, end);
      Then(Initial(root), Open(0, "", ALL), [Open(1, "", ALL)] + ([Say(2, [m])] + rest), end);
    }
  }

  lemma {:induction false} TwoExits(st: State, first: nat, second: nat) returns (end: State)
    requires WellFormed(st.tree) && |st.memories| == |st.tree| == 3 && st.ended == map[]
    requires 1 <= first <= 2 && second == 3 - first
    ensures Runs(st, [Exit(first)] + ([Exit(second)] + []), end)
    ensures end.tree == st.tree && end.posted == st.posted && end.ended == map[first := 0, second := 1]
  {
    var mid := Apply(st, Exit(first));
    end := Apply(mid, Exit(second));
    assert mid.ended == map[first := 0];
    Then(mid, Exit(second), [], end);
    Then(st, Exit(first), [Exit(second)] + [], end);
  }

  lemma {:induction false} GrandchildGetsOut(t: Tree, ended: Times, kind: MessageType)
    requires WellFormed(t) && |t| == 3 && t[1].parent == 0 && t[2].parent == 1
    requires t[1].retained == t[2].retained == ALL && 1 in ended && 2 in ended && 0 !in ended
    ensures RetainedToRoot(t, 2, kind) && (InsideOut(t, ended, 2) <==> ended[2] < ended[1])
  {
    assert RetainedToRoot(t, 1, kind) && InsideOut(t, ended, 1);
  }

  lemma {:induction false} GrandchildReaches(root: Owner, steps: seq<Step>, end: State, m: Message)
    requires Runs(Initial(root), steps, end) && m.id in end.posted && end.posted[m.id] == Post(2, m)
    requires WellFormed(end.tree) && |end.tree| == 3 && end.tree[1].parent == 0 && end.tree[2].parent == 1
    requires end.tree[1].retained == end.tree[2].retained == ALL && 1 in end.ended && 2 in end.ended
    ensures Sound(end) && RetainedToRoot(end.tree, 2, m.kind)
    ensures (exists x <- end.memories[0] :: x.id == m.id) <==> end.ended[2] < end.ended[1]
  {
    ReachesSessionExactly(root, steps, end);
    GrandchildGetsOut(end.tree, end.ended, m.kind);
  }

  function ShortRun(m: Message, first: nat, second: nat): seq<Step> {
    [Open(0, "", ALL)] + ([Open(1, "", ALL)] + ([Say(2, [m])] + ([Exit(first)] + ([Exit(second)] + []))))
  }

  lemma {:induction false} ShortRunRuns(root: Owner, m: Message, first: nat, second: nat) returns (end: State)
    requires 1 <= first <= 2 && second == 3 - first
    ensures Runs(Initial(root), ShortRun(m, first, second), end)
    ensures WellFormed(end.tree) && |end.tree| == 3 && end.tree[1].parent == 0 && end.tree[2].parent == 1
    ensures end.tree[1].retained == end.tree[2].retained == ALL && end.ended == map[first := 0, second := 1]
    ensures m.id in end.posted && end.posted[m.id] == Post(2, m)
  {
    var rest := [Exit(first)] + ([Exit(second)] + []);
    var st := PostedBelow(root, m, [], Initial(root));
    end := TwoExits(st, first, second);
    var same := PostedBelow(root, m, rest, end);
  }

  /** The shortest run in which a parent ends before its child, or after it, for any message: the message is retained
      at every level, and reaches the session's memory exactly if the child ends first. */
  lemma {:induction false} EarlyExitLoses(root: Owner, m: Message, first: nat, second: nat) returns (end: State)
    requires 1 <= first <= 2 && second == 3 - first
    ensures Runs(Initial(root), ShortRun(m, first, second), end)
    ensures Sound(end) && AllEnded(end) && m.id in end.posted && end.posted[m.id] == Post(2, m)
    ensures RetainedToRoot(end.tree, 2, m.kind)
    ensures (exists x <- end.memories[0] :: x.id == m.id) <==> first == 2
  {
    end := ShortRunRuns(root, m, first, second);
    GrandchildReaches(root, ShortRun(m, first, second), end, m);
  }
}
