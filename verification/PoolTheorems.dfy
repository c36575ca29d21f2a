/** Safety of the session pool over every interleaving. */
module PoolTheorems {
  import opened Common
  import opened PoolModel

  // ---- Without any condition ----

  lemma {:induction false} MoveSane(s: Pool, r: Request, pc: Pc)
    requires Sane(s)
    requires !pc.Idle? ==> pc.own in s.entries && s.entries[pc.own].sid == pc.sid
    requires pc.Releasing? ==> pc.found in s.entries && s.entries[pc.found].sid == pc.sid
    ensures Sane(Move(s, r, pc))
  {
  }

  lemma {:induction false} WithEntrySane(s: Pool, e: EntryId, x: Entry)
    requires Sane(s) && e in s.entries && x.sid == s.entries[e].sid
    ensures Sane(WithEntry(s, e, x))
  {
  }

  lemma {:induction false} CreateSane(s: Pool, sid: SessionId, r: Request, now: int, loadOk: bool)
    requires Sane(s)
    ensures Sane(Create(s, sid, r, now, loadOk))
  {
  }

  lemma {:induction false} StepSane(lim: Limits, s: Pool, a: Step)
    requires Sane(s) && Enabled(lim, s, a)
    ensures Sane(Apply(lim, s, a))
  {
    match a
    case Lookup(r, sid, now, victim, saveOk, loadOk) =>
      if sid in s.sessions {
        MoveSane(s, r, Waiting(sid, s.sessions[sid]));
      } else {
        var s1 := Evicted(s, victim, saveOk);
        var s2 := Create(s1, sid, r, now, loadOk);
        CreateSane(s1, sid, r, now, loadOk);
        MoveSane(s2, r, Waiting(sid, s2.sessions[sid]));
      }
    case Lock(r, now) =>
      var pc, e := s.At(r), s.entries[s.At(r).own];
      var e' := e.(locked := true, io := r, lastUsed := now, requests := e.requests + 1);
      WithEntrySane(s, pc.own, e');
      MoveSane(WithEntry(s, pc.own, e'), r, Holding(pc.sid, pc.own));
    case Work(r, memory) =>
      WithEntrySane(s, s.At(r).own, s.entries[s.At(r).own].(memory := memory));
    case BeginRelease(r) =>
      var pc := s.At(r);
      if pc.sid in s.sessions { MoveSane(s, r, Releasing(pc.sid, pc.own, s.sessions[pc.sid], false)); }
      else { MoveSane(s, r, Idle); }
    case Save(r, _) =>
      MoveSane(s, r, s.At(r).(saved := true));
    case Unlock(r) =>
      var e' := s.entries[s.At(r).found].(locked := false);
      WithEntrySane(s, s.At(r).found, e');
      MoveSane(WithEntry(s, s.At(r).found, e'), r, Idle);
    case Cleanup(_, _) =>
  }

  function Capacity(lim: Limits): int { if lim.maxSessions > 1 then lim.maxSessions else 1 }

  lemma {:induction false} StepFits(lim: Limits, s: Pool, a: Step)
    requires Sane(s) && Enabled(lim, s, a) && |s.sessions| <= Capacity(lim)
    ensures |Apply(lim, s, a).sessions| <= Capacity(lim)
  {
  }

  // ---- Mutual exclusion ----

  predicate Holds(pc: Pc) { pc.Holding? || pc.Releasing? }

  /** No request waits for, holds or releases the entry. */
  ghost predicate Unused(s: Pool, e: EntryId) {
    forall r <- s.requests :: !s.requests[r].Idle? ==>
      s.requests[r].own != e && (s.requests[r].Releasing? ==> s.requests[r].found != e)
  }

  /** The side condition: a step removes only entries that no request uses. */
  ghost predicate Guarded(lim: Limits, s: Pool, a: Step)
    requires Sane(s) && Enabled(lim, s, a)
  {
    match a
    case Lookup(_, _, _, Some(victim), _, _) => Unused(s, s.sessions[victim])
    case Cleanup(now, _) => forall sid <- Expired(lim, s, now) :: Unused(s, s.sessions[sid])
    case _ => true
  }

  /** Every active request's entry is the pool's entry for its session. */
  ghost predicate Pinned(s: Pool) {
    forall r <- s.requests :: !s.requests[r].Idle? ==>
      && s.requests[r].sid in s.sessions && s.sessions[s.requests[r].sid] == s.requests[r].own
      && (s.requests[r].Releasing? ==> s.requests[r].found == s.requests[r].own)
  }

  /** A holder's entry is locked, carries the holder's IO, and has no other holder. */
  ghost predicate Exclusive(s: Pool) {
    forall r <- s.requests :: Holds(s.requests[r]) && s.requests[r].own in s.entries ==>
      && s.entries[s.requests[r].own].locked && s.entries[s.requests[r].own].io == r
  }

  ghost predicate NoOrphanLock(s: Pool) {
    forall e <- s.entries :: s.entries[e].locked ==> HasHolder(s, e)
  }

  ghost predicate HasHolder(s: Pool, e: EntryId) {
    exists r :: r in s.requests && Holds(s.requests[r]) && s.requests[r].own == e
  }

  /** The sessions that a step removes. */
  function Removed(lim: Limits, s: Pool, a: Step): set<SessionId>
    requires Sane(s)
  {
    match a
    case Lookup(_, _, _, Some(victim), _, _) => {victim}
    case Cleanup(now, _) => Expired(lim, s, now)
    case _ => {}
  }

  lemma {:induction false} GuardedMeans(lim: Limits, s: Pool, a: Step)
    requires Sane(s) && Enabled(lim, s, a)
    ensures Guarded(lim, s, a) <==> forall sid <- Removed(lim, s, a) :: sid in s.sessions && Unused(s, s.sessions[sid])
  {
    if a.Lookup? && a.victim.Some? { assert a.victim.value in s.sessions; }
  }

  /** A session that a step does not remove keeps its entry, and a request that waits for it or holds it goes on with
      that entry. */
  lemma {:induction false} EntryKept(lim: Limits, s: Pool, a: Step, r: Request)
    requires Sane(s) && Enabled(lim, s, a) && Pinned(s) && r in s.requests && !s.requests[r].Idle?
    requires s.requests[r].sid !in Removed(lim, s, a)
    ensures var s' := Apply(lim, s, a); var pc := s'.At(r);
      !pc.Idle? ==>
        && pc.sid in s'.sessions && s'.sessions[pc.sid] == pc.own && (pc.Releasing? ==> pc.found == pc.own)
  {
    match a
    case Lookup(_, _, _, _, _, _) =>
    case Lock(_, _) =>
    case Work(_, _) =>
    case BeginRelease(_) =>
    case Save(_, _) =>
    case Unlock(_) =>
    case Cleanup(_, _) =>
  }

  lemma {:induction false} StepPinned(lim: Limits, s: Pool, a: Step)
    requires Sane(s) && Enabled(lim, s, a) && Pinned(s) && Guarded(lim, s, a)
    ensures Pinned(Apply(lim, s, a))
  {
    GuardedMeans(lim, s, a);
    var s' := Apply(lim, s, a);
    forall r | r in s'.requests && !s'.requests[r].Idle?
      ensures s'.requests[r].sid in s'.sessions && s'.sessions[s'.requests[r].sid] == s'.requests[r].own
      ensures s'.requests[r].Releasing? ==> s'.requests[r].found == s'.requests[r].own
    {
      if r in s.requests && !s.requests[r].Idle? {
        assert s.requests[r].sid !in Removed(lim, s, a);
        EntryKept(lim, s, a, r);
      }
    }
  }

  /** A step that removes an entry in use leaves some active request with an entry that is not the pool's. */
  lemma {:induction false} UnguardedUnpins(lim: Limits, s: Pool, a: Step)
    requires Sane(s) && Enabled(lim, s, a) && Pinned(s) && !Guarded(lim, s, a)
    ensures !Pinned(Apply(lim, s, a))
  {
    GuardedMeans(lim, s, a);
    var sid :| sid in Removed(lim, s, a) && !Unused(s, s.sessions[sid]);
    var r :| r in s.requests && !s.requests[r].Idle? && s.requests[r].own == s.sessions[sid];
    var s' := Apply(lim, s, a);
    assert s'.At(r) == s.At(r) && s.At(r).sid == sid;
    assert sid !in s'.sessions;
  }

  /** The side condition, step by step: it is met exactly when every active request keeps the pool's entry. */
  lemma {:induction false} PinnedExactlyWhenGuarded(lim: Limits, s: Pool, a: Step)
    requires Sane(s) && Enabled(lim, s, a) && Pinned(s)
    ensures Pinned(Apply(lim, s, a)) <==> Guarded(lim, s, a)
  {
    if Guarded(lim, s, a) { StepPinned(lim, s, a); } else { UnguardedUnpins(lim, s, a); }
  }

  ghost predicate HeldBy(s: Pool, r: Request) {
    r in s.requests && Holds(s.requests[r]) && s.requests[r].own in s.entries ==>
      s.entries[s.requests[r].own].locked && s.entries[s.requests[r].own].io == r
  }

  /** A step of one request leaves every other holder's entry alone: the entry carries that holder's IO. */
  lemma {:induction false} OthersKeepTheirs(lim: Limits, s: Pool, a: Step, r: Request)
    requires Sane(s) && Enabled(lim, s, a) && Pinned(s) && Exclusive(s)
    requires r in s.requests && Holds(s.requests[r])
    ensures HeldBy(Apply(lim, s, a), r)
  {
    assert HeldBy(s, r);
    match a
    case Lookup(_, _, _, _, _, _) =>
    case Lock(_, _) =>
    case Work(_, _) =>
    case BeginRelease(_) =>
    case Save(_, _) =>
    case Unlock(q) => assert q != r ==> HeldBy(s, q) && s.At(q).found != s.requests[r].own;
    case Cleanup(_, _) =>
  }

  lemma {:induction false} StepExclusive(lim: Limits, s: Pool, a: Step)
    requires Sane(s) && Enabled(lim, s, a) && Pinned(s) && Exclusive(s)
    ensures Exclusive(Apply(lim, s, a))
  {
    var s' := Apply(lim, s, a);
    forall r | r in s'.requests && Holds(s'.requests[r]) ensures HeldBy(s', r) {
      if r in s.requests && Holds(s.requests[r]) {
        OthersKeepTheirs(lim, s, a, r);
      } else {
        assert a.Lock? && a.r == r;
      }
    }
    assert forall r <- s'.requests :: Holds(s'.requests[r]) ==> HeldBy(s', r);
  }

  lemma {:induction false} StepNoOrphan(lim: Limits, s: Pool, a: Step)
    requires Sane(s) && Enabled(lim, s, a) && Pinned(s) && Exclusive(s) && NoOrphanLock(s)
    ensures NoOrphanLock(Apply(lim, s, a))
  {
    var s' := Apply(lim, s, a);
    forall e | e in s'.entries && s'.entries[e].locked ensures HasHolder(s', e) {
      if e in s.entries && s.entries[e].locked {
        var q :| q in s.requests && Holds(s.requests[q]) && s.requests[q].own == e;
        assert s.entries[e].io == q;
        assert q in s'.requests && Holds(s'.requests[q]) && s'.requests[q].own == e;
      } else {
        assert a.Lock? && Holds(s'.requests[a.r]) && s'.requests[a.r].own == e;
      }
    }
  }

  // ---- Why the side condition is needed ----

  /** The steps can be taken one after the other and lead from `s` to `s'`. */
  ghost predicate Reaches(lim: Limits, s: Pool, steps: seq<Step>, s': Pool)
    requires Sane(s)
    decreases |steps|
  {
    if steps == [] then s' == s
    else
      && Enabled(lim, s, steps[0])
      && Sane(Apply(lim, s, steps[0]))
      && Reaches(lim, Apply(lim, s, steps[0]), steps[1..], s')
  }

  lemma {:induction false} Then(lim: Limits, s: Pool, a: Step, steps: seq<Step>, s': Pool)
    requires Sane(s) && Enabled(lim, s, a) && Sane(Apply(lim, s, a)) && Reaches(lim, Apply(lim, s, a), steps, s')
    ensures Reaches(lim, s, [a] + steps, s')
  {
    assert ([a] + steps)[1..] == steps;
  }

  lemma {:induction false} IdleRequest(requests: map<Request, Pc>) returns (r: Request)
    ensures r !in requests
  {
    r := 0;
    var rest := requests.Keys;
    while rest != {}
      invariant rest <= requests.Keys && forall q <- requests :: q in rest || q < r
      decreases |rest|
    {
      var q :| q in rest;
      r := if q < r then r else q + 1;
      rest := rest - {q};
    }
  }

  lemma {:induction false} OldestExists(s: Pool, among: set<SessionId>) returns (sid: SessionId)
    requires Sane(s) && among != {} && among <= s.sessions.Keys
    ensures sid in among && forall x <- among :: LastUsed(s, sid) <= LastUsed(s, x)
    decreases |among|
  {
    var x :| x in among;
    if among == {x} {
      sid := x;
    } else {
      var rest := OldestExists(s, among - {x});
      sid := if LastUsed(s, x) < LastUsed(s, rest) then x else rest;
    }
  }

  /** Whoever the pool must evict for a lookup, there is a right victim. */
  lemma {:induction false} VictimExists(lim: Limits, s: Pool, sid: SessionId) returns (victim: Option<SessionId>)
    requires Sane(s)
    ensures RightVictim(lim, s, sid, victim)
  {
    if sid in s.sessions || !Full(lim, s) || s.sessions == map[] {
      victim := None;
    } else {
      var x := OldestExists(s, s.sessions.Keys);
      victim := Some(x);
    }
  }

  /** Once the entry of a holding or releasing request has left the pool, full or not, two more steps give any idle
      request the same session with an entry of its own. */
  lemma {:induction false} RemovalLetsASecondHolderIn(lim: Limits, s: Pool, q: Request, r: Request, now: int)
    returns (victim: Option<SessionId>, s': Pool)
    requires Sane(s) && Holds(s.At(q)) && s.At(q).sid !in s.sessions && s.At(r).Idle?
    ensures Reaches(lim, s, [Lookup(r, s.At(q).sid, now, victim, true, true)] + ([Lock(r, now)] + []), s')
    ensures q != r && s'.At(q) == s.At(q) && s'.At(r).Holding? && s'.At(r).sid == s.At(q).sid
    ensures s'.At(r).own != s'.At(q).own
  {
    victim := VictimExists(lim, s, s.At(q).sid);
    var look := Lookup(r, s.At(q).sid, now, victim, true, true);
    StepSane(lim, s, look);
    var s1 := Apply(lim, s, look);
    assert s1.At(r) == Waiting(s.At(q).sid, s.next) && !s1.entries[s.next].locked;
    StepSane(lim, s1, Lock(r, now));
    s' := Apply(lim, s1, Lock(r, now));
    Then(lim, s1, Lock(r, now), [], s');
    Then(lim, s, look, [Lock(r, now)] + [], s');
  }

  ghost predicate Safe(s: Pool) { Sane(s) && Pinned(s) && Exclusive(s) && NoOrphanLock(s) }

  /** Two requests hold one session. */
  predicate Shared(s: Pool, q: Request, r: Request) {
    q != r && Holds(s.At(q)) && Holds(s.At(r)) && s.At(q).sid == s.At(r).sid
  }

  /** An unguarded step leaves an active request whose session is no longer in the pool. */
  lemma {:induction false} UnguardedStrands(lim: Limits, s: Pool, a: Step) returns (r: Request)
    requires Safe(s) && Enabled(lim, s, a) && !Guarded(lim, s, a)
    ensures r in s.requests && !s.At(r).Idle? && Sane(Apply(lim, s, a)) && Apply(lim, s, a).At(r) == s.At(r)
    ensures s.At(r).sid !in Apply(lim, s, a).sessions
  {
    StepSane(lim, s, a);
    GuardedMeans(lim, s, a);
    var sid :| sid in Removed(lim, s, a) && !Unused(s, s.sessions[sid]);
    r :| r in s.requests && !s.requests[r].Idle? && s.requests[r].own == s.sessions[sid];
    assert s.At(r).sid == sid;
  }

  /** A request that waits for a removed entry takes its lock, or else somebody holds that lock. */
  lemma {:induction false} StrandedHolder(lim: Limits, s: Pool, a: Step, r: Request)
    returns (q: Request, steps: seq<Step>, s': Pool)
    requires Safe(s) && Enabled(lim, s, a) && Sane(Apply(lim, s, a))
    requires r in s.requests && !s.At(r).Idle? && Apply(lim, s, a).At(r) == s.At(r)
    requires a.Lookup? || a.Cleanup?
    requires s.At(r).sid !in Apply(lim, s, a).sessions
    ensures Reaches(lim, Apply(lim, s, a), steps, s') && Sane(s')
    ensures Holds(s'.At(q)) && s'.At(q).sid == s.At(r).sid && s.At(r).sid !in s'.sessions
  {
    var s1 := Apply(lim, s, a);
    q, steps, s' := r, [], s1;
    var e := s.At(r).own;
    if s.At(r).Waiting? {
      if s1.entries[e].locked {
        assert HasHolder(s, e);
        q :| q in s.requests && Holds(s.requests[q]) && s.requests[q].own == e;
        assert s1.At(q) == s.At(q);
      } else {
        StepSane(lim, s1, Lock(r, 0));
        s' := Apply(lim, s1, Lock(r, 0));
        Then(lim, s1, Lock(r, 0), [], s');
        steps := [Lock(r, 0)] + [];
      }
    }
  }

  lemma {:induction false} ReachesOn(lim: Limits, s: Pool, xs: seq<Step>, mid: Pool, ys: seq<Step>, s': Pool)
    requires Sane(s) && Reaches(lim, s, xs, mid) && Sane(mid) && Reaches(lim, mid, ys, s')
    ensures Reaches(lim, s, xs + ys, s')
    decreases |xs|
  {
    if xs == [] {
      assert xs + ys == ys;
    } else {
      FirstThenRest(xs, ys);
      ReachesOn(lim, Apply(lim, s, xs[0]), xs[1..], mid, ys, s');
    }
  }

  /** The converse of mutual exclusion.  From every safe state, every step that removes an entry some request waits
      for, holds or releases is followed by a run to a state in which two requests hold one session. */
  lemma {:induction false} UnguardedBreaks(lim: Limits, s: Pool, a: Step)
    returns (q: Request, r: Request, steps: seq<Step>, s': Pool)
    requires Safe(s) && Enabled(lim, s, a) && !Guarded(lim, s, a)
    ensures Sane(Apply(lim, s, a)) && Reaches(lim, Apply(lim, s, a), steps, s')
    ensures Shared(s', q, r)
  {
    var x := UnguardedStrands(lim, s, a);
    var first: seq<Step>, mid: Pool;
    q, first, mid := StrandedHolder(lim, s, a, x);
    r := IdleRequest(mid.requests);
    var victim: Option<SessionId>;
    victim, s' := RemovalLetsASecondHolderIn(lim, mid, q, r, 0);
    var second := [Lookup(r, mid.At(q).sid, 0, victim, true, true)] + ([Lock(r, 0)] + []);
    ReachesOn(lim, Apply(lim, s, a), first, mid, second, s');
    steps := first + second;
  }

  /** And the first holder's release then finds the second holder's entry, and unlocks it. */
  lemma {:induction false} ReleaseUnlocksAnothersEntry(lim: Limits, s: Pool, q: Request, r: Request)
    returns (s': Pool)
    requires Sane(s) && s.At(q).Holding? && s.At(r).Holding? && q != r
    requires s.At(q).sid == s.At(r).sid && s.At(q).sid in s.sessions && s.sessions[s.At(q).sid] == s.At(r).own
    ensures Reaches(lim, s, [BeginRelease(q)] + ([Save(q, true)] + ([Unlock(q)] + [])), s')
    ensures Sane(s') && s'.At(r).Holding? && !s'.entries[s'.At(r).own].locked
  {
    var s1 := Apply(lim, s, BeginRelease(q));
    StepSane(lim, s, BeginRelease(q));
    var s2 := Apply(lim, s1, Save(q, true));
    StepSane(lim, s1, Save(q, true));
    s' := Apply(lim, s2, Unlock(q));
    StepSane(lim, s2, Unlock(q));
    Then(lim, s2, Unlock(q), [], s');
    Then(lim, s1, Save(q, true), [Unlock(q)] + [], s');
    Then(lim, s, BeginRelease(q), [Save(q, true)] + ([Unlock(q)] + []), s');
  }

  lemma {:induction false} FirstHolder(lim: Limits, a: SessionId, s': Pool)
    requires lim.maxSessions == 1
    requires s'.sessions == map[a := 0] && s'.At(0) == Holding(a, 0) && s'.At(1).Idle? && s'.At(2).Idle?
    requires s'.next == 1 && s'.files == map[] && s'.requests == map[0 := Holding(a, 0)]
    requires s'.entries == map[0 := Entry(a, 0, [], 0, 1, true)]
    ensures Reaches(lim, Start(map[]), [Lookup(0, a, 0, None, true, true)] + ([Lock(0, 0)] + []), s')
  {
    var s0 := Start(map[]);
    var s1 := Apply(lim, s0, Lookup(0, a, 0, None, true, true));
    assert s1.entries == map[0 := Entry(a, 0, [], 0, 0, false)] && s1.requests == map[0 := Waiting(a, 0)];
    assert Apply(lim, s1, Lock(0, 0)) == s';
    Then(lim, s1, Lock(0, 0), [], s');
    Then(lim, s0, Lookup(0, a, 0, None, true, true), [Lock(0, 0)] + [], s');
  }

  /** The held session's entry is evicted for session `b`. */
  function HeldEvicted(a: SessionId, b: SessionId): Pool {
    Pool(map[b := 1], map[0 := Entry(a, 0, [], 0, 1, true), 1 := Entry(b, 1, [], 1, 0, false)], 2, map[],
         map[0 := Holding(a, 0), 1 := Waiting(b, 1)])
  }

  function Held(a: SessionId): Pool {
    Pool(map[a := 0], map[0 := Entry(a, 0, [], 0, 1, true)], 1, map[], map[0 := Holding(a, 0)])
  }

  lemma {:induction false} EvictHeld(lim: Limits, a: SessionId, b: SessionId)
    requires lim.maxSessions == 1 && a != b
    ensures var look := Lookup(1, b, 1, Some(a), true, true);
      Sane(Held(a)) && Enabled(lim, Held(a), look) && Apply(lim, Held(a), look) == HeldEvicted(a, b)
  {
    var e := Evicted(Held(a), Some(a), true);
    assert e.sessions == map[] && e.files == map[];
    var c := Create(e, b, 1, 1, true);
    assert c.sessions == map[b := 1] && c.entries == HeldEvicted(a, b).entries;
    assert Looked(c, 1, b).requests == HeldEvicted(a, b).requests;
  }

  /** The evicted session comes back with a new entry, whose lock is free. */
  lemma {:induction false} HolderJoins(lim: Limits, a: SessionId, b: SessionId) returns (s4: Pool, s': Pool)
    requires lim.maxSessions == 1 && a != b
    ensures var look := Lookup(2, a, 2, Some(b), true, true);
      && Sane(HeldEvicted(a, b)) && Enabled(lim, HeldEvicted(a, b), look) && s4 == Apply(lim, HeldEvicted(a, b), look)
    ensures Sane(s4) && Enabled(lim, s4, Lock(2, 2)) && s' == Apply(lim, s4, Lock(2, 2)) && Sane(s')
    ensures s'.At(0) == Holding(a, 0) && s'.At(2) == Holding(a, 2)
  {
    var look := Lookup(2, a, 2, Some(b), true, true);
    s4 := Apply(lim, HeldEvicted(a, b), look);
    StepSane(lim, HeldEvicted(a, b), look);
    s' := Apply(lim, s4, Lock(2, 2));
    StepSane(lim, s4, Lock(2, 2));
  }

  /** A short run from the empty pool: with room for one session, a lookup of another evicts the held one, a
      third brings it back, and requests 0 and 2 hold session `a` together. */
  lemma {:induction false} TwoHolders(lim: Limits, a: SessionId, b: SessionId) returns (s2: Pool, s': Pool)
    requires lim.maxSessions == 1 && a != b
    ensures Reaches(lim, Start(map[]), [Lookup(0, a, 0, None, true, true)] + ([Lock(0, 0)] + []), s2)
    ensures Sane(s2) && Reaches(lim, s2,
      [Lookup(1, b, 1, Some(a), true, true)] + ([Lookup(2, a, 2, Some(b), true, true)] + ([Lock(2, 2)] + [])), s')
    ensures s'.At(0).Holding? && s'.At(2).Holding? && s'.At(0).sid == s'.At(2).sid == a
  {
    s2 := Held(a);
    FirstHolder(lim, a, s2);
    EvictHeld(lim, a, b);
    var s4: Pool;
    s4, s' := HolderJoins(lim, a, b);
    Then(lim, s4, Lock(2, 2), [], s');
    Then(lim, HeldEvicted(a, b), Lookup(2, a, 2, Some(b), true, true), [Lock(2, 2)] + [], s');
    var third := [Lookup(2, a, 2, Some(b), true, true)] + ([Lock(2, 2)] + []);
    Then(lim, s2, Lookup(1, b, 1, Some(a), true, true), third, s');
  }

  // ---- The pool and its files as one map from session to memory ----

  /** What a request for the session would be given. */
  function MemoryOf(s: Pool, sid: SessionId): Memory
    requires Sane(s)
  {
    if sid in s.sessions then s.entries[s.sessions[sid]].memory else Restore(s.files, sid, true)
  }

  /** Removing a session keeps its memory exactly when the save took place or the file already agreed. */
  lemma {:induction false} RemovalKeepsMemory(s: Pool, sid: SessionId, ok: bool)
    requires Sane(s) && sid in s.sessions
    ensures Sane(Remove(s, sid, ok))
    ensures MemoryOf(Remove(s, sid, ok), sid) == MemoryOf(s, sid) <==>
      (ok && MemoryOf(s, sid) != []) || Restore(s.files, sid, true) == MemoryOf(s, sid)
    ensures forall x :: x != sid ==> MemoryOf(Remove(s, sid, ok), x) == MemoryOf(s, x)
  {
  }

  /** Files never hold an empty memory, and an empty session has no file. */
  ghost predicate Faithful(s: Pool)
    requires Sane(s)
  {
    && (forall sid <- s.files :: s.files[sid] != [])
    && (forall sid <- s.sessions :: MemoryOf(s, sid) == [] ==> sid !in s.files)
  }

  /** Saves of removed sessions and loads of known ones succeed, and no memory becomes empty again. */
  ghost predicate Lossless(lim: Limits, s: Pool, a: Step)
    requires Sane(s) && Enabled(lim, s, a)
  {
    match a
    case Lookup(_, _, _, _, saveOk, loadOk) => saveOk && loadOk
    case Work(r, memory) => s.entries[s.At(r).own].memory != [] ==> memory != []
    case Cleanup(now, saved) => Expired(lim, s, now) <= saved
    case _ => true
  }

  predicate Writes(s: Pool, a: Step, sid: SessionId) { a.Work? && s.At(a.r).Holding? && s.At(a.r).sid == sid }

  lemma {:induction false} LookupRefines(lim: Limits, s: Pool, a: Step, sid: SessionId)
    requires a.Lookup? && Sane(s) && Enabled(lim, s, a) && Faithful(s) && Lossless(lim, s, a)
    requires Sane(Apply(lim, s, a))
    ensures MemoryOf(Apply(lim, s, a), sid) == MemoryOf(s, sid)
  {
    if a.victim.Some? { RemovalKeepsMemory(s, a.victim.value, true); }
    var s1 := Evicted(s, a.victim, a.saveOk);
    assert MemoryOf(s1, sid) == MemoryOf(s, sid);
  }

  lemma {:induction false} SweepRefines(lim: Limits, s: Pool, a: Step, sid: SessionId)
    requires a.Cleanup? && Sane(s) && Enabled(lim, s, a) && Faithful(s) && Lossless(lim, s, a)
    requires Sane(Apply(lim, s, a))
    ensures MemoryOf(Apply(lim, s, a), sid) == MemoryOf(s, sid)
  {
  }

  lemma {:induction false} StepRefines(lim: Limits, s: Pool, a: Step, sid: SessionId)
    requires Sane(s) && Enabled(lim, s, a) && Pinned(s) && Faithful(s) && Lossless(lim, s, a)
    requires Sane(Apply(lim, s, a))
    ensures MemoryOf(Apply(lim, s, a), sid) == if Writes(s, a, sid) then a.memory else MemoryOf(s, sid)
  {
    match a
    case Lookup(_, _, _, _, _, _) => LookupRefines(lim, s, a, sid);
    case Lock(_, _) =>
    case Work(r, _) => assert s.sessions[s.At(r).sid] == s.At(r).own;
    case BeginRelease(_) =>
    case Save(r, _) => assert s.sessions[s.At(r).sid] == s.At(r).found;
    case Unlock(r) => assert s.sessions[s.At(r).sid] == s.At(r).found;
    case Cleanup(_, _) => SweepRefines(lim, s, a, sid);
  }

  lemma {:induction false} FilesStayFull(lim: Limits, s: Pool, a: Step)
    requires Sane(s) && Enabled(lim, s, a) && Faithful(s)
    ensures var files := Apply(lim, s, a).files; forall sid <- files :: files[sid] != []
  {
    match a
    case Lookup(_, _, _, _, _, _) =>
    case Save(_, _) =>
    case Cleanup(_, _) =>
    case _ => assert Apply(lim, s, a).files == s.files;
  }

  /** A session without messages has no file, before and after. */
  lemma {:induction false} EmptyHasNoFile(lim: Limits, s: Pool, a: Step, sid: SessionId)
    requires Sane(s) && Enabled(lim, s, a) && Pinned(s) && Faithful(s) && Lossless(lim, s, a)
    requires Sane(Apply(lim, s, a)) && sid in Apply(lim, s, a).sessions && MemoryOf(Apply(lim, s, a), sid) == []
    ensures sid !in Apply(lim, s, a).files
  {
    StepRefines(lim, s, a, sid);
    FilesStayFull(lim, s, a);
    if a.Work? { assert s.sessions[s.At(a.r).sid] == s.At(a.r).own; }
  }

  lemma {:induction false} StepFaithful(lim: Limits, s: Pool, a: Step)
    requires Sane(s) && Enabled(lim, s, a) && Pinned(s) && Faithful(s) && Lossless(lim, s, a)
    requires Sane(Apply(lim, s, a))
    ensures Faithful(Apply(lim, s, a))
  {
    var s' := Apply(lim, s, a);
    FilesStayFull(lim, s, a);
    forall sid | sid in s'.sessions && MemoryOf(s', sid) == [] ensures sid !in s'.files {
      EmptyHasNoFile(lim, s, a, sid);
    }
  }

  // ---- Runs ----

  ghost predicate AllGuarded(lim: Limits, steps: seq<Step>, states: seq<Pool>) {
    forall i :: 0 <= i < |steps| && i < |states| && Sane(states[i]) && Enabled(lim, states[i], steps[i])
      ==> Guarded(lim, states[i], steps[i])
  }

  ghost predicate AllLossless(lim: Limits, steps: seq<Step>, states: seq<Pool>) {
    forall i :: 0 <= i < |steps| && i < |states| && Sane(states[i]) && Enabled(lim, states[i], steps[i])
      ==> Lossless(lim, states[i], steps[i])
  }

  /** In every run, with or without the side condition, the pool never outgrows its capacity. */
  lemma {:induction false} PoolNeverOverflows(lim: Limits, files: Files, steps: seq<Step>, states: seq<Pool>, i: nat)
    requires IsRun(lim, files, steps, states) && i < |states|
    ensures Sane(states[i]) && |states[i].sessions| <= Capacity(lim)
  {
    if i == 0 {
    } else {
      PoolNeverOverflows(lim, files, steps, states, i - 1);
      StepSane(lim, states[i - 1], steps[i - 1]);
      StepFits(lim, states[i - 1], steps[i - 1]);
    }
  }

  lemma {:induction false} RunIsSafe(lim: Limits, files: Files, steps: seq<Step>, states: seq<Pool>, i: nat)
    requires IsRun(lim, files, steps, states) && AllGuarded(lim, steps, states) && i < |states|
    ensures Sane(states[i]) && Pinned(states[i]) && Exclusive(states[i]) && NoOrphanLock(states[i])
  {
    if i == 0 {
    } else {
      var s, a := states[i - 1], steps[i - 1];
      RunIsSafe(lim, files, steps, states, i - 1);
      StepSane(lim, s, a);
      StepPinned(lim, s, a);
      StepExclusive(lim, s, a);
      StepNoOrphan(lim, s, a);
    }
  }

  /** While only unused entries are removed: one holder a session, whose IO the entry carries; a release works on
      the caller's own entry; and a locked entry always has a holder, so no waiter is stranded. */
  lemma {:induction false} MutualExclusion(
      lim: Limits, files: Files, steps: seq<Step>, states: seq<Pool>, i: nat, q: Request, r: Request)
    requires IsRun(lim, files, steps, states) && AllGuarded(lim, steps, states) && i < |states|
    requires Holds(states[i].At(q)) && Holds(states[i].At(r))
    ensures states[i].At(q).sid == states[i].At(r).sid ==> q == r
    ensures var pc := states[i].At(r);
      && pc.sid in states[i].sessions && states[i].sessions[pc.sid] == pc.own && pc.own in states[i].entries
      && states[i].entries[pc.own].io == r && states[i].entries[pc.own].locked
      && (pc.Releasing? ==> pc.found == pc.own)
    ensures NoOrphanLock(states[i])
  {
    RunIsSafe(lim, files, steps, states, i);
    var s := states[i];
    assert HeldBy(s, q) && HeldBy(s, r);
  }

  /** The memory last written by a holder of the session before state `i`, or else what its file held at the start. */
  function LastWritten(files: Files, steps: seq<Step>, states: seq<Pool>, i: nat, sid: SessionId): Memory
    requires i <= |steps| && i < |states|
  {
    if i == 0 then Restore(files, sid, true)
    else if Writes(states[i - 1], steps[i - 1], sid) then steps[i - 1].memory
    else LastWritten(files, steps, states, i - 1, sid)
  }

  /** Pool and files together are one map from session to memory: evictions, cleanups and reloads are invisible. */
  lemma {:induction false} PoolRefinesMap(
      lim: Limits, files: Files, steps: seq<Step>, states: seq<Pool>, i: nat, sid: SessionId)
    requires IsRun(lim, files, steps, states) && AllGuarded(lim, steps, states) && AllLossless(lim, steps, states)
    requires i < |states| && forall x <- files :: files[x] != []
    ensures Sane(states[i]) && Faithful(states[i])
    ensures MemoryOf(states[i], sid) == LastWritten(files, steps, states, i, sid)
  {
    RunIsSafe(lim, files, steps, states, i);
    if i > 0 {
      PoolRefinesMap(lim, files, steps, states, i - 1, sid);
      RunIsSafe(lim, files, steps, states, i - 1);
      StepRefines(lim, states[i - 1], steps[i - 1], sid);
      StepFaithful(lim, states[i - 1], steps[i - 1]);
    }
  }

  /** So a request that has just been given the lock sees what the last holder left. */
  lemma {:induction false} AcquireSeesLastWrite(
      lim: Limits, files: Files, steps: seq<Step>, states: seq<Pool>, i: nat, r: Request)
    requires IsRun(lim, files, steps, states) && AllGuarded(lim, steps, states) && AllLossless(lim, steps, states)
    requires i < |states| && forall x <- files :: files[x] != []
    requires Holds(states[i].At(r))
    ensures states[i].At(r).own in states[i].entries
    ensures states[i].entries[states[i].At(r).own].memory == LastWritten(files, steps, states, i, states[i].At(r).sid)
  {
    RunIsSafe(lim, files, steps, states, i);
    PoolRefinesMap(lim, files, steps, states, i, states[i].At(r).sid);
  }

  /** Over runs: the first step that removes an entry in use lets the run go on to two holders of one session. */
  lemma {:induction false} FirstUnguardedStepBreaks(
      lim: Limits, files: Files, steps: seq<Step>, states: seq<Pool>, i: nat)
    returns (q: Request, r: Request, more: seq<Step>, s': Pool)
    requires IsRun(lim, files, steps, states) && i < |steps| && AllGuarded(lim, steps[..i], states[..i + 1])
    requires Sane(states[i]) && Enabled(lim, states[i], steps[i]) && !Guarded(lim, states[i], steps[i])
    ensures Sane(states[i + 1]) && Reaches(lim, states[i + 1], more, s') && Shared(s', q, r)
  {
    RunIsSafe(lim, files, steps[..i], states[..i + 1], i);
    q, r, more, s' := UnguardedBreaks(lim, states[i], steps[i]);
  }
}
