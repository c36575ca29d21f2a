/** The pool as an object.  Each method is one step of the protocol in PoolModel: `acquire` is `LookUp` followed,
    once the session's lock is free, by `TakeLock`; `release` is `BeginRelease`, `SaveEntry`, `Unlock`. */
module Sessions {
  import opened Common
  import opened PoolModel
  import opened PoolTheorems

  class SessionPool {
    const lim: Limits
    var sessions: map<SessionId, EntryId>
    var entries: map<EntryId, Entry>
    var next: EntryId
    var files: Files
    ghost var requests: map<Request, Pc>

    ghost function View(): Pool
      reads this
    {
      Pool(sessions, entries, next, files, requests)
    }

    constructor (lim: Limits, files: Files)
      ensures View() == Start(files) && this.lim == lim && Sane(View())
    {
      this.lim, this.files := lim, files;
      sessions, entries, next, requests := map[], map[], 0, map[];
    }

    method Store(e: Entry, ok: bool)
      modifies `files
      ensures files == Persist(old(files), e, ok)
    {
      if e.memory != [] && ok { files := files[e.sid := e.memory]; }
    }

    /** The session used longest ago, found by one pass over the sessions. */
    method Oldest() returns (oldest: SessionId)
      requires Sane(View()) && sessions != map[]
      ensures IsOldest(View(), oldest)
    {
      oldest :| oldest in sessions;
      var rest := sessions.Keys - {oldest};
      while rest != {}
        invariant rest <= sessions.Keys && oldest in sessions
        invariant forall x :: x in sessions && x !in rest ==> LastUsed(View(), oldest) <= LastUsed(View(), x)
        decreases |rest|
      {
        var x :| x in rest;
        if entries[sessions[x]].lastUsed < entries[sessions[oldest]].lastUsed { oldest := x; }
        rest := rest - {x};
      }
    }

    method EvictOldest(saveOk: bool) returns (victim: Option<SessionId>)
      requires Sane(View())
      modifies `sessions, `files
      ensures if old(sessions) == map[] then victim.None? else victim.Some? && IsOldest(old(View()), victim.value)
      ensures View() == Evicted(old(View()), victim, saveOk)
      ensures victim.Some? ==>
        && victim.value in old(sessions) && sessions == old(sessions) - {victim.value}
        && forall x <- old(sessions) ::
             old(entries)[old(sessions)[victim.value]].lastUsed <= old(entries)[old(sessions)[x]].lastUsed
    {
      if sessions == map[] { return None; }
      var sid := Oldest();
      victim := Some(sid);
      var e := entries[sessions[sid]];
      sessions := sessions - {sid};
      Store(e, saveOk);
    }

    method CreateEntry(sid: SessionId, io: Request, now: int, loadOk: bool)
      requires Sane(View())
      modifies `sessions, `entries, `next
      ensures View() == Create(old(View()), sid, io, now, loadOk) && Sane(View())
    {
      var memory := if sid in files && loadOk then files[sid] else [];
      entries := entries[next := Entry(sid, io, memory, now, 0, false)];
      sessions := sessions[sid := next];
      next := next + 1;
      CreateSane(old(View()), sid, io, now, loadOk);
    }

    /** The part of `acquire` under the pool lock: find the session, or make room and create it. */
    method LookUp(ghost r: Request, sid: SessionId, io: Request, now: int, saveOk: bool, loadOk: bool)
      returns (victim: Option<SessionId>)
      requires Sane(View()) && View().At(r).Idle? && io == r
      modifies this
      ensures RightVictim(lim, old(View()), sid, victim)
      ensures View() == Apply(lim, old(View()), Lookup(r, sid, now, victim, saveOk, loadOk)) && Sane(View())
      ensures victim.Some? <==> sid !in old(sessions) && |old(sessions)| >= lim.maxSessions && old(sessions) != map[]
      ensures sid in sessions && (sid in old(sessions) ==> sessions == old(sessions) && entries == old(entries))
      ensures sid !in old(sessions) ==>
        entries[sessions[sid]] ==
          Entry(sid, io, if sid in old(files) && loadOk then old(files)[sid] else [], now, 0, false)
    {
      victim := None;
      if sid !in sessions {
        if |sessions| >= lim.maxSessions { victim := EvictOldest(saveOk); }
        assert View() == Evicted(old(View()), victim, saveOk);
        CreateEntry(sid, io, now, loadOk);
      }
      MoveSane(View(), r, Waiting(sid, sessions[sid]));
      requests := requests[r := Waiting(sid, sessions[sid])];
    }

    /** The rest of `acquire`, when the lock is free. */
    method TakeLock(r: Request, e: EntryId, now: int)
      requires Sane(View()) && View().At(r).Waiting? && View().At(r).own == e && !entries[e].locked
      modifies `entries, `requests
      ensures View() == Apply(lim, old(View()), Lock(r, now)) && Sane(View())
      ensures e in entries && entries[e].locked && entries[e].io == r && entries[e].lastUsed == now
    {
      var x := entries[e].(locked := true);
      x := x.(io := r);
      x := x.(lastUsed := now);
      x := x.(requests := x.requests + 1);
      entries := entries[e := x];
      requests := requests[r := Holding(requests[r].sid, e)];
      StepSane(lim, old(View()), Lock(r, now));
    }

    /** `release` looks the session up again; when it has left the pool, nothing is saved or unlocked. */
    method BeginRelease(ghost r: Request, sid: SessionId) returns (found: Option<EntryId>)
      requires Sane(View()) && View().At(r).Holding? && View().At(r).sid == sid
      modifies `requests
      ensures View() == Apply(lim, old(View()), Step.BeginRelease(r)) && Sane(View())
      ensures found == if sid in sessions then Some(sessions[sid]) else None
    {
      if sid in sessions {
        found := Some(sessions[sid]);
        requests := requests[r := Releasing(sid, requests[r].own, sessions[sid], false)];
      } else {
        found := None;
        requests := requests[r := Idle];
      }
      StepSane(lim, old(View()), Step.BeginRelease(r));
    }

    method SaveEntry(ghost r: Request, e: EntryId, ok: bool)
      requires Sane(View()) && View().At(r).Releasing? && View().At(r).found == e && !View().At(r).saved
      modifies `files, `requests
      ensures View() == Apply(lim, old(View()), Save(r, ok)) && Sane(View())
      ensures ok && entries[e].memory != [] ==> files == old(files)[entries[e].sid := entries[e].memory]
      ensures !ok || entries[e].memory == [] ==> files == old(files)
    {
      Store(entries[e], ok);
      requests := requests[r := requests[r].(saved := true)];
      StepSane(lim, old(View()), Save(r, ok));
    }

    method Unlock(ghost r: Request, e: EntryId)
      requires Sane(View()) && View().At(r).Releasing? && View().At(r).found == e && View().At(r).saved
      modifies `entries, `requests
      ensures View() == Apply(lim, old(View()), Step.Unlock(r)) && Sane(View())
      ensures e in entries && !entries[e].locked && View().At(r).Idle?
    {
      if entries[e].locked {
        entries := entries[e := entries[e].(locked := false)];
      }
      requests := requests[r := Idle];
      assert entries == old(entries)[e := old(entries)[e].(locked := false)];
      StepSane(lim, old(View()), Step.Unlock(r));
    }

    lemma {:induction false} SweepOne(s: Pool, done: set<SessionId>, sid: SessionId, saved: set<SessionId>)
      requires Sane(s) && sid in s.sessions && sid !in done
      ensures FilesAfter(s, done + {sid}, saved)
        == Persist(FilesAfter(s, done, saved), s.entries[s.sessions[sid]], sid in saved)
    {
    }

    method PopAndSave(sid: SessionId, saved: set<SessionId>, ghost s: Pool, ghost done: set<SessionId>)
      requires Sane(s) && sid in s.sessions && sid !in done && entries == s.entries
      requires sessions == s.sessions - done && files == FilesAfter(s, done, saved)
      modifies `sessions, `files
      ensures sessions == s.sessions - (done + {sid}) && files == FilesAfter(s, done + {sid}, saved)
    {
      SweepOne(s, done, sid, saved);
      var e := entries[sessions[sid]];
      sessions := sessions - {sid};
      Store(e, sid in saved);
    }

    lemma {:induction false} OneLess(all: set<SessionId>, todo: set<SessionId>, sid: SessionId)
      requires sid in todo && todo <= all
      ensures sid !in all - todo && all - (todo - {sid}) == (all - todo) + {sid}
    {
    }

    lemma {:induction false} NothingGone(s: Pool, all: set<SessionId>, saved: set<SessionId>)
      requires Sane(s)
      ensures s.sessions - (all - all) == s.sessions && FilesAfter(s, all - all, saved) == s.files
    {
      assert all - all == {};
      assert FilesAfter(s, {}, saved) == s.files;
    }

    method PopAndSaveAll(expired: set<SessionId>, saved: set<SessionId>)
      requires Sane(View()) && expired <= sessions.Keys
      modifies `sessions, `files
      ensures sessions == old(sessions) - expired && files == FilesAfter(old(View()), expired, saved)
    {
      ghost var s := View();
      var todo := expired;
      NothingGone(s, expired, saved);
      while todo != {}
        invariant todo <= expired
        invariant sessions == s.sessions - (expired - todo) && files == FilesAfter(s, expired - todo, saved)
        decreases |todo|
      {
        var sid :| sid in todo;
        OneLess(expired, todo, sid);
        PopAndSave(sid, saved, s, expired - todo);
        todo := todo - {sid};
      }
      assert todo == {} && expired - {} == expired;
    }

    lemma {:induction false} SweptMeans(lim: Limits, s: Pool, now: int, saved: set<SessionId>)
      requires Sane(s)
      ensures var s' := Swept(s, Expired(lim, s, now), saved);
        && (forall x <- s.sessions :: x in s'.sessions <==> now - s.entries[s.sessions[x]].lastUsed <= lim.ttl)
        && (forall x <- s'.sessions :: x in s.sessions && s'.sessions[x] == s.sessions[x])
        && s.sessions.Keys - s'.sessions.Keys == Expired(lim, s, now)
      ensures var s' := Swept(s, Expired(lim, s, now), saved);
        forall x <- s.sessions :: x !in s'.sessions && x in saved && s.entries[s.sessions[x]].memory != [] ==>
          x in s'.files && s'.files[x] == s.entries[s.sessions[x]].memory
    {
    }

    /** Exactly the sessions unused for longer than the time to live leave the pool, and are saved. */
    method CleanupExpired(now: int, saved: set<SessionId>) returns (count: nat)
      requires Sane(View())
      modifies `sessions, `files
      ensures View() == Apply(lim, old(View()), Cleanup(now, saved)) && Sane(View())
      ensures forall x <- old(sessions) :: x in sessions <==> now - old(entries)[old(sessions)[x]].lastUsed <= lim.ttl
      ensures forall x <- sessions :: x in old(sessions) && sessions[x] == old(sessions)[x]
      ensures entries == old(entries) && count == |old(sessions).Keys - sessions.Keys|
      ensures forall x <- old(sessions) :: x !in sessions && x in saved && entries[old(sessions)[x]].memory != [] ==>
        x in files && files[x] == entries[old(sessions)[x]].memory
    {
      var expired := set x | x in sessions && now - entries[sessions[x]].lastUsed > lim.ttl;
      assert expired == Expired(lim, View(), now);
      PopAndSaveAll(expired, saved);
      count := |expired|;
      SweptMeans(lim, old(View()), now, saved);
      StepSane(lim, old(View()), Cleanup(now, saved));
    }
  }
}
