/** The session pool as a concurrent protocol: each step is one stretch of code that runs without giving up
    control to a request it could disturb.  A request looks its session up, waits for the session's lock, works,
    and releases in three steps (lookup, save, unlock).  The pool evicts and cleans up on its own. */
module PoolModel {
  import opened Common

  type SessionId = string
  type Request = nat
  type EntryId = nat
  type Memory = seq<string>
  type Files = map<SessionId, Memory>

  datatype Entry = Entry(sid: SessionId, io: Request, memory: Memory, lastUsed: int, requests: nat, locked: bool)

  /** Where a request stands.  `own` is the entry it was given; `found` the one its release looked up. */
  datatype Pc =
    | Idle
    | Waiting(sid: SessionId, own: EntryId)
    | Holding(sid: SessionId, own: EntryId)
    | Releasing(sid: SessionId, own: EntryId, found: EntryId, saved: bool)

  datatype Pool = Pool(
    sessions: map<SessionId, EntryId>,
    entries: map<EntryId, Entry>,
    next: EntryId,
    files: Files,
    requests: map<Request, Pc>)
  {
    function At(r: Request): Pc { if r in requests then requests[r] else Idle }
  }

  datatype Step =
    | Lookup(r: Request, sid: SessionId, now: int, victim: Option<SessionId>, saveOk: bool, loadOk: bool)
    | Lock(r: Request, now: int)
    | Work(r: Request, memory: Memory)
    | BeginRelease(r: Request)
    | Save(r: Request, saveOk: bool)
    | Unlock(r: Request)
    | Cleanup(now: int, saved: set<SessionId>)

  datatype Limits = Limits(maxSessions: int, ttl: int)

  // ---- Saving, loading, removing ----

  /** An empty memory is never written; a failed write leaves the file as it was. */
  function Persist(files: Files, e: Entry, ok: bool): Files {
    if e.memory == [] || !ok then files else files[e.sid := e.memory]
  }

  function Restore(files: Files, sid: SessionId, ok: bool): Memory {
    if sid in files && ok then files[sid] else []
  }

  function Remove(s: Pool, sid: SessionId, saveOk: bool): Pool
    requires sid in s.sessions && s.sessions[sid] in s.entries
  {
    s.(sessions := s.sessions - {sid}, files := Persist(s.files, s.entries[s.sessions[sid]], saveOk))
  }

  function Create(s: Pool, sid: SessionId, r: Request, now: int, loadOk: bool): Pool {
    s.(sessions := s.sessions[sid := s.next],
       entries := s.entries[s.next := Entry(sid, r, Restore(s.files, sid, loadOk), now, 0, false)],
       next := s.next + 1)
  }

  function Move(s: Pool, r: Request, pc: Pc): Pool { s.(requests := s.requests[r := pc]) }

  function LastUsed(s: Pool, sid: SessionId): int
    requires sid in s.sessions && s.sessions[sid] in s.entries
  {
    s.entries[s.sessions[sid]].lastUsed
  }

  // ---- Which steps can be taken ----

  /** Bookkeeping that every step keeps. */
  ghost predicate Sane(s: Pool) {
    && (forall sid <- s.sessions :: s.sessions[sid] in s.entries && s.entries[s.sessions[sid]].sid == sid)
    && (forall e <- s.entries :: e < s.next)
    && (forall r <- s.requests :: !s.requests[r].Idle? ==>
          s.requests[r].own in s.entries && s.entries[s.requests[r].own].sid == s.requests[r].sid)
    && (forall r <- s.requests :: s.requests[r].Releasing? ==>
          s.requests[r].found in s.entries && s.entries[s.requests[r].found].sid == s.requests[r].sid)
  }

  predicate IsOldest(s: Pool, sid: SessionId)
    requires forall x <- s.sessions :: s.sessions[x] in s.entries
  {
    sid in s.sessions && forall x <- s.sessions :: LastUsed(s, sid) <= LastUsed(s, x)
  }

  predicate Full(lim: Limits, s: Pool) { |s.sessions| >= lim.maxSessions }

  /** The victim a lookup must evict: none for a known session or while there is room or nothing to evict. */
  predicate RightVictim(lim: Limits, s: Pool, sid: SessionId, victim: Option<SessionId>)
    requires forall x <- s.sessions :: s.sessions[x] in s.entries
  {
    if sid in s.sessions || !Full(lim, s) || s.sessions == map[] then victim.None?
    else victim.Some? && IsOldest(s, victim.value)
  }

  ghost predicate Enabled(lim: Limits, s: Pool, a: Step)
    requires Sane(s)
  {
    match a
    case Lookup(r, sid, _, victim, _, _) => s.At(r).Idle? && RightVictim(lim, s, sid, victim)
    case Lock(r, _) => s.At(r).Waiting? && !s.entries[s.At(r).own].locked
    case Work(r, _) => s.At(r).Holding?
    case BeginRelease(r) => s.At(r).Holding?
    case Save(r, _) => s.At(r).Releasing? && !s.At(r).saved
    case Unlock(r) => s.At(r).Releasing? && s.At(r).saved
    case Cleanup(_, _) => true
  }

  // ---- The steps ----

  function Expired(lim: Limits, s: Pool, now: int): set<SessionId>
    requires forall x <- s.sessions :: s.sessions[x] in s.entries
  {
    set x | x in s.sessions && now - LastUsed(s, x) > lim.ttl
  }

  /** Files after the removed sessions were saved, those in `saved` successfully. */
  function FilesAfter(s: Pool, gone: set<SessionId>, saved: set<SessionId>): Files
    requires forall x <- s.sessions :: s.sessions[x] in s.entries
  {
    s.files + map x | x in gone && x in s.sessions && x in saved && s.entries[s.sessions[x]].memory != []
              :: s.entries[s.sessions[x]].memory
  }

  function Swept(s: Pool, gone: set<SessionId>, saved: set<SessionId>): Pool
    requires forall x <- s.sessions :: s.sessions[x] in s.entries
  {
    s.(sessions := s.sessions - gone, files := FilesAfter(s, gone, saved))
  }

  function Looked(s: Pool, r: Request, sid: SessionId): Pool
    requires sid in s.sessions
  {
    Move(s, r, Waiting(sid, s.sessions[sid]))
  }

  function Evicted(s: Pool, victim: Option<SessionId>, saveOk: bool): Pool
    requires victim.Some? ==> victim.value in s.sessions && s.sessions[victim.value] in s.entries
  {
    if victim.Some? then Remove(s, victim.value, saveOk) else s
  }

  function WithEntry(s: Pool, e: EntryId, x: Entry): Pool { s.(entries := s.entries[e := x]) }

  function Apply(lim: Limits, s: Pool, a: Step): Pool
    requires Sane(s) && Enabled(lim, s, a)
  {
    match a
    case Lookup(r, sid, now, victim, saveOk, loadOk) =>
      if sid in s.sessions then Looked(s, r, sid)
      else Looked(Create(Evicted(s, victim, saveOk), sid, r, now, loadOk), r, sid)
    case Lock(r, now) =>
      var pc := s.At(r);
      var e := s.entries[pc.own];
      Move(WithEntry(s, pc.own, e.(locked := true, io := r, lastUsed := now, requests := e.requests + 1)),
           r, Holding(pc.sid, pc.own))
    case Work(r, memory) =>
      var pc := s.At(r);
      WithEntry(s, pc.own, s.entries[pc.own].(memory := memory))
    case BeginRelease(r) =>
      var pc := s.At(r);
      if pc.sid in s.sessions then Move(s, r, Releasing(pc.sid, pc.own, s.sessions[pc.sid], false))
      else Move(s, r, Idle)
    case Save(r, saveOk) =>
      var pc := s.At(r);
      Move(s.(files := Persist(s.files, s.entries[pc.found], saveOk)), r, pc.(saved := true))
    case Unlock(r) =>
      var pc := s.At(r);
      Move(WithEntry(s, pc.found, s.entries[pc.found].(locked := false)), r, Idle)
    case Cleanup(now, saved) =>
      Swept(s, Expired(lim, s, now), saved)
  }

  // ---- Runs ----

  function Start(files: Files): Pool { Pool(map[], map[], 0, files, map[]) }

  /** The states a sequence of steps goes through, first to last. */
  ghost predicate IsRun(lim: Limits, files: Files, steps: seq<Step>, states: seq<Pool>) {
    && |states| == |steps| + 1 && states[0] == Start(files)
    && forall i :: 0 <= i < |steps| ==>
         Sane(states[i]) && Enabled(lim, states[i], steps[i]) && states[i + 1] == Apply(lim, states[i], steps[i])
  }
}
