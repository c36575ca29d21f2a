/** What the pool's bookkeeping means over a run: a session's last use is its last acquisition, so that evictions and
    cleanups go by when sessions were last acquired; and a save leaves in the file what was last written. */
module PoolHistory {
  import opened Common
  import opened PoolModel
  import opened PoolTheorems

  /** The step's time if it locks the session's entry or creates it, else the time before. */
  function Acquired(s: Pool, a: Step, sid: SessionId, before: int): int {
    match a
    case Lock(r, now) =>
      if sid in s.sessions && s.At(r).Waiting? && s.At(r).own == s.sessions[sid] then now else before
    case Lookup(_, x, now, _, _, _) => if x == sid && sid !in s.sessions then now else before
    case _ => before
  }

  /** When the session's entry was last locked before state `i`, or else when it was created. */
  function LastAcquired(steps: seq<Step>, states: seq<Pool>, i: nat, sid: SessionId): int
    requires i <= |steps| && i < |states|
  {
    if i == 0 then 0 else Acquired(states[i - 1], steps[i - 1], sid, LastAcquired(steps, states, i - 1, sid))
  }

  /** How often the entry was locked before state `i`. */
  function Acquisitions(steps: seq<Step>, states: seq<Pool>, i: nat, e: EntryId): nat
    requires i <= |steps| && i < |states|
  {
    if i == 0 then 0
    else
      var r := if steps[i - 1].Lock? then states[i - 1].At(steps[i - 1].r) else Idle;
      Acquisitions(steps, states, i - 1, e) + if r.Waiting? && r.own == e then 1 else 0
  }

  lemma {:induction false} UseMoves(lim: Limits, s: Pool, a: Step, sid: SessionId, before: int)
    requires Sane(s) && Enabled(lim, s, a) && Sane(Apply(lim, s, a)) && sid in Apply(lim, s, a).sessions
    requires sid in s.sessions ==> LastUsed(s, sid) == before
    ensures LastUsed(Apply(lim, s, a), sid) == Acquired(s, a, sid, before)
  {
    match a
    case Lookup(_, _, _, _, _, _) =>
    case Lock(_, _) =>
    case Work(_, _) =>
    case BeginRelease(_) =>
    case Save(_, _) =>
    case Unlock(_) =>
    case Cleanup(_, _) =>
  }

  /** In every run, the time by which sessions are evicted and expire is that of their last acquisition. */
  lemma {:induction false} LastUseIsLastAcquisition(
      lim: Limits, files: Files, steps: seq<Step>, states: seq<Pool>, i: nat, sid: SessionId)
    requires IsRun(lim, files, steps, states) && i < |states| && sid in states[i].sessions
    ensures Sane(states[i]) && LastUsed(states[i], sid) == LastAcquired(steps, states, i, sid)
  {
    if i == 0 {
    } else {
      var before := LastAcquired(steps, states, i - 1, sid);
      RunSane(lim, files, steps, states, i);
      if sid in states[i - 1].sessions { LastUseIsLastAcquisition(lim, files, steps, states, i - 1, sid); }
      RunStep(lim, files, steps, states, i - 1);
      StepUses(lim, states[i - 1], steps[i - 1], states[i], sid, before);
    }
  }

  lemma {:induction false} RunSane(lim: Limits, files: Files, steps: seq<Step>, states: seq<Pool>, i: nat)
    requires IsRun(lim, files, steps, states) && i < |states|
    ensures Sane(states[i])
  {
    PoolNeverOverflows(lim, files, steps, states, i);
  }

  lemma {:induction false} RunStep(lim: Limits, files: Files, steps: seq<Step>, states: seq<Pool>, i: nat)
    requires IsRun(lim, files, steps, states) && i < |steps|
    ensures Sane(states[i]) && Enabled(lim, states[i], steps[i]) && states[i + 1] == Apply(lim, states[i], steps[i])
  {
  }

  lemma {:induction false} StepUses(lim: Limits, s: Pool, a: Step, s': Pool, sid: SessionId, before: int)
    requires Sane(s) && Enabled(lim, s, a) && s' == Apply(lim, s, a) && Sane(s') && sid in s'.sessions
    requires sid in s.sessions ==> LastUsed(s, sid) == before
    ensures LastUsed(s', sid) == Acquired(s, a, sid, before)
  {
    UseMoves(lim, s, a, sid, before);
  }

  lemma {:induction false} CountMoves(lim: Limits, s: Pool, a: Step, e: EntryId)
    requires Sane(s) && Enabled(lim, s, a) && e in Apply(lim, s, a).entries
    ensures Apply(lim, s, a).entries[e].requests ==
      (if e in s.entries then s.entries[e].requests else 0) + if a.Lock? && s.At(a.r).own == e then 1 else 0
    ensures e !in s.entries ==> e == s.next
  {
    match a
    case Lookup(_, _, _, _, _, _) =>
    case Lock(_, _) =>
    case Work(_, _) =>
    case BeginRelease(_) =>
    case Save(_, _) =>
    case Unlock(_) =>
    case Cleanup(_, _) =>
  }

  /** The request count of an entry is the number of its acquisitions. */
  lemma {:induction false} CountIsAcquisitions(
      lim: Limits, files: Files, steps: seq<Step>, states: seq<Pool>, i: nat, e: EntryId)
    requires IsRun(lim, files, steps, states) && i < |states|
    ensures Acquisitions(steps, states, i, e) == if e in states[i].entries then states[i].entries[e].requests else 0
  {
    if i == 0 {
    } else {
      var s, a := states[i - 1], steps[i - 1];
      CountIsAcquisitions(lim, files, steps, states, i - 1, e);
      if e in states[i].entries { CountMoves(lim, s, a, e); } else { EntriesStay(lim, s, a, e); }
    }
  }

  lemma {:induction false} EntriesStay(lim: Limits, s: Pool, a: Step, e: EntryId)
    requires Sane(s) && Enabled(lim, s, a) && e !in Apply(lim, s, a).entries
    ensures e !in s.entries
    ensures a.Lock? ==> s.At(a.r).own != e
  {
  }

  /** A session leaves the pool in two ways.  A cleanup removes it exactly when its last acquisition is longer ago than
      the time to live. */
  lemma {:induction false} CleanupGoesByAcquisition(
      lim: Limits, files: Files, steps: seq<Step>, states: seq<Pool>, i: nat, sid: SessionId)
    requires IsRun(lim, files, steps, states) && i < |steps| && steps[i].Cleanup? && sid in states[i].sessions
    ensures sid in states[i + 1].sessions <==> steps[i].now - LastAcquired(steps, states, i, sid) <= lim.ttl
  {
    LastUseIsLastAcquisition(lim, files, steps, states, i, sid);
  }

  /** And any other step removes it exactly when it is a lookup of an unknown session at a full pool that chose it; no
      session of the pool was then acquired longer ago. */
  lemma {:induction false} EvictionGoesByAcquisition(
      lim: Limits, files: Files, steps: seq<Step>, states: seq<Pool>, i: nat, sid: SessionId)
    requires IsRun(lim, files, steps, states) && i < |steps| && !steps[i].Cleanup? && sid in states[i].sessions
    ensures sid !in states[i + 1].sessions <==> steps[i].Lookup? && steps[i].victim == Some(sid)
    ensures sid !in states[i + 1].sessions ==>
      && steps[i].sid !in states[i].sessions && |states[i].sessions| >= lim.maxSessions
      && forall x <- states[i].sessions ::
           LastAcquired(steps, states, i, sid) <= LastAcquired(steps, states, i, x)
  {
    PoolNeverOverflows(lim, files, steps, states, i);
    var s, a := states[i], steps[i];
    if a.Lookup? && a.victim == Some(sid) {
      forall x <- s.sessions
        ensures LastAcquired(steps, states, i, sid) <= LastAcquired(steps, states, i, x)
      {
        LastUseIsLastAcquisition(lim, files, steps, states, i, sid);
        LastUseIsLastAcquisition(lim, files, steps, states, i, x);
      }
    }
  }

  /** A lookup makes room exactly when it must: one session leaves a full pool for an unknown one. */
  lemma {:induction false} LookupMakesRoom(lim: Limits, s: Pool, a: Step)
    requires Sane(s) && Enabled(lim, s, a) && a.Lookup?
    ensures var gone := s.sessions.Keys - Apply(lim, s, a).sessions.Keys;
      if a.sid !in s.sessions && |s.sessions| >= lim.maxSessions && s.sessions != map[]
      then a.victim.Some? && gone == {a.victim.value}
      else gone == {}
    ensures Apply(lim, s, a).sessions.Keys <= s.sessions.Keys + {a.sid} && a.sid in Apply(lim, s, a).sessions
  {
    if a.victim.Some? { assert a.victim.value != a.sid; }
  }

  /** A successful save at release leaves in the session's file what was last written, unless that is empty. */
  lemma {:induction false} ReleaseSavesLastWrite(
      lim: Limits, files: Files, steps: seq<Step>, states: seq<Pool>, i: nat)
    requires IsRun(lim, files, steps, states) && AllGuarded(lim, steps, states) && AllLossless(lim, steps, states)
    requires i < |steps| && steps[i].Save? && steps[i].saveOk && forall x <- files :: files[x] != []
    ensures var sid := states[i].At(steps[i].r).sid; var last := LastWritten(files, steps, states, i, sid);
      && (last != [] ==> sid in states[i + 1].files && states[i + 1].files[sid] == last)
      && (last == [] ==> sid !in states[i + 1].files)
  {
    var r := steps[i].r;
    AcquireSeesLastWrite(lim, files, steps, states, i, r);
    RunIsSafe(lim, files, steps, states, i);
    PoolRefinesMap(lim, files, steps, states, i, states[i].At(r).sid);
  }
}
