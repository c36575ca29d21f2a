/** Processing the tools a reply asked for: every use is written to memory and answered there. */
module ToolQueue {
  import opened Common

  const MAX_TOOL_RESULT_CHARS := 150000

  datatype ToolUse = ToolUse(id: string, name: string)

  datatype Result = Result(id: string, content: string, isError: bool)

  datatype Message = Use(use: ToolUse) | Answer(result: Result) | Note(text: string)

  /** The memory, latest message outermost. */
  datatype Memory = Empty | Then(earlier: Memory, message: Message)

  /** Something raised.  A cancellation is not an ordinary exception: no extension can retry it. */
  datatype Problem = Problem(kind: string, ordinary: bool, text: string)

  datatype Handled = Returned(result: Result) | Threw(problem: Problem)

  /** An enabled extension: its tools, the kinds of exception it retries, and, where it has one of its own, the
      verdict that replaces that list. */
  datatype Extension = Extension(names: set<string>, exceptions: set<string>, verdicts: Option<set<string>>)

  /** What handlers and hooks do for the `k`-th use of the queue.  Hooks may write notes, but do not raise. */
  datatype World = World(
    handle: (nat, nat) -> Handled,
    before: (nat, nat) -> seq<string>,
    after: (nat, nat) -> seq<string>,
    observersBefore: nat -> seq<string>,
    observersAfter: nat -> seq<string>,
    notice: nat -> string)

  // ---- One extension ----

  predicate IsRetryable(e: Extension, p: Problem) {
    p.ordinary &&
    p.kind in if e.verdicts.Some? then e.verdicts.value else e.exceptions
  }

  function Unsupported(use: ToolUse): Result {
    Result(use.id, "Tool `" + use.name + "` is not supported, please try another tool", true)
  }

  function Retried(use: ToolUse, p: Problem): Result {
    Result(use.id, "tool use `" + use.name + "` failed due to: " + p.kind + ": " + p.text, true)
  }

  function NonRetryable(use: ToolUse, p: Problem): Result {
    if !p.ordinary then Result(use.id, "tool_use (id: " + use.id + ") was cancelled by user", true)
    else
      var where := "Unexpected error when processing tool use (id: " + use.id + "): ";
      Result(use.id, where + p.kind + ": " + p.text, true)
  }

  function Outcome(e: Extension, use: ToolUse, h: Handled): Handled {
    if h.Threw? && IsRetryable(e, h.problem) then Returned(Retried(use, h.problem)) else h
  }

  function Truncated(r: Result, notice: nat -> string): Result {
    if |r.content| > MAX_TOOL_RESULT_CHARS then
      Result(r.id, r.content[..MAX_TOOL_RESULT_CHARS] + notice(|r.content|), r.isError)
    else r
  }

  function Notes(m: Memory, notes: seq<string>): Memory {
    if notes == [] then m else Then(Notes(m, notes[..|notes| - 1]), Note(notes[|notes| - 1]))
  }

  // ---- One use ----

  datatype Served = Served(memory: Memory, last: Option<Result>, raised: Option<Problem>)

  /** The extensions from the `i`-th on, each asked in turn. */
  function Ask(exts: seq<Extension>, w: World, use: ToolUse, k: nat, i: nat, s: Served): Served
    requires i <= |exts|
    decreases |exts| - i
  {
    if i == |exts| then s
    else
      var m := Notes(s.memory, w.before(i, k));
      if use.name !in exts[i].names then Ask(exts, w, use, k, i + 1, Served(m, s.last, None))
      else
        match Outcome(exts[i], use, w.handle(i, k))
        case Threw(p) => Served(Then(m, Answer(NonRetryable(use, p))), s.last, Some(p))
        case Returned(r) =>
          var t := Truncated(r, w.notice);
          Ask(exts, w, use, k, i + 1, Served(Notes(Then(m, Answer(t)), w.after(i, k)), Some(t), None))
  }

  predicate Supported(exts: seq<Extension>, name: string) { exists i :: 0 <= i < |exts| && name in exts[i].names }

  function Process(exts: seq<Extension>, w: World, use: ToolUse, k: nat, m: Memory): Served {
    var asked := Then(m, Use(use));
    if !Supported(exts, use.name) then
      Served(Then(asked, Answer(Unsupported(use))), Some(Unsupported(use)), None)
    else Ask(exts, w, use, k, 0, Served(asked, None, None))
  }

  // ---- The queue ----

  /** How far the queue got, whether a result was an error, and what was raised. */
  datatype Batch = Batch(memory: Memory, count: nat, hadError: bool, raised: Option<Problem>)

  function ProcessFirst(exts: seq<Extension>, w: World, queue: seq<ToolUse>, n: nat, m: Memory): (b: Batch)
    requires n <= |queue|
    ensures b.count <= n
    ensures b.raised.None? ==> b.count == n
    ensures b.raised.Some? ==> b.count < n
  {
    if n == 0 then Batch(m, 0, false, None)
    else
      var b := ProcessFirst(exts, w, queue, n - 1, m);
      if b.raised.Some? then b
      else
        var s := Process(exts, w, queue[n - 1], n - 1, Notes(b.memory, w.observersBefore(n - 1)));
        if s.raised.Some? then Batch(s.memory, n - 1, b.hadError, s.raised)
        else
          var erred := s.last.Some? && s.last.value.isError;
          var after := if s.last.Some? then Notes(s.memory, w.observersAfter(n - 1)) else s.memory;
          Batch(after, n, b.hadError || erred, None)
  }

  /** The orchestrator's side of it: the memory is written as the queue is worked off. */
  class ToolUseProcessor {
    var memory: Memory
    var lastQueueHadError: bool
    const exts: seq<Extension>
    const world: World

    constructor (exts: seq<Extension>, world: World)
      ensures memory == Empty && this.exts == exts && this.world == world
    {
      memory, lastQueueHadError, this.exts, this.world := Empty, false, exts, world;
    }

    method AddMessage(message: Message)
      modifies this`memory
      ensures memory == Then(old(memory), message)
    {
      memory := Then(memory, message);
    }

    method AddNotes(notes: seq<string>)
      modifies this`memory
      ensures memory == Notes(old(memory), notes)
    {
      for i := 0 to |notes|
        invariant memory == Notes(old(memory), notes[..i])
      {
        assert notes[..i + 1][..i] == notes[..i];
        AddMessage(Note(notes[i]));
      }
      assert notes[..|notes|] == notes;
    }

    method OnToolUseImpl(i: nat, use: ToolUse, k: nat) returns (handled: Handled)
      requires i < |exts|
      ensures handled == Outcome(exts[i], use, world.handle(i, k))
    {
      handled := world.handle(i, k);
      if handled.Threw? {
        if IsRetryable(exts[i], handled.problem) { handled := Returned(Retried(use, handled.problem)); }
      }
    }

    /** A failure that may not be retried is answered in memory before it leaves. */
    method OnToolUse(i: nat, use: ToolUse, k: nat) returns (handled: Option<Handled>)
      requires i < |exts|
      modifies this`memory
      ensures use.name !in exts[i].names ==> handled == None && memory == old(memory)
      ensures use.name in exts[i].names ==>
        && handled == Some(Outcome(exts[i], use, world.handle(i, k)))
        && memory == if handled.value.Threw? then Then(old(memory), Answer(NonRetryable(use, handled.value.problem)))
                     else old(memory)
    {
      if use.name !in exts[i].names { return None; }
      var h := OnToolUseImpl(i, use, k);
      if h.Threw? { AddMessage(Answer(NonRetryable(use, h.problem))); }
      handled := Some(h);
    }

    method ProcessToolUse(use: ToolUse, k: nat) returns (last: Option<Result>, raised: Option<Problem>)
      modifies this`memory
      ensures Served(memory, last, raised) == Process(exts, world, use, k, old(memory))
    {
      AddMessage(Use(use));
      last, raised := None, None;
      if !Supported(exts, use.name) {
        AddMessage(Answer(Unsupported(use)));
        return Some(Unsupported(use)), None;
      }
      var i := 0;
      while i < |exts|
        invariant 0 <= i <= |exts| && raised == None
        invariant Ask(exts, world, use, k, i, Served(memory, last, raised))
               == Process(exts, world, use, k, old(memory))
      {
        AddNotes(world.before(i, k));
        var handled := OnToolUse(i, use, k);
        if handled.Some? {
          if handled.value.Threw? { return last, Some(handled.value.problem); }
          var toolResult := Truncated(handled.value.result, world.notice);
          AddMessage(Answer(toolResult));
          AddNotes(world.after(i, k));
          last := Some(toolResult);
        }
        i := i + 1;
      }
    }

    method ProcessToolUseQueue(queue: seq<ToolUse>) returns (count: nat, raised: Option<Problem>)
      modifies this
      ensures Batch(memory, count, lastQueueHadError, raised) == ProcessFirst(exts, world, queue, |queue|, old(memory))
    {
      lastQueueHadError := false;
      count, raised := 0, None;
      while count < |queue|
        invariant count <= |queue| && raised == None
        invariant Batch(memory, count, lastQueueHadError, None)
               == ProcessFirst(exts, world, queue, count, old(memory))
      {
        AddNotes(world.observersBefore(count));
        var last: Option<Result>;
        last, raised := ProcessToolUse(queue[count], count);
        if raised.Some? {
          StaysRaised(exts, world, queue, count + 1, |queue|, old(memory));
          return;
        }
        if last.Some? {
          if last.value.isError { lastQueueHadError := true; }
          AddNotes(world.observersAfter(count));
        }
        count := count + 1;
      }
    }
  }

  lemma {:induction false} StaysRaised(exts: seq<Extension>, w: World, queue: seq<ToolUse>, n: nat, n': nat, m: Memory)
    requires n <= n' <= |queue| && ProcessFirst(exts, w, queue, n, m).raised.Some?
    ensures ProcessFirst(exts, w, queue, n', m) == ProcessFirst(exts, w, queue, n, m)
    decreases n'
  {
    if n < n' { StaysRaised(exts, w, queue, n, n' - 1, m); }
  }

  // ---- Uses and answers only ----

  function Tools(m: Memory): Memory {
    match m
    case Empty => Empty
    case Then(earlier, Note(_)) => Tools(earlier)
    case Then(earlier, x) => Then(Tools(earlier), x)
  }

  lemma {:induction false} NotesAreNoTools(m: Memory, notes: seq<string>)
    ensures Tools(Notes(m, notes)) == Tools(m)
    decreases |notes|
  {
    if notes == [] {
    } else {
      NotesAreNoTools(m, notes[..|notes| - 1]);
    }
  }

  /** How many of the extensions from the `i`-th on offer the name. */
  function Offering(exts: seq<Extension>, name: string, i: nat): nat
    requires i <= |exts|
    decreases |exts| - i
  {
    if i == |exts| then 0 else (if name in exts[i].names then 1 else 0) + Offering(exts, name, i + 1)
  }

  lemma {:induction false} OfferedSomewhere(exts: seq<Extension>, name: string, i: nat)
    requires i <= |exts|
    ensures Offering(exts, name, i) > 0 <==> exists j :: i <= j < |exts| && name in exts[j].names
    decreases |exts| - i
  {
    if i == |exts| {
    } else {
      OfferedSomewhere(exts, name, i + 1);
    }
  }

  function Answers(m: Memory): nat {
    match m
    case Empty => 0
    case Then(earlier, x) => Answers(earlier) + if x.Answer? then 1 else 0
  }

  lemma {:induction false} NotesAreNoAnswers(m: Memory, notes: seq<string>)
    ensures Answers(Notes(m, notes)) == Answers(m)
    decreases |notes|
  {
    if notes == [] {
    } else {
      NotesAreNoAnswers(m, notes[..|notes| - 1]);
    }
  }

  lemma {:induction false} AskCounts(exts: seq<Extension>, w: World, use: ToolUse, k: nat, i: nat, s: Served)
    requires i <= |exts| && s.raised == None
    ensures var t := Ask(exts, w, use, k, i, s);
      && (t.raised.None? ==> Answers(t.memory) == Answers(s.memory) + Offering(exts, use.name, i))
      && (t.raised.Some? ==> Answers(s.memory) < Answers(t.memory) <= Answers(s.memory) + Offering(exts, use.name, i))
    decreases |exts| - i
  {
    if i == |exts| {
    } else {
      var m := Notes(s.memory, w.before(i, k));
      NotesAreNoAnswers(s.memory, w.before(i, k));
      if use.name !in exts[i].names {
        AskCounts(exts, w, use, k, i + 1, Served(m, s.last, None));
      } else {
        match Outcome(exts[i], use, w.handle(i, k))
        case Threw(p) =>
        case Returned(r) =>
          var t := Truncated(r, w.notice);
          NotesAreNoAnswers(Then(m, Answer(t)), w.after(i, k));
          AskCounts(exts, w, use, k, i + 1, Served(Notes(Then(m, Answer(t)), w.after(i, k)), Some(t), None));
      }
    }
  }

  /** A use that runs to its end gets one answer from each extension that offers its name, and one when none does:
      exactly one answer exactly when at most one extension offers the name. */
  lemma {:induction false} OneAnswerExactlyWhenNamesDiffer(
    exts: seq<Extension>, w: World, use: ToolUse, k: nat, m: Memory)
    requires Process(exts, w, use, k, m).raised.None?
    ensures Answers(Process(exts, w, use, k, m).memory) == Answers(m) + 1 <==> Offering(exts, use.name, 0) <= 1
    ensures Answers(Process(exts, w, use, k, m).memory) > Answers(m)
  {
    OfferedSomewhere(exts, use.name, 0);
    AskCounts(exts, w, use, k, 0, Served(Then(m, Use(use)), None, None));
  }

  // ---- One use, when names differ and handlers answer under the id they were given ----

  ghost predicate Echoes(exts: seq<Extension>, w: World, use: ToolUse, k: nat) {
    forall i: nat :: i < |exts| && w.handle(i, k).Returned? ==> w.handle(i, k).result.id == use.id
  }

  /** Use and answer, and nothing between or after them but notes. */
  ghost predicate Answered(before: Memory, after: Memory, use: ToolUse, answer: Result) {
    Tools(after) == Then(Then(Tools(before), Use(use)), Answer(answer)) && answer.id == use.id
  }

  lemma {:induction false} NoneLeft(exts: seq<Extension>, w: World, use: ToolUse, k: nat, i: nat, s: Served)
    requires i <= |exts| && Offering(exts, use.name, i) == 0 && s.raised == None
    ensures var t := Ask(exts, w, use, k, i, s);
      Tools(t.memory) == Tools(s.memory) && t.last == s.last && t.raised == None
    decreases |exts| - i
  {
    if i == |exts| {
    } else {
      NotesAreNoTools(s.memory, w.before(i, k));
      NoneLeft(exts, w, use, k, i + 1, Served(Notes(s.memory, w.before(i, k)), s.last, None));
    }
  }

  lemma {:induction false} AskAnswers(exts: seq<Extension>, w: World, use: ToolUse, k: nat, i: nat, s: Served)
    returns (answer: Result)
    requires i <= |exts| && Offering(exts, use.name, i) == 1 && s.raised == None && Echoes(exts, w, use, k)
    ensures var t := Ask(exts, w, use, k, i, s);
      && Tools(t.memory) == Then(Tools(s.memory), Answer(answer)) && answer.id == use.id
      && (t.raised.None? ==> t.last == Some(answer))
      && (t.raised.Some? ==> answer.isError)
    decreases |exts| - i
  {
    var m := Notes(s.memory, w.before(i, k));
    NotesAreNoTools(s.memory, w.before(i, k));
    if use.name !in exts[i].names {
      answer := AskAnswers(exts, w, use, k, i + 1, Served(m, s.last, None));
    } else {
      match Outcome(exts[i], use, w.handle(i, k))
      case Threw(p) => answer := NonRetryable(use, p);
      case Returned(r) =>
        answer := Truncated(r, w.notice);
        NotesAreNoTools(Then(m, Answer(answer)), w.after(i, k));
        NoneLeft(exts, w, use, k, i + 1, Served(Notes(Then(m, Answer(answer)), w.after(i, k)), Some(answer), None));
    }
  }

  /** One use is followed by one answer with its id: supported or not, failed or not, and even when the failure is
      raised further. */
  lemma {:induction false} ProcessAnswers(exts: seq<Extension>, w: World, use: ToolUse, k: nat, m: Memory)
    returns (answer: Result)
    requires Offering(exts, use.name, 0) <= 1 && Echoes(exts, w, use, k)
    ensures var t := Process(exts, w, use, k, m);
      && Answered(m, t.memory, use, answer)
      && (t.raised.None? ==> t.last == Some(answer))
      && (t.raised.Some? ==> answer.isError)
  {
    OfferedSomewhere(exts, use.name, 0);
    if Supported(exts, use.name) {
      answer := AskAnswers(exts, w, use, k, 0, Served(Then(m, Use(use)), None, None));
    } else {
      answer := Unsupported(use);
    }
  }

  /** What the answer says, and what is raised: a result is passed on with its flag, and whole up to 150000 characters;
      a failure is answered by an error, and goes no further exactly when it is an ordinary one that the extension's
      verdict or else its list of exceptions lets the model retry. */
  ghost predicate Rightly(e: Extension, w: World, use: ToolUse, h: Handled, answer: Result, raised: Option<Problem>) {
    match h
    case Returned(r) =>
      && raised == None && answer.id == r.id && answer.isError == r.isError
      && Clipped(r.content, w, answer.content)
    case Threw(p) =>
      && answer.id == use.id && answer.isError
      && if p.ordinary && p.kind in (match e.verdicts case Some(kinds) => kinds case None => e.exceptions) then
           raised == None &&
           Clipped("tool use `" + use.name + "` failed due to: " + p.kind + ": " + p.text, w, answer.content)
         else
           raised == Some(p) && answer.content ==
             if p.ordinary
             then "Unexpected error when processing tool use (id: " + use.id + "): " + p.kind + ": " + p.text
             else "tool_use (id: " + use.id + ") was cancelled by user"
  }

  predicate Clipped(text: string, w: World, shown: string) {
    && (|text| <= 150000 ==> shown == text)
    && (|text| > 150000 ==> shown == text[..150000] + w.notice(|text|))
  }

  /** The answer given by the only extension, from the `j`-th on, that offers the name. */
  lemma {:induction false} AskRightly(exts: seq<Extension>, w: World, use: ToolUse, k: nat, j: nat, i: nat, s: Served)
    returns (answer: Result)
    requires j <= i < |exts| && use.name in exts[i].names && s.raised == None
    requires forall x :: j <= x < |exts| && x != i ==> use.name !in exts[x].names
    ensures var t := Ask(exts, w, use, k, j, s);
      && Tools(t.memory) == Then(Tools(s.memory), Answer(answer))
      && Rightly(exts[i], w, use, w.handle(i, k), answer, t.raised)
    decreases i - j
  {
    var m := Notes(s.memory, w.before(j, k));
    NotesAreNoTools(s.memory, w.before(j, k));
    if j < i {
      answer := AskRightly(exts, w, use, k, j + 1, i, Served(m, s.last, None));
    } else {
      answer := OutcomeRightly(exts[i], w, use, w.handle(i, k));
      var after := Notes(Then(m, Answer(answer)), w.after(i, k));
      NotesAreNoTools(Then(m, Answer(answer)), w.after(i, k));
      OfferedSomewhere(exts, use.name, i + 1);
      NoneLeft(exts, w, use, k, i + 1, Served(after, Some(answer), None));
    }
  }

  lemma {:induction false} OutcomeRightly(e: Extension, w: World, use: ToolUse, h: Handled) returns (answer: Result)
    ensures match Outcome(e, use, h)
      case Threw(p) => answer == NonRetryable(use, p) && Rightly(e, w, use, h, answer, Some(p))
      case Returned(r) => answer == Truncated(r, w.notice) && Rightly(e, w, use, h, answer, None)
  {
    match Outcome(e, use, h)
    case Threw(p) => answer := NonRetryable(use, p);
    case Returned(r) => answer := Truncated(r, w.notice);
  }

  /** When one extension alone offers the name, the use is followed by its answer, and what is raised is decided by
      that extension; when none does, by an error that says so, and nothing is raised. */
  lemma {:induction false} AnswerIsRight(exts: seq<Extension>, w: World, use: ToolUse, k: nat, m: Memory, i: nat)
    returns (answer: Result)
    requires i < |exts| ==> use.name in exts[i].names
    requires forall x :: 0 <= x < |exts| && x != i ==> use.name !in exts[x].names
    ensures var t := Process(exts, w, use, k, m);
      && Tools(t.memory) == Then(Then(Tools(m), Use(use)), Answer(answer))
      && (i < |exts| ==> Rightly(exts[i], w, use, w.handle(i, k), answer, t.raised))
      && (i >= |exts| ==> t.raised == None)
    ensures i >= |exts| ==>
      answer == Result(use.id, "Tool `" + use.name + "` is not supported, please try another tool", true)
  {
    if i < |exts| {
      assert Supported(exts, use.name);
      answer := AskRightly(exts, w, use, k, 0, i, Served(Then(m, Use(use)), None, None));
    } else {
      answer := Unsupported(use);
    }
  }

  // ---- What hooks and observers write ----

  function NotesOf(m: Memory): seq<string> {
    match m
    case Empty => []
    case Then(earlier, Note(x)) => NotesOf(earlier) + [x]
    case Then(earlier, _) => NotesOf(earlier)
  }

  lemma {:induction false} NotesAreNoted(m: Memory, notes: seq<string>)
    ensures NotesOf(Notes(m, notes)) == NotesOf(m) + notes
    decreases |notes|
  {
    if notes == [] {
    } else {
      NotesAreNoted(m, notes[..|notes| - 1]);
      assert notes == notes[..|notes| - 1] + [notes[|notes| - 1]];
    }
  }

  /** From the `i`-th extension on: each writes before the use, and after it if it answered. */
  function HookNotes(exts: seq<Extension>, w: World, use: ToolUse, k: nat, i: nat): seq<string>
    requires i <= |exts|
    decreases |exts| - i
  {
    if i == |exts| then []
    else w.before(i, k) + (if use.name in exts[i].names then w.after(i, k) else []) + HookNotes(exts, w, use, k, i + 1)
  }

  lemma {:induction false} Regroup<T>(a: seq<T>, b: seq<T>, c: seq<T>, d: seq<T>)
    ensures ((a + b) + c) + d == a + (b + c + d)
  {
  }

  lemma {:induction false} AskNotes(exts: seq<Extension>, w: World, use: ToolUse, k: nat, i: nat, s: Served)
    requires i <= |exts| && Ask(exts, w, use, k, i, s).raised.None? && s.raised.None?
    ensures NotesOf(Ask(exts, w, use, k, i, s).memory) == NotesOf(s.memory) + HookNotes(exts, w, use, k, i)
    decreases |exts| - i
  {
    if i == |exts| {
    } else {
      var m := Notes(s.memory, w.before(i, k));
      NotesAreNoted(s.memory, w.before(i, k));
      if use.name !in exts[i].names {
        AskNotes(exts, w, use, k, i + 1, Served(m, s.last, None));
        Regroup(NotesOf(s.memory), w.before(i, k), [], HookNotes(exts, w, use, k, i + 1));
      } else {
        match Outcome(exts[i], use, w.handle(i, k))
        case Returned(r) =>
          var t := Truncated(r, w.notice);
          NotesAreNoted(Then(m, Answer(t)), w.after(i, k));
          AskNotes(exts, w, use, k, i + 1, Served(Notes(Then(m, Answer(t)), w.after(i, k)), Some(t), None));
          Regroup(NotesOf(s.memory), w.before(i, k), w.after(i, k), HookNotes(exts, w, use, k, i + 1));
      }
    }
  }

  /** What is written around the first `n` uses: by the observers before, by the extensions if the tool is supported,
      and by the observers after. */
  function QueueNotes(exts: seq<Extension>, w: World, queue: seq<ToolUse>, n: nat): seq<string>
    requires n <= |queue|
  {
    if n == 0 then []
    else
      QueueNotes(exts, w, queue, n - 1) +
      (w.observersBefore(n - 1) + UseNotes(exts, w, queue[n - 1], n - 1) + w.observersAfter(n - 1))
  }

  function UseNotes(exts: seq<Extension>, w: World, use: ToolUse, k: nat): seq<string> {
    if Supported(exts, use.name) then HookNotes(exts, w, use, k, 0) else []
  }

  lemma {:induction false} ProcessNotes(exts: seq<Extension>, w: World, use: ToolUse, k: nat, m: Memory)
    requires Process(exts, w, use, k, m).raised.None?
    ensures Process(exts, w, use, k, m).last.Some?
    ensures NotesOf(Process(exts, w, use, k, m).memory) == NotesOf(m) + UseNotes(exts, w, use, k)
  {
    if Supported(exts, use.name) {
      var s := Served(Then(m, Use(use)), None, None);
      AskNotes(exts, w, use, k, 0, s);
      AskAnswersSome(exts, w, use, k, 0, s);
    }
  }

  lemma {:induction false} AskAnswersSome(exts: seq<Extension>, w: World, use: ToolUse, k: nat, i: nat, s: Served)
    requires i <= |exts| && Ask(exts, w, use, k, i, s).raised.None? && s.raised.None?
    requires s.last.Some? || exists j :: i <= j < |exts| && use.name in exts[j].names
    ensures Ask(exts, w, use, k, i, s).last.Some?
    decreases |exts| - i
  {
    if i == |exts| {
    } else {
      var m := Notes(s.memory, w.before(i, k));
      if use.name !in exts[i].names {
        AskAnswersSome(exts, w, use, k, i + 1, Served(m, s.last, None));
      } else {
        match Outcome(exts[i], use, w.handle(i, k))
        case Returned(r) =>
          var t := Truncated(r, w.notice);
          AskAnswersSome(exts, w, use, k, i + 1, Served(Notes(Then(m, Answer(t)), w.after(i, k)), Some(t), None));
      }
    }
  }

  /** In a queue worked off to its end, every observer and every extension has written what it writes, in order. */
  lemma {:induction false} EveryHookRuns(exts: seq<Extension>, w: World, queue: seq<ToolUse>, n: nat, m: Memory)
    requires n <= |queue| && ProcessFirst(exts, w, queue, n, m).raised.None?
    ensures NotesOf(ProcessFirst(exts, w, queue, n, m).memory) == NotesOf(m) + QueueNotes(exts, w, queue, n)
    decreases n
  {
    if n == 0 {
    } else {
      var b := ProcessFirst(exts, w, queue, n - 1, m);
      EveryHookRuns(exts, w, queue, n - 1, m);
      var asked := Notes(b.memory, w.observersBefore(n - 1));
      NotesAreNoted(b.memory, w.observersBefore(n - 1));
      ProcessNotes(exts, w, queue[n - 1], n - 1, asked);
      NotesAreNoted(Process(exts, w, queue[n - 1], n - 1, asked).memory, w.observersAfter(n - 1));
      Regroup(NotesOf(b.memory), w.observersBefore(n - 1), UseNotes(exts, w, queue[n - 1], n - 1),
              w.observersAfter(n - 1));
      Assoc(NotesOf(m), QueueNotes(exts, w, queue, n - 1),
            w.observersBefore(n - 1) + UseNotes(exts, w, queue[n - 1], n - 1) + w.observersAfter(n - 1));
    }
  }

  // ---- The whole queue ----

  /** Answers in the order they were written, the latest outermost. */
  datatype Results = NoResults | Plus(earlier: Results, result: Result)

  function Count(rs: Results): nat { if rs.NoResults? then 0 else Count(rs.earlier) + 1 }

  predicate AnyError(rs: Results) { rs.Plus? && (rs.result.isError || AnyError(rs.earlier)) }

  /** The `k`-th answer has the id of the `k`-th use. */
  predicate SameIds(queue: seq<ToolUse>, rs: Results) {
    rs.Plus? ==> Count(rs) <= |queue| && rs.result.id == queue[Count(rs) - 1].id && SameIds(queue, rs.earlier)
  }

  /** The uses that have answers, in queue order, each followed by its answer. */
  function Paired(m: Memory, queue: seq<ToolUse>, rs: Results): Memory
    requires SameIds(queue, rs)
  {
    match rs
    case NoResults => m
    case Plus(earlier, r) => Then(Then(Paired(m, queue, earlier), Use(queue[Count(earlier)])), Answer(r))
  }

  ghost predicate Disjoint(exts: seq<Extension>, queue: seq<ToolUse>) {
    forall k :: 0 <= k < |queue| ==> Offering(exts, queue[k].name, 0) <= 1
  }

  ghost predicate AllEcho(exts: seq<Extension>, w: World, queue: seq<ToolUse>) {
    forall k :: 0 <= k < |queue| ==> Echoes(exts, w, queue[k], k)
  }

  /** In queue order, every use is followed by exactly one answer with its id.  When something is raised, that holds
      up to and including the use in flight, whose answer is an error, and the later uses leave no trace; the error
      flag then covers the uses before it. */
  lemma {:induction false} EveryUseIsAnswered(
    exts: seq<Extension>, w: World, queue: seq<ToolUse>, n: nat, m: Memory)
    returns (rs: Results)
    requires n <= |queue| && Disjoint(exts, queue) && AllEcho(exts, w, queue)
    ensures SameIds(queue, rs)
    ensures var b := ProcessFirst(exts, w, queue, n, m);
      && Tools(b.memory) == Paired(Tools(m), queue, rs)
      && Count(rs) == (if b.raised.Some? then b.count + 1 else n)
      && (b.raised.Some? ==> rs.Plus? && rs.result.isError)
      && b.hadError == AnyError(if b.raised.Some? then rs.earlier else rs)
    decreases n
  {
    if n == 0 {
      rs := NoResults;
    } else {
      var sofar := EveryUseIsAnswered(exts, w, queue, n - 1, m);
      var b := ProcessFirst(exts, w, queue, n - 1, m);
      if b.raised.Some? {
        rs := sofar;
      } else {
        var answer := NextIsAnswered(exts, w, queue, n, m);
        rs := Plus(sofar, answer);
      }
    }
  }

  lemma {:induction false} NextIsAnswered(exts: seq<Extension>, w: World, queue: seq<ToolUse>, n: nat, m: Memory)
    returns (answer: Result)
    requires 0 < n <= |queue| && Disjoint(exts, queue) && AllEcho(exts, w, queue)
    requires ProcessFirst(exts, w, queue, n - 1, m).raised.None?
    ensures var b := ProcessFirst(exts, w, queue, n - 1, m); var b' := ProcessFirst(exts, w, queue, n, m);
      && Answered(b.memory, b'.memory, queue[n - 1], answer)
      && b'.count == (if b'.raised.Some? then n - 1 else n)
      && (b'.raised.Some? ==> answer.isError && b'.hadError == b.hadError)
      && (b'.raised.None? ==> b'.hadError == (b.hadError || answer.isError))
  {
    var b := ProcessFirst(exts, w, queue, n - 1, m);
    var asked := Notes(b.memory, w.observersBefore(n - 1));
    NotesAreNoTools(b.memory, w.observersBefore(n - 1));
    answer := ProcessAnswers(exts, w, queue[n - 1], n - 1, asked);
    NotesAreNoTools(Process(exts, w, queue[n - 1], n - 1, asked).memory, w.observersAfter(n - 1));
  }
}
