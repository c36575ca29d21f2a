/** Nothing that comes in is lost: over every run, the tools that replies asked for are run, each once and in order, and
    what replies, tools and hooks add to memory is there, in order. */
module AgentConservation {
  import opened Common
  import opened AgentModel
  import opened AgentRuns
  import opened AgentTheorems
  import opened AgentHistory
  import opened AgentRecall

  // ---- Calls ----

  /** The calls of the reply that a step takes in; the limit may stop the run before it. */
  ghost function CallsIn(m: Machine, x: Input): seq<ToolName> {
    if m.pc == Head && !CutOff(m) && x.reply.Answer? then x.reply.calls else []
  }

  /** What the replies of a run asked for, in order. */
  ghost function Requested(cfg: Config, m: Machine, xs: seq<Input>): seq<ToolName> {
    if xs == [] then []
    else
      var init := xs[..|xs| - 1];
      Requested(cfg, m, init) + CallsIn(Run(cfg, m, init), xs[|xs| - 1])
  }

  /** The tools of all batches so far. */
  function RunNames(l: Log): seq<ToolName> {
    match l
    case Nothing => []
    case Then(k, Batch(_, names)) => RunNames(k) + names
    case Then(k, _) => RunNames(k)
  }

  /** Run, or waiting to be run. */
  function Accounted(l: Log): seq<ToolName> { RunNames(l) + Pending(l) }

  lemma {:induction false} EventAccounts(l: Log, e: Event)
    requires e.Batch? ==> e.names == Pending(l)
    ensures Accounted(Then(l, e)) == Accounted(l) + if e.Replied? then e.calls else []
  {
    if e.Replied? { Assoc(RunNames(l), Pending(l), e.calls); }
  }

  lemma {:induction false} SendAccounts(t: Story, p: Prompt)
    ensures Accounted(t.Send(p).log) == Accounted(t.log)
  {
    EventAccounts(t.log, Injected(p));
  }

  lemma {:induction false} ListenAccounts(t: Story, text: Text, fast: bool)
    ensures Accounted(Listen(t, text, fast).log) == Accounted(t.log)
  {
    EventAccounts(t.log, Noted(text.hash));
    EventAccounts(t.log, Shown(Primary, text.headHash, text.length));
  }

  lemma {:induction false} HeadAccounts(cfg: Config, t: Story, x: Input)
    ensures Accounted(HeadTurn(cfg, t, x).log) ==
      Accounted(t.log) + if Replies(t.log) < Room(t) && x.reply.Answer? then x.reply.calls else []
  {
    if Replies(t.log) < Room(t) {
      var fast := FastDue(cfg, t.log, x.contextChars);
      var called := t.(limit := Room(t)).Tell(Called(if fast then Fast else Primary));
      EventAccounts(t.log, Called(if fast then Fast else Primary));
      EventAccounts(called.log, Retried);
      if x.reply.Answer? { TakeInAccounts(called, x.reply, fast); }
    }
  }

  lemma {:induction false} TakeInAccounts(t: Story, r: Reply, fast: bool)
    requires r.Answer?
    ensures Accounted(TakeIn(t, r, fast).log) == Accounted(t.log) + r.calls
  {
    var heard := Listen(t.Hear(r.thinking), r.text, fast);
    ListenAccounts(t.Hear(r.thinking), r.text, fast);
    EventAccounts(heard.log, Replied(r.calls));
  }

  lemma {:induction false} BatchAccounts(cfg: Config, t: Story, x: Input)
    ensures Accounted(BatchTurn(cfg, t, x).log) == Accounted(t.log)
  {
    var ran := RunAll(t, x);
    EventAccounts(t.log, ran.log.event);
    var warned := Warn(ran, x.batchEnding == Completed && x.batchError);
    SendAccounts(ran, Stop);
    SendAccounts(ran, Hint);
    SendAccounts(warned, Executor);
    SendAccounts(Brief(cfg, warned), SearchGuard);
  }

  lemma {:induction false} EscalateAccounts(cfg: Config, t: Story, x: Input, some: Prompt, none: Prompt)
    ensures Accounted(EscalateTurn(cfg, t, x, some, none).log) == Accounted(t.log)
  {
    var names := Newcomers(cfg, t.toolbox, x);
    EventAccounts(t.log, Escalation(names));
    EventAccounts(Then(t.log, Escalation(names)), Injected(some));
    EventAccounts(t.log, Injected(none));
  }

  lemma {:induction false} BranchAccounts(cfg: Config, t: Story, x: Input)
    ensures Accounted(BranchTurn(cfg, t, x).log) == Accounted(t.log)
  {
    BatchAccounts(cfg, t, x);
    SendAccounts(t, HandOff);
    SendAccounts(t, EnoughResearch);
    SendAccounts(t, Checkpoint);
    EventAccounts(t.log, Skipped);
    EventAccounts(t.log, Settled);
    SendAccounts(t, PostError);
    SendAccounts(t, PostDescribe);
    EscalateAccounts(cfg, t, x, NudgeWithTools, Nudge);
    EscalateAccounts(cfg, t, x, MoreTools, Synthesis);
  }

  /** The limit stops a run where the other account says. */
  lemma {:induction false} CutOffIsTold(cfg: Config, m: Machine, x: Input)
    requires m.pc == Head && Mindful(cfg, m)
    ensures CutOff(m) <==> Replies(m.log) >= Room(StoryOf(m))
  {
    LimitStops(cfg, m, x);
    RoomIsExtended(cfg, m);
  }

  lemma {:induction false} StepAccounts(cfg: Config, m: Machine, x: Input)
    requires cfg.Valid() && Mindful(cfg, m)
    ensures Accounted(Step(cfg, m, x).log) == Accounted(m.log) + CallsIn(m, x)
  {
    StepIsTold(cfg, m, x);
    match m.pc
    case Head => HeadAccounts(cfg, StoryOf(m), x); CutOffIsTold(cfg, m, x);
    case Dispatch => BranchAccounts(cfg, StoryOf(m), x);
    case Done =>
    case Raised(_) =>
  }

  /** Over every run: the names of all batches so far, followed by those that wait in the queue, are the calls of the
      replies taken in, in order. */
  lemma {:induction false} CallsAreRun(cfg: Config, memory: seq<Message>, xs: seq<Input>)
    requires cfg.Valid()
    ensures var m := Run(cfg, Initial(cfg, memory), xs);
      RunNames(m.log) + m.s.work.queue == Requested(cfg, Initial(cfg, memory), xs)
    decreases |xs|
  {
    var m := Run(cfg, Initial(cfg, memory), xs);
    LoopFollowsHistory(cfg, memory, xs);
    assert m.s.work.queue == Pending(m.log);
    if xs != [] {
      var init := xs[..|xs| - 1];
      var before := Run(cfg, Initial(cfg, memory), init);
      CallsAreRun(cfg, memory, init);
      LoopFollowsHistory(cfg, memory, init);
      assert before.s.work.queue == Pending(before.log);
      StepAccounts(cfg, before, xs[|xs| - 1]);
    }
  }

  /** A completed reply with calls is followed, at the next step, by a batch of everything that waits; they are the last
      of it. */
  lemma {:induction false} ReplyThenBatch(cfg: Config, m: Machine, x: Input, y: Input)
    requires m.pc == Head && !CutOff(m) && Paced(cfg, m) && x.reply.Answer? && x.reply.ending == Completed
    requires x.reply.calls != []
    ensures var d := Step(cfg, m, x);
      d.pc == Dispatch && RunNames(Step(cfg, d, y).log) == RunNames(m.log) + (m.s.work.queue + x.reply.calls)
  {
    var d := Step(cfg, m, x);
    LimitStops(cfg, m, x);
    ReplyQueues(Calling(cfg, m, x), x.reply);
    assert RunNames(Calling(cfg, m, x).log) == RunNames(m.log);
    BatchNames(cfg, d, y);
  }

  lemma {:induction false} ReplyQueues(m: Machine, r: Reply)
    requires r.Answer?
    ensures Answered(m, r).s.work.queue == m.s.work.queue + r.calls && RunNames(Answered(m, r).log) == RunNames(m.log)
    ensures r.ending == Completed ==> Answered(m, r).pc == Dispatch
  {
    var asked := m.With(Enqueued(m.s, r.calls)).Remember(r.thinking);
    OutputCourse(asked, r.text);
    assert RunNames(OnOutput(asked, r.text).log) == RunNames(m.log);
  }

  lemma {:induction false} BatchNames(cfg: Config, m: Machine, x: Input)
    ensures RunNames(AfterTools(cfg, m, x).log) == RunNames(m.log) + m.s.work.queue
  {
    var b := Batched(m, x);
    assert RunNames(b.log) == RunNames(m.log) + m.s.work.queue;
    assert RunNames(Breaker(b).log) == RunNames(b.log);
    assert RunNames(Delegate(cfg, Breaker(b)).log) == RunNames(b.log);
  }

  // ---- Messages ----

  /** What a step adds to memory besides control prompts: a reply's thoughts, the text of the fast model and the rest of
      the reply; what the tools of a batch write; or what the hooks write when the loop completes. */
  ghost function Incoming(cfg: Config, m: Machine, x: Input): seq<Message> {
    match m.pc
    case Head =>
      if CutOff(m) || !x.reply.Answer? then []
      else x.reply.thinking + FastText(x.reply.text, FastDue(cfg, m.log, x.contextChars)) + x.reply.added
    case Dispatch =>
      var l := Step(cfg, m, x).log;
      if m.s.work.queue != [] then x.batchMessages
      else if l == m.log || l == Then(m.log, Settled) then x.hooksMessages
      else []
    case Done => []
    case Raised(_) => []
  }

  function FastText(t: Text, fast: bool): seq<Message> {
    if fast && t.length > 0 then [Plain(t.content, false)] else []
  }

  ghost function AllIncoming(cfg: Config, m: Machine, xs: seq<Input>): seq<Message> {
    if xs == [] then []
    else
      var init := xs[..|xs| - 1];
      AllIncoming(cfg, m, init) + Incoming(cfg, Run(cfg, m, init), xs[|xs| - 1])
  }

  /** `t'` has heard `ms` more than `t`, and perhaps control prompts. */
  ghost predicate Heard(t: Story, t': Story, ms: seq<Message>) {
    Unmarked(t'.chat.arrived) == Unmarked(t.chat.arrived) + Unmarked(ms)
  }

  lemma {:induction false} HearHears(t: Story, ms: seq<Message>)
    ensures Heard(t, t.Hear(ms), ms)
  {
    UnmarkedConcat(t.chat.arrived, ms);
  }

  lemma {:induction false} SendHears(t: Story, p: Prompt)
    ensures Heard(t, t.Send(p), [])
  {
    UnmarkedConcat(t.chat.arrived, [Control(p)]);
    assert Unmarked([Control(p)]) == [] + Unmarked([]);
  }

  lemma {:induction false} HeardThen(t: Story, t1: Story, t2: Story, a: seq<Message>, b: seq<Message>)
    requires Heard(t, t1, a) && Heard(t1, t2, b)
    ensures Heard(t, t2, a + b)
  {
    UnmarkedConcat(a, b);
    Assoc(Unmarked(t.chat.arrived), Unmarked(a), Unmarked(b));
  }

  lemma {:induction false} Silent(t: Story, t': Story)
    requires t'.chat.arrived == t.chat.arrived
    ensures Heard(t, t', [])
  {
    assert Unmarked(t.chat.arrived) + [] == Unmarked(t.chat.arrived);
  }

  lemma {:induction false} TakeInHears(t: Story, r: Reply, fast: bool)
    requires r.Answer?
    ensures Heard(t, TakeIn(t, r, fast), r.thinking + FastText(r.text, fast) + r.added)
  {
    var t1 := t.Hear(r.thinking);
    var t2 := Listen(t1, r.text, fast);
    HearHears(t, r.thinking);
    if fast && r.text.length > 0 { HearHears(t1, [Plain(r.text.content, false)]); } else { Silent(t1, t2); }
    HeardThen(t, t1, t2, r.thinking, FastText(r.text, fast));
    HearHears(t2.Tell(Replied(r.calls)), r.added);
    HeardThen(t, t2, t2.Tell(Replied(r.calls)).Hear(r.added), r.thinking + FastText(r.text, fast), r.added);
  }

  lemma {:induction false} HeadHears(cfg: Config, t: Story, x: Input)
    ensures Heard(t, HeadTurn(cfg, t, x),
      if Replies(t.log) >= Room(t) || !x.reply.Answer? then []
      else x.reply.thinking + FastText(x.reply.text, FastDue(cfg, t.log, x.contextChars)) + x.reply.added)
  {
    var fast := FastDue(cfg, t.log, x.contextChars);
    var called := t.(limit := Room(t)).Tell(Called(if fast then Fast else Primary));
    if x.reply.Answer? { TakeInHears(called, x.reply, fast); }
    if Replies(t.log) >= Room(t) || !x.reply.Answer? { Silent(t, HeadTurn(cfg, t, x)); }
  }

  lemma {:induction false} MaybeSendHears(t: Story, t': Story, p: Prompt)
    requires t' == t || t' == t.Send(p)
    ensures Heard(t, t', [])
  {
    Silent(t, t);
    SendHears(t, p);
  }

  lemma {:induction false} QuietAfter(t: Story, t1: Story, t2: Story, ms: seq<Message>)
    requires Heard(t, t1, ms) && Heard(t1, t2, [])
    ensures Heard(t, t2, ms)
  {
    HeardThen(t, t1, t2, ms, []);
    assert ms + [] == ms;
  }

  lemma {:induction false} BatchHears(cfg: Config, t: Story, x: Input)
    ensures Heard(t, BatchTurn(cfg, t, x), x.batchMessages)
  {
    var ran := RunAll(t, x);
    HearHears(t, x.batchMessages);
    assert Heard(t, ran, x.batchMessages);
    if x.batchEnding != Faulted {
      var erred := x.batchEnding == Completed && x.batchError;
      var w := Warn(ran, erred);
      MaybeSendHears(ran, w, if ErrorCount(ran.log) == 0 then Stop else Hint);
      QuietAfter(t, ran, w, x.batchMessages);
      MaybeSendHears(w, Brief(cfg, w), Executor);
      QuietAfter(t, w, Brief(cfg, w), x.batchMessages);
      MaybeSendHears(Brief(cfg, w), Guard(cfg, Brief(cfg, w)), SearchGuard);
      QuietAfter(t, Brief(cfg, w), Guard(cfg, Brief(cfg, w)), x.batchMessages);
    }
  }

  /** The branch sends a prompt or notes that none is needed. */
  ghost predicate Prompts(t: Story, t': Story) {
    Heard(t, t', []) && t'.log != t.log && t'.log != Then(t.log, Settled)
  }

  lemma {:induction false} EscalatePrompts(cfg: Config, t: Story, x: Input, some: Prompt, none: Prompt)
    ensures Prompts(t, EscalateTurn(cfg, t, x, some, none))
  {
    var names := Newcomers(cfg, t.toolbox, x);
    var e := t.Equip(Enlarged(cfg, t.toolbox, x), if names != [] && t.limit < 15 then 20 else t.limit);
    EscalateTells(cfg, t, x, some, none, e, names);
    if names == [] {
      SendPrompts(e, none);
    } else {
      SendHears(e.Tell(Escalation(names)), some);
      Longer(t.log, Escalation(names), Injected(some));
    }
  }

  lemma {:induction false} Longer(l: Log, d: Event, e: Event)
    ensures Then(l, d) != l && Then(Then(l, d), e) != l && Then(Then(l, d), e) != Then(l, e)
  {
    Later(l, d);
    Later(Then(l, d), e);
  }

  function Length(l: Log): nat { if l.Then? then Length(l.earlier) + 1 else 0 }

  lemma {:induction false} Later(l: Log, e: Event)
    ensures Length(Then(l, e)) == Length(l) + 1 && Then(l, e) != l
  {
  }

  lemma {:induction false} SendPrompts(t: Story, p: Prompt)
    ensures Prompts(t, t.Send(p).Go(Head))
  {
    SendHears(t, p);
    Later(t.log, Injected(p));
  }

  lemma {:induction false} EndHears(t: Story, x: Input)
    ensures Heard(t, EndTurn(t, x), x.hooksMessages) && EndTurn(t, x).log == t.log
  {
    HearHears(t, x.hooksMessages);
  }

  /** What comes in with a branch that runs no tools: what the hooks write, if the loop completes. */
  function HookMessages(t: Story, t': Story, x: Input): seq<Message> {
    if t'.log == t.log || t'.log == Then(t.log, Settled) then x.hooksMessages else []
  }

  lemma {:induction false} NudgeHears(cfg: Config, t: Story, x: Input)
    ensures Prompts(t, NudgeTurn(cfg, t, x))
  {
    EscalatePrompts(cfg, t, x, NudgeWithTools, Nudge);
    Silent(t, t.Tell(Skipped).Go(Head));
    Later(t.log, Skipped);
  }

  lemma {:induction false} FinishHears(cfg: Config, t: Story, x: Input)
    ensures var t' := FinishTurn(cfg, t, x); Heard(t, t', HookMessages(t, t', x))
  {
    SendPrompts(t, PostError);
    SendPrompts(t, PostDescribe);
    EscalatePrompts(cfg, t, x, MoreTools, Synthesis);
    EndHears(t.Tell(Settled), x);
  }

  lemma {:induction false} BranchHears(cfg: Config, t: Story, x: Input)
    requires Pending(t.log) == []
    ensures var t' := BranchTurn(cfg, t, x); Heard(t, t', HookMessages(t, t', x))
  {
    SendPrompts(t, HandOff);
    SendPrompts(t, EnoughResearch);
    SendPrompts(t, Checkpoint);
    NudgeHears(cfg, t, x);
    FinishHears(cfg, t, x);
    EndHears(t, x);
  }

  lemma {:induction false} StepHears(cfg: Config, m: Machine, x: Input)
    requires cfg.Valid() && Mindful(cfg, m)
    ensures Heard(StoryOf(m), StoryOf(Step(cfg, m, x)), Incoming(cfg, m, x))
  {
    StepIsTold(cfg, m, x);
    match m.pc
    case Head => HeadHears(cfg, StoryOf(m), x); CutOffIsTold(cfg, m, x);
    case Dispatch =>
      assert m.s.work.queue == Pending(m.log);
      if m.s.work.queue != [] { BatchHears(cfg, StoryOf(m), x); } else { BranchHears(cfg, StoryOf(m), x); }
    case Done => Silent(StoryOf(m), StoryOf(m));
    case Raised(_) => Silent(StoryOf(m), StoryOf(m));
  }

  /** Over every run, control prompts and other marked messages left out: what ever reached memory is what was there
      and then all that came in, in order.  After `break` this is what memory holds. */
  lemma {:induction false} MemoryIsWhole(cfg: Config, memory: seq<Message>, xs: seq<Input>)
    requires cfg.Valid()
    ensures var m := Run(cfg, Initial(cfg, memory), xs);
      var whole := Unmarked(memory) + Unmarked(AllIncoming(cfg, Initial(cfg, memory), xs));
      Unmarked(m.chat.arrived) == whole && (m.pc == Done ==> m.chat.memory == whole)
    decreases |xs|
  {
    var start := Initial(cfg, memory);
    var m := Run(cfg, start, xs);
    if xs == [] {
      Silent(StoryOf(start), StoryOf(start));
    } else {
      var init := xs[..|xs| - 1];
      var before := Run(cfg, start, init);
      MemoryIsWhole(cfg, memory, init);
      LoopFollowsHistory(cfg, memory, init);
      StepHears(cfg, before, xs[|xs| - 1]);
      var a, b := AllIncoming(cfg, start, init), Incoming(cfg, before, xs[|xs| - 1]);
      UnmarkedConcat(a, b);
      Assoc(Unmarked(memory), Unmarked(a), Unmarked(b));
    }
    RunInvariant(cfg, memory, xs);
    StrippedIsUnmarked(m.chat.arrived);
  }
}
