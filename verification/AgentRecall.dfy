/** The private fields of the loop are a memory of its history: they always agree with it, and so the loop of AgentModel
    does, step by step, what AgentHistory tells. */
module AgentRecall {
  import opened Common
  import opened AgentModel
  import opened AgentRuns
  import opened AgentTheorems
  import opened AgentHistory

  // ---- What the fields remember ----

  /** While a reply is taken in, its calls wait in the queue before the reply is counted: `early`. */
  ghost predicate RecallsWork(s: State, l: Log, early: seq<ToolName>) {
    && s.pace.iterations == Replies(l) && s.work.queue == Pending(l) + early && s.work.searches == Searches(l)
    && s.streamed == Streamed(ShownHash(l), ShownChars(l))
  }

  ghost predicate RecallsTurns(r: Research, l: Log) {
    && r.lastTools == LastTools(l) && (r.forcePrimary <==> Forced(l)) && r.fastFailures == FastFailures(l)
    && r.cycles == Cycles(l) && (r.usingFast <==> CallsOf(l).last == Fast)
  }

  ghost predicate RecallsNotes(r: Research, l: Log) { r.fastHash == LastHash(l) && r.repeats == Repeats(l) }

  ghost predicate RecallsResearch(cfg: Config, r: Research, l: Log) {
    RecallsTurns(r, l) && RecallsNotes(r, l) && r.fastRun == ResearchRow(cfg, l)
  }

  ghost predicate RecallsOnce(o: Once, l: Log) {
    && (o.hadTools <==> HadTools(l)) && (o.synthesisDone <==> Closed(l)) && (o.nudgeDone <==> Nudged(l))
    && (o.postErrorDone <==> Sent(l, PostError)) && (o.postDescribeDone <==> Sent(l, PostDescribe))
    && (o.executorDone <==> Sent(l, Executor))
  }

  ghost predicate Ahead(cfg: Config, m: Machine, early: seq<ToolName>) {
    RecallsWork(m.s, m.log, early) && RecallsResearch(cfg, m.s.research, m.log) && RecallsOnce(m.s.once, m.log)
  }

  ghost predicate Recalls(cfg: Config, m: Machine) { Ahead(cfg, m, []) }

  function StoryOf(m: Machine): Story { Story(m.log, m.chat, m.depth, m.pc, m.s.pace.limit, m.s.toolbox) }

  lemma {:induction false} NoteIsTold(m: Machine, e: Event)
    ensures StoryOf(m.Note(e)) == StoryOf(m).Tell(e)
  {
  }

  lemma {:induction false} GoIsTold(m: Machine, p: Pc)
    ensures StoryOf(m.Go(p)) == StoryOf(m).Go(p)
  {
  }

  lemma {:induction false} RememberIsTold(m: Machine, ms: seq<Message>)
    ensures StoryOf(m.Remember(ms)) == StoryOf(m).Hear(ms)
  {
  }

  lemma {:induction false} InjectIsTold(m: Machine, p: Prompt)
    ensures StoryOf(m.Inject(p)) == StoryOf(m).Send(p)
  {
    RememberIsTold(m, [Control(p)]);
    NoteIsTold(m.Remember([Control(p)]), Injected(p));
  }

  // ---- One event ----

  /** Events that the once-only flags take no notice of. */
  predicate Passing(e: Event) { e.Called? || e.Noted? || e.Shown? || e.Replied? || e.Retried? || e.Escalation? }

  lemma {:induction false} OncePasses(o: Once, l: Log, e: Event)
    requires RecallsOnce(o, l) && Passing(e)
    ensures RecallsOnce(o, Then(l, e))
  {
  }

  /** What sending a prompt does to the flags. */
  function Flagged(o: Once, p: Prompt): Once {
    Once(o.hadTools, o.synthesisDone || p == Synthesis || p == SearchGuard,
         o.nudgeDone || p == Nudge || p == NudgeWithTools, o.nudgeSkipped,
         o.postErrorDone || p == PostError, o.postDescribeDone || p == PostDescribe, o.executorDone || p == Executor)
  }

  lemma {:induction false} SentMore(l: Log, p: Prompt, q: Prompt)
    ensures Sent(Then(l, Injected(p)), q) <==> p == q || Sent(l, q)
  {
  }

  lemma {:induction false} OtherMore(l: Log, p: Prompt)
    ensures HadTools(Then(l, Injected(p))) <==> HadTools(l)
    ensures Happened(Then(l, Injected(p)), Skipped) <==> Happened(l, Skipped)
    ensures Happened(Then(l, Injected(p)), Settled) <==> Happened(l, Settled)
  {
  }

  lemma {:induction false} OnceSends(o: Once, l: Log, p: Prompt)
    requires RecallsOnce(o, l)
    ensures RecallsOnce(Flagged(o, p), Then(l, Injected(p)))
  {
    OtherMore(l, p);
    SentMore(l, p, Executor);
    SentMore(l, p, Nudge);
    SentMore(l, p, NudgeWithTools);
    SentMore(l, p, PostError);
    SentMore(l, p, PostDescribe);
    SentMore(l, p, Synthesis);
    SentMore(l, p, SearchGuard);
  }

  /** A prompt that does not hand a round of research back leaves the rest as it is. */
  lemma {:induction false} RestSends(cfg: Config, s: State, l: Log, p: Prompt)
    requires RecallsWork(s, l, []) && RecallsResearch(cfg, s.research, l) && !HandsBack(Injected(p))
    ensures RecallsWork(s, Then(l, Injected(p)), []) && RecallsResearch(cfg, s.research, Then(l, Injected(p)))
  {
  }

  lemma {:induction false} RestPasses(cfg: Config, s: State, l: Log, e: Event)
    requires RecallsWork(s, l, []) && RecallsResearch(cfg, s.research, l)
    requires e.Escalation? || e.Skipped? || e.Settled?
    ensures RecallsWork(s, Then(l, e), []) && RecallsResearch(cfg, s.research, Then(l, e))
  {
  }

  // ---- Head ----

  lemma {:induction false} ChoiceIsDue(cfg: Config, m: Machine, chars: nat)
    requires Recalls(cfg, m)
    ensures Choose(cfg, m.s, chars).usingFast <==> FastDue(cfg, m.log, chars)
  {
  }

  lemma {:induction false} RowIsCounted(cfg: Config, s: State, l: Log, chars: nat, model: Model)
    requires RecallsWork(s, l, []) && RecallsResearch(cfg, s.research, l) && RecallsOnce(s.once, l)
    ensures Choose(cfg, s, chars).fastRun == ResearchRow(cfg, Then(l, Called(model)))
  {
  }

  lemma {:induction false} CalledRecalls(cfg: Config, s: State, l: Log, chars: nat)
    requires RecallsWork(s, l, []) && RecallsResearch(cfg, s.research, l) && RecallsOnce(s.once, l)
    ensures var r := Choose(cfg, s, chars); RecallsResearch(cfg, r, Then(l, Called(Speaker(r))))
  {
    var r := Choose(cfg, s, chars);
    RowIsCounted(cfg, s, l, chars, Speaker(r));
    assert r.(usingFast := false, fastRun := 0) == s.research.(usingFast := false, fastRun := 0);
    TurnsCalled(s.research, l, r);
  }

  lemma {:induction false} TurnsCalled(r: Research, l: Log, r': Research)
    requires RecallsTurns(r, l) && RecallsNotes(r, l)
    requires r'.(usingFast := false, fastRun := 0) == r.(usingFast := false, fastRun := 0)
    ensures RecallsTurns(r', Then(l, Called(Speaker(r')))) && RecallsNotes(r', Then(l, Called(Speaker(r'))))
  {
  }

  lemma {:induction false} CallingRecalls(cfg: Config, m: Machine, x: Input)
    requires Recalls(cfg, m)
    ensures Recalls(cfg, Calling(cfg, m, x))
  {
    var r := Choose(cfg, m.s, x.contextChars);
    CalledRecalls(cfg, m.s, m.log, x.contextChars);
    OncePasses(m.s.once, m.log, Called(Speaker(r)));
  }

  lemma {:induction false} NotedRecalls(cfg: Config, r: Research, l: Log, hash: int)
    requires RecallsResearch(cfg, r, l)
    ensures RecallsResearch(cfg, Compared(r, hash), Then(l, Noted(hash)))
  {
  }

  lemma {:induction false} ShownRecalls(cfg: Config, r: Research, l: Log, e: Event)
    requires RecallsResearch(cfg, r, l) && (e.Shown? || e.Replied?)
    ensures RecallsResearch(cfg, r, Then(l, e))
  {
  }

  lemma {:induction false} ShownWork(s: State, l: Log, early: seq<ToolName>, hash: int, n: nat, author: Model)
    requires RecallsWork(s, l, early)
    ensures RecallsWork(s.(streamed := Streamed(hash, s.streamed.chars + n)), Then(l, Shown(author, hash, n)), early)
  {
  }

  lemma {:induction false} NotedWork(s: State, l: Log, early: seq<ToolName>, r: Research, hash: int)
    requires RecallsWork(s, l, early)
    ensures RecallsWork(s.(research := r), Then(l, Noted(hash)), early)
  {
  }

  lemma {:induction false} OutputRecalls(cfg: Config, m: Machine, t: Text, early: seq<ToolName>)
    requires Ahead(cfg, m, early)
    ensures Ahead(cfg, OnOutput(m, t), early)
  {
    if t.length == 0 {
    } else if m.s.research.usingFast {
      NotedRecalls(cfg, m.s.research, m.log, t.hash);
      NotedWork(m.s, m.log, early, Compared(m.s.research, t.hash), t.hash);
      OncePasses(m.s.once, m.log, Noted(t.hash));
    } else if !Repeated(m.s.streamed, t) {
      var shown := Shown(Speaker(m.s.research), t.headHash, t.length);
      ShownRecalls(cfg, m.s.research, m.log, shown);
      ShownWork(m.s, m.log, early, t.headHash, t.length, Speaker(m.s.research));
      OncePasses(m.s.once, m.log, shown);
    }
  }

  lemma {:induction false} RepliedRecalls(cfg: Config, m: Machine, calls: seq<ToolName>)
    requires Ahead(cfg, m, calls)
    ensures Recalls(cfg, m.With(Ticked(m.s)).Note(Replied(calls)))
  {
    OncePasses(m.s.once, m.log, Replied(calls));
    ShownRecalls(cfg, m.s.research, m.log, Replied(calls));
  }

  lemma {:induction false} AnsweredRecalls(cfg: Config, m: Machine, r: Reply)
    requires r.Answer? && Recalls(cfg, m)
    ensures Recalls(cfg, Answered(m, r))
  {
    var asked := m.With(Enqueued(m.s, r.calls)).Remember(r.thinking);
    assert Ahead(cfg, asked, r.calls);
    OutputRecalls(cfg, asked, r.text, r.calls);
    RepliedRecalls(cfg, OnOutput(asked, r.text), r.calls);
  }

  lemma {:induction false} TurnsRetried(r: Research, l: Log)
    requires RecallsTurns(r, l)
    ensures RecallsTurns(Overflowed(r), Then(l, Retried))
  {
  }

  lemma {:induction false} RetriedRecalls(cfg: Config, m: Machine)
    requires Recalls(cfg, m)
    ensures Recalls(cfg, m.WithResearch(Overflowed(m.s.research)).Note(Retried))
  {
    OncePasses(m.s.once, m.log, Retried);
    TurnsRetried(m.s.research, m.log);
    NotedWork(m.s, m.log, [], Overflowed(m.s.research), 0);
  }

  /** A raise, or a change of the limit alone. */
  lemma {:induction false} StoppedRecalls(cfg: Config, m: Machine, limit: nat, cause: Cause)
    requires Recalls(cfg, m)
    ensures Recalls(cfg, m.With(m.s.(pace := m.s.pace.(limit := limit))).Go(Raised(cause)))
  {
  }

  lemma {:induction false} RaisedRecalls(cfg: Config, m: Machine, cause: Cause)
    requires Recalls(cfg, m)
    ensures Recalls(cfg, m.Go(Raised(cause)))
  {
  }

  lemma {:induction false} CalledOnRecalls(cfg: Config, m: Machine, x: Input)
    requires Recalls(cfg, m)
    requires Extended(m.s.pace, m.s.errors.count).iterations < Extended(m.s.pace, m.s.errors.count).limit
    ensures Recalls(cfg, HeadStep(cfg, m, x))
  {
    var c := Calling(cfg, m, x);
    CallingRecalls(cfg, m, x);
    RaisedRecalls(cfg, c, LlmFailure);
    match x.reply
    case Answer(_, _, _, _, _) => AnsweredRecalls(cfg, c, x.reply);
    case Overflow => RetriedRecalls(cfg, c);
    case Failure =>
  }

  lemma {:induction false} HeadRecalls(cfg: Config, m: Machine, x: Input)
    requires Recalls(cfg, m)
    ensures Recalls(cfg, HeadStep(cfg, m, x))
  {
    var pace := Extended(m.s.pace, m.s.errors.count);
    if pace.iterations >= pace.limit {
      StoppedRecalls(cfg, m, pace.limit, LimitReached);
    } else {
      CalledOnRecalls(cfg, m, x);
    }
  }

  lemma {:induction false} RoomIsExtended(cfg: Config, m: Machine)
    requires Recalls(cfg, m) && BreakerExact(m)
    ensures Room(StoryOf(m)) == Extended(m.s.pace, m.s.errors.count).limit
  {
  }

  lemma {:induction false} OutputIsHeard(cfg: Config, m: Machine, t: Text, early: seq<ToolName>)
    requires Ahead(cfg, m, early)
    ensures StoryOf(OnOutput(m, t)) == Listen(StoryOf(m), t, m.s.research.usingFast)
  {
  }

  lemma {:induction false} AnswerIsTold(cfg: Config, m: Machine, r: Reply)
    requires r.Answer? && Recalls(cfg, m)
    ensures StoryOf(Answered(m, r)) == TakeIn(StoryOf(m), r, m.s.research.usingFast)
  {
    var asked := m.With(Enqueued(m.s, r.calls)).Remember(r.thinking);
    assert StoryOf(asked) == StoryOf(m).Hear(r.thinking);
    assert Ahead(cfg, asked, r.calls);
    OutputIsHeard(cfg, asked, r.text, r.calls);
    var heard := OnOutput(asked, r.text);
    var counted := heard.With(Ticked(heard.s)).Note(Replied(r.calls)).Remember(r.added);
    assert StoryOf(counted) == StoryOf(heard).Tell(Replied(r.calls)).Hear(r.added);
    OutputCourse(asked, r.text);
  }

  lemma {:induction false} CallIsTold(cfg: Config, m: Machine, x: Input)
    requires m.pc == Head && Recalls(cfg, m) && BreakerExact(m)
    ensures var fast := FastDue(cfg, m.log, x.contextChars); var c := Calling(cfg, m, x);
      && c.s.research.usingFast == fast
      && StoryOf(c) == StoryOf(m).(limit := Room(StoryOf(m))).Tell(Called(if fast then Fast else Primary))
  {
    RoomIsExtended(cfg, m);
    ChoiceIsDue(cfg, m, x.contextChars);
  }

  lemma {:induction false} ReplyTurn(cfg: Config, t: Story, x: Input, called: Story, fast: bool)
    requires Replies(t.log) < Room(t) && x.reply.Answer? && fast == FastDue(cfg, t.log, x.contextChars)
    requires called == t.(limit := Room(t)).Tell(Called(if fast then Fast else Primary))
    ensures HeadTurn(cfg, t, x) == TakeIn(called, x.reply, fast)
  {
  }

  lemma {:induction false} ReplyIsTold(cfg: Config, m: Machine, x: Input)
    requires m.pc == Head && Recalls(cfg, m) && BreakerExact(m) && Replies(m.log) < Room(StoryOf(m))
    requires x.reply.Answer?
    ensures StoryOf(HeadStep(cfg, m, x)) == HeadTurn(cfg, StoryOf(m), x)
  {
    var c := Calling(cfg, m, x);
    RoomIsExtended(cfg, m);
    CallIsTold(cfg, m, x);
    CallingRecalls(cfg, m, x);
    AnswerIsTold(cfg, c, x.reply);
    ReplyTurn(cfg, StoryOf(m), x, StoryOf(c), c.s.research.usingFast);
    HeadAnswers(cfg, m, x);
  }

  lemma {:induction false} HeadAnswers(cfg: Config, m: Machine, x: Input)
    requires x.reply.Answer?
    requires Extended(m.s.pace, m.s.errors.count).iterations < Extended(m.s.pace, m.s.errors.count).limit
    ensures HeadStep(cfg, m, x) == Answered(Calling(cfg, m, x), x.reply)
  {
  }

  lemma {:induction false} HeadIsTold(cfg: Config, m: Machine, x: Input)
    requires m.pc == Head && Recalls(cfg, m) && BreakerExact(m)
    ensures StoryOf(HeadStep(cfg, m, x)) == HeadTurn(cfg, StoryOf(m), x)
  {
    RoomIsExtended(cfg, m);
    if Replies(m.log) < Room(StoryOf(m)) {
      if x.reply.Answer? { ReplyIsTold(cfg, m, x); } else { CallIsTold(cfg, m, x); }
    }
  }

  // ---- Tools were called ----

  lemma {:induction false} ResearchIsCounted(a: seq<ToolName>, b: seq<ToolName>)
    ensures ResearchCalls(a + b) == ResearchCalls(a) + ResearchCalls(b)
    decreases |a|
  {
    if a == [] {
      assert a + b == b;
    } else {
      FirstThenRest(a, b);
      ResearchIsCounted(a[1..], b);
    }
  }

  lemma {:induction false} CountedEitherWay(names: seq<ToolName>)
    ensures ResearchCount(names) == ResearchCalls(names)
    decreases |names|
  {
    if names == [] {
    } else {
      var init, last := names[..|names| - 1], names[|names| - 1];
      CountedEitherWay(init);
      assert names == init + [last] && [last][1..] == [];
      ResearchIsCounted(init, [last]);
    }
  }

  lemma {:induction false} GateTurns(r: Research, l: Log, names: seq<ToolName>, kind: BatchKind)
    requires RecallsTurns(r, l)
    ensures var named := r.(lastTools := names);
      RecallsTurns(if kind == Broken then named else QualityGate(named, kind == Erred), Then(l, Batch(kind, names)))
  {
  }

  lemma {:induction false} GateRest(cfg: Config, r: Research, l: Log, r': Research, e: Event)
    requires RecallsNotes(r, l) && r.fastRun == ResearchRow(cfg, l) && e.Batch?
    requires r'.fastHash == r.fastHash && r'.repeats == r.repeats && r'.fastRun == r.fastRun
    ensures RecallsNotes(r', Then(l, e)) && r'.fastRun == ResearchRow(cfg, Then(l, e))
  {
  }

  lemma {:induction false} GateRecalls(cfg: Config, s: State, x: Input, l: Log)
    requires RecallsResearch(cfg, s.research, l)
    ensures RecallsResearch(cfg, Processed(s, x).research, Then(l, Batch(Kind(x), s.work.queue)))
  {
    GateTurns(s.research, l, s.work.queue, Kind(x));
    GateRest(cfg, s.research, l, Processed(s, x).research, Batch(Kind(x), s.work.queue));
  }

  lemma {:induction false} BatchedWork(s: State, x: Input, l: Log)
    requires RecallsWork(s, l, [])
    ensures RecallsWork(Processed(s, x), Then(l, Batch(Kind(x), s.work.queue)), [])
  {
    CountedEitherWay(s.work.queue);
  }

  lemma {:induction false} BatchedOnce(o: Once, l: Log, e: Event)
    requires RecallsOnce(o, l) && e.Batch?
    ensures RecallsOnce(o.(hadTools := true), Then(l, e))
  {
  }

  lemma {:induction false} BatchedRecalls(cfg: Config, m: Machine, x: Input)
    requires Recalls(cfg, m)
    ensures Recalls(cfg, Batched(m, x))
  {
    GateRecalls(cfg, m.s, x, m.log);
    BatchedWork(m.s, x, m.log);
    BatchedOnce(m.s.once, m.log, Batch(Kind(x), m.s.work.queue));
  }

  /** Sending a prompt and raising its flag, if it has one. */
  lemma {:induction false} SendRecalls(cfg: Config, m: Machine, m': Machine, p: Prompt)
    requires Recalls(cfg, m) && !HandsBack(Injected(p)) && m'.log == Then(m.log, Injected(p))
    requires m'.s.once == Flagged(m.s.once, p) && m'.s.research == m.s.research && m'.s.work == m.s.work
    requires m'.s.streamed == m.s.streamed && m'.s.pace.iterations == m.s.pace.iterations
    ensures Recalls(cfg, m')
  {
    OnceSends(m.s.once, m.log, p);
    RestSends(cfg, m.s, m.log, p);
  }

  lemma {:induction false} BreakerRecalls(cfg: Config, m: Machine)
    requires Recalls(cfg, m)
    ensures Recalls(cfg, Breaker(m))
  {
    if m.s.errors.count >= ERROR_STOP_THRESHOLD {
      SendRecalls(cfg, m, Breaker(m), Stop);
    } else if m.s.errors.count >= ERROR_HINT_THRESHOLD && !m.s.errors.hinted {
      SendRecalls(cfg, m, Breaker(m), Hint);
    }
  }

  lemma {:induction false} DelegateRecalls(cfg: Config, m: Machine)
    requires Recalls(cfg, m)
    ensures Recalls(cfg, Delegate(cfg, m))
  {
    if Delegate(cfg, m) != m { SendRecalls(cfg, m, Delegate(cfg, m), Executor); }
  }

  lemma {:induction false} GuardRecalls(cfg: Config, m: Machine)
    requires Recalls(cfg, m)
    ensures Recalls(cfg, GuardSearches(cfg, m))
  {
    if GuardSearches(cfg, m) != m { SendRecalls(cfg, m, GuardSearches(cfg, m), SearchGuard); }
  }

  lemma {:induction false} AfterToolsRecalls(cfg: Config, m: Machine, x: Input)
    requires Recalls(cfg, m)
    ensures Recalls(cfg, AfterTools(cfg, m, x))
  {
    var m1 := Batched(m, x);
    BatchedRecalls(cfg, m, x);
    BreakerRecalls(cfg, m1);
    DelegateRecalls(cfg, Breaker(m1));
    GuardRecalls(cfg, Delegate(cfg, Breaker(m1)));
  }

  /** The breaker after a batch, by the number of erring batches before it. */
  lemma {:induction false} BreakerWarns(b: Machine, erred: bool, n: nat)
    requires erred ==>
      b.s.errors.count == n % 5 + 1 && (b.s.errors.hinted <==> n % 5 >= 3) && ErrorCount(b.log) == (n + 1) % 5
    requires !erred ==> b.s.errors.count < 5 && (b.s.errors.count >= 3 ==> b.s.errors.hinted)
    ensures StoryOf(Breaker(b)) == Warn(StoryOf(b), erred)
  {
    var e := b.s.errors;
    if e.count >= 5 {
      InjectIsTold(b.WithErrors(e.(count := 0, hinted := false)), Stop);
    } else if e.count >= 3 && !e.hinted {
      InjectIsTold(b.WithErrors(e.(hinted := true)), Hint);
    }
  }

  lemma {:induction false} BatchErrors(m: Machine, x: Input)
    requires BreakerExact(m)
    ensures var b := Batched(m, x); var n := ErrorStreak(m.log).errors;
      if Kind(x) == Erred
      then b.s.errors.count == n % 5 + 1 && (b.s.errors.hinted <==> n % 5 >= 3) && ErrorCount(b.log) == (n + 1) % 5
      else b.s.errors.count < 5 && (b.s.errors.count >= 3 ==> b.s.errors.hinted)
  {
  }

  lemma {:induction false} WarningIsTold(m: Machine, x: Input)
    requires BreakerExact(m)
    ensures StoryOf(Breaker(Batched(m, x))) ==
      Warn(StoryOf(Batched(m, x)), x.batchEnding == Completed && x.batchError)
  {
    BatchErrors(m, x);
    BreakerWarns(Batched(m, x), Kind(x) == Erred, ErrorStreak(m.log).errors);
  }

  lemma {:induction false} BriefIsTold(cfg: Config, m: Machine)
    requires Recalls(cfg, m)
    ensures StoryOf(Delegate(cfg, m)) == Brief(cfg, StoryOf(m))
  {
  }

  lemma {:induction false} GuardIsTold(cfg: Config, m: Machine)
    requires Recalls(cfg, m)
    ensures StoryOf(GuardSearches(cfg, m)) == Guard(cfg, StoryOf(m))
  {
  }

  lemma {:induction false} RunIsTold(cfg: Config, m: Machine, x: Input)
    requires Recalls(cfg, m)
    ensures StoryOf(Batched(m, x)) == RunAll(StoryOf(m), x)
  {
    assert m.s.work.queue == Pending(m.log);
  }

  lemma {:induction false} BatchIsTold(cfg: Config, m: Machine, x: Input)
    requires Recalls(cfg, m) && BreakerExact(m)
    ensures StoryOf(AfterTools(cfg, m, x)) == BatchTurn(cfg, StoryOf(m), x)
  {
    var b := Batched(m, x);
    RunIsTold(cfg, m, x);
    if x.batchEnding == Faulted {
      assert AfterTools(cfg, m, x) == b.Go(Raised(Fault));
    } else {
      BatchedRecalls(cfg, m, x);
      WarningIsTold(m, x);
      BreakerRecalls(cfg, b);
      BriefIsTold(cfg, Breaker(b));
      DelegateRecalls(cfg, Breaker(b));
      GuardIsTold(cfg, Delegate(cfg, Breaker(b)));
      assert AfterTools(cfg, m, x) == GuardSearches(cfg, Delegate(cfg, Breaker(b))).Go(Head);
    }
  }

  // ---- The fast model finished ----

  /** What handing a round back leaves of it. */
  function Back(r: Research, p: Prompt): Research {
    Research([], r.usingFast, r.forcePrimary || p != Checkpoint, r.fastFailures, 0, 0, 0, r.cycles + Bit(p != HandOff))
  }

  lemma {:induction false} TurnsHandedBack(r: Research, l: Log, p: Prompt)
    requires RecallsTurns(r, l) && HandsBack(Injected(p))
    ensures RecallsTurns(Back(r, p), Then(l, Injected(p)))
  {
  }

  lemma {:induction false} RestHandedBack(cfg: Config, s: State, l: Log, r': Research, p: Prompt)
    requires RecallsWork(s, l, []) && HandsBack(Injected(p)) && r'.fastRun == r'.fastHash == r'.repeats == 0
    ensures RecallsWork(s.(research := r'), Then(l, Injected(p)), []) && RecallsNotes(r', Then(l, Injected(p)))
    ensures r'.fastRun == ResearchRow(cfg, Then(l, Injected(p)))
  {
  }

  lemma {:induction false} OnceHandedBack(o: Once, l: Log, p: Prompt)
    requires RecallsOnce(o, l) && HandsBack(Injected(p))
    ensures RecallsOnce(o, Then(l, Injected(p)))
  {
    OnceSends(o, l, p);
    assert Flagged(o, p) == o;
  }

  lemma {:induction false} HandedBack(cfg: Config, m: Machine, m': Machine, p: Prompt)
    requires Recalls(cfg, m) && HandsBack(Injected(p)) && m'.log == Then(m.log, Injected(p))
    requires m'.s == m.s.(research := Back(m.s.research, p))
    ensures Recalls(cfg, m')
  {
    OnceHandedBack(m.s.once, m.log, p);
    TurnsHandedBack(m.s.research, m.log, p);
    RestHandedBack(cfg, m.s, m.log, m'.s.research, p);
  }

  lemma {:induction false} ResearchRecalls(cfg: Config, m: Machine, x: Input)
    requires Recalls(cfg, m)
    ensures Recalls(cfg, AfterResearch(m, x))
  {
    HandedBack(cfg, m, AfterResearch(m, x),
      if x.described || x.mentioned then HandOff
      else if m.s.research.cycles + 1 >= MAX_RESEARCH_CYCLES then EnoughResearch
      else Checkpoint);
  }

  lemma {:induction false} ResearchIsTold(cfg: Config, m: Machine, x: Input)
    requires Recalls(cfg, m)
    ensures StoryOf(AfterResearch(m, x)) == ResearchTurn(StoryOf(m), x)
  {
  }

  // ---- Tools in stock ----

  ghost predicate Distinct(gs: seq<Group>) { forall i, j :: 0 <= i < j < |gs| ==> gs[i] != gs[j] }

  lemma {:induction false} OthersHold(pool: seq<Group>, gs: seq<Group>)
    ensures forall g :: g in Others(pool, gs) <==> g in pool && g !in gs
    decreases |pool|
  {
    if pool == [] {
    } else {
      OthersHold(pool[1..], gs);
      assert forall g :: g in pool <==> g == pool[0] || g in pool[1..];
    }
  }

  lemma {:induction false} OthersDistinct(pool: seq<Group>, gs: seq<Group>)
    requires Distinct(pool)
    ensures Distinct(Others(pool, gs))
    decreases |pool|
  {
    if pool == [] {
    } else {
      OthersDistinct(pool[1..], gs);
      OthersHold(pool[1..], gs);
    }
  }

  /** Only which of the pool's groups are taken out matters. */
  lemma {:induction false} OthersAgree(pool: seq<Group>, gs: seq<Group>, gs': seq<Group>)
    requires forall g <- pool :: g in gs <==> g in gs'
    ensures Others(pool, gs) == Others(pool, gs')
    decreases |pool|
  {
    if pool == [] {
    } else {
      OthersAgree(pool[1..], gs, gs');
    }
  }

  lemma {:induction false} OthersOfNone(pool: seq<Group>)
    ensures Others(pool, []) == pool
    decreases |pool|
  {
    if pool == [] {
    } else {
      OthersOfNone(pool[1..]);
    }
  }

  lemma {:induction false} NothingInFront(s: seq<Group>)
    ensures [] + s == s && s + [] == s
  {
  }

  lemma {:induction false} WithoutFirst(h: Group, s: seq<Group>, g: Group)
    ensures Without([h] + s, g) == if h == g then s else [h] + Without(s, g)
  {
    assert ([h] + s)[1..] == s;
  }

  lemma {:induction false} WithoutNone(s: seq<Group>, g: Group)
    requires g !in s
    ensures Without(s, g) == s
    decreases |s|
  {
    if s == [] {
    } else {
      WithoutNone(s[1..], g);
    }
  }

  lemma {:induction false} OneLess(pool: seq<Group>, gs: seq<Group>, g: Group)
    requires Distinct(pool)
    ensures Others(pool, gs + [g]) == Without(Others(pool, gs), g)
    decreases |pool|
  {
    if pool == [] {
    } else {
      var h, rest := pool[0], pool[1..];
      OneLess(rest, gs, g);
      OthersHold(rest, gs);
      assert h in gs + [g] <==> h in gs || h == g;
      if h !in gs {
        WithoutFirst(h, Others(rest, gs), g);
        if h == g { WithoutNone(Others(rest, gs), g); }
      }
      NothingInFront(Others(rest, gs));
      NothingInFront(Others(rest, gs + [g]));
    }
  }

  lemma {:induction false} WantedHolds(pool: seq<Group>, gs: seq<Group>)
    ensures forall g :: g in Wanted(pool, gs) <==> g in pool && g in gs
    decreases |gs|
  {
    if gs == [] {
    } else {
      var init, last := gs[..|gs| - 1], gs[|gs| - 1];
      WantedHolds(pool, init);
      assert forall g :: g in gs <==> g in init || g == last;
    }
  }

  /** Enabling the groups one by one takes those wanted out of stock, all at once. */
  lemma {:induction false} EnablingIsStocking(b: Toolbox, gs: seq<Group>)
    requires Distinct(b.pool)
    ensures EnableAll(b, gs) == Toolbox(Others(b.pool, gs), b.escalated + Wanted(b.pool, gs),
                                        b.enabled + (set g <- Wanted(b.pool, gs)), b.rounds)
    decreases |gs|
  {
    if gs == [] {
      OthersOfNone(b.pool);
    } else {
      var init, g := gs[..|gs| - 1], gs[|gs| - 1];
      EnablingIsStocking(b, init);
      OneLess(b.pool, init, g);
      OthersHold(b.pool, init);
      assert gs == init + [g];
      if g in EnableAll(b, init).pool { OneMoreWanted(b, init, g); } else { NoneMoreWanted(b, init, g); }
    }
  }

  lemma {:induction false} OneMoreWanted(b: Toolbox, init: seq<Group>, g: Group)
    requires g in b.pool && g !in init
    ensures Wanted(b.pool, init + [g]) == Wanted(b.pool, init) + [g]
    ensures b.escalated + Wanted(b.pool, init + [g]) == b.escalated + Wanted(b.pool, init) + [g]
    ensures (set h <- Wanted(b.pool, init + [g])) == (set h <- Wanted(b.pool, init)) + {g}
  {
    assert (init + [g])[..|init|] == init;
  }

  lemma {:induction false} NoneMoreWanted(b: Toolbox, init: seq<Group>, g: Group)
    requires Distinct(b.pool) && !(g in b.pool && g !in init)
    ensures Wanted(b.pool, init + [g]) == Wanted(b.pool, init)
    ensures Others(b.pool, init + [g]) == Others(b.pool, init)
  {
    assert (init + [g])[..|init|] == init;
    OneLess(b.pool, init, g);
    OthersHold(b.pool, init);
    WithoutNone(Others(b.pool, init), g);
  }

  lemma {:induction false} EnableIsStock(b: Toolbox, gs: seq<Group>)
    requires Distinct(b.pool)
    ensures EnableAll(b, gs) == Stock(b, Wanted(b.pool, gs))
  {
    EnablingIsStocking(b, gs);
    WantedHolds(b.pool, gs);
    OthersAgree(b.pool, gs, Wanted(b.pool, gs));
  }

  lemma {:induction false} NamesOfMore(cfg: Config, gs: seq<Group>, g: Group)
    ensures NamesOf(cfg, gs + [g]) == NamesOf(cfg, gs) + Names(cfg, g)
  {
    assert (gs + [g])[..|gs|] == gs;
  }

  lemma {:induction false} NamesAreWanted(cfg: Config, b: Toolbox, gs: seq<Group>)
    requires Distinct(b.pool)
    ensures NewNames(cfg, b, gs) == NamesOf(cfg, Wanted(b.pool, gs))
    decreases |gs|
  {
    if gs == [] {
    } else {
      var init, g := gs[..|gs| - 1], gs[|gs| - 1];
      NamesAreWanted(cfg, b, init);
      EnablingIsStocking(b, init);
      OthersHold(b.pool, init);
      assert gs == init + [g];
      if g in EnableAll(b, init).pool {
        OneMoreWanted(b, init, g);
        NamesOfMore(cfg, Wanted(b.pool, init), g);
      } else {
        NoneMoreWanted(b, init, g);
      }
    }
  }

  lemma {:induction false} AllWanted(pool: seq<Group>, n: nat)
    requires Distinct(pool) && n <= |pool|
    ensures Wanted(pool, pool[..n]) == pool[..n]
    decreases n
  {
    if n > 0 {
      AllWanted(pool, n - 1);
      assert pool[..n][..n - 1] == pool[..n - 1];
    }
  }

  lemma {:induction false} NothingStocked(b: Toolbox)
    ensures Stock(b, []) == b
  {
    OthersOfNone(b.pool);
    assert b.escalated + [] == b.escalated && b.enabled + (set g <- []) == b.enabled;
  }

  lemma {:induction false} NothingWanted(cfg: Config, b: Toolbox, x: Input)
    requires !Asks(cfg, b, x)
    ensures (if cfg.routed && x.spoke then Wanted(b.pool, x.requested) else []) == []
  {
    var wanted := Wanted(b.pool, x.requested);
    WantedHolds(b.pool, x.requested);
    FirstIsIn(wanted);
  }

  /** What the rest of the stock adds to a round. */
  lemma {:induction false} DrainIsTold(cfg: Config, b: Toolbox)
    requires Distinct(b.pool)
    ensures var rest := if b.rounds >= 2 then b.pool else [];
      && Drained(NextRound(b)) == NextRound(Stock(b, rest))
      && NewNames(cfg, NextRound(b), Drain(NextRound(b))) == NamesOf(cfg, rest)
  {
    var b2 := NextRound(b);
    NothingStocked(b);
    if b.rounds >= 2 {
      AllWanted(b.pool, |b.pool|);
      assert b.pool[..|b.pool|] == b.pool;
      EnableIsStock(b2, b.pool);
      NamesAreWanted(cfg, b2, b.pool);
    }
  }

  lemma {:induction false} NobodyComes(cfg: Config, b: Toolbox, x: Input)
    requires !Asks(cfg, b, x)
    ensures Escalated(cfg, b, x) == Enlarged(cfg, b, x) && Gained(cfg, b, x) == Newcomers(cfg, b, x)
  {
    NothingWanted(cfg, b, x);
    NothingStocked(b);
  }

  lemma {:induction false} EscalationIsTold(cfg: Config, b: Toolbox, x: Input)
    requires Distinct(b.pool)
    ensures Escalated(cfg, b, x) == Enlarged(cfg, b, x) && Gained(cfg, b, x) == Newcomers(cfg, b, x)
  {
    if Asks(cfg, b, x) {
      var wanted := Wanted(b.pool, x.requested);
      EnableIsStock(b, x.requested);
      NamesAreWanted(cfg, b, x.requested);
      if NamesOf(cfg, wanted) == [] {
        NothingStocked(Stock(b, wanted));
      } else {
        RoundIsTold(cfg, b, wanted);
      }
    } else {
      NobodyComes(cfg, b, x);
    }
  }

  /** A round that brings tools. */
  lemma {:induction false} RoundIsTold(cfg: Config, b: Toolbox, wanted: seq<Group>)
    requires Distinct(b.pool)
    ensures var enabled := Stock(b, wanted);
      var rest := if b.rounds >= 2 then Others(b.pool, wanted) else [];
      && Drained(NextRound(enabled)) == NextRound(Stock(enabled, rest))
      && NewNames(cfg, NextRound(enabled), Drain(NextRound(enabled))) == NamesOf(cfg, rest)
  {
    OthersDistinct(b.pool, wanted);
    DrainIsTold(cfg, Stock(b, wanted));
  }

  /** Both accounts of asking, once it is known what came. */
  function Received(m: Machine, names: seq<ToolName>, some: Prompt, none: Prompt): Machine {
    if names != [] then m.Note(Escalation(names)).Inject(some).Go(Head) else m.Inject(none).Go(Head)
  }

  function Told(t: Story, names: seq<ToolName>, some: Prompt, none: Prompt): Story {
    if names == [] then t.Send(none).Go(Head) else t.Tell(Escalation(names)).Send(some).Go(Head)
  }

  lemma {:induction false} ReceivedIsTold(m: Machine, names: seq<ToolName>, some: Prompt, none: Prompt)
    ensures StoryOf(Received(m, names, some, none)) == Told(StoryOf(m), names, some, none)
  {
    if names == [] {
      InjectIsTold(m, none);
      GoIsTold(m.Inject(none), Head);
    } else {
      NoteIsTold(m, Escalation(names));
      InjectIsTold(m.Note(Escalation(names)), some);
      GoIsTold(m.Note(Escalation(names)).Inject(some), Head);
    }
  }

  lemma {:induction false} EquippedIsTold(cfg: Config, m: Machine, x: Input)
    requires Distinct(m.s.toolbox.pool)
    ensures var names := Newcomers(cfg, m.s.toolbox, x);
      StoryOf(m.With(Equipped(cfg, m.s, x))) ==
        StoryOf(m).Equip(Enlarged(cfg, m.s.toolbox, x),
                         if names != [] && m.s.pace.limit < 15 then 20 else m.s.pace.limit)
  {
    EscalationIsTold(cfg, m.s.toolbox, x);
  }

  lemma {:induction false} AskIsTold(cfg: Config, m: Machine, x: Input, some: Prompt, none: Prompt)
    requires Distinct(m.s.toolbox.pool)
    ensures StoryOf(AskForTools(cfg, m, x, some, none)) == EscalateTurn(cfg, StoryOf(m), x, some, none)
  {
    var e, names := m.With(Equipped(cfg, m.s, x)), Gained(cfg, m.s.toolbox, x);
    EquippedIsTold(cfg, m, x);
    EscalationIsTold(cfg, m.s.toolbox, x);
    ReceivedIsTold(e, names, some, none);
    AskReceives(cfg, m, x, some, none, e, names);
    EscalateTells(cfg, StoryOf(m), x, some, none, StoryOf(e), names);
  }

  lemma {:induction false} AskOnceIsTold(cfg: Config, m: Machine, o: Once, x: Input, some: Prompt, none: Prompt)
    requires Distinct(m.s.toolbox.pool)
    ensures StoryOf(AskForTools(cfg, m.WithOnce(o), x, some, none)) == EscalateTurn(cfg, StoryOf(m), x, some, none)
  {
    AskIsTold(cfg, m.WithOnce(o), x, some, none);
    assert StoryOf(m.WithOnce(o)) == StoryOf(m);
  }

  lemma {:induction false} AskReceives(
    cfg: Config, m: Machine, x: Input, some: Prompt, none: Prompt, e: Machine, names: seq<ToolName>)
    requires e == m.With(Equipped(cfg, m.s, x)) && names == Gained(cfg, m.s.toolbox, x)
    ensures AskForTools(cfg, m, x, some, none) == Received(e, names, some, none)
  {
  }

  lemma {:induction false} EscalateTells(
    cfg: Config, t: Story, x: Input, some: Prompt, none: Prompt, e: Story, names: seq<ToolName>)
    requires names == Newcomers(cfg, t.toolbox, x)
    requires e == t.Equip(Enlarged(cfg, t.toolbox, x), if names != [] && t.limit < 15 then 20 else t.limit)
    ensures EscalateTurn(cfg, t, x, some, none) == Told(e, names, some, none)
  {
  }

  lemma {:induction false} EscalationRecalls(cfg: Config, m: Machine, names: seq<ToolName>)
    requires Recalls(cfg, m)
    ensures Recalls(cfg, m.Note(Escalation(names)))
  {
    OncePasses(m.s.once, m.log, Escalation(names));
    RestPasses(cfg, m.s, m.log, Escalation(names));
  }

  lemma {:induction false} AskRecalls(cfg: Config, m: Machine, o: Once, x: Input, some: Prompt, none: Prompt)
    requires Recalls(cfg, m) && !HandsBack(Injected(some)) && !HandsBack(Injected(none))
    requires o == Flagged(m.s.once, if Gained(cfg, m.s.toolbox, x) != [] then some else none)
    ensures Recalls(cfg, AskForTools(cfg, m.WithOnce(o), x, some, none))
  {
    var a := AskForTools(cfg, m.WithOnce(o), x, some, none);
    var names := Gained(cfg, m.s.toolbox, x);
    if names != [] {
      EscalationRecalls(cfg, m, names);
      SendRecalls(cfg, m.Note(Escalation(names)), a, some);
    } else {
      SendRecalls(cfg, m, a, none);
    }
  }

  // ---- The primary model answered without tools ----

  lemma {:induction false} OnceSkips(o: Once, l: Log)
    requires RecallsOnce(o, l)
    ensures RecallsOnce(o.(nudgeDone := true, nudgeSkipped := true), Then(l, Skipped))
    ensures RecallsOnce(Synthesised(o), Then(l, Settled))
  {
  }

  lemma {:induction false} SkippedRecalls(cfg: Config, m: Machine, o: Once)
    requires Recalls(cfg, m) && o == m.s.once.(nudgeDone := true, nudgeSkipped := true)
    ensures Recalls(cfg, m.WithOnce(o).Note(Skipped).Go(Head))
  {
    OnceSkips(m.s.once, m.log);
    RestPasses(cfg, m.s, m.log, Skipped);
  }

  lemma {:induction false} NudgeIsTold(cfg: Config, m: Machine, x: Input)
    requires Recalls(cfg, m) && Distinct(m.s.toolbox.pool)
    ensures Recalls(cfg, FirstNudge(cfg, m, x)) && StoryOf(FirstNudge(cfg, m, x)) == NudgeTurn(cfg, StoryOf(m), x)
  {
    var o := m.s.once.(nudgeDone := true);
    if x.hasCode || (cfg.estimatedSteps <= 3 && !cfg.requiresTools) {
      SkippedRecalls(cfg, m, o.(nudgeSkipped := true));
    } else {
      AskRecalls(cfg, m, o, x, NudgeWithTools, Nudge);
      AskOnceIsTold(cfg, m, o, x, NudgeWithTools, Nudge);
    }
  }

  lemma {:induction false} UnmarkedConcat(a: seq<Message>, b: seq<Message>)
    ensures Unmarked(a + b) == Unmarked(a) + Unmarked(b)
    decreases |a|
  {
    if a == [] {
      assert a + b == b;
    } else {
      FirstThenRest(a, b);
      UnmarkedConcat(a[1..], b);
    }
  }

  lemma {:induction false} StrippedIsUnmarked(ms: seq<Message>)
    ensures Stripped(ms) == Unmarked(ms)
    decreases |ms|
  {
    if ms == [] {
    } else {
      var init, last := ms[..|ms| - 1], ms[|ms| - 1];
      StrippedIsUnmarked(init);
      UnmarkedConcat(init, [last]);
      assert ms == init + [last] && [last][1..] == [];
    }
  }

  lemma {:induction false} EndIsTold(cfg: Config, m: Machine, x: Input)
    requires Recalls(cfg, m)
    ensures Recalls(cfg, Complete(m, x)) && StoryOf(Complete(m, x)) == EndTurn(StoryOf(m), x)
  {
    StrippedIsUnmarked(m.chat.memory + x.hooksMessages);
    assert Complete(m, x).s == m.s && Complete(m, x).log == m.log;
  }

  lemma {:induction false} SettledRecalls(cfg: Config, m: Machine)
    requires Recalls(cfg, m)
    ensures Recalls(cfg, SettledAnswer(m)) && StoryOf(SettledAnswer(m)) == StoryOf(m).Tell(Settled)
  {
    OnceSkips(m.s.once, m.log);
    RestPasses(cfg, m.s, m.log, Settled);
  }

  lemma {:induction false} ConsolidateIsTold(cfg: Config, m: Machine, x: Input)
    requires Recalls(cfg, m) && Distinct(m.s.toolbox.pool)
    ensures Recalls(cfg, Consolidate(cfg, m, x))
    ensures StoryOf(Consolidate(cfg, m, x)) == EscalateTurn(cfg, StoryOf(m), x, MoreTools, Synthesis)
  {
    if Gained(cfg, m.s.toolbox, x) != [] {
      assert m.WithOnce(m.s.once) == m;
      AskRecalls(cfg, m, m.s.once, x, MoreTools, Synthesis);
      AskIsTold(cfg, m, x, MoreTools, Synthesis);
    } else {
      AskRecalls(cfg, m, Synthesised(m.s.once), x, MoreTools, Synthesis);
      AskOnceIsTold(cfg, m, Synthesised(m.s.once), x, MoreTools, Synthesis);
    }
  }

  /** A prompt sent with its flag. */
  lemma {:induction false} PromptIsTold(cfg: Config, m: Machine, o: Once, p: Prompt)
    requires Recalls(cfg, m) && o == Flagged(m.s.once, p) && !HandsBack(Injected(p))
    ensures var m' := m.WithOnce(o).Inject(p).Go(Head);
      Recalls(cfg, m') && StoryOf(m') == StoryOf(m).Send(p).Go(Head)
  {
    var m' := m.WithOnce(o).Inject(p).Go(Head);
    SendRecalls(cfg, m, m', p);
    InjectIsTold(m.WithOnce(o), p);
    GoIsTold(m.WithOnce(o).Inject(p), Head);
    assert StoryOf(m.WithOnce(o)) == StoryOf(m);
  }

  /** The branches of the other account, by the same conditions. */
  lemma {:induction false} FinishBranches(cfg: Config, m: Machine, x: Input)
    requires Recalls(cfg, m) && BreakerExact(m)
    ensures var t := StoryOf(m); var o := m.s.once;
      FinishTurn(cfg, t, x) ==
        if m.s.errors.count > 0 && !o.postErrorDone then t.Send(PostError).Go(Head)
        else if !o.postDescribeDone && (x.described || x.mentioned) then t.Send(PostDescribe).Go(Head)
        else if m.s.streamed.chars > 200 then EndTurn(t.Tell(Settled), x)
        else EscalateTurn(cfg, t, x, MoreTools, Synthesis)
  {
  }

  lemma {:induction false} PostErrorIsTold(cfg: Config, m: Machine, x: Input)
    requires Recalls(cfg, m) && BreakerExact(m) && m.s.errors.count > 0 && !m.s.once.postErrorDone
    ensures Recalls(cfg, AfterToolWork(cfg, m, x))
    ensures StoryOf(AfterToolWork(cfg, m, x)) == FinishTurn(cfg, StoryOf(m), x)
  {
    var o := m.s.once.(postErrorDone := true);
    FinishBranches(cfg, m, x);
    PromptIsTold(cfg, m, o, PostError);
    assert AfterToolWork(cfg, m, x) == m.WithOnce(o).Inject(PostError).Go(Head);
  }

  lemma {:induction false} PostDescribeIsTold(cfg: Config, m: Machine, x: Input)
    requires Recalls(cfg, m) && BreakerExact(m) && !(m.s.errors.count > 0 && !m.s.once.postErrorDone)
    requires !m.s.once.postDescribeDone && (x.described || x.mentioned)
    ensures Recalls(cfg, AfterToolWork(cfg, m, x))
    ensures StoryOf(AfterToolWork(cfg, m, x)) == FinishTurn(cfg, StoryOf(m), x)
  {
    var o := m.s.once.(postDescribeDone := true);
    FinishBranches(cfg, m, x);
    PromptIsTold(cfg, m, o, PostDescribe);
    assert AfterToolWork(cfg, m, x) == m.WithOnce(o).Inject(PostDescribe).Go(Head);
  }

  lemma {:induction false} SettledIsTold(cfg: Config, m: Machine, x: Input)
    requires Recalls(cfg, m) && BreakerExact(m) && m.s.streamed.chars > 200
    requires !(m.s.errors.count > 0 && !m.s.once.postErrorDone)
    requires !(!m.s.once.postDescribeDone && (x.described || x.mentioned))
    ensures Recalls(cfg, AfterToolWork(cfg, m, x))
    ensures StoryOf(AfterToolWork(cfg, m, x)) == FinishTurn(cfg, StoryOf(m), x)
  {
    FinishBranches(cfg, m, x);
    SettledRecalls(cfg, m);
    EndIsTold(cfg, SettledAnswer(m), x);
    assert AfterToolWork(cfg, m, x) == Complete(SettledAnswer(m), x);
  }

  lemma {:induction false} LastResortIsTold(cfg: Config, m: Machine, x: Input)
    requires Recalls(cfg, m) && BreakerExact(m) && Distinct(m.s.toolbox.pool) && m.s.streamed.chars <= 200
    requires !(m.s.errors.count > 0 && !m.s.once.postErrorDone)
    requires !(!m.s.once.postDescribeDone && (x.described || x.mentioned))
    ensures Recalls(cfg, AfterToolWork(cfg, m, x))
    ensures StoryOf(AfterToolWork(cfg, m, x)) == FinishTurn(cfg, StoryOf(m), x)
  {
    FinishBranches(cfg, m, x);
    ConsolidateIsTold(cfg, m, x);
    assert AfterToolWork(cfg, m, x) == Consolidate(cfg, m, x);
  }

  lemma {:induction false} FinishIsTold(cfg: Config, m: Machine, x: Input)
    requires Recalls(cfg, m) && BreakerExact(m) && Distinct(m.s.toolbox.pool)
    ensures Recalls(cfg, AfterToolWork(cfg, m, x))
    ensures StoryOf(AfterToolWork(cfg, m, x)) == FinishTurn(cfg, StoryOf(m), x)
  {
    var o := m.s.once;
    if m.s.errors.count > 0 && !o.postErrorDone { PostErrorIsTold(cfg, m, x); }
    else if !o.postDescribeDone && (x.described || x.mentioned) { PostDescribeIsTold(cfg, m, x); }
    else if m.s.streamed.chars > 200 { SettledIsTold(cfg, m, x); }
    else { LastResortIsTold(cfg, m, x); }
  }

  // ---- Whole runs ----

  ghost predicate Mindful(cfg: Config, m: Machine) { Recalls(cfg, m) && Invariant(cfg, m) }

  lemma {:induction false} StockIsDistinct(cfg: Config, m: Machine)
    requires cfg.Valid() && Pooled(cfg, m.s.toolbox)
    ensures Distinct(m.s.toolbox.pool)
  {
    var pool := m.s.toolbox.pool;
    forall i, j | 0 <= i < j < |pool| ensures pool[i] != pool[j] {
      if pool[i] == pool[j] {
        assert multiset(pool)[pool[i]] <= multiset(cfg.pool)[pool[i]];
        AtMostOnce(cfg.pool, pool[i]);
        TwiceIn(pool, i, j);
      }
    }
  }

  lemma {:induction false} TwiceIn(s: seq<Group>, i: nat, j: nat)
    requires i < j < |s| && s[i] == s[j]
    ensures multiset(s)[s[i]] >= 2
  {
    assert s == s[..i + 1] + s[i + 1..];
    assert s[i] in s[..i + 1] && s[j] in s[i + 1..];
    assert multiset(s) == multiset(s[..i + 1]) + multiset(s[i + 1..]);
  }

  lemma {:induction false} BranchIsTold(cfg: Config, m: Machine, x: Input)
    requires cfg.Valid() && m.pc == Dispatch && Mindful(cfg, m)
    ensures Recalls(cfg, DispatchStep(cfg, m, x))
    ensures StoryOf(DispatchStep(cfg, m, x)) == BranchTurn(cfg, StoryOf(m), x)
  {
    var o := m.s.once;
    StockIsDistinct(cfg, m);
    if m.s.work.queue != [] {
      AfterToolsRecalls(cfg, m, x);
      BatchIsTold(cfg, m, x);
    } else if m.s.research.usingFast {
      ResearchRecalls(cfg, m, x);
      ResearchIsTold(cfg, m, x);
    } else if !o.hadTools && !o.nudgeDone && m.s.pace.iterations <= 2 {
      NudgeIsTold(cfg, m, x);
    } else if o.hadTools && !o.synthesisDone && m.s.research.cycles == 0 && cfg.requiresTools {
      FinishIsTold(cfg, m, x);
    } else {
      EndIsTold(cfg, m, x);
    }
  }

  lemma {:induction false} StepIsTold(cfg: Config, m: Machine, x: Input)
    requires cfg.Valid() && Mindful(cfg, m)
    ensures Mindful(cfg, Step(cfg, m, x)) && StoryOf(Step(cfg, m, x)) == Turn(cfg, StoryOf(m), x)
  {
    StepInvariant(cfg, m, x);
    match m.pc
    case Head => HeadRecalls(cfg, m, x); HeadIsTold(cfg, m, x);
    case Dispatch => BranchIsTold(cfg, m, x);
    case Done =>
    case Raised(_) =>
  }

  /** The loop with its counters and flags does what its history tells: for every configuration, initial memory and
      sequence of answers both accounts agree on every call, reply, batch, text and prompt, on memory, control, limit
      and tools; and the private fields are readings of the history. */
  lemma {:induction false} LoopFollowsHistory(cfg: Config, memory: seq<Message>, xs: seq<Input>)
    requires cfg.Valid()
    ensures var m := Run(cfg, Initial(cfg, memory), xs);
      Mindful(cfg, m) && StoryOf(m) == Tale(cfg, Opening(cfg, memory), xs)
    decreases |xs|
  {
    if xs == [] {
      InitialInvariant(cfg, memory);
    } else {
      LoopFollowsHistory(cfg, memory, xs[..|xs| - 1]);
      StepIsTold(cfg, Run(cfg, Initial(cfg, memory), xs[..|xs| - 1]), xs[|xs| - 1]);
    }
  }
}
