/** The orchestrator as an object: the loop of `_process_messages` and the methods it calls, each proved to do
    what the corresponding function of AgentModel says.  `env` answers for everything outside the program;
    `clock` is the position of the next answer. */
module DualModel {
  import opened AgentModel
  import opened AgentRuns
  import opened AgentTheorems
  import AgentHistory
  import AgentRecall
  import AgentConservation

  class DualModelOrchestrator {
    const cfg: Config
    const env: nat -> Input
    var clock: nat

    var pace: Pace
    var research: Research
    var errors: Errors
    var once: Once
    var streamed: Streamed
    var work: Work
    var toolbox: Toolbox
    var memory: seq<Message>

    /** Where control is, and how many loops wait for an inner one; a raise is a value of `pc`. */
    var pc: Pc
    var depth: nat

    ghost var arrived: seq<Message>
    ghost var log: Log

    ghost function StateView(): State
      reads `pace, `research, `errors, `once, `streamed, `work, `toolbox
    {
      State(pace, research, errors, once, streamed, work, toolbox)
    }

    ghost function View(): Machine
      reads `pace, `research, `errors, `once, `streamed, `work, `toolbox, `memory, `arrived, `depth, `pc, `log
    {
      Machine(StateView(), Chat(memory, arrived), depth, pc, log)
    }

    constructor (cfg: Config, messages: seq<Message>, env: nat -> Input)
      ensures View() == Initial(cfg, messages) && this.cfg == cfg && this.env == env && clock == 0
    {
      this.cfg, this.env, clock := cfg, env, 0;
      pace := Pace(0, cfg.limit);
      research := Research([], false, false, 0, 0, 0, 0, 0);
      errors := Errors(false, 0, false);
      once := Once(false, false, false, false, false, false, false);
      streamed, work, toolbox := Streamed(0, 0), Work([], 0), Toolbox(cfg.pool, [], {}, 0);
      memory, arrived := messages, messages;
      depth, pc, log := 0, Head, Nothing;
    }

    // ---- Memory ----

    method AddMessages(ms: seq<Message>)
      modifies `memory, `arrived
      ensures View() == old(View()).Remember(ms)
    {
      memory, arrived := memory + ms, arrived + ms;
    }

    method InjectPrompt(p: Prompt)
      modifies `memory, `arrived, `log
      ensures View() == old(View()).Inject(p)
    {
      AddMessages([Control(p)]);
      log := Then(log, Injected(p));
    }

    method StripSyntheticMessages()
      modifies `memory
      ensures memory == Stripped(old(memory))
    {
      var kept := [];
      for i := 0 to |memory|
        invariant kept == Stripped(memory[..i])
      {
        assert memory[..i + 1][..i] == memory[..i];
        if !memory[i].Synthetic() { kept := kept + [memory[i]]; }
      }
      assert memory[..|memory|] == memory;
      memory := kept;
    }

    // ---- Head of the loop ----

    method ExtendLimit()
      modifies `pace
      ensures pace == Extended(old(pace), errors.count)
      ensures pace.limit != old(pace).limit ==> pace.limit == old(pace).limit + 10 || pace.limit == 200
      ensures pace.iterations == old(pace).iterations
      ensures old(pace).limit <= pace.limit <= if old(pace).limit > 200 then old(pace).limit else 200
      ensures pace.limit != old(pace).limit ==> errors.count == 0 && old(pace).iterations + 2 >= old(pace).limit
      ensures errors.count == 0 && old(pace).iterations == old(pace).limit < 200 ==> pace.iterations < pace.limit
    {
      if pace.iterations + 2 >= pace.limit && errors.count == 0 && pace.limit < ABSOLUTE_MAX_ITERATIONS {
        pace := pace.(limit := Min(pace.limit + PROGRESS_EXTENSION_CHUNK, ABSOLUTE_MAX_ITERATIONS));
      }
    }

    method ShouldUseFastModel(contextChars: nat) returns (fast: bool)
      modifies `research
      ensures research.(usingFast := fast) == Choose(cfg, old(StateView()), contextChars)
    {
      if !cfg.dual || research.forcePrimary || pace.iterations == 0 { return false; }
      if once.synthesisDone && research.cycles == 0 { return false; }
      if research.lastTools != [] {
        if AllResearch(research.lastTools) {
          if research.repeats >= STALL_REPEAT_THRESHOLD {
            research := research.(fastRun := 0);
            return false;
          }
          research := research.(fastRun := research.fastRun + 1);
          if research.fastRun > MAX_CONSECUTIVE_8B_RESEARCH {
            research := research.(fastRun := 0);
            return false;
          }
          if contextChars / 3 > FAST_MAX_INPUT { return false; }
          return true;
        }
      }
      research := research.(fastRun := 0);
      return false;
    }

    method GetLlmParams(contextChars: nat)
      modifies `research, `log
      ensures research == Choose(cfg, old(StateView()), contextChars)
      ensures log == Then(old(log), Called(Speaker(research)))
    {
      var fast := ShouldUseFastModel(contextChars);
      research := research.(usingFast := fast);
      log := Then(log, Called(Speaker(research)));
    }

    /** Research text is kept for the primary model, and compared with the one before it. */
    method KeepFastText(t: Text)
      modifies `memory, `arrived, `research, `log
      ensures View() ==
        old(View()).WithResearch(Compared(old(research), t.hash))
          .Remember([Plain(t.content, false)]).Note(Noted(t.hash))
    {
      AddMessages([Plain(t.content, false)]);
      log := Then(log, Noted(t.hash));
      if t.hash == research.fastHash {
        research := research.(repeats := research.repeats + 1);
      } else {
        research := research.(repeats := 0, fastHash := t.hash);
      }
    }

    /** The result says whether the text is handed on for display. */
    method OnLlmOutput(t: Text) returns (shown: bool)
      modifies `memory, `arrived, `research, `streamed, `log
      ensures View() == OnOutput(old(View()), t)
      ensures shown ==> !old(research).usingFast
      ensures shown ==> log == Then(old(log), Shown(Primary, t.headHash, t.length))
      ensures !shown ==> log == if research.usingFast && t.length > 0 then Then(old(log), Noted(t.hash)) else old(log)
    {
      shown := false;
      if research.usingFast {
        if t.length > 0 { KeepFastText(t); }
      } else if t.length > 0 {
        if !(streamed.hash != 0 && t.headHash == streamed.hash && t.length > 100) {
          streamed := Streamed(t.headHash, streamed.chars + t.length);
          log := Then(log, Shown(Speaker(research), t.headHash, t.length));
          shown := true;
        }
      }
    }

    /** A reply is queued, kept and counted; an interruption or an error may then leave. */
    method TakeReply(x: Input)
      requires x.reply.Answer?
      modifies `memory, `arrived, `research, `streamed, `log, `work, `pace, `depth, `pc
      ensures View() == Answered(old(View()), x.reply)
    {
      work := work.(queue := work.queue + x.reply.calls);
      assert StateView() == Enqueued(old(StateView()), x.reply.calls);
      AddMessages(x.reply.thinking);
      var _ := OnLlmOutput(x.reply.text);
      ghost var heard := View();
      pace := pace.(iterations := pace.iterations + 1);
      log := Then(log, Replied(x.reply.calls));
      assert StateView() == Ticked(heard.s);
      AddMessages(x.reply.added);
      LeaveReply(x.reply.ending);
    }

    method LeaveReply(ending: Ending)
      modifies `depth, `pc
      ensures View() == Finish(old(View()), ending)
    {
      match ending
      case Completed => pc := Dispatch;
      case Interrupted => depth, pc := depth + 1, Head;
      case Faulted => pc := Raised(Fault);
    }

    /** One pass through the head of the loop. */
    method CallModel(x: Input)
      requires pc == Head
      modifies `memory, `arrived, `research, `streamed, `log, `work, `pace, `depth, `pc
      ensures View() == HeadStep(cfg, old(View()), x)
    {
      ExtendLimit();
      assert pace == Extended(old(pace), old(errors).count);
      if pace.iterations >= pace.limit {
        pc := Raised(LimitReached);
        return;
      }
      GetLlmParams(x.contextChars);
      assert View() == Calling(cfg, old(View()), x);
      match x.reply
      case Overflow =>
        if research.usingFast {
          research := research.(forcePrimary := true, lastTools := []);
          log := Then(log, Retried);
        } else {
          pc := Raised(LlmFailure);
        }
      case Failure => pc := Raised(LlmFailure);
      case Answer(_, _, _, _, _) => TakeReply(x);
    }

    // ---- Branch 1: tools were called ----

    method UpdateQualityGate()
      modifies `research
      ensures research == QualityGate(old(research), errors.inQueue)
      ensures research.forcePrimary <==> old(research).forcePrimary || research.fastFailures >= 3
      ensures research.fastFailures ==
        if old(research).usingFast && errors.inQueue then old(research).fastFailures + 1 else 0
    {
      if !research.usingFast {
        research := research.(fastFailures := 0);
      } else if errors.inQueue {
        research := research.(fastFailures := research.fastFailures + 1);
        if research.fastFailures >= MAX_FAST_CONSECUTIVE_FAILURES { research := research.(forcePrimary := true); }
      } else {
        research := research.(fastFailures := 0);
      }
    }

    method CountResearchTools(names: seq<ToolName>) returns (n: nat)
      ensures n == ResearchCount(names)
    {
      n := 0;
      for i := 0 to |names|
        invariant n == ResearchCount(names[..i])
      {
        assert names[..i + 1][..i] == names[..i];
        if names[i] in RESEARCH_TOOLS { n := n + 1; }
      }
      assert names[..|names|] == names;
    }

    /** What a batch that ran to its end does to the error counters. */
    method SettleCounters()
      modifies `errors, `research
      ensures errors == Recount(old(errors), old(errors).inQueue)
      ensures research == QualityGate(old(research), old(errors).inQueue)
    {
      if errors.inQueue {
        errors := errors.(count := errors.count + 1);
      } else {
        errors := errors.(count := 0, hinted := false);
      }
      UpdateQualityGate();
    }

    /** Processes and empties the queue; the counters move only when processing was not cut short. */
    method ProcessToolUseQueue(x: Input)
      modifies `research, `errors, `once, `streamed, `work, `memory, `arrived, `log
      ensures View() == Batched(old(View()), x)
    {
      research := research.(lastTools := work.queue);
      once := once.(hadTools := true);
      streamed := Streamed(0, 0);
      AddMessages(x.batchMessages);
      errors := errors.(inQueue := x.batchError);
      ghost var s := StateView();
      var searches := CountResearchTools(research.lastTools);
      if x.batchEnding == Completed { SettleCounters(); }
      work := Work([], work.searches + searches);
      assert research == if x.batchEnding == Completed then QualityGate(s.research, x.batchError) else s.research;
      assert StateView() == Processed(old(StateView()), x);
      log := Then(log, Batch(Kind(x), research.lastTools));
    }

    method BreakErrorLoop()
      modifies `errors, `memory, `arrived, `log
      ensures View() == Breaker(old(View()))
    {
      if errors.count >= ERROR_STOP_THRESHOLD {
        InjectPrompt(Stop);
        errors := errors.(count := 0, hinted := false);
      } else if errors.count >= ERROR_HINT_THRESHOLD && !errors.hinted {
        InjectPrompt(Hint);
        errors := errors.(hinted := true);
      }
    }

    method InjectExecutor()
      modifies `once, `memory, `arrived, `log
      ensures View() == Delegate(cfg, old(View()))
    {
      if !once.executorDone && cfg.dual && research.lastTools != [] && AllResearch(research.lastTools) {
        InjectPrompt(Executor);
        once := once.(executorDone := true);
      }
    }

    method GuardSearchLoop()
      modifies `once, `memory, `arrived, `log
      ensures View() == GuardSearches(cfg, old(View()))
    {
      if !cfg.dual && !cfg.requiresTools && work.searches >= 3 && |research.lastTools| == 1
         && research.lastTools[0] == "web_search" && pace.iterations >= 2 && !once.synthesisDone
      {
        assert research.lastTools == ["web_search"];
        InjectPrompt(SearchGuard);
        once := once.(synthesisDone := true);
      }
    }

    method RunTools(x: Input)
      modifies `research, `errors, `once, `streamed, `work, `memory, `arrived, `log, `pc
      ensures View() == AfterTools(cfg, old(View()), x)
    {
      ProcessToolUseQueue(x);
      if x.batchEnding == Faulted {
        pc := Raised(Fault);
      } else {
        BreakErrorLoop();
        InjectExecutor();
        GuardSearchLoop();
        pc := Head;
      }
    }

    // ---- Branch 2: the fast model finished ----

    method CloseResearch(x: Input)
      modifies `research, `memory, `arrived, `log, `pc
      ensures View() == AfterResearch(old(View()), x)
    {
      research := research.(fastRun := 0, lastTools := [], repeats := 0, fastHash := 0);
      pc := Head;
      if x.described || x.mentioned {
        research := research.(forcePrimary := true);
        InjectPrompt(HandOff);
      } else {
        research := research.(cycles := research.cycles + 1);
        if research.cycles >= MAX_RESEARCH_CYCLES {
          InjectPrompt(EnoughResearch);
          research := research.(forcePrimary := true);
        } else {
          InjectPrompt(Checkpoint);
        }
      }
    }

    // ---- Tool escalation ----

    method EnableOne(g: Group)
      modifies `toolbox
      ensures toolbox == EnableGroup(old(toolbox), g)
    {
      if g in toolbox.pool {
        toolbox := toolbox.(pool := Without(toolbox.pool, g));
        toolbox := toolbox.(enabled := toolbox.enabled + {g}, escalated := toolbox.escalated + [g]);
      }
    }

    /** Enables the groups one by one and collects the names of their tools. */
    method EnableEach(gs: seq<Group>) returns (names: seq<ToolName>)
      modifies `toolbox
      ensures toolbox == EnableAll(old(toolbox), gs)
      ensures names == NewNames(cfg, old(toolbox), gs)
    {
      names := [];
      for i := 0 to |gs|
        invariant toolbox == EnableAll(old(toolbox), gs[..i])
        invariant names == NewNames(cfg, old(toolbox), gs[..i])
      {
        assert gs[..i + 1][..i] == gs[..i];
        if gs[i] in toolbox.pool { names := names + Names(cfg, gs[i]); }
        EnableOne(gs[i]);
      }
      assert gs[..|gs|] == gs;
    }

    /** From the third round on, everything that is left. */
    method DrainPool() returns (names: seq<ToolName>)
      modifies `toolbox
      ensures toolbox == Drained(old(toolbox)) && names == NewNames(cfg, old(toolbox), Drain(old(toolbox)))
    {
      names := [];
      if toolbox.rounds >= 3 { names := EnableEach(toolbox.pool); }
    }

    method SelectAndEscalate(x: Input) returns (names: seq<ToolName>)
      modifies `toolbox, `pace
      ensures StateView() == Equipped(cfg, old(StateView()), x)
      ensures names == Gained(cfg, old(toolbox), x)
    {
      if toolbox.pool == [] || !cfg.routed || !x.spoke || x.requested == [] { return []; }
      names := EnableEach(x.requested);
      if names != [] {
        toolbox := NextRound(toolbox);
        var more := DrainPool();
        names := names + more;
        if pace.limit < 15 { pace := pace.(limit := 20); }
      }
    }

    method AskTools(x: Input, some: Prompt, none: Prompt) returns (names: seq<ToolName>)
      modifies `toolbox, `pace, `memory, `arrived, `log, `pc
      ensures View() == AskForTools(cfg, old(View()), x, some, none)
      ensures names == Gained(cfg, old(toolbox), x)
    {
      names := SelectAndEscalate(x);
      assert View() == old(View()).With(Equipped(cfg, old(StateView()), x));
      if names != [] {
        log := Then(log, Escalation(names));
        InjectPrompt(some);
      } else {
        InjectPrompt(none);
      }
      pc := Head;
    }

    // ---- Branches 3 to 5: the primary model answered without tools ----

    method NudgeOnce(x: Input)
      modifies `once, `toolbox, `pace, `memory, `arrived, `log, `pc
      ensures View() == FirstNudge(cfg, old(View()), x)
    {
      once := once.(nudgeDone := true);
      if x.hasCode || (cfg.estimatedSteps <= 3 && !cfg.requiresTools) {
        once := once.(nudgeSkipped := true);
        log := Then(log, Skipped);
        pc := Head;
      } else {
        var _ := AskTools(x, NudgeWithTools, Nudge);
      }
    }

    method CompleteRun(x: Input)
      modifies `memory, `arrived, `depth, `pc
      ensures View() == Complete(old(View()), x)
    {
      AddMessages(x.hooksMessages);
      match x.hooksEnding
      case Interrupted => pc := Head;
      case Faulted => pc := Raised(Fault);
      case Completed =>
        StripSyntheticMessages();
        if depth == 0 { pc := Done; } else { depth, pc := depth - 1, Dispatch; }
    }

    /** With no new tools, the loop asks for the final text, once. */
    method AskForFinalText(x: Input)
      modifies `once, `toolbox, `pace, `memory, `arrived, `log, `pc
      ensures View() == Consolidate(cfg, old(View()), x)
    {
      var names := AskTools(x, MoreTools, Synthesis);
      if names == [] { once := once.(synthesisDone := true); }
    }

    method FinishToolWork(x: Input)
      modifies `once, `toolbox, `pace, `memory, `arrived, `log, `pc, `depth
      ensures View() == AfterToolWork(cfg, old(View()), x)
    {
      if errors.count > 0 && !once.postErrorDone {
        once := once.(postErrorDone := true);
        InjectPrompt(PostError);
        pc := Head;
      } else if !once.postDescribeDone && (x.described || x.mentioned) {
        once := once.(postDescribeDone := true);
        InjectPrompt(PostDescribe);
        pc := Head;
      } else if streamed.chars > 200 {
        once := once.(synthesisDone := true);
        log := Then(log, Settled);
        CompleteRun(x);
      } else {
        AskForFinalText(x);
      }
    }

    /** The branch taken after an LLM call. */
    method Branch(x: Input)
      modifies `research, `errors, `once, `streamed, `work, `toolbox, `pace, `memory, `arrived, `log, `pc, `depth
      ensures View() == DispatchStep(cfg, old(View()), x)
    {
      if work.queue != [] {
        RunTools(x);
      } else if research.usingFast {
        CloseResearch(x);
      } else if !once.hadTools && !once.nudgeDone && pace.iterations <= 2 {
        NudgeOnce(x);
      } else if once.hadTools && !once.synthesisDone && research.cycles == 0 && cfg.requiresTools {
        FinishToolWork(x);
      } else {
        CompleteRun(x);
      }
    }

    // ---- The loop ----

    ghost function Answers(from: nat, to: nat): seq<Input>
      requires from <= to
    {
      seq(to - from, i requires 0 <= i < to - from => env(from + i))
    }

    /** The machine now is the one a run over the answers from `from` on leads to. */
    ghost predicate RanFrom(start: Machine, from: nat)
      reads this
    {
      from <= clock && View() == Run(cfg, start, Answers(from, clock))
    }

    lemma {:induction false} Chain(start: Machine, from: nat, middle: Machine, at: nat)
      requires from <= at && middle == Run(cfg, start, Answers(from, at)) && RanFrom(middle, at)
      ensures RanFrom(start, from)
    {
      AnswersSplit(from, at, clock);
      RunConcat(cfg, start, Answers(from, at), Answers(at, clock));
    }

    lemma {:induction false} AnswersSplit(from: nat, at: nat, to: nat)
      requires from <= at <= to
      ensures Answers(from, to) == Answers(from, at) + Answers(at, to)
    {
    }

    lemma {:induction false} OneStep(m: Machine, x: Input)
      requires clock > 0 && x == env(clock - 1) && View() == Step(cfg, m, x)
      ensures RanFrom(m, clock - 1)
    {
      assert Answers(clock - 1, clock) == [x];
      assert [x][..0] == [];
      assert Run(cfg, m, []) == m;
    }

    method Next() returns (x: Input)
      modifies `clock
      ensures x == env(old(clock)) && clock == old(clock) + 1
    {
      x := env(clock);
      clock := clock + 1;
    }

    method HeadPass()
      requires cfg.Valid() && pc == Head && Invariant(cfg, View())
      modifies this
      ensures old(clock) < clock && RanFrom(old(View()), old(clock)) && Invariant(cfg, View())
      ensures pc.Raised? || Weight(cfg, View()) < old(Weight(cfg, View()))
      ensures
        || pc.Raised?
        || (depth == old(depth) && (pc == Head || pc == Dispatch))
        || (depth == old(depth) + 1 && pc == Head)
    {
      var x := Next();
      CallModel(x);
      OneStep(old(View()), x);
      StepInvariant(cfg, old(View()), x);
      StepDrops(cfg, old(View()), x);
      LoopNesting(cfg, old(View()), x);
    }

    method BranchPass()
      requires cfg.Valid() && pc == Dispatch && Invariant(cfg, View())
      modifies this
      ensures old(clock) < clock && RanFrom(old(View()), old(clock)) && Invariant(cfg, View())
      ensures pc.Raised? || pc == Done || Weight(cfg, View()) < old(Weight(cfg, View()))
      ensures pc.Raised? || Left(old(depth)) || (depth == old(depth) && pc == Head)
    {
      var x := Next();
      Branch(x);
      OneStep(old(View()), x);
      StepInvariant(cfg, old(View()), x);
      StepDrops(cfg, old(View()), x);
      LoopNesting(cfg, old(View()), x);
    }

    /** `break` of the loop entered at depth `d`: the waiting loop goes on, or the run is over. */
    ghost predicate Left(d: nat)
      reads `depth, `pc
    {
      if d == 0 then pc == Done else pc == Dispatch && depth == d - 1
    }

    /** Once around the loop entered at the present depth; the result says whether the loop is left, by `break`
        or because something was raised. */
    method OnePass() returns (leave: bool)
      requires cfg.Valid() && pc == Head && Invariant(cfg, View())
      modifies this
      ensures old(clock) < clock && RanFrom(old(View()), old(clock)) && Invariant(cfg, View())
      ensures leave ==> pc.Raised? || Left(old(depth))
      ensures !leave ==> pc == Head && depth == old(depth) && Weight(cfg, View()) < old(Weight(cfg, View()))
      decreases Weight(cfg, View()), 0
    {
      ghost var start, from := View(), clock;
      var level := depth;
      HeadPass();
      if pc.Raised? { return true; }
      if pc == Head && depth == level { return false; }  // the one overflow retry
      ghost var m, at := View(), clock;
      if pc == Head {
        ProcessMessages();  // the interruption is followed by a whole inner loop
        Chain(start, from, m, at);
        RunFrom(cfg, m, Answers(at, clock));
        if pc.Raised? { return true; }
        m, at := View(), clock;
      }
      BranchPass();
      Chain(start, from, m, at);
      leave := pc != Head;
    }

    /** `while True`, re-entered when an interruption is processed. */
    method ProcessMessages()
      requires cfg.Valid() && pc == Head && Invariant(cfg, View())
      modifies this
      ensures old(clock) < clock && RanFrom(old(View()), old(clock)) && Invariant(cfg, View())
      ensures pc.Raised? || Left(old(depth))
      decreases Weight(cfg, View()), 1
    {
      ghost var start, from := View(), clock;
      assert Answers(from, from) == [];
      while true
        invariant RanFrom(start, from) && Invariant(cfg, View())
        invariant pc == Head && depth == start.depth && Weight(cfg, View()) <= Weight(cfg, start)
        decreases Weight(cfg, View())
      {
        ghost var m, at := View(), clock;
        var leave := OnePass();
        Chain(start, from, m, at);
        if leave { return; }
      }
    }

    /** The entry point: a request is answered from the first iteration to the end of the run. */
    method Impl()
      requires cfg.Valid() && clock == 0 && View() == Initial(cfg, memory)
      modifies this
      ensures RanFrom(Initial(cfg, old(memory)), 0) && View().Ended()
      ensures pace.iterations <= pace.limit <= cfg.Cap() && CallsOf(log).made <= cfg.Cap() + 1
      ensures pc == Done ==>
        && !research.usingFast && CallsOf(log).last == Primary && work.queue == []
        && memory == Stripped(arrived)
      ensures pc == Raised(LimitReached) ==> CutOff(View())
      ensures AgentRecall.StoryOf(View()) ==
        AgentHistory.Tale(cfg, AgentHistory.Opening(cfg, old(memory)), Answers(0, clock))
      ensures AgentConservation.RunNames(log) + work.queue ==
        AgentConservation.Requested(cfg, Initial(cfg, old(memory)), Answers(0, clock))
    {
      InitialInvariant(cfg, memory);
      ProcessMessages();
      EveryRunEnds(cfg, old(memory), Answers(0, clock));
      AgentRecall.LoopFollowsHistory(cfg, old(memory), Answers(0, clock));
      AgentConservation.CallsAreRun(cfg, old(memory), Answers(0, clock));
    }
  }
}
