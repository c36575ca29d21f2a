/** Results about whole runs of the agent loop: for every configuration, every initial memory and every
    sequence of environment answers. */
module AgentTheorems {
  import opened AgentModel
  import opened AgentRuns

  ghost predicate Invariant(cfg: Config, m: Machine) {
    && Paced(cfg, m) && Chosen(cfg, m) && BreakerExact(m)
    && Frugal(cfg, m) && Pooled(cfg, m.s.toolbox) && Remembers(m)
    && ShowsPrimaryOnly(m.log)
    && (m.pc == Raised(LimitReached) ==> CutOff(m))
  }

  /** The run is stopped for its length only at the limit, and with an error pending or 200 iterations spent. */
  ghost predicate CutOff(m: Machine) {
    && m.s.pace.iterations == m.s.pace.limit
    && (m.s.errors.count > 0 || m.s.pace.limit >= ABSOLUTE_MAX_ITERATIONS)
  }

  lemma {:induction false} InitialInvariant(cfg: Config, memory: seq<Message>)
    requires cfg.Valid()
    ensures Invariant(cfg, Initial(cfg, memory))
  {
  }

  /** When exactly the iteration limit stops the run. */
  lemma {:induction false} LimitStops(cfg: Config, m: Machine, x: Input)
    requires m.pc == Head && Paced(cfg, m)
    ensures HeadStep(cfg, m, x).pc == Raised(LimitReached) <==> CutOff(m)
    ensures CutOff(m) ==> CutOff(HeadStep(cfg, m, x))
  {
  }

  lemma {:induction false} StepInvariant(cfg: Config, m: Machine, x: Input)
    requires cfg.Valid() && Invariant(cfg, m)
    ensures Invariant(cfg, Step(cfg, m, x))
  {
    StepCourse(cfg, m, x);
    StepBreaker(cfg, m, x);
    StepFrugal(cfg, m, x);
    StepVoice(cfg, m, x);
    match m.pc
    case Head => HeadRemembers(cfg, m, x); LimitStops(cfg, m, x);
    case Dispatch => DispatchRemembers(cfg, m, x); DispatchNeverCutsOff(cfg, m, x);
    case Done =>
    case Raised(_) =>
  }

  lemma {:induction false} DispatchNeverCutsOff(cfg: Config, m: Machine, x: Input)
    requires m.pc == Dispatch
    ensures DispatchStep(cfg, m, x).pc != Raised(LimitReached)
  {
  }

  lemma {:induction false} LastOfBoth(xs: seq<Input>, ys: seq<Input>)
    requires ys != []
    ensures var both := xs + ys;
      both != [] && both[|both| - 1] == ys[|ys| - 1] && both[..|both| - 1] == xs + ys[..|ys| - 1]
  {
  }

  lemma {:induction false} RunConcat(cfg: Config, m: Machine, xs: seq<Input>, ys: seq<Input>)
    ensures Run(cfg, m, xs + ys) == Run(cfg, Run(cfg, m, xs), ys)
    decreases |ys|
  {
    if ys == [] {
      assert xs + ys == xs;
    } else {
      LastOfBoth(xs, ys);
      RunConcat(cfg, m, xs, ys[..|ys| - 1]);
    }
  }

  lemma {:induction false} StepDrops(cfg: Config, m: Machine, x: Input)
    requires Paced(cfg, m) && !m.Ended()
    ensures var m' := Step(cfg, m, x); m'.Ended() || Weight(cfg, m') < Weight(cfg, m)
  {
    if m.pc == Head { HeadDrops(cfg, m, x); } else { DispatchDrops(cfg, m, x); }
  }

  /** What holds at one point of a run holds ever after, and the weight pays for every step. */
  lemma {:induction false} RunFrom(cfg: Config, m: Machine, xs: seq<Input>)
    requires cfg.Valid() && Invariant(cfg, m)
    ensures var m' := Run(cfg, m, xs);
      Invariant(cfg, m') && (m'.Ended() || Weight(cfg, m') + |xs| <= Weight(cfg, m))
  {
    if xs == [] {
    } else {
      var m1 := Run(cfg, m, xs[..|xs| - 1]);
      RunFrom(cfg, m, xs[..|xs| - 1]);
      StepInvariant(cfg, m1, xs[|xs| - 1]);
      if !m1.Ended() { StepDrops(cfg, m1, xs[|xs| - 1]); }
    }
  }

  lemma {:induction false} RunInvariant(cfg: Config, memory: seq<Message>, xs: seq<Input>)
    requires cfg.Valid()
    ensures Invariant(cfg, Run(cfg, Initial(cfg, memory), xs))
  {
    InitialInvariant(cfg, memory);
    RunFrom(cfg, Initial(cfg, memory), xs);
  }

  /** How control leaves a head and a branch: only an interruption enters an inner loop, only `break` leaves one. */
  lemma {:induction false} LoopNesting(cfg: Config, m: Machine, x: Input)
    ensures m.pc == Head ==> var h := HeadStep(cfg, m, x);
      && (h.pc == Dispatch ==> h.depth == m.depth)
      && (h.pc == Head ==> h.depth == m.depth || h.depth == m.depth + 1)
      && h.pc != Done
    ensures m.pc == Dispatch ==> var d := DispatchStep(cfg, m, x);
      && (d.pc == Head ==> d.depth == m.depth)
      && (d.pc == Dispatch ==> m.depth > 0 && d.depth == m.depth - 1)
      && (d.pc == Done ==> m.depth == 0)
  {
    if m.pc == Head && x.reply.Answer? { AnsweredCourse(Calling(cfg, m, x), x.reply); }
    if m.pc == Dispatch { BranchNesting(cfg, m, x); }
  }

  lemma {:induction false} BranchNesting(cfg: Config, m: Machine, x: Input)
    requires m.pc == Dispatch
    ensures var d := DispatchStep(cfg, m, x);
      && (d.pc == Head ==> d.depth == m.depth)
      && (d.pc == Dispatch ==> m.depth > 0 && d.depth == m.depth - 1)
      && (d.pc == Done ==> m.depth == 0)
  {
    if m.s.work.queue != [] {
      ToolsCourse(cfg, m, x);
    } else if !m.s.research.usingFast {
      TextNesting(cfg, m, x);
    }
  }

  lemma {:induction false} TextNesting(cfg: Config, m: Machine, x: Input)
    requires m.pc == Dispatch && m.s.work.queue == [] && !m.s.research.usingFast
    ensures var d := DispatchStep(cfg, m, x);
      && (d.pc == Head ==> d.depth == m.depth)
      && (d.pc == Dispatch ==> m.depth > 0 && d.depth == m.depth - 1)
      && (d.pc == Done ==> m.depth == 0)
  {
    var o := m.s.once;
    if !o.hadTools && !o.nudgeDone && m.s.pace.iterations <= 2 {
      AskCourse(cfg, m.WithOnce(o.(nudgeDone := true)), x, NudgeWithTools, Nudge);
    } else if o.hadTools && !o.synthesisDone && m.s.research.cycles == 0 && cfg.requiresTools {
      AskCourse(cfg, m, x, MoreTools, Synthesis);
      AskCourse(cfg, m.WithOnce(Synthesised(o)), x, MoreTools, Synthesis);
    }
  }

  /** Every run ends, interruptions and overflow retries included, after at most 4 * (cap + 1) steps; the
      growing limit stays at or below the cap, and at most cap + 1 LLM calls are made.  With an initial limit
      of at most 200 the cap is 200. */
  lemma {:induction false} EveryRunEnds(cfg: Config, memory: seq<Message>, xs: seq<Input>)
    requires cfg.Valid()
    ensures var m := Run(cfg, Initial(cfg, memory), xs);
      && m.s.pace.iterations <= m.s.pace.limit <= cfg.Cap()
      && CallsOf(m.log).made <= cfg.Cap() + 1
      && (|xs| > 4 * (cfg.Cap() + 1) ==> m.Ended())
  {
    InitialInvariant(cfg, memory);
    RunFrom(cfg, Initial(cfg, memory), xs);
  }

  /** Model alternation: the fast model never makes more than 8 calls in a row, at most 8 research cycles are closed,
      whatever is displayed is the text of a call to the primary model, and a run that ends by `break` ends on the
      primary model. */
  lemma {:induction false} FastModelIsContained(cfg: Config, memory: seq<Message>, xs: seq<Input>)
    requires cfg.Valid()
    ensures var m := Run(cfg, Initial(cfg, memory), xs);
      && CallsOf(m.log).longest <= MAX_CONSECUTIVE_8B_RESEARCH
      && PromptsOf(m.log).cycles <= MAX_RESEARCH_CYCLES
      && ShowsPrimaryOnly(m.log)
      && (m.pc == Done ==> CallsOf(m.log).last == Primary && m.s.work.queue == [] && m.depth == 0)
      && (!cfg.dual ==> CallsOf(m.log).last == Primary)
  {
    RunInvariant(cfg, memory, xs);
  }

  lemma {:induction false} ForcedStep(cfg: Config, m: Machine, x: Input)
    requires m.s.research.forcePrimary
    ensures var m' := Step(cfg, m, x);
      m'.s.research.forcePrimary && CallsOf(m'.log).fast == CallsOf(m.log).fast
  {
    match m.pc
    case Head =>
      assert !Choose(cfg, m.s, x.contextChars).usingFast;
      if x.reply.Answer? { AnsweredCourse(Calling(cfg, m, x), x.reply); }
    case Dispatch => DispatchKeeps(cfg, m, x);
    case Done =>
    case Raised(_) =>
  }

  /** Once the primary model is forced it stays forced, and no later call goes to the fast one. */
  lemma {:induction false} ForcedForGood(cfg: Config, m: Machine, xs: seq<Input>)
    requires m.s.research.forcePrimary
    ensures var m' := Run(cfg, m, xs);
      m'.s.research.forcePrimary && CallsOf(m'.log).fast == CallsOf(m.log).fast
  {
    if xs == [] {
    } else {
      ForcedForGood(cfg, m, xs[..|xs| - 1]);
      ForcedStep(cfg, Run(cfg, m, xs[..|xs| - 1]), xs[|xs| - 1]);
    }
  }

  /** Control prompts other than the error breaker's: at most 15 with two models and a tool pool, 12 without
      a pool, 7 and 4 with one model.  At the end of a run by `break`, memory holds exactly the unmarked
      messages that ever reached it, in their order of arrival. */
  lemma {:induction false} PromptsAreBoundedAndErased(cfg: Config, memory: seq<Message>, xs: seq<Input>)
    requires cfg.Valid()
    ensures var m := Run(cfg, Initial(cfg, memory), xs);
      && PromptsOf(m.log).others <= Allowance(cfg) <= 15
      && (m.pc == Done ==> m.chat.memory == Stripped(m.chat.arrived) && forall y <- m.chat.memory :: !y.Synthetic())
  {
    RunInvariant(cfg, memory, xs);
    var m := Run(cfg, Initial(cfg, memory), xs);
    BudgetIsNonNegative(cfg, m);
    StrippedIsPlain(m.chat.arrived);
  }

  lemma {:induction false} BudgetIsNonNegative(cfg: Config, m: Machine)
    requires Chosen(cfg, m) && Pooled(cfg, m.s.toolbox)
    ensures Budget(cfg, m.s) >= 0
  {
  }

  /** Error breaker: the count never rests above 4, the hint flag marks 3 and 4, and a streak of L erring
      batches has brought floor(L / 5) STOP prompts and floor(L / 5) + (1 if L mod 5 >= 3) hints. */
  lemma {:induction false} BreakerCounts(cfg: Config, memory: seq<Message>, xs: seq<Input>)
    requires cfg.Valid()
    ensures var m := Run(cfg, Initial(cfg, memory), xs);
      var k := ErrorStreak(m.log);
      && m.s.errors.count == k.errors % 5 && (m.s.errors.hinted <==> m.s.errors.count >= 3)
      && k.stops == k.errors / 5
      && k.hints == k.errors / 5 + (if k.errors % 5 >= 3 then 1 else 0)
  {
    RunInvariant(cfg, memory, xs);
  }

  /** Tool escalation: pool and escalated groups partition the initial pool, each group once; enabled is
      escalated; at most three rounds bring tools, and after the third the pool is empty. */
  lemma {:induction false} PoolIsConserved(cfg: Config, memory: seq<Message>, xs: seq<Input>)
    requires cfg.Valid()
    ensures var m := Run(cfg, Initial(cfg, memory), xs);
      var b := m.s.toolbox;
      && multiset(b.pool) + multiset(b.escalated) == multiset(cfg.pool)
      && (forall g <- cfg.pool :: (g in b.pool) != (g in b.escalated))
      && (forall g :: g in b.enabled <==> g in b.escalated)
      && PromptsOf(m.log).rounds == b.rounds <= 3 && (b.rounds == 3 ==> b.pool == [])
  {
    RunInvariant(cfg, memory, xs);
    var b := Run(cfg, Initial(cfg, memory), xs).s.toolbox;
    forall g <- cfg.pool ensures (g in b.pool) != (g in b.escalated) {
      AtMostOnce(cfg.pool, g);
      assert multiset(b.pool)[g] + multiset(b.escalated)[g] == multiset(cfg.pool)[g];
    }
  }

  /** No step takes a tool away. */
  lemma {:induction false} ToolsOnlyGrow(cfg: Config, memory: seq<Message>, xs: seq<Input>, k: nat)
    requires cfg.Valid() && k <= |xs|
    ensures Run(cfg, Initial(cfg, memory), xs[..k]).s.toolbox.enabled
      <= Run(cfg, Initial(cfg, memory), xs).s.toolbox.enabled
  {
    if k == |xs| {
      assert xs[..k] == xs;
    } else {
      var ys := xs[..|xs| - 1];
      assert ys[..k] == xs[..k];
      ToolsOnlyGrow(cfg, memory, ys, k);
      RunInvariant(cfg, memory, ys);
      StepFrugal(cfg, Run(cfg, Initial(cfg, memory), ys), xs[|xs| - 1]);
    }
  }

  /** Nothing is left to do but the completion hooks. */
  predicate Finishing(cfg: Config, s: State) {
    && s.work.queue == [] && !s.research.usingFast
    && !(!s.once.hadTools && !s.once.nudgeDone && s.pace.iterations <= 2)
    && !(s.once.hadTools && !s.once.synthesisDone && s.research.cycles == 0 && cfg.requiresTools)
  }

  lemma {:induction false} FinishingCompletes(cfg: Config, d: Machine, y: Input)
    requires d.pc == Dispatch && Finishing(cfg, d.s)
    ensures DispatchStep(cfg, d, y) == Complete(d, y)
  {
  }

  lemma {:induction false} CompleteKeepsState(m: Machine, x: Input)
    ensures Complete(m, x).s == m.s
  {
  }

  lemma {:induction false} ToolWorkFinishes(cfg: Config, m: Machine, x: Input)
    requires m.pc == Dispatch && m.s.work.queue == [] && !m.s.research.usingFast && m.s.once.hadTools
    requires AfterToolWork(cfg, m, x).pc == Dispatch
    ensures Finishing(cfg, AfterToolWork(cfg, m, x).s)
  {
    var o := m.s.once;
    CompleteKeepsState(SettledAnswer(m), x);
    AskCourse(cfg, m, x, MoreTools, Synthesis);
    AskCourse(cfg, m.WithOnce(Synthesised(o)), x, MoreTools, Synthesis);
  }

  lemma {:induction false} NudgeGoesOn(cfg: Config, m: Machine, x: Input)
    ensures FirstNudge(cfg, m, x).pc == Head
  {
    AskCourse(cfg, m.WithOnce(m.s.once.(nudgeDone := true)), x, NudgeWithTools, Nudge);
  }

  /** A branch hands back to a waiting loop only with nothing left to do but the completion hooks. */
  lemma {:induction false} HandsBackFinishing(cfg: Config, m: Machine, x: Input)
    requires m.pc == Dispatch && DispatchStep(cfg, m, x).pc == Dispatch
    ensures Finishing(cfg, DispatchStep(cfg, m, x).s)
  {
    var o := m.s.once;
    if m.s.work.queue != [] || m.s.research.usingFast {
    } else if !o.hadTools && !o.nudgeDone && m.s.pace.iterations <= 2 {
      NudgeGoesOn(cfg, m, x);
    } else if o.hadTools && !o.synthesisDone && m.s.research.cycles == 0 && cfg.requiresTools {
      ToolWorkFinishes(cfg, m, x);
    } else {
      CompleteKeepsState(m, x);
    }
  }

  /** A loop that resumes after an inner one broke off sends no further prompt: it runs the completion hooks again. */
  lemma {:induction false} ResumedLoopCompletes(cfg: Config, m: Machine, x: Input, y: Input)
    requires m.pc == Dispatch && DispatchStep(cfg, m, x).pc == Dispatch
    ensures var d := DispatchStep(cfg, m, x); DispatchStep(cfg, d, y) == Complete(d, y)
  {
    HandsBackFinishing(cfg, m, x);
    FinishingCompletes(cfg, DispatchStep(cfg, m, x), y);
  }

  /** A skipped nudge does not complete the run: the loop calls the LLM once more, with nothing new to say,
      unless the iteration limit stops it first. */
  lemma {:induction false} SkippedNudgeCallsAgain(cfg: Config, m: Machine, x: Input, y: Input)
    requires m.pc == Dispatch && m.s.work.queue == [] && !m.s.research.usingFast
    requires !m.s.once.hadTools && !m.s.once.nudgeDone && m.s.pace.iterations <= 2
    requires x.hasCode || (cfg.estimatedSteps <= 3 && !cfg.requiresTools)
    ensures var d := DispatchStep(cfg, m, x);
      && d.pc == Head && d.chat == m.chat
      && (!CutOff(d) && d.s.pace.iterations <= d.s.pace.limit
          ==> CallsOf(Step(cfg, d, y).log).made == CallsOf(m.log).made + 1)
  {
    var d := DispatchStep(cfg, m, x);
    if !CutOff(d) && d.s.pace.iterations <= d.s.pace.limit { OneMoreCall(cfg, d, y); }
    assert CallsOf(d.log) == CallsOf(m.log);
  }

  lemma {:induction false} OneMoreCall(cfg: Config, m: Machine, x: Input)
    requires m.pc == Head && !CutOff(m) && m.s.pace.iterations <= m.s.pace.limit
    ensures CallsOf(HeadStep(cfg, m, x).log).made == CallsOf(m.log).made + 1
  {
    assert CallsOf(Calling(cfg, m, x).log).made == CallsOf(m.log).made + 1;
    if x.reply.Answer? { AnsweredCourse(Calling(cfg, m, x), x.reply); }
  }
}
