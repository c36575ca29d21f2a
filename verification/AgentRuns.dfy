/** What every run of the agent loop keeps, whatever the environment answers. */
module AgentRuns {
  import opened Common
  import opened AgentModel

  function Bit(b: bool): nat { if b then 1 else 0 }

  // ---- Readings of the log ----

  /** The LLM calls so far: how many, how many on the fast model, who made the latest, how many of the
      latest in a row were fast, and the longest such row. */
  datatype Calls = Calls(made: nat, fast: nat, last: Model, row: nat, longest: nat)

  function CallsOf(log: Log): Calls {
    match log
    case Nothing => Calls(0, 0, Primary, 0, 0)
    case Then(l, e) =>
      var k := CallsOf(l);
      if e == Called(Fast) then
        Calls(k.made + 1, k.fast + 1, Fast, k.row + 1, if k.row + 1 > k.longest then k.row + 1 else k.longest)
      else if e == Called(Primary) then Calls(k.made + 1, k.fast, Primary, 0, k.longest)
      else k
  }

  /** Prompts other than those of the error breaker, those that close a research cycle, and escalations. */
  datatype Prompts = Prompts(others: nat, cycles: nat, rounds: nat)

  function PromptsOf(log: Log): Prompts {
    match log
    case Nothing => Prompts(0, 0, 0)
    case Then(l, e) =>
      var k := PromptsOf(l);
      match e
      case Injected(p) =>
        if p == Stop || p == Hint then k
        else if p == Checkpoint || p == EnoughResearch then k.(others := k.others + 1, cycles := k.cycles + 1)
        else k.(others := k.others + 1)
      case Escalation(_) => k.(rounds := k.rounds + 1)
      case _ => k
  }

  /** Every text displayed came from the latest LLM call before it, and that call went to the primary model. */
  predicate ShowsPrimaryOnly(log: Log) {
    match log
    case Nothing => true
    case Then(l, e) =>
      ShowsPrimaryOnly(l) &&
      (e.Shown? ==> CallsOf(l).made > 0 && e.author == CallsOf(l).last && CallsOf(l).last == Primary)
  }

  /** Since the last clean tool batch: erring batches, and the error-breaker prompts.  Batches cut
      short by an interruption and answers without tools change nothing. */
  datatype Streak = Streak(errors: nat, stops: nat, hints: nat)

  function ErrorStreak(log: Log): Streak {
    match log
    case Nothing => Streak(0, 0, 0)
    case Then(l, e) =>
      if e.Batch? && e.kind == Clean then Streak(0, 0, 0)
      else
        var k := ErrorStreak(l);
        if e.Batch? && e.kind == Erred then k.(errors := k.errors + 1)
        else if e == Injected(Stop) then k.(stops := k.stops + 1)
        else if e == Injected(Hint) then k.(hints := k.hints + 1)
        else k
  }

  // ---- Error breaker ----

  /** The count and the hint flag are functions of the streak of erring batches, and so are the prompts sent. */
  ghost predicate BreakerExact(m: Machine) {
    var e := m.s.errors;
    var k := ErrorStreak(m.log);
    && e.count == k.errors % ERROR_STOP_THRESHOLD
    && (e.hinted <==> e.count >= ERROR_HINT_THRESHOLD)
    && k.stops == k.errors / ERROR_STOP_THRESHOLD
    && k.hints == k.stops + Bit(e.count >= ERROR_HINT_THRESHOLD)
  }

  ghost predicate SameBreaker(m: Machine, m': Machine) {
    m'.s.errors == m.s.errors && ErrorStreak(m'.log) == ErrorStreak(m.log)
  }

  lemma {:induction false} HeadKeepsBreaker(cfg: Config, m: Machine, x: Input)
    ensures SameBreaker(m, HeadStep(cfg, m, x))
  {
    var c := Calling(cfg, m, x);
    assert SameBreaker(m, c);
    if x.reply.Answer? { AnsweredKeepsBreaker(c, x.reply); }
  }

  lemma {:induction false} AnsweredKeepsBreaker(m: Machine, r: Reply)
    requires r.Answer?
    ensures SameBreaker(m, Answered(m, r))
  {
    OutputKeepsBreaker(m.With(Enqueued(m.s, r.calls)).Remember(r.thinking), r.text);
  }

  lemma {:induction false} OutputKeepsBreaker(m: Machine, t: Text)
    ensures SameBreaker(m, OnOutput(m, t))
  {
  }

  lemma {:induction false} AskKeepsBreaker(cfg: Config, m: Machine, x: Input, p: Prompt, q: Prompt)
    requires p != Stop && p != Hint && q != Stop && q != Hint
    ensures SameBreaker(m, AskForTools(cfg, m, x, p, q))
  {
    var m1 := m.With(Equipped(cfg, m.s, x));
    InjectKeepsBreaker(m1, q);
    var m2 := m1.Note(Escalation(Gained(cfg, m.s.toolbox, x)));
    assert SameBreaker(m, m2);
    InjectKeepsBreaker(m2, p);
  }

  lemma {:induction false} InjectKeepsBreaker(m: Machine, p: Prompt)
    requires p != Stop && p != Hint
    ensures SameBreaker(m, m.Inject(p).Go(Head))
  {
  }

  lemma {:induction false} ResearchKeepsBreaker(m: Machine, x: Input)
    ensures SameBreaker(m, AfterResearch(m, x))
  {
  }

  lemma {:induction false} CompleteKeepsBreaker(m: Machine, x: Input)
    ensures SameBreaker(m, Complete(m, x))
  {
  }

  lemma {:induction false} NudgeKeepsBreaker(cfg: Config, m: Machine, x: Input)
    ensures SameBreaker(m, FirstNudge(cfg, m, x))
  {
    AskKeepsBreaker(cfg, m.WithOnce(m.s.once.(nudgeDone := true)), x, NudgeWithTools, Nudge);
  }

  lemma {:induction false} ToolWorkKeepsBreaker(cfg: Config, m: Machine, x: Input)
    ensures SameBreaker(m, AfterToolWork(cfg, m, x))
  {
    CompleteKeepsBreaker(m.WithOnce(Synthesised(m.s.once)).Note(Settled), x);
    AskKeepsBreaker(cfg, m, x, MoreTools, Synthesis);
    AskKeepsBreaker(cfg, m.WithOnce(Synthesised(m.s.once)), x, MoreTools, Synthesis);
  }

  lemma {:induction false} TextKeepsBreaker(cfg: Config, m: Machine, x: Input)
    requires m.s.work.queue == []
    ensures SameBreaker(m, DispatchStep(cfg, m, x))
  {
    var o := m.s.once;
    if m.s.research.usingFast {
      ResearchKeepsBreaker(m, x);
    } else if !o.hadTools && !o.nudgeDone && m.s.pace.iterations <= 2 {
      NudgeKeepsBreaker(cfg, m, x);
    } else if o.hadTools && !o.synthesisDone && m.s.research.cycles == 0 && cfg.requiresTools {
      ToolWorkKeepsBreaker(cfg, m, x);
    } else {
      CompleteKeepsBreaker(m, x);
    }
  }

  /** One batch moves the streak and the count together; the breaker then restores their relation. */
  lemma {:induction false} BatchBreaker(m: Machine, x: Input)
    requires BreakerExact(m)
    ensures x.batchEnding == Faulted ==> BreakerExact(Batched(m, x))
    ensures BreakerExact(Breaker(Batched(m, x)))
  {
    var k := ErrorStreak(m.log);
    var b := Batched(m, x);
    if Kind(x) == Erred {
      assert ErrorStreak(b.log) == k.(errors := k.errors + 1) && b.s.errors.count == m.s.errors.count + 1;
    } else if Kind(x) == Broken {
      assert ErrorStreak(b.log) == k && b.s.errors.count == m.s.errors.count;
    }
  }

  lemma {:induction false} DelegateKeepsBreaker(cfg: Config, m: Machine)
    ensures SameBreaker(m, Delegate(cfg, m))
  {
  }

  lemma {:induction false} GuardKeepsBreaker(cfg: Config, m: Machine)
    ensures SameBreaker(m, GuardSearches(cfg, m))
  {
  }

  lemma {:induction false} ToolsBreaker(cfg: Config, m: Machine, x: Input)
    requires BreakerExact(m)
    ensures BreakerExact(AfterTools(cfg, m, x))
  {
    BatchBreaker(m, x);
    if x.batchEnding == Faulted {
      assert SameBreaker(Batched(m, x), AfterTools(cfg, m, x));
    } else {
      var m2 := Breaker(Batched(m, x));
      DelegateKeepsBreaker(cfg, m2);
      GuardKeepsBreaker(cfg, Delegate(cfg, m2));
      assert SameBreaker(m2, AfterTools(cfg, m, x));
    }
  }

  lemma {:induction false} StepBreaker(cfg: Config, m: Machine, x: Input)
    requires BreakerExact(m)
    ensures BreakerExact(Step(cfg, m, x))
  {
    match m.pc
    case Head => HeadKeepsBreaker(cfg, m, x);
    case Dispatch =>
      if m.s.work.queue == [] { TextKeepsBreaker(cfg, m, x); } else { ToolsBreaker(cfg, m, x); }
    case Done =>
    case Raised(_) =>
  }

  // ---- Iterations, calls and model choice ----

  ghost predicate Paced(cfg: Config, m: Machine) {
    var p := m.s.pace;
    var made := CallsOf(m.log).made;
    && p.iterations <= p.limit <= cfg.Cap()
    && m.depth <= p.iterations
    && made <= p.iterations + Bit(m.s.research.forcePrimary) + Bit(m.pc.Raised?)
    && made <= cfg.Cap() + 1
  }

  ghost predicate Chosen(cfg: Config, m: Machine) {
    var r := m.s.research;
    var k := CallsOf(m.log);
    && (r.usingFast <==> k.last == Fast)
    && (r.usingFast ==> cfg.dual)
    && (m.pc == Dispatch && r.usingFast ==> !r.forcePrimary && !(m.s.once.synthesisDone && r.cycles == 0))
    && (m.pc == Done ==> m.s.work.queue == [] && !r.usingFast && m.depth == 0)
    && r.fastRun <= MAX_CONSECUTIVE_8B_RESEARCH
    && k.longest <= MAX_CONSECUTIVE_8B_RESEARCH
    && (m.pc == Dispatch ==> k.row <= r.fastRun)
    && (m.pc == Head ==> k.row <= r.fastRun || r.lastTools == [])
    && r.cycles <= MAX_RESEARCH_CYCLES
    && (r.cycles == MAX_RESEARCH_CYCLES ==> r.forcePrimary)
    && (r.cycles > 0 ==> cfg.dual)
    && (r.fastFailures < MAX_FAST_CONSECUTIVE_FAILURES || r.forcePrimary)
  }

  // Parts of a machine that the two predicates read.
  ghost predicate SameCourse(m: Machine, m': Machine) {
    && m'.s.pace == m.s.pace && m'.s.research == m.s.research && m'.s.work == m.s.work
    && m'.depth == m.depth && CallsOf(m'.log) == CallsOf(m.log)
  }

  lemma {:induction false} OutputCourse(m: Machine, t: Text)
    ensures var h := OnOutput(m, t);
      && h.s.pace == m.s.pace && h.s.once == m.s.once && h.s.work == m.s.work && h.depth == m.depth
      && CallsOf(h.log) == CallsOf(m.log)
      && h.s.research.(fastHash := 0, repeats := 0) == m.s.research.(fastHash := 0, repeats := 0)
  {
  }

  lemma {:induction false} AnsweredCourse(m: Machine, r: Reply)
    requires r.Answer?
    ensures var a := Answered(m, r);
      && a.s.pace == m.s.pace.(iterations := m.s.pace.iterations + 1) && a.s.once == m.s.once
      && a.depth == m.depth + Bit(r.ending == Interrupted)
      && a.pc == (match r.ending case Completed => Dispatch case Interrupted => Head case Faulted => Raised(Fault))
      && CallsOf(a.log) == CallsOf(m.log)
      && a.s.research.(fastHash := 0, repeats := 0) == m.s.research.(fastHash := 0, repeats := 0)
  {
    OutputCourse(m.With(Enqueued(m.s, r.calls)).Remember(r.thinking), r.text);
  }

  lemma {:induction false} ToolsCourse(cfg: Config, m: Machine, x: Input)
    ensures var m1 := Batched(m, x); SameCourse(m1, GuardSearches(cfg, Delegate(cfg, Breaker(m1))))
  {
    var m2 := Breaker(Batched(m, x));
    assert SameCourse(Batched(m, x), m2);
    assert SameCourse(m2, Delegate(cfg, m2));
  }

  lemma {:induction false} AskCourse(cfg: Config, m: Machine, x: Input, p: Prompt, q: Prompt)
    ensures var a := AskForTools(cfg, m, x, p, q);
      && a.s.pace == Roomier(m.s.pace, Gained(cfg, m.s.toolbox, x) != [])
      && a.s.research == m.s.research && a.s.work == m.s.work
      && a.depth == m.depth && a.pc == Head && CallsOf(a.log) == CallsOf(m.log)
  {
  }

  lemma {:induction false} CallingPaced(cfg: Config, m: Machine, x: Input)
    requires m.pc == Head && Paced(cfg, m)
    requires Extended(m.s.pace, m.s.errors.count).iterations < Extended(m.s.pace, m.s.errors.count).limit
    ensures var c := Calling(cfg, m, x);
      && c.s.pace.iterations < c.s.pace.limit <= cfg.Cap() && c.s.pace.iterations == m.s.pace.iterations
      && c.s.research.forcePrimary == m.s.research.forcePrimary
      && (c.s.research.usingFast ==> !c.s.research.forcePrimary)
      && CallsOf(c.log).made == CallsOf(m.log).made + 1 && c.depth == m.depth
  {
  }

  lemma {:induction false} HeadPaced(cfg: Config, m: Machine, x: Input)
    requires m.pc == Head && Paced(cfg, m)
    ensures Paced(cfg, HeadStep(cfg, m, x))
  {
    var p := Extended(m.s.pace, m.s.errors.count);
    if p.iterations < p.limit {
      CallingPaced(cfg, m, x);
      if x.reply.Answer? { AnsweredCourse(Calling(cfg, m, x), x.reply); }
    }
  }

  lemma {:induction false} CallingChosen(cfg: Config, m: Machine, x: Input)
    requires m.pc == Head && Chosen(cfg, m)
    ensures var c := Calling(cfg, m, x);
      && Chosen(cfg, c.Go(Dispatch)) && Chosen(cfg, c) && c.s.once == m.s.once
      && (c.s.research.usingFast ==> !c.s.research.forcePrimary)
  {
  }

  lemma {:induction false} AnsweredChosen(cfg: Config, c: Machine, r: Reply)
    requires r.Answer? && Chosen(cfg, c.Go(Dispatch))
    ensures Chosen(cfg, Answered(c, r))
  {
    AnsweredCourse(c, r);
  }

  /** A raise, or a change of the limit alone, leaves the facts about model choice as they are. */
  lemma {:induction false} RaisedChosen(cfg: Config, m: Machine, pace: Pace, cause: Cause)
    requires m.pc == Head && Chosen(cfg, m)
    ensures Chosen(cfg, m.With(m.s.(pace := pace)).Go(Raised(cause)))
  {
  }

  lemma {:induction false} OverflowChosen(cfg: Config, c: Machine)
    requires c.pc == Head && Chosen(cfg, c) && c.s.research.usingFast && Chosen(cfg, c.Go(Dispatch))
    ensures Chosen(cfg, c.WithResearch(Overflowed(c.s.research)).Note(Retried))
  {
  }

  lemma {:induction false} HeadChosen(cfg: Config, m: Machine, x: Input)
    requires m.pc == Head && Chosen(cfg, m)
    ensures Chosen(cfg, HeadStep(cfg, m, x))
  {
    var pace := Extended(m.s.pace, m.s.errors.count);
    if pace.iterations >= pace.limit {
      RaisedChosen(cfg, m, pace, LimitReached);
    } else {
      CalledChosen(cfg, m, x);
    }
  }

  lemma {:induction false} CalledChosen(cfg: Config, m: Machine, x: Input)
    requires m.pc == Head && Chosen(cfg, m)
    requires Extended(m.s.pace, m.s.errors.count).iterations < Extended(m.s.pace, m.s.errors.count).limit
    ensures Chosen(cfg, HeadStep(cfg, m, x))
  {
    var c := Calling(cfg, m, x);
    CallingChosen(cfg, m, x);
    if x.reply.Answer? {
      AnsweredChosen(cfg, c, x.reply);
    } else if x.reply.Overflow? && c.s.research.usingFast {
      OverflowChosen(cfg, c);
    } else {
      RaisedChosen(cfg, c, c.s.pace, LlmFailure);
      assert HeadStep(cfg, m, x) == c.Go(Raised(LlmFailure));
    }
  }

  ghost predicate Course(m: Machine, d: Machine) {
    && d.s.pace.iterations == m.s.pace.iterations
    && (d.s.pace.limit == m.s.pace.limit || (m.s.pace.limit < 15 && d.s.pace.limit == 20))
    && d.depth <= m.depth
    && (m.s.research.forcePrimary ==> d.s.research.forcePrimary)
    && CallsOf(d.log) == CallsOf(m.log)
  }

  lemma {:induction false} AfterToolsKeeps(cfg: Config, m: Machine, x: Input)
    requires m.pc == Dispatch
    ensures Course(m, AfterTools(cfg, m, x))
    ensures Chosen(cfg, m) ==> Chosen(cfg, AfterTools(cfg, m, x))
  {
    ToolsCourse(cfg, m, x);
  }

  lemma {:induction false} AfterResearchKeeps(cfg: Config, m: Machine, x: Input)
    requires m.s.research.usingFast && m.pc == Dispatch
    ensures Course(m, AfterResearch(m, x))
    ensures Chosen(cfg, m) ==> Chosen(cfg, AfterResearch(m, x))
  {
  }

  lemma {:induction false} CompleteKeeps(cfg: Config, m: Machine, x: Input)
    requires !m.s.research.usingFast && m.s.work.queue == [] && m.pc == Dispatch
    ensures Course(m, Complete(m, x))
    ensures Chosen(cfg, m) ==> Chosen(cfg, Complete(m, x))
  {
  }

  lemma {:induction false} AskKeeps(cfg: Config, m: Machine, x: Input, p: Prompt, q: Prompt)
    requires !m.s.research.usingFast && m.pc == Dispatch
    ensures Course(m, AskForTools(cfg, m, x, p, q))
    ensures Chosen(cfg, m) ==> Chosen(cfg, AskForTools(cfg, m, x, p, q))
  {
    AskCourse(cfg, m, x, p, q);
  }

  lemma {:induction false} FirstNudgeKeeps(cfg: Config, m: Machine, x: Input)
    requires !m.s.research.usingFast && m.pc == Dispatch
    ensures Course(m, FirstNudge(cfg, m, x))
    ensures Chosen(cfg, m) ==> Chosen(cfg, FirstNudge(cfg, m, x))
  {
    AskKeeps(cfg, m.WithOnce(m.s.once.(nudgeDone := true)), x, NudgeWithTools, Nudge);
  }

  lemma {:induction false} ConsolidateKeeps(cfg: Config, m: Machine, x: Input)
    requires !m.s.research.usingFast && m.pc == Dispatch
    ensures Course(m, Consolidate(cfg, m, x))
    ensures Chosen(cfg, m) ==> Chosen(cfg, Consolidate(cfg, m, x))
  {
    AskKeeps(cfg, m, x, MoreTools, Synthesis);
    AskKeeps(cfg, m.WithOnce(Synthesised(m.s.once)), x, MoreTools, Synthesis);
  }

  lemma {:induction false} AfterToolWorkKeeps(cfg: Config, m: Machine, x: Input)
    requires !m.s.research.usingFast && m.s.work.queue == [] && m.pc == Dispatch
    ensures Course(m, AfterToolWork(cfg, m, x))
    ensures Chosen(cfg, m) ==> Chosen(cfg, AfterToolWork(cfg, m, x))
  {
    var o := m.s.once;
    if m.s.errors.count > 0 && !o.postErrorDone {
      SentKeeps(cfg, m, o.(postErrorDone := true), PostError);
    } else if !o.postDescribeDone && (x.described || x.mentioned) {
      SentKeeps(cfg, m, o.(postDescribeDone := true), PostDescribe);
    } else if m.s.streamed.chars > 200 {
      SettledKeeps(cfg, m);
      CompleteKeeps(cfg, SettledAnswer(m), x);
    } else {
      ConsolidateKeeps(cfg, m, x);
    }
  }

  function SettledAnswer(m: Machine): Machine { m.WithOnce(Synthesised(m.s.once)).Note(Settled) }

  lemma {:induction false} SettledKeeps(cfg: Config, m: Machine)
    requires !m.s.research.usingFast && m.s.work.queue == [] && m.pc == Dispatch
    ensures Course(m, SettledAnswer(m))
    ensures Chosen(cfg, m) ==> Chosen(cfg, SettledAnswer(m))
  {
  }

  lemma {:induction false} SentKeeps(cfg: Config, m: Machine, o: Once, p: Prompt)
    requires !m.s.research.usingFast && m.s.work.queue == [] && m.pc == Dispatch
    requires o.synthesisDone == m.s.once.synthesisDone
    ensures Course(m, m.WithOnce(o).Inject(p).Go(Head))
    ensures Chosen(cfg, m) ==> Chosen(cfg, m.WithOnce(o).Inject(p).Go(Head))
  {
  }

  lemma {:induction false} DispatchKeeps(cfg: Config, m: Machine, x: Input)
    requires m.pc == Dispatch
    ensures Course(m, DispatchStep(cfg, m, x))
    ensures Chosen(cfg, m) ==> Chosen(cfg, DispatchStep(cfg, m, x))
  {
    if m.s.work.queue != [] { AfterToolsKeeps(cfg, m, x); }
    else if m.s.research.usingFast { AfterResearchKeeps(cfg, m, x); }
    else {
      FirstNudgeKeeps(cfg, m, x);
      AfterToolWorkKeeps(cfg, m, x);
      CompleteKeeps(cfg, m, x);
    }
  }

  lemma {:induction false} StepCourse(cfg: Config, m: Machine, x: Input)
    requires Paced(cfg, m) && Chosen(cfg, m)
    ensures Paced(cfg, Step(cfg, m, x)) && Chosen(cfg, Step(cfg, m, x))
  {
    match m.pc
    case Head => HeadPaced(cfg, m, x); HeadChosen(cfg, m, x);
    case Dispatch => DispatchKeeps(cfg, m, x);
    case Done =>
    case Raised(_) =>
  }

  // ---- The tool pool ----

  /** Groups left in the pool and groups escalated make up the initial pool; enabled is escalated. */
  ghost predicate Pooled(cfg: Config, b: Toolbox) {
    && multiset(b.pool) + multiset(b.escalated) == multiset(cfg.pool)
    && (forall g :: g in b.enabled <==> g in b.escalated)
    && b.rounds <= 3
    && (b.pool != [] ==> b.rounds < 3)
  }

  lemma {:induction false} WithoutOne(pool: seq<Group>, g: Group)
    requires g in pool
    ensures multiset(Without(pool, g)) + multiset{g} == multiset(pool)
  {
    assert pool == [pool[0]] + pool[1..];
    if pool[0] != g { WithoutOne(pool[1..], g); }
  }

  lemma {:induction false} AtMostOnce(pool: seq<Group>, g: Group)
    requires forall i, j :: 0 <= i < j < |pool| ==> pool[i] != pool[j]
    ensures multiset(pool)[g] <= 1
  {
    if pool == [] {
    } else {
      assert pool == [pool[0]] + pool[1..];
      AtMostOnce(pool[1..], g);
      if pool[0] == g { assert g !in pool[1..]; }
    }
  }

  /** What is left after enabling is exactly what was not asked for; the rest has moved over. */
  lemma {:induction false} EnablingMoves(cfg: Config, b: Toolbox, gs: seq<Group>)
    requires cfg.Valid()
    requires multiset(b.pool) + multiset(b.escalated) == multiset(cfg.pool)
    requires forall g :: g in b.enabled <==> g in b.escalated
    ensures var b' := EnableAll(b, gs);
      && multiset(b'.pool) + multiset(b'.escalated) == multiset(cfg.pool)
      && (forall g :: g in b'.enabled <==> g in b'.escalated)
      && (forall g :: g in b'.pool <==> g in b.pool && g !in gs)
      && b.enabled <= b'.enabled && b'.rounds == b.rounds
  {
    if gs == [] {
    } else {
      var g := gs[|gs| - 1];
      var b1 := EnableAll(b, gs[..|gs| - 1]);
      EnablingMoves(cfg, b, gs[..|gs| - 1]);
      assert gs == gs[..|gs| - 1] + [g];
      if g in b1.pool {
        WithoutOne(b1.pool, g);
        AtMostOnce(cfg.pool, g);
        assert multiset(b1.pool)[g] <= multiset(cfg.pool)[g];
        forall h ensures h in Without(b1.pool, g) <==> h in b1.pool && h != g {
          assert multiset(Without(b1.pool, g))[h] + multiset{g}[h] == multiset(b1.pool)[h];
        }
      }
    }
  }

  /** Enabling everything that is left empties the pool. */
  lemma {:induction false} DrainingEmpties(cfg: Config, b: Toolbox, gs: seq<Group>)
    requires cfg.Valid()
    requires multiset(b.pool) + multiset(b.escalated) == multiset(cfg.pool)
    requires forall g :: g in b.enabled <==> g in b.escalated
    requires forall g <- b.pool :: g in gs
    ensures EnableAll(b, gs).pool == []
  {
    EnablingMoves(cfg, b, gs);
    var left := EnableAll(b, gs).pool;
    FirstIsIn(left);
  }

  lemma {:induction false} GainedExactly(cfg: Config, b: Toolbox, x: Input)
    ensures Gained(cfg, b, x) == [] <==> !Asks(cfg, b, x) || NewNames(cfg, b, x.requested) == []
  {
  }

  /** One round: the requested groups, and from the third round on all that are left. */
  lemma {:induction false} RoundPooled(cfg: Config, b: Toolbox, x: Input)
    requires cfg.Valid() && Pooled(cfg, b) && Asks(cfg, b, x) && NewNames(cfg, b, x.requested) != []
    ensures var b' := Escalated(cfg, b, x);
      Pooled(cfg, b') && b.enabled <= b'.enabled && b'.rounds == b.rounds + 1
  {
    var b1 := EnableAll(b, x.requested);
    EnablingMoves(cfg, b, x.requested);
    DrainPooled(cfg, NextRound(b1));
  }

  lemma {:induction false} DrainPooled(cfg: Config, b: Toolbox)
    requires cfg.Valid() && b.rounds <= 3
    requires multiset(b.pool) + multiset(b.escalated) == multiset(cfg.pool)
    requires forall g :: g in b.enabled <==> g in b.escalated
    ensures var b' := Drained(b);
      Pooled(cfg, b') && b.enabled <= b'.enabled && b'.rounds == b.rounds
  {
    EnablingMoves(cfg, b, Drain(b));
    if b.rounds >= 3 { DrainingEmpties(cfg, b, Drain(b)); }
  }

  lemma {:induction false} EscalationPooled(cfg: Config, b: Toolbox, x: Input)
    requires cfg.Valid() && Pooled(cfg, b)
    ensures var b' := Escalated(cfg, b, x);
      && Pooled(cfg, b') && b.enabled <= b'.enabled
      && b'.rounds == b.rounds + Bit(Gained(cfg, b, x) != [])
      && (b.pool == [] ==> b'.pool == [] && Gained(cfg, b, x) == [])
  {
    GainedExactly(cfg, b, x);
    if Asks(cfg, b, x) {
      if NewNames(cfg, b, x.requested) != [] {
        RoundPooled(cfg, b, x);
      } else {
        EnablingMoves(cfg, b, x.requested);
      }
    }
  }

  // ---- Control prompts ----

  /** How many more prompts other than the error breaker's the flags still allow. */
  function Budget(cfg: Config, s: State): int {
    var o := s.once;
    Bit(cfg.dual && !o.executorDone) + Bit(!o.nudgeDone) + Bit(!o.postErrorDone) + Bit(!o.postDescribeDone)
    + (if s.toolbox.pool == [] then 0 else 3 - s.toolbox.rounds)
    + AnswerBudget(cfg, s.once.synthesisDone, s.research.cycles, s.research.forcePrimary)
  }

  /** Prompts that ask for an answer: research checkpoints and the final synthesis exclude one another. */
  function AnswerBudget(cfg: Config, synthesisDone: bool, cycles: int, forcePrimary: bool): int {
    if !cfg.dual then Bit(!synthesisDone)
    else if synthesisDone && cycles == 0 then 0
    else if cycles == 0 then (if forcePrimary then 1 else MAX_RESEARCH_CYCLES)
    else if forcePrimary then 0 else MAX_RESEARCH_CYCLES - cycles
  }

  function Allowance(cfg: Config): nat {
    (if cfg.dual then 12 else 4) + (if cfg.pool == [] then 0 else 3)
  }

  ghost predicate Frugal(cfg: Config, m: Machine) {
    var k := PromptsOf(m.log);
    && k.others + Budget(cfg, m.s) <= Allowance(cfg)
    && k.cycles == m.s.research.cycles
    && k.rounds == m.s.toolbox.rounds
  }

  /** Nothing that the prompt accounting reads has changed, except that the primary model may now be forced. */
  ghost predicate SameCosts(m: Machine, m': Machine) {
    && PromptsOf(m'.log) == PromptsOf(m.log)
    && m'.s.toolbox == m.s.toolbox && m'.s.once == m.s.once
    && m'.s.research.cycles == m.s.research.cycles
    && (m.s.research.forcePrimary ==> m'.s.research.forcePrimary)
  }

  lemma {:induction false} SameCostsFrugal(cfg: Config, m: Machine, m': Machine)
    requires Frugal(cfg, m) && SameCosts(m, m') && m.s.research.cycles <= MAX_RESEARCH_CYCLES
    ensures Frugal(cfg, m')
  {
  }

  lemma {:induction false} OutputCosts(m: Machine, t: Text)
    ensures SameCosts(m, OnOutput(m, t))
  {
  }

  lemma {:induction false} AnsweredCosts(m: Machine, r: Reply)
    requires r.Answer?
    ensures SameCosts(m, Answered(m, r))
  {
    OutputCosts(m.With(Enqueued(m.s, r.calls)).Remember(r.thinking), r.text);
  }

  lemma {:induction false} HeadCosts(cfg: Config, m: Machine, x: Input)
    ensures SameCosts(m, HeadStep(cfg, m, x))
  {
    assert SameCosts(m, Calling(cfg, m, x));
    if x.reply.Answer? { AnsweredCosts(Calling(cfg, m, x), x.reply); }
  }

  lemma {:induction false} BatchedFrugal(cfg: Config, m: Machine, x: Input)
    requires m.pc == Dispatch && Chosen(cfg, m) && Frugal(cfg, m)
    ensures var a := Batched(m, x);
      Frugal(cfg, a) && a.s.toolbox == m.s.toolbox && a.s.research.cycles <= MAX_RESEARCH_CYCLES
  {
    var a := Batched(m, x);
    assert Budget(cfg, a.s) <= Budget(cfg, m.s);
  }

  lemma {:induction false} BreakerFrugal(cfg: Config, m: Machine)
    requires Frugal(cfg, m)
    ensures Frugal(cfg, Breaker(m)) && Breaker(m).s.toolbox == m.s.toolbox
    ensures Breaker(m).s.research == m.s.research
  {
    assert Budget(cfg, Breaker(m).s) == Budget(cfg, m.s);
  }

  lemma {:induction false} DelegateFrugal(cfg: Config, m: Machine)
    requires Frugal(cfg, m)
    ensures Frugal(cfg, Delegate(cfg, m)) && Delegate(cfg, m).s.toolbox == m.s.toolbox
    ensures Delegate(cfg, m).s.research == m.s.research
  {
  }

  lemma {:induction false} GuardFrugal(cfg: Config, m: Machine)
    requires Frugal(cfg, m)
    ensures Frugal(cfg, GuardSearches(cfg, m)) && GuardSearches(cfg, m).s.toolbox == m.s.toolbox
  {
  }

  lemma {:induction false} AfterToolsFrugal(cfg: Config, m: Machine, x: Input)
    requires m.pc == Dispatch && Chosen(cfg, m) && Frugal(cfg, m)
    ensures Frugal(cfg, AfterTools(cfg, m, x)) && AfterTools(cfg, m, x).s.toolbox == m.s.toolbox
  {
    var m1 := Batched(m, x);
    var m2 := Breaker(m1);
    BatchedFrugal(cfg, m, x);
    BreakerFrugal(cfg, m1);
    DelegateFrugal(cfg, m2);
    GuardFrugal(cfg, Delegate(cfg, m2));
  }

  lemma {:induction false} HandOffFrugal(cfg: Config, m: Machine, m1: Machine)
    requires m.s.research.usingFast && Chosen(cfg, m) && m.pc == Dispatch && Frugal(cfg, m)
    requires m1.log == m.log && m1.s.once == m.s.once && m1.s.toolbox == m.s.toolbox
    requires m1.s.research.cycles == m.s.research.cycles && m1.s.research.forcePrimary
    ensures Frugal(cfg, m1.Inject(HandOff).Go(Head))
  {
    var m2 := m1.Inject(HandOff).Go(Head);
    assert PromptsOf(m2.log) == PromptsOf(m.log).(others := PromptsOf(m.log).others + 1);
    assert Budget(cfg, m2.s) <= Budget(cfg, m.s) - 1;
  }

  lemma {:induction false} CycleFrugal(cfg: Config, m: Machine, m1: Machine, p: Prompt)
    requires m.s.research.usingFast && Chosen(cfg, m) && m.pc == Dispatch && Frugal(cfg, m)
    requires p == Checkpoint || p == EnoughResearch
    requires m1.log == m.log && m1.s.once == m.s.once && m1.s.toolbox == m.s.toolbox
    requires m1.s.research.cycles == m.s.research.cycles + 1
    requires m1.s.research.forcePrimary <==> m1.s.research.cycles >= MAX_RESEARCH_CYCLES
    ensures Frugal(cfg, m1.Inject(p).Go(Head))
  {
    var k := PromptsOf(m.log);
    var m2 := m1.Inject(p).Go(Head);
    assert PromptsOf(m2.log) == k.(others := k.others + 1, cycles := k.cycles + 1);
    assert Budget(cfg, m2.s) <= Budget(cfg, m.s) - 1;
  }

  lemma {:induction false} AfterResearchFrugal(cfg: Config, m: Machine, x: Input)
    requires m.pc == Dispatch && m.s.research.usingFast && Chosen(cfg, m) && Frugal(cfg, m)
    ensures Frugal(cfg, AfterResearch(m, x)) && AfterResearch(m, x).s.toolbox == m.s.toolbox
  {
    var r := m.s.research.(fastRun := 0, lastTools := [], repeats := 0, fastHash := 0);
    if x.described || x.mentioned {
      HandOffFrugal(cfg, m, m.WithResearch(r.(forcePrimary := true)));
    } else if r.cycles + 1 >= MAX_RESEARCH_CYCLES {
      CycleFrugal(cfg, m, m.WithResearch(r.(cycles := r.cycles + 1, forcePrimary := true)), EnoughResearch);
    } else {
      CycleFrugal(cfg, m, m.WithResearch(r.(cycles := r.cycles + 1)), Checkpoint);
    }
  }

  lemma {:induction false} EquippedBudget(cfg: Config, s: State, x: Input)
    requires cfg.Valid() && Pooled(cfg, s.toolbox)
    ensures var s' := Equipped(cfg, s, x);
      && Pooled(cfg, s'.toolbox) && s.toolbox.enabled <= s'.toolbox.enabled
      && s'.once == s.once && s'.research == s.research
      && s'.toolbox.rounds == s.toolbox.rounds + Bit(Gained(cfg, s.toolbox, x) != [])
      && Budget(cfg, s') + Bit(Gained(cfg, s.toolbox, x) != []) <= Budget(cfg, s)
  {
    EscalationPooled(cfg, s.toolbox, x);
  }

  /** Asking for tools costs one prompt, and one round when it brings tools. */
  lemma {:induction false} AskCosts(cfg: Config, m: Machine, x: Input, p: Prompt, q: Prompt)
    requires p.NudgeWithTools? || p.MoreTools?
    requires q.Nudge? || q.Synthesis?
    ensures var a := AskForTools(cfg, m, x, p, q);
      && a.s == Equipped(cfg, m.s, x)
      && PromptsOf(a.log) == Prompts(PromptsOf(m.log).others + 1, PromptsOf(m.log).cycles,
                                     PromptsOf(m.log).rounds + Bit(Gained(cfg, m.s.toolbox, x) != []))
  {
    var m1 := m.With(Equipped(cfg, m.s, x));
    if Gained(cfg, m.s.toolbox, x) != [] {
      var m2 := m1.Note(Escalation(Gained(cfg, m.s.toolbox, x)));
      assert PromptsOf(m2.log) == PromptsOf(m.log).(rounds := PromptsOf(m.log).rounds + 1);
    }
  }

  /** A branch keeps the prompt accounting, the pool partition, and every tool already enabled. */
  ghost predicate Thrifty(cfg: Config, m: Machine, d: Machine) {
    Frugal(cfg, d) && Pooled(cfg, d.s.toolbox) && m.s.toolbox.enabled <= d.s.toolbox.enabled
  }

  lemma {:induction false} FirstNudgeFrugal(cfg: Config, m: Machine, x: Input)
    requires cfg.Valid() && Frugal(cfg, m) && Pooled(cfg, m.s.toolbox) && !m.s.once.nudgeDone
    ensures Thrifty(cfg, m, FirstNudge(cfg, m, x))
  {
    var m1 := m.WithOnce(m.s.once.(nudgeDone := true));
    assert Budget(cfg, m1.s) == Budget(cfg, m.s) - 1;
    AskCosts(cfg, m1, x, NudgeWithTools, Nudge);
    EquippedBudget(cfg, m1.s, x);
  }

  lemma {:induction false} ConsolidateFrugal(cfg: Config, m: Machine, x: Input)
    requires cfg.Valid() && Frugal(cfg, m) && Pooled(cfg, m.s.toolbox)
    requires !m.s.once.synthesisDone && m.s.research.cycles == 0
    ensures Thrifty(cfg, m, Consolidate(cfg, m, x))
  {
    var m1 := m.WithOnce(Synthesised(m.s.once));
    assert Budget(cfg, m1.s) <= Budget(cfg, m.s) - 1;
    AskCosts(cfg, m, x, MoreTools, Synthesis);
    EquippedBudget(cfg, m.s, x);
    AskCosts(cfg, m1, x, MoreTools, Synthesis);
    EquippedBudget(cfg, m1.s, x);
  }

  lemma {:induction false} CompleteCosts(m: Machine, x: Input)
    ensures SameCosts(m, Complete(m, x))
  {
  }

  lemma {:induction false} SynthesisedFrugal(cfg: Config, m: Machine)
    requires Frugal(cfg, m) && m.s.research.cycles <= MAX_RESEARCH_CYCLES
    ensures Frugal(cfg, SettledAnswer(m))
  {
    var m1 := SettledAnswer(m);
    assert Budget(cfg, m1.s) <= Budget(cfg, m.s);
  }

  lemma {:induction false} InjectedFrugal(cfg: Config, m: Machine, m1: Machine, p: Prompt)
    requires p.PostError? || p.PostDescribe?
    requires Frugal(cfg, m) && m1.log == m.log && m1.s.toolbox == m.s.toolbox
    requires m1.s.research == m.s.research && Budget(cfg, m1.s) == Budget(cfg, m.s) - 1
    ensures Frugal(cfg, m1.Inject(p).Go(Head))
  {
  }

  lemma {:induction false} AfterToolWorkFrugal(cfg: Config, m: Machine, x: Input)
    requires cfg.Valid() && Frugal(cfg, m) && Pooled(cfg, m.s.toolbox)
    requires !m.s.once.synthesisDone && m.s.research.cycles == 0
    ensures Thrifty(cfg, m, AfterToolWork(cfg, m, x))
  {
    var o := m.s.once;
    if m.s.errors.count > 0 && !o.postErrorDone {
      InjectedFrugal(cfg, m, m.WithOnce(o.(postErrorDone := true)), PostError);
    } else if !o.postDescribeDone && (x.described || x.mentioned) {
      InjectedFrugal(cfg, m, m.WithOnce(o.(postDescribeDone := true)), PostDescribe);
    } else if m.s.streamed.chars > 200 {
      var m1 := SettledAnswer(m);
      SynthesisedFrugal(cfg, m);
      CompleteCosts(m1, x);
      SameCostsFrugal(cfg, m1, Complete(m1, x));
    } else {
      ConsolidateFrugal(cfg, m, x);
    }
  }

  lemma {:induction false} StepFrugal(cfg: Config, m: Machine, x: Input)
    requires cfg.Valid() && Chosen(cfg, m) && Frugal(cfg, m) && Pooled(cfg, m.s.toolbox)
    ensures Thrifty(cfg, m, Step(cfg, m, x))
  {
    match m.pc
    case Head =>
      HeadCosts(cfg, m, x);
      SameCostsFrugal(cfg, m, HeadStep(cfg, m, x));
    case Dispatch =>
      if m.s.work.queue != [] { AfterToolsFrugal(cfg, m, x); }
      else if m.s.research.usingFast { AfterResearchFrugal(cfg, m, x); }
      else {
        if !m.s.once.nudgeDone { FirstNudgeFrugal(cfg, m, x); }
        if !m.s.once.synthesisDone && m.s.research.cycles == 0 { AfterToolWorkFrugal(cfg, m, x); }
        CompleteCosts(m, x);
        SameCostsFrugal(cfg, m, Complete(m, x));
      }
    case Done =>
    case Raised(_) =>
  }

  // ---- Displayed text ----

  ghost predicate KeepsVoice(m: Machine, m': Machine) { ShowsPrimaryOnly(m.log) ==> ShowsPrimaryOnly(m'.log) }

  /** The text of a reply is displayed only under the primary model, and as that model's. */
  lemma {:induction false} OutputVoice(m: Machine, t: Text)
    requires CallsOf(m.log).made > 0 && CallsOf(m.log).last == Speaker(m.s.research)
    ensures KeepsVoice(m, OnOutput(m, t))
  {
  }

  lemma {:induction false} HeadVoice(cfg: Config, m: Machine, x: Input)
    ensures KeepsVoice(m, HeadStep(cfg, m, x))
  {
    var c := Calling(cfg, m, x);
    assert KeepsVoice(m, c) && CallsOf(c.log).made > 0 && CallsOf(c.log).last == Speaker(c.s.research);
    if x.reply.Answer? {
      var heard := c.With(Enqueued(c.s, x.reply.calls)).Remember(x.reply.thinking);
      assert heard.log == c.log && heard.s.research == c.s.research;
      OutputVoice(heard, x.reply.text);
    }
  }

  lemma {:induction false} ToolsVoice(cfg: Config, m: Machine, x: Input)
    ensures KeepsVoice(m, AfterTools(cfg, m, x))
  {
    var m1 := Batched(m, x);
    var m2 := Breaker(m1);
    assert KeepsVoice(m, m1) && KeepsVoice(m1, m2) && KeepsVoice(m2, Delegate(cfg, m2));
  }

  lemma {:induction false} AskVoice(cfg: Config, m: Machine, x: Input, p: Prompt, q: Prompt)
    ensures KeepsVoice(m, AskForTools(cfg, m, x, p, q))
  {
    var m1 := m.With(Equipped(cfg, m.s, x));
    assert KeepsVoice(m, m1.Note(Escalation(Gained(cfg, m.s.toolbox, x))));
  }

  lemma {:induction false} ToolWorkVoice(cfg: Config, m: Machine, x: Input)
    ensures KeepsVoice(m, AfterToolWork(cfg, m, x))
  {
    AskVoice(cfg, m, x, MoreTools, Synthesis);
    AskVoice(cfg, m.WithOnce(Synthesised(m.s.once)), x, MoreTools, Synthesis);
    CompleteVoice(SettledAnswer(m), x);
  }

  lemma {:induction false} CompleteVoice(m: Machine, x: Input)
    ensures KeepsVoice(m, Complete(m, x))
  {
  }

  lemma {:induction false} ResearchVoice(m: Machine, x: Input)
    ensures KeepsVoice(m, AfterResearch(m, x))
  {
  }

  lemma {:induction false} DispatchVoice(cfg: Config, m: Machine, x: Input)
    ensures KeepsVoice(m, DispatchStep(cfg, m, x))
  {
    var o := m.s.once;
    if m.s.work.queue != [] {
      ToolsVoice(cfg, m, x);
    } else if m.s.research.usingFast {
      ResearchVoice(m, x);
    } else if !o.hadTools && !o.nudgeDone && m.s.pace.iterations <= 2 {
      AskVoice(cfg, m.WithOnce(o.(nudgeDone := true)), x, NudgeWithTools, Nudge);
    } else if o.hadTools && !o.synthesisDone && m.s.research.cycles == 0 && cfg.requiresTools {
      ToolWorkVoice(cfg, m, x);
    } else {
      CompleteVoice(m, x);
    }
  }

  /** Only the primary model speaks to the user, whatever the step. */
  lemma {:induction false} StepVoice(cfg: Config, m: Machine, x: Input)
    requires ShowsPrimaryOnly(m.log)
    ensures ShowsPrimaryOnly(Step(cfg, m, x).log)
  {
    match m.pc
    case Head => HeadVoice(cfg, m, x);
    case Dispatch => DispatchVoice(cfg, m, x);
    case Done =>
    case Raised(_) =>
  }

  // ---- Memory ----

  lemma {:induction false} StrippedPlus(a: seq<Message>, b: seq<Message>)
    ensures Stripped(a + b) == Stripped(a) + Stripped(b)
  {
    if b == [] {
      assert a + b == a;
    } else {
      StrippedPlus(a, b[..|b| - 1]);
      assert (a + b)[..|a + b| - 1] == a + b[..|b| - 1];
    }
  }

  lemma {:induction false} StrippedIsPlain(ms: seq<Message>)
    ensures forall m <- Stripped(ms) :: m in ms && !m.Synthetic()
    ensures Stripped(Stripped(ms)) == Stripped(ms)
  {
    if ms == [] {
    } else {
      var rest := ms[..|ms| - 1];
      var last := if ms[|ms| - 1].Synthetic() then [] else [ms[|ms| - 1]];
      StrippedIsPlain(rest);
      StrippedPlus(Stripped(rest), last);
      assert Stripped(last) == last by { if last != [] { assert last[..0] == []; } }
    }
  }

  /** Stripping the marked messages from memory gives what stripping everything that ever arrived gives. */
  ghost predicate Kept(c: Chat) { Stripped(c.memory) == Stripped(c.arrived) }

  ghost predicate Remembers(m: Machine) {
    Kept(m.chat) && (m.pc == Done ==> m.chat.memory == Stripped(m.chat.arrived))
  }

  lemma {:induction false} PlusKeeps()
    ensures forall c: Chat, ms: seq<Message> {:trigger c.Plus(ms)} :: Kept(c) ==> Kept(c.Plus(ms))
  {
    forall c: Chat, ms: seq<Message> | Kept(c) ensures Kept(c.Plus(ms)) {
      StrippedPlus(c.memory, ms);
      StrippedPlus(c.arrived, ms);
    }
  }

  lemma {:induction false} OnePlusKeeps(c: Chat, ms: seq<Message>)
    requires Kept(c)
    ensures Kept(c.Plus(ms))
  {
    StrippedPlus(c.memory, ms);
    StrippedPlus(c.arrived, ms);
  }

  lemma {:induction false} OutputKeeps(m: Machine, t: Text)
    requires Kept(m.chat)
    ensures Kept(OnOutput(m, t).chat)
  {
    OnePlusKeeps(m.chat, [Plain(t.content, false)]);
  }

  lemma {:induction false} AnsweredKeeps(m: Machine, r: Reply)
    requires r.Answer? && Kept(m.chat)
    ensures Kept(Answered(m, r).chat)
  {
    OnePlusKeeps(m.chat, r.thinking);
    var asked := m.With(Enqueued(m.s, r.calls)).Remember(r.thinking);
    OutputKeeps(asked, r.text);
    OnePlusKeeps(OnOutput(asked, r.text).chat, r.added);
  }

  lemma {:induction false} HeadRemembers(cfg: Config, m: Machine, x: Input)
    requires m.pc == Head && Remembers(m)
    ensures Remembers(HeadStep(cfg, m, x))
  {
    if x.reply.Answer? { AnsweredKeeps(Calling(cfg, m, x), x.reply); }
  }

  function WithoutMarked(c: Chat): Chat { Chat(Stripped(c.memory), c.arrived) }

  lemma {:induction false} StrippingKeeps(c: Chat)
    requires Kept(c)
    ensures Kept(WithoutMarked(c)) && WithoutMarked(c).memory == Stripped(c.arrived)
  {
    StrippedIsPlain(c.memory);
  }

  lemma CompleteChat(m: Machine, x: Input)
    ensures var heard := m.chat.Plus(x.hooksMessages);
      Complete(m, x).chat == if x.hooksEnding == Completed then WithoutMarked(heard) else heard
    ensures Complete(m, x).pc == Done ==> x.hooksEnding == Completed
  {
  }

  lemma {:induction false} CompleteRemembers(m: Machine, x: Input)
    requires Kept(m.chat)
    ensures Remembers(Complete(m, x))
  {
    CompleteChat(m, x);
    var heard := m.chat.Plus(x.hooksMessages);
    OnePlusKeeps(m.chat, x.hooksMessages);
    StrippingKeeps(heard);
  }

  lemma {:induction false} AfterToolsRemembers(cfg: Config, m: Machine, x: Input)
    requires Kept(m.chat)
    ensures Remembers(AfterTools(cfg, m, x))
  {
    PlusKeeps();
    var m2 := Breaker(Batched(m, x));
    assert Kept(m2.chat);
    assert Kept(Delegate(cfg, m2).chat);
  }

  lemma {:induction false} AskRemembers(cfg: Config, m: Machine, x: Input, p: Prompt, q: Prompt)
    requires Kept(m.chat)
    ensures Remembers(AskForTools(cfg, m, x, p, q))
  {
    PlusKeeps();
  }

  lemma {:induction false} AfterToolWorkRemembers(cfg: Config, m: Machine, x: Input)
    requires m.pc == Dispatch && Remembers(m)
    ensures Remembers(AfterToolWork(cfg, m, x))
  {
    var o := m.s.once;
    if m.s.errors.count > 0 && !o.postErrorDone {
      PlusKeeps();
    } else if !o.postDescribeDone && (x.described || x.mentioned) {
      PlusKeeps();
    } else if m.s.streamed.chars > 200 {
      CompleteRemembers(SettledAnswer(m), x);
    } else {
      AskRemembers(cfg, m, x, MoreTools, Synthesis);
      AskRemembers(cfg, m.WithOnce(Synthesised(o)), x, MoreTools, Synthesis);
    }
  }

  lemma {:induction false} AfterResearchRemembers(m: Machine, x: Input)
    requires Kept(m.chat)
    ensures Remembers(AfterResearch(m, x))
  {
    PlusKeeps();
  }

  lemma {:induction false} DispatchRemembers(cfg: Config, m: Machine, x: Input)
    requires m.pc == Dispatch && Remembers(m)
    ensures Remembers(DispatchStep(cfg, m, x))
  {
    if m.s.work.queue != [] { AfterToolsRemembers(cfg, m, x); }
    else if m.s.research.usingFast { AfterResearchRemembers(m, x); }
    else { TextRemembers(cfg, m, x); }
  }

  lemma {:induction false} TextRemembers(cfg: Config, m: Machine, x: Input)
    requires m.pc == Dispatch && Remembers(m) && m.s.work.queue == [] && !m.s.research.usingFast
    ensures Remembers(DispatchStep(cfg, m, x))
  {
    var o := m.s.once;
    if !o.hadTools && !o.nudgeDone && m.s.pace.iterations <= 2 {
      NudgeRemembers(cfg, m, x);
    } else if o.hadTools && !o.synthesisDone && m.s.research.cycles == 0 && cfg.requiresTools {
      AfterToolWorkRemembers(cfg, m, x);
    } else {
      CompleteRemembers(m, x);
    }
  }

  lemma {:induction false} NudgeRemembers(cfg: Config, m: Machine, x: Input)
    requires Kept(m.chat)
    ensures Remembers(FirstNudge(cfg, m, x))
  {
    AskRemembers(cfg, m.WithOnce(m.s.once.(nudgeDone := true)), x, NudgeWithTools, Nudge);
  }

  // ---- Termination ----

  /** Drops at every step: a pass through the head uses up an iteration or the one overflow retry, and a
      branch either returns to a head or lets one waiting loop go on. */
  function Weight(cfg: Config, m: Machine): int {
    4 * (cfg.Cap() - m.s.pace.iterations + Bit(!m.s.research.forcePrimary)) + 2 * m.depth + Bit(m.pc == Dispatch)
  }

  lemma {:induction false} HeadDrops(cfg: Config, m: Machine, x: Input)
    requires m.pc == Head && Paced(cfg, m)
    ensures var m' := HeadStep(cfg, m, x); m'.Ended() || Weight(cfg, m') < Weight(cfg, m)
  {
    if x.reply.Answer? { AnsweredCourse(Calling(cfg, m, x), x.reply); }
  }

  lemma {:induction false} DispatchDrops(cfg: Config, m: Machine, x: Input)
    requires m.pc == Dispatch
    ensures var m' := DispatchStep(cfg, m, x); m'.Ended() || Weight(cfg, m') < Weight(cfg, m)
  {
    DispatchKeeps(cfg, m, x);
  }
}
