/** The dual-model agent loop as a state machine over plain values.

    One `Step` is either a pass through the head of the `while True` loop (limit check, choice of
    model, LLM call) or the branch taken after that call.  An interruption raised while a reply is
    processed re-enters the whole loop; `depth` counts the loops that are waiting for an inner one.

    Everything the program does not decide itself (LLM replies, tool results, extension hooks, the
    tool selector, context sizes, text patterns) arrives in `Input` and is arbitrary. */
module AgentModel {

  type ToolName = string
  type Group = string

  const ERROR_HINT_THRESHOLD := 3
  const ERROR_STOP_THRESHOLD := 5
  const MAX_FAST_CONSECUTIVE_FAILURES := 3
  const STALL_REPEAT_THRESHOLD := 2
  const MAX_CONSECUTIVE_8B_RESEARCH := 8
  const MAX_RESEARCH_CYCLES := 8
  const PROGRESS_EXTENSION_CHUNK := 10
  const ABSOLUTE_MAX_ITERATIONS := 200
  const FAST_MAX_INPUT := 32768 - 6000

  const RESEARCH_TOOLS: set<ToolName> := {
    "web_search", "fetch_url_content",
    "search_codebase", "search_knowledge", "search_documents", "list_session_docs",
    "query_call_graph", "find_orphan_functions", "analyze_dependencies",
    "search_notes", "get_trajectory", "list_recent_sessions"
  }

  datatype Model = Fast | Primary

  /** The control prompts the loop writes into memory, one constructor a prompt. */
  datatype Prompt =
    | Stop | Hint
    | Executor | SearchGuard
    | HandOff | Checkpoint | EnoughResearch
    | Nudge | NudgeWithTools
    | PostError | PostDescribe | MoreTools | Synthesis

  datatype Message =
    | Control(prompt: Prompt)
    | Plain(text: string, marked: bool)
  {
    /** The `__synthetic__` mark. */
    predicate Synthetic() { Control? || marked }
  }

  datatype BatchKind = Clean | Erred | Broken

  /** `Noted`: text of the fast model was kept.  `Retried`: the fast model's context overflowed.  `Skipped`: no nudge
      was needed.  `Settled`: what was displayed will do as the answer. */
  datatype Event =
    | Called(model: Model)
    | Noted(hash: int)
    | Shown(author: Model, headHash: int, length: nat)
    | Replied(calls: seq<ToolName>)
    | Retried
    | Batch(kind: BatchKind, names: seq<ToolName>)
    | Injected(prompt: Prompt)
    | Escalation(tools: seq<ToolName>)
    | Skipped
    | Settled

  /** What happened so far, latest event outermost. */
  datatype Log = Nothing | Then(earlier: Log, event: Event)

  datatype Cause = LimitReached | LlmFailure | Fault

  datatype Pc = Head | Dispatch | Done | Raised(cause: Cause)

  // ---- What the environment supplies ----

  datatype Text = Text(length: nat, hash: int, headHash: int, content: string)

  datatype Ending = Completed | Interrupted | Faulted

  datatype Reply =
    | Overflow
    | Failure
    | Answer(text: Text, calls: seq<ToolName>, thinking: seq<Message>, added: seq<Message>, ending: Ending)

  datatype Input = Input(
    contextChars: nat,
    reply: Reply,
    batchError: bool, batchEnding: Ending, batchMessages: seq<Message>,
    described: bool, mentioned: bool, hasCode: bool,
    spoke: bool, requested: seq<Group>,
    hooksEnding: Ending, hooksMessages: seq<Message>)

  /** The tool names an extension lists before it ends or raises. */
  datatype Listing = Listing(names: seq<ToolName>, raises: bool)

  datatype Config = Config(
    dual: bool,
    routed: bool,
    requiresTools: bool,
    estimatedSteps: int,
    limit: nat,
    pool: seq<Group>,
    listings: map<Group, Listing>)
  {
    predicate Valid() { forall i, j :: 0 <= i < j < |pool| ==> pool[i] != pool[j] }

    function Cap(): (cap: nat)
      ensures limit <= cap && ABSOLUTE_MAX_ITERATIONS <= cap
      ensures limit <= ABSOLUTE_MAX_ITERATIONS ==> cap == ABSOLUTE_MAX_ITERATIONS
    {
      if limit > ABSOLUTE_MAX_ITERATIONS then limit else ABSOLUTE_MAX_ITERATIONS
    }
  }

  // ---- The orchestrator's private fields, grouped by what they are for ----

  datatype Pace = Pace(iterations: nat, limit: nat)

  datatype Research = Research(
    lastTools: seq<ToolName>, usingFast: bool, forcePrimary: bool, fastFailures: nat,
    fastHash: int, repeats: nat, fastRun: nat, cycles: nat)

  datatype Errors = Errors(inQueue: bool, count: nat, hinted: bool)

  datatype Once = Once(
    hadTools: bool, synthesisDone: bool, nudgeDone: bool, nudgeSkipped: bool,
    postErrorDone: bool, postDescribeDone: bool, executorDone: bool)

  datatype Streamed = Streamed(hash: int, chars: nat)

  datatype Toolbox = Toolbox(pool: seq<Group>, escalated: seq<Group>, enabled: set<Group>, rounds: nat)

  datatype Work = Work(queue: seq<ToolName>, searches: nat)

  datatype State = State(
    pace: Pace, research: Research, errors: Errors, once: Once, streamed: Streamed,
    work: Work, toolbox: Toolbox)

  /** Memory, and beside it every message that ever reached it.  Messages enter at the end: each gets
      its sequence number as it is created. */
  datatype Chat = Chat(memory: seq<Message>, arrived: seq<Message>)
  {
    function Plus(ms: seq<Message>): Chat { Chat(memory + ms, arrived + ms) }
  }

  datatype Machine = Machine(s: State, chat: Chat, depth: nat, pc: Pc, log: Log)
  {
    predicate Ended() { pc.Done? || pc.Raised? }

    function Note(e: Event): Machine { this.(log := Then(log, e)) }

    function Remember(ms: seq<Message>): Machine { this.(chat := chat.Plus(ms)) }

    function Inject(p: Prompt): Machine { Remember([Control(p)]).Note(Injected(p)) }

    function Go(p: Pc): Machine { this.(pc := p) }

    function With(s': State): Machine { this.(s := s') }

    function WithOnce(o: Once): Machine { this.(s := s.(once := o)) }

    function WithErrors(e: Errors): Machine { this.(s := s.(errors := e)) }

    function WithResearch(r: Research): Machine { this.(s := s.(research := r)) }
  }

  function Initial(cfg: Config, memory: seq<Message>): Machine {
    Machine(
      State(Pace(0, cfg.limit), Research([], false, false, 0, 0, 0, 0, 0), Errors(false, 0, false),
            Once(false, false, false, false, false, false, false), Streamed(0, 0), Work([], 0),
            Toolbox(cfg.pool, [], {}, 0)),
      Chat(memory, memory), 0, Head, Nothing)
  }

  // ---- Head of the loop ----

  predicate AllResearch(names: seq<ToolName>) { forall n <- names :: n in RESEARCH_TOOLS }

  function ResearchCount(names: seq<ToolName>): nat {
    if names == [] then 0
    else ResearchCount(names[..|names| - 1]) + if names[|names| - 1] in RESEARCH_TOOLS then 1 else 0
  }

  function Min(a: nat, b: nat): nat { if a < b then a else b }

  function Extended(p: Pace, errors: nat): Pace {
    if p.iterations + 2 >= p.limit && errors == 0 && p.limit < ABSOLUTE_MAX_ITERATIONS
    then p.(limit := Min(p.limit + PROGRESS_EXTENSION_CHUNK, ABSOLUTE_MAX_ITERATIONS))
    else p
  }

  /** Model choice for the coming call; only `usingFast` and the run counter change. */
  function Choose(cfg: Config, s: State, contextChars: nat): Research {
    var r := s.research;
    if !cfg.dual || r.forcePrimary || s.pace.iterations == 0 || (s.once.synthesisDone && r.cycles == 0) then
      r.(usingFast := false)
    else if r.lastTools != [] && AllResearch(r.lastTools) then
      if r.repeats >= STALL_REPEAT_THRESHOLD || r.fastRun + 1 > MAX_CONSECUTIVE_8B_RESEARCH
      then r.(usingFast := false, fastRun := 0)
      else r.(usingFast := contextChars / 3 <= FAST_MAX_INPUT, fastRun := r.fastRun + 1)
    else r.(usingFast := false, fastRun := 0)
  }

  function Speaker(r: Research): Model { if r.usingFast then Fast else Primary }

  function Compared(r: Research, hash: int): Research {
    if hash == r.fastHash then r.(repeats := r.repeats + 1) else r.(repeats := 0, fastHash := hash)
  }

  predicate Repeated(d: Streamed, t: Text) { d.hash != 0 && t.headHash == d.hash && t.length > 100 }

  /** Fast text goes to memory and is never displayed; a long repeat of the last primary text is dropped. */
  function OnOutput(m: Machine, t: Text): Machine {
    if t.length == 0 then m
    else if m.s.research.usingFast then
      m.WithResearch(Compared(m.s.research, t.hash)).Remember([Plain(t.content, false)]).Note(Noted(t.hash))
    else if Repeated(m.s.streamed, t) then m
    else
      var heard := Streamed(t.headHash, m.s.streamed.chars + t.length);
      m.With(m.s.(streamed := heard)).Note(Shown(Speaker(m.s.research), t.headHash, t.length))
  }

  function Enqueued(s: State, calls: seq<ToolName>): State { s.(work := s.work.(queue := s.work.queue + calls)) }

  function Ticked(s: State): State { s.(pace := s.pace.(iterations := s.pace.iterations + 1)) }

  function Finish(m: Machine, ending: Ending): Machine {
    match ending
    case Completed => m.Go(Dispatch)
    case Interrupted => m.(depth := m.depth + 1, pc := Head)
    case Faulted => m.Go(Raised(Fault))
  }

  function Answered(m: Machine, r: Reply): Machine
    requires r.Answer?
  {
    var heard := OnOutput(m.With(Enqueued(m.s, r.calls)).Remember(r.thinking), r.text);
    Finish(heard.With(Ticked(heard.s)).Note(Replied(r.calls)).Remember(r.added), r.ending)
  }

  /** A context overflow of the fast model is retried on the primary one. */
  function Overflowed(r: Research): Research { r.(forcePrimary := true, lastTools := []) }

  /** The machine at the moment of the LLM call, if there is one. */
  function Calling(cfg: Config, m: Machine, x: Input): Machine {
    var r := Choose(cfg, m.s, x.contextChars);
    m.With(m.s.(pace := Extended(m.s.pace, m.s.errors.count), research := r)).Note(Called(Speaker(r)))
  }

  function HeadStep(cfg: Config, m: Machine, x: Input): Machine {
    var pace := Extended(m.s.pace, m.s.errors.count);
    if pace.iterations >= pace.limit then m.With(m.s.(pace := pace)).Go(Raised(LimitReached))
    else
      var c := Calling(cfg, m, x);
      match x.reply
      case Overflow =>
        if c.s.research.usingFast then c.WithResearch(Overflowed(c.s.research)).Note(Retried)
        else c.Go(Raised(LlmFailure))
      case Failure => c.Go(Raised(LlmFailure))
      case Answer(_, _, _, _, _) => Answered(c, x.reply)
  }

  // ---- Branch 1: tools were called ----

  function QualityGate(r: Research, error: bool): Research {
    if r.usingFast && error then
      r.(fastFailures := r.fastFailures + 1,
         forcePrimary := r.forcePrimary || r.fastFailures + 1 >= MAX_FAST_CONSECUTIVE_FAILURES)
    else r.(fastFailures := 0)
  }

  function Recount(e: Errors, error: bool): Errors {
    if error then Errors(true, e.count + 1, e.hinted) else Errors(false, 0, false)
  }

  function Kind(x: Input): BatchKind {
    if x.batchEnding != Completed then Broken else if x.batchError then Erred else Clean
  }

  /** The queue is processed and emptied; counters move only when processing runs to its end. */
  function Processed(s: State, x: Input): State {
    var r := s.research.(lastTools := s.work.queue);
    State(s.pace,
          if x.batchEnding == Completed then QualityGate(r, x.batchError) else r,
          if x.batchEnding == Completed then Recount(s.errors, x.batchError) else s.errors.(inQueue := x.batchError),
          s.once.(hadTools := true),
          Streamed(0, 0),
          Work([], s.work.searches + ResearchCount(s.work.queue)),
          s.toolbox)
  }

  function Breaker(m: Machine): Machine {
    var e := m.s.errors;
    if e.count >= ERROR_STOP_THRESHOLD then m.WithErrors(e.(count := 0, hinted := false)).Inject(Stop)
    else if e.count >= ERROR_HINT_THRESHOLD && !e.hinted then m.WithErrors(e.(hinted := true)).Inject(Hint)
    else m
  }

  function Delegate(cfg: Config, m: Machine): Machine {
    var o := m.s.once;
    if !o.executorDone && cfg.dual && m.s.research.lastTools != [] && AllResearch(m.s.research.lastTools)
    then m.WithOnce(o.(executorDone := true)).Inject(Executor)
    else m
  }

  function GuardSearches(cfg: Config, m: Machine): Machine {
    var o := m.s.once;
    if !cfg.dual && !cfg.requiresTools && m.s.work.searches >= 3 && m.s.research.lastTools == ["web_search"]
       && m.s.pace.iterations >= 2 && !o.synthesisDone
    then m.WithOnce(o.(synthesisDone := true)).Inject(SearchGuard)
    else m
  }

  function Batched(m: Machine, x: Input): Machine {
    m.With(Processed(m.s, x)).Remember(x.batchMessages).Note(Batch(Kind(x), m.s.work.queue))
  }

  function AfterTools(cfg: Config, m: Machine, x: Input): Machine {
    if x.batchEnding == Faulted then Batched(m, x).Go(Raised(Fault))
    else GuardSearches(cfg, Delegate(cfg, Breaker(Batched(m, x)))).Go(Head)
  }

  // ---- Branch 2: the fast model stopped calling tools ----

  function AfterResearch(m: Machine, x: Input): Machine {
    var r := m.s.research.(fastRun := 0, lastTools := [], repeats := 0, fastHash := 0);
    if x.described || x.mentioned then
      m.WithResearch(r.(forcePrimary := true)).Inject(HandOff).Go(Head)
    else if r.cycles + 1 >= MAX_RESEARCH_CYCLES then
      m.WithResearch(r.(cycles := r.cycles + 1, forcePrimary := true)).Inject(EnoughResearch).Go(Head)
    else
      m.WithResearch(r.(cycles := r.cycles + 1)).Inject(Checkpoint).Go(Head)
  }

  // ---- Tool escalation ----

  function Names(cfg: Config, g: Group): seq<ToolName> {
    if g !in cfg.listings then []
    else cfg.listings[g].names + if cfg.listings[g].raises then [g] else []
  }

  function Without(pool: seq<Group>, g: Group): seq<Group> {
    if pool == [] then []
    else if pool[0] == g then pool[1..]
    else [pool[0]] + Without(pool[1..], g)
  }

  /** Take one group out of the pool and enable its extension; unknown or absent groups are skipped. */
  function EnableGroup(b: Toolbox, g: Group): Toolbox {
    if g !in b.pool then b
    else b.(pool := Without(b.pool, g), escalated := b.escalated + [g], enabled := b.enabled + {g})
  }

  function EnableAll(b: Toolbox, gs: seq<Group>): Toolbox {
    if gs == [] then b
    else EnableGroup(EnableAll(b, gs[..|gs| - 1]), gs[|gs| - 1])
  }

  function NewNames(cfg: Config, b: Toolbox, gs: seq<Group>): seq<ToolName> {
    if gs == [] then []
    else
      var g := gs[|gs| - 1];
      NewNames(cfg, b, gs[..|gs| - 1]) + if g in EnableAll(b, gs[..|gs| - 1]).pool then Names(cfg, g) else []
  }

  /** From the third round on, whatever is left in the pool is enabled too. */
  function Drain(b: Toolbox): seq<Group> { if b.rounds >= 3 then b.pool else [] }

  predicate Asks(cfg: Config, b: Toolbox, x: Input) {
    b.pool != [] && cfg.routed && x.spoke && x.requested != []
  }

  function NextRound(b: Toolbox): Toolbox { Toolbox(b.pool, b.escalated, b.enabled, b.rounds + 1) }

  function Drained(b: Toolbox): Toolbox { EnableAll(b, Drain(b)) }

  function Escalated(cfg: Config, b: Toolbox, x: Input): Toolbox {
    if !Asks(cfg, b, x) then b
    else if NewNames(cfg, b, x.requested) == [] then EnableAll(b, x.requested)
    else Drained(NextRound(EnableAll(b, x.requested)))
  }

  /** Names of the tools that one escalation brings in. */
  function Gained(cfg: Config, b: Toolbox, x: Input): seq<ToolName> {
    if !Asks(cfg, b, x) then []
    else
      var names := NewNames(cfg, b, x.requested);
      if names == [] then []
      else
        var b2 := NextRound(EnableAll(b, x.requested));
        names + NewNames(cfg, b2, Drain(b2))
  }

  function Roomier(p: Pace, gained: bool): Pace {
    if gained && p.limit < 15 then p.(limit := 20) else p
  }

  /** The state once the selector's tools are enabled; when there are some, a small limit is raised. */
  function Equipped(cfg: Config, s: State, x: Input): State {
    s.(toolbox := Escalated(cfg, s.toolbox, x), pace := Roomier(s.pace, Gained(cfg, s.toolbox, x) != []))
  }

  /** Ask for tools: the first prompt when some came, the second when none did. */
  function AskForTools(cfg: Config, m: Machine, x: Input, some: Prompt, none: Prompt): Machine {
    var names := Gained(cfg, m.s.toolbox, x);
    if names != [] then m.With(Equipped(cfg, m.s, x)).Note(Escalation(names)).Inject(some).Go(Head)
    else m.With(Equipped(cfg, m.s, x)).Inject(none).Go(Head)
  }

  // ---- Branches 3 to 5: the primary model answered without tools ----

  /** Code in the answer, or an easy task on a route without tools, skips the nudge; the loop then runs again. */
  function FirstNudge(cfg: Config, m: Machine, x: Input): Machine {
    var o := m.s.once;
    if x.hasCode || (cfg.estimatedSteps <= 3 && !cfg.requiresTools) then
      m.WithOnce(o.(nudgeDone := true, nudgeSkipped := true)).Note(Skipped).Go(Head)
    else AskForTools(cfg, m.WithOnce(o.(nudgeDone := true)), x, NudgeWithTools, Nudge)
  }

  function Stripped(ms: seq<Message>): seq<Message> {
    if ms == [] then []
    else Stripped(ms[..|ms| - 1]) + if ms[|ms| - 1].Synthetic() then [] else [ms[|ms| - 1]]
  }

  /** `break`: an inner loop hands back to the one that waits for it. */
  function Leave(m: Machine): Machine {
    if m.depth == 0 then m.Go(Done) else m.(depth := m.depth - 1, pc := Dispatch)
  }

  function Complete(m: Machine, x: Input): Machine {
    var m1 := m.Remember(x.hooksMessages);
    match x.hooksEnding
    case Interrupted => m1.Go(Head)
    case Faulted => m1.Go(Raised(Fault))
    case Completed => Leave(m1.(chat := m1.chat.(memory := Stripped(m1.chat.memory))))
  }

  function Synthesised(o: Once): Once { o.(synthesisDone := true) }

  /** Last resort before the final answer: ask for tools, and if none come, for one consolidated text. */
  function Consolidate(cfg: Config, m: Machine, x: Input): Machine {
    if Gained(cfg, m.s.toolbox, x) != [] then AskForTools(cfg, m, x, MoreTools, Synthesis)
    else AskForTools(cfg, m.WithOnce(Synthesised(m.s.once)), x, MoreTools, Synthesis)
  }

  function AfterToolWork(cfg: Config, m: Machine, x: Input): Machine {
    var o := m.s.once;
    if m.s.errors.count > 0 && !o.postErrorDone then
      m.WithOnce(o.(postErrorDone := true)).Inject(PostError).Go(Head)
    else if !o.postDescribeDone && (x.described || x.mentioned) then
      m.WithOnce(o.(postDescribeDone := true)).Inject(PostDescribe).Go(Head)
    else if m.s.streamed.chars > 200 then
      Complete(m.WithOnce(Synthesised(o)).Note(Settled), x)
    else
      Consolidate(cfg, m, x)
  }

  function DispatchStep(cfg: Config, m: Machine, x: Input): Machine {
    var o := m.s.once;
    if m.s.work.queue != [] then AfterTools(cfg, m, x)
    else if m.s.research.usingFast then AfterResearch(m, x)
    else if !o.hadTools && !o.nudgeDone && m.s.pace.iterations <= 2 then FirstNudge(cfg, m, x)
    else if o.hadTools && !o.synthesisDone && m.s.research.cycles == 0 && cfg.requiresTools then
      AfterToolWork(cfg, m, x)
    else Complete(m, x)
  }

  // ---- Runs ----

  function Step(cfg: Config, m: Machine, x: Input): Machine {
    match m.pc
    case Head => HeadStep(cfg, m, x)
    case Dispatch => DispatchStep(cfg, m, x)
    case Done => m
    case Raised(_) => m
  }

  function Run(cfg: Config, m: Machine, xs: seq<Input>): Machine {
    if xs == [] then m
    else Step(cfg, Run(cfg, m, xs[..|xs| - 1]), xs[|xs| - 1])
  }
}
