/** A second account of the agent loop, which keeps no counters and no flags: what the loop does next is told by what it
    visibly did before (the calls it made, the replies it got, the tools it ran, the texts it showed, the prompts it
    sent) and by what the environment answers now.  AgentRecall proves that the loop with its private fields does
    exactly this. */
module AgentHistory {
  import opened AgentModel
  import opened AgentRuns

  // ---- What the history tells ----

  /** Replies received; each is an iteration. */
  function Replies(l: Log): nat {
    match l
    case Nothing => 0
    case Then(k, Replied(_)) => Replies(k) + 1
    case Then(k, _) => Replies(k)
  }

  /** The calls of the replies since the last batch. */
  function Pending(l: Log): seq<ToolName> {
    match l
    case Nothing => []
    case Then(k, Replied(calls)) => Pending(k) + calls
    case Then(_, Batch(_, _)) => []
    case Then(k, _) => Pending(k)
  }

  predicate HadTools(l: Log) { l.Then? && (l.event.Batch? || HadTools(l.earlier)) }

  function ResearchCalls(names: seq<ToolName>): nat {
    if names == [] then 0 else Bit(names[0] in RESEARCH_TOOLS) + ResearchCalls(names[1..])
  }

  function Searches(l: Log): nat {
    match l
    case Nothing => 0
    case Then(k, Batch(_, names)) => Searches(k) + ResearchCalls(names)
    case Then(k, _) => Searches(k)
  }

  predicate Happened(l: Log, e: Event) { l.Then? && (l.event == e || Happened(l.earlier, e)) }

  predicate Sent(l: Log, p: Prompt) { Happened(l, Injected(p)) }

  predicate Nudged(l: Log) { Sent(l, Nudge) || Sent(l, NudgeWithTools) || Happened(l, Skipped) }

  /** The final text was asked for, or found in what was shown. */
  predicate Closed(l: Log) { Sent(l, SearchGuard) || Sent(l, Synthesis) || Happened(l, Settled) }

  /** A round of research was handed back to the primary model. */
  predicate HandsBack(e: Event) { e == Injected(HandOff) || e == Injected(Checkpoint) || e == Injected(EnoughResearch) }

  function Cycles(l: Log): nat {
    match l
    case Nothing => 0
    case Then(k, e) => Cycles(k) + Bit(e == Injected(Checkpoint) || e == Injected(EnoughResearch))
  }

  /** The tools of the last batch, unless something has ended that round. */
  function LastTools(l: Log): seq<ToolName> {
    match l
    case Nothing => []
    case Then(k, e) => if e.Batch? then e.names else if HandsBack(e) || e == Retried then [] else LastTools(k)
  }

  predicate Researching(l: Log) { LastTools(l) != [] && forall n <- LastTools(l) :: n in RESEARCH_TOOLS }

  /** How often in a row the fast model's batches have failed, those cut short left out. */
  function FastFailures(l: Log): nat {
    match l
    case Nothing => 0
    case Then(k, Batch(kind, _)) =>
      if kind == Broken then FastFailures(k)
      else if kind == Erred && CallsOf(k).last == Fast then FastFailures(k) + 1
      else 0
    case Then(k, _) => FastFailures(k)
  }

  /** Something has happened after which only the primary model is called. */
  predicate Forced(l: Log) {
    l.Then? &&
    (Forced(l.earlier) || l.event == Retried || l.event == Injected(HandOff) || l.event == Injected(EnoughResearch) ||
     (l.event.Batch? && l.event.kind == Erred && FastFailures(l) >= 3))
  }

  /** The fast model's latest text in this round of research, and how often in a row it has said the same. */
  function LastHash(l: Log): int {
    match l
    case Nothing => 0
    case Then(k, e) => if e.Noted? then e.hash else if HandsBack(e) then 0 else LastHash(k)
  }

  function Repeats(l: Log): nat {
    match l
    case Nothing => 0
    case Then(k, e) =>
      if e.Noted? then (if e.hash == LastHash(k) then Repeats(k) + 1 else 0)
      else if HandsBack(e) then 0
      else Repeats(k)
  }

  /** The fast model is out of the question, whatever tools ran last. */
  predicate Barred(cfg: Config, l: Log) {
    !cfg.dual || Forced(l) || Replies(l) == 0 || (Closed(l) && Cycles(l) == 0)
  }

  /** Calls in a row that came after research tools, counted to eight and then from the start. */
  function ResearchRow(cfg: Config, l: Log): nat {
    match l
    case Nothing => 0
    case Then(k, e) =>
      if HandsBack(e) then 0
      else if !e.Called? || Barred(cfg, k) then ResearchRow(cfg, k)
      else if Researching(k) && Repeats(k) < 2 && ResearchRow(cfg, k) < 8 then ResearchRow(cfg, k) + 1
      else 0
  }

  /** The coming call goes to the fast model. */
  predicate FastDue(cfg: Config, l: Log, contextChars: nat) {
    && !Barred(cfg, l) && Researching(l) && Repeats(l) < 2 && ResearchRow(cfg, l) < 8
    && contextChars / 3 <= 26768
  }

  /** The latest text shown since the last batch, and how much was shown since. */
  function ShownHash(l: Log): int {
    match l
    case Nothing => 0
    case Then(_, Shown(_, h, _)) => h
    case Then(_, Batch(_, _)) => 0
    case Then(k, _) => ShownHash(k)
  }

  function ShownChars(l: Log): nat {
    match l
    case Nothing => 0
    case Then(k, Shown(_, _, n)) => ShownChars(k) + n
    case Then(_, Batch(_, _)) => 0
    case Then(k, _) => ShownChars(k)
  }

  /** Erring batches in a row, modulo five. */
  function ErrorCount(l: Log): nat { ErrorStreak(l).errors % 5 }

  // ---- The story so far ----

  /** Besides the history: memory, where control is, the iteration limit, and the tools in stock. */
  datatype Story = Story(log: Log, chat: Chat, depth: nat, pc: Pc, limit: nat, toolbox: Toolbox)
  {
    function Tell(e: Event): Story { this.(log := Log.Then(log, e)) }

    function Hear(ms: seq<Message>): Story { this.(chat := Chat(chat.memory + ms, chat.arrived + ms)) }

    function Send(p: Prompt): Story { Hear([Control(p)]).Tell(Injected(p)) }

    function Equip(b: Toolbox, n: nat): Story { this.(toolbox := b, limit := n) }

    function Go(p: Pc): Story { this.(pc := p) }
  }

  function Opening(cfg: Config, memory: seq<Message>): Story {
    Story(Nothing, Chat(memory, memory), 0, Head, cfg.limit, Toolbox(cfg.pool, [], {}, 0))
  }

  // ---- One pass through the head ----

  /** Ten more iterations near the limit, up to 200, unless an error is pending. */
  function Room(t: Story): nat {
    if t.limit >= 200 || ErrorCount(t.log) > 0 || t.limit > Replies(t.log) + 2 then t.limit
    else if t.limit > 190 then 200
    else t.limit + 10
  }

  function Listen(t: Story, text: Text, fast: bool): Story {
    if text.length == 0 then t
    else if fast then t.Hear([Plain(text.content, false)]).Tell(Noted(text.hash))
    else if text.length > 100 && ShownHash(t.log) == text.headHash != 0 then t
    else t.Tell(Shown(Primary, text.headHash, text.length))
  }

  /** A reply is taken in whole, its text by way of who spoke, before its ending has its effect. */
  function TakeIn(t: Story, r: Reply, fast: bool): Story
    requires r.Answer?
  {
    var heard := Listen(t.Hear(r.thinking), r.text, fast).Tell(Replied(r.calls)).Hear(r.added);
    match r.ending
    case Completed => heard.Go(Dispatch)
    case Interrupted => heard.(depth := t.depth + 1).Go(Head)
    case Faulted => heard.Go(Raised(Fault))
  }

  function HeadTurn(cfg: Config, t: Story, x: Input): Story {
    if Replies(t.log) >= Room(t) then t.(limit := Room(t)).Go(Raised(LimitReached))
    else
      var fast := FastDue(cfg, t.log, x.contextChars);
      var called := t.(limit := Room(t)).Tell(Called(if fast then Fast else Primary));
      match x.reply
      case Failure => called.Go(Raised(LlmFailure))
      case Overflow => if fast then called.Tell(Retried) else called.Go(Raised(LlmFailure))
      case Answer(_, _, _, _, _) => TakeIn(called, x.reply, fast)
  }

  // ---- The branches ----

  function Warn(t: Story, erred: bool): Story {
    if erred && ErrorCount(t.log) == 0 then t.Send(Stop)
    else if erred && ErrorCount(t.log) == 3 then t.Send(Hint)
    else t
  }

  /** The fast model is told its role, once, before its first research. */
  function Brief(cfg: Config, t: Story): Story {
    if cfg.dual && !Sent(t.log, Executor) && Researching(t.log) then t.Send(Executor) else t
  }

  /** One search at a time, after three: the search model is told to read and to answer, once. */
  function Guard(cfg: Config, t: Story): Story {
    if !cfg.dual && !cfg.requiresTools && Searches(t.log) >= 3 && LastTools(t.log) == ["web_search"]
       && Replies(t.log) >= 2 && !Closed(t.log)
    then t.Send(SearchGuard)
    else t
  }

  /** All the calls that wait are run. */
  function RunAll(t: Story, x: Input): Story {
    var kind := if x.batchEnding != Completed then Broken else if x.batchError then Erred else Clean;
    t.Hear(x.batchMessages).Tell(Batch(kind, Pending(t.log)))
  }

  function BatchTurn(cfg: Config, t: Story, x: Input): Story {
    var ran := RunAll(t, x);
    if x.batchEnding == Faulted then ran.Go(Raised(Fault))
    else Guard(cfg, Brief(cfg, Warn(ran, x.batchEnding == Completed && x.batchError))).Go(Head)
  }

  function ResearchTurn(t: Story, x: Input): Story {
    if x.described || x.mentioned then t.Send(HandOff).Go(Head)
    else if Cycles(t.log) >= 7 then t.Send(EnoughResearch).Go(Head)
    else t.Send(Checkpoint).Go(Head)
  }

  /** The groups asked for that are in stock, each once. */
  function Wanted(pool: seq<Group>, gs: seq<Group>): seq<Group> {
    if gs == [] then []
    else
      var init, g := gs[..|gs| - 1], gs[|gs| - 1];
      Wanted(pool, init) + if g in pool && g !in init then [g] else []
  }

  function Others(pool: seq<Group>, gs: seq<Group>): seq<Group> {
    if pool == [] then [] else (if pool[0] in gs then [] else [pool[0]]) + Others(pool[1..], gs)
  }

  /** The names their extensions list; one that raises is known by its group. */
  function NamesOf(cfg: Config, gs: seq<Group>): seq<ToolName> {
    if gs == [] then []
    else
      var g := gs[|gs| - 1];
      NamesOf(cfg, gs[..|gs| - 1]) +
      if g !in cfg.listings then []
      else if cfg.listings[g].raises then cfg.listings[g].names + [g]
      else cfg.listings[g].names
  }

  function Stock(b: Toolbox, gs: seq<Group>): Toolbox {
    Toolbox(Others(b.pool, gs), b.escalated + gs, b.enabled + (set g <- gs), b.rounds)
  }

  function FromStock(cfg: Config, b: Toolbox, x: Input): seq<Group> {
    if cfg.routed && x.spoke then Wanted(b.pool, x.requested) else []
  }

  /** The third time that tools come, so does all the rest. */
  function Rest(cfg: Config, b: Toolbox, x: Input): seq<Group> {
    if b.rounds >= 2 && NamesOf(cfg, FromStock(cfg, b, x)) != [] then Others(b.pool, FromStock(cfg, b, x)) else []
  }

  function Newcomers(cfg: Config, b: Toolbox, x: Input): seq<ToolName> {
    NamesOf(cfg, FromStock(cfg, b, x)) + NamesOf(cfg, Rest(cfg, b, x))
  }

  function Enlarged(cfg: Config, b: Toolbox, x: Input): Toolbox {
    var enabled := Stock(Stock(b, FromStock(cfg, b, x)), Rest(cfg, b, x));
    if Newcomers(cfg, b, x) == [] then enabled
    else Toolbox(enabled.pool, enabled.escalated, enabled.enabled, b.rounds + 1)
  }

  /** Ask the selector: what it wants and is in stock is enabled; when tools come, a small limit is raised. */
  function EscalateTurn(cfg: Config, t: Story, x: Input, some: Prompt, none: Prompt): Story {
    var names := Newcomers(cfg, t.toolbox, x);
    var equipped := t.Equip(Enlarged(cfg, t.toolbox, x), if names != [] && t.limit < 15 then 20 else t.limit);
    if names == [] then equipped.Send(none).Go(Head) else equipped.Tell(Escalation(names)).Send(some).Go(Head)
  }

  function NudgeTurn(cfg: Config, t: Story, x: Input): Story {
    if x.hasCode || (cfg.estimatedSteps <= 3 && !cfg.requiresTools) then t.Tell(Skipped).Go(Head)
    else EscalateTurn(cfg, t, x, NudgeWithTools, Nudge)
  }

  function Unmarked(ms: seq<Message>): seq<Message> {
    if ms == [] then [] else (if ms[0].Control? || ms[0].marked then [] else [ms[0]]) + Unmarked(ms[1..])
  }

  function EndTurn(t: Story, x: Input): Story {
    var heard := t.Hear(x.hooksMessages);
    match x.hooksEnding
    case Interrupted => heard.Go(Head)
    case Faulted => heard.Go(Raised(Fault))
    case Completed =>
      var clean := heard.(chat := heard.chat.(memory := Unmarked(heard.chat.memory)));
      if t.depth == 0 then clean.Go(Done) else clean.(depth := t.depth - 1).Go(Dispatch)
  }

  function FinishTurn(cfg: Config, t: Story, x: Input): Story {
    if ErrorCount(t.log) > 0 && !Sent(t.log, PostError) then t.Send(PostError).Go(Head)
    else if (x.described || x.mentioned) && !Sent(t.log, PostDescribe) then t.Send(PostDescribe).Go(Head)
    else if ShownChars(t.log) > 200 then EndTurn(t.Tell(Settled), x)
    else EscalateTurn(cfg, t, x, MoreTools, Synthesis)
  }

  function BranchTurn(cfg: Config, t: Story, x: Input): Story {
    var l := t.log;
    if Pending(l) != [] then BatchTurn(cfg, t, x)
    else if CallsOf(l).last == Fast then ResearchTurn(t, x)
    else if !HadTools(l) && !Nudged(l) && Replies(l) <= 2 then NudgeTurn(cfg, t, x)
    else if HadTools(l) && !Closed(l) && Cycles(l) == 0 && cfg.requiresTools then FinishTurn(cfg, t, x)
    else EndTurn(t, x)
  }

  function Turn(cfg: Config, t: Story, x: Input): Story {
    match t.pc
    case Head => HeadTurn(cfg, t, x)
    case Dispatch => BranchTurn(cfg, t, x)
    case Done => t
    case Raised(_) => t
  }

  /** The whole story for a sequence of answers. */
  function Tale(cfg: Config, t: Story, xs: seq<Input>): Story {
    if xs == [] then t else Turn(cfg, Tale(cfg, t, xs[..|xs| - 1]), xs[|xs| - 1])
  }
}
