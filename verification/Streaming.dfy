/** The producer that runs the agent and the consumer that streams its output, interleaved in any way. */
module Streaming {
  import opened IoAdapter

  /** What the client receives.  A comment is dropped by its event parser (section 9.2 of the HTML standard). */
  datatype Event =
    | Role
    | Content(text: string)
    | Reasoning(text: string)
    | Comment(text: string)
    | Finish
    | Metadata
    | DoneMarker

  datatype Settings = Settings(includeReasoning: bool, metadata: bool)

  datatype Problem = NoProblem | Raised(error: string) | Cancelled

  /** The agent's task: at work, past `signal_done`, completed after that, or dropped, when it ends before it has
      reached the code whose `finally` signals. */
  datatype Agent = Working | Signalled | Completed(problem: Problem) | Dropped(problem: Problem)
  {
    predicate Done() { Completed? || Dropped? }

    predicate HasSignalled() { Signalled? || Completed? }
  }

  /** Where the generator is suspended.  `Aborted`: it was left by a cancellation. */
  datatype Client = Opening | Head | Awaiting | Closing | Reporting | Ending | Over | Aborted

  /** Events in the order they were sent, the latest outermost. */
  datatype Events = Silence | Then(earlier: Events, event: Event)

  /** `queued` lists the chunks put so far, `put` and `got` the items put into the queue and taken out of it. */
  datatype State = State(
    agent: Agent, client: Client,
    buffer: seq<Chunk>, queue: seq<Item>,
    queued: seq<Chunk>, put: seq<Item>, got: seq<Item>, sent: Events)

  datatype Move =
    | Output(op: Op)
    | SignalDone
    | Complete(problem: Problem)
    | Drop(problem: Problem)
    | Consume
    | TimeOut

  function FormatChunk(c: Chunk, s: Settings): seq<Event> {
    match c.kind
    case Assistant => [Content(c.text)]
    case Thinking => [if s.includeReasoning then Reasoning(c.text) else Comment("thinking")]
    case Progress => [Comment(if c.run.Label? && c.run.name != "" then c.run.name else "working")]
    case Error => [Content("\n\nError: " + c.text)]
    case Text => []
  }

  function Send(sent: Events, more: seq<Event>): Events { if |more| == 1 then Then(sent, more[0]) else sent }

  function Initial(): State { State(Working, Opening, [], [], [], [], [], Silence) }

  // ---- Steps ----

  function Produce(st: State, op: Op): State {
    var items := Items(Queued(op));
    State(st.agent, st.client, Buffered(st.buffer, op), st.queue + items,
          st.queued + Queued(op), st.put + items, st.got, st.sent)
  }

  function Signal(st: State): State {
    State(Signalled, st.client, st.buffer, st.queue + [Sentinel], st.queued, st.put + [Sentinel], st.got, st.sent)
  }

  function Receive(st: State, s: Settings): State
    requires st.queue != []
  {
    var item := st.queue[0];
    var client := if item.Sentinel? then Closing else Head;
    var sent := if item.Sentinel? then st.sent else Send(st.sent, FormatChunk(item.chunk, s));
    State(st.agent, client, st.buffer, st.queue[1..], st.queued, st.put, st.got + [item], sent)
  }

  function Tell(st: State, client: Client, more: seq<Event>): State {
    st.(client := client, sent := Send(st.sent, more))
  }

  /** The exit at the loop's head: asking a cancelled task for its exception raises the cancellation. */
  function Conclude(st: State, p: Problem): State {
    match p
    case NoProblem => Tell(st, Closing, [])
    case Raised(e) => Tell(st, Closing, [Content("\n\nError: " + e)])
    case Cancelled => Tell(st, Aborted, [])
  }

  /** One step of the generator, from where it is suspended. */
  function Advance(st: State, s: Settings): State {
    match st.client
    case Opening => Tell(st, Head, [Role])
    case Head => if st.agent.Done() && st.queue == [] then Conclude(st, st.agent.problem) else Tell(st, Awaiting, [])
    case Awaiting => if st.queue == [] then st else Receive(st, s)
    case Closing => Tell(st, Reporting, [Finish])
    case Reporting => Tell(st, Ending, if s.metadata then [Metadata] else [])
    case Ending => Tell(st, Over, [DoneMarker])
    case Over => st
    case Aborted => st
  }

  function Apply(st: State, m: Move, s: Settings): State {
    match m
    case Output(op) => if st.agent.Working? then Produce(st, op) else st
    case SignalDone => if st.agent.Working? then Signal(st) else st
    case Complete(p) => if st.agent.Signalled? then st.(agent := Completed(p)) else st
    case Drop(p) => if st.agent.Working? && p != NoProblem then st.(agent := Dropped(p)) else st
    case Consume => Advance(st, s)
    case TimeOut => if st.client.Awaiting? then Tell(st, Head, [Comment("keepalive")]) else st
  }

  function Run(st: State, moves: seq<Move>, s: Settings): State {
    if moves == [] then st else Apply(Run(st, moves[..|moves| - 1], s), moves[|moves| - 1], s)
  }

  // ---- What the client makes of it ----

  function Erase(sent: Events): Events {
    match sent
    case Silence => Silence
    case Then(earlier, e) => if e.Comment? then Erase(earlier) else Then(Erase(earlier), e)
  }

  /** The role, then the data events of the first `n` chunks, comments left out. */
  function Transcript(chunks: seq<Chunk>, n: nat, s: Settings): Events
    requires n <= |chunks|
  {
    if n == 0 then Then(Silence, Role) else Erase(Send(Transcript(chunks, n - 1, s), FormatChunk(chunks[n - 1], s)))
  }

  /** What the agent asked of its I/O object before it signalled or was dropped. */
  function Asked(moves: seq<Move>): seq<Op> {
    if moves == [] then []
    else
      var init, m := moves[..|moves| - 1], moves[|moves| - 1];
      Asked(init) + if m.Output? && AtWork(init) then [m.op] else []
  }

  predicate AtWork(moves: seq<Move>) {
    moves != [] ==>
      var m := moves[|moves| - 1];
      !m.SignalDone? && !(m.Drop? && m.problem != NoProblem) && AtWork(moves[..|moves| - 1])
  }

  /** What the client is told, by what was asked: each answer, stripped, unless nothing is left of it; each error; the
      thoughts, if it asked for them; and nothing else. */
  ghost function Script(ops: seq<Op>, s: Settings): Events {
    if ops == [] then Then(Silence, Role)
    else
      var told := Script(ops[..|ops| - 1], s);
      match ops[|ops| - 1]
      case Ai(t) => if Strip(t) == "" then told else Then(told, Content(Strip(t)))
      case Fail(t) => Then(told, Content("\n\nError: " + t))
      case System(t, _, l) => if Thought(l) && s.includeReasoning then Then(told, Reasoning(t)) else told
      case Print(_) => told
      case Log(_) => told
      case ClearResponse => told
      case Clear => told
  }

  function WithMetadata(sent: Events, s: Settings): Events { if s.metadata then Then(sent, Metadata) else sent }

  predicate Streams(c: Client) { c.Opening? || c.Head? || c.Awaiting? }

  /** A task that was dropped is reported. */
  function WithError(sent: Events, a: Agent): Events {
    if a.Dropped? && a.problem.Raised? then Then(sent, Content("\n\nError: " + a.problem.error)) else sent
  }

  /** The data events to expect, with `n` chunks delivered. */
  function Expected(c: Client, a: Agent, chunks: seq<Chunk>, n: nat, s: Settings): Events
    requires n <= |chunks|
  {
    var body := Transcript(chunks, n, s);
    match c
    case Opening => Silence
    case Head => body
    case Awaiting => body
    case Closing => WithError(body, a)
    case Reporting => Then(WithError(body, a), Finish)
    case Ending => WithMetadata(Then(WithError(body, a), Finish), s)
    case Over => Then(WithMetadata(Then(WithError(body, a), Finish), s), DoneMarker)
    case Aborted => body
  }

  /** The client sees answers and errors, and thoughts if it asked for them, with their text; nothing else. */
  predicate Shows(e: Event, c: Chunk) {
    match c.kind
    case Assistant => e == Content(c.text)
    case Thinking => e == Reasoning(c.text)
    case Error => e.Content? && |c.text| <= |e.text| && e.text[|e.text| - |c.text|..] == c.text
    case Progress => false
    case Text => false
  }

  lemma {:induction false} VisibleExactly(c: Chunk, s: Settings)
    ensures var seen := Erase(Send(Silence, FormatChunk(c, s)));
      if c.kind.Assistant? || c.kind.Error? || (c.kind.Thinking? && s.includeReasoning)
      then seen.Then? && seen.earlier == Silence && Shows(seen.event, c)
      else seen == Silence
  {
    if c.kind.Error? { assert ("\n\nError: " + c.text)[9..] == c.text; }
  }

  // ---- What every step keeps ----

  /** First in, first out. */
  ghost predicate Fifo(st: State) { st.got + st.queue == st.put }

  /** Chunks only, and after the signal one sentinel at the end. */
  ghost predicate Framed(st: State) {
    && |st.put| == |st.queued| + (if st.agent.HasSignalled() then 1 else 0)
    && (forall i :: 0 <= i < |st.queued| ==> st.put[i] == Out(st.queued[i]))
    && (st.agent.HasSignalled() ==> st.put[|st.queued|] == Sentinel)
  }

  /** The generator leaves its loop by taking the sentinel or, when the task was dropped, with the queue drained. */
  ghost predicate Placed(st: State) {
    && (Streams(st.client) ==> |st.got| <= |st.queued|)
    && (!Streams(st.client) && st.agent.Dropped? ==> |st.got| == |st.queued|)
    && (!Streams(st.client) && !st.agent.Dropped? ==> st.agent.HasSignalled() && |st.got| == |st.queued| + 1)
    && (st.client.Opening? ==> st.got == [])
    && (st.agent.Dropped? ==> st.agent.problem != NoProblem)
    && (st.client.Aborted? ==> st.agent == Dropped(Cancelled))
    && (st.agent == Dropped(Cancelled) ==> Streams(st.client) || st.client.Aborted?)
  }

  function Delivered(st: State): (n: nat)
    ensures n <= |st.queued|
  {
    if |st.got| <= |st.queued| then |st.got| else |st.queued|
  }

  ghost predicate Told(st: State, s: Settings) {
    Erase(st.sent) == Expected(st.client, st.agent, st.queued, Delivered(st), s)
  }

  ghost predicate Mirrors(st: State) { Suffix(Only(st.buffer, Assistant), Only(st.queued, Assistant)) }

  ghost predicate Inv(st: State, s: Settings) {
    Fifo(st) && Framed(st) && Placed(st) && Told(st, s) && Mirrors(st)
  }

  // ---- The agent's steps ----

  lemma {:induction false} TranscriptGrows(chunks: seq<Chunk>, more: seq<Chunk>, n: nat, s: Settings)
    requires n <= |chunks|
    ensures Transcript(chunks + more, n, s) == Transcript(chunks, n, s)
    decreases n
  {
    if n == 0 {
    } else {
      TranscriptGrows(chunks, more, n - 1, s);
    }
  }

  lemma {:induction false} ProduceKeepsQueue(st: State, op: Op)
    requires Fifo(st) && Framed(st) && st.agent.Working?
    ensures Fifo(Produce(st, op)) && Framed(Produce(st, op))
  {
    var items := Items(Queued(op));
    assert st.got + (st.queue + items) == st.put + items;
  }

  lemma {:induction false} ProduceKeepsTold(st: State, op: Op, s: Settings)
    requires Placed(st) && Told(st, s) && st.agent.Working?
    ensures Placed(Produce(st, op)) && Told(Produce(st, op), s)
  {
    assert |st.got| <= |st.queued|;
    TranscriptGrows(st.queued, Queued(op), |st.got|, s);
  }

  lemma {:induction false} SignalKeepsQueue(st: State)
    requires Fifo(st) && Framed(st) && st.agent.Working?
    ensures Fifo(Signal(st)) && Framed(Signal(st))
  {
    assert st.got + (st.queue + [Sentinel]) == st.put + [Sentinel];
  }

  // ---- The generator's steps ----

  /** What comes next is the next chunk, or the sentinel when there is none. */
  lemma {:induction false} NextItem(st: State)
    requires Fifo(st) && Framed(st) && st.queue != []
    ensures |st.got| < |st.put| && st.queue[0] == st.put[|st.got|]
    ensures |st.got| < |st.queued| ==> st.queue[0] == Out(st.queued[|st.got|])
    ensures |st.got| == |st.queued| ==> st.queue[0] == Sentinel && st.agent.HasSignalled()
  {
    assert st.put[|st.got|] == st.queue[0];
  }

  /** Until the sentinel is taken, something waits once the agent has signalled. */
  lemma {:induction false} SignalledWaits(st: State)
    requires Fifo(st) && Framed(st) && Placed(st) && Streams(st.client) && st.agent.HasSignalled()
    ensures st.queue != []
  {
    assert |st.got| + |st.queue| == |st.put|;
  }

  lemma {:induction false} ReceiveKeepsQueue(st: State, s: Settings)
    requires Fifo(st) && Framed(st) && st.queue != []
    ensures Fifo(Receive(st, s)) && Framed(Receive(st, s))
  {
    assert st.queue == [st.queue[0]] + st.queue[1..];
  }

  lemma {:induction false} EraseSend(sent: Events, more: seq<Event>)
    ensures Erase(Send(sent, more)) == Erase(Send(Erase(sent), more))
  {
    EraseTwice(sent);
  }

  lemma {:induction false} EraseTwice(sent: Events)
    ensures Erase(Erase(sent)) == Erase(sent)
    decreases sent
  {
    if sent.Then? { EraseTwice(sent.earlier); }
  }

  lemma {:induction false} ReceiveKeepsTold(st: State, s: Settings)
    requires Fifo(st) && Framed(st) && Placed(st) && Told(st, s) && st.client.Awaiting? && st.queue != []
    ensures Placed(Receive(st, s)) && Told(Receive(st, s), s)
  {
    NextItem(st);
    if |st.got| < |st.queued| { EraseSend(st.sent, FormatChunk(st.queued[|st.got|], s)); }
  }

  /** The check at the loop's head finds the agent done and the queue empty only when the task was dropped: otherwise
      the sentinel was put before the task completed, and taking it leaves the loop. */
  lemma {:induction false} HeadExitMeansDropped(st: State, s: Settings)
    requires Inv(st, s) && Streams(st.client) && st.agent.Done() && st.queue == []
    ensures st.agent.Dropped? && |st.got| == |st.queued|
  {
    if st.agent.Completed? { SignalledWaits(st); } else { assert |st.got| + |st.queue| == |st.put|; }
  }

  /** Nothing but the place of the generator and what it has sent differs. */
  ghost predicate SameQueue(st: State, st': State) {
    && st'.agent == st.agent && st'.buffer == st.buffer && st'.queue == st.queue
    && st'.queued == st.queued && st'.put == st.put && st'.got == st.got
  }

  lemma {:induction false} TellingKeeps(st: State, st': State, s: Settings)
    requires Inv(st, s) && SameQueue(st, st') && Placed(st') && Told(st', s)
    ensures Inv(st', s)
  {
  }

  lemma {:induction false} AdvanceKeeps(st: State, s: Settings)
    requires Inv(st, s)
    ensures Inv(Advance(st, s), s)
  {
    if st.client.Awaiting? && st.queue != [] {
      ReceiveKeepsQueue(st, s);
      ReceiveKeepsTold(st, s);
    } else {
      if st.client.Head? && st.agent.Done() && st.queue == [] {
        HeadExitMeansDropped(st, s);
        ConcludeKeeps(st, s);
      } else {
        TellKeeps(st, s);
      }
      TellingKeeps(st, Advance(st, s), s);
    }
  }

  lemma {:induction false} ConcludeKeeps(st: State, s: Settings)
    requires Placed(st) && Told(st, s) && st.client.Head? && st.agent.Dropped? && |st.got| == |st.queued|
    ensures Placed(Conclude(st, st.agent.problem)) && Told(Conclude(st, st.agent.problem), s)
  {
  }

  lemma {:induction false} TellKeeps(st: State, s: Settings)
    requires Placed(st) && Told(st, s) && !(st.client.Awaiting? && st.queue != [])
    requires !(st.client.Head? && st.agent.Done() && st.queue == [])
    ensures Placed(Advance(st, s)) && Told(Advance(st, s), s)
  {
  }

  lemma {:induction false} StepKeeps(st: State, m: Move, s: Settings)
    requires Inv(st, s)
    ensures Inv(Apply(st, m, s), s)
  {
    match m
    case Output(op) =>
      if st.agent.Working? {
        ProduceKeepsQueue(st, op);
        ProduceKeepsTold(st, op, s);
        EmitKeepsSuffix(st.buffer, st.queued, op);
      }
    case SignalDone => if st.agent.Working? { SignalKeepsQueue(st); }
    case Complete(_) =>
    case Drop(_) =>
    case Consume => AdvanceKeeps(st, s);
    case TimeOut =>
  }

  lemma {:induction false} RunKeeps(moves: seq<Move>, s: Settings)
    ensures Inv(Run(Initial(), moves, s), s)
    decreases |moves|
  {
    if moves == [] {
    } else {
      RunKeeps(moves[..|moves| - 1], s);
      StepKeeps(Run(Initial(), moves[..|moves| - 1], s), moves[|moves| - 1], s);
    }
  }

  // ---- What was asked is what is told ----

  lemma {:induction false} AtWorkExactly(moves: seq<Move>, s: Settings)
    ensures Run(Initial(), moves, s).agent.Working? <==> AtWork(moves)
    decreases |moves|
  {
    if moves == [] {
    } else {
      var init, m := moves[..|moves| - 1], moves[|moves| - 1];
      AtWorkExactly(init, s);
      if m.Consume? { AdvanceLeavesAgent(Run(Initial(), init, s), s); }
    }
  }

  lemma {:induction false} TranscriptIsErased(chunks: seq<Chunk>, n: nat, s: Settings)
    requires n <= |chunks|
    ensures Erase(Transcript(chunks, n, s)) == Transcript(chunks, n, s)
  {
    if n > 0 { EraseTwice(Send(Transcript(chunks, n - 1, s), FormatChunk(chunks[n - 1], s))); }
  }

  /** One more operation adds what the script says. */
  lemma {:induction false} OneMoreTold(chunks: seq<Chunk>, ops: seq<Op>, op: Op, s: Settings)
    requires Transcript(chunks, |chunks|, s) == Script(ops, s)
    ensures var more := chunks + Queued(op); Transcript(more, |more|, s) == Script(ops + [op], s)
  {
    assert (ops + [op])[..|ops|] == ops;
    TranscriptIsErased(chunks, |chunks|, s);
    if Queued(op) == [] {
      assert chunks + [] == chunks;
    } else {
      TranscriptGrows(chunks, Queued(op), |chunks|, s);
      if op.System? { SystemKindExactly(op.hasStatus, op.run); }
    }
  }

  lemma {:induction false} TranscriptIsScript(moves: seq<Move>, s: Settings)
    ensures var st := Run(Initial(), moves, s);
      && st.buffer == BufferAfter(Asked(moves))
      && Transcript(st.queued, |st.queued|, s) == Script(Asked(moves), s)
    decreases |moves|
  {
    if moves == [] {
    } else {
      var init, m := moves[..|moves| - 1], moves[|moves| - 1];
      var st := Run(Initial(), init, s);
      TranscriptIsScript(init, s);
      AtWorkExactly(init, s);
      if m.Output? && st.agent.Working? {
        OneMoreTold(st.queued, Asked(init), m.op, s);
        assert (Asked(init) + [m.op])[..|Asked(init)|] == Asked(init);
      } else {
        assert Asked(init) + [] == Asked(init);
        QuietStep(st, m, s);
      }
    }
  }

  lemma {:induction false} QuietStep(st: State, m: Move, s: Settings)
    requires m.Output? ==> !st.agent.Working?
    ensures Apply(st, m, s).queued == st.queued && Apply(st, m, s).buffer == st.buffer
  {
  }

  // ---- Main results, over every interleaving ----

  /** Nothing is lost, repeated or reordered: what was delivered, followed by what waits, is what was put. */
  lemma {:induction false} DeliveredThenQueued(moves: seq<Move>, s: Settings)
    ensures var st := Run(Initial(), moves, s); st.got + st.queue == st.put
  {
    RunKeeps(moves, s);
  }

  /** A finished stream tells what the agent asked for, in order: the role, each answer that is not blank, each error
      and, if wanted, each thought; then the error exactly if the task raised before it could signal, the finish, the
      metadata if there is any, and the terminal marker. */
  lemma {:induction false} FinishedStream(moves: seq<Move>, s: Settings)
    requires Run(Initial(), moves, s).client.Over?
    ensures var st := Run(Initial(), moves, s);
      && st.queue == []
      && Erase(st.sent) ==
        Then(WithMetadata(Then(WithError(Script(Asked(moves), s), st.agent), Finish), s), DoneMarker)
  {
    RunKeeps(moves, s);
    TranscriptIsScript(moves, s);
    OverTells(Run(Initial(), moves, s), s);
  }

  lemma {:induction false} OverTells(st: State, s: Settings)
    requires Inv(st, s) && st.client.Over?
    ensures st.queue == []
    ensures Erase(st.sent) ==
      Then(WithMetadata(Then(WithError(Transcript(st.queued, |st.queued|, s), st.agent), Finish), s), DoneMarker)
  {
    assert |st.got| + |st.queue| == |st.put|;
  }

  /** The response and the thoughts collected meanwhile are those asked for, and not cleared since. */
  lemma {:induction false} CollectedIsAsked(moves: seq<Move>, s: Settings, kind: ChunkType)
    ensures Texts(Only(Run(Initial(), moves, s).buffer, kind)) == Said(Asked(moves), kind)
  {
    TranscriptIsScript(moves, s);
    BufferSays(Asked(moves), kind);
  }

  /** The exit at the loop's head is taken exactly for a task that ended without signalling, once the queue is
      drained; a failure after the signal is not reported. */
  lemma {:induction false} FailureExitExactly(moves: seq<Move>, s: Settings)
    ensures var st := Run(Initial(), moves, s);
      st.client.Head? ==> (st.agent.Done() && st.queue == [] <==> st.agent.Dropped? && st.queue == [])
    ensures var st := Run(Initial(), moves, s);
      st.client.Head? && st.agent.Dropped? && st.queue == [] ==>
        Advance(st, s).client == (if st.agent.problem.Cancelled? then Aborted else Closing) &&
        Erase(Advance(st, s).sent) == WithError(Script(Asked(moves), s), st.agent)
  {
    RunKeeps(moves, s);
    TranscriptIsScript(moves, s);
    var st := Run(Initial(), moves, s);
    if st.client.Head? && st.agent.Done() && st.queue == [] {
      HeadExitMeansDropped(st, s);
      ConcludeKeeps(st, s);
    }
  }

  /** The response collected from the buffer is a suffix of the response streamed. */
  lemma {:induction false} BufferIsSuffix(moves: seq<Move>, s: Settings)
    ensures var st := Run(Initial(), moves, s); Suffix(Only(st.buffer, Assistant), Only(st.queued, Assistant))
  {
    RunKeeps(moves, s);
  }

  // ---- The stream ends ----

  /** The client's next step: one that waits for an empty queue times out. */
  function Proceed(st: State, s: Settings): State {
    if st.client.Awaiting? && st.queue == [] then Apply(st, TimeOut, s) else Advance(st, s)
  }

  function Steps(st: State, s: Settings, n: nat): State { if n == 0 then st else Proceed(Steps(st, s, n - 1), s) }

  predicate Finished(c: Client) { c.Over? || c.Aborted? }

  /** Steps the client needs at most once the agent works no more. */
  function Left(st: State): nat {
    match st.client
    case Opening => 2 * |st.queue| + 6
    case Head => 2 * |st.queue| + 4
    case Awaiting => if st.queue == [] then 5 else 2 * |st.queue| + 3
    case Closing => 3
    case Reporting => 2
    case Ending => 1
    case Over => 0
    case Aborted => 0
  }

  lemma {:induction false} ProceedKeeps(st: State, s: Settings)
    requires Inv(st, s)
    ensures Inv(Proceed(st, s), s) && Proceed(st, s).agent == st.agent
  {
    if st.client.Awaiting? && st.queue == [] {
      StepKeeps(st, TimeOut, s);
    } else {
      AdvanceKeeps(st, s);
      AdvanceLeavesAgent(st, s);
    }
  }

  lemma {:induction false} AdvanceLeavesAgent(st: State, s: Settings)
    ensures Advance(st, s).agent == st.agent
  {
  }

  lemma {:induction false} ProceedProgresses(st: State, s: Settings)
    requires Fifo(st) && Framed(st) && Placed(st) && !st.agent.Working?
    ensures Left(Proceed(st, s)) < Left(st) || Finished(st.client)
  {
    if Streams(st.client) && st.agent.HasSignalled() { SignalledWaits(st); }
  }

  lemma {:induction false} StepsCount(st: State, s: Settings, n: nat)
    requires Inv(st, s) && !st.agent.Working?
    ensures var end := Steps(st, s, n);
      Inv(end, s) && end.agent == st.agent && (n + Left(end) <= Left(st) || Finished(end.client))
    decreases n
  {
    if n == 0 {
    } else {
      var before := Steps(st, s, n - 1);
      StepsCount(st, s, n - 1);
      ProceedKeeps(before, s);
      ProceedProgresses(before, s);
      FinishedStays(before, s);
    }
  }

  lemma {:induction false} FinishedStays(st: State, s: Settings)
    ensures Finished(st.client) ==> Proceed(st, s) == st
  {
  }

  lemma {:induction false} NothingLeft(st: State, s: Settings)
    requires Placed(st) && !st.agent.Working? && (Left(st) == 0 || Finished(st.client))
    ensures st.client == if st.agent == Dropped(Cancelled) then Aborted else Over
  {
  }

  /** Once the agent has signalled or its task was dropped, the stream ends within a number of client steps that only
      the queue's length bounds; it is aborted exactly when the task was cancelled before it could signal. */
  lemma {:induction false} StreamEnds(st: State, s: Settings, n: nat)
    requires Inv(st, s) && !st.agent.Working? && n >= Left(st)
    ensures Left(st) <= 2 * |st.queue| + 6
    ensures Steps(st, s, n).client == if st.agent == Dropped(Cancelled) then Aborted else Over
    ensures Inv(Steps(st, s, n), s)
  {
    StepsCount(st, s, n);
    NothingLeft(Steps(st, s, n), s);
  }
}
