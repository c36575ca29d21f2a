/** The I/O object of a request: every piece of output goes into a buffer and, when the client streams, into a queue. */
module IoAdapter {

  datatype ChunkType = Assistant | Thinking | Progress | Error | Text

  datatype Label = NoLabel | Label(name: string)

  datatype Chunk = Chunk(text: string, kind: ChunkType, run: Label)

  /** What the queue carries: a chunk, or the sentinel that says the agent is done. */
  datatype Item = Out(chunk: Chunk) | Sentinel

  /** What the agent may ask of its I/O object.  An `Ai` text has had its leaked tool-call XML removed. */
  datatype Op =
    | Print(text: string)
    | Ai(text: string)
    | System(text: string, hasStatus: bool, run: Label)
    | Fail(text: string)
    | Log(text: string)
    | ClearResponse
    | Clear

  // ---- What each operation writes ----

  predicate Space(c: char) { c == ' ' || ('\t' <= c <= '\r') || ('\U{001c}' <= c <= '\U{001f}') }

  function StripLeft(s: string): string { if s != "" && Space(s[0]) then StripLeft(s[1..]) else s }

  function StripRight(s: string): string {
    if s != "" && Space(s[|s| - 1]) then StripRight(s[..|s| - 1]) else s
  }

  function Strip(s: string): string { StripRight(StripLeft(s)) }

  function Lower(c: char): char { if 'A' <= c <= 'Z' then (c as int + 32) as char else c }

  /** "think" stands at position `i`, in any mixture of cases. */
  predicate ThinkAt(s: string, i: nat) {
    i + 5 <= |s| && Lower(s[i]) == 't' && Lower(s[i + 1]) == 'h' && Lower(s[i + 2]) == 'i' &&
    Lower(s[i + 3]) == 'n' && Lower(s[i + 4]) == 'k'
  }

  predicate SaysThink(s: string) { s != "" && (ThinkAt(s, 0) || SaysThink(s[1..])) }

  function SystemKind(hasStatus: bool, run: Label): ChunkType {
    if run.Label? && SaysThink(run.name) then Thinking else if hasStatus then Progress else Text
  }

  /** The chunk an operation produces, if any. */
  function Produced(op: Op): seq<Chunk> {
    match op
    case Print(t) => [Chunk(t, Text, NoLabel)]
    case Ai(t) => if Strip(t) == "" then [] else [Chunk(Strip(t), Assistant, NoLabel)]
    case System(t, status, l) => [Chunk(t, SystemKind(status, l), l)]
    case Fail(t) => [Chunk(t, Error, NoLabel)]
    case Log(t) => [Chunk(t, Text, NoLabel)]
    case ClearResponse => []
    case Clear => []
  }

  /** Logs are buffered only. */
  function Queued(op: Op): seq<Chunk> { if op.Log? then [] else Produced(op) }

  function Items(chunks: seq<Chunk>): seq<Item> { seq(|chunks|, i requires 0 <= i < |chunks| => Out(chunks[i])) }

  function Only(chunks: seq<Chunk>, kind: ChunkType): seq<Chunk> {
    if chunks == [] then []
    else Only(chunks[..|chunks| - 1], kind) + if chunks[|chunks| - 1].kind == kind then [chunks[|chunks| - 1]] else []
  }

  function Without(chunks: seq<Chunk>, kind: ChunkType): seq<Chunk> {
    if chunks == [] then []
    else
      var last := chunks[|chunks| - 1];
      Without(chunks[..|chunks| - 1], kind) + if last.kind != kind then [last] else []
  }

  function Buffered(buffer: seq<Chunk>, op: Op): seq<Chunk> {
    match op
    case ClearResponse => Without(buffer, Assistant)
    case Clear => []
    case _ => buffer + Produced(op)
  }

  function Texts(chunks: seq<Chunk>): seq<string> {
    if chunks == [] then [] else Texts(chunks[..|chunks| - 1]) + [chunks[|chunks| - 1].text]
  }

  function JoinLines(parts: seq<string>): string {
    if parts == [] then "" else if |parts| == 1 then parts[0]
    else JoinLines(parts[..|parts| - 1]) + "\n" + parts[|parts| - 1]
  }

  // ---- What was asked, and what is to be read back ----

  function BufferAfter(ops: seq<Op>): seq<Chunk> {
    if ops == [] then [] else Buffered(BufferAfter(ops[..|ops| - 1]), ops[|ops| - 1])
  }

  function Lowered(s: string): string { seq(|s|, i requires 0 <= i < |s| => Lower(s[i])) }

  /** The label says "think" somewhere, in any mixture of cases. */
  ghost predicate Thought(run: Label) { run.Label? && exists i: nat :: SpellsThink(run.name, i) }

  predicate SpellsThink(s: string, i: nat) { i + 5 <= |s| && Lowered(s[i..i + 5]) == "think" }

  /** The part an operation adds to the response, the thoughts, the progress, the errors or the plain text. */
  ghost function Added(op: Op, kind: ChunkType): seq<string> {
    match op
    case Ai(t) => if kind == Assistant && Strip(t) != "" then [Strip(t)] else []
    case Fail(t) => if kind == Error then [t] else []
    case System(t, status, l) =>
      if kind == (if Thought(l) then Thinking else if status then Progress else Text) then [t] else []
    case Print(t) => if kind == Text then [t] else []
    case Log(t) => if kind == Text then [t] else []
    case ClearResponse => []
    case Clear => []
  }

  /** The texts of one kind that were asked for and not cleared since. */
  ghost function Said(ops: seq<Op>, kind: ChunkType): seq<string> {
    if ops == [] then []
    else
      var op := ops[|ops| - 1];
      if op.Clear? || (op.ClearResponse? && kind == Assistant) then []
      else Said(ops[..|ops| - 1], kind) + Added(op, kind)
  }

  /** The object itself.  `streamQueue` is absent when the client does not stream; `asked` lists what was asked of
      it. */
  class HttpIOInterface {
    var buffer: seq<Chunk>
    const streaming: bool
    var streamQueue: seq<Item>
    ghost var asked: seq<Op>

    ghost predicate Valid()
      reads this
    {
      buffer == BufferAfter(asked)
    }

    constructor (streaming: bool)
      ensures buffer == [] && streamQueue == [] && this.streaming == streaming
      ensures Valid() && asked == []
    {
      buffer, streamQueue, this.streaming, asked := [], [], streaming, [];
    }

    method Append(chunk: Chunk)
      modifies this`buffer, this`streamQueue
      ensures buffer == old(buffer) + [chunk]
      ensures streamQueue == old(streamQueue) + if streaming then [Out(chunk)] else []
    {
      buffer := buffer + [chunk];
      if streaming { streamQueue := streamQueue + [Out(chunk)]; }
    }

    method Emit(op: Op)
      requires Valid()
      modifies this
      ensures Valid() && asked == old(asked) + [op]
      ensures buffer == Buffered(old(buffer), op)
      ensures streamQueue == old(streamQueue) + if streaming then Items(Queued(op)) else []
      ensures forall kind :: Texts(Only(buffer, kind)) == Said(old(asked) + [op], kind)
      ensures op.Log? || op.Clear? || op.ClearResponse? || !streaming ==> streamQueue == old(streamQueue)
    {
      asked := asked + [op];
      Write(op);
      assert asked[..|asked| - 1] == old(asked);
      BufferSaysAll(asked);
    }

    method Write(op: Op)
      modifies this`buffer, this`streamQueue
      ensures buffer == Buffered(old(buffer), op)
      ensures streamQueue == old(streamQueue) + if streaming then Items(Queued(op)) else []
    {
      match op
      case Print(t) => Append(Chunk(t, Text, NoLabel));
      case Ai(t) =>
        var text := Strip(t);
        if text == "" { return; }
        Append(Chunk(text, Assistant, NoLabel));
      case System(t, status, l) =>
        var kind := Text;
        if l.Label? && SaysThink(l.name) {
          kind := Thinking;
        } else if status {
          kind := Progress;
        }
        Append(Chunk(t, kind, l));
      case Fail(t) => Append(Chunk(t, Error, NoLabel));
      case Log(t) => buffer := buffer + [Chunk(t, Text, NoLabel)];
      case ClearResponse => ClearResponseText();
      case Clear => buffer := [];
    }

    method ClearResponseText()
      modifies this`buffer
      ensures buffer == Without(old(buffer), Assistant)
    {
      var kept: seq<Chunk> := [];
      for i := 0 to |buffer|
        invariant kept == Without(buffer[..i], Assistant)
        invariant buffer == old(buffer)
      {
        assert buffer[..i + 1][..i] == buffer[..i];
        if buffer[i].kind != Assistant { kept := kept + [buffer[i]]; }
      }
      assert buffer[..|buffer|] == buffer;
      buffer := kept;
    }

    method SignalDone()
      modifies this`streamQueue
      ensures streamQueue == old(streamQueue) + if streaming then [Sentinel] else []
    {
      if streaming { streamQueue := streamQueue + [Sentinel]; }
    }

    /** The texts of one kind that were asked for since they were cleared, one a line. */
    method TextOf(kind: ChunkType) returns (text: string)
      requires Valid()
      ensures text == JoinLines(Said(asked, kind))
    {
      var parts := Parts(kind);
      BufferSays(asked, kind);
      text := JoinLines(parts);
    }

    method Parts(kind: ChunkType) returns (parts: seq<string>)
      ensures parts == Texts(Only(buffer, kind))
    {
      parts := [];
      for i := 0 to |buffer|
        invariant parts == Texts(Only(buffer[..i], kind))
      {
        FirstOfMore(buffer, i);
        OneMoreChunk(buffer[..i], buffer[i], kind);
        if buffer[i].kind == kind { parts := parts + [buffer[i].text]; }
      }
      assert buffer[..|buffer|] == buffer;
    }
  }

  lemma {:induction false} FirstOfMore(chunks: seq<Chunk>, i: nat)
    requires i < |chunks|
    ensures chunks[..i + 1] == chunks[..i] + [chunks[i]]
  {
  }

  // ---- What the text tests mean ----

  lemma {:induction false} StripLeftTrims(s: string) returns (a: string)
    ensures s == a + StripLeft(s) && (forall c <- a :: Space(c))
    ensures StripLeft(s) != "" ==> !Space(StripLeft(s)[0])
    decreases |s|
  {
    a := "";
    if s != "" && Space(s[0]) {
      var rest := StripLeftTrims(s[1..]);
      a := [s[0]] + rest;
    }
  }

  lemma {:induction false} StripRightTrims(s: string) returns (b: string)
    ensures s == StripRight(s) + b && (forall c <- b :: Space(c))
    ensures StripRight(s) != "" ==> !Space(StripRight(s)[|StripRight(s)| - 1])
    decreases |s|
  {
    b := "";
    if s != "" && Space(s[|s| - 1]) {
      var rest := StripRightTrims(s[..|s| - 1]);
      b := rest + [s[|s| - 1]];
    }
  }

  /** Stripping takes whitespace off both ends, and all of it. */
  lemma {:induction false} StripTrims(s: string) returns (a: string, b: string)
    ensures s == a + Strip(s) + b && (forall c <- a + b :: Space(c))
    ensures Strip(s) != "" ==> !Space(Strip(s)[0]) && !Space(Strip(s)[|Strip(s)| - 1])
  {
    a := StripLeftTrims(s);
    b := StripRightTrims(StripLeft(s));
  }

  /** A system message is a thought exactly when its label says so somewhere, and progress exactly when it has a
      status and is no thought. */
  lemma {:induction false} SystemKindExactly(hasStatus: bool, run: Label)
    ensures SystemKind(hasStatus, run) == if Thought(run) then Thinking else if hasStatus then Progress else Text
  {
    if run.Label? {
      SaysThinkExactly(run.name);
      forall i: nat ensures ThinkAt(run.name, i) <==> SpellsThink(run.name, i) { ThinkAtSpells(run.name, i); }
    }
  }

  lemma {:induction false} ThinkAtSpells(s: string, i: nat)
    ensures ThinkAt(s, i) <==> SpellsThink(s, i)
  {
    if i + 5 <= |s| {
      var word := Lowered(s[i..i + 5]);
      assert word == [Lower(s[i]), Lower(s[i + 1]), Lower(s[i + 2]), Lower(s[i + 3]), Lower(s[i + 4])];
      assert word == "think" <==>
        word[0] == 't' && word[1] == 'h' && word[2] == 'i' && word[3] == 'n' && word[4] == 'k';
    }
  }

  lemma {:induction false} SaysThinkExactly(s: string)
    ensures SaysThink(s) <==> exists i: nat :: ThinkAt(s, i)
    decreases |s|
  {
    if s == "" {
    } else {
      SaysThinkExactly(s[1..]);
      if SaysThink(s[1..]) {
        var i: nat :| ThinkAt(s[1..], i);
        assert ThinkAt(s, i + 1);
      }
      if exists i: nat :: ThinkAt(s, i) {
        var i: nat :| ThinkAt(s, i);
        if i > 0 { assert ThinkAt(s[1..], i - 1); }
      }
    }
  }

  // ---- The buffer against everything produced ----

  lemma {:induction false} OnlyConcat(a: seq<Chunk>, b: seq<Chunk>, kind: ChunkType)
    ensures Only(a + b, kind) == Only(a, kind) + Only(b, kind)
    decreases |b|
  {
    if b == [] {
      assert a + b == a;
    } else {
      assert (a + b)[..|a + b| - 1] == a + b[..|b| - 1];
      OnlyConcat(a, b[..|b| - 1], kind);
    }
  }

  lemma {:induction false} OnlyWithout(chunks: seq<Chunk>, kind: ChunkType, other: ChunkType)
    ensures Only(Without(chunks, other), kind) == if kind == other then [] else Only(chunks, kind)
    decreases |chunks|
  {
    if chunks == [] {
    } else {
      var init, last := chunks[..|chunks| - 1], chunks[|chunks| - 1];
      OnlyWithout(init, kind, other);
      OnlyConcat(Without(init, other), if last.kind != other then [last] else [], kind);
      assert [last][..0] == [];
    }
  }

  lemma {:induction false} TextsConcat(a: seq<Chunk>, b: seq<Chunk>)
    ensures Texts(a + b) == Texts(a) + Texts(b)
    decreases |b|
  {
    if b == [] {
      assert a + b == a;
    } else {
      assert (a + b)[..|a + b| - 1] == a + b[..|b| - 1];
      TextsConcat(a, b[..|b| - 1]);
    }
  }

  lemma {:induction false} ProducedSays(op: Op, kind: ChunkType)
    ensures Texts(Only(Produced(op), kind)) == Added(op, kind)
  {
    if op.System? { SystemKindExactly(op.hasStatus, op.run); }
    if Produced(op) != [] { OneSays(Produced(op)[0], kind); }
  }

  lemma {:induction false} OneSays(c: Chunk, kind: ChunkType)
    ensures Texts(Only([c], kind)) == if c.kind == kind then [c.text] else []
  {
    assert [c][..0] == [];
    assert Only([c], kind) == if c.kind == kind then [c] else [];
  }

  lemma {:induction false} OneMoreChunk(chunks: seq<Chunk>, c: Chunk, kind: ChunkType)
    ensures Texts(Only(chunks + [c], kind)) ==
      Texts(Only(chunks, kind)) + if c.kind == kind then [c.text] else []
  {
    OnlyConcat(chunks, [c], kind);
    TextsConcat(Only(chunks, kind), Only([c], kind));
    OneSays(c, kind);
  }

  /** What can be read back is what was asked: the answers since the last clearing, stripped and without blank ones,
      and likewise the thoughts, the errors and the rest. */
  lemma {:induction false} BufferSays(ops: seq<Op>, kind: ChunkType)
    ensures Texts(Only(BufferAfter(ops), kind)) == Said(ops, kind)
    decreases |ops|
  {
    if ops == [] {
    } else {
      var init, op := ops[..|ops| - 1], ops[|ops| - 1];
      BufferSays(init, kind);
      OneMoreSays(BufferAfter(init), op, kind, Said(init, kind));
    }
  }

  lemma {:induction false} OneMoreSays(buffer: seq<Chunk>, op: Op, kind: ChunkType, said: seq<string>)
    requires Texts(Only(buffer, kind)) == said
    ensures Texts(Only(Buffered(buffer, op), kind)) ==
      if op.Clear? || (op.ClearResponse? && kind == Assistant) then [] else said + Added(op, kind)
  {
    if op.ClearResponse? {
      OnlyWithout(buffer, kind, Assistant);
    } else if !op.Clear? {
      OnlyConcat(buffer, Produced(op), kind);
      TextsConcat(Only(buffer, kind), Only(Produced(op), kind));
      ProducedSays(op, kind);
    }
  }

  lemma {:induction false} BufferSaysAll(ops: seq<Op>)
    ensures forall kind :: Texts(Only(BufferAfter(ops), kind)) == Said(ops, kind)
  {
    forall kind: ChunkType ensures Texts(Only(BufferAfter(ops), kind)) == Said(ops, kind) { BufferSays(ops, kind); }
  }

  /** One a line: a single text is itself, and a newline stands between what is joined and what is joined after it. */
  lemma {:induction false} LinesJoin(a: seq<string>, b: seq<string>)
    ensures JoinLines([]) == "" && (|a| == 1 ==> JoinLines(a) == a[0])
    ensures a != [] && b != [] ==> JoinLines(a + b) == JoinLines(a) + "\n" + JoinLines(b)
    decreases |b|
  {
    if a != [] && b != [] {
      var init := b[..|b| - 1];
      assert (a + b)[..|a + b| - 1] == a + init;
      if init == [] { assert a + init == a; } else { LinesJoin(a, init); }
    }
  }

  ghost predicate Suffix(s: seq<Chunk>, t: seq<Chunk>) { |s| <= |t| && t[|t| - |s|..] == s }

  lemma {:induction false} SuffixGrows(s: seq<Chunk>, t: seq<Chunk>, more: seq<Chunk>)
    requires Suffix(s, t)
    ensures Suffix(s + more, t + more)
  {
    assert t + more == t[..|t| - |s|] + (s + more);
  }

  /** Whatever is asked, the assistant parts in the buffer stay a suffix of those queued. */
  lemma {:induction false} EmitKeepsSuffix(buffer: seq<Chunk>, queued: seq<Chunk>, op: Op)
    requires Suffix(Only(buffer, Assistant), Only(queued, Assistant))
    ensures Suffix(Only(Buffered(buffer, op), Assistant), Only(queued + Queued(op), Assistant))
  {
    OnlyConcat(queued, Queued(op), Assistant);
    if op.ClearResponse? {
      OnlyWithout(buffer, Assistant, Assistant);
    } else if !op.Clear? {
      OnlyConcat(buffer, Produced(op), Assistant);
      SuffixGrows(Only(buffer, Assistant), Only(queued, Assistant), Only(Produced(op), Assistant));
      if op.Log? { assert Only(Produced(op), Assistant) == Only([], Assistant); }
    }
  }

  /** Clearing the response drops the assistant parts and nothing else. */
  lemma {:induction false} ClearResponseKeepsTheRest(buffer: seq<Chunk>, kind: ChunkType)
    ensures Only(Buffered(buffer, ClearResponse), kind) == if kind == Assistant then [] else Only(buffer, kind)
  {
    OnlyWithout(buffer, kind, Assistant);
  }
}
