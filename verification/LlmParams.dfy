/** Parameters of an LLM call.  Copies are shallow: a copy and its original share one dictionary of extra arguments,
    and the orchestrator writes into it. */
module LlmParams {
  import opened Common

  type Tool = string

  datatype ToolChoice = ToolChoice(name: string, disableParallelToolUse: bool)

  datatype Value =
    | Text(text: string)
    | Tools(tools: seq<Tool>)
    | Choice(choice: ToolChoice)
    | List(list: ValueList)

  class ValueList {
    var values: seq<Value>

    constructor (values: seq<Value>)
      ensures this.values == values
    {
      this.values := values;
    }
  }

  class Kwargs {
    var entries: map<string, Value>

    constructor (entries: map<string, Value>)
      ensures this.entries == entries
    {
      this.entries := entries;
    }
  }

  /** The scalar fields that tell one model's calls from another's. */
  datatype Scalars = Scalars(
    model: Option<string>, temperature: Option<real>, maxTokens: Option<int>, initialMaxTokens: Option<int>)

  class Params {
    var scalars: Scalars
    var stop: Option<seq<string>>
    var additionalKwargs: Kwargs?

    constructor (scalars: Scalars, stop: Option<seq<string>>, additionalKwargs: Kwargs?)
      ensures this.scalars == scalars && this.stop == stop && this.additionalKwargs == additionalKwargs
    {
      this.scalars, this.stop, this.additionalKwargs := scalars, stop, additionalKwargs;
    }

    function Get(key: string): Option<Value>
      reads this, additionalKwargs
    {
      if additionalKwargs != null && key in additionalKwargs.entries then Some(additionalKwargs.entries[key]) else None
    }
  }

  /** The values under `beta`: those of a list, or a single one. */
  function Listed(p: Params): seq<Value>
    reads p, p.additionalKwargs, if p.Get(BETA).Some? && p.Get(BETA).value.List? then {p.Get(BETA).value.list} else {}
  {
    if p.Get(BETA).None? then []
    else if p.Get(BETA).value.List? then p.Get(BETA).value.list.values
    else [p.Get(BETA).value]
  }

  /** Every value stays where it is; the tag is added at the end unless it is there. */
  function WithTag(values: seq<Value>, tag: Value): (r: seq<Value>)
    ensures values <= r && tag in r
  {
    if tag in values then values else values + [tag]
  }

  const TOOLS := "tools"
  const CHOICE := "tool_choice"
  const BETA := "beta"
  const TOKEN_EFFICIENT := "token-efficient-tools-2025-02-19"
  const INTERLEAVED_THINKING := "interleaved-thinking-2025-05-14"

  /** The keys the orchestrator itself writes. */
  predicate Decoration(key: string) { key == TOOLS || key == CHOICE || key == BETA }

  predicate Contains(s: string, w: string) {
    |w| <= |s| && (s[..|w|] == w || (s != "" && Contains(s[1..], w)))
  }

  predicate At(s: string, w: string, i: nat) { i + |w| <= |s| && s[i..i + |w|] == w }

  /** `w` stands somewhere in `s`. */
  lemma {:induction false} ContainsExactly(s: string, w: string)
    ensures Contains(s, w) <==> exists i: nat :: At(s, w, i)
    decreases |s|
  {
    assert At(s, w, 0) <==> |w| <= |s| && s[..|w|] == w;
    if |w| <= |s| && s != "" {
      ContainsExactly(s[1..], w);
      forall i: nat | At(s[1..], w, i) ensures At(s, w, i + 1) { AtShifts(s, w, i); }
      forall i: nat | At(s, w, i) && i > 0 ensures At(s[1..], w, i - 1) { AtShifts(s, w, i - 1); }
    }
  }

  lemma {:induction false} AtShifts(s: string, w: string, i: nat)
    requires s != ""
    ensures At(s[1..], w, i) <==> At(s, w, i + 1)
  {
    if i + 1 + |w| <= |s| { assert s[1..][i..i + |w|] == s[i + 1..i + 1 + |w|]; }
  }

  predicate IsSonnet37(model: Option<string>) { model.Some? && Contains(model.value, "claude-3-7-sonnet-20250219") }

  predicate IsClaude4(model: Option<string>) {
    model.Some? &&
    (Contains(model.value, "claude-sonnet-4") || Contains(model.value, "claude-opus-4") ||
     Contains(model.value, "claude-4"))
  }

  /** The beta tags a model asks for. */
  function Tags(model: Option<string>, choice: Option<ToolChoice>): seq<Value> {
    var parallel := !(choice.Some? && choice.value.disableParallelToolUse);
    (if IsSonnet37(model) && parallel then [Text(TOKEN_EFFICIENT)] else []) +
    (if IsClaude4(model) then [Text(INTERLEAVED_THINKING)] else [])
  }

  /** Which models ask for which tag. */
  lemma {:induction false} TagsExactly(model: Option<string>, choice: Option<ToolChoice>)
    ensures Text("interleaved-thinking-2025-05-14") in Tags(model, choice) <==>
      (model.Some? &&
        (Contains(model.value, "claude-sonnet-4") || Contains(model.value, "claude-opus-4") ||
         Contains(model.value, "claude-4")))
    ensures Text("token-efficient-tools-2025-02-19") in Tags(model, choice) <==>
      (model.Some? && Contains(model.value, "claude-3-7-sonnet-20250219") &&
       !(choice.Some? && choice.value.disableParallelToolUse))
  {
    assert TOKEN_EFFICIENT[0] != INTERLEAVED_THINKING[0];
  }

  /** Every tag asked for is listed, and those listed before stay where they are. */
  lemma {:induction false} TagsAreListed(values: seq<Value>, tags: seq<Value>)
    ensures values <= WithTags(values, tags)
    ensures forall x :: x in WithTags(values, tags) <==> x in values || x in tags
    decreases |tags|
  {
    if tags == [] {
    } else {
      TagsAreListed(values, tags[..|tags| - 1]);
      assert tags == tags[..|tags| - 1] + [tags[|tags| - 1]];
    }
  }

  function WithTags(values: seq<Value>, tags: seq<Value>): seq<Value>
    decreases |tags|
  {
    if tags == [] then values else WithTag(WithTags(values, tags[..|tags| - 1]), tags[|tags| - 1])
  }

  lemma {:induction false} TwoTags(values: seq<Value>, model: Option<string>, choice: Option<ToolChoice>)
    ensures var parallel := !(choice.Some? && choice.value.disableParallelToolUse);
      var first := if IsSonnet37(model) && parallel then WithTag(values, Text(TOKEN_EFFICIENT)) else values;
      WithTags(values, Tags(model, choice)) ==
        if IsClaude4(model) then WithTag(first, Text(INTERLEAVED_THINKING)) else first
  {
    AtMostTwo(values, Text(TOKEN_EFFICIENT), Text(INTERLEAVED_THINKING));
  }

  lemma {:induction false} AtMostTwo(values: seq<Value>, a: Value, b: Value)
    ensures WithTags(values, [] + []) == values
    ensures WithTags(values, [a] + []) == WithTag(values, a)
    ensures WithTags(values, [] + [b]) == WithTag(values, b)
    ensures WithTags(values, [a] + [b]) == WithTag(WithTag(values, a), b)
  {
    OneTag(values, a);
    OneTag(values, b);
    WithOneMore(values, [a], b);
    assert [a] + [] == [a] && [] + [b] == [b];
  }

  lemma {:induction false} OneTag(values: seq<Value>, tag: Value)
    ensures WithTags(values, [tag]) == WithTag(values, tag)
  {
    WithOneMore(values, [], tag);
    assert [] + [tag] == [tag];
  }

  lemma {:induction false} WithOneMore(values: seq<Value>, tags: seq<Value>, tag: Value)
    ensures WithTags(values, []) == values
    ensures WithTags(values, tags + [tag]) == WithTag(WithTags(values, tags), tag)
  {
    assert (tags + [tag])[..|tags|] == tags;
  }

  /** What one call to the model was given. */
  datatype Snapshot = Snapshot(scalars: Scalars, entries: map<string, Value>)
  {
    function Get(key: string): Option<Value> { if key in entries then Some(entries[key]) else None }
  }

  datatype Call = Call(fast: bool, tools: seq<Tool>, stop: Option<seq<string>>)

  /** The model is the fast one's; a temperature or a limit is the fast one's where it has one, and else the
      primary's. */
  predicate ScalarsOfFast(given: Scalars, primary: Scalars, fast: Scalars) {
    && given.model == fast.model
    && (fast.temperature.Some? ==> given.temperature == fast.temperature)
    && (fast.temperature.None? ==> given.temperature == primary.temperature)
    && (fast.maxTokens.Some? ==> given.maxTokens == fast.maxTokens)
    && (fast.maxTokens.None? ==> given.maxTokens == primary.maxTokens)
    && (fast.initialMaxTokens.Some? ==> given.initialMaxTokens == fast.initialMaxTokens)
    && (fast.initialMaxTokens.None? ==> given.initialMaxTokens == primary.initialMaxTokens)
  }

  function Overlaid(primary: Scalars, fast: Scalars): Scalars {
    Scalars(
      fast.model,
      if fast.temperature.Some? then fast.temperature else primary.temperature,
      if fast.maxTokens.Some? then fast.maxTokens else primary.maxTokens,
      if fast.initialMaxTokens.Some? then fast.initialMaxTokens else primary.initialMaxTokens)
  }

  function Or<T>(a: Option<T>, b: Option<T>): Option<T> { if a.Some? then a else b }

  class Orchestrator {
    const primary: Params
    const fastParams: Params?
    const toolChoice: Option<ToolChoice>

    constructor (primary: Params, fastParams: Params?, toolChoice: Option<ToolChoice>)
      ensures this.primary == primary && this.fastParams == fastParams && this.toolChoice == toolChoice
    {
      this.primary, this.fastParams, this.toolChoice := primary, fastParams, toolChoice;
    }

    /** The list of beta tags that copies share, if there is one. */
    ghost function SharedList(): set<object>
      reads primary, primary.additionalKwargs
    {
      if primary.Get(BETA).Some? && primary.Get(BETA).value.List? then {primary.Get(BETA).value.list} else {}
    }

    /** The dictionary that copies share, if there is one. */
    ghost function SharedDict(): set<object>
      reads primary
    {
      if primary.additionalKwargs == null then {} else {primary.additionalKwargs}
    }

    ghost predicate Valid()
      reads this, primary, primary.additionalKwargs, fastParams,
        if fastParams == null then {} else {fastParams.additionalKwargs}
    {
      fastParams != null ==>
        && fastParams != primary
        && (fastParams.additionalKwargs != null ==> fastParams.additionalKwargs != primary.additionalKwargs)
    }

    method Put(p: Params, key: string, value: Value)
      requires p.additionalKwargs != null
      modifies p.additionalKwargs
      ensures p.additionalKwargs.entries == old(p.additionalKwargs.entries)[key := value]
    {
      p.additionalKwargs.entries := p.additionalKwargs.entries[key := value];
    }

    method AddBetaTag(p: Params, tag: string)
      requires p != primary
      modifies p, if p.Get(BETA).Some? && p.Get(BETA).value.List? then {p.Get(BETA).value.list} else {}
      ensures p.additionalKwargs != null && fresh(p.additionalKwargs)
      ensures p.scalars == old(p.scalars) && p.stop == old(p.stop)
      ensures forall k :: k != BETA ==> p.Get(k) == old(p.Get(k))
      ensures p.Get(BETA).Some? && p.Get(BETA).value.List? && Text(tag) in p.Get(BETA).value.list.values
      ensures fresh(p.Get(BETA).value.list) || p.Get(BETA) == old(p.Get(BETA))
      ensures p.Get(BETA).value.list.values == WithTag(old(Listed(p)), Text(tag))
    {
      if p.additionalKwargs == null { p.additionalKwargs := new Kwargs(map[]); }
      var additionalKwargs := new Kwargs(p.additionalKwargs.entries);
      if BETA in additionalKwargs.entries {
        var beta := additionalKwargs.entries[BETA];
        if !beta.List? {
          var list := new ValueList([beta]);
          beta := List(list);
        }
        if Text(tag) !in beta.list.values { beta.list.values := beta.list.values + [Text(tag)]; }
        additionalKwargs.entries := additionalKwargs.entries[BETA := beta];
      } else {
        var list := new ValueList([Text(tag)]);
        additionalKwargs.entries := additionalKwargs.entries[BETA := List(list)];
      }
      p.additionalKwargs := additionalKwargs;
    }

    /** The tags a model asks for.  The dictionary is copied first; the list of tags is not. */
    method AddBetaTags(p: Params)
      requires p != primary && p.additionalKwargs != null
      modifies p, if p.Get(BETA).Some? && p.Get(BETA).value.List? then {p.Get(BETA).value.list} else {}
      ensures p.additionalKwargs != null && p.scalars == old(p.scalars) && p.stop == old(p.stop)
      ensures p.additionalKwargs == old(p.additionalKwargs) || fresh(p.additionalKwargs)
      ensures forall k :: k != BETA ==> p.Get(k) == old(p.Get(k))
      ensures Listed(p) == WithTags(old(Listed(p)), Tags(p.scalars.model, toolChoice))
    {
      TwoTags(Listed(p), p.scalars.model, toolChoice);
      if IsSonnet37(p.scalars.model) && !(toolChoice.Some? && toolChoice.value.disableParallelToolUse) {
        AddBetaTag(p, TOKEN_EFFICIENT);
      }
      if IsClaude4(p.scalars.model) { AddBetaTag(p, INTERLEAVED_THINKING); }
    }

    method WriteChoice(p: Params)
      requires p.additionalKwargs != null
      modifies p.additionalKwargs
      ensures forall k :: k != CHOICE ==> p.Get(k) == old(p.Get(k))
      ensures forall k :: k != CHOICE ==> primary.Get(k) == old(primary.Get(k))
      ensures p.additionalKwargs != primary.additionalKwargs ==> primary.Get(CHOICE) == old(primary.Get(CHOICE))
      ensures p.Get(CHOICE) == if toolChoice.Some? then Some(Choice(toolChoice.value)) else old(p.Get(CHOICE))
    {
      if toolChoice.Some? { Put(p, CHOICE, Choice(toolChoice.value)); }
    }

    /** The parameters with the current tools written in.  The primary object keeps every field but its stop
        sequences, and its dictionary every entry but the tools and the choice of tool. */
    method DecoratedParams(tools: seq<Tool>, stop: Option<seq<string>>) returns (p: Params)
      requires Valid()
      modifies primary`stop, SharedDict(), SharedList()
      ensures fresh(p) && p.scalars == primary.scalars
      ensures
        || p.additionalKwargs == primary.additionalKwargs
        || (p.additionalKwargs != null && fresh(p.additionalKwargs))
      ensures forall k :: !Decoration(k) ==> p.Get(k) == old(primary.Get(k))
      ensures forall k :: k != TOOLS && k != CHOICE ==> primary.Get(k) == old(primary.Get(k))
      ensures p.Get(TOOLS) == if tools != [] then Some(Tools(tools)) else old(primary.Get(TOOLS))
      ensures primary.Get(TOOLS) ==
        if tools != [] && primary.additionalKwargs != null then Some(Tools(tools)) else old(primary.Get(TOOLS))
      ensures p.Get(CHOICE) ==
        if tools != [] && toolChoice.Some? then Some(Choice(toolChoice.value)) else old(primary.Get(CHOICE))
      ensures tools != [] ==> Listed(p) == WithTags(old(Listed(primary)), Tags(primary.scalars.model, toolChoice))
      ensures p.stop == primary.stop == if stop.Some? then stop else old(primary.stop)
    {
      if stop.Some? { primary.stop := stop; }
      p := new Params(primary.scalars, primary.stop, primary.additionalKwargs);
      if tools == [] { return; }
      Decorate(p, tools);
    }

    /** Tools, beta tags and choice are written; the copy still shares its dictionary with the primary object. */
    method Decorate(p: Params, tools: seq<Tool>)
      requires p != primary && p.additionalKwargs == primary.additionalKwargs
      modifies p, SharedDict(), SharedList()
      ensures p.scalars == old(p.scalars) && p.stop == old(p.stop) && p.additionalKwargs != null
      ensures p.additionalKwargs == primary.additionalKwargs || fresh(p.additionalKwargs)
      ensures forall k :: !Decoration(k) ==> p.Get(k) == old(p.Get(k))
      ensures forall k :: k != TOOLS && k != CHOICE ==> primary.Get(k) == old(primary.Get(k))
      ensures p.Get(TOOLS) == Some(Tools(tools))
      ensures primary.Get(TOOLS) == if primary.additionalKwargs != null then Some(Tools(tools)) else None
      ensures p.Get(CHOICE) == if toolChoice.Some? then Some(Choice(toolChoice.value)) else old(p.Get(CHOICE))
      ensures Listed(p) == WithTags(old(Listed(p)), Tags(p.scalars.model, toolChoice))
    {
      WriteTools(p, tools);
      AddBetaTags(p);
      assert forall k :: k != TOOLS ==> primary.Get(k) == old(primary.Get(k));
      assert forall k :: !Decoration(k) ==> p.Get(k) == old(p.Get(k));
      ghost var listed := Listed(p);
      WriteChoice(p);
      assert Listed(p) == listed;
    }

    method WriteTools(p: Params, tools: seq<Tool>)
      requires p != primary && p.additionalKwargs == primary.additionalKwargs
      modifies p, SharedDict()
      ensures p.scalars == old(p.scalars) && p.stop == old(p.stop) && p.additionalKwargs != null
      ensures p.additionalKwargs == primary.additionalKwargs || fresh(p.additionalKwargs)
      ensures forall k :: k != TOOLS ==> p.Get(k) == old(p.Get(k)) && primary.Get(k) == old(primary.Get(k))
      ensures p.Get(TOOLS) == Some(Tools(tools)) && Listed(p) == old(Listed(p))
      ensures primary.Get(TOOLS) == if primary.additionalKwargs != null then Some(Tools(tools)) else None
    {
      if p.additionalKwargs == null { p.additionalKwargs := new Kwargs(map[]); }
      Put(p, TOOLS, Tools(tools));
    }

    method OverlayFastParams(p: Params)
      requires fastParams != null && p != fastParams && p != primary
      modifies p
      ensures ScalarsOfFast(p.scalars, old(p.scalars), fastParams.scalars) && p.stop == old(p.stop)
      ensures p.additionalKwargs == old(p.additionalKwargs) || (p.additionalKwargs != null && fresh(p.additionalKwargs))
      ensures forall k :: p.Get(k) == Or(fastParams.Get(k), old(p.Get(k)))
    {
      var fast := fastParams;
      p.scalars := Overlaid(p.scalars, fast.scalars);
      if fast.additionalKwargs != null && fast.additionalKwargs.entries != map[] {
        var copy := new Kwargs(if p.additionalKwargs == null then map[] else p.additionalKwargs.entries);
        copy.entries := copy.entries + fast.additionalKwargs.entries;
        p.additionalKwargs := copy;
      }
    }

    /** The parameters for one call.  The fast model gets its own scalars and entries over the decorated ones. */
    method GetLlmParams(call: Call) returns (p: Params)
      requires Valid() && (call.fast ==> fastParams != null)
      modifies primary`stop, SharedDict(), SharedList()
      ensures fresh(p) && Follows(call, View(p), old(Terms(this)), Terms(this))
      ensures primary.Get(BETA) == old(primary.Get(BETA))
      ensures call.fast ==> p.scalars.model == fastParams.scalars.model
      ensures call.fast ==> forall k :: fastParams.Get(k).Some? ==> p.Get(k) == fastParams.Get(k)
      ensures !call.fast ==> p.scalars == old(primary.scalars)
      ensures forall k :: !Decoration(k) && !(call.fast && fastParams.Get(k).Some?) ==> p.Get(k) == old(primary.Get(k))
      ensures call.tools != [] && !(call.fast && fastParams.Get(TOOLS).Some?) ==>
        p.Get(TOOLS) == Some(Tools(call.tools))
      ensures p.stop == primary.stop == if call.stop.Some? then call.stop else old(primary.stop)
    {
      ghost var before := Terms(this);
      ViewGets(primary);
      p := DecoratedParams(call.tools, call.stop);
      ViewGets(p);
      ViewGets(primary);
      ghost var plain := View(p);
      assert Follows(call.(fast := false), plain, before, Terms(this));
      if call.fast {
        OverlayFastParams(p);
        ViewGets(p);
        ViewGets(fastParams);
        FastFollows(call, plain, View(p), before, Terms(this));
      }
    }

    /** Any sequence of calls, with what each of them was given at the time. */
    method Alternate(calls: seq<Call>) returns (seen: seq<Snapshot>)
      requires Valid() && forall i :: 0 <= i < |calls| && calls[i].fast ==> fastParams != null
      modifies primary`stop, SharedDict(), SharedList()
      ensures |seen| == |calls|
      ensures forall i :: 0 <= i < |calls| ==> Given(calls, i, seen[i], old(Terms(this)))
      ensures forall i :: 0 <= i < |calls| && calls[i].fast ==>
        seen[i].scalars.model == fastParams.scalars.model && FromFast(seen[i], View(fastParams))
      ensures forall i :: 0 <= i < |calls| && !calls[i].fast ==> seen[i].scalars == old(primary.scalars)
      ensures Terms(this).primary.scalars == old(Terms(this)).primary.scalars
      ensures forall k :: !Decoration(k) ==> Terms(this).primary.Get(k) == old(Terms(this)).primary.Get(k)
      ensures Terms(this).fast == old(Terms(this)).fast
    {
      seen := [];
      ghost var terms := Terms(this);
      for n := 0 to |calls|
        invariant |seen| == n
        invariant forall i :: 0 <= i < n ==> Given(calls, i, seen[i], terms)
        invariant Stands(calls, n, Terms(this), terms) && primary.Get(BETA) == old(primary.Get(BETA))
      {
        ghost var before := Terms(this);
        var p := GetLlmParams(calls[n]);
        OneMoreCall(calls, n, View(p), before, Terms(this), terms);
        seen := seen + [View(p)];
      }
    }
  }

  // ---- A sequence of calls ----

  function View(p: Params): Snapshot
    reads p, p.additionalKwargs
  {
    Snapshot(p.scalars, if p.additionalKwargs == null then map[] else p.additionalKwargs.entries)
  }

  lemma {:induction false} ViewGets(p: Params)
    ensures forall k :: View(p).Get(k) == p.Get(k)
  {
  }

  /** What both parameter objects hold, and whether copies of the primary one share its dictionary. */
  datatype Settings = Settings(primary: Snapshot, fast: Option<Snapshot>, shares: bool)

  ghost function Terms(o: Orchestrator): Settings
    reads o.primary, o.primary.additionalKwargs, o.fastParams,
      if o.fastParams == null then {} else {o.fastParams.additionalKwargs}
  {
    Settings(View(o.primary), if o.fastParams == null then None else Some(View(o.fastParams)),
             o.primary.additionalKwargs != null)
  }

  predicate ScalarsFor(call: Call, given: Scalars, s: Settings)
    requires call.fast ==> s.fast.Some?
  {
    if call.fast then ScalarsOfFast(given, s.primary.scalars, s.fast.value.scalars) else given == s.primary.scalars
  }

  /** The fast model's entries come before whatever else is on offer. */
  function EntryFor(call: Call, s: Settings, k: string, otherwise: Option<Value>): Option<Value>
    requires call.fast ==> s.fast.Some?
  {
    if call.fast then Or(s.fast.value.Get(k), otherwise) else otherwise
  }

  /** Every entry of the fast model's dictionary, the endpoint included, is in what the call is given. */
  ghost predicate FromFast(given: Snapshot, fast: Snapshot) {
    forall k <- fast.entries :: given.Get(k) == Some(fast.entries[k])
  }

  /** The scalars, the endpoint and every other entry but the decorations. */
  ghost predicate SameButDecorations(a: Snapshot, b: Snapshot) {
    a.scalars == b.scalars && forall k :: !Decoration(k) ==> a.Get(k) == b.Get(k)
  }

  /** What a call is given, and what it leaves behind. */
  ghost predicate Follows(call: Call, given: Snapshot, before: Settings, after: Settings)
    requires call.fast ==> before.fast.Some?
  {
    var tools := if call.tools != [] then Some(Tools(call.tools)) else before.primary.Get(TOOLS);
    && ScalarsFor(call, given.scalars, before) && (call.fast ==> FromFast(given, before.fast.value))
    && (forall k :: !Decoration(k) ==> given.Get(k) == EntryFor(call, before, k, before.primary.Get(k)))
    && given.Get(TOOLS) == EntryFor(call, before, TOOLS, tools)
    && SameButDecorations(after.primary, before.primary)
    && after.fast == before.fast && after.shares == before.shares
    && after.primary.Get(TOOLS) == (if before.shares then tools else None)
  }

  /** The fast model's scalars and entries over what the call would have been given without them. */
  lemma {:induction false} FastFollows(call: Call, plain: Snapshot, given: Snapshot, before: Settings, after: Settings)
    requires call.fast && before.fast.Some? && Follows(call.(fast := false), plain, before, after)
    requires ScalarsOfFast(given.scalars, plain.scalars, before.fast.value.scalars)
    requires forall k :: given.Get(k) == Or(before.fast.value.Get(k), plain.Get(k))
    ensures Follows(call, given, before, after)
  {
  }

  /** What the `i`-th call of a sequence is given, by what both objects held before the first. */
  ghost predicate Given(calls: seq<Call>, i: nat, given: Snapshot, s: Settings)
    requires i < |calls| && (calls[i].fast ==> s.fast.Some?)
  {
    && ScalarsFor(calls[i], given.scalars, s) && (calls[i].fast ==> FromFast(given, s.fast.value))
    && (forall k :: !Decoration(k) ==> given.Get(k) == EntryFor(calls[i], s, k, s.primary.Get(k)))
    && given.Get(TOOLS) == EntryFor(calls[i], s, TOOLS, Offered(calls, i, s.shares, s.primary.Get(TOOLS)))
  }

  /** What both objects hold after `n` calls. */
  ghost predicate Stands(calls: seq<Call>, n: nat, now: Settings, s: Settings)
    requires n <= |calls|
  {
    && SameButDecorations(now.primary, s.primary)
    && now.fast == s.fast && now.shares == s.shares
    && now.primary.Get(TOOLS) == if s.shares then Standing(calls, n, s.primary.Get(TOOLS)) else None
  }

  lemma {:induction false} OneMoreCall(
    calls: seq<Call>, n: nat, given: Snapshot, before: Settings, after: Settings, s: Settings)
    requires n < |calls| && (calls[n].fast ==> s.fast.Some?)
    requires Stands(calls, n, before, s) && Follows(calls[n], given, before, after)
    ensures Given(calls, n, given, s) && Stands(calls, n + 1, after, s)
  {
  }

  // ---- Which tools a call is offered ----

  /** The tools left in the shared dictionary by the first `n` calls. */
  function Standing(calls: seq<Call>, n: nat, initial: Option<Value>): Option<Value>
    requires n <= |calls|
  {
    if n == 0 then initial
    else if calls[n - 1].tools != [] then Some(Tools(calls[n - 1].tools))
    else Standing(calls, n - 1, initial)
  }

  function Offered(calls: seq<Call>, i: nat, shares: bool, initial: Option<Value>): Option<Value>
    requires i < |calls|
  {
    if calls[i].tools != [] then Some(Tools(calls[i].tools)) else if shares then Standing(calls, i, initial) else None
  }

  function Current(call: Call): Option<Value> { if call.tools == [] then None else Some(Tools(call.tools)) }

  /** A call is offered the tools of the moment, except that no tools at all means whatever was offered last: exactly
      when there are tools now, or there never were, or there is no shared dictionary to leave them in. */
  lemma {:induction false} CurrentToolsExactly(calls: seq<Call>, i: nat, shares: bool)
    requires i < |calls|
    ensures Offered(calls, i, shares, None) == Current(calls[i]) <==>
      calls[i].tools != [] || !shares || forall j :: 0 <= j < i ==> calls[j].tools == []
  {
    StandingExactly(calls, i);
  }

  lemma {:induction false} StandingExactly(calls: seq<Call>, n: nat)
    requires n <= |calls|
    ensures Standing(calls, n, None) == None <==> forall j :: 0 <= j < n ==> calls[j].tools == []
    decreases n
  {
    if n == 0 {
    } else {
      StandingExactly(calls, n - 1);
    }
  }
}
