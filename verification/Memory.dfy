/** Messages, memories and memory managers. */
module Memory {
  import opened Common

  datatype MessageType = Ai | Human | Sys

  /** A message of the conversation.  Ids come from one global counter; a copy keeps the id.  Empty names and an empty
      path stand for missing ones. */
  datatype Message = Message(
    id: nat, kind: MessageType, content: string, entryName: string, runnableName: string, path: seq<string>)

  // ---- Sorting by id ----

  function Insert(s: seq<Message>, m: Message): seq<Message> {
    if s == [] || s[|s| - 1].id <= m.id then s + [m] else Insert(s[..|s| - 1], m) + [s[|s| - 1]]
  }

  function SortById(s: seq<Message>): seq<Message> {
    if s == [] then [] else Insert(SortById(s[..|s| - 1]), s[|s| - 1])
  }

  ghost predicate Distinct(s: seq<Message>) { forall i, j :: 0 <= i < j < |s| ==> s[i].id != s[j].id }

  ghost predicate Ordered(s: seq<Message>) { forall i, j :: 0 <= i < j < |s| ==> s[i].id < s[j].id }

  ghost predicate Ascending(s: seq<Message>) { forall i, j :: 0 <= i < j < |s| ==> s[i].id <= s[j].id }

  lemma {:induction false} InsertPermutes(s: seq<Message>, m: Message)
    ensures multiset(Insert(s, m)) == multiset(s) + multiset{m}
    decreases |s|
  {
    if s != [] && s[|s| - 1].id > m.id {
      InsertPermutes(s[..|s| - 1], m);
      assert s == s[..|s| - 1] + [s[|s| - 1]];
    }
  }

  lemma {:induction false} InsertAscends(s: seq<Message>, m: Message)
    requires Ascending(s)
    ensures Ascending(Insert(s, m))
    decreases |s|
  {
    if s != [] && s[|s| - 1].id > m.id {
      var init, last := s[..|s| - 1], s[|s| - 1];
      InsertAscends(init, m);
      InsertHolds(init, m);
      forall x <- Insert(init, m) ensures x.id <= last.id { }
    }
  }

  lemma {:induction false} InsertHolds(s: seq<Message>, m: Message)
    ensures forall x :: x in Insert(s, m) <==> x in s || x == m
    decreases |s|
  {
    if s != [] && s[|s| - 1].id > m.id {
      InsertHolds(s[..|s| - 1], m);
      assert s == s[..|s| - 1] + [s[|s| - 1]];
    }
  }

  lemma {:induction false} InsertOrdered(s: seq<Message>, m: Message)
    requires Ordered(s) && forall x <- s :: x.id != m.id
    ensures Ordered(Insert(s, m))
    decreases |s|
  {
    if s != [] && s[|s| - 1].id > m.id {
      var init, last := s[..|s| - 1], s[|s| - 1];
      InsertOrdered(init, m);
      InsertHolds(init, m);
      forall x <- Insert(init, m) ensures x.id < last.id { }
    }
  }

  lemma {:induction false} SortHolds(s: seq<Message>)
    ensures multiset(SortById(s)) == multiset(s) && Ascending(SortById(s))
    ensures forall x :: x in SortById(s) <==> x in s
    ensures Distinct(s) ==> Ordered(SortById(s))
    decreases |s|
  {
    if s == [] {
    } else {
      var init, last := s[..|s| - 1], s[|s| - 1];
      SortHolds(init);
      InsertHolds(SortById(init), last);
      assert s == init + [last];
      InsertPermutes(SortById(init), last);
      InsertAscends(SortById(init), last);
      if Distinct(s) { InsertOrdered(SortById(init), last); }
    }
  }

  ghost predicate SameMembers(a: seq<Message>, b: seq<Message>) { forall x :: x in a <==> x in b }

  lemma {:induction false} LastOfOrdered(a: seq<Message>, b: seq<Message>)
    requires Ordered(a) && Ordered(b) && a != [] && b != [] && SameMembers(a, b)
    ensures a[|a| - 1] == b[|b| - 1]
    ensures SameMembers(a[..|a| - 1], b[..|b| - 1])
  {
    var x, y := a[|a| - 1], b[|b| - 1];
    assert x in b && y in a;
    LastIsElsewhere(a);
    LastIsElsewhere(b);
    SameElsewhere(a, b, a[..|a| - 1], b[..|b| - 1], x);
  }

  lemma {:induction false} SameElsewhere(
    a: seq<Message>, b: seq<Message>, a': seq<Message>, b': seq<Message>, last: Message)
    requires SameMembers(a, b)
    requires forall x :: x in a' <==> x in a && x != last
    requires forall x :: x in b' <==> x in b && x != last
    ensures SameMembers(a', b')
  {
    forall x: Message {:trigger x in a'} ensures x in a' <==> x in b' { assert x in a <==> x in b; }
  }

  /** Messages in creation order are determined by which messages they are. */
  lemma {:induction false} OrderedIsUnique(a: seq<Message>, b: seq<Message>)
    requires Ordered(a) && Ordered(b) && SameMembers(a, b)
    ensures a == b
    decreases |a|
  {
    FirstIsIn(a);
    FirstIsIn(b);
    if a != [] && b != [] {
      LastOfOrdered(a, b);
      OrderedIsUnique(a[..|a| - 1], b[..|b| - 1]);
      assert a == a[..|a| - 1] + [a[|a| - 1]];
      assert b == b[..|b| - 1] + [b[|b| - 1]];
    }
  }

  lemma {:induction false} LastIsElsewhere(a: seq<Message>)
    requires Ordered(a) && a != []
    ensures forall x :: x in a[..|a| - 1] <==> x in a && x != a[|a| - 1]
  {
    assert a == a[..|a| - 1] + [a[|a| - 1]];
  }

  // ---- Stamping and filtering ----

  /** Who manages a memory. */
  datatype Owner = Owner(entryName: string, runnableName: string, path: seq<string>)

  /** The entry is always overwritten; runnable and path only when they are missing. */
  function Stamp(o: Owner, m: Message): Message {
    m.(entryName := if o.entryName != "" then o.entryName else m.entryName,
       runnableName := if m.runnableName == "" then o.runnableName else m.runnableName,
       path := if m.path == [] then o.path else m.path)
  }

  function StampAll(o: Owner, s: seq<Message>): seq<Message> {
    seq(|s|, i requires 0 <= i < |s| => Stamp(o, s[i]))
  }

  function Retain(kinds: set<MessageType>, s: seq<Message>): seq<Message> {
    if s == [] then [] else Retain(kinds, s[..|s| - 1]) + if s[|s| - 1].kind in kinds then [s[|s| - 1]] else []
  }

  lemma {:induction false} RetainHolds(kinds: set<MessageType>, s: seq<Message>)
    ensures forall x :: x in Retain(kinds, s) <==> x in s && x.kind in kinds
    decreases |s|
  {
    if s == [] {
    } else {
      assert s == s[..|s| - 1] + [s[|s| - 1]];
      RetainHolds(kinds, s[..|s| - 1]);
    }
  }

  lemma {:induction false} RetainOrdered(kinds: set<MessageType>, s: seq<Message>)
    requires Ordered(s)
    ensures Ordered(Retain(kinds, s))
    decreases |s|
  {
    if s == [] {
    } else {
      var init := s[..|s| - 1];
      RetainOrdered(kinds, init);
      RetainHolds(kinds, init);
      forall x <- Retain(kinds, init) ensures x.id < s[|s| - 1].id { }
    }
  }

  /** What a memory holds after more messages were added to it. */
  function Added(o: Owner, memory: seq<Message>, more: seq<Message>): seq<Message> {
    SortById(memory + StampAll(o, more))
  }

  /** What was there and what is added, stamped; in order of ids. */
  lemma {:induction false} AddedHolds(o: Owner, memory: seq<Message>, more: seq<Message>)
    ensures forall x :: x in Added(o, memory, more) <==> x in memory || exists y <- more :: x == Stamp(o, y)
    ensures Ascending(Added(o, memory, more)) && |Added(o, memory, more)| == |memory| + |more|
  {
    var stamped := StampAll(o, more);
    SortHolds(memory + stamped);
    assert |multiset(memory + stamped)| == |memory| + |more|;
    assert |multiset(SortById(memory + stamped))| == |SortById(memory + stamped)|;
    forall y <- more ensures Stamp(o, y) in stamped {
      var i :| 0 <= i < |more| && more[i] == y;
      assert stamped[i] == Stamp(o, y);
    }
  }

  // ---- The manager ----

  class CfMemoryManager {
    var messages: seq<Message>
    const parent: CfMemoryManager?
    const owner: Owner

    /** A child context's manager: its path is its parent's, and its runnable after that. */
    constructor (parent: CfMemoryManager?, entryName: string, runnableName: string, path: seq<string>)
      ensures messages == [] && this.parent == parent
      ensures owner == Owner(entryName, runnableName,
        (if parent != null && path == [] then parent.owner.path else path) +
        if runnableName != "" then [runnableName] else [])
    {
      messages, this.parent := [], parent;
      var base := path;
      if parent != null && path == [] { base := parent.owner.path; }
      if runnableName != "" { base := base + [runnableName]; }
      owner := Owner(entryName, runnableName, base);
    }

    method AddMessages(more: seq<Message>)
      modifies this
      ensures messages == Added(owner, old(messages), more)
      ensures forall x :: x in messages <==> x in old(messages) || exists y <- more :: x == Stamp(owner, y)
      ensures Ascending(messages) && |messages| == |old(messages)| + |more|
    {
      AddedHolds(owner, messages, more);
      var newMessages: seq<Message> := [];
      for i := 0 to |more|
        invariant newMessages == StampAll(owner, more[..i]) && messages == old(messages)
      {
        var message := more[i];
        if owner.entryName != "" { message := message.(entryName := owner.entryName); }
        if message.runnableName == "" && owner.runnableName != "" {
          message := message.(runnableName := owner.runnableName);
        }
        if message.path == [] && owner.path != [] { message := message.(path := owner.path); }
        assert message == Stamp(owner, more[i]);
        newMessages := newMessages + [message];
      }
      assert more[..|more|] == more;
      Sort(messages + newMessages);
    }

    /** `list.sort`, by insertion. */
    method Sort(s: seq<Message>)
      modifies this
      ensures messages == SortById(s)
    {
      messages := [];
      for i := 0 to |s|
        invariant messages == SortById(s[..i])
      {
        assert s[..i + 1][..i] == s[..i];
        messages := Insert(messages, s[i]);
      }
      assert s[..|s|] == s;
    }

    method ConsolidateMessages(child: CfMemoryManager, included: set<MessageType>, retained: set<MessageType>)
      requires child != this
      modifies this
      ensures messages == Added(owner, old(messages), Retain(included * retained, child.messages))
      ensures Ascending(messages) && forall x :: x in messages <==>
        || x in old(messages)
        || exists y <- child.messages :: y.kind in included && y.kind in retained && x == Stamp(owner, y)
    {
      var kept: seq<Message> := [];
      var kinds := included * retained;
      for i := 0 to |child.messages|
        invariant kept == Retain(kinds, child.messages[..i]) && messages == old(messages)
      {
        assert child.messages[..i + 1][..i] == child.messages[..i];
        if child.messages[i].kind in kinds { kept := kept + [child.messages[i]]; }
      }
      assert child.messages[..|child.messages|] == child.messages;
      RetainHolds(kinds, child.messages);
      AddMessages(kept);
    }
  }
}
