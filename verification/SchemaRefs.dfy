/** `$ref` expansion of JSON schemas, as a function on documents, and what it preserves. */
module SchemaRefs {
  import opened Common

  datatype Atom = Null | Bool(b: bool) | Num(n: real) | Str(s: string)

  datatype Json = Leaf(atom: Atom) | Arr(items: List) | Obj(fields: Fields)

  datatype List = Nil | Cons(head: Json, tail: List)

  /** The entries of a dictionary in insertion order. */
  datatype Fields = End | Field(key: string, value: Json, rest: Fields)

  predicate Has(f: Fields, k: string) { f.Field? && (f.key == k || Has(f.rest, k)) }

  function Get(f: Fields, k: string): Json
    requires Has(f, k)
  {
    if f.key == k then f.value else Get(f.rest, k)
  }

  const REF := "$ref"

  /** The keywords whose lists the expander overwrites before it copies the dictionary. */
  predicate Overwritten(k: string) { k == "anyOf" || k == "allOf" || k == "oneOf" }

  // ---- References ----

  /** The pieces of a string between slashes. */
  function Pieces(s: string): (ps: seq<string>)
    ensures |ps| > 0
  {
    if s == "" then [""]
    else
      var ps := Pieces(s[1..]);
      if s[0] == '/' then [""] + ps else [[s[0]] + ps[0]] + ps[1..]
  }

  /** A reference names the dictionary keys that lead from the root to its target. */
  function Path(ref: string): seq<string> { Pieces(ref)[1..] }

  function Follow(j: Json, path: seq<string>): Option<Json>
    decreases |path|
  {
    if path == [] then Some(j)
    else if j.Obj? && Has(j.fields, path[0]) then Follow(Get(j.fields, path[0]), path[1..])
    else None
  }

  // ---- Well-formed documents ----

  type Ranks = map<string, nat>

  predicate IsRef(f: Fields) { Has(f, REF) }

  /** Every reference that the expander meets in `j` is a string ranked below `n`, and the overwritten keywords
      hold lists.  Siblings of `$ref` are never looked at. */
  predicate Below(j: Json, rank: Ranks, n: nat) {
    match j
    case Leaf(_) => true
    case Arr(l) => ListBelow(l, rank, n)
    case Obj(f) =>
      if IsRef(f) then
        var t := Get(f, REF);
        t.Leaf? && t.atom.Str? && t.atom.s in rank && rank[t.atom.s] < n
      else FieldsBelow(f, rank, n)
  }

  predicate ListBelow(l: List, rank: Ranks, n: nat) { l.Nil? || (Below(l.head, rank, n) && ListBelow(l.tail, rank, n)) }

  predicate FieldsBelow(f: Fields, rank: Ranks, n: nat) {
    f.End? || (Below(f.value, rank, n) && (Overwritten(f.key) ==> f.value.Arr?) && FieldsBelow(f.rest, rank, n))
  }

  /** Every ranked reference leads somewhere, and whatever it leads to uses only references of lower rank:
      following references ends. */
  ghost predicate Ranked(root: Json, rank: Ranks) {
    forall r <- rank :: Follow(root, Path(r)).Some? && Below(Follow(root, Path(r)).value, rank, rank[r])
  }

  function Target(root: Json, r: string): Json
    requires Follow(root, Path(r)).Some?
  {
    Follow(root, Path(r)).value
  }

  function RefOf(f: Fields): string
    requires IsRef(f) && Get(f, REF).Leaf? && Get(f, REF).atom.Str?
  {
    Get(f, REF).atom.s
  }

  // ---- Expansion ----

  ghost function Expand(root: Json, rank: Ranks, j: Json, n: nat): Json
    requires Ranked(root, rank) && Below(j, rank, n)
    decreases n, j
  {
    match j
    case Leaf(_) => j
    case Arr(l) => Arr(ExpandList(root, rank, l, n))
    case Obj(f) =>
      if IsRef(f) then Expand(root, rank, Target(root, RefOf(f)), rank[RefOf(f)])
      else Obj(ExpandFields(root, rank, f, n))
  }

  ghost function ExpandList(root: Json, rank: Ranks, l: List, n: nat): List
    requires Ranked(root, rank) && ListBelow(l, rank, n)
    decreases n, l
  {
    if l.Nil? then Nil else Cons(Expand(root, rank, l.head, n), ExpandList(root, rank, l.tail, n))
  }

  ghost function ExpandFields(root: Json, rank: Ranks, f: Fields, n: nat): Fields
    requires Ranked(root, rank) && FieldsBelow(f, rank, n)
    decreases n, f
  {
    if f.End? then End
    else Field(f.key, Expand(root, rank, f.value, n), ExpandFields(root, rank, f.rest, n))
  }

  /** The bound only serves termination. */
  lemma {:induction false} BoundIsIrrelevant(root: Json, rank: Ranks, j: Json, n: nat, m: nat)
    requires Ranked(root, rank) && Below(j, rank, n) && Below(j, rank, m)
    ensures Expand(root, rank, j, n) == Expand(root, rank, j, m)
    decreases j
  {
    match j
    case Leaf(_) =>
    case Arr(l) => BoundIsIrrelevantList(root, rank, l, n, m);
    case Obj(f) => if !IsRef(f) { BoundIsIrrelevantFields(root, rank, f, n, m); }
  }

  lemma {:induction false} BoundIsIrrelevantList(root: Json, rank: Ranks, l: List, n: nat, m: nat)
    requires Ranked(root, rank) && ListBelow(l, rank, n) && ListBelow(l, rank, m)
    ensures ExpandList(root, rank, l, n) == ExpandList(root, rank, l, m)
    decreases l
  {
    if l.Nil? {
    } else {
      BoundIsIrrelevant(root, rank, l.head, n, m);
      BoundIsIrrelevantList(root, rank, l.tail, n, m);
    }
  }

  lemma {:induction false} BoundIsIrrelevantFields(root: Json, rank: Ranks, f: Fields, n: nat, m: nat)
    requires Ranked(root, rank) && FieldsBelow(f, rank, n) && FieldsBelow(f, rank, m)
    ensures ExpandFields(root, rank, f, n) == ExpandFields(root, rank, f, m)
    decreases f
  {
    if f.End? {
    } else {
      BoundIsIrrelevant(root, rank, f.value, n, m);
      BoundIsIrrelevantFields(root, rank, f.rest, n, m);
    }
  }

  // ---- The result has no references ----

  predicate RefFree(j: Json) {
    match j
    case Leaf(_) => true
    case Arr(l) => ListRefFree(l)
    case Obj(f) => !IsRef(f) && FieldsRefFree(f)
  }

  predicate ListRefFree(l: List) { l.Nil? || (RefFree(l.head) && ListRefFree(l.tail)) }

  predicate FieldsRefFree(f: Fields) { f.End? || (RefFree(f.value) && FieldsRefFree(f.rest)) }

  lemma {:induction false} ExpandedIsRefFree(root: Json, rank: Ranks, j: Json, n: nat)
    requires Ranked(root, rank) && Below(j, rank, n)
    ensures RefFree(Expand(root, rank, j, n))
    decreases n, j
  {
    match j
    case Leaf(_) =>
    case Arr(l) => ExpandedListIsRefFree(root, rank, l, n);
    case Obj(f) =>
      if IsRef(f) { ExpandedIsRefFree(root, rank, Target(root, RefOf(f)), rank[RefOf(f)]); }
      else { ExpandedFieldsAreRefFree(root, rank, f, n); }
  }

  lemma {:induction false} ExpandedListIsRefFree(root: Json, rank: Ranks, l: List, n: nat)
    requires Ranked(root, rank) && ListBelow(l, rank, n)
    ensures ListRefFree(ExpandList(root, rank, l, n))
    decreases n, l
  {
    if l.Nil? {
    } else {
      ExpandedIsRefFree(root, rank, l.head, n);
      ExpandedListIsRefFree(root, rank, l.tail, n);
    }
  }

  lemma {:induction false} ExpandedFieldsAreRefFree(root: Json, rank: Ranks, f: Fields, n: nat)
    requires Ranked(root, rank) && FieldsBelow(f, rank, n)
    ensures FieldsRefFree(ExpandFields(root, rank, f, n))
    ensures forall k :: Has(ExpandFields(root, rank, f, n), k) <==> Has(f, k)
    decreases n, f
  {
    if f.End? {
    } else {
      ExpandedIsRefFree(root, rank, f.value, n);
      ExpandedFieldsAreRefFree(root, rank, f.rest, n);
    }
  }

  /** Nothing is left to expand: a document without references is its own expansion, against any root. */
  lemma {:induction false} RefFreeIsFixed(root: Json, rank: Ranks, j: Json, n: nat)
    requires Ranked(root, rank) && Below(j, rank, n) && RefFree(j)
    ensures Expand(root, rank, j, n) == j
    decreases j
  {
    match j
    case Leaf(_) =>
    case Arr(l) => RefFreeListIsFixed(root, rank, l, n);
    case Obj(f) => RefFreeFieldsAreFixed(root, rank, f, n);
  }

  lemma {:induction false} RefFreeListIsFixed(root: Json, rank: Ranks, l: List, n: nat)
    requires Ranked(root, rank) && ListBelow(l, rank, n) && ListRefFree(l)
    ensures ExpandList(root, rank, l, n) == l
    decreases l
  {
    if l.Nil? {
    } else {
      RefFreeIsFixed(root, rank, l.head, n);
      RefFreeListIsFixed(root, rank, l.tail, n);
    }
  }

  lemma {:induction false} RefFreeFieldsAreFixed(root: Json, rank: Ranks, f: Fields, n: nat)
    requires Ranked(root, rank) && FieldsBelow(f, rank, n) && FieldsRefFree(f)
    ensures ExpandFields(root, rank, f, n) == f
    decreases f
  {
    if f.End? {
    } else {
      RefFreeIsFixed(root, rank, f.value, n);
      RefFreeFieldsAreFixed(root, rank, f.rest, n);
    }
  }

  // ---- What a reference leads to ----

  /** A slash and a key, for each key in turn. */
  function Pointer(keys: seq<string>): string { if keys == [] then "" else "/" + keys[0] + Pointer(keys[1..]) }

  predicate SlashFree(keys: seq<string>) { forall k <- keys :: '/' !in k }

  lemma {:induction false} PiecesOfPointer(a: string, keys: seq<string>)
    requires '/' !in a && SlashFree(keys)
    ensures Pieces(a + Pointer(keys)) == [a] + keys
    decreases |keys|, |a|
  {
    var s := a + Pointer(keys);
    if a != "" {
      PiecesOfPointer(a[1..], keys);
      assert s[1..] == a[1..] + Pointer(keys) && a == [a[0]] + a[1..];
    } else if keys != [] {
      PiecesOfPointer(keys[0], keys[1..]);
      assert s[1..] == keys[0] + Pointer(keys[1..]) && keys == [keys[0]] + keys[1..];
    }
  }

  /** A number sign, and then a slash and a key for each of the keys, names those keys. */
  lemma {:induction false} PathOfPointer(keys: seq<string>)
    requires SlashFree(keys)
    ensures Path("#" + Pointer(keys)) == keys
  {
    PiecesOfPointer("#", keys);
  }

  lemma {:induction false} PiecesOfMore(ref: string)
    requires ref != ""
    ensures ref[0] == '/' ==> Pieces(ref) == [""] + Pieces(ref[1..])
    ensures ref[0] != '/' ==>
      Pieces(ref)[0] == [ref[0]] + Pieces(ref[1..])[0] && Path(ref) == Path(ref[1..])
  {
  }

  lemma {:induction false} PointerOfMore(key: string, keys: seq<string>)
    ensures Pointer([key] + keys) == "/" + (key + Pointer(keys))
  {
    assert ([key] + keys)[1..] == keys;
  }

  /** Every reference is spelled that way, with whatever stands before its first slash for the number sign. */
  lemma {:induction false} PointerOfPath(ref: string) returns (a: string)
    ensures '/' !in a && SlashFree(Path(ref)) && ref == a + Pointer(Path(ref))
    ensures a == Pieces(ref)[0]
    decreases |ref|
  {
    a := Pieces(ref)[0];
    if ref != "" {
      var rest := PointerOfPath(ref[1..]);
      PiecesOfMore(ref);
      assert ref == [ref[0]] + ref[1..];
      if ref[0] == '/' {
        assert Path(ref) == [rest] + Path(ref[1..]);
        PointerOfMore(rest, Path(ref[1..]));
      }
    }
  }

  /** Looking the keys up one after the other, from `j` on, leads to `t`. */
  predicate LeadsTo(j: Json, keys: seq<string>, t: Json)
    decreases |keys|
  {
    if keys == [] then t == j
    else j.Obj? && Has(j.fields, keys[0]) && LeadsTo(Get(j.fields, keys[0]), keys[1..], t)
  }

  lemma {:induction false} FollowLeads(j: Json, keys: seq<string>)
    requires Follow(j, keys).Some?
    ensures LeadsTo(j, keys, Follow(j, keys).value)
    decreases |keys|
  {
    if keys == [] {
    } else {
      FollowLeads(Get(j.fields, keys[0]), keys[1..]);
    }
  }

  lemma {:induction false} LeadsOnce(j: Json, keys: seq<string>, t: Json, t': Json)
    requires LeadsTo(j, keys, t) && LeadsTo(j, keys, t')
    ensures t == t'
    decreases |keys|
  {
    if keys == [] {
    } else {
      LeadsOnce(Get(j.fields, keys[0]), keys[1..], t, t');
    }
  }

  /** A dictionary with `$ref` expands to the expansion of the value its keys lead to from the root, and its other
      entries leave no trace. */
  lemma {:induction false} RefExpandsToTarget(root: Json, rank: Ranks, f: Fields, n: nat, keys: seq<string>)
    returns (t: Json, m: nat)
    requires Ranked(root, rank) && Below(Obj(f), rank, n) && IsRef(f) && SlashFree(keys)
    requires Get(f, REF) == Leaf(Str("#" + Pointer(keys)))
    ensures LeadsTo(root, keys, t) && m < n && Below(t, rank, m)
    ensures forall x :: LeadsTo(root, keys, x) ==> x == t
    ensures Expand(root, rank, Obj(f), n) == Expand(root, rank, t, m)
  {
    PathOfPointer(keys);
    t, m := Target(root, RefOf(f)), rank[RefOf(f)];
    FollowLeads(root, keys);
    forall x | LeadsTo(root, keys, x) ensures x == t { LeadsOnce(root, keys, x, t); }
  }

  /** Any other dictionary keeps its keys, and under each of them stands the expansion of what stood there. */
  lemma {:induction false} EntriesExpandInPlace(root: Json, rank: Ranks, f: Fields, n: nat, k: string)
    requires Ranked(root, rank) && Below(Obj(f), rank, n) && !IsRef(f)
    ensures var e := Expand(root, rank, Obj(f), n);
      e.Obj? && (Has(e.fields, k) <==> Has(f, k)) &&
      (Has(f, k) ==> Below(Get(f, k), rank, n) && Get(e.fields, k) == Expand(root, rank, Get(f, k), n))
  {
    FieldExpands(root, rank, f, n, k);
  }

  lemma {:induction false} FieldExpands(root: Json, rank: Ranks, f: Fields, n: nat, k: string)
    requires Ranked(root, rank) && FieldsBelow(f, rank, n)
    ensures var e := ExpandFields(root, rank, f, n);
      (Has(e, k) <==> Has(f, k)) &&
      (Has(f, k) ==> Below(Get(f, k), rank, n) && Get(e, k) == Expand(root, rank, Get(f, k), n))
    decreases f
  {
    if f.End? {
    } else {
      FieldExpands(root, rank, f.rest, n, k);
    }
  }

  // ---- When expansion keeps a value as it is ----

  /** A value that only stands for itself, such as a literal under `const` or the dictionary under `properties`,
      survives exactly when no dictionary in it has a key `$ref`. */
  lemma {:induction false} KeptExactlyWhenRefFree(root: Json, rank: Ranks, j: Json, n: nat)
    requires Ranked(root, rank) && Below(j, rank, n)
    ensures Expand(root, rank, j, n) == j <==> RefFree(j)
  {
    ExpandedIsRefFree(root, rank, j, n);
    if RefFree(j) { RefFreeIsFixed(root, rank, j, n); }
  }
}
