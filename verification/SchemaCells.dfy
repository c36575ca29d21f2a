/** Documents as shared, mutable dictionaries.  A dictionary is a numbered cell; a value may refer to it. */
module SchemaCells {
  import opened Common
  import opened SchemaRefs
  import opened SchemaMeaning

  datatype Val = Plain(atom: Atom) | Items(items: Vals) | Dict(id: nat)

  datatype Vals = NoVals | ConsVal(head: Val, tail: Vals)

  datatype Slots = NoSlots | Slot(key: string, val: Val, rest: Slots)

  type Cells = map<nat, Slots>

  predicate HasSlot(c: Slots, k: string) { c.Slot? && (c.key == k || HasSlot(c.rest, k)) }

  function GetSlot(c: Slots, k: string): Val
    requires HasSlot(c, k)
  {
    if c.key == k then c.val else GetSlot(c.rest, k)
  }

  function SetSlot(c: Slots, k: string, v: Val): Slots
    requires HasSlot(c, k)
  {
    if c.key == k then Slot(k, v, c.rest) else Slot(c.key, c.val, SetSlot(c.rest, k, v))
  }

  function Count(c: Slots): nat { if c.NoSlots? then 0 else 1 + Count(c.rest) }

  function Nth(c: Slots, i: nat): Slots
    requires i < Count(c)
    ensures Nth(c, i).Slot?
  {
    if i == 0 then c else Nth(c.rest, i - 1)
  }

  /** Walk the dictionaries along a path, as they are now. */
  function Resolve(cells: Cells, v: Val, path: seq<string>): Option<Val>
    decreases |path|
  {
    if path == [] then Some(v)
    else if v.Dict? && v.id in cells && HasSlot(cells[v.id], path[0]) then
      Resolve(cells, GetSlot(cells[v.id], path[0]), path[1..])
    else None
  }

  // ---- The tree a value stands for, given the tree of every dictionary ----

  type Trees = map<nat, Json>

  predicate Known(m: Trees, v: Val) {
    match v
    case Plain(_) => true
    case Items(vs) => KnownAll(m, vs)
    case Dict(id) => id in m
  }

  predicate KnownAll(m: Trees, vs: Vals) { vs.NoVals? || (Known(m, vs.head) && KnownAll(m, vs.tail)) }

  predicate KnownSlots(m: Trees, c: Slots) { c.NoSlots? || (Known(m, c.val) && KnownSlots(m, c.rest)) }

  function Value(m: Trees, v: Val): Json
    requires Known(m, v)
  {
    match v
    case Plain(a) => Leaf(a)
    case Items(vs) => Arr(ListValue(m, vs))
    case Dict(id) => m[id]
  }

  function ListValue(m: Trees, vs: Vals): List
    requires KnownAll(m, vs)
  {
    if vs.NoVals? then Nil else Cons(Value(m, vs.head), ListValue(m, vs.tail))
  }

  function SlotsValue(m: Trees, c: Slots): Fields
    requires KnownSlots(m, c)
  {
    if c.NoSlots? then End else Field(c.key, Value(m, c.val), SlotsValue(m, c.rest))
  }

  /** No dictionary of `tree` is referred to. */
  predicate Apart(tree: Trees, v: Val) {
    match v
    case Plain(_) => true
    case Items(vs) => AllApart(tree, vs)
    case Dict(id) => id !in tree
  }

  predicate AllApart(tree: Trees, vs: Vals) { vs.NoVals? || (Apart(tree, vs.head) && AllApart(tree, vs.tail)) }

  predicate SlotsApart(tree: Trees, c: Slots) { c.NoSlots? || (Apart(tree, c.val) && SlotsApart(tree, c.rest)) }

  /** Reading the value out of the cells yields `j`. */
  predicate Denotes(cells: Cells, v: Val, j: Json)
    decreases j
  {
    match v
    case Plain(a) => j == Leaf(a)
    case Items(vs) => j.Arr? && DenotesAll(cells, vs, j.items)
    case Dict(id) => id in cells && j.Obj? && SlotsDenote(cells, cells[id], j.fields)
  }

  predicate DenotesAll(cells: Cells, vs: Vals, l: List)
    decreases l
  {
    if vs.NoVals? then l.Nil? else l.Cons? && Denotes(cells, vs.head, l.head) && DenotesAll(cells, vs.tail, l.tail)
  }

  predicate SlotsDenote(cells: Cells, c: Slots, f: Fields)
    decreases f
  {
    if c.NoSlots? then f.End?
    else f.Field? && c.key == f.key && Denotes(cells, c.val, f.value) && SlotsDenote(cells, c.rest, f.rest)
  }

  // ---- The document being expanded ----

  /** The root schema as it was parsed, the ranks of its references, a bound above all ranks, and the tree of every
      dictionary the parser built. */
  datatype Doc = Doc(root: Json, rank: Ranks, top: nat, tree: Trees)

  ghost predicate Sound(doc: Doc) {
    && Ranked(doc.root, doc.rank)
    && (forall r <- doc.rank :: doc.rank[r] < doc.top)
    && (forall id <- doc.tree :: doc.tree[id].Obj?)
  }

  ghost predicate Ours(doc: Doc, j: Json) { Below(j, doc.rank, doc.top) }

  ghost function Full(doc: Doc, j: Json): Json
    requires Sound(doc) && Ours(doc, j)
  {
    Expand(doc.root, doc.rank, j, doc.top)
  }

  /** What a slot holds: what the parser put there or, under an overwritten keyword, the expansion of that. */
  ghost predicate SlotStands(doc: Doc, m: Trees, k: string, v: Val, j: Json)
    requires Sound(doc)
  {
    || (Known(doc.tree, v) && Value(doc.tree, v) == j)
    || (Overwritten(k) && j.Arr? && Ours(doc, j) && v.Items? && Known(m, v) && Value(m, v) == Full(doc, j))
  }

  ghost predicate Shape(doc: Doc, m: Trees, c: Slots, f: Fields)
    requires Sound(doc)
    decreases f
  {
    if c.NoSlots? then f.End?
    else f.Field? && c.key == f.key && SlotStands(doc, m, c.key, c.val, f.value) && Shape(doc, m, c.rest, f.rest)
  }

  ghost predicate Expanded(j: Json) { j.Obj? && RefFree(j) && Below(j, map[], 0) }

  /** A dictionary of the document: its keys never change, and its meaning is the expansion of what was parsed. */
  ghost predicate OldCell(doc: Doc, m: Trees, c: Slots, id: nat)
    requires Sound(doc) && id in doc.tree
  {
    && Shape(doc, m, c, doc.tree[id].fields)
    && (id in m <==> Ours(doc, doc.tree[id]))
    && (id in m ==> m[id] == Full(doc, doc.tree[id]))
  }

  /** A dictionary the expansion made: it refers to none of the document. */
  ghost predicate NewCell(doc: Doc, m: Trees, c: Slots, id: nat) {
    id in m && KnownSlots(m, c) && SlotsApart(doc.tree, c) && m[id] == Obj(SlotsValue(m, c)) && Expanded(m[id])
  }

  ghost predicate Inv(doc: Doc, m: Trees, cells: Cells, next: nat) {
    && Sound(doc)
    && doc.tree.Keys <= cells.Keys && m.Keys <= cells.Keys
    && (forall id <- cells :: id < next)
    && (forall id <- cells :: if id in doc.tree then OldCell(doc, m, cells[id], id) else NewCell(doc, m, cells[id], id))
  }

  ghost predicate IsRefCell(doc: Doc, id: nat) {
    id in doc.tree && doc.tree[id].Obj? && IsRef(doc.tree[id].fields)
  }

  /** How many references can still be followed one after the other. */
  ghost function RefRank(doc: Doc, v: Val): nat {
    if v.Dict? && IsRefCell(doc, v.id) && Ours(doc, doc.tree[v.id]) then
      doc.rank[RefOf(doc.tree[v.id].fields)] + 1
    else 0
  }

  // ---- Knowing more dictionaries changes no value ----

  ghost predicate Grows(m: Trees, m': Trees) { forall id <- m :: id in m' && m'[id] == m[id] }

  lemma {:induction false} ValueGrows(m: Trees, m': Trees, v: Val)
    requires Grows(m, m') && Known(m, v)
    ensures Known(m', v) && Value(m', v) == Value(m, v)
    decreases v
  {
    if v.Items? { ListValueGrows(m, m', v.items); }
  }

  lemma {:induction false} ListValueGrows(m: Trees, m': Trees, vs: Vals)
    requires Grows(m, m') && KnownAll(m, vs)
    ensures KnownAll(m', vs) && ListValue(m', vs) == ListValue(m, vs)
    decreases vs
  {
    if vs.NoVals? {
    } else {
      ValueGrows(m, m', vs.head);
      ListValueGrows(m, m', vs.tail);
    }
  }

  lemma {:induction false} SlotsValueGrows(m: Trees, m': Trees, c: Slots)
    requires Grows(m, m') && KnownSlots(m, c)
    ensures KnownSlots(m', c) && SlotsValue(m', c) == SlotsValue(m, c)
    decreases c
  {
    if c.NoSlots? {
    } else {
      ValueGrows(m, m', c.val);
      SlotsValueGrows(m, m', c.rest);
    }
  }

  lemma {:induction false} ShapeGrows(doc: Doc, m: Trees, m': Trees, c: Slots, f: Fields)
    requires Sound(doc) && Grows(m, m') && Shape(doc, m, c, f)
    ensures Shape(doc, m', c, f)
    decreases c
  {
    if c.NoSlots? {
    } else {
      if Known(m, c.val) { ValueGrows(m, m', c.val); }
      ShapeGrows(doc, m, m', c.rest, f.rest);
    }
  }

  // ---- What a dictionary of the document means now ----

  ghost predicate MeansTrees(doc: Doc, m: Trees)
    requires Sound(doc)
  {
    forall id <- doc.tree :: Ours(doc, doc.tree[id]) ==> id in m && m[id] == Full(doc, doc.tree[id])
  }

  /** What the parser built means its own expansion. */
  lemma {:induction false} ParsedMeans(doc: Doc, m: Trees, v: Val)
    requires Sound(doc) && MeansTrees(doc, m) && Known(doc.tree, v) && Ours(doc, Value(doc.tree, v))
    ensures Known(m, v) && Value(m, v) == Full(doc, Value(doc.tree, v))
    decreases v
  {
    if v.Items? { ParsedListMeans(doc, m, v.items); }
  }

  lemma {:induction false} ParsedListMeans(doc: Doc, m: Trees, vs: Vals)
    requires Sound(doc) && MeansTrees(doc, m) && KnownAll(doc.tree, vs)
    requires ListBelow(ListValue(doc.tree, vs), doc.rank, doc.top)
    ensures KnownAll(m, vs)
    ensures ListValue(m, vs) == ExpandList(doc.root, doc.rank, ListValue(doc.tree, vs), doc.top)
    decreases vs
  {
    if vs.NoVals? {
    } else {
      ParsedMeans(doc, m, vs.head);
      ParsedListMeans(doc, m, vs.tail);
    }
  }

  lemma {:induction false} SlotMeans(doc: Doc, m: Trees, k: string, v: Val, j: Json)
    requires Sound(doc) && MeansTrees(doc, m) && SlotStands(doc, m, k, v, j) && Ours(doc, j)
    ensures Known(m, v) && Value(m, v) == Full(doc, j)
  {
    if Known(doc.tree, v) && Value(doc.tree, v) == j { ParsedMeans(doc, m, v); }
  }

  lemma {:induction false} ShapeMeans(doc: Doc, m: Trees, c: Slots, f: Fields)
    requires Sound(doc) && MeansTrees(doc, m) && Shape(doc, m, c, f) && FieldsBelow(f, doc.rank, doc.top)
    ensures KnownSlots(m, c) && SlotsValue(m, c) == ExpandFields(doc.root, doc.rank, f, doc.top)
    decreases c
  {
    if c.NoSlots? {
    } else {
      SlotMeans(doc, m, c.key, c.val, f.value);
      ShapeMeans(doc, m, c.rest, f.rest);
    }
  }

  /** Whatever has been overwritten so far, a dictionary without `$ref` still spells out its meaning, which needs
      no further expansion. */
  lemma {:induction false} CellMeans(doc: Doc, m: Trees, cells: Cells, next: nat, id: nat)
    requires Inv(doc, m, cells, next) && id in m && !IsRefCell(doc, id)
    ensures KnownSlots(m, cells[id]) && m[id] == Obj(SlotsValue(m, cells[id])) && Expanded(m[id])
  {
    if id in doc.tree {
      assert OldCell(doc, m, cells[id], id);
      AllOldMean(doc, m, cells, next);
      ShapeMeans(doc, m, cells[id], doc.tree[id].fields);
      ExpandedIsRefFree(doc.root, doc.rank, doc.tree[id], doc.top);
      ExpandedIsBelow(doc.root, doc.rank, doc.tree[id], doc.top);
    } else {
      assert NewCell(doc, m, cells[id], id);
    }
  }

  lemma {:induction false} AllOldMean(doc: Doc, m: Trees, cells: Cells, next: nat)
    requires Inv(doc, m, cells, next)
    ensures MeansTrees(doc, m)
  {
    forall id <- doc.tree ensures Ours(doc, doc.tree[id]) ==> id in m && m[id] == Full(doc, doc.tree[id]) {
      assert OldCell(doc, m, cells[id], id);
    }
  }

  // ---- Slots ----

  lemma {:induction false} SlotsHas(m: Trees, c: Slots, k: string)
    requires KnownSlots(m, c)
    ensures Has(SlotsValue(m, c), k) == HasSlot(c, k)
    ensures HasSlot(c, k) ==> Known(m, GetSlot(c, k)) && Value(m, GetSlot(c, k)) == Get(SlotsValue(m, c), k)
    decreases c
  {
    if c.NoSlots? {
    } else {
      SlotsHas(m, c.rest, k);
    }
  }

  lemma {:induction false} GetIsSmaller(f: Fields, k: string)
    requires Has(f, k) && FieldsBelow(f, map[], 0)
    ensures Below(Get(f, k), map[], 0) && (Overwritten(k) ==> Get(f, k).Arr?)
    ensures f decreases to Get(f, k)
    decreases f
  {
    if f.key != k { GetIsSmaller(f.rest, k); }
  }

  lemma {:induction false} SetSlotValue(doc: Doc, m: Trees, c: Slots, k: string, v: Val)
    requires KnownSlots(m, c) && HasSlot(c, k) && Known(m, v)
    requires Known(m, GetSlot(c, k)) && Value(m, v) == Value(m, GetSlot(c, k))
    ensures KnownSlots(m, SetSlot(c, k, v)) && SlotsValue(m, SetSlot(c, k, v)) == SlotsValue(m, c)
    ensures SlotsApart(doc.tree, c) && Apart(doc.tree, v) ==> SlotsApart(doc.tree, SetSlot(c, k, v))
    decreases c
  {
    if c.key != k { SetSlotValue(doc, m, c.rest, k, v); }
  }

  lemma {:induction false} SetSlotShape(doc: Doc, m: Trees, c: Slots, f: Fields, k: string, v: Val)
    requires Sound(doc) && MeansTrees(doc, m) && Shape(doc, m, c, f) && FieldsBelow(f, doc.rank, doc.top)
    requires HasSlot(c, k) && Overwritten(k) && v.Items? && Known(m, v)
    requires Known(m, GetSlot(c, k)) && Value(m, v) == Value(m, GetSlot(c, k))
    ensures Shape(doc, m, SetSlot(c, k, v), f)
    decreases c
  {
    if c.key == k { SlotMeans(doc, m, k, c.val, f.value); }
    else { SetSlotShape(doc, m, c.rest, f.rest, k, v); }
  }

  lemma {:induction false} ShapeHas(doc: Doc, m: Trees, c: Slots, f: Fields, k: string)
    requires Sound(doc) && Shape(doc, m, c, f)
    ensures HasSlot(c, k) == Has(f, k)
    ensures Has(f, k) ==> SlotStands(doc, m, k, GetSlot(c, k), Get(f, k))
    decreases c
  {
    if c.NoSlots? {
    } else {
      ShapeHas(doc, m, c.rest, f.rest, k);
    }
  }

  // ---- References ----

  /** A path that leads somewhere in the parsed document leads, in the overwritten one, to the same meaning. */
  lemma {:induction false} ResolveMeans(
    doc: Doc, m: Trees, cells: Cells, next: nat, v: Val, path: seq<string>, n: nat)
    requires Inv(doc, m, cells, next) && Known(doc.tree, v) && n <= doc.top
    requires Follow(Value(doc.tree, v), path).Some? && Below(Follow(Value(doc.tree, v), path).value, doc.rank, n)
    requires Ours(doc, Follow(Value(doc.tree, v), path).value)
    ensures var u := Resolve(cells, v, path);
      u.Some? && Known(m, u.value) && RefRank(doc, u.value) <= n &&
      Value(m, u.value) == Full(doc, Follow(Value(doc.tree, v), path).value)
    decreases |path|
  {
    AllOldMean(doc, m, cells, next);
    if path == [] {
      ParsedMeans(doc, m, v);
    } else {
      assert OldCell(doc, m, cells[v.id], v.id);
      ShapeHas(doc, m, cells[v.id], doc.tree[v.id].fields, path[0]);
      var u := GetSlot(cells[v.id], path[0]);
      if Known(doc.tree, u) && Value(doc.tree, u) == Get(doc.tree[v.id].fields, path[0]) {
        ResolveMeans(doc, m, cells, next, u, path[1..], n);
      } else {
        assert path[1..] == [];
      }
    }
  }

  lemma {:induction false} WithinTop(doc: Doc, j: Json, n: nat)
    requires Sound(doc) && Below(j, doc.rank, n)
    ensures Ours(doc, j)
    decreases j
  {
    match j
    case Leaf(_) =>
    case Arr(l) => ListWithinTop(doc, l, n);
    case Obj(f) => if !IsRef(f) { FieldsWithinTop(doc, f, n); }
  }

  lemma {:induction false} ListWithinTop(doc: Doc, l: List, n: nat)
    requires Sound(doc) && ListBelow(l, doc.rank, n)
    ensures ListBelow(l, doc.rank, doc.top)
    decreases l
  {
    if l.Nil? {
    } else {
      WithinTop(doc, l.head, n);
      ListWithinTop(doc, l.tail, n);
    }
  }

  lemma {:induction false} FieldsWithinTop(doc: Doc, f: Fields, n: nat)
    requires Sound(doc) && FieldsBelow(f, doc.rank, n)
    ensures FieldsBelow(f, doc.rank, doc.top)
    decreases f
  {
    if f.End? {
    } else {
      WithinTop(doc, f.value, n);
      FieldsWithinTop(doc, f.rest, n);
    }
  }

  // ---- Preservation ----

  lemma {:induction false} InvSet(doc: Doc, m: Trees, cells: Cells, next: nat, id: nat, k: string, v: Val)
    requires Inv(doc, m, cells, next) && id in m && !IsRefCell(doc, id) && HasSlot(cells[id], k) && Overwritten(k)
    requires v.Items? && Known(m, v) && Apart(doc.tree, v)
    requires Known(m, GetSlot(cells[id], k)) && Value(m, v) == Value(m, GetSlot(cells[id], k))
    ensures Inv(doc, m, cells[id := SetSlot(cells[id], k, v)], next)
  {
    AllOldMean(doc, m, cells, next);
    CellMeans(doc, m, cells, next, id);
    SetSlotValue(doc, m, cells[id], k, v);
    var c := SetSlot(cells[id], k, v);
    if id in doc.tree {
      assert OldCell(doc, m, cells[id], id);
      SetSlotShape(doc, m, cells[id], doc.tree[id].fields, k, v);
      assert OldCell(doc, m, c, id);
    } else {
      assert NewCell(doc, m, cells[id], id);
      assert NewCell(doc, m, c, id);
    }
  }

  lemma {:induction false} InvNew(doc: Doc, m: Trees, cells: Cells, next: nat, c: Slots)
    requires Inv(doc, m, cells, next) && KnownSlots(m, c) && SlotsApart(doc.tree, c)
    requires Expanded(Obj(SlotsValue(m, c)))
    ensures Grows(m, m[next := Obj(SlotsValue(m, c))])
    ensures Inv(doc, m[next := Obj(SlotsValue(m, c))], cells[next := c], next + 1)
  {
    assert next !in cells;
    var m' := m[next := Obj(SlotsValue(m, c))];
    forall id <- cells[next := c]
      ensures if id in doc.tree then OldCell(doc, m', cells[next := c][id], id)
              else NewCell(doc, m', cells[next := c][id], id)
    {
      if id == next { SlotsValueGrows(m, m', c); }
      else if id in doc.tree {
        assert OldCell(doc, m, cells[id], id);
        ShapeGrows(doc, m, m', cells[id], doc.tree[id].fields);
      } else {
        assert NewCell(doc, m, cells[id], id);
        SlotsValueGrows(m, m', cells[id]);
      }
    }
  }

  // ---- Reading a result ----

  /** A value that refers to no dictionary of the document reads as its meaning. */
  lemma {:induction false} ApartDenotes(doc: Doc, m: Trees, cells: Cells, next: nat, v: Val)
    requires Inv(doc, m, cells, next) && Known(m, v) && Apart(doc.tree, v)
    ensures Denotes(cells, v, Value(m, v))
    decreases Value(m, v), 1
  {
    match v
    case Plain(_) =>
    case Items(vs) => ApartListDenotes(doc, m, cells, next, vs);
    case Dict(id) =>
      assert NewCell(doc, m, cells[id], id);
      ApartSlotsDenote(doc, m, cells, next, cells[id]);
  }

  lemma {:induction false} ApartListDenotes(doc: Doc, m: Trees, cells: Cells, next: nat, vs: Vals)
    requires Inv(doc, m, cells, next) && KnownAll(m, vs) && AllApart(doc.tree, vs)
    ensures DenotesAll(cells, vs, ListValue(m, vs))
    decreases ListValue(m, vs), 1
  {
    if vs.NoVals? {
    } else {
      ApartDenotes(doc, m, cells, next, vs.head);
      ApartListDenotes(doc, m, cells, next, vs.tail);
    }
  }

  lemma {:induction false} ApartSlotsDenote(doc: Doc, m: Trees, cells: Cells, next: nat, c: Slots)
    requires Inv(doc, m, cells, next) && KnownSlots(m, c) && SlotsApart(doc.tree, c)
    ensures SlotsDenote(cells, c, SlotsValue(m, c))
    decreases SlotsValue(m, c), 1
  {
    if c.NoSlots? {
    } else {
      ApartDenotes(doc, m, cells, next, c.val);
      ApartSlotsDenote(doc, m, cells, next, c.rest);
    }
  }

  /** Reading a value has one outcome. */
  lemma {:induction false} DenotesOnce(cells: Cells, v: Val, j: Json, j': Json)
    requires Denotes(cells, v, j) && Denotes(cells, v, j')
    ensures j == j'
    decreases j, 1
  {
    match v
    case Plain(_) =>
    case Items(vs) => DenotesAllOnce(cells, vs, j.items, j'.items);
    case Dict(id) => SlotsDenoteOnce(cells, cells[id], j.fields, j'.fields);
  }

  lemma {:induction false} DenotesAllOnce(cells: Cells, vs: Vals, l: List, l': List)
    requires DenotesAll(cells, vs, l) && DenotesAll(cells, vs, l')
    ensures l == l'
    decreases l, 1
  {
    if vs.NoVals? {
    } else {
      DenotesOnce(cells, vs.head, l.head, l'.head);
      DenotesAllOnce(cells, vs.tail, l.tail, l'.tail);
    }
  }

  lemma {:induction false} SlotsDenoteOnce(cells: Cells, c: Slots, f: Fields, f': Fields)
    requires SlotsDenote(cells, c, f) && SlotsDenote(cells, c, f')
    ensures f == f'
    decreases f, 1
  {
    if c.NoSlots? {
    } else {
      DenotesOnce(cells, c.val, f.value, f'.value);
      SlotsDenoteOnce(cells, c.rest, f.rest, f'.rest);
    }
  }

  // ---- The document as parsed ----

  lemma {:induction false} ParsedShape(doc: Doc, m: Trees, c: Slots)
    requires Sound(doc) && KnownSlots(doc.tree, c)
    ensures Shape(doc, m, c, SlotsValue(doc.tree, c))
    decreases c
  {
    if c.NoSlots? {
    } else {
      ParsedShape(doc, m, c.rest);
    }
  }

  /** A dictionary with a key `$ref` is one of the document's, and its reference was never overwritten. */
  lemma {:induction false} RefCellMeans(doc: Doc, m: Trees, cells: Cells, next: nat, id: nat)
    requires Inv(doc, m, cells, next) && id in m
    ensures HasSlot(cells[id], REF) <==> IsRefCell(doc, id)
    ensures IsRefCell(doc, id) ==>
      Ours(doc, doc.tree[id]) && GetSlot(cells[id], REF) == Plain(Str(RefOf(doc.tree[id].fields)))
  {
    if IsRefCell(doc, id) {
      assert OldCell(doc, m, cells[id], id);
      ShapeHas(doc, m, cells[id], doc.tree[id].fields, REF);
    } else {
      CellMeans(doc, m, cells, next, id);
      SlotsHas(m, cells[id], REF);
    }
  }

  /** A reference and what it leads to now mean the same, and fewer references are left to follow. */
  lemma {:induction false} ReferenceMeans(doc: Doc, m: Trees, cells: Cells, next: nat, schema: Val, id: nat)
    requires Inv(doc, m, cells, next) && id in m && IsRefCell(doc, id) && Ours(doc, doc.tree[id])
    requires Known(doc.tree, schema) && Value(doc.tree, schema) == doc.root
    ensures var u := Resolve(cells, schema, Path(RefOf(doc.tree[id].fields)));
      u.Some? && Known(m, u.value) && Value(m, u.value) == m[id] && RefRank(doc, u.value) < RefRank(doc, Dict(id))
  {
    assert OldCell(doc, m, cells[id], id);
    var r := RefOf(doc.tree[id].fields);
    var t := Target(doc.root, r);
    WithinTop(doc, t, doc.rank[r]);
    ResolveMeans(doc, m, cells, next, schema, Path(r), doc.rank[r]);
    BoundIsIrrelevant(doc.root, doc.rank, t, doc.rank[r], doc.top);
  }

  lemma {:induction false} ListAt(f: Fields, rank: Ranks, n: nat, k: string)
    requires FieldsBelow(f, rank, n) && Has(f, k) && Overwritten(k)
    ensures Get(f, k).Arr?
    decreases f
  {
    if f.key != k { ListAt(f.rest, rank, n, k); }
  }

  lemma {:induction false} ApartAt(doc: Doc, c: Slots, k: string)
    requires SlotsApart(doc.tree, c) && HasSlot(c, k)
    ensures Apart(doc.tree, GetSlot(c, k))
    decreases c
  {
    if c.key != k { ApartAt(doc, c.rest, k); }
  }

  lemma {:induction false} NewIsObject(doc: Doc, m: Trees, cells: Cells, next: nat, v: Val)
    requires Inv(doc, m, cells, next) && Known(m, v) && Apart(doc.tree, v)
    ensures v.Dict? ==> Value(m, v).Obj?
  {
    if v.Dict? { assert NewCell(doc, m, cells[v.id], v.id); }
  }

  /** What is about to be overwritten is a list, not a reference to one. */
  lemma {:induction false} KeywordHoldsList(doc: Doc, m: Trees, cells: Cells, next: nat, id: nat, k: string)
    requires Inv(doc, m, cells, next) && id in m && !IsRefCell(doc, id) && HasSlot(cells[id], k) && Overwritten(k)
    ensures GetSlot(cells[id], k).Items?
  {
    if id in doc.tree {
      assert OldCell(doc, m, cells[id], id);
      ShapeHas(doc, m, cells[id], doc.tree[id].fields, k);
      ListAt(doc.tree[id].fields, doc.rank, doc.top, k);
    } else {
      assert NewCell(doc, m, cells[id], id);
      SlotsHas(m, cells[id], k);
      ListAt(m[id].fields, map[], 0, k);
      ApartAt(doc, cells[id], k);
      var v := GetSlot(cells[id], k);
      NewIsObject(doc, m, cells, next, v);
    }
  }

  /** All that ever changes in the caller's document is the lists under the three keywords. */
  lemma {:induction false} OnlyKeywordListsChange(doc: Doc, m: Trees, cells: Cells, next: nat, id: nat, k: string)
    requires Inv(doc, m, cells, next) && id in doc.tree
    ensures HasSlot(cells[id], k) <==> Has(doc.tree[id].fields, k)
    ensures HasSlot(cells[id], k) && !Overwritten(k) ==>
      var v := GetSlot(cells[id], k); Known(doc.tree, v) && Value(doc.tree, v) == Get(doc.tree[id].fields, k)
  {
    assert OldCell(doc, m, cells[id], id);
    ShapeHas(doc, m, cells[id], doc.tree[id].fields, k);
  }
}
