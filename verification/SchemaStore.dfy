/** `expand_json_schema_refs` as it runs: it overwrites keyword lists in the very dictionaries it resolves
    references against, and copies every dictionary it returns. */
module SchemaStore {
  import opened SchemaRefs
  import opened SchemaMeaning
  import opened SchemaCells

  lemma {:induction false} NthMeans(m: Trees, c: Slots, i: nat)
    requires KnownSlots(m, c) && i < Count(c)
    ensures Size(SlotsValue(m, c)) == Count(c)
    ensures var s := Nth(c, i); KnownSlots(m, s) && s.Slot? && SlotsValue(m, s) == Drop(SlotsValue(m, c), i)
    decreases i
  {
    SizeIsCount(m, c);
    if i > 0 { NthMeans(m, c.rest, i - 1); }
  }

  function Size(f: Fields): nat { if f.End? then 0 else 1 + Size(f.rest) }

  /** The entries from the `i`-th on. */
  function Drop(f: Fields, i: nat): Fields
    requires i <= Size(f)
  {
    if i == 0 then f else Drop(f.rest, i - 1)
  }

  lemma {:induction false} SizeIsCount(m: Trees, c: Slots)
    requires KnownSlots(m, c)
    ensures Size(SlotsValue(m, c)) == Count(c)
    decreases c
  {
    if c.NoSlots? {
    } else {
      SizeIsCount(m, c.rest);
    }
  }

  lemma {:induction false} DropMore(f: Fields, i: nat)
    requires i < Size(f)
    ensures Drop(f, i).Field? && Drop(f, i + 1) == Drop(f, i).rest
    ensures FieldsBelow(f, map[], 0) ==> FieldsBelow(Drop(f, i), map[], 0)
    ensures FieldsRefFree(f) ==> FieldsRefFree(Drop(f, i))
    decreases i
  {
    if i == 0 {
    } else {
      DropMore(f.rest, i - 1);
    }
  }

  lemma {:induction false} DropAll(f: Fields)
    ensures Drop(f, Size(f)) == End
    decreases f
  {
    if f.End? {
    } else {
      DropAll(f.rest);
    }
  }

  /** The `i`-th entry of a dictionary, by what the dictionary means. */
  lemma {:induction false} EntryMeans(doc: Doc, m: Trees, cells: Cells, next: nat, id: nat, i: nat)
    requires Inv(doc, m, cells, next) && id in m && !IsRefCell(doc, id) && m[id].Obj? && i <= Size(m[id].fields)
    ensures i == Count(cells[id]) ==> Drop(m[id].fields, i) == End
    ensures i != Count(cells[id]) ==>
      && i < Count(cells[id]) && i < Size(m[id].fields)
      && var slot := Nth(cells[id], i); var rest := Drop(m[id].fields, i);
         rest.Field? && slot.key == rest.key && Known(m, slot.val) && Value(m, slot.val) == rest.value
         && Drop(m[id].fields, i + 1) == rest.rest
  {
    CellMeans(doc, m, cells, next, id);
    SizeIsCount(m, cells[id]);
    if i == Count(cells[id]) {
      DropAll(m[id].fields);
    } else {
      NthMeans(m, cells[id], i);
      DropMore(m[id].fields, i);
    }
  }

  class SchemaStore {
    var cells: Cells
    var next: nat
    const rootSchema: Val
    ghost const doc: Doc
    ghost var meaning: Trees

    ghost predicate Valid()
      reads this
    {
      && Inv(doc, meaning, cells, next)
      && Known(doc.tree, rootSchema) && Value(doc.tree, rootSchema) == doc.root
    }

    /** The parser's dictionaries, before anything is overwritten. */
    constructor (parsed: Cells, schema: Val, bound: nat, ghost doc: Doc)
      requires Sound(doc) && doc.tree.Keys == parsed.Keys && (forall id <- parsed :: id < bound)
      requires forall id <- parsed ::
        KnownSlots(doc.tree, parsed[id]) && doc.tree[id] == Obj(SlotsValue(doc.tree, parsed[id]))
      requires Known(doc.tree, schema) && Value(doc.tree, schema) == doc.root
      ensures Valid() && cells == parsed && rootSchema == schema && this.doc == doc
    {
      cells, next, rootSchema, this.doc := parsed, bound, schema, doc;
      meaning := map id <- doc.tree | Ours(doc, doc.tree[id]) :: Full(doc, doc.tree[id]);
      new;
      forall id <- cells ensures OldCell(doc, meaning, cells[id], id) {
        ParsedShape(doc, meaning, cells[id]);
      }
    }

    method Expand(v: Val) returns (r: Val)
      requires Valid() && Known(meaning, v)
      modifies this
      ensures Valid() && Grows(old(meaning), meaning)
      ensures Known(meaning, r) && Value(meaning, r) == old(Value(meaning, v)) && Apart(doc.tree, r)
      decreases Value(meaning, v), RefRank(doc, v), 1
    {
      match v
      case Plain(_) => r := v;
      case Items(vs) =>
        var rs := ExpandItems(vs);
        r := Items(rs);
      case Dict(id) =>
        RefCellMeans(doc, meaning, cells, next, id);
        if HasSlot(cells[id], REF) {
          ReferenceMeans(doc, meaning, cells, next, rootSchema, id);
          var target := Resolve(cells, rootSchema, Path(GetSlot(cells[id], REF).atom.s));
          r := Expand(target.value);
        } else {
          Overwrite(id, "anyOf");
          Overwrite(id, "allOf");
          Overwrite(id, "oneOf");
          r := Copy(id);
        }
    }

    method ExpandItems(vs: Vals) returns (rs: Vals)
      requires Valid() && KnownAll(meaning, vs)
      modifies this
      ensures Valid() && Grows(old(meaning), meaning)
      ensures KnownAll(meaning, rs) && ListValue(meaning, rs) == old(ListValue(meaning, vs)) && AllApart(doc.tree, rs)
      decreases ListValue(meaning, vs), 0, 0
    {
      if vs.NoVals? { return NoVals; }
      var head := Expand(vs.head);
      ListValueGrows(old(meaning), meaning, vs.tail);
      label before:
      var tail := ExpandItems(vs.tail);
      ValueGrows(old@before(meaning), meaning, head);
      rs := ConsVal(head, tail);
    }

    /** One keyword of the loop at the top of the dictionary case. */
    method Overwrite(id: nat, keyword: string)
      requires Valid() && id in meaning && !IsRefCell(doc, id) && Overwritten(keyword)
      modifies this
      ensures Valid() && Grows(old(meaning), meaning)
      decreases meaning[id], 0, 0
    {
      CellMeans(doc, meaning, cells, next, id);
      SlotsHas(meaning, cells[id], keyword);
      if HasSlot(cells[id], keyword) {
        KeywordHoldsList(doc, meaning, cells, next, id, keyword);
        GetIsSmaller(meaning[id].fields, keyword);
        var rs := ExpandItems(GetSlot(cells[id], keyword).items);
        CellMeans(doc, meaning, cells, next, id);
        SlotsHas(meaning, cells[id], keyword);
        InvSet(doc, meaning, cells, next, id, keyword, Items(rs));
        cells := cells[id := SetSlot(cells[id], keyword, Items(rs))];
      }
    }

    /** The dictionary that is returned: a new one. */
    method Copy(id: nat) returns (r: Val)
      requires Valid() && id in meaning && !IsRefCell(doc, id)
      modifies this
      ensures Valid() && Grows(old(meaning), meaning)
      ensures Known(meaning, r) && Value(meaning, r) == old(meaning[id]) && Apart(doc.tree, r)
      decreases meaning[id], 0, 0
    {
      CellMeans(doc, meaning, cells, next, id);
      var c := CopySlots(id, 0);
      InvNew(doc, meaning, cells, next, c);
      r := Dict(next);
      cells, meaning, next := cells[next := c], meaning[next := Obj(SlotsValue(meaning, c))], next + 1;
    }

    /** The entries from the `i`-th on, each read only when its turn comes. */
    method CopySlots(id: nat, i: nat) returns (c: Slots)
      requires Valid() && id in meaning && !IsRefCell(doc, id) && meaning[id].Obj? && i <= Size(meaning[id].fields)
      modifies this
      ensures Valid() && Grows(old(meaning), meaning)
      ensures KnownSlots(meaning, c) && SlotsValue(meaning, c) == old(Drop(meaning[id].fields, i))
      ensures SlotsApart(doc.tree, c)
      decreases Drop(meaning[id].fields, i), 0, 0
    {
      EntryMeans(doc, meaning, cells, next, id, i);
      if i == Count(cells[id]) { return NoSlots; }
      var slot := Nth(cells[id], i);
      var value := Expand(slot.val);
      label before:
      var rest := CopySlots(id, i + 1);
      ValueGrows(old@before(meaning), meaning, value);
      c := Slot(slot.key, value, rest);
    }

    /** A call without `root_schema`: the result, read out of the dictionaries, is the expansion of the document
        as it was parsed, although the document was overwritten on the way. */
    method ExpandJsonSchemaRefs() returns (r: Val)
      requires Valid() && Ours(doc, doc.root)
      modifies this
      ensures Valid() && Apart(doc.tree, r)
      ensures Denotes(cells, r, SchemaRefs.Expand(doc.root, doc.rank, doc.root, doc.top))
    {
      AllOldMean(doc, meaning, cells, next);
      ParsedMeans(doc, meaning, rootSchema);
      r := Expand(rootSchema);
      ApartDenotes(doc, meaning, cells, next, r);
    }
  }
}
