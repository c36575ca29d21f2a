/** Which values a schema accepts (JSON Schema draft-07), and that `$ref` expansion does not change it. */
module SchemaMeaning {
  import opened SchemaRefs

  // ---- Keywords whose argument is data ----

  predicate HasType(name: string, v: Json) {
    match v
    case Arr(_) => name == "array"
    case Obj(_) => name == "object"
    case Leaf(Null) => name == "null"
    case Leaf(Bool(_)) => name == "boolean"
    case Leaf(Str(_)) => name == "string"
    case Leaf(Num(x)) => name == "number" || (name == "integer" && x == x.Floor as real)
  }

  /** Equality of JSON values: the order of dictionary entries does not matter. */
  predicate Equal(a: Json, b: Json) {
    match a
    case Leaf(x) => b == Leaf(x)
    case Arr(l) => b.Arr? && EqualLists(l, b.items)
    case Obj(f) => b.Obj? && Within(f, b.fields) && KeysWithin(b.fields, f)
  }

  predicate EqualLists(l: List, m: List) {
    if l.Nil? then m.Nil? else m.Cons? && Equal(l.head, m.head) && EqualLists(l.tail, m.tail)
  }

  predicate Within(f: Fields, g: Fields) {
    f.End? || (Has(g, f.key) && Equal(f.value, Get(g, f.key)) && Within(f.rest, g))
  }

  predicate KeysWithin(g: Fields, f: Fields) { g.End? || (Has(f, g.key) && KeysWithin(g.rest, f)) }

  predicate Listed(v: Json, l: List) { l.Cons? && (Equal(l.head, v) || Listed(v, l.tail)) }

  predicate TypeListed(v: Json, l: List) {
    l.Cons? && ((l.head.Leaf? && l.head.atom.Str? && HasType(l.head.atom.s, v)) || TypeListed(v, l.tail))
  }

  predicate AllPresent(l: List, f: Fields) {
    l.Nil? || ((l.head.Leaf? && l.head.atom.Str? ==> Has(f, l.head.atom.s)) && AllPresent(l.tail, f))
  }

  predicate Number(j: Json) { j.Leaf? && j.atom.Num? }

  /** The keywords of JSON Schema Validation draft-07 that compare a value with data. */
  const DATA: set<string> := {
    "type", "enum", "const", "required", "minimum", "maximum", "exclusiveMinimum", "exclusiveMaximum", "multipleOf",
    "minLength", "maxLength", "pattern", "format", "contentEncoding", "contentMediaType",
    "minItems", "maxItems", "uniqueItems", "minProperties", "maxProperties"
  }

  /** What is left to the validator: the data keywords not spelled out here, and the matching of patterns. */
  datatype World = World(says: (string, Json, Json) -> bool, matches: (string, string) -> bool)

  predicate Asserts(w: World, k: string, arg: Json, v: Json) {
    if k == "type" then
      match arg
      case Leaf(Str(name)) => HasType(name, v)
      case Arr(l) => TypeListed(v, l)
      case _ => true
    else if k == "enum" then arg.Arr? ==> Listed(v, arg.items)
    else if k == "const" then Equal(arg, v)
    else if k == "required" then arg.Arr? && v.Obj? ==> AllPresent(arg.items, v.fields)
    else if k == "minimum" then Number(arg) && Number(v) ==> arg.atom.n <= v.atom.n
    else if k == "maximum" then Number(arg) && Number(v) ==> v.atom.n <= arg.atom.n
    else w.says(k, arg, v)
  }

  /** What a keyword's argument is: data, a list of schemas, a dictionary of schemas, one schema, or nothing that
      decides whether a value is accepted. */
  datatype Role =
    | Data
    | AnyOf | AllOf | OneOf
    | Properties | PatternProperties | Dependencies
    | Elements
    | AdditionalItems | Contains | Not | Additional | PropertyNames | Branch
    | Ignored

  function RoleOf(k: string): (r: Role)
    ensures Overwritten(k) <==> r.AnyOf? || r.AllOf? || r.OneOf?
  {
    if k in DATA then Data
    else if k == "anyOf" then AnyOf
    else if k == "allOf" then AllOf
    else if k == "oneOf" then OneOf
    else if k == "properties" then Properties
    else if k == "patternProperties" then PatternProperties
    else if k == "dependencies" then Dependencies
    else if k == "items" then Elements
    else if k == "additionalItems" then AdditionalItems
    else if k == "contains" then Contains
    else if k == "not" then Not
    else if k == "additionalProperties" then Additional
    else if k == "propertyNames" then PropertyNames
    else if k == "if" || k == "then" || k == "else" then Branch
    else Ignored
  }

  // ---- Proper schemas ----

  /** Wherever a schema is expected there is a dictionary or a boolean, literals hold no key `$ref`, and neither
      does a dictionary of properties: a property may have any other name. */
  ghost predicate Proper(root: Json, rank: Ranks, s: Json, n: nat)
    requires Ranked(root, rank) && Below(s, rank, n)
    decreases n, s, 0
  {
    match s
    case Leaf(a) => a.Bool?
    case Arr(_) => false
    case Obj(f) =>
      if IsRef(f) then Proper(root, rank, Target(root, RefOf(f)), rank[RefOf(f)]) else ProperFields(root, rank, f, n)
  }

  ghost predicate ProperList(root: Json, rank: Ranks, l: List, n: nat)
    requires Ranked(root, rank) && ListBelow(l, rank, n)
    decreases n, l, 0
  {
    l.Nil? || (Proper(root, rank, l.head, n) && ProperList(root, rank, l.tail, n))
  }

  ghost predicate ProperProperties(root: Json, rank: Ranks, f: Fields, n: nat)
    requires Ranked(root, rank) && FieldsBelow(f, rank, n)
    decreases n, f, 0
  {
    f.End? || (Proper(root, rank, f.value, n) && ProperProperties(root, rank, f.rest, n))
  }

  /** A dependency is a list of names or a schema. */
  ghost predicate ProperDependencies(root: Json, rank: Ranks, f: Fields, n: nat)
    requires Ranked(root, rank) && FieldsBelow(f, rank, n)
    decreases n, f, 0
  {
    f.End? ||
    ((if f.value.Arr? then RefFree(f.value) else Proper(root, rank, f.value, n)) &&
     ProperDependencies(root, rank, f.rest, n))
  }

  ghost predicate ProperKeyword(root: Json, rank: Ranks, k: string, arg: Json, n: nat)
    requires Ranked(root, rank) && Below(arg, rank, n) && (Overwritten(k) ==> arg.Arr?)
    decreases n, arg, 1
  {
    match RoleOf(k)
    case Data => RefFree(arg)
    case AnyOf | AllOf | OneOf => ProperList(root, rank, arg.items, n)
    case Properties | PatternProperties =>
      arg.Obj? && !IsRef(arg.fields) && ProperProperties(root, rank, arg.fields, n)
    case Dependencies => arg.Obj? && !IsRef(arg.fields) && ProperDependencies(root, rank, arg.fields, n)
    case Elements => if arg.Arr? then ProperList(root, rank, arg.items, n) else Proper(root, rank, arg, n)
    case AdditionalItems | Contains | Not | Additional | PropertyNames | Branch => Proper(root, rank, arg, n)
    case Ignored => true
  }

  ghost predicate ProperFields(root: Json, rank: Ranks, f: Fields, n: nat)
    requires Ranked(root, rank) && FieldsBelow(f, rank, n)
    decreases n, f, 0
  {
    f.End? || (ProperKeyword(root, rank, f.key, f.value, n) && ProperFields(root, rank, f.rest, n))
  }

  // ---- Which values are accepted ----

  lemma {:induction false} BranchAt(root: Json, rank: Ranks, f: Fields, n: nat, k: string)
    requires Ranked(root, rank) && FieldsBelow(f, rank, n) && ProperFields(root, rank, f, n)
    requires Has(f, k) && RoleOf(k) == Branch
    ensures f decreases to Get(f, k)
    ensures Below(Get(f, k), rank, n) && Proper(root, rank, Get(f, k), n)
    decreases f
  {
    if f.key != k { BranchAt(root, rank, f.rest, n, k); }
  }

  /** `v` is accepted by schema `s`; beside `$ref` every other key is ignored (section 8.3 of the core draft). */
  ghost predicate Accepts(w: World, root: Json, rank: Ranks, n: nat, s: Json, v: Json)
    requires Ranked(root, rank) && Below(s, rank, n) && Proper(root, rank, s, n)
    decreases n, s, 0, 0
  {
    match s
    case Leaf(a) => a.b
    case Arr(_) => false
    case Obj(f) =>
      if IsRef(f) then Accepts(w, root, rank, rank[RefOf(f)], Target(root, RefOf(f)), v)
      else Chooses(w, root, rank, n, f, v) && Meets(w, root, rank, n, f, f, v)
  }

  ghost predicate TakesBranch(w: World, root: Json, rank: Ranks, n: nat, f: Fields, k: string, v: Json)
    requires Ranked(root, rank) && FieldsBelow(f, rank, n) && ProperFields(root, rank, f, n) && RoleOf(k) == Branch
    decreases n, f, 0, 0
  {
    Has(f, k) ==> (BranchAt(root, rank, f, n, k); Accepts(w, root, rank, n, Get(f, k), v))
  }

  /** `if`, `then` and `else` decide together. */
  ghost predicate Chooses(w: World, root: Json, rank: Ranks, n: nat, f: Fields, v: Json)
    requires Ranked(root, rank) && FieldsBelow(f, rank, n) && ProperFields(root, rank, f, n)
    decreases n, f, 1, 0
  {
    Has(f, "if") ==>
      if TakesBranch(w, root, rank, n, f, "if", v) then TakesBranch(w, root, rank, n, f, "then", v)
      else TakesBranch(w, root, rank, n, f, "else", v)
  }

  ghost predicate Meets(w: World, root: Json, rank: Ranks, n: nat, all: Fields, f: Fields, v: Json)
    requires Ranked(root, rank) && FieldsBelow(f, rank, n) && ProperFields(root, rank, f, n)
    decreases n, f, 0, 0
  {
    f.End? || (Keyword(w, root, rank, n, all, f.key, f.value, v) && Meets(w, root, rank, n, all, f.rest, v))
  }

  predicate SomeMatches(w: World, f: Fields, p: string) {
    f.Field? && (w.matches(f.key, p) || SomeMatches(w, f.rest, p))
  }

  predicate Named(all: Fields, p: string) {
    Has(all, "properties") && Get(all, "properties").Obj? && Has(Get(all, "properties").fields, p)
  }

  predicate Patterned(w: World, all: Fields, p: string) {
    Has(all, "patternProperties") && Get(all, "patternProperties").Obj? &&
    SomeMatches(w, Get(all, "patternProperties").fields, p)
  }

  /** A property that `additionalProperties` does not look at. */
  predicate Declared(w: World, all: Fields, p: string) { Named(all, p) || Patterned(w, all, p) }

  /** The items that `additionalItems` looks at: those beyond a list under `items`. */
  function Beyond(all: Fields, vs: List): List {
    if Has(all, "items") && Get(all, "items").Arr? then Skip(vs, Length(Get(all, "items").items)) else Nil
  }

  function Skip(vs: List, n: nat): List { if n == 0 || vs.Nil? then vs else Skip(vs.tail, n - 1) }

  /** The property names as values. */
  function Names(f: Fields): List { if f.End? then Nil else Cons(Leaf(Str(f.key)), Names(f.rest)) }

  ghost predicate Keyword(w: World, root: Json, rank: Ranks, n: nat, all: Fields, k: string, arg: Json, v: Json)
    requires Ranked(root, rank) && Below(arg, rank, n) && (Overwritten(k) ==> arg.Arr?)
    requires ProperKeyword(root, rank, k, arg, n)
    decreases n, arg, 2, 0
  {
    match RoleOf(k)
    case Data => Asserts(w, k, arg, v)
    case AnyOf => Matching(w, root, rank, n, arg.items, v) > 0
    case AllOf => Matching(w, root, rank, n, arg.items, v) == Length(arg.items)
    case OneOf => Matching(w, root, rank, n, arg.items, v) == 1
    case Properties => v.Obj? ==> EachProperty(w, root, rank, n, arg.fields, v.fields)
    case PatternProperties => v.Obj? ==> EachPattern(w, root, rank, n, arg.fields, v.fields)
    case Dependencies => v.Obj? ==> EachDependency(w, root, rank, n, arg.fields, v)
    case Elements =>
      v.Arr? ==>
        if arg.Arr? then Positional(w, root, rank, n, arg.items, v.items) else Each(w, root, rank, n, arg, v.items)
    case AdditionalItems => v.Arr? ==> Each(w, root, rank, n, arg, Beyond(all, v.items))
    case Contains => v.Arr? ==> Any(w, root, rank, n, arg, v.items)
    case Not => !Accepts(w, root, rank, n, arg, v)
    case Additional => v.Obj? ==> OnKeys(w, root, rank, n, arg, p => !Declared(w, all, p), v.fields)
    case PropertyNames => v.Obj? ==> Each(w, root, rank, n, arg, Names(v.fields))
    case Branch | Ignored => true
  }

  function Length(l: List): nat { if l.Nil? then 0 else 1 + Length(l.tail) }

  ghost function Matching(w: World, root: Json, rank: Ranks, n: nat, l: List, v: Json): nat
    requires Ranked(root, rank) && ListBelow(l, rank, n) && ProperList(root, rank, l, n)
    decreases n, l, 0, 0
  {
    if l.Nil? then 0
    else (if Accepts(w, root, rank, n, l.head, v) then 1 else 0) + Matching(w, root, rank, n, l.tail, v)
  }

  ghost predicate Positional(w: World, root: Json, rank: Ranks, n: nat, l: List, vs: List)
    requires Ranked(root, rank) && ListBelow(l, rank, n) && ProperList(root, rank, l, n)
    decreases n, l, 0, 0
  {
    l.Cons? && vs.Cons? ==>
      Accepts(w, root, rank, n, l.head, vs.head) && Positional(w, root, rank, n, l.tail, vs.tail)
  }

  ghost predicate EachProperty(w: World, root: Json, rank: Ranks, n: nat, f: Fields, vs: Fields)
    requires Ranked(root, rank) && FieldsBelow(f, rank, n) && ProperProperties(root, rank, f, n)
    decreases n, f, 0, 0
  {
    f.End? ||
    ((Has(vs, f.key) ==> Accepts(w, root, rank, n, f.value, Get(vs, f.key))) &&
     EachProperty(w, root, rank, n, f.rest, vs))
  }

  ghost predicate EachPattern(w: World, root: Json, rank: Ranks, n: nat, f: Fields, vs: Fields)
    requires Ranked(root, rank) && FieldsBelow(f, rank, n) && ProperProperties(root, rank, f, n)
    decreases n, f, 0, 0
  {
    f.End? ||
    (OnKeys(w, root, rank, n, f.value, p => w.matches(f.key, p), vs) && EachPattern(w, root, rank, n, f.rest, vs))
  }

  ghost predicate EachDependency(w: World, root: Json, rank: Ranks, n: nat, f: Fields, v: Json)
    requires Ranked(root, rank) && FieldsBelow(f, rank, n) && ProperDependencies(root, rank, f, n) && v.Obj?
    decreases n, f, 0, 0
  {
    f.End? ||
    ((Has(v.fields, f.key) ==>
        if f.value.Arr? then AllPresent(f.value.items, v.fields) else Accepts(w, root, rank, n, f.value, v)) &&
     EachDependency(w, root, rank, n, f.rest, v))
  }

  ghost predicate Each(w: World, root: Json, rank: Ranks, n: nat, s: Json, vs: List)
    requires Ranked(root, rank) && Below(s, rank, n) && Proper(root, rank, s, n)
    decreases n, s, 1, vs
  {
    vs.Nil? || (Accepts(w, root, rank, n, s, vs.head) && Each(w, root, rank, n, s, vs.tail))
  }

  ghost predicate Any(w: World, root: Json, rank: Ranks, n: nat, s: Json, vs: List)
    requires Ranked(root, rank) && Below(s, rank, n) && Proper(root, rank, s, n)
    decreases n, s, 1, vs
  {
    vs.Cons? && (Accepts(w, root, rank, n, s, vs.head) || Any(w, root, rank, n, s, vs.tail))
  }

  /** The properties whose name is picked are accepted. */
  ghost predicate OnKeys(w: World, root: Json, rank: Ranks, n: nat, s: Json, picks: string -> bool, vs: Fields)
    requires Ranked(root, rank) && Below(s, rank, n) && Proper(root, rank, s, n)
    decreases n, s, 1, vs
  {
    vs.End? ||
    ((picks(vs.key) ==> Accepts(w, root, rank, n, s, vs.value)) && OnKeys(w, root, rank, n, s, picks, vs.rest))
  }

  // ---- The expansion of a proper schema is a proper schema ----

  lemma {:induction false} RefFreeIsBelow(j: Json, rank: Ranks, n: nat)
    requires Below(j, rank, n) && RefFree(j)
    ensures Below(j, map[], 0)
    decreases j
  {
    match j
    case Leaf(_) =>
    case Arr(l) => RefFreeListIsBelow(l, rank, n);
    case Obj(f) => RefFreeFieldsAreBelow(f, rank, n);
  }

  lemma {:induction false} RefFreeListIsBelow(l: List, rank: Ranks, n: nat)
    requires ListBelow(l, rank, n) && ListRefFree(l)
    ensures ListBelow(l, map[], 0)
    decreases l
  {
    if l.Nil? {
    } else {
      RefFreeIsBelow(l.head, rank, n);
      RefFreeListIsBelow(l.tail, rank, n);
    }
  }

  lemma {:induction false} RefFreeFieldsAreBelow(f: Fields, rank: Ranks, n: nat)
    requires FieldsBelow(f, rank, n) && FieldsRefFree(f)
    ensures FieldsBelow(f, map[], 0)
    decreases f
  {
    if f.End? {
    } else {
      RefFreeIsBelow(f.value, rank, n);
      RefFreeFieldsAreBelow(f.rest, rank, n);
    }
  }

  lemma {:induction false} ExpandedIsBelow(root: Json, rank: Ranks, j: Json, n: nat)
    requires Ranked(root, rank) && Below(j, rank, n)
    ensures Below(Expand(root, rank, j, n), map[], 0)
    decreases n, j
  {
    match j
    case Leaf(_) =>
    case Arr(l) => ExpandedListIsBelow(root, rank, l, n);
    case Obj(f) =>
      if IsRef(f) { ExpandedIsBelow(root, rank, Target(root, RefOf(f)), rank[RefOf(f)]); }
      else { ExpandedFieldsAreBelow(root, rank, f, n); ExpandedFieldsAreRefFree(root, rank, f, n); }
  }

  lemma {:induction false} ExpandedListIsBelow(root: Json, rank: Ranks, l: List, n: nat)
    requires Ranked(root, rank) && ListBelow(l, rank, n)
    ensures ListBelow(ExpandList(root, rank, l, n), map[], 0)
    decreases n, l
  {
    if l.Nil? {
    } else {
      ExpandedIsBelow(root, rank, l.head, n);
      ExpandedListIsBelow(root, rank, l.tail, n);
    }
  }

  lemma {:induction false} ExpandedFieldsAreBelow(root: Json, rank: Ranks, f: Fields, n: nat)
    requires Ranked(root, rank) && FieldsBelow(f, rank, n)
    ensures FieldsBelow(ExpandFields(root, rank, f, n), map[], 0)
    decreases n, f
  {
    if f.End? {
    } else {
      ExpandedIsBelow(root, rank, f.value, n);
      ExpandedFieldsAreBelow(root, rank, f.rest, n);
    }
  }

  lemma {:induction false} ExpandedIsProper(root: Json, rank: Ranks, s: Json, n: nat, other: Json)
    requires Ranked(root, rank) && Below(s, rank, n) && Proper(root, rank, s, n)
    ensures var e := Expand(root, rank, s, n); Below(e, map[], 0) && !e.Arr? && Proper(other, map[], e, 0)
    decreases n, s, 0
  {
    ExpandedIsBelow(root, rank, s, n);
    match s
    case Leaf(_) =>
    case Obj(f) =>
      if IsRef(f) { ExpandedIsProper(root, rank, Target(root, RefOf(f)), rank[RefOf(f)], other); }
      else { ExpandedFieldsAreProper(root, rank, f, n, other); ExpandedFieldsAreRefFree(root, rank, f, n); }
  }

  lemma {:induction false} ExpandedListIsProper(root: Json, rank: Ranks, l: List, n: nat, other: Json)
    requires Ranked(root, rank) && ListBelow(l, rank, n) && ProperList(root, rank, l, n)
    ensures var e := ExpandList(root, rank, l, n); ListBelow(e, map[], 0) && ProperList(other, map[], e, 0)
    decreases n, l, 0
  {
    if l.Nil? {
    } else {
      ExpandedIsProper(root, rank, l.head, n, other);
      ExpandedListIsProper(root, rank, l.tail, n, other);
    }
  }

  lemma {:induction false} ExpandedPropertiesAreProper(root: Json, rank: Ranks, f: Fields, n: nat, other: Json)
    requires Ranked(root, rank) && FieldsBelow(f, rank, n) && ProperProperties(root, rank, f, n)
    ensures var e := ExpandFields(root, rank, f, n); FieldsBelow(e, map[], 0) && ProperProperties(other, map[], e, 0)
    decreases n, f, 0
  {
    if f.End? {
    } else {
      ExpandedIsProper(root, rank, f.value, n, other);
      ExpandedPropertiesAreProper(root, rank, f.rest, n, other);
    }
  }

  lemma {:induction false} ExpandedKeywordIsProper(root: Json, rank: Ranks, k: string, arg: Json, n: nat, other: Json)
    requires Ranked(root, rank) && Below(arg, rank, n) && (Overwritten(k) ==> arg.Arr?)
    requires ProperKeyword(root, rank, k, arg, n)
    ensures var e := Expand(root, rank, arg, n);
      Below(e, map[], 0) && (Overwritten(k) ==> e.Arr?) && ProperKeyword(other, map[], k, e, 0)
    decreases n, arg, 1
  {
    ExpandedIsBelow(root, rank, arg, n);
    match RoleOf(k)
    case Data => RefFreeIsFixed(root, rank, arg, n);
    case AnyOf | AllOf | OneOf => ExpandedListIsProper(root, rank, arg.items, n, other);
    case Properties | PatternProperties =>
      ExpandedPropertiesAreProper(root, rank, arg.fields, n, other);
      ExpandedFieldsAreRefFree(root, rank, arg.fields, n);
    case Dependencies =>
      ExpandedDependenciesAreProper(root, rank, arg.fields, n, other);
      ExpandedFieldsAreRefFree(root, rank, arg.fields, n);
    case Elements =>
      if arg.Arr? { ExpandedListIsProper(root, rank, arg.items, n, other); }
      else { ExpandedIsProper(root, rank, arg, n, other); }
    case AdditionalItems | Contains | Not | Additional | PropertyNames | Branch =>
      ExpandedIsProper(root, rank, arg, n, other);
    case Ignored =>
  }

  lemma {:induction false} ExpandedDependenciesAreProper(root: Json, rank: Ranks, f: Fields, n: nat, other: Json)
    requires Ranked(root, rank) && FieldsBelow(f, rank, n) && ProperDependencies(root, rank, f, n)
    ensures var e := ExpandFields(root, rank, f, n);
      FieldsBelow(e, map[], 0) && ProperDependencies(other, map[], e, 0)
    decreases n, f, 0
  {
    if f.End? {
    } else {
      if f.value.Arr? {
        RefFreeIsFixed(root, rank, f.value, n);
        RefFreeIsBelow(f.value, rank, n);
      } else {
        ExpandedIsProper(root, rank, f.value, n, other);
      }
      ExpandedDependenciesAreProper(root, rank, f.rest, n, other);
      ExpandedFieldsAreBelow(root, rank, f, n);
    }
  }

  lemma {:induction false} ExpandedFieldsAreProper(root: Json, rank: Ranks, f: Fields, n: nat, other: Json)
    requires Ranked(root, rank) && FieldsBelow(f, rank, n) && ProperFields(root, rank, f, n)
    ensures var e := ExpandFields(root, rank, f, n); FieldsBelow(e, map[], 0) && ProperFields(other, map[], e, 0)
    decreases n, f, 0
  {
    if f.End? {
    } else {
      ExpandedKeywordIsProper(root, rank, f.key, f.value, n, other);
      ExpandedFieldsAreProper(root, rank, f.rest, n, other);
    }
  }
}
