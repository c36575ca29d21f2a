/** Expanding `$ref`s changes no schema's meaning. */
module SchemaTheorems {
  import opened SchemaRefs
  import opened SchemaMeaning

  lemma {:induction false} GetExpanded(root: Json, rank: Ranks, f: Fields, n: nat, k: string)
    requires Ranked(root, rank) && FieldsBelow(f, rank, n) && Has(f, k)
    ensures Below(Get(f, k), rank, n) && Has(ExpandFields(root, rank, f, n), k)
    ensures Get(ExpandFields(root, rank, f, n), k) == Expand(root, rank, Get(f, k), n)
    decreases f
  {
    if f.key != k { GetExpanded(root, rank, f.rest, n, k); }
  }

  lemma {:induction false} ProperAt(root: Json, rank: Ranks, f: Fields, n: nat, k: string)
    requires Ranked(root, rank) && FieldsBelow(f, rank, n) && ProperFields(root, rank, f, n) && Has(f, k)
    ensures Below(Get(f, k), rank, n) && (Overwritten(k) ==> Get(f, k).Arr?)
    ensures ProperKeyword(root, rank, k, Get(f, k), n)
    decreases f
  {
    if f.key != k { ProperAt(root, rank, f.rest, n, k); }
  }

  lemma {:induction false} LengthKept(root: Json, rank: Ranks, l: List, n: nat)
    requires Ranked(root, rank) && ListBelow(l, rank, n)
    ensures Length(ExpandList(root, rank, l, n)) == Length(l)
    decreases l
  {
    if l.Nil? {
    } else {
      LengthKept(root, rank, l.tail, n);
    }
  }

  lemma {:induction false} MatchesKept(w: World, root: Json, rank: Ranks, f: Fields, n: nat, p: string)
    requires Ranked(root, rank) && FieldsBelow(f, rank, n)
    ensures SomeMatches(w, ExpandFields(root, rank, f, n), p) == SomeMatches(w, f, p)
    decreases f
  {
    if f.End? {
    } else {
      MatchesKept(w, root, rank, f.rest, n, p);
    }
  }

  lemma {:induction false} SameNamed(root: Json, rank: Ranks, f: Fields, n: nat, p: string)
    requires Ranked(root, rank) && FieldsBelow(f, rank, n) && ProperFields(root, rank, f, n)
    ensures Named(ExpandFields(root, rank, f, n), p) == Named(f, p)
  {
    ExpandedFieldsAreRefFree(root, rank, f, n);
    if Has(f, "properties") {
      GetExpanded(root, rank, f, n, "properties");
      ProperAt(root, rank, f, n, "properties");
      ExpandedFieldsAreRefFree(root, rank, Get(f, "properties").fields, n);
    }
  }

  lemma {:induction false} SamePatterned(w: World, root: Json, rank: Ranks, f: Fields, n: nat, p: string)
    requires Ranked(root, rank) && FieldsBelow(f, rank, n) && ProperFields(root, rank, f, n)
    ensures Patterned(w, ExpandFields(root, rank, f, n), p) == Patterned(w, f, p)
  {
    ExpandedFieldsAreRefFree(root, rank, f, n);
    if Has(f, "patternProperties") {
      GetExpanded(root, rank, f, n, "patternProperties");
      ProperAt(root, rank, f, n, "patternProperties");
      MatchesKept(w, root, rank, Get(f, "patternProperties").fields, n, p);
    }
  }

  /** `additionalProperties` leaves the same properties out before and after. */
  lemma {:induction false} SameDeclared(w: World, root: Json, rank: Ranks, f: Fields, n: nat, p: string)
    requires Ranked(root, rank) && FieldsBelow(f, rank, n) && ProperFields(root, rank, f, n)
    ensures Declared(w, ExpandFields(root, rank, f, n), p) == Declared(w, f, p)
  {
    SameNamed(root, rank, f, n, p);
    SamePatterned(w, root, rank, f, n, p);
  }

  /** `additionalItems` looks at the same items before and after. */
  lemma {:induction false} SameBeyond(root: Json, rank: Ranks, f: Fields, n: nat, vs: List)
    requires Ranked(root, rank) && FieldsBelow(f, rank, n) && ProperFields(root, rank, f, n)
    ensures Beyond(ExpandFields(root, rank, f, n), vs) == Beyond(f, vs)
  {
    ExpandedFieldsAreRefFree(root, rank, f, n);
    if Has(f, "items") {
      GetExpanded(root, rank, f, n, "items");
      ProperAt(root, rank, f, n, "items");
      if Get(f, "items").Arr? { LengthKept(root, rank, Get(f, "items").items, n); }
      else { ExpandedIsProper(root, rank, Get(f, "items"), n, root); }
    }
  }

  /** The expansion accepts exactly the values the schema accepts, whatever document it is read against and however
      the validator decides patterns and the remaining comparisons with data. */
  lemma {:induction false} ExpansionKeepsMeaning(
    w: World, root: Json, rank: Ranks, s: Json, n: nat, other: Json, v: Json)
    requires Ranked(root, rank) && Below(s, rank, n) && Proper(root, rank, s, n)
    ensures var e := Expand(root, rank, s, n);
      Below(e, map[], 0) && Proper(other, map[], e, 0) &&
      Accepts(w, other, map[], 0, e, v) == Accepts(w, root, rank, n, s, v)
    decreases n, s, 0, 0
  {
    ExpandedIsProper(root, rank, s, n, other);
    match s
    case Leaf(_) =>
    case Obj(f) =>
      if IsRef(f) {
        ExpansionKeepsMeaning(w, root, rank, Target(root, RefOf(f)), rank[RefOf(f)], other, v);
      } else {
        ExpandedFieldsAreRefFree(root, rank, f, n);
        ChoiceKept(w, root, rank, f, n, other, v);
        FieldsKeepMeaning(w, root, rank, f, f, n, other, v);
      }
  }

  lemma {:induction false} BranchKept(
    w: World, root: Json, rank: Ranks, f: Fields, n: nat, k: string, other: Json, v: Json)
    requires Ranked(root, rank) && FieldsBelow(f, rank, n) && ProperFields(root, rank, f, n) && RoleOf(k) == Branch
    ensures var e := ExpandFields(root, rank, f, n);
      FieldsBelow(e, map[], 0) && ProperFields(other, map[], e, 0) && Has(e, k) == Has(f, k) &&
      TakesBranch(w, other, map[], 0, e, k, v) == TakesBranch(w, root, rank, n, f, k, v)
    decreases n, f, 0, 0
  {
    ExpandedFieldsAreProper(root, rank, f, n, other);
    ExpandedFieldsAreRefFree(root, rank, f, n);
    if Has(f, k) {
      BranchAt(root, rank, f, n, k);
      GetExpanded(root, rank, f, n, k);
      ExpansionKeepsMeaning(w, root, rank, Get(f, k), n, other, v);
    }
  }

  lemma {:induction false} ChoiceKept(w: World, root: Json, rank: Ranks, f: Fields, n: nat, other: Json, v: Json)
    requires Ranked(root, rank) && FieldsBelow(f, rank, n) && ProperFields(root, rank, f, n)
    ensures var e := ExpandFields(root, rank, f, n);
      FieldsBelow(e, map[], 0) && ProperFields(other, map[], e, 0) &&
      Chooses(w, other, map[], 0, e, v) == Chooses(w, root, rank, n, f, v)
    decreases n, f, 1, 0
  {
    BranchKept(w, root, rank, f, n, "if", other, v);
    BranchKept(w, root, rank, f, n, "then", other, v);
    BranchKept(w, root, rank, f, n, "else", other, v);
  }

  lemma {:induction false} FieldsKeepMeaning(
    w: World, root: Json, rank: Ranks, all: Fields, f: Fields, n: nat, other: Json, v: Json)
    requires Ranked(root, rank) && FieldsBelow(f, rank, n) && ProperFields(root, rank, f, n)
    requires FieldsBelow(all, rank, n) && ProperFields(root, rank, all, n)
    ensures var e := ExpandFields(root, rank, f, n);
      FieldsBelow(e, map[], 0) && ProperFields(other, map[], e, 0) &&
      Meets(w, other, map[], 0, ExpandFields(root, rank, all, n), e, v) == Meets(w, root, rank, n, all, f, v)
    decreases n, f, 0, 0
  {
    if f.End? {
    } else {
      ExpandedFieldsAreProper(root, rank, f, n, other);
      KeywordKeepsMeaning(w, root, rank, all, f.key, f.value, n, other, v);
      FieldsKeepMeaning(w, root, rank, all, f.rest, n, other, v);
    }
  }

  lemma {:induction false} KeywordKeepsMeaning(
    w: World, root: Json, rank: Ranks, all: Fields, k: string, arg: Json, n: nat, other: Json, v: Json)
    requires Ranked(root, rank) && Below(arg, rank, n) && (Overwritten(k) ==> arg.Arr?)
    requires ProperKeyword(root, rank, k, arg, n)
    requires FieldsBelow(all, rank, n) && ProperFields(root, rank, all, n)
    ensures var e := Expand(root, rank, arg, n);
      Below(e, map[], 0) && (Overwritten(k) ==> e.Arr?) && ProperKeyword(other, map[], k, e, 0) &&
      Keyword(w, other, map[], 0, ExpandFields(root, rank, all, n), k, e, v)
        == Keyword(w, root, rank, n, all, k, arg, v)
    decreases n, arg, 3, 0
  {
    match RoleOf(k)
    case AnyOf | AllOf | OneOf => CombinationKeepsMeaning(w, root, rank, all, k, arg, n, other, v);
    case Properties | PatternProperties | Dependencies =>
      DictionaryKeepsMeaning(w, root, rank, all, k, arg, n, other, v);
    case Elements => ItemsKeepMeaning(w, root, rank, all, k, arg, n, other, v);
    case AdditionalItems | Contains | PropertyNames => ListedKeepsMeaning(w, root, rank, all, k, arg, n, other, v);
    case Not | Additional => OtherSchemaKeepsMeaning(w, root, rank, all, k, arg, n, other, v);
    case Data | Branch | Ignored => DataKeepsMeaning(w, root, rank, all, k, arg, n, other, v);
  }

  lemma {:induction false} DataKeepsMeaning(
    w: World, root: Json, rank: Ranks, all: Fields, k: string, arg: Json, n: nat, other: Json, v: Json)
    requires Ranked(root, rank) && Below(arg, rank, n) && RoleOf(k) in {Data, Branch, Ignored}
    requires ProperKeyword(root, rank, k, arg, n) && FieldsBelow(all, rank, n)
    ensures var e := Expand(root, rank, arg, n);
      Below(e, map[], 0) && (Overwritten(k) ==> e.Arr?) && ProperKeyword(other, map[], k, e, 0) &&
      Keyword(w, other, map[], 0, ExpandFields(root, rank, all, n), k, e, v)
        == Keyword(w, root, rank, n, all, k, arg, v)
    decreases n, arg, 2, 0
  {
    ExpandedKeywordIsProper(root, rank, k, arg, n, other);
    if RoleOf(k) == Data { RefFreeIsFixed(root, rank, arg, n); }
  }

  lemma {:induction false} CombinationKeepsMeaning(
    w: World, root: Json, rank: Ranks, all: Fields, k: string, arg: Json, n: nat, other: Json, v: Json)
    requires Ranked(root, rank) && Below(arg, rank, n) && Overwritten(k) && arg.Arr?
    requires ProperKeyword(root, rank, k, arg, n) && FieldsBelow(all, rank, n)
    ensures var e := Expand(root, rank, arg, n);
      Below(e, map[], 0) && (Overwritten(k) ==> e.Arr?) && ProperKeyword(other, map[], k, e, 0) &&
      Keyword(w, other, map[], 0, ExpandFields(root, rank, all, n), k, e, v)
        == Keyword(w, root, rank, n, all, k, arg, v)
    decreases n, arg, 2, 0
  {
    ExpandedKeywordIsProper(root, rank, k, arg, n, other);
    CountKept(w, root, rank, arg.items, n, other, v);
    LengthKept(root, rank, arg.items, n);
  }

  lemma {:induction false} DictionaryKeepsMeaning(
    w: World, root: Json, rank: Ranks, all: Fields, k: string, arg: Json, n: nat, other: Json, v: Json)
    requires Ranked(root, rank) && Below(arg, rank, n) && RoleOf(k) in {Properties, PatternProperties, Dependencies}
    requires ProperKeyword(root, rank, k, arg, n) && FieldsBelow(all, rank, n)
    ensures var e := Expand(root, rank, arg, n);
      Below(e, map[], 0) && (Overwritten(k) ==> e.Arr?) && ProperKeyword(other, map[], k, e, 0) &&
      Keyword(w, other, map[], 0, ExpandFields(root, rank, all, n), k, e, v)
        == Keyword(w, root, rank, n, all, k, arg, v)
    decreases n, arg, 2, 0
  {
    ExpandedKeywordIsProper(root, rank, k, arg, n, other);
    if v.Obj? {
      match RoleOf(k)
      case Properties => EachPropertyKept(w, root, rank, arg.fields, n, other, v.fields);
      case PatternProperties => EachPatternKept(w, root, rank, arg.fields, n, other, v.fields);
      case Dependencies => EachDependencyKept(w, root, rank, arg.fields, n, other, v);
    }
  }

  lemma {:induction false} ItemsKeepMeaning(
    w: World, root: Json, rank: Ranks, all: Fields, k: string, arg: Json, n: nat, other: Json, v: Json)
    requires Ranked(root, rank) && Below(arg, rank, n) && RoleOf(k) == Elements
    requires ProperKeyword(root, rank, k, arg, n) && FieldsBelow(all, rank, n)
    ensures var e := Expand(root, rank, arg, n);
      Below(e, map[], 0) && (Overwritten(k) ==> e.Arr?) && ProperKeyword(other, map[], k, e, 0) &&
      Keyword(w, other, map[], 0, ExpandFields(root, rank, all, n), k, e, v)
        == Keyword(w, root, rank, n, all, k, arg, v)
    decreases n, arg, 2, 0
  {
    ExpandedKeywordIsProper(root, rank, k, arg, n, other);
    if v.Arr? {
      if arg.Arr? { PositionalKept(w, root, rank, arg.items, n, other, v.items); }
      else {
        ExpandedIsProper(root, rank, arg, n, other);
        EachKept(w, root, rank, arg, n, other, v.items);
      }
    }
  }

  lemma {:induction false} ListedKeepsMeaning(
    w: World, root: Json, rank: Ranks, all: Fields, k: string, arg: Json, n: nat, other: Json, v: Json)
    requires Ranked(root, rank) && Below(arg, rank, n) && RoleOf(k) in {AdditionalItems, Contains, PropertyNames}
    requires ProperKeyword(root, rank, k, arg, n)
    requires FieldsBelow(all, rank, n) && ProperFields(root, rank, all, n)
    ensures var e := Expand(root, rank, arg, n);
      Below(e, map[], 0) && (Overwritten(k) ==> e.Arr?) && ProperKeyword(other, map[], k, e, 0) &&
      Keyword(w, other, map[], 0, ExpandFields(root, rank, all, n), k, e, v)
        == Keyword(w, root, rank, n, all, k, arg, v)
    decreases n, arg, 2, 0
  {
    ExpandedKeywordIsProper(root, rank, k, arg, n, other);
    match RoleOf(k)
    case AdditionalItems =>
      if v.Arr? {
        SameBeyond(root, rank, all, n, v.items);
        EachKept(w, root, rank, arg, n, other, Beyond(all, v.items));
      }
    case Contains => if v.Arr? { AnyKept(w, root, rank, arg, n, other, v.items); }
    case PropertyNames => if v.Obj? { EachKept(w, root, rank, arg, n, other, Names(v.fields)); }
  }

  lemma {:induction false} OtherSchemaKeepsMeaning(
    w: World, root: Json, rank: Ranks, all: Fields, k: string, arg: Json, n: nat, other: Json, v: Json)
    requires Ranked(root, rank) && Below(arg, rank, n) && RoleOf(k) in {Not, Additional}
    requires ProperKeyword(root, rank, k, arg, n)
    requires FieldsBelow(all, rank, n) && ProperFields(root, rank, all, n)
    ensures var e := Expand(root, rank, arg, n);
      Below(e, map[], 0) && (Overwritten(k) ==> e.Arr?) && ProperKeyword(other, map[], k, e, 0) &&
      Keyword(w, other, map[], 0, ExpandFields(root, rank, all, n), k, e, v)
        == Keyword(w, root, rank, n, all, k, arg, v)
    decreases n, arg, 2, 0
  {
    ExpandedKeywordIsProper(root, rank, k, arg, n, other);
    if RoleOf(k) == Not {
      ExpansionKeepsMeaning(w, root, rank, arg, n, other, v);
    } else if v.Obj? {
      AdditionalKept(w, root, rank, all, arg, n, other, v.fields);
    }
  }

  lemma {:induction false} AdditionalKept(
    w: World, root: Json, rank: Ranks, all: Fields, s: Json, n: nat, other: Json, vs: Fields)
    requires Ranked(root, rank) && Below(s, rank, n) && Proper(root, rank, s, n)
    requires FieldsBelow(all, rank, n) && ProperFields(root, rank, all, n)
    ensures var e := Expand(root, rank, s, n); var after := ExpandFields(root, rank, all, n);
      Below(e, map[], 0) && Proper(other, map[], e, 0) &&
      OnKeys(w, other, map[], 0, e, p => !Declared(w, after, p), vs)
        == OnKeys(w, root, rank, n, s, p => !Declared(w, all, p), vs)
    decreases n, s, 1, vs
  {
    ExpandedIsProper(root, rank, s, n, other);
    if vs.Field? {
      SameDeclared(w, root, rank, all, n, vs.key);
      ExpansionKeepsMeaning(w, root, rank, s, n, other, vs.value);
      AdditionalKept(w, root, rank, all, s, n, other, vs.rest);
    }
  }

  lemma {:induction false} CountKept(w: World, root: Json, rank: Ranks, l: List, n: nat, other: Json, v: Json)
    requires Ranked(root, rank) && ListBelow(l, rank, n) && ProperList(root, rank, l, n)
    ensures var e := ExpandList(root, rank, l, n);
      ListBelow(e, map[], 0) && ProperList(other, map[], e, 0) &&
      Matching(w, other, map[], 0, e, v) == Matching(w, root, rank, n, l, v)
    decreases n, l, 0, 0
  {
    ExpandedListIsProper(root, rank, l, n, other);
    if l.Cons? {
      ExpansionKeepsMeaning(w, root, rank, l.head, n, other, v);
      CountKept(w, root, rank, l.tail, n, other, v);
    }
  }

  lemma {:induction false} EachPropertyKept(
    w: World, root: Json, rank: Ranks, f: Fields, n: nat, other: Json, vs: Fields)
    requires Ranked(root, rank) && FieldsBelow(f, rank, n) && ProperProperties(root, rank, f, n)
    ensures var e := ExpandFields(root, rank, f, n);
      FieldsBelow(e, map[], 0) && ProperProperties(other, map[], e, 0) &&
      EachProperty(w, other, map[], 0, e, vs) == EachProperty(w, root, rank, n, f, vs)
    decreases n, f, 0, 0
  {
    ExpandedPropertiesAreProper(root, rank, f, n, other);
    if f.Field? {
      if Has(vs, f.key) { ExpansionKeepsMeaning(w, root, rank, f.value, n, other, Get(vs, f.key)); }
      EachPropertyKept(w, root, rank, f.rest, n, other, vs);
    }
  }

  lemma {:induction false} EachPatternKept(
    w: World, root: Json, rank: Ranks, f: Fields, n: nat, other: Json, vs: Fields)
    requires Ranked(root, rank) && FieldsBelow(f, rank, n) && ProperProperties(root, rank, f, n)
    ensures var e := ExpandFields(root, rank, f, n);
      FieldsBelow(e, map[], 0) && ProperProperties(other, map[], e, 0) &&
      EachPattern(w, other, map[], 0, e, vs) == EachPattern(w, root, rank, n, f, vs)
    decreases n, f, 0, 0
  {
    ExpandedPropertiesAreProper(root, rank, f, n, other);
    if f.Field? {
      PatternKept(w, root, rank, f.key, f.value, n, other, vs);
      EachPatternKept(w, root, rank, f.rest, n, other, vs);
    }
  }

  lemma {:induction false} PatternKept(
    w: World, root: Json, rank: Ranks, pattern: string, s: Json, n: nat, other: Json, vs: Fields)
    requires Ranked(root, rank) && Below(s, rank, n) && Proper(root, rank, s, n)
    ensures var e := Expand(root, rank, s, n);
      Below(e, map[], 0) && Proper(other, map[], e, 0) &&
      OnKeys(w, other, map[], 0, e, p => w.matches(pattern, p), vs)
        == OnKeys(w, root, rank, n, s, p => w.matches(pattern, p), vs)
    decreases n, s, 1, vs
  {
    ExpandedIsProper(root, rank, s, n, other);
    if vs.Field? {
      ExpansionKeepsMeaning(w, root, rank, s, n, other, vs.value);
      PatternKept(w, root, rank, pattern, s, n, other, vs.rest);
    }
  }

  lemma {:induction false} EachDependencyKept(
    w: World, root: Json, rank: Ranks, f: Fields, n: nat, other: Json, v: Json)
    requires Ranked(root, rank) && FieldsBelow(f, rank, n) && ProperDependencies(root, rank, f, n) && v.Obj?
    ensures var e := ExpandFields(root, rank, f, n);
      FieldsBelow(e, map[], 0) && ProperDependencies(other, map[], e, 0) &&
      EachDependency(w, other, map[], 0, e, v) == EachDependency(w, root, rank, n, f, v)
    decreases n, f, 0, 0
  {
    ExpandedDependenciesAreProper(root, rank, f, n, other);
    if f.Field? {
      if f.value.Arr? {
        RefFreeIsFixed(root, rank, f.value, n);
      } else {
        ExpandedIsProper(root, rank, f.value, n, other);
        ExpansionKeepsMeaning(w, root, rank, f.value, n, other, v);
      }
      EachDependencyKept(w, root, rank, f.rest, n, other, v);
    }
  }

  lemma {:induction false} PositionalKept(w: World, root: Json, rank: Ranks, l: List, n: nat, other: Json, vs: List)
    requires Ranked(root, rank) && ListBelow(l, rank, n) && ProperList(root, rank, l, n)
    ensures var e := ExpandList(root, rank, l, n);
      ListBelow(e, map[], 0) && ProperList(other, map[], e, 0) &&
      Positional(w, other, map[], 0, e, vs) == Positional(w, root, rank, n, l, vs)
    decreases n, l, 0, 0
  {
    ExpandedListIsProper(root, rank, l, n, other);
    if l.Cons? && vs.Cons? {
      ExpansionKeepsMeaning(w, root, rank, l.head, n, other, vs.head);
      PositionalKept(w, root, rank, l.tail, n, other, vs.tail);
    }
  }

  lemma {:induction false} EachKept(w: World, root: Json, rank: Ranks, s: Json, n: nat, other: Json, vs: List)
    requires Ranked(root, rank) && Below(s, rank, n) && Proper(root, rank, s, n)
    ensures var e := Expand(root, rank, s, n);
      Below(e, map[], 0) && Proper(other, map[], e, 0) &&
      Each(w, other, map[], 0, e, vs) == Each(w, root, rank, n, s, vs)
    decreases n, s, 1, vs
  {
    ExpandedIsProper(root, rank, s, n, other);
    if vs.Cons? {
      ExpansionKeepsMeaning(w, root, rank, s, n, other, vs.head);
      EachKept(w, root, rank, s, n, other, vs.tail);
    }
  }

  lemma {:induction false} AnyKept(w: World, root: Json, rank: Ranks, s: Json, n: nat, other: Json, vs: List)
    requires Ranked(root, rank) && Below(s, rank, n) && Proper(root, rank, s, n)
    ensures var e := Expand(root, rank, s, n);
      Below(e, map[], 0) && Proper(other, map[], e, 0) &&
      Any(w, other, map[], 0, e, vs) == Any(w, root, rank, n, s, vs)
    decreases n, s, 1, vs
  {
    ExpandedIsProper(root, rank, s, n, other);
    if vs.Cons? {
      ExpansionKeepsMeaning(w, root, rank, s, n, other, vs.head);
      AnyKept(w, root, rank, s, n, other, vs.tail);
    }
  }

  // ---- The condition on literals is exact ----

  /** Dictionaries have no key twice. */
  predicate Unique(j: Json) {
    match j
    case Leaf(_) => true
    case Arr(l) => UniqueList(l)
    case Obj(f) => UniqueFields(f)
  }

  predicate UniqueList(l: List) { l.Nil? || (Unique(l.head) && UniqueList(l.tail)) }

  predicate UniqueFields(f: Fields) { f.End? || (!Has(f.rest, f.key) && Unique(f.value) && UniqueFields(f.rest)) }

  lemma {:induction false} EqualToItself(j: Json)
    requires Unique(j)
    ensures Equal(j, j)
    decreases j
  {
    match j
    case Leaf(_) =>
    case Arr(l) => ListEqualToItself(l);
    case Obj(f) => WithinItself(f, f); KeysWithinItself(f, f);
  }

  lemma {:induction false} ListEqualToItself(l: List)
    requires UniqueList(l)
    ensures EqualLists(l, l)
    decreases l
  {
    if l.Nil? {
    } else {
      EqualToItself(l.head);
      ListEqualToItself(l.tail);
    }
  }

  lemma {:induction false} WithinItself(f: Fields, g: Fields)
    requires UniqueFields(f) && forall k :: Has(f, k) ==> Has(g, k) && Get(g, k) == Get(f, k)
    ensures Within(f, g)
    decreases f
  {
    if f.End? {
    } else {
      assert Has(f, f.key);
      EqualToItself(f.value);
      forall k | Has(f.rest, k) ensures Has(g, k) && Get(g, k) == Get(f.rest, k) { assert Has(f, k); }
      WithinItself(f.rest, g);
    }
  }

  lemma {:induction false} KeysWithinItself(g: Fields, f: Fields)
    requires forall k :: Has(g, k) ==> Has(f, k)
    ensures KeysWithin(g, f)
    decreases g
  {
    if g.End? {
    } else {
      assert Has(g, g.key);
      forall k | Has(g.rest, k) ensures Has(f, k) { assert Has(g, k); }
      KeysWithinItself(g.rest, f);
    }
  }

  lemma {:induction false} WithinAt(f: Fields, g: Fields, k: string)
    requires Within(f, g) && Has(f, k)
    ensures Has(g, k) && Equal(Get(f, k), Get(g, k))
    decreases f
  {
    if f.key != k { WithinAt(f.rest, g, k); }
  }

  lemma {:induction false} KeysWithinAt(g: Fields, f: Fields, k: string)
    requires KeysWithin(g, f) && Has(g, k)
    ensures Has(f, k)
    decreases g
  {
    if g.key != k { KeysWithinAt(g.rest, f, k); }
  }

  lemma {:induction false} RefFreeAt(f: Fields, k: string)
    requires FieldsRefFree(f) && Has(f, k)
    ensures RefFree(Get(f, k))
    decreases f
  {
    if f.key != k { RefFreeAt(f.rest, k); }
  }

  lemma {:induction false} EqualKeepsRefFree(a: Json, b: Json)
    requires Equal(a, b) && RefFree(a) && Unique(b)
    ensures RefFree(b)
    decreases b
  {
    match b
    case Leaf(_) =>
    case Arr(l) => EqualListsKeepRefFree(a.items, l);
    case Obj(g) =>
      if IsRef(g) { KeysWithinAt(g, a.fields, REF); }
      EqualFieldsKeepRefFree(a.fields, g, g);
  }

  lemma {:induction false} EqualListsKeepRefFree(l: List, m: List)
    requires EqualLists(l, m) && ListRefFree(l) && UniqueList(m)
    ensures ListRefFree(m)
    decreases m
  {
    if m.Nil? {
    } else {
      EqualKeepsRefFree(l.head, m.head);
      EqualListsKeepRefFree(l.tail, m.tail);
    }
  }

  lemma {:induction false} EqualFieldsKeepRefFree(f: Fields, all: Fields, g: Fields)
    requires Within(f, all) && FieldsRefFree(f) && KeysWithin(g, f) && UniqueFields(g)
    requires forall k :: Has(g, k) ==> Has(all, k) && Get(all, k) == Get(g, k)
    ensures FieldsRefFree(g)
    decreases g
  {
    if g.End? {
    } else {
      assert Has(g, g.key);
      WithinAt(f, all, g.key);
      RefFreeAt(f, g.key);
      EqualKeepsRefFree(Get(f, g.key), g.value);
      forall k | Has(g.rest, k) ensures Has(all, k) && Get(all, k) == Get(g.rest, k) { assert Has(g, k); }
      EqualFieldsKeepRefFree(f, all, g.rest);
    }
  }

  /** Expansion looks inside literals too.  The literal under `const` goes on matching the same values exactly
      when no dictionary in it has a key `$ref`. */
  lemma {:induction false} ConstKeptExactlyWhenRefFree(w: World, root: Json, rank: Ranks, literal: Json, n: nat)
    requires Ranked(root, rank) && Below(literal, rank, n) && Unique(literal)
    ensures (forall v :: Asserts(w, "const", Expand(root, rank, literal, n), v) == Asserts(w, "const", literal, v))
      <==> RefFree(literal)
  {
    var e := Expand(root, rank, literal, n);
    if RefFree(literal) { RefFreeIsFixed(root, rank, literal, n); }
    else if forall v :: Asserts(w, "const", e, v) == Asserts(w, "const", literal, v) {
      EqualToItself(literal);
      assert Asserts(w, "const", literal, literal);
      assert Asserts(w, "const", e, literal);
      ExpandedIsRefFree(root, rank, literal, n);
      EqualKeepsRefFree(e, literal);
      assert false;
    }
  }
}
