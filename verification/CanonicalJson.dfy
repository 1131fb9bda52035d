/**
 * Request identity: the canonical text of a JSON value. Text is a list of tokens; how one scalar or key is spelled in
 * characters is not modelled. Object properties enumerate as the language does it: integer keys first, ascending,
 * then the others in insertion order.
 */
module CanonicalJson {
  import opened Common

  datatype Scalar = Null | Bool(b: bool) | Number(literal: string) | Text(text: string)

  datatype Key = Index(n: nat) | Name(name: string)

  datatype Value = Undefined | Atom(scalar: Scalar) | Arr(items: Items) | Obj(fields: Fields)
  datatype Items = NoItems | Item(head: Value, tail: Items)
  datatype Fields = NoFields | Field(key: Key, value: Value, rest: Fields)

  datatype Token = Literal(scalar: Scalar) | Label(key: Key) | Comma | OpenArr | CloseArr | OpenObj | CloseObj
  datatype Document = End | Tok(token: Token, more: Document)

  // ---- objects ---------------------------------------------------------------------------------------------------

  function Keys(fields: Fields): set<Key> {
    match fields
    case NoFields => {}
    case Field(k, _, rest) => {k} + Keys(rest)
  }

  /** An integer key is enumerated before every name and before larger integers. */
  predicate Precedes(k: Key, other: Key) {
    k.Index? && (other.Name? || k.n < other.n)
  }

  /** Assigning a property: an existing one keeps its place, a new one goes where enumeration puts it. */
  function Put(fields: Fields, k: Key, v: Value): Fields {
    match fields
    case NoFields => Field(k, v, NoFields)
    case Field(k0, v0, rest) =>
      if k0 == k then Field(k, v, rest)
      else if Precedes(k, k0) then Field(k, v, fields)
      else Field(k0, v0, Put(rest, k, v))
  }

  function PutAll(fields: Fields, entries: Fields): Fields
    decreases entries
  {
    match entries
    case NoFields => fields
    case Field(k, v, rest) => PutAll(Put(fields, k, v), rest)
  }

  function FromEntries(entries: Fields): Fields {
    PutAll(NoFields, entries)
  }

  // ---- JSON.stringify and JSON.parse -----------------------------------------------------------------------------

  /** The text of v followed by the text k. */
  function Write(v: Value, k: Document): Document {
    match v
    case Undefined => k
    case Atom(s) => Tok(Literal(s), k)
    case Arr(NoItems) => Tok(OpenArr, Tok(CloseArr, k))
    case Arr(items) => Tok(OpenArr, WriteItems(items, k))
    case Obj(NoFields) => Tok(OpenObj, Tok(CloseObj, k))
    case Obj(fields) => Tok(OpenObj, WriteFields(fields, k))
  }

  function WriteItems(items: Items, k: Document): Document {
    match items
    case NoItems => k
    case Item(v, NoItems) => Write(v, Tok(CloseArr, k))
    case Item(v, tail) => Write(v, Tok(Comma, WriteItems(tail, k)))
  }

  function WriteFields(fields: Fields, k: Document): Document {
    match fields
    case NoFields => k
    case Field(key, v, NoFields) => Tok(Label(key), Write(v, Tok(CloseObj, k)))
    case Field(key, v, rest) => Tok(Label(key), Write(v, Tok(Comma, WriteFields(rest, k))))
  }

  function Stringify(v: Value): Document {
    Write(v, End)
  }

  function Length(d: Document): nat {
    match d
    case End => 0
    case Tok(_, more) => 1 + Length(more)
  }

  datatype Parsed<T> = Parsed(value: T, more: Document)

  function ParseValue(d: Document): (r: Option<Parsed<Value>>)
    ensures r.Some? ==> Length(r.value.more) < Length(d)
    decreases Length(d), 0
  {
    match d
    case Tok(Literal(s), more) => Some(Parsed(Atom(s), more))
    case Tok(OpenArr, body) =>
      if body.Tok? && body.token.CloseArr? then Some(Parsed(Arr(NoItems), body.more))
      else
        var r := ParseItems(body);
        if r.None? then None else Some(Parsed(Arr(r.value.value), r.value.more))
    case Tok(OpenObj, body) =>
      if body.Tok? && body.token.CloseObj? then Some(Parsed(Obj(NoFields), body.more))
      else
        var r := ParseFields(body);
        if r.None? then None else Some(Parsed(Obj(FromEntries(r.value.value)), r.value.more))
    case _ => None
  }

  function ParseItems(d: Document): (r: Option<Parsed<Items>>)
    ensures r.Some? ==> Length(r.value.more) < Length(d)
    decreases Length(d), 1
  {
    match ParseValue(d)
    case Some(Parsed(v, Tok(CloseArr, more))) => Some(Parsed(Item(v, NoItems), more))
    case Some(Parsed(v, Tok(Comma, more))) =>
      var r := ParseItems(more);
      if r.None? then None else Some(Parsed(Item(v, r.value.value), r.value.more))
    case _ => None
  }

  function ParseFields(d: Document): (r: Option<Parsed<Fields>>)
    ensures r.Some? ==> Length(r.value.more) < Length(d)
    decreases Length(d), 1
  {
    match d
    case Tok(Label(k), body) =>
      (match ParseValue(body)
       case Some(Parsed(v, Tok(CloseObj, more))) => Some(Parsed(Field(k, v, NoFields), more))
       case Some(Parsed(v, Tok(Comma, more))) =>
         var r := ParseFields(more);
         if r.None? then None else Some(Parsed(Field(k, v, r.value.value), r.value.more))
       case _ => None)
    case _ => None
  }

  function Parse(d: Document): Option<Value> {
    match ParseValue(d)
    case Some(Parsed(v, End)) => Some(v)
    case _ => None
  }

  // ---- canonical -------------------------------------------------------------------------------------------------

  function InsertField(less: (Key, Key) -> bool, k: Key, v: Value, fields: Fields): Fields {
    match fields
    case NoFields => Field(k, v, NoFields)
    case Field(k0, v0, rest) =>
      if less(k0, k) then Field(k0, v0, InsertField(less, k, v, rest)) else Field(k, v, fields)
  }

  function SortFields(less: (Key, Key) -> bool, fields: Fields): Fields {
    match fields
    case NoFields => NoFields
    case Field(k, v, rest) => InsertField(less, k, v, SortFields(less, rest))
  }

  /**
   * The canonical text; None where the source throws or has no text. Every nested value is written, parsed back and
   * only then used, as in the source. (The source sorts the entries before it converts their values; the sort looks
   * only at the keys.)
   */
  function Canonical(less: (Key, Key) -> bool, v: Value): Option<Document>
    decreases v, 0
  {
    match v
    case Undefined => None
    case Atom(_) => Some(Stringify(v))
    case Arr(items) =>
      var r := ReparseItems(less, items);
      if r.None? then None else Some(Stringify(Arr(r.value)))
    case Obj(fields) =>
      var r := ReparseFields(less, fields);
      if r.None? then None else Some(Stringify(Obj(FromEntries(SortFields(less, r.value)))))
  }

  function Reparse(less: (Key, Key) -> bool, v: Value): Option<Value>
    decreases v, 1
  {
    var text := Canonical(less, v);
    if text.None? then None else Parse(text.value)
  }

  function ReparseItems(less: (Key, Key) -> bool, items: Items): Option<Items>
    decreases items
  {
    match items
    case NoItems => Some(NoItems)
    case Item(v, tail) =>
      var head, rest := Reparse(less, v), ReparseItems(less, tail);
      if head.None? || rest.None? then None else Some(Item(head.value, rest.value))
  }

  /** Undefined fields are filtered out before anything is done with them. */
  function ReparseFields(less: (Key, Key) -> bool, fields: Fields): Option<Fields>
    decreases fields
  {
    match fields
    case NoFields => Some(NoFields)
    case Field(k, v, more) =>
      var rest := ReparseFields(less, more);
      if v.Undefined? then rest
      else
        var head := Reparse(less, v);
        if head.None? || rest.None? then None else Some(Field(k, head.value, rest.value))
  }

  // ---- what a value means ----------------------------------------------------------------------------------------

  /** A value up to the order of its fields and up to undefined fields. */
  datatype Meaning = AtomMeaning(scalar: Scalar) | ArrMeaning(items: MeaningList) | ObjMeaning(fields: map<Key, Meaning>)
  datatype MeaningList = NoMeanings | Meanings(head: Meaning, tail: MeaningList)

  /** Undefined does not occur, except as the value of a field. */
  predicate Clean(v: Value) {
    match v
    case Undefined => false
    case Atom(_) => true
    case Arr(items) => CleanItems(items)
    case Obj(fields) => CleanFields(fields)
  }

  predicate CleanItems(items: Items) {
    items.NoItems? || (Clean(items.head) && CleanItems(items.tail))
  }

  predicate CleanFields(fields: Fields) {
    fields.NoFields? || ((fields.value.Undefined? || Clean(fields.value)) && CleanFields(fields.rest))
  }

  /** No object has a key twice. */
  predicate Proper(v: Value) {
    match v
    case Undefined => true
    case Atom(_) => true
    case Arr(items) => ProperItems(items)
    case Obj(fields) => ProperFields(fields)
  }

  predicate ProperItems(items: Items) {
    items.NoItems? || (Proper(items.head) && ProperItems(items.tail))
  }

  predicate ProperFields(fields: Fields) {
    fields.NoFields? || (Proper(fields.value) && ProperFields(fields.rest) && fields.key !in Keys(fields.rest))
  }

  function Means(v: Value): Meaning
    requires Clean(v)
  {
    match v
    case Atom(s) => AtomMeaning(s)
    case Arr(items) => ArrMeaning(ItemsMean(items))
    case Obj(fields) => ObjMeaning(FieldsMean(fields))
  }

  function ItemsMean(items: Items): MeaningList
    requires CleanItems(items)
  {
    match items
    case NoItems => NoMeanings
    case Item(v, tail) => Meanings(Means(v), ItemsMean(tail))
  }

  function FieldsMean(fields: Fields): map<Key, Meaning>
    requires CleanFields(fields)
  {
    match fields
    case NoFields => map[]
    case Field(k, v, rest) => if v.Undefined? then FieldsMean(rest) else FieldsMean(rest)[k := Means(v)]
  }

  // ---- the round trip --------------------------------------------------------------------------------------------

  /** Keys in enumeration order. */
  predicate Arranged(fields: Fields) {
    fields.NoFields?
    || (Arranged(fields.rest) && forall k :: k in Keys(fields.rest) ==> k != fields.key && !Precedes(k, fields.key))
  }

  /** No undefined anywhere, and every object in enumeration order: what the parser returns. */
  predicate Stable(v: Value) {
    match v
    case Undefined => false
    case Atom(_) => true
    case Arr(items) => StableItems(items)
    case Obj(fields) => StableFields(fields) && Arranged(fields)
  }

  predicate StableItems(items: Items) {
    items.NoItems? || (Stable(items.head) && StableItems(items.tail))
  }

  predicate StableFields(fields: Fields) {
    fields.NoFields? || (Stable(fields.value) && StableFields(fields.rest))
  }

  function Append(fields: Fields, more: Fields): Fields {
    match fields
    case NoFields => more
    case Field(k, v, rest) => Field(k, v, Append(rest, more))
  }

  lemma {:induction false} AppendKeys(fields: Fields, more: Fields)
    ensures Keys(Append(fields, more)) == Keys(fields) + Keys(more)
  {
    if fields.Field? {
      AppendKeys(fields.rest, more);
    }
  }

  lemma {:induction false} PutLast(fields: Fields, k: Key, v: Value)
    requires forall k0 :: k0 in Keys(fields) ==> k != k0 && !Precedes(k, k0)
    ensures Put(fields, k, v) == Append(fields, Field(k, v, NoFields))
  {
    if fields.Field? {
      assert Keys(fields) == {fields.key} + Keys(fields.rest);
      PutLast(fields.rest, k, v);
    }
  }

  lemma {:induction false} AppendArranged(fields: Fields, more: Fields, k: Key)
    requires Arranged(Append(fields, more)) && k in Keys(more)
    ensures forall k0 :: k0 in Keys(fields) ==> k != k0 && !Precedes(k, k0)
  {
    if fields.Field? {
      AppendKeys(fields.rest, more);
      AppendArranged(fields.rest, more, k);
    }
  }

  lemma {:induction false} AppendTwice(a: Fields, b: Fields, c: Fields)
    ensures Append(Append(a, b), c) == Append(a, Append(b, c))
  {
    if a.Field? {
      AppendTwice(a.rest, b, c);
    }
  }

  /** Entries already in enumeration order stay as they are. */
  lemma {:induction false} PutAllArranged(fields: Fields, entries: Fields)
    requires Arranged(Append(fields, entries))
    ensures PutAll(fields, entries) == Append(fields, entries)
    decreases entries
  {
    match entries {
      case NoFields => AppendNothing(fields);
      case Field(k, v, rest) =>
        AppendArranged(fields, entries, k);
        PutLast(fields, k, v);
        AppendTwice(fields, Field(k, v, NoFields), rest);
        PutAllArranged(Put(fields, k, v), rest);
    }
  }

  lemma {:induction false} AppendNothing(fields: Fields)
    ensures Append(fields, NoFields) == fields
  {
    if fields.Field? {
      AppendNothing(fields.rest);
    }
  }

  /** Parsing written text gives the value back and stops where it ended. */
  lemma {:induction false} RoundTrip(v: Value, k: Document)
    requires Stable(v)
    ensures ParseValue(Write(v, k)) == Some(Parsed(v, k))
    decreases v
  {
    match v {
      case Atom(_) =>
      case Arr(items) =>
        if items.Item? {
          ItemsRoundTrip(items, k);
          WrittenItemIsNoClose(items, k);
        }
      case Obj(fields) =>
        if fields.Field? {
          FieldsRoundTrip(fields, k);
          PutAllArranged(NoFields, fields);
        }
    }
  }

  lemma {:induction false} WrittenItemIsNoClose(items: Items, k: Document)
    requires items.Item? && Stable(items.head)
    ensures var d := WriteItems(items, k); d.Tok? && d.token != CloseArr
  {
  }

  lemma {:induction false} ItemsRoundTrip(items: Items, k: Document)
    requires StableItems(items) && items.Item?
    ensures ParseItems(WriteItems(items, k)) == Some(Parsed(items, k))
    decreases items
  {
    if items.tail.NoItems? {
      RoundTrip(items.head, Tok(CloseArr, k));
    } else {
      RoundTrip(items.head, Tok(Comma, WriteItems(items.tail, k)));
      ItemsRoundTrip(items.tail, k);
    }
  }

  lemma {:induction false} FieldsRoundTrip(fields: Fields, k: Document)
    requires StableFields(fields) && fields.Field?
    ensures ParseFields(WriteFields(fields, k)) == Some(Parsed(fields, k))
    decreases fields
  {
    if fields.rest.NoFields? {
      RoundTrip(fields.value, Tok(CloseObj, k));
    } else {
      RoundTrip(fields.value, Tok(Comma, WriteFields(fields.rest, k)));
      FieldsRoundTrip(fields.rest, k);
    }
  }

  lemma {:induction false} ParseStringify(v: Value)
    requires Stable(v)
    ensures Parse(Stringify(v)) == Some(v)
  {
    RoundTrip(v, End);
  }

  // ---- the value whose text is canonical -------------------------------------------------------------------------

  function Norm(less: (Key, Key) -> bool, v: Value): Value
    requires Clean(v)
    decreases v
  {
    match v
    case Atom(_) => v
    case Arr(items) => Arr(NormItems(less, items))
    case Obj(fields) => Obj(FromEntries(SortFields(less, NormFields(less, fields))))
  }

  function NormItems(less: (Key, Key) -> bool, items: Items): Items
    requires CleanItems(items)
    decreases items
  {
    match items
    case NoItems => NoItems
    case Item(v, tail) => Item(Norm(less, v), NormItems(less, tail))
  }

  function NormFields(less: (Key, Key) -> bool, fields: Fields): Fields
    requires CleanFields(fields)
    decreases fields
  {
    match fields
    case NoFields => NoFields
    case Field(k, v, rest) =>
      if v.Undefined? then NormFields(less, rest) else Field(k, Norm(less, v), NormFields(less, rest))
  }

  lemma {:induction false} PutStable(fields: Fields, k: Key, v: Value)
    requires StableFields(fields) && Stable(v)
    ensures StableFields(Put(fields, k, v)) && Keys(Put(fields, k, v)) == Keys(fields) + {k}
    ensures Arranged(fields) ==> Arranged(Put(fields, k, v))
  {
    if fields.Field? {
      PutStable(fields.rest, k, v);
    }
  }

  lemma {:induction false} PutAllStable(fields: Fields, entries: Fields)
    requires StableFields(fields) && Arranged(fields) && StableFields(entries)
    ensures StableFields(PutAll(fields, entries)) && Arranged(PutAll(fields, entries))
    decreases entries
  {
    if entries.Field? {
      PutStable(fields, entries.key, entries.value);
      PutAllStable(Put(fields, entries.key, entries.value), entries.rest);
    }
  }

  lemma {:induction false} InsertStable(less: (Key, Key) -> bool, k: Key, v: Value, fields: Fields)
    requires StableFields(fields) && Stable(v)
    ensures StableFields(InsertField(less, k, v, fields))
    ensures Keys(InsertField(less, k, v, fields)) == Keys(fields) + {k}
    decreases fields
  {
    if fields.Field? {
      InsertStable(less, k, v, fields.rest);
    }
  }

  lemma {:induction false} SortStable(less: (Key, Key) -> bool, fields: Fields)
    requires StableFields(fields)
    ensures StableFields(SortFields(less, fields)) && Keys(SortFields(less, fields)) == Keys(fields)
    decreases fields
  {
    if fields.Field? {
      SortStable(less, fields.rest);
      InsertStable(less, fields.key, fields.value, SortFields(less, fields.rest));
    }
  }

  lemma {:induction false} NormStable(less: (Key, Key) -> bool, v: Value)
    requires Clean(v)
    ensures Stable(Norm(less, v))
    decreases v
  {
    match v {
      case Atom(_) =>
      case Arr(items) => NormItemsStable(less, items);
      case Obj(fields) =>
        NormFieldsStable(less, fields);
        SortStable(less, NormFields(less, fields));
        PutAllStable(NoFields, SortFields(less, NormFields(less, fields)));
    }
  }

  lemma {:induction false} NormItemsStable(less: (Key, Key) -> bool, items: Items)
    requires CleanItems(items)
    ensures StableItems(NormItems(less, items))
    decreases items
  {
    if items.Item? {
      NormStable(less, items.head);
      NormItemsStable(less, items.tail);
    }
  }

  lemma {:induction false} NormFieldsStable(less: (Key, Key) -> bool, fields: Fields)
    requires CleanFields(fields)
    ensures StableFields(NormFields(less, fields)) && Keys(NormFields(less, fields)) <= Keys(fields)
    decreases fields
  {
    if fields.Field? {
      NormFieldsStable(less, fields.rest);
      if !fields.value.Undefined? {
        NormStable(less, fields.value);
      }
    }
  }

  /** The text exists exactly for clean values: an undefined array element makes the source throw. */
  lemma {:induction false} CanonicalIsNorm(less: (Key, Key) -> bool, v: Value)
    ensures Canonical(less, v) == if Clean(v) then Some(Stringify(Norm(less, v))) else None
    decreases v, 0
  {
    match v {
      case Undefined =>
      case Atom(_) =>
      case Arr(items) => ReparseItemsIsNorm(less, items);
      case Obj(fields) => ReparseFieldsIsNorm(less, fields);
    }
  }

  lemma {:induction false} ReparseIsNorm(less: (Key, Key) -> bool, v: Value)
    ensures Reparse(less, v) == if Clean(v) then Some(Norm(less, v)) else None
    decreases v, 1
  {
    CanonicalIsNorm(less, v);
    if Clean(v) {
      NormStable(less, v);
      ParseStringify(Norm(less, v));
    }
  }

  lemma {:induction false} ReparseItemsIsNorm(less: (Key, Key) -> bool, items: Items)
    ensures ReparseItems(less, items) == if CleanItems(items) then Some(NormItems(less, items)) else None
    decreases items
  {
    if items.Item? {
      ReparseIsNorm(less, items.head);
      ReparseItemsIsNorm(less, items.tail);
    }
  }

  lemma {:induction false} ReparseFieldsIsNorm(less: (Key, Key) -> bool, fields: Fields)
    ensures ReparseFields(less, fields) == if CleanFields(fields) then Some(NormFields(less, fields)) else None
    decreases fields
  {
    if fields.Field? {
      ReparseFieldsIsNorm(less, fields.rest);
      if !fields.value.Undefined? {
        ReparseIsNorm(less, fields.value);
      }
    }
  }

  // ---- normalising keeps the meaning -----------------------------------------------------------------------------

  lemma {:induction false} StableIsClean(v: Value)
    requires Stable(v)
    ensures Clean(v)
    decreases v
  {
    match v {
      case Atom(_) =>
      case Arr(items) => StableItemsAreClean(items);
      case Obj(fields) => StableFieldsAreClean(fields);
    }
  }

  lemma {:induction false} StableItemsAreClean(items: Items)
    requires StableItems(items)
    ensures CleanItems(items)
    decreases items
  {
    if items.Item? {
      StableIsClean(items.head);
      StableItemsAreClean(items.tail);
    }
  }

  lemma {:induction false} StableFieldsAreClean(fields: Fields)
    requires StableFields(fields)
    ensures CleanFields(fields) && FieldsMean(fields).Keys == Keys(fields)
    decreases fields
  {
    if fields.Field? {
      StableIsClean(fields.value);
      StableFieldsAreClean(fields.rest);
    }
  }

  lemma {:induction false} PutMeans(fields: Fields, k: Key, v: Value)
    requires CleanFields(fields) && Clean(v)
    ensures CleanFields(Put(fields, k, v))
    ensures k !in Keys(fields) ==> FieldsMean(Put(fields, k, v)) == FieldsMean(fields)[k := Means(v)]
    ensures Keys(Put(fields, k, v)) == Keys(fields) + {k}
    decreases fields
  {
    if fields.Field? {
      PutMeans(fields.rest, k, v);
    }
  }

  predicate DistinctKeys(fields: Fields) {
    fields.NoFields? || (fields.key !in Keys(fields.rest) && DistinctKeys(fields.rest))
  }

  lemma {:induction false} PutAllMeans(fields: Fields, entries: Fields)
    requires CleanFields(fields) && StableFields(entries) && DistinctKeys(entries) && Keys(fields) !! Keys(entries)
    ensures CleanFields(PutAll(fields, entries)) && CleanFields(entries)
    ensures FieldsMean(PutAll(fields, entries)) == FieldsMean(fields) + FieldsMean(entries)
    decreases entries
  {
    StableFieldsAreClean(entries);
    if entries.Field? {
      PutMeans(fields, entries.key, entries.value);
      PutAllMeans(Put(fields, entries.key, entries.value), entries.rest);
      StableFieldsAreClean(entries.rest);
    }
  }

  lemma {:induction false} InsertMeans(less: (Key, Key) -> bool, k: Key, v: Value, fields: Fields)
    requires CleanFields(fields) && DistinctKeys(fields) && Clean(v) && k !in Keys(fields)
    ensures var after := InsertField(less, k, v, fields);
            && CleanFields(after) && FieldsMean(after) == FieldsMean(fields)[k := Means(v)]
            && DistinctKeys(after) && Keys(after) == Keys(fields) + {k}
    decreases fields
  {
    if fields.Field? {
      InsertMeans(less, k, v, fields.rest);
    }
  }

  lemma {:induction false} SortMeans(less: (Key, Key) -> bool, fields: Fields)
    requires StableFields(fields) && DistinctKeys(fields)
    ensures var after := SortFields(less, fields);
            && CleanFields(after) && CleanFields(fields) && FieldsMean(after) == FieldsMean(fields)
            && DistinctKeys(after) && Keys(after) == Keys(fields)
    decreases fields
  {
    if fields.Field? {
      SortMeans(less, fields.rest);
      StableIsClean(fields.value);
      InsertMeans(less, fields.key, fields.value, SortFields(less, fields.rest));
    }
  }

  lemma {:induction false} NormMeans(less: (Key, Key) -> bool, v: Value)
    requires Clean(v) && Proper(v)
    ensures Clean(Norm(less, v)) && Means(Norm(less, v)) == Means(v)
    decreases v
  {
    match v {
      case Atom(_) =>
      case Arr(items) => NormItemsMean(less, items);
      case Obj(fields) =>
        var entries := NormFields(less, fields);
        NormFieldsStable(less, fields);
        NormFieldsMean(less, fields);
        SortMeans(less, entries);
        SortStable(less, entries);
        PutAllMeans(NoFields, SortFields(less, entries));
    }
  }

  lemma {:induction false} NormItemsMean(less: (Key, Key) -> bool, items: Items)
    requires CleanItems(items) && ProperItems(items)
    ensures CleanItems(NormItems(less, items)) && ItemsMean(NormItems(less, items)) == ItemsMean(items)
    decreases items
  {
    if items.Item? {
      NormMeans(less, items.head);
      NormItemsMean(less, items.tail);
    }
  }

  lemma {:induction false} NormFieldsMean(less: (Key, Key) -> bool, fields: Fields)
    requires CleanFields(fields) && ProperFields(fields)
    ensures var after := NormFields(less, fields);
            && CleanFields(after) && FieldsMean(after) == FieldsMean(fields)
            && DistinctKeys(after) && Keys(after) <= Keys(fields)
    decreases fields
  {
    if fields.Field? {
      NormFieldsMean(less, fields.rest);
      if !fields.value.Undefined? {
        NormMeans(less, fields.value);
      }
    }
  }

  // ---- a meaning has one normal value ----------------------------------------------------------------------------

  /** What every consistent comparison satisfies; it may tie different keys. */
  ghost predicate WeakOrder(less: (Key, Key) -> bool) {
    && (forall a :: !less(a, a))
    && (forall a, b, c :: less(a, b) && less(b, c) ==> less(a, c))
    && (forall a, b, c :: !less(a, b) && !less(b, c) ==> !less(a, c))
  }

  /** No two names among the keys are tied. Integer keys are put in place by the enumeration, so their ties are harmless. */
  ghost predicate NamesApart(less: (Key, Key) -> bool, keys: set<Key>) {
    forall a, b :: a in keys && b in keys && a.Name? && b.Name? && a != b ==> less(a, b) || less(b, a)
  }

  function DefinedKeys(fields: Fields): set<Key> {
    match fields
    case NoFields => {}
    case Field(k, v, rest) => (if v.Undefined? then {} else {k}) + DefinedKeys(rest)
  }

  /** No object inside has two tied names. */
  ghost predicate Untied(less: (Key, Key) -> bool, v: Value)
    decreases v
  {
    match v
    case Undefined => true
    case Atom(_) => true
    case Arr(items) => UntiedItems(less, items)
    case Obj(fields) => UntiedFields(less, fields) && NamesApart(less, DefinedKeys(fields))
  }

  ghost predicate UntiedItems(less: (Key, Key) -> bool, items: Items)
    decreases items
  {
    items.NoItems? || (Untied(less, items.head) && UntiedItems(less, items.tail))
  }

  ghost predicate UntiedFields(less: (Key, Key) -> bool, fields: Fields)
    decreases fields
  {
    fields.NoFields? || (Untied(less, fields.value) && UntiedFields(less, fields.rest))
  }

  lemma {:induction false} NormKeys(less: (Key, Key) -> bool, fields: Fields)
    requires CleanFields(fields)
    ensures Keys(NormFields(less, fields)) == DefinedKeys(fields)
    decreases fields
  {
    if fields.Field? {
      NormKeys(less, fields.rest);
    }
  }

  /** The order in which canonical text lists keys: integers ascending, then names by the comparison. */
  predicate Before(less: (Key, Key) -> bool, a: Key, b: Key) {
    if a.Index? then b.Name? || a.n < b.n else b.Name? && less(a, b)
  }

  predicate Ordered(less: (Key, Key) -> bool, fields: Fields) {
    fields.NoFields?
    || (Ordered(less, fields.rest) && forall k :: k in Keys(fields.rest) ==> Before(less, fields.key, k))
  }

  predicate LessSorted(less: (Key, Key) -> bool, fields: Fields) {
    fields.NoFields?
    || (LessSorted(less, fields.rest) && forall k :: k in Keys(fields.rest) ==> !less(k, fields.key))
  }

  /** Every object inside lists its keys in the canonical order. */
  predicate Normal(less: (Key, Key) -> bool, v: Value)
    decreases v
  {
    match v
    case Undefined => false
    case Atom(_) => true
    case Arr(items) => NormalItems(less, items)
    case Obj(fields) => NormalFields(less, fields) && Ordered(less, fields)
  }

  predicate NormalItems(less: (Key, Key) -> bool, items: Items)
    decreases items
  {
    items.NoItems? || (Normal(less, items.head) && NormalItems(less, items.tail))
  }

  predicate NormalFields(less: (Key, Key) -> bool, fields: Fields)
    decreases fields
  {
    fields.NoFields? || (Normal(less, fields.value) && NormalFields(less, fields.rest))
  }

  lemma {:induction false} InsertSorted(less: (Key, Key) -> bool, k: Key, v: Value, fields: Fields)
    requires WeakOrder(less) && LessSorted(less, fields) && k !in Keys(fields)
    requires NormalFields(less, fields) && Normal(less, v)
    ensures var after := InsertField(less, k, v, fields);
            LessSorted(less, after) && Keys(after) == Keys(fields) + {k} && NormalFields(less, after)
    decreases fields
  {
    if fields.Field? {
      InsertSorted(less, k, v, fields.rest);
    }
  }

  lemma {:induction false} SortSorts(less: (Key, Key) -> bool, fields: Fields)
    requires WeakOrder(less) && DistinctKeys(fields) && NormalFields(less, fields)
    ensures var after := SortFields(less, fields);
            LessSorted(less, after) && Keys(after) == Keys(fields) && NormalFields(less, after)
    decreases fields
  {
    if fields.Field? {
      SortSorts(less, fields.rest);
      InsertSorted(less, fields.key, fields.value, SortFields(less, fields.rest));
    }
  }

  /** A name assigned after all smaller names, or an integer assigned at any time, lands in its place. */
  lemma {:induction false} PutOrdered(less: (Key, Key) -> bool, fields: Fields, k: Key, v: Value)
    requires WeakOrder(less) && Ordered(less, fields) && k !in Keys(fields)
    requires k.Name? ==> forall k0 :: k0 in Keys(fields) && k0.Name? ==> less(k0, k)
    requires NormalFields(less, fields) && Normal(less, v)
    ensures var after := Put(fields, k, v);
            Ordered(less, after) && Keys(after) == Keys(fields) + {k} && NormalFields(less, after)
    decreases fields
  {
    if fields.Field? {
      PutOrdered(less, fields.rest, k, v);
    }
  }

  lemma {:induction false} PutAllOrdered(less: (Key, Key) -> bool, fields: Fields, entries: Fields)
    requires WeakOrder(less) && Ordered(less, fields) && LessSorted(less, entries) && DistinctKeys(entries)
    requires NamesApart(less, Keys(entries)) && Keys(fields) !! Keys(entries)
    requires forall a, b :: a in Keys(fields) && b in Keys(entries) && a.Name? && b.Name? ==> less(a, b)
    requires NormalFields(less, fields) && NormalFields(less, entries)
    ensures Ordered(less, PutAll(fields, entries)) && NormalFields(less, PutAll(fields, entries))
    decreases entries
  {
    if entries.Field? {
      PutOrdered(less, fields, entries.key, entries.value);
      PutAllOrdered(less, Put(fields, entries.key, entries.value), entries.rest);
    }
  }

  lemma {:induction false} SortDistinct(less: (Key, Key) -> bool, fields: Fields)
    requires DistinctKeys(fields)
    ensures DistinctKeys(SortFields(less, fields)) && Keys(SortFields(less, fields)) == Keys(fields)
    decreases fields
  {
    if fields.Field? {
      SortDistinct(less, fields.rest);
      InsertDistinct(less, fields.key, fields.value, SortFields(less, fields.rest));
    }
  }

  lemma {:induction false} InsertDistinct(less: (Key, Key) -> bool, k: Key, v: Value, fields: Fields)
    requires DistinctKeys(fields) && k !in Keys(fields)
    ensures var after := InsertField(less, k, v, fields);
            DistinctKeys(after) && Keys(after) == Keys(fields) + {k}
    decreases fields
  {
    if fields.Field? {
      InsertDistinct(less, k, v, fields.rest);
    }
  }

  lemma {:induction false} NormIsNormal(less: (Key, Key) -> bool, v: Value)
    requires WeakOrder(less) && Clean(v) && Proper(v) && Untied(less, v)
    ensures Normal(less, Norm(less, v))
    decreases v
  {
    match v {
      case Atom(_) =>
      case Arr(items) => NormItemsAreNormal(less, items);
      case Obj(fields) =>
        NormFieldsMean(less, fields);
        NormFieldsAreNormal(less, fields);
        SortSorts(less, NormFields(less, fields));
        SortDistinct(less, NormFields(less, fields));
        NormKeys(less, fields);
        PutAllOrdered(less, NoFields, SortFields(less, NormFields(less, fields)));
    }
  }

  lemma {:induction false} NormItemsAreNormal(less: (Key, Key) -> bool, items: Items)
    requires WeakOrder(less) && CleanItems(items) && ProperItems(items) && UntiedItems(less, items)
    ensures NormalItems(less, NormItems(less, items))
    decreases items
  {
    if items.Item? {
      NormIsNormal(less, items.head);
      NormItemsAreNormal(less, items.tail);
    }
  }

  lemma {:induction false} NormFieldsAreNormal(less: (Key, Key) -> bool, fields: Fields)
    requires WeakOrder(less) && CleanFields(fields) && ProperFields(fields) && UntiedFields(less, fields)
    ensures NormalFields(less, NormFields(less, fields))
    decreases fields
  {
    if fields.Field? {
      NormFieldsAreNormal(less, fields.rest);
      if !fields.value.Undefined? {
        NormIsNormal(less, fields.value);
      }
    }
  }

  lemma {:induction false} OneNormalValue(less: (Key, Key) -> bool, v: Value, w: Value)
    requires WeakOrder(less) && Stable(v) && Stable(w) && Normal(less, v) && Normal(less, w)
    requires Clean(v) && Clean(w) && Means(v) == Means(w)
    ensures v == w
    decreases v
  {
    match v {
      case Atom(_) =>
      case Arr(items) => OneNormalItems(less, items, w.items);
      case Obj(fields) => OneNormalFields(less, fields, w.fields);
    }
  }

  lemma {:induction false} OneNormalItems(less: (Key, Key) -> bool, a: Items, b: Items)
    requires WeakOrder(less) && StableItems(a) && StableItems(b) && NormalItems(less, a) && NormalItems(less, b)
    requires CleanItems(a) && CleanItems(b) && ItemsMean(a) == ItemsMean(b)
    ensures a == b
    decreases a
  {
    if a.Item? {
      OneNormalValue(less, a.head, b.head);
      OneNormalItems(less, a.tail, b.tail);
    }
  }

  /** Two ordered field lists with one meaning start with the same key: the first of their common key set. */
  lemma {:induction false} OneNormalFields(less: (Key, Key) -> bool, a: Fields, b: Fields)
    requires WeakOrder(less) && StableFields(a) && StableFields(b) && NormalFields(less, a) && NormalFields(less, b)
    requires Ordered(less, a) && Ordered(less, b)
    requires CleanFields(a) && CleanFields(b) && FieldsMean(a) == FieldsMean(b)
    ensures a == b
    decreases a
  {
    StableFieldsAreClean(a);
    StableFieldsAreClean(b);
    if a.Field? {
      assert a.key in Keys(b) && b.key in Keys(a);
      StableFieldsAreClean(a.rest);
      StableFieldsAreClean(b.rest);
      assert a.key == b.key && a.key !in Keys(a.rest) && b.key !in Keys(b.rest);
      assert FieldsMean(a)[a.key] == Means(a.value) && FieldsMean(b)[b.key] == Means(b.value);
      OneNormalValue(less, a.value, b.value);
      assert FieldsMean(a.rest) == FieldsMean(a) - {a.key} && FieldsMean(b.rest) == FieldsMean(b) - {b.key};
      OneNormalFields(less, a.rest, b.rest);
    }
  }

  // ---- main results ----------------------------------------------------------------------------------------------

  /**
   * Two values without tied names in one object have the same canonical text exactly when they are equal up to key
   * order and undefined fields.
   */
  lemma {:induction false} CanonicalDecidesMeaning(less: (Key, Key) -> bool, v: Value, w: Value)
    requires WeakOrder(less) && Clean(v) && Clean(w) && Proper(v) && Proper(w) && Untied(less, v) && Untied(less, w)
    ensures Canonical(less, v) == Canonical(less, w) <==> Means(v) == Means(w)
  {
    CanonicalIsNorm(less, v);
    CanonicalIsNorm(less, w);
    NormStable(less, v);
    NormStable(less, w);
    ParseStringify(Norm(less, v));
    ParseStringify(Norm(less, w));
    NormMeans(less, v);
    NormMeans(less, w);
    if Means(v) == Means(w) {
      NormIsNormal(less, v);
      NormIsNormal(less, w);
      OneNormalValue(less, Norm(less, v), Norm(less, w));
    }
  }

  lemma {:induction false} OrderedIsProper(less: (Key, Key) -> bool, v: Value)
    requires WeakOrder(less) && Normal(less, v)
    ensures Proper(v) && Untied(less, v)
    decreases v
  {
    match v {
      case Atom(_) =>
      case Arr(items) => OrderedItemsAreProper(less, items);
      case Obj(fields) => OrderedFieldsAreProper(less, fields);
    }
  }

  lemma {:induction false} OrderedItemsAreProper(less: (Key, Key) -> bool, items: Items)
    requires WeakOrder(less) && NormalItems(less, items)
    ensures ProperItems(items) && UntiedItems(less, items)
    decreases items
  {
    if items.Item? {
      OrderedIsProper(less, items.head);
      OrderedItemsAreProper(less, items.tail);
    }
  }

  lemma {:induction false} OrderedFieldsAreProper(less: (Key, Key) -> bool, fields: Fields)
    requires WeakOrder(less) && NormalFields(less, fields) && Ordered(less, fields)
    ensures ProperFields(fields) && UntiedFields(less, fields) && NamesApart(less, DefinedKeys(fields))
    ensures DefinedKeys(fields) <= Keys(fields)
    decreases fields
  {
    if fields.Field? {
      OrderedIsProper(less, fields.value);
      OrderedFieldsAreProper(less, fields.rest);
    }
  }

  /** Canonical text parses, and canonicalising what it parses to gives the same text again. */
  lemma {:induction false} CanonicalIsIdempotent(less: (Key, Key) -> bool, v: Value)
    requires WeakOrder(less) && Clean(v) && Proper(v) && Untied(less, v)
    ensures Canonical(less, v).Some?
    ensures var parsed := Parse(Canonical(less, v).value);
            parsed.Some? && Canonical(less, parsed.value) == Canonical(less, v)
  {
    CanonicalIsNorm(less, v);
    NormStable(less, v);
    ParseStringify(Norm(less, v));
    NormMeans(less, v);
    NormIsNormal(less, v);
    OrderedIsProper(less, Norm(less, v));
    CanonicalDecidesMeaning(less, Norm(less, v), v);
  }

  function One(k: Key, scalar: Scalar): (fields: Fields)
    ensures CleanFields(fields) && ProperFields(fields) && Keys(fields) == {k} && fields == Field(k, Atom(scalar), NoFields)
  {
    var v := Atom(scalar);
    assert Clean(v) && Proper(v) && Keys(NoFields) == {} && CleanFields(NoFields) && ProperFields(NoFields);
    Field(k, v, NoFields)
  }

  function Two(a: Key, one: Scalar, b: Key, two: Scalar): (v: Value)
    ensures Clean(v) && (a != b ==> Proper(v)) && v == Obj(Field(a, Atom(one), One(b, two)))
  {
    var v := Atom(one);
    var fields := Field(a, v, One(b, two));
    assert Clean(v) && Proper(v) && CleanFields(fields) && (a != b ==> ProperFields(fields));
    Obj(fields)
  }

  lemma TwoMeans(a: Key, one: Scalar, b: Key, two: Scalar)
    requires a != b
    ensures Means(Two(a, one, b, two)) == ObjMeaning(map[a := AtomMeaning(one), b := AtomMeaning(two)])
  {
    var last := One(b, two);
    assert FieldsMean(last) == FieldsMean(NoFields)[b := AtomMeaning(two)];
    assert FieldsMean(Two(a, one, b, two).fields) == FieldsMean(last)[a := AtomMeaning(one)];
  }

  lemma TiedNorm(less: (Key, Key) -> bool, a: string, one: Scalar, b: string, two: Scalar)
    requires a != b && !less(Name(b), Name(a))
    ensures Norm(less, Two(Name(a), one, Name(b), two)) == Two(Name(a), one, Name(b), two)
  {
    var last := One(Name(b), two);
    var entries := Two(Name(a), one, Name(b), two).fields;
    assert CleanFields(entries);
    assert NormFields(less, last) == last && NormFields(less, entries) == entries;
    assert SortFields(less, last) == last by { assert InsertField(less, Name(b), Atom(two), NoFields) == last; }
    assert SortFields(less, entries) == InsertField(less, Name(a), Atom(one), last);
    assert Put(NoFields, Name(a), Atom(one)) == Field(Name(a), Atom(one), NoFields);
    assert PutAll(NoFields, entries) == PutAll(Field(Name(a), Atom(one), NoFields), last);
    assert Put(Field(Name(a), Atom(one), NoFields), Name(b), Atom(two)) == entries;
    assert PutAll(entries, NoFields) == entries;
  }

  /** If the comparison ties two different names, their order still shows: the text is then no normal form. */
  lemma TiesKeepInsertionOrder(less: (Key, Key) -> bool, a: string, b: string)
    requires a != b && !less(Name(a), Name(b)) && !less(Name(b), Name(a))
    ensures var v, w := Two(Name(a), Null, Name(b), Bool(true)), Two(Name(b), Bool(true), Name(a), Null);
            Means(v) == Means(w) && Canonical(less, v) != Canonical(less, w)
  {
    var v, w := Two(Name(a), Null, Name(b), Bool(true)), Two(Name(b), Bool(true), Name(a), Null);
    TwoMeans(Name(a), Null, Name(b), Bool(true));
    TwoMeans(Name(b), Bool(true), Name(a), Null);
    CanonicalIsNorm(less, v);
    CanonicalIsNorm(less, w);
    TiedNorm(less, a, Null, b, Bool(true));
    TiedNorm(less, b, Bool(true), a, Null);
    NormStable(less, v);
    NormStable(less, w);
    ParseStringify(v);
    ParseStringify(w);
  }

  /** The comparison makes canonical text the same as meaning. */
  ghost predicate DecidesMeaning(less: (Key, Key) -> bool) {
    forall v, w :: Clean(v) && Clean(w) && Proper(v) && Proper(w) ==>
                     (Canonical(less, v) == Canonical(less, w) <==> Means(v) == Means(w))
  }

  /** The comparison ties no two different names. */
  ghost predicate TiesNoNames(less: (Key, Key) -> bool) {
    forall a, b :: a != b ==> less(Name(a), Name(b)) || less(Name(b), Name(a))
  }

  lemma {:induction false} NeverTied(less: (Key, Key) -> bool, v: Value)
    requires TiesNoNames(less)
    ensures Untied(less, v)
    decreases v
  {
    match v {
      case Undefined =>
      case Atom(_) =>
      case Arr(items) => NeverTiedItems(less, items);
      case Obj(fields) =>
        NeverTiedFields(less, fields);
        forall a, b | a in DefinedKeys(fields) && b in DefinedKeys(fields) && a.Name? && b.Name? && a != b
          ensures less(a, b) || less(b, a)
        {
          assert a == Name(a.name) && b == Name(b.name);
        }
    }
  }

  lemma {:induction false} NeverTiedItems(less: (Key, Key) -> bool, items: Items)
    requires TiesNoNames(less)
    ensures UntiedItems(less, items)
    decreases items
  {
    if items.Item? {
      NeverTied(less, items.head);
      NeverTiedItems(less, items.tail);
    }
  }

  lemma {:induction false} NeverTiedFields(less: (Key, Key) -> bool, fields: Fields)
    requires TiesNoNames(less)
    ensures UntiedFields(less, fields)
    decreases fields
  {
    if fields.Field? {
      NeverTied(less, fields.value);
      NeverTiedFields(less, fields.rest);
    }
  }

  /** Canonical text decides meaning for all values if and only if the comparison ties no two different names. */
  lemma {:induction false} CanonicalDecidesExactly(less: (Key, Key) -> bool)
    requires WeakOrder(less)
    ensures DecidesMeaning(less) <==> TiesNoNames(less)
  {
    if TiesNoNames(less) {
      forall v, w | Clean(v) && Clean(w) && Proper(v) && Proper(w)
        ensures Canonical(less, v) == Canonical(less, w) <==> Means(v) == Means(w)
      {
        NeverTied(less, v);
        NeverTied(less, w);
        CanonicalDecidesMeaning(less, v, w);
      }
    } else {
      var a, b :| a != b && !less(Name(a), Name(b)) && !less(Name(b), Name(a));
      TiesKeepInsertionOrder(less, a, b);
      assert Proper(Two(Name(a), Null, Name(b), Bool(true))) && Proper(Two(Name(b), Bool(true), Name(a), Null));
    }
  }
}
