/** The canonical form of structured AI input: equal texts exactly for inputs that are the
  * same up to the reorderings that do not matter. */
module CanonicalJson {
  import opened Basics
  import opened Json

  // ----- Order -----

  predicate TextLeq(a: Text, b: Text)
    decreases |a|
  {
    a == [] || (b != [] && (a[0] < b[0] || (a[0] == b[0] && TextLeq(a[1..], b[1..]))))
  }

  lemma {:induction false} TextTotal(a: Text, b: Text)
    ensures TextLeq(a, b) || TextLeq(b, a)
    ensures TextLeq(a, b) && TextLeq(b, a) ==> a == b
    decreases |a|
  {
    if a != [] && b != [] {
      TextTotal(a[1..], b[1..]);
      assert a == [a[0]] + a[1..] && b == [b[0]] + b[1..];
    }
  }

  lemma {:induction false} TextTransitive(a: Text, b: Text, c: Text)
    requires TextLeq(a, b) && TextLeq(b, c)
    ensures TextLeq(a, c)
    decreases |a|
  {
    if a != [] && a[0] == b[0] == c[0] { TextTransitive(a[1..], b[1..], c[1..]); }
  }

  // What a comparison looks at first, and what decides ties.
  datatype SortKey = SortKey(major: Text, minor: Text)

  predicate KeyLeq(a: SortKey, b: SortKey) {
    if a.major == b.major then TextLeq(a.minor, b.minor) else TextLeq(a.major, b.major)
  }

  lemma KeyTotal(a: SortKey, b: SortKey)
    ensures KeyLeq(a, b) || KeyLeq(b, a)
    ensures KeyLeq(a, b) && KeyLeq(b, a) ==> a == b
  {
    TextTotal(a.major, b.major);
    TextTotal(a.minor, b.minor);
  }

  lemma KeyTransitive(a: SortKey, b: SortKey, c: SortKey)
    requires KeyLeq(a, b) && KeyLeq(b, c)
    ensures KeyLeq(a, c)
  {
    if a.major == b.major == c.major { TextTransitive(a.minor, b.minor, c.minor); }
    else if a.major != b.major && b.major != c.major {
      TextTransitive(a.major, b.major, c.major);
      TextTotal(a.major, b.major);
    }
  }

  // ----- toSorted -----

  function Insert<T>(x: T, sorted: seq<T>, key: T -> SortKey): seq<T> {
    if sorted == [] || KeyLeq(key(x), key(sorted[0])) then [x] + sorted
    else [sorted[0]] + Insert(x, sorted[1..], key)
  }

  function Sort<T>(xs: seq<T>, key: T -> SortKey): seq<T> {
    if xs == [] then [] else Insert(xs[0], Sort(xs[1..], key), key)
  }

  ghost predicate Sorted<T>(xs: seq<T>, key: T -> SortKey) {
    forall i, j | 0 <= i < j < |xs| :: KeyLeq(key(xs[i]), key(xs[j]))
  }

  lemma {:induction false} InsertIsSorted<T>(x: T, sorted: seq<T>, key: T -> SortKey)
    requires Sorted(sorted, key)
    ensures Sorted(Insert(x, sorted, key), key)
    ensures multiset(Insert(x, sorted, key)) == multiset{x} + multiset(sorted)
    decreases |sorted|
  {
    if sorted != [] {
      assert sorted == [sorted[0]] + sorted[1..];
      KeyTotal(key(x), key(sorted[0]));
      if KeyLeq(key(x), key(sorted[0])) {
        forall j | 0 <= j < |sorted| ensures KeyLeq(key(x), key(sorted[j])) {
          if j > 0 { KeyTransitive(key(x), key(sorted[0]), key(sorted[j])); }
        }
      } else {
        var rest := Insert(x, sorted[1..], key);
        InsertIsSorted(x, sorted[1..], key);
        forall j | 0 <= j < |rest| ensures KeyLeq(key(sorted[0]), key(rest[j])) {
          assert rest[j] in multiset(rest);
          assert rest[j] == x || rest[j] in sorted[1..];
        }
      }
    }
  }

  lemma {:induction false} SortIsSorted<T>(xs: seq<T>, key: T -> SortKey)
    ensures Sorted(Sort(xs, key), key)
    ensures multiset(Sort(xs, key)) == multiset(xs)
    decreases |xs|
  {
    if xs != [] {
      SortIsSorted(xs[1..], key);
      InsertIsSorted(xs[0], Sort(xs[1..], key), key);
      assert xs == [xs[0]] + xs[1..];
    }
  }

  ghost predicate KeysIdentify<T(!new)>(all: set<T>, key: T -> SortKey) {
    forall x, y | x in all && y in all && key(x) == key(y) :: x == y
  }

  lemma FirstIsLeast<T>(a: seq<T>, key: T -> SortKey, x: T)
    requires Sorted(a, key) && x in a
    ensures KeyLeq(key(a[0]), key(x))
  {
    KeyTotal(key(x), key(x));
  }

  lemma SameMembers<T>(a: seq<T>, b: seq<T>)
    requires multiset(a) == multiset(b)
    ensures |a| == |b| && forall x :: x in a <==> x in b
  {
    assert |a| == |multiset(a)| && |b| == |multiset(b)|;
    assert forall x :: x in a <==> x in multiset(a);
  }

  lemma TailMultiset<T>(a: seq<T>)
    requires a != []
    ensures multiset(a[1..]) == multiset(a) - multiset{a[0]}
  {
    assert a == [a[0]] + a[1..];
  }

  lemma SameFirst<T(!new)>(a: seq<T>, b: seq<T>, key: T -> SortKey, all: set<T>)
    requires Sorted(a, key) && Sorted(b, key) && multiset(a) == multiset(b)
    requires KeysIdentify(all, key) && forall x | x in a :: x in all
    requires a != [] && b != []
    ensures a[0] == b[0]
  {
    SameMembers(a, b);
    assert a[0] in b && b[0] in a;
    FirstIsLeast(a, key, b[0]);
    FirstIsLeast(b, key, a[0]);
    KeyTotal(key(a[0]), key(b[0]));
  }

  lemma TailIsSorted<T>(a: seq<T>, key: T -> SortKey)
    requires a != [] && Sorted(a, key)
    ensures Sorted(a[1..], key)
  {
  }

  lemma {:induction false} SortedIsUnique<T(!new)>(a: seq<T>, b: seq<T>, key: T -> SortKey, all: set<T>)
    requires Sorted(a, key) && Sorted(b, key) && multiset(a) == multiset(b)
    requires KeysIdentify(all, key) && forall x | x in a :: x in all
    ensures a == b
    decreases |a|
  {
    SameMembers(a, b);
    if a != [] {
      SameFirst(a, b, key, all);
      TailMultiset(a);
      TailMultiset(b);
      TailIsSorted(a, key);
      TailIsSorted(b, key);
      SortedIsUnique(a[1..], b[1..], key, all);
      assert a == [a[0]] + a[1..] && b == [b[0]] + b[1..];
    }
  }

  /** Any sort that orders by these keys gives this sequence, whatever the input order. */
  lemma SortIgnoresOrder<T(!new)>(a: seq<T>, b: seq<T>, key: T -> SortKey)
    requires multiset(a) == multiset(b) && KeysIdentify((set x | x in a), key)
    ensures Sort(a, key) == Sort(b, key)
  {
    SortIsSorted(a, key);
    SortIsSorted(b, key);
    SameMembers(Sort(a, key), a);
    SortedIsUnique(Sort(a, key), Sort(b, key), key, (set x | x in a));
  }

  // ----- canonicalValue -----

  function Ascii(s: string): (text: Text)
    ensures |text| == |s| && forall i | 0 <= i < |s| && s[i] as int < 128 :: text[i] as int == s[i] as int
  {
    seq(|s|, i requires 0 <= i < |s| => (s[i] as int % 128) as Unit)
  }

  const ENTITY_ID_KEYS: seq<Text> := [
    Ascii("actionId"), Ascii("decisionId"), Ascii("dissentId"), Ascii("evidenceId"),
    Ascii("evidenceReferenceId"), Ascii("externalEventId"), Ascii("premiseId"), Ascii("revisionId")]
  const UNORDERED_STRING_ARRAY_KEYS: set<Text> := {
    Ascii("affectedActionIds"), Ascii("affectedPremiseIds"), Ascii("evidenceReferenceIds"), Ascii("participantIds")}

  function Lookup(fields: seq<Field>, key: Text): Option<Json> {
    if fields == [] then None
    else if fields[0].key == key then Some(fields[0].value)
    else Lookup(fields[1..], key)
  }

  predicate HasStringAt(v: Json, key: Text) {
    v.Obj? && Lookup(v.fields, key).Some? && Lookup(v.fields, key).value.Str?
  }

  function EntityId(v: Json, key: Text): Text {
    if HasStringAt(v, key) then Lookup(v.fields, key).value.text else []
  }

  function FirstCommonKey(values: seq<Json>, keys: seq<Text>): Option<Text> {
    if keys == [] then None
    else if forall v | v in values :: HasStringAt(v, keys[0]) then Some(keys[0])
    else FirstCommonKey(values, keys[1..])
  }

  // How the order of an array matters.
  datatype Mode = InOrder | Strings | Entities(idKey: Text)

  function ModeOf(values: seq<Json>, parentKey: Option<Text>): Mode {
    if parentKey.Some? && parentKey.value in UNORDERED_STRING_ARRAY_KEYS && forall v | v in values :: v.Str? then Strings
    else if values == [] then InOrder
    else
      var idKey := FirstCommonKey(values, ENTITY_ID_KEYS);
      if idKey.Some? then Entities(idKey.value) else InOrder
  }

  function TextOf(v: Json): SortKey {
    if v.Str? then SortKey(v.text, []) else SortKey([], [])
  }

  function EntityOrder(idKey: Text): Json -> SortKey {
    v => SortKey(EntityId(v, idKey), Print(v))
  }

  function FieldKey(f: Field): SortKey {
    SortKey(f.key, [])
  }

  function Arrange(values: seq<Json>, parentKey: Option<Text>): seq<Json> {
    match ModeOf(values, parentKey)
    case InOrder => values
    case Strings => Sort(values, TextOf)
    case Entities(idKey) => Sort(values, EntityOrder(idKey))
  }

  function Canon(v: Json, parentKey: Option<Text>): Json
    decreases v, 0
  {
    match v
    case Arr(items) => Arr(Arrange(CanonItems(items), parentKey))
    case Obj(fields) => Obj(Sort(CanonFields(fields), FieldKey))
    case _ => v
  }

  function CanonItems(items: seq<Json>): seq<Json>
    decreases items, 0
  {
    if items == [] then [] else [Canon(items[0], None)] + CanonItems(items[1..])
  }

  function CanonFields(fields: seq<Field>): seq<Field>
    decreases fields, 0
  {
    if fields == [] then []
    else [Field(fields[0].key, Canon(fields[0].value, Some(fields[0].key)))] + CanonFields(fields[1..])
  }

  /** canonicalizeJudgeStructuredInput */
  function Canonicalize(input: Json): Text {
    Print(Canon(input, None))
  }

  /** The text is the JSON text: escapes of each length, and every kind of value. */
  lemma PrintsStrings()
    ensures Print(Str([34, 10, 1])) == Ascii("\"\\\"\\n\\u0001\"")
  {
    assert [34, 10, 1][1..] == [10, 1] && [10, 1][1..] == [1] && [1][1..] == [];
    assert Escaped([10, 1]) == Chunk([10, 1]) + (Chunk([1]) + Escaped([]));
  }

  lemma PrintsArrays()
    ensures Print(Arr([Null, Bool(true), Number(Ascii("1"))])) == Ascii("[null,true,1]")
  {
    var last: seq<Json> := [Number(Ascii("1"))];
    var rest := [Bool(true), Number(Ascii("1"))];
    assert rest[1..] == last && [Null, Bool(true), Number(Ascii("1"))][1..] == rest;
    assert PrintItems(last) == Ascii(",1]");
    assert PrintItems(rest) == Ascii(",true,1]");
  }

  lemma PrintsLetter(u: Unit)
    requires 97 <= u <= 122
    ensures Quoted([u]) == [34, u, 34]
  {
    assert [u][1..] == [] && Escaped([u]) == [u] + Escaped([]);
  }

  lemma PrintsObjects()
    ensures Print(Obj([Field([97], Bool(false)), Field([98], Obj([]))])) == Ascii("{\"a\":false,\"b\":{}}")
  {
    PrintsLetter(97);
    PrintsLetter(98);
    var rest := [Field([98], Obj([]))];
    assert PrintFields(rest) == Ascii(",\"b\":{}}") by { assert rest[1..] == []; }
    assert [Field([97], Bool(false)), Field([98], Obj([]))][1..] == rest;
  }

  // ----- What canonical inputs have in common -----

  function Without<T>(xs: seq<T>, j: nat): seq<T>
    requires j < |xs|
  {
    xs[..j] + xs[j+1..]
  }

  /** The properties whose arrays of strings have no order. */
  predicate IsUnorderedList(key: Text) {
    || key == Ascii("affectedActionIds") || key == Ascii("affectedPremiseIds")
    || key == Ascii("evidenceReferenceIds") || key == Ascii("participantIds")
  }

  /** The properties that identify an entity. */
  predicate IdentifiesEntity(key: Text) {
    || key == Ascii("actionId") || key == Ascii("decisionId") || key == Ascii("dissentId") || key == Ascii("evidenceId")
    || key == Ascii("evidenceReferenceId") || key == Ascii("externalEventId") || key == Ascii("premiseId")
    || key == Ascii("revisionId")
  }

  predicate HoldsString(fields: seq<Field>, key: Text) {
    exists f | f in fields :: f.key == key && f.value.Str?
  }

  /** All elements are entities with an id under `key`. */
  predicate AllIdentified(vs: seq<Json>, key: Text) {
    forall v | v in vs :: v.Obj? && HoldsString(v.fields, key)
  }

  /** The arrays whose order does not matter: strings under a property of unordered strings,
    * and entities that are all identified by one and the same property. */
  ghost predicate OrderIsFree(vs: seq<Json>, parentKey: Option<Text>) {
    || (parentKey.Some? && IsUnorderedList(parentKey.value) && forall v | v in vs :: v.Str?)
    || (vs != [] && exists key :: IdentifiesEntity(key) && AllIdentified(vs, key))
  }

  /** The same value up to the order of object keys and of arrays whose order does not
    * matter, at every depth. */
  ghost predicate Equivalent(a: Json, b: Json, parentKey: Option<Text>)
    decreases a, 0
  {
    match a
    case Arr(vs) =>
      && b.Arr?
      && if OrderIsFree(vs, parentKey) then SameInSomeOrder(vs, b.items) else SameInOrder(vs, b.items)
    case Obj(fs) => b.Obj? && SameFields(fs, b.fields)
    case _ => a == b
  }

  ghost predicate SameInOrder(vs: seq<Json>, ws: seq<Json>)
    decreases vs, 0
  {
    if vs == [] then ws == []
    else ws != [] && Equivalent(vs[0], ws[0], None) && SameInOrder(vs[1..], ws[1..])
  }

  ghost predicate SameInSomeOrder(vs: seq<Json>, ws: seq<Json>)
    decreases vs, 0
  {
    if vs == [] then ws == []
    else exists j | 0 <= j < |ws| :: Equivalent(vs[0], ws[j], None) && SameInSomeOrder(vs[1..], Without(ws, j))
  }

  ghost predicate SameFields(fs: seq<Field>, gs: seq<Field>)
    decreases fs, 0
  {
    if fs == [] then gs == []
    else exists j | 0 <= j < |gs| ::
      && fs[0].key == gs[j].key && Equivalent(fs[0].value, gs[j].value, Some(fs[0].key))
      && SameFields(fs[1..], Without(gs, j))
  }

  // ----- Canonicalizing preserves shape -----

  lemma {:induction false} CanonItemsAt(items: seq<Json>)
    ensures |CanonItems(items)| == |items|
    ensures forall i | 0 <= i < |items| :: CanonItems(items)[i] == Canon(items[i], None)
    decreases |items|
  {
    if items != [] { CanonItemsAt(items[1..]); }
  }

  lemma {:induction false} CanonFieldsAt(fields: seq<Field>)
    ensures |CanonFields(fields)| == |fields|
    ensures forall i | 0 <= i < |fields| ::
              CanonFields(fields)[i] == Field(fields[i].key, Canon(fields[i].value, Some(fields[i].key)))
    decreases |fields|
  {
    if fields != [] { CanonFieldsAt(fields[1..]); }
  }

  lemma ArrangePermutes(values: seq<Json>, parentKey: Option<Text>)
    ensures multiset(Arrange(values, parentKey)) == multiset(values)
  {
    match ModeOf(values, parentKey)
    case InOrder =>
    case Strings => SortIsSorted(values, TextOf);
    case Entities(idKey) => SortIsSorted(values, EntityOrder(idKey));
  }

  lemma CountTwo(gs: seq<Field>, i: nat, j: nat)
    requires i < j < |gs| && gs[i] == gs[j]
    ensures multiset(gs)[gs[i]] >= 2
  {
    assert gs == gs[..i] + [gs[i]] + gs[i+1..j] + [gs[j]] + gs[j+1..];
  }

  lemma CountOne(fs: seq<Field>, k: nat)
    requires DistinctKeys(fs) && k < |fs|
    ensures multiset(fs)[fs[k]] == 1
  {
    assert fs == fs[..k] + [fs[k]] + fs[k+1..];
    assert fs[k] !in fs[..k] && fs[k] !in fs[k+1..];
  }

  lemma PermutedDistinctKeys(fs: seq<Field>, gs: seq<Field>)
    requires multiset(fs) == multiset(gs) && DistinctKeys(fs)
    ensures DistinctKeys(gs)
  {
    SameMembers(fs, gs);
    forall i, j | 0 <= i < j < |gs|
      ensures gs[i].key != gs[j].key
    {
      assert gs[i] in fs && gs[j] in fs;
      var k :| 0 <= k < |fs| && fs[k] == gs[i];
      var l :| 0 <= l < |fs| && fs[l] == gs[j];
      CountOne(fs, k);
      if k == l { CountTwo(gs, i, j); }
    }
  }

  lemma ArrangedIsValid(values: seq<Json>, parentKey: Option<Text>)
    requires forall v | v in values :: Valid(v)
    ensures Valid(Arr(Arrange(values, parentKey)))
  {
    ArrangePermutes(values, parentKey);
    SameMembers(Arrange(values, parentKey), values);
  }

  lemma SortedFieldsAreValid(fields: seq<Field>)
    requires DistinctKeys(fields) && forall f | f in fields :: Valid(f.value)
    ensures Valid(Obj(Sort(fields, FieldKey)))
  {
    SortIsSorted(fields, FieldKey);
    SameMembers(Sort(fields, FieldKey), fields);
    PermutedDistinctKeys(fields, Sort(fields, FieldKey));
  }

  lemma {:induction false} CanonIsValid(v: Json, parentKey: Option<Text>)
    requires Valid(v)
    ensures Valid(Canon(v, parentKey))
    decreases v
  {
    match v
    case Arr(items) =>
      CanonItemsAt(items);
      forall i | 0 <= i < |items| ensures Valid(CanonItems(items)[i]) { CanonIsValid(items[i], None); }
      ArrangedIsValid(CanonItems(items), parentKey);
    case Obj(fields) =>
      CanonFieldsAt(fields);
      forall i | 0 <= i < |fields| ensures Valid(CanonFields(fields)[i].value) {
        CanonIsValid(fields[i].value, Some(fields[i].key));
      }
      SortedFieldsAreValid(CanonFields(fields));
    case _ =>
  }

  // ----- The mode of an array depends on its members only -----

  lemma {:induction false} CommonKeyOfMembers(a: seq<Json>, b: seq<Json>, keys: seq<Text>)
    requires forall v :: v in a <==> v in b
    ensures FirstCommonKey(a, keys) == FirstCommonKey(b, keys)
    decreases |keys|
  {
    if keys != [] { CommonKeyOfMembers(a, b, keys[1..]); }
  }

  lemma ModeOfPermuted(a: seq<Json>, b: seq<Json>, parentKey: Option<Text>)
    requires multiset(a) == multiset(b)
    ensures ModeOf(a, parentKey) == ModeOf(b, parentKey)
  {
    SameMembers(a, b);
    CommonKeyOfMembers(a, b, ENTITY_ID_KEYS);
  }

  lemma {:induction false} LookupMeans(fields: seq<Field>, key: Text, v: Json)
    requires DistinctKeys(fields)
    ensures Lookup(fields, key) == Some(v) <==> Field(key, v) in fields
    decreases |fields|
  {
    if fields != [] {
      LookupMeans(fields[1..], key, v);
      assert fields == [fields[0]] + fields[1..];
    }
  }

  lemma HasStringMeans(fields: seq<Field>, key: Text)
    requires DistinctKeys(fields)
    ensures HasStringAt(Obj(fields), key) <==> HoldsString(fields, key)
  {
    if Lookup(fields, key).Some? { LookupMeans(fields, key, Lookup(fields, key).value); }
    if f :| f in fields && f.key == key && f.value.Str? {
      assert f == Field(key, f.value);
      LookupMeans(fields, key, f.value);
    }
  }

  lemma CanonHoldsString(fields: seq<Field>, key: Text)
    ensures HoldsString(CanonFields(fields), key) <==> HoldsString(fields, key)
  {
    var canonical := CanonFields(fields);
    CanonFieldsAt(fields);
    if f :| f in fields && f.key == key && f.value.Str? {
      var i :| 0 <= i < |fields| && fields[i] == f;
      assert canonical[i] in canonical;
    }
    if g :| g in canonical && g.key == key && g.value.Str? {
      var i :| 0 <= i < |canonical| && canonical[i] == g;
      assert fields[i] in fields;
    }
  }

  lemma SortedHasString(fields: seq<Field>, key: Text)
    requires DistinctKeys(fields)
    ensures HasStringAt(Obj(Sort(fields, FieldKey)), key) <==> HoldsString(fields, key)
  {
    SortIsSorted(fields, FieldKey);
    SameMembers(Sort(fields, FieldKey), fields);
    PermutedDistinctKeys(fields, Sort(fields, FieldKey));
    HasStringMeans(Sort(fields, FieldKey), key);
  }

  lemma CanonHasString(v: Json, key: Text)
    requires Valid(v)
    ensures HasStringAt(Canon(v, None), key) <==> HasStringAt(v, key)
  {
    if v.Obj? {
      CanonFieldsAt(v.fields);
      HasStringMeans(v.fields, key);
      CanonHoldsString(v.fields, key);
      SortedHasString(CanonFields(v.fields), key);
    }
  }

  lemma {:induction false} CanonCommonKey(items: seq<Json>, keys: seq<Text>)
    requires forall v | v in items :: Valid(v)
    ensures FirstCommonKey(CanonItems(items), keys) == FirstCommonKey(items, keys)
    decreases |keys|
  {
    if keys != [] {
      CanonItemsAt(items);
      forall v | v in items { CanonHasString(v, keys[0]); }
      assert forall i | 0 <= i < |items| :: CanonItems(items)[i] in CanonItems(items) && items[i] in items;
      CanonCommonKey(items, keys[1..]);
    }
  }

  lemma CanonStrings(items: seq<Json>)
    ensures (forall v | v in CanonItems(items) :: v.Str?) <==> (forall v | v in items :: v.Str?)
  {
    var canonical := CanonItems(items);
    CanonItemsAt(items);
    forall i: nat | i < |items| ensures canonical[i] in canonical && items[i] in items {}
  }

  lemma ModeOfCanon(items: seq<Json>, parentKey: Option<Text>)
    requires forall v | v in items :: Valid(v)
    ensures ModeOf(CanonItems(items), parentKey) == ModeOf(items, parentKey)
  {
    CanonStrings(items);
    CanonCommonKey(items, ENTITY_ID_KEYS);
    assert CanonItems(items) == [] <==> items == [];
  }

  // ----- Which arrays are sorted -----

  lemma {:induction false} CommonKeyMeans(values: seq<Json>, keys: seq<Text>)
    requires forall v | v in values :: Valid(v)
    ensures FirstCommonKey(values, keys).Some? <==> exists key | key in keys :: AllIdentified(values, key)
    decreases |keys|
  {
    if keys != [] {
      CommonKeyMeans(values, keys[1..]);
      forall v | v in values && v.Obj? { HasStringMeans(v.fields, keys[0]); }
      assert keys == [keys[0]] + keys[1..];
      assert (forall v | v in values :: HasStringAt(v, keys[0])) <==> AllIdentified(values, keys[0]);
    }
  }

  /** An array is sorted exactly when its order does not matter. */
  lemma SortedIffOrderIsFree(values: seq<Json>, parentKey: Option<Text>)
    requires forall v | v in values :: Valid(v)
    ensures ModeOf(values, parentKey).InOrder? <==> !OrderIsFree(values, parentKey)
  {
    CommonKeyMeans(values, ENTITY_ID_KEYS);
    assert forall key :: key in ENTITY_ID_KEYS <==> IdentifiesEntity(key);
  }

  // ----- Reorderings that do not matter disappear -----

  lemma ArrangeIgnoresOrder(a: seq<Json>, b: seq<Json>, parentKey: Option<Text>)
    requires multiset(a) == multiset(b) && !ModeOf(a, parentKey).InOrder?
    requires forall v | v in a :: Valid(v)
    ensures Arrange(a, parentKey) == Arrange(b, parentKey)
  {
    ModeOfPermuted(a, b, parentKey);
    match ModeOf(a, parentKey)
    case Strings => SortIgnoresOrder(a, b, TextOf);
    case Entities(idKey) =>
      forall x, y | x in a && y in a && Print(x) == Print(y) ensures x == y { PrintInjective(x, y); }
      SortIgnoresOrder(a, b, EntityOrder(idKey));
  }

  lemma FieldsIgnoreOrder(a: seq<Field>, b: seq<Field>)
    requires multiset(a) == multiset(b) && DistinctKeys(a)
    ensures Sort(a, FieldKey) == Sort(b, FieldKey)
  {
    SortIgnoresOrder(a, b, FieldKey);
  }

  lemma WithoutMultiset<T>(xs: seq<T>, j: nat)
    requires j < |xs|
    ensures multiset(xs) == multiset(Without(xs, j)) + multiset{xs[j]}
  {
    assert xs == xs[..j] + [xs[j]] + xs[j+1..];
  }

  lemma WithoutIs<T>(xs: seq<T>, ys: seq<T>, j: nat)
    requires j < |xs| && |ys| == |xs| - 1
    requires forall i | 0 <= i < |ys| :: ys[i] == xs[if i < j then i else i + 1]
    ensures ys == Without(xs, j) && multiset(xs) == multiset(ys) + multiset{xs[j]}
  {
    WithoutMultiset(xs, j);
  }

  lemma WithoutAt<T>(xs: seq<T>, j: nat, i: nat)
    requires j < |xs| && i < |xs| - 1
    ensures |Without(xs, j)| == |xs| - 1 && Without(xs, j)[i] == xs[if i < j then i else i + 1]
  {
  }

  lemma CanonItemsWithout(items: seq<Json>, j: nat)
    requires j < |items|
    ensures multiset(CanonItems(items)) == multiset(CanonItems(Without(items, j))) + multiset{Canon(items[j], None)}
  {
    var rest := Without(items, j);
    var cs, ds := CanonItems(items), CanonItems(rest);
    CanonItemsAt(items);
    CanonItemsAt(rest);
    assert |rest| == |items| - 1;
    forall i: nat | i < |ds| ensures ds[i] == cs[if i < j then i else i + 1] {
      WithoutAt(items, j, i);
    }
    WithoutIs(cs, ds, j);
  }

  lemma CanonFieldsWithout(fields: seq<Field>, j: nat)
    requires j < |fields|
    ensures multiset(CanonFields(fields)) == multiset(CanonFields(Without(fields, j)))
              + multiset{Field(fields[j].key, Canon(fields[j].value, Some(fields[j].key)))}
  {
    var rest := Without(fields, j);
    var cs, ds := CanonFields(fields), CanonFields(rest);
    CanonFieldsAt(fields);
    CanonFieldsAt(rest);
    assert |rest| == |fields| - 1;
    forall i: nat | i < |ds| ensures ds[i] == cs[if i < j then i else i + 1] {
      WithoutAt(fields, j, i);
    }
    WithoutIs(cs, ds, j);
  }

  lemma {:induction false} EquivalentCanon(a: Json, b: Json, parentKey: Option<Text>)
    requires Valid(a) && Valid(b) && Equivalent(a, b, parentKey)
    ensures Canon(a, parentKey) == Canon(b, parentKey)
    decreases a, 0
  {
    match a
    case Arr(vs) =>
      SortedIffOrderIsFree(vs, parentKey);
      if !OrderIsFree(vs, parentKey) {
        InOrderCanon(vs, b.items);
      } else {
        SomeOrderCanon(vs, b.items);
        ModeOfCanon(vs, parentKey);
        CanonIsValidAll(vs);
        ArrangeIgnoresOrder(CanonItems(vs), CanonItems(b.items), parentKey);
      }
    case Obj(fs) =>
      FieldsCanon(fs, b.fields);
      CanonFieldsAt(fs);
      FieldsIgnoreOrder(CanonFields(fs), CanonFields(b.fields));
    case _ =>
  }

  lemma CanonIsValidAll(items: seq<Json>)
    requires forall v | v in items :: Valid(v)
    ensures forall v | v in CanonItems(items) :: Valid(v)
  {
    CanonItemsAt(items);
    forall i | 0 <= i < |items| ensures Valid(CanonItems(items)[i]) { CanonIsValid(items[i], None); }
  }

  lemma {:induction false} InOrderCanon(vs: seq<Json>, ws: seq<Json>)
    requires (forall v | v in vs :: Valid(v)) && (forall w | w in ws :: Valid(w)) && SameInOrder(vs, ws)
    ensures CanonItems(vs) == CanonItems(ws)
    decreases vs, 0
  {
    if vs != [] {
      EquivalentCanon(vs[0], ws[0], None);
      InOrderCanon(vs[1..], ws[1..]);
    }
  }

  lemma {:induction false} SomeOrderCanon(vs: seq<Json>, ws: seq<Json>)
    requires (forall v | v in vs :: Valid(v)) && (forall w | w in ws :: Valid(w)) && SameInSomeOrder(vs, ws)
    ensures multiset(CanonItems(vs)) == multiset(CanonItems(ws))
    decreases vs, 0
  {
    if vs != [] {
      var j :| 0 <= j < |ws| && Equivalent(vs[0], ws[j], None) && SameInSomeOrder(vs[1..], Without(ws, j));
      EquivalentCanon(vs[0], ws[j], None);
      SomeOrderCanon(vs[1..], Without(ws, j));
      CanonItemsWithout(ws, j);
    }
  }

  lemma {:induction false} FieldsCanon(fs: seq<Field>, gs: seq<Field>)
    requires (forall f | f in fs :: Valid(f.value)) && (forall g | g in gs :: Valid(g.value)) && SameFields(fs, gs)
    ensures multiset(CanonFields(fs)) == multiset(CanonFields(gs))
    decreases fs, 0
  {
    if fs != [] {
      var j :| 0 <= j < |gs| && fs[0].key == gs[j].key && Equivalent(fs[0].value, gs[j].value, Some(fs[0].key))
        && SameFields(fs[1..], Without(gs, j));
      EquivalentCanon(fs[0].value, gs[j].value, Some(fs[0].key));
      FieldsCanon(fs[1..], Without(gs, j));
      HeadField(fs);
      CanonFieldsWithout(gs, j);
    }
  }

  lemma HeadField(fs: seq<Field>)
    requires fs != []
    ensures multiset(CanonFields(fs)) == multiset(CanonFields(fs[1..]))
              + multiset{Field(fs[0].key, Canon(fs[0].value, Some(fs[0].key)))}
  {
  }

  // ----- Nothing else disappears -----

  lemma {:induction false} CanonEquivalent(a: Json, b: Json, parentKey: Option<Text>)
    requires Valid(a) && Valid(b) && Canon(a, parentKey) == Canon(b, parentKey)
    ensures Equivalent(a, b, parentKey)
    decreases a, 0
  {
    match a
    case Arr(vs) =>
      var ws := b.items;
      ArrangePermutes(CanonItems(vs), parentKey);
      ArrangePermutes(CanonItems(ws), parentKey);
      ModeOfCanon(vs, parentKey);
      ModeOfCanon(ws, parentKey);
      ModeOfPermuted(CanonItems(vs), CanonItems(ws), parentKey);
      SortedIffOrderIsFree(vs, parentKey);
      if OrderIsFree(vs, parentKey) { CanonSomeOrder(vs, ws); } else { CanonInOrder(vs, ws); }
    case Obj(fs) =>
      SortIsSorted(CanonFields(fs), FieldKey);
      SortIsSorted(CanonFields(b.fields), FieldKey);
      CanonSameFields(fs, b.fields);
    case _ =>
  }

  lemma {:induction false} CanonInOrder(vs: seq<Json>, ws: seq<Json>)
    requires (forall v | v in vs :: Valid(v)) && (forall w | w in ws :: Valid(w)) && CanonItems(vs) == CanonItems(ws)
    ensures SameInOrder(vs, ws)
    decreases vs, 0
  {
    CanonItemsAt(vs);
    CanonItemsAt(ws);
    if vs != [] {
      assert CanonItems(vs)[0] == CanonItems(ws)[0] && CanonItems(vs)[1..] == CanonItems(ws)[1..];
      CanonEquivalent(vs[0], ws[0], None);
      CanonInOrder(vs[1..], ws[1..]);
    }
  }

  lemma MatchingItem(vs: seq<Json>, ws: seq<Json>) returns (j: nat)
    requires vs != [] && multiset(CanonItems(vs)) == multiset(CanonItems(ws))
    ensures j < |ws| && Canon(vs[0], None) == Canon(ws[j], None)
    ensures multiset(CanonItems(vs[1..])) == multiset(CanonItems(Without(ws, j)))
  {
    CanonItemsAt(vs);
    CanonItemsAt(ws);
    var cs := CanonItems(ws);
    SameMembers(CanonItems(vs), cs);
    assert CanonItems(vs)[0] in cs;
    j :| 0 <= j < |cs| && cs[j] == CanonItems(vs)[0];
    CanonItemsWithout(ws, j);
    TailMultiset(CanonItems(vs));
  }

  lemma {:induction false} CanonSomeOrder(vs: seq<Json>, ws: seq<Json>)
    requires (forall v | v in vs :: Valid(v)) && (forall w | w in ws :: Valid(w))
    requires multiset(CanonItems(vs)) == multiset(CanonItems(ws))
    ensures SameInSomeOrder(vs, ws)
    decreases vs, 0
  {
    if vs == [] {
      CanonItemsAt(ws);
      SameMembers(CanonItems(vs), CanonItems(ws));
    } else {
      var j := MatchingItem(vs, ws);
      CanonEquivalent(vs[0], ws[j], None);
      CanonSomeOrder(vs[1..], Without(ws, j));
    }
  }

  lemma MatchingField(fs: seq<Field>, gs: seq<Field>) returns (j: nat)
    requires fs != [] && multiset(CanonFields(fs)) == multiset(CanonFields(gs))
    ensures j < |gs| && fs[0].key == gs[j].key
    ensures Canon(fs[0].value, Some(fs[0].key)) == Canon(gs[j].value, Some(fs[0].key))
    ensures multiset(CanonFields(fs[1..])) == multiset(CanonFields(Without(gs, j)))
  {
    CanonFieldsAt(fs);
    CanonFieldsAt(gs);
    var cs := CanonFields(gs);
    SameMembers(CanonFields(fs), cs);
    assert CanonFields(fs)[0] in cs;
    j :| 0 <= j < |cs| && cs[j] == CanonFields(fs)[0];
    CanonFieldsWithout(gs, j);
    TailMultiset(CanonFields(fs));
  }

  lemma {:induction false} CanonSameFields(fs: seq<Field>, gs: seq<Field>)
    requires (forall f | f in fs :: Valid(f.value)) && (forall g | g in gs :: Valid(g.value))
    requires multiset(CanonFields(fs)) == multiset(CanonFields(gs))
    ensures SameFields(fs, gs)
    decreases fs, 0
  {
    if fs == [] {
      CanonFieldsAt(gs);
      SameMembers(CanonFields(fs), CanonFields(gs));
    } else {
      var j := MatchingField(fs, gs);
      CanonEquivalent(fs[0].value, gs[j].value, Some(fs[0].key));
      CanonSameFields(fs[1..], Without(gs, j));
    }
  }

  // ----- The theorems -----

  /** Two inputs have one canonical text, and so one fingerprint, exactly when they are equal
    * up to the reorderings that do not matter. */
  lemma SameTextIffEquivalent(a: Json, b: Json)
    requires Valid(a) && Valid(b)
    ensures Canonicalize(a) == Canonicalize(b) <==> Equivalent(a, b, None)
  {
    if Canonicalize(a) == Canonicalize(b) {
      CanonIsValid(a, None);
      CanonIsValid(b, None);
      PrintInjective(Canon(a, None), Canon(b, None));
      CanonEquivalent(a, b, None);
    }
    if Equivalent(a, b, None) { EquivalentCanon(a, b, None); }
  }

  lemma {:induction false} CanonItemsPermuted(vs: seq<Json>, ws: seq<Json>)
    requires multiset(vs) == multiset(ws)
    ensures multiset(CanonItems(vs)) == multiset(CanonItems(ws))
    decreases |vs|
  {
    SameMembers(vs, ws);
    if vs != [] {
      assert vs[0] in ws;
      var j :| 0 <= j < |ws| && ws[j] == vs[0];
      WithoutMultiset(ws, j);
      TailMultiset(vs);
      CanonItemsPermuted(vs[1..], Without(ws, j));
      CanonItemsWithout(ws, j);
      CanonItemsWithout(vs, 0);
      assert Without(vs, 0) == vs[1..];
    }
  }

  /** All orders of a list of unordered strings, and of an array of entities identified by one
    * property, have one text. */
  lemma FreeOrderHasOneText(vs: seq<Json>, ws: seq<Json>, parentKey: Option<Text>)
    requires Valid(Arr(vs)) && multiset(vs) == multiset(ws) && OrderIsFree(vs, parentKey)
    ensures Print(Canon(Arr(vs), parentKey)) == Print(Canon(Arr(ws), parentKey))
  {
    SortedIffOrderIsFree(vs, parentKey);
    ModeOfCanon(vs, parentKey);
    CanonIsValidAll(vs);
    CanonItemsPermuted(vs, ws);
    ArrangeIgnoresOrder(CanonItems(vs), CanonItems(ws), parentKey);
  }

  /** Of any other array, two orders have one text only if they agree at every position up to
    * what does not matter inside the elements. */
  lemma OtherOrdersDiffer(vs: seq<Json>, ws: seq<Json>, parentKey: Option<Text>, k: nat)
    requires Valid(Arr(vs)) && Valid(Arr(ws)) && multiset(vs) == multiset(ws) && !OrderIsFree(vs, parentKey)
    requires k < |vs| && k < |ws| && Canon(vs[k], None) != Canon(ws[k], None)
    ensures Print(Canon(Arr(vs), parentKey)) != Print(Canon(Arr(ws), parentKey))
  {
    ModeOfPermuted(vs, ws, parentKey);
    SortedIffOrderIsFree(vs, parentKey);
    ModeOfCanon(vs, parentKey);
    ModeOfCanon(ws, parentKey);
    CanonItemsAt(vs);
    CanonItemsAt(ws);
    CanonIsValid(Arr(vs), parentKey);
    CanonIsValid(Arr(ws), parentKey);
    assert CanonItems(vs)[k] != CanonItems(ws)[k];
    assert Canon(Arr(vs), parentKey) != Canon(Arr(ws), parentKey);
    if Print(Canon(Arr(vs), parentKey)) == Print(Canon(Arr(ws), parentKey)) {
      PrintInjective(Canon(Arr(vs), parentKey), Canon(Arr(ws), parentKey));
    }
  }

  /** What the order of canonical texts means: at the first difference the smaller code unit, or
    * the end of the text, comes first. */
  predicate Precedes(a: Text, b: Text) {
    exists n | 0 <= n <= |a| && n <= |b| :: a[..n] == b[..n] && (n == |a| || (n < |b| && a[n] < b[n]))
  }

  lemma SameHead(a: Text, b: Text, n: nat)
    requires 0 < n <= |a| && n <= |b| && a[..n] == b[..n]
    ensures a[0] == b[0]
  {
    assert a[..n][0] == b[..n][0];
  }

  lemma {:induction false} TextOrderMeans(a: Text, b: Text)
    ensures TextLeq(a, b) <==> Precedes(a, b)
    decreases |a|
  {
    if a != [] && b != [] && a[0] == b[0] {
      TextOrderMeans(a[1..], b[1..]);
      if n :| 0 <= n <= |a| && n <= |b| && a[..n] == b[..n] && (n == |a| || (n < |b| && a[n] < b[n])) {
        assert n > 0;
        assert a[1..][..n-1] == a[..n][1..] && b[1..][..n-1] == b[..n][1..];
      }
      if n :| 0 <= n <= |a| - 1 && n <= |b| - 1 && a[1..][..n] == b[1..][..n]
              && (n == |a| - 1 || (n < |b| - 1 && a[1..][n] < b[1..][n])) {
        assert a[..n+1] == [a[0]] + a[1..][..n] && b[..n+1] == [b[0]] + b[1..][..n];
      }
    } else {
      assert a[..0] == b[..0];
      if n :| 0 <= n <= |a| && n <= |b| && a[..n] == b[..n] && (n == |a| || (n < |b| && a[n] < b[n])) {
        if n > 0 { SameHead(a, b, n); }
      }
    }
  }

  /** The keys of every canonical object ascend. */
  lemma KeysAscend(fields: seq<Field>, parentKey: Option<Text>, i: nat, j: nat)
    requires i < j < |fields|
    ensures var canonical := Canon(Obj(fields), parentKey).fields;
            |canonical| == |fields| && Precedes(canonical[i].key, canonical[j].key)
  {
    var canonical := Canon(Obj(fields), parentKey).fields;
    CanonFieldsAt(fields);
    SortIsSorted(CanonFields(fields), FieldKey);
    SameMembers(canonical, CanonFields(fields));
    TextTotal(canonical[i].key, canonical[j].key);
    TextOrderMeans(canonical[i].key, canonical[j].key);
    TextOrderMeans([], []);
  }

  /** So do the texts of a list of unordered strings. */
  lemma StringsAscend(vs: seq<Json>, key: Text, i: nat, j: nat)
    requires IsUnorderedList(key) && (forall v | v in vs :: v.Str?) && i < j < |vs|
    ensures var canonical := Canon(Arr(vs), Some(key)).items;
            |canonical| == |vs| && canonical[i].Str? && canonical[j].Str? && Precedes(canonical[i].text, canonical[j].text)
  {
    var canonical := Canon(Arr(vs), Some(key)).items;
    CanonItemsAt(vs);
    CanonStrings(vs);
    SortIsSorted(CanonItems(vs), TextOf);
    SameMembers(canonical, CanonItems(vs));
    TextTotal(canonical[i].text, canonical[j].text);
    TextOrderMeans(canonical[i].text, canonical[j].text);
  }

  predicate AllHave(vs: seq<Json>, key: Text) {
    forall v | v in vs :: HasStringAt(v, key)
  }

  lemma {:induction false} FirstCommonKeyIs(values: seq<Json>, keys: seq<Text>, k: nat)
    requires k < |keys| && AllHave(values, keys[k]) && forall l | 0 <= l < k :: !AllHave(values, keys[l])
    ensures FirstCommonKey(values, keys) == Some(keys[k])
    decreases k
  {
    if k > 0 {
      assert !AllHave(values, keys[0]);
      FirstCommonKeyIs(values, keys[1..], k - 1);
    }
  }

  lemma EntitiesAreSorted(vs: seq<Json>, k: nat)
    requires vs != [] && k < |ENTITY_ID_KEYS| && Valid(Arr(vs))
    requires AllHave(vs, ENTITY_ID_KEYS[k]) && forall l | 0 <= l < k :: !AllHave(vs, ENTITY_ID_KEYS[l])
    ensures Canon(Arr(vs), None) == Arr(Sort(CanonItems(vs), EntityOrder(ENTITY_ID_KEYS[k])))
  {
    FirstCommonKeyIs(vs, ENTITY_ID_KEYS, k);
    ModeOfCanon(vs, None);
  }

  /** And the ids of entities, under the first listed property that identifies them all; those
    * with one id are in the order of their texts. */
  lemma EntitiesAscend(vs: seq<Json>, k: nat, i: nat, j: nat)
    requires i < j < |vs| && k < |ENTITY_ID_KEYS| && Valid(Arr(vs))
    requires AllHave(vs, ENTITY_ID_KEYS[k]) && forall l | 0 <= l < k :: !AllHave(vs, ENTITY_ID_KEYS[l])
    ensures var canonical := Canon(Arr(vs), None).items;
            && |canonical| == |vs|
            && var a, b := EntityId(canonical[i], ENTITY_ID_KEYS[k]), EntityId(canonical[j], ENTITY_ID_KEYS[k]);
            if a == b then Precedes(Print(canonical[i]), Print(canonical[j])) else Precedes(a, b)
  {
    var canonical := Canon(Arr(vs), None).items;
    var idKey := ENTITY_ID_KEYS[k];
    EntitiesAreSorted(vs, k);
    CanonItemsAt(vs);
    SortIsSorted(CanonItems(vs), EntityOrder(idKey));
    SameMembers(canonical, CanonItems(vs));
    TextOrderMeans(Print(canonical[i]), Print(canonical[j]));
    TextOrderMeans(EntityId(canonical[i], idKey), EntityId(canonical[j], idKey));
  }

  lemma {:induction false} InsertFirst<T>(xs: seq<T>, key: T -> SortKey)
    requires Sorted(xs, key)
    ensures Sort(xs, key) == xs
    decreases |xs|
  {
    if xs != [] {
      TailIsSorted(xs, key);
      InsertFirst(xs[1..], key);
      assert xs == [xs[0]] + xs[1..];
    }
  }

  lemma ArrangeTwice(values: seq<Json>, parentKey: Option<Text>)
    ensures Arrange(Arrange(values, parentKey), parentKey) == Arrange(values, parentKey)
  {
    ArrangePermutes(values, parentKey);
    ModeOfPermuted(Arrange(values, parentKey), values, parentKey);
    match ModeOf(values, parentKey)
    case InOrder =>
    case Strings =>
      SortIsSorted(values, TextOf);
      InsertFirst(Sort(values, TextOf), TextOf);
    case Entities(idKey) =>
      SortIsSorted(values, EntityOrder(idKey));
      InsertFirst(Sort(values, EntityOrder(idKey)), EntityOrder(idKey));
  }

  lemma FixedArray(values: seq<Json>, parentKey: Option<Text>)
    requires forall v | v in values :: Canon(v, None) == v
    ensures var arr := Arr(Arrange(values, parentKey)); Canon(arr, parentKey) == arr
  {
    var arranged := Arrange(values, parentKey);
    ArrangePermutes(values, parentKey);
    SameMembers(arranged, values);
    CanonItemsAt(arranged);
    assert CanonItems(arranged) == arranged;
    ArrangeTwice(values, parentKey);
  }

  lemma FixedObject(fields: seq<Field>, parentKey: Option<Text>)
    requires forall f | f in fields :: Canon(f.value, Some(f.key)) == f.value
    ensures var obj := Obj(Sort(fields, FieldKey)); Canon(obj, parentKey) == obj
  {
    var sorted := Sort(fields, FieldKey);
    SortIsSorted(fields, FieldKey);
    SameMembers(sorted, fields);
    CanonFieldsAt(sorted);
    assert CanonFields(sorted) == sorted;
    InsertFirst(sorted, FieldKey);
  }

  /** canonicalValue is idempotent. */
  lemma {:induction false} CanonTwice(v: Json, parentKey: Option<Text>)
    ensures Canon(Canon(v, parentKey), parentKey) == Canon(v, parentKey)
    decreases v
  {
    match v
    case Arr(items) =>
      CanonItemsAt(items);
      forall i | 0 <= i < |items| { CanonTwice(items[i], None); }
      FixedArray(CanonItems(items), parentKey);
    case Obj(fields) =>
      CanonFieldsAt(fields);
      var canonical := CanonFields(fields);
      forall i | 0 <= i < |fields| ensures Canon(canonical[i].value, Some(canonical[i].key)) == canonical[i].value {
        CanonTwice(fields[i].value, Some(fields[i].key));
      }
      FixedObject(canonical, parentKey);
    case _ =>
  }
}
