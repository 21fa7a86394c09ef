/**
 * Conversion between JSON values and PHP values. How a string key is read as an array index, how an
 * index is shown, and how an integer is rounded to a double belong to libraries, and are inputs.
 */
module Zvals {

  import opened Wrappers
  import opened Json

  datatype Double = Finite(r: real) | NotFinite

  datatype Key = Index(i: int) | Name(s: string)

  datatype Entry = Entry(key: Key, value: Zval)

  /** A PHP array is an ordered table; it has at most one entry for a key. */
  datatype Zval =
    | ZNull
    | ZBool(b: bool)
    | ZLong(i: int)
    | ZDouble(d: Double)
    | ZString(s: string)
    | ZArray(entries: seq<Entry>)

  datatype Codec = Codec(index: string -> Option<int>, show: int -> string, round: int -> real)

  const I64_MIN: int := 0 - 0x8000_0000_0000_0000
  const I64_MAX: int := 0x7fff_ffff_ffff_ffff
  const U64_MAX: int := 0xffff_ffff_ffff_ffff

  predicate FitsI64(i: int) {
    I64_MIN <= i <= I64_MAX
  }

  /** An index has 64 bits, and one that is shown is read back as that index. */
  ghost predicate Law(c: Codec) {
    && (forall s :: c.index(s).Some? ==> FitsI64(c.index(s).value))
    && (forall i | FitsI64(i) :: c.index(c.show(i)) == Some(i))
  }

  /** An index written as that many strokes, or dashes when negative. */
  function ShowStrokes(i: int): string {
    if i >= 0 then seq(i, _ => '1') else seq(0 - i, _ => '-')
  }

  function ReadStrokes(s: string): Option<int> {
    var i := if s != [] && s[0] == '-' then 0 - |s| else |s|;
    if (s == [] || s[0] == '1' || s[0] == '-') && FitsI64(i) then Some(i) else None
  }

  /** The law can be met, by a codec to which some keys are indices and some are not. */
  lemma SomeCodecIsLawful() returns (c: Codec)
    ensures Law(c) && c.index("1").Some? && c.index("key").None?
  {
    c := Codec(ReadStrokes, ShowStrokes, i => i as real);
    forall i | FitsI64(i) ensures c.index(c.show(i)) == Some(i) {
      var s := ShowStrokes(i);
      assert i > 0 ==> s[0] == '1';
      assert i < 0 ==> s[0] == '-';
    }
    assert "1"[0] == '1' && "key"[0] == 'k';
  }

  // ---- Tables and maps ----

  function NextIndex(entries: seq<Entry>): int {
    if entries == [] then 0
    else
      var before, key := NextIndex(entries[..|entries| - 1]), entries[|entries| - 1].key;
      if key.Index? && key.i + 1 > before then key.i + 1 else before
  }

  function Push(entries: seq<Entry>, value: Zval): seq<Entry> {
    entries + [Entry(Index(NextIndex(entries)), value)]
  }

  /** Inserting replaces the value of a key that is there, and appends one that is not. */
  function Insert(entries: seq<Entry>, key: Key, value: Zval): seq<Entry> {
    if entries == [] then [Entry(key, value)]
    else if entries[0].key == key then [Entry(key, value)] + entries[1..]
    else [entries[0]] + Insert(entries[1..], key, value)
  }

  function KeyOf(c: Codec, key: string): Key {
    match c.index(key)
    case Some(i) => Index(i)
    case None => Name(key)
  }

  function NameOf(c: Codec, key: Key): string {
    match key
    case Index(i) => c.show(i)
    case Name(s) => s
  }

  // ---- The two conversions ----

  function ToZval(c: Codec, v: Value): Zval
    decreases v, 1
  {
    match v
    case Null => ZNull
    case Bool(b) => ZBool(b)
    case Num(Int(i)) => if FitsI64(i) then ZLong(i) else ZDouble(Finite(c.round(i)))
    case Num(Float(f)) => ZDouble(Finite(f))
    case Str(s) => ZString(s)
    case Array(items) => ZArray(ListTable(c, items))
    case Object(fields) => ZArray(FieldTable(c, fields))
  }

  function ListTable(c: Codec, items: seq<Value>): seq<Entry>
    decreases items, 0
  {
    if items == [] then []
    else Push(ListTable(c, items[..|items| - 1]), ToZval(c, items[|items| - 1]))
  }

  function FieldTable(c: Codec, fields: seq<Field>): seq<Entry>
    decreases fields, 0
  {
    if fields == [] then []
    else
      var last := fields[|fields| - 1];
      Insert(FieldTable(c, fields[..|fields| - 1]), KeyOf(c, last.key), ToZval(c, last.value))
  }

  predicate HasName(entries: seq<Entry>) {
    exists i | 0 <= i < |entries| :: entries[i].key.Name?
  }

  function ToValue(c: Codec, z: Zval): Value
    decreases z, 1
  {
    match z
    case ZNull => Null
    case ZBool(b) => Bool(b)
    case ZLong(i) => Num(Int(i))
    case ZDouble(Finite(r)) => Num(Float(r))
    case ZDouble(NotFinite) => Null
    case ZString(s) => Str(s)
    case ZArray(entries) => if HasName(entries) then Object(Fields(c, entries)) else Array(Items(c, entries))
  }

  function Fields(c: Codec, entries: seq<Entry>): seq<Field>
    decreases entries, 0
  {
    if entries == [] then []
    else
      var last := entries[|entries| - 1];
      assert last.value < last;
      InsertField(Fields(c, entries[..|entries| - 1]), NameOf(c, last.key), ToValue(c, last.value))
  }

  function Items(c: Codec, entries: seq<Entry>): seq<Value>
    decreases entries, 0
  {
    if entries == [] then []
    else
      var last := entries[|entries| - 1];
      assert last.value < last;
      Items(c, entries[..|entries| - 1]) + [ToValue(c, last.value)]
  }

  function Trip(c: Codec, v: Value): Value {
    ToValue(c, ToZval(c, v))
  }

  // ---- The conversions as they are carried out ----

  method ValueToZval(c: Codec, v: Value) returns (z: Zval)
    ensures z == ToZval(c, v)
    decreases v
  {
    match v {
      case Null => z := ZNull;
      case Bool(b) => z := ZBool(b);
      case Num(Int(i)) => z := if FitsI64(i) then ZLong(i) else ZDouble(Finite(c.round(i)));
      case Num(Float(f)) => z := ZDouble(Finite(f));
      case Str(s) => z := ZString(s);
      case Array(items) =>
        var ht: seq<Entry> := [];
        for i := 0 to |items|
          invariant ht == ListTable(c, items[..i])
        {
          assert items[..i + 1][..i] == items[..i];
          var item := ValueToZval(c, items[i]);
          ht := Push(ht, item);
        }
        assert items[..|items|] == items;
        z := ZArray(ht);
      case Object(fields) =>
        var ht: seq<Entry> := [];
        for i := 0 to |fields|
          invariant ht == FieldTable(c, fields[..i])
        {
          assert fields[..i + 1][..i] == fields[..i];
          var val := ValueToZval(c, fields[i].value);
          ht := Insert(ht, KeyOf(c, fields[i].key), val);
        }
        assert fields[..|fields|] == fields;
        z := ZArray(ht);
    }
  }

  method ZvalToValue(c: Codec, z: Zval) returns (v: Value)
    ensures v == ToValue(c, z)
    decreases z
  {
    match z {
      case ZNull => v := Null;
      case ZBool(b) => v := Bool(b);
      case ZLong(i) => v := Num(Int(i));
      case ZDouble(d) => v := if d.Finite? then Num(Float(d.r)) else Null;
      case ZString(s) => v := Str(s);
      case ZArray(entries) =>
        if HasName(entries) {
          var fields: seq<Field> := [];
          for i := 0 to |entries|
            invariant fields == Fields(c, entries[..i])
          {
            assert entries[..i + 1][..i] == entries[..i];
            var val := ZvalToValue(c, entries[i].value);
            fields := InsertField(fields, NameOf(c, entries[i].key), val);
          }
          assert entries[..|entries|] == entries;
          v := Object(fields);
        } else {
          var arr: seq<Value> := [];
          for i := 0 to |entries|
            invariant arr == Items(c, entries[..i])
          {
            assert entries[..i + 1][..i] == entries[..i];
            var val := ZvalToValue(c, entries[i].value);
            arr := arr + [val];
          }
          assert entries[..|entries|] == entries;
          v := Array(arr);
        }
    }
  }

  // ---- What a JSON value is, and which ones survive the trip ----

  /** Integers are 64 bits wide, signed or unsigned, and an object has its fields sorted by key. */
  predicate IsJson(v: Value) {
    match v
    case Num(Int(i)) => I64_MIN <= i <= U64_MAX
    case Array(items) => forall i | 0 <= i < |items| :: IsJson(items[i])
    case Object(fields) => Sorted(fields) && forall i | 0 <= i < |fields| :: IsJson(fields[i].value)
    case _ => true
  }

  /** A key is read as no index, or as an index that is shown as that key. */
  predicate Canonical(c: Codec, key: string) {
    match c.index(key)
    case Some(i) => c.show(i) == key
    case None => true
  }

  predicate Survives(c: Codec, v: Value) {
    match v
    case Num(Int(i)) => FitsI64(i)
    case Array(items) => forall i | 0 <= i < |items| :: Survives(c, items[i])
    case Object(fields) =>
      && (exists i | 0 <= i < |fields| :: c.index(fields[i].key).None?)
      && (forall i | 0 <= i < |fields| :: Canonical(c, fields[i].key))
      && (forall i | 0 <= i < |fields| :: Survives(c, fields[i].value))
    case _ => true
  }

  lemma PushShape(entries: seq<Entry>, value: Zval)
    requires NextIndex(entries) == |entries|
    ensures Push(entries, value) == entries + [Entry(Index(|entries|), value)]
    ensures NextIndex(Push(entries, value)) == |entries| + 1
  {
    assert Push(entries, value)[..|entries|] == entries;
  }

  lemma {:induction false} ListTableShape(c: Codec, items: seq<Value>)
    ensures var t := ListTable(c, items);
            && |t| == |items| && NextIndex(t) == |items|
            && forall i | 0 <= i < |items| :: t[i] == Entry(Index(i), ToZval(c, items[i]))
  {
    hide NextIndex, Push, ToZval;
    if items == [] {
      assert NextIndex([]) == 0 by {
        NoIndex();
      }
    } else {
      var init, last := items[..|items| - 1], items[|items| - 1];
      ListTableShape(c, init);
      PushShape(ListTable(c, init), ToZval(c, last));
      assert forall i | 0 <= i < |init| :: items[i] == init[i];
    }
  }

  lemma NoIndex()
    ensures NextIndex([]) == 0
  {
  }

  lemma {:induction false} ItemsShape(c: Codec, entries: seq<Entry>)
    ensures |Items(c, entries)| == |entries|
    ensures forall i | 0 <= i < |entries| :: Items(c, entries)[i] == ToValue(c, entries[i].value)
  {
    if entries != [] {
      ItemsShape(c, entries[..|entries| - 1]);
    }
  }

  lemma {:induction false} InsertNew(entries: seq<Entry>, key: Key, value: Zval)
    requires forall i | 0 <= i < |entries| :: entries[i].key != key
    ensures Insert(entries, key, value) == entries + [Entry(key, value)]
  {
    if entries != [] {
      InsertNew(entries[1..], key, value);
    }
  }

  lemma SameKeySameString(c: Codec, a: string, b: string)
    requires Canonical(c, a) && Canonical(c, b) && KeyOf(c, a) == KeyOf(c, b)
    ensures a == b
  {
  }

  /** With canonical keys the table has one entry for each field, in order. */
  lemma {:induction false} FieldTableShape(c: Codec, fields: seq<Field>)
    requires Sorted(fields) && forall i | 0 <= i < |fields| :: Canonical(c, fields[i].key)
    ensures var t := FieldTable(c, fields);
            && |t| == |fields|
            && forall i | 0 <= i < |fields| :: t[i] == Entry(KeyOf(c, fields[i].key), ToZval(c, fields[i].value))
  {
    if fields != [] {
      var init, last := fields[..|fields| - 1], fields[|fields| - 1];
      FieldTableShape(c, init);
      forall i | 0 <= i < |init| ensures KeyOf(c, init[i].key) != KeyOf(c, last.key) {
        assert Precedes(init[i].key, fields[|init|].key);
        OneWay(init[i].key, last.key);
        if KeyOf(c, init[i].key) == KeyOf(c, last.key) {
          SameKeySameString(c, init[i].key, last.key);
        }
      }
      InsertNew(FieldTable(c, init), KeyOf(c, last.key), ToZval(c, last.value));
    }
  }

  lemma {:induction false} FieldsShape(c: Codec, entries: seq<Entry>)
    requires forall i, j | 0 <= i < j < |entries| :: Precedes(NameOf(c, entries[i].key), NameOf(c, entries[j].key))
    ensures var f := Fields(c, entries);
            && |f| == |entries|
            && forall i | 0 <= i < |entries| :: f[i] == Field(NameOf(c, entries[i].key), ToValue(c, entries[i].value))
  {
    if entries != [] {
      var init, last := entries[..|entries| - 1], entries[|entries| - 1];
      FieldsShape(c, init);
      InsertLast(Fields(c, init), NameOf(c, last.key), ToValue(c, last.value));
    }
  }

  lemma ArrayTrips(c: Codec, items: seq<Value>)
    ensures Trip(c, Array(items)) == Array(seq(|items|, i requires 0 <= i < |items| => Trip(c, items[i])))
  {
    hide ListTable, Items;
    var t := ListTable(c, items);
    ListTableShape(c, items);
    ItemsShape(c, t);
    assert !HasName(t);
    assert Items(c, t) == seq(|items|, i requires 0 <= i < |items| => Trip(c, items[i]));
  }

  lemma ObjectTrips(c: Codec, fields: seq<Field>)
    requires Sorted(fields) && forall i | 0 <= i < |fields| :: Canonical(c, fields[i].key)
    requires exists i | 0 <= i < |fields| :: c.index(fields[i].key).None?
    ensures Trip(c, Object(fields))
            == Object(seq(|fields|, i requires 0 <= i < |fields| => Field(fields[i].key, Trip(c, fields[i].value))))
  {
    hide FieldTable, Fields, Survives;
    var t := FieldTable(c, fields);
    FieldTableShape(c, fields);
    var n :| 0 <= n < |fields| && c.index(fields[n].key).None?;
    assert t[n].key.Name?;
    assert forall i | 0 <= i < |t| :: NameOf(c, t[i].key) == fields[i].key;
    FieldsShape(c, t);
    assert Fields(c, t) == seq(|fields|, i requires 0 <= i < |fields| => Field(fields[i].key, Trip(c, fields[i].value)));
  }

  // ---- What an object becomes, whatever its keys ----

  lemma {:induction false} InsertEntries(entries: seq<Entry>, key: Key, value: Zval)
    ensures forall e | e in Insert(entries, key, value) :: e == Entry(key, value) || e in entries
  {
    if entries != [] && entries[0].key != key {
      InsertEntries(entries[1..], key, value);
    }
  }

  lemma {:induction false} TableEntries(c: Codec, fields: seq<Field>)
    ensures forall e | e in FieldTable(c, fields) ::
              exists f | f in fields :: e == Entry(KeyOf(c, f.key), ToZval(c, f.value))
  {
    hide KeyOf, ToZval;
    if fields != [] {
      var init, last := fields[..|fields| - 1], fields[|fields| - 1];
      TableEntries(c, init);
      InsertEntries(FieldTable(c, init), KeyOf(c, last.key), ToZval(c, last.value));
      assert last in fields;
      forall e | e in FieldTable(c, fields)
        ensures exists f | f in fields :: e == Entry(KeyOf(c, f.key), ToZval(c, f.value))
      {
        if e in FieldTable(c, init) {
          var f :| f in init && e == Entry(KeyOf(c, f.key), ToZval(c, f.value));
          assert f in fields;
        }
      }
    }
  }

  /** The fields of the object are sorted and come from the entries of the table. */
  lemma {:induction false} FieldsEntries(c: Codec, entries: seq<Entry>)
    ensures Sorted(Fields(c, entries))
    ensures forall f | f in Fields(c, entries) ::
              exists e | e in entries :: f == Field(NameOf(c, e.key), ToValue(c, e.value))
  {
    hide NameOf, ToValue, InsertField, Sorted;
    if entries == [] {
      NoFields();
    } else {
      var init, last := entries[..|entries| - 1], entries[|entries| - 1];
      var name, value := NameOf(c, last.key), ToValue(c, last.value);
      FieldsEntries(c, init);
      InsertKeeps(Fields(c, init), name, value);
      assert last in entries;
      forall f | f in Fields(c, entries)
        ensures exists e | e in entries :: f == Field(NameOf(c, e.key), ToValue(c, e.value))
      {
        if f != Field(name, value) {
          var e :| e in init && f == Field(NameOf(c, e.key), ToValue(c, e.value));
          assert e in entries;
        }
      }
    }
  }

  /** Every name in the table is the key of some field. */
  lemma {:induction false} NameStays(c: Codec, entries: seq<Entry>, n: nat) returns (f: Field)
    requires n < |entries|
    ensures f in Fields(c, entries) && f.key == NameOf(c, entries[n].key)
  {
    hide NameOf, ToValue, InsertField, Sorted;
    var init, last := entries[..|entries| - 1], entries[|entries| - 1];
    f := Field(NameOf(c, last.key), ToValue(c, last.value));
    FieldsEntries(c, init);
    InsertKeeps(Fields(c, init), f.key, f.value);
    if n < |init| && NameOf(c, init[n].key) != f.key {
      f := NameStays(c, init, n);
    }
  }

  lemma NoFields()
    ensures Sorted([])
  {
  }

  /** A key that is not canonical is gone from whatever its object becomes. */
  lemma LostKey(c: Codec, fields: seq<Field>, n: nat)
    requires Law(c) && n < |fields| && !Canonical(c, fields[n].key)
    ensures Trip(c, Object(fields)) != Object(fields)
  {
    hide Fields, FieldTable;
    var t, key := FieldTable(c, fields), fields[n].key;
    if HasName(t) {
      FieldsEntries(c, t);
      TableEntries(c, fields);
      forall f | f in Fields(c, t) ensures f.key != key {
        var e :| e in t && f == Field(NameOf(c, e.key), ToValue(c, e.value));
        var g :| g in fields && e == Entry(KeyOf(c, g.key), ToZval(c, g.value));
        assert e.key.Index? ==> FitsI64(e.key.i) && c.index(c.show(e.key.i)) == Some(e.key.i);
      }
      assert fields[n] in fields;
    }
  }

  lemma NoNamesNoObject(c: Codec, fields: seq<Field>)
    requires forall i | 0 <= i < |fields| :: c.index(fields[i].key).Some?
    ensures Trip(c, Object(fields)).Array?
  {
    hide FieldTable, Fields, Items;
    var t := FieldTable(c, fields);
    TableEntries(c, fields);
    forall i | 0 <= i < |t| ensures t[i].key.Index? {
      assert t[i] in t;
      var f :| f in fields && t[i] == Entry(KeyOf(c, f.key), ToZval(c, f.value));
    }
  }

  // ---- What each conversion makes, said without it ----

  /** How PHP keys an entry that was inserted under a string. */
  predicate Spells(c: Codec, key: string, k: Key) {
    match k
    case Index(i) => c.index(key) == Some(i)
    case Name(s) => c.index(key) == None && s == key
  }

  /** The last field written to key `k`. */
  function LastWriter(c: Codec, fields: seq<Field>, k: Key): (j: Option<nat>)
    ensures j.Some? ==> j.value < |fields|
  {
    if fields == [] then None
    else if Spells(c, fields[|fields| - 1].key, k) then Some(|fields| - 1)
    else LastWriter(c, fields[..|fields| - 1], k)
  }

  function ValueAt(entries: seq<Entry>, k: Key): Option<Zval> {
    if entries == [] then None
    else if entries[0].key == k then Some(entries[0].value)
    else ValueAt(entries[1..], k)
  }

  predicate KeysApart(entries: seq<Entry>) {
    entries != [] ==> ValueAt(entries[1..], entries[0].key).None? && KeysApart(entries[1..])
  }

  /**
   * The PHP value that stands for a JSON value. A table has one entry for each key its fields spell,
   * with the last field written to it, and no other entries.
   */
  ghost predicate StandsFor(c: Codec, z: Zval, v: Value)
    decreases v
  {
    match v
    case Null => z == ZNull
    case Bool(b) => z == ZBool(b)
    case Num(Int(i)) =>
      z == if -0x8000_0000_0000_0000 <= i <= 0x7fff_ffff_ffff_ffff then ZLong(i) else ZDouble(Finite(c.round(i)))
    case Num(Float(f)) => z == ZDouble(Finite(f))
    case Str(s) => z == ZString(s)
    case Array(items) =>
      && z.ZArray? && |z.entries| == |items|
      && forall i | 0 <= i < |items| :: z.entries[i].key == Index(i) && StandsFor(c, z.entries[i].value, items[i])
    case Object(fields) =>
      && z.ZArray? && KeysApart(z.entries)
      && forall k ::
           match LastWriter(c, fields, k)
           case None => ValueAt(z.entries, k) == None
           case Some(j) => ValueAt(z.entries, k).Some? && StandsFor(c, ValueAt(z.entries, k).value, fields[j].value)
  }

  lemma {:induction false} InsertSets(entries: seq<Entry>, key: Key, value: Zval, k: Key)
    ensures ValueAt(Insert(entries, key, value), k) == if k == key then Some(value) else ValueAt(entries, k)
  {
    if entries != [] && entries[0].key != key {
      InsertSets(entries[1..], key, value, k);
    }
  }

  lemma {:induction false} InsertKeepsApart(entries: seq<Entry>, key: Key, value: Zval)
    requires KeysApart(entries)
    ensures KeysApart(Insert(entries, key, value))
  {
    if entries != [] && entries[0].key != key {
      InsertKeepsApart(entries[1..], key, value);
      InsertSets(entries[1..], key, value, entries[0].key);
    }
  }

  lemma {:induction false} TableIsApart(c: Codec, fields: seq<Field>)
    ensures KeysApart(FieldTable(c, fields))
  {
    if fields != [] {
      var init, last := fields[..|fields| - 1], fields[|fields| - 1];
      TableIsApart(c, init);
      InsertKeepsApart(FieldTable(c, init), KeyOf(c, last.key), ToZval(c, last.value));
    }
  }

  lemma {:induction false} TableHoldsLast(c: Codec, fields: seq<Field>, k: Key)
    ensures ValueAt(FieldTable(c, fields), k)
            == match LastWriter(c, fields, k) case None => None case Some(j) => Some(ToZval(c, fields[j].value))
  {
    hide ToZval, Insert, ValueAt;
    if fields == [] {
      NothingAt(k);
    } else {
      var init, last := fields[..|fields| - 1], fields[|fields| - 1];
      TableHoldsLast(c, init, k);
      InsertSets(FieldTable(c, init), KeyOf(c, last.key), ToZval(c, last.value), k);
      assert Spells(c, last.key, k) <==> k == KeyOf(c, last.key);
    }
  }

  lemma NothingAt(k: Key)
    ensures ValueAt([], k) == None
  {
  }

  /** The value PHP receives stands for the JSON value it was sent, whatever its keys. */
  lemma {:induction false} ToZvalStands(c: Codec, v: Value)
    ensures StandsFor(c, ToZval(c, v), v)
    decreases v
  {
    hide ListTable, FieldTable, KeysApart, ValueAt, LastWriter;
    match v
    case Array(items) =>
      ListTableShape(c, items);
      forall i | 0 <= i < |items| ensures StandsFor(c, ToZval(c, items[i]), items[i]) {
        ToZvalStands(c, items[i]);
      }
    case Object(fields) =>
      TableIsApart(c, fields);
      forall k
        ensures match LastWriter(c, fields, k)
                case None => ValueAt(FieldTable(c, fields), k) == None
                case Some(j) => ValueAt(FieldTable(c, fields), k).Some?
                                && StandsFor(c, ValueAt(FieldTable(c, fields), k).value, fields[j].value)
      {
        TableHoldsLast(c, fields, k);
        var j := LastWriter(c, fields, k);
        if j.Some? {
          ToZvalStands(c, fields[j.value].value);
        }
      }
    case _ =>
  }

  // ---- And back ----

  predicate Named(c: Codec, k: Key, name: string) {
    match k
    case Index(i) => name == c.show(i)
    case Name(s) => name == s
  }

  /** The last entry whose key becomes `name`. */
  function LastNamed(c: Codec, entries: seq<Entry>, name: string): (x: Option<nat>)
    ensures x.Some? ==> x.value < |entries|
  {
    if entries == [] then None
    else if Named(c, entries[|entries| - 1].key, name) then Some(|entries| - 1)
    else LastNamed(c, entries[..|entries| - 1], name)
  }

  /**
   * The JSON value a PHP value is read as. A table with any string key is an object, in which the
   * last entry with a name counts; any other table, whatever its indices, is a list in table order. A
   * double that is not finite is null.
   */
  ghost predicate ReadAs(c: Codec, v: Value, z: Zval)
    decreases z
  {
    match z
    case ZNull => v == Null
    case ZBool(b) => v == Bool(b)
    case ZLong(i) => v == Num(Int(i))
    case ZDouble(Finite(r)) => v == Num(Float(r))
    case ZDouble(NotFinite) => v == Null
    case ZString(s) => v == Str(s)
    case ZArray(entries) =>
      if exists x | 0 <= x < |entries| :: entries[x].key.Name? then
        && v.Object? && Sorted(v.fields)
        && forall name ::
             match LastNamed(c, entries, name)
             case None => Lookup(v.fields, name) == None
             case Some(x) =>
               Lookup(v.fields, name).Some? && ReadAs(c, Lookup(v.fields, name).value, ValueOf(entries, x))
      else
        && v.Array? && |v.items| == |entries|
        && forall x | 0 <= x < |entries| :: ReadAs(c, v.items[x], ValueOf(entries, x))
  }

  function ValueOf(entries: seq<Entry>, x: nat): (z: Zval)
    requires x < |entries|
    ensures z < ZArray(entries)
  {
    assert entries[x].value < entries[x] && entries[x] < ZArray(entries);
    entries[x].value
  }

  lemma {:induction false} InsertFieldSets(fields: seq<Field>, key: string, value: Value, name: string)
    ensures Lookup(InsertField(fields, key, value), name) == if name == key then Some(value) else Lookup(fields, name)
  {
    if fields != [] && fields[0].key != key && !Precedes(key, fields[0].key) {
      InsertFieldSets(fields[1..], key, value, name);
    }
  }

  lemma {:induction false} FieldsCarryLast(c: Codec, entries: seq<Entry>, name: string)
    ensures Lookup(Fields(c, entries), name)
            == match LastNamed(c, entries, name) case None => None case Some(x) => Some(ToValue(c, entries[x].value))
  {
    hide ToValue, InsertField, Lookup;
    if entries == [] {
      NothingUnder(name);
    } else {
      var init, last := entries[..|entries| - 1], entries[|entries| - 1];
      FieldsCarryLast(c, init, name);
      InsertFieldSets(Fields(c, init), NameOf(c, last.key), ToValue(c, last.value), name);
      assert Named(c, last.key, name) <==> name == NameOf(c, last.key);
    }
  }

  lemma NothingUnder(name: string)
    ensures Lookup([], name) == None
  {
  }

  /** The value a PHP handler returns is read as the JSON value it stands for, whatever the table. */
  lemma {:induction false} ToValueReads(c: Codec, z: Zval)
    ensures ReadAs(c, ToValue(c, z), z)
    decreases z
  {
    hide Fields, Items, Sorted, Lookup, LastNamed;
    match z
    case ZArray(entries) =>
      if HasName(entries) {
        FieldsEntries(c, entries);
        forall name
          ensures match LastNamed(c, entries, name)
                  case None => Lookup(Fields(c, entries), name) == None
                  case Some(x) => Lookup(Fields(c, entries), name).Some?
                                  && ReadAs(c, Lookup(Fields(c, entries), name).value, ValueOf(entries, x))
        {
          FieldsCarryLast(c, entries, name);
          var x := LastNamed(c, entries, name);
          if x.Some? {
            ToValueReads(c, ValueOf(entries, x.value));
          }
        }
      } else {
        ItemsShape(c, entries);
        forall x | 0 <= x < |entries| ensures ReadAs(c, ToValue(c, entries[x].value), ValueOf(entries, x)) {
          ToValueReads(c, ValueOf(entries, x));
        }
      }
    case _ =>
  }

  // ---- The trip there and back ----

  /** Whatever a codec does, a value that survives comes back unchanged. */
  lemma {:induction false} SurvivorsReturn(c: Codec, v: Value)
    requires IsJson(v) && Survives(c, v)
    ensures Trip(c, v) == v
    decreases v
  {
    match v
    case Array(items) =>
      ArrayTrips(c, items);
      forall i | 0 <= i < |items| ensures Trip(c, items[i]) == items[i] {
        SurvivorsReturn(c, items[i]);
      }
      assert Trip(c, v).items == items;
    case Object(fields) =>
      ObjectTrips(c, fields);
      forall i | 0 <= i < |fields| ensures Trip(c, fields[i].value) == fields[i].value {
        SurvivorsReturn(c, fields[i].value);
      }
      assert Trip(c, v).fields == fields;
    case _ =>
  }

  lemma {:induction false} OthersChange(c: Codec, v: Value)
    requires Law(c) && IsJson(v) && !Survives(c, v)
    ensures Trip(c, v) != v
    decreases v
  {
    match v
    case Array(items) =>
      ArrayTrips(c, items);
      var i :| 0 <= i < |items| && !Survives(c, items[i]);
      OthersChange(c, items[i]);
      assert Trip(c, v).items[i] != items[i];
    case Object(fields) =>
      if i :| 0 <= i < |fields| && !Canonical(c, fields[i].key) {
        LostKey(c, fields, i);
      } else if forall i | 0 <= i < |fields| :: c.index(fields[i].key).Some? {
        NoNamesNoObject(c, fields);
      } else {
        ObjectTrips(c, fields);
        var i :| 0 <= i < |fields| && !Survives(c, fields[i].value);
        OthersChange(c, fields[i].value);
        assert Trip(c, v).fields[i] != fields[i];
      }
    case _ =>
  }

  /**
   * A JSON value comes back from PHP unchanged exactly when all its integers fit 64 signed bits and
   * every object in it has a key that is no index and only keys that are shown as they are read.
   */
  lemma TripIsIdentityIff(c: Codec, v: Value)
    requires Law(c) && IsJson(v)
    ensures Trip(c, v) == v <==> Survives(c, v)
  {
    if Survives(c, v) {
      SurvivorsReturn(c, v);
    } else {
      OthersChange(c, v);
    }
  }

  ghost predicate Settled(c: Codec, v: Value) {
    IsJson(v) && Survives(c, v)
  }

  lemma {:induction false} TripSettles(c: Codec, v: Value)
    requires Law(c)
    ensures Settled(c, Trip(c, v))
    decreases v
  {
    match v
    case Array(items) =>
      ArrayTrips(c, items);
      forall i | 0 <= i < |items| ensures Settled(c, Trip(c, items[i])) {
        TripSettles(c, items[i]);
      }
    case Object(fields) =>
      forall i | 0 <= i < |fields| ensures Settled(c, Trip(c, fields[i].value)) {
        TripSettles(c, fields[i].value);
      }
      ObjectSettles(c, fields);
    case _ =>
  }

  /** An entry as the first half of a trip makes it. */
  ghost predicate Arrives(c: Codec, e: Entry) {
    && (e.key.Index? ==> FitsI64(e.key.i))
    && (e.key.Name? ==> c.index(e.key.s).None?)
    && Settled(c, ToValue(c, e.value))
  }

  lemma ObjectSettles(c: Codec, fields: seq<Field>)
    requires Law(c) && forall i | 0 <= i < |fields| :: Settled(c, Trip(c, fields[i].value))
    ensures Settled(c, Trip(c, Object(fields)))
  {
    hide FieldTable, Settled;
    var t := FieldTable(c, fields);
    TableEntries(c, fields);
    forall e | e in t ensures Arrives(c, e) {
      var f :| f in fields && e == Entry(KeyOf(c, f.key), ToZval(c, f.value));
      assert Settled(c, Trip(c, f.value));
    }
    TableSettles(c, t);
  }

  lemma TableSettles(c: Codec, t: seq<Entry>)
    requires Law(c) && forall e | e in t :: Arrives(c, e)
    ensures Settled(c, ToValue(c, ZArray(t)))
  {
    hide Fields, Items;
    if HasName(t) {
      FieldsEntries(c, t);
      var fields := Fields(c, t);
      forall i | 0 <= i < |fields|
        ensures Canonical(c, fields[i].key) && Settled(c, fields[i].value)
      {
        assert fields[i] in fields;
        var e :| e in t && fields[i] == Field(NameOf(c, e.key), ToValue(c, e.value));
        assert Arrives(c, e);
      }
      var n :| 0 <= n < |t| && t[n].key.Name?;
      assert t[n] in t && Arrives(c, t[n]);
      var f := NameStays(c, t, n);
      assert c.index(f.key).None?;
    } else {
      ItemsShape(c, t);
      forall i | 0 <= i < |t| ensures Settled(c, Items(c, t)[i]) {
        assert t[i] in t && Arrives(c, t[i]);
      }
    }
  }

  /** A second trip changes nothing more, whatever the value. */
  lemma SecondTripChangesNothing(c: Codec, v: Value)
    requires Law(c)
    ensures Trip(c, Trip(c, v)) == Trip(c, v)
  {
    TripSettles(c, v);
    SurvivorsReturn(c, Trip(c, v));
  }

  // ---- Values without index-like keys ----

  predicate PlainKeys(c: Codec, v: Value) {
    match v
    case Array(items) => forall i | 0 <= i < |items| :: PlainKeys(c, items[i])
    case Object(fields) =>
      forall i | 0 <= i < |fields| :: c.index(fields[i].key).None? && PlainKeys(c, fields[i].value)
    case _ => true
  }

  /** Empty objects become empty arrays, and integers beyond 64 signed bits become doubles. */
  function Normal(c: Codec, v: Value): Value {
    match v
    case Num(Int(i)) => if FitsI64(i) then v else Num(Float(c.round(i)))
    case Array(items) => Array(seq(|items|, i requires 0 <= i < |items| => Normal(c, items[i])))
    case Object(fields) =>
      if fields == [] then Array([])
      else Object(seq(|fields|, i requires 0 <= i < |fields| => Field(fields[i].key, Normal(c, fields[i].value))))
    case _ => v
  }

  lemma {:induction false} TripNormalises(c: Codec, v: Value)
    requires IsJson(v) && PlainKeys(c, v)
    ensures Trip(c, v) == Normal(c, v)
    decreases v
  {
    match v
    case Array(items) =>
      ArrayTrips(c, items);
      forall i | 0 <= i < |items| ensures Trip(c, items[i]) == Normal(c, items[i]) {
        TripNormalises(c, items[i]);
      }
      assert Trip(c, v).items == Normal(c, v).items;
    case Object(fields) =>
      if fields == [] {
        NoNamesNoObject(c, fields);
        ItemsShape(c, FieldTable(c, fields));
      } else {
        assert c.index(fields[0].key).None?;
        ObjectTrips(c, fields);
        forall i | 0 <= i < |fields| ensures Trip(c, fields[i].value) == Normal(c, fields[i].value) {
          TripNormalises(c, fields[i].value);
        }
        assert Trip(c, v).fields == Normal(c, v).fields;
      }
    case _ =>
  }

  /** What is in normal form already stays as it is. */
  lemma {:induction false} NormalIsIdempotent(c: Codec, v: Value)
    ensures Normal(c, Normal(c, v)) == Normal(c, v)
    decreases v
  {
    match v
    case Array(items) =>
      forall i | 0 <= i < |items| ensures Normal(c, Normal(c, items[i])) == Normal(c, items[i]) {
        NormalIsIdempotent(c, items[i]);
      }
      assert Normal(c, Normal(c, v)).items == Normal(c, v).items;
    case Object(fields) =>
      forall i | 0 <= i < |fields| ensures Normal(c, Normal(c, fields[i].value)) == Normal(c, fields[i].value) {
        NormalIsIdempotent(c, fields[i].value);
      }
      if fields != [] {
        assert Normal(c, Normal(c, v)).fields == Normal(c, v).fields;
      }
    case _ =>
  }

}
