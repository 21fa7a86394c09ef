/** JSON values as `serde_json` presents them, and the worker error built from one. */
module Json {

  import opened Wrappers

  /** An integer in `i64::MIN ..= u64::MAX`, or a finite double. */
  datatype Number = Int(i: int) | Float(f: real)

  datatype Field = Field(key: string, value: Value)

  /** The fields of an object are sorted by key. */
  datatype Value =
    | Null
    | Bool(b: bool)
    | Num(n: Number)
    | Str(s: string)
    | Array(items: seq<Value>)
    | Object(fields: seq<Field>)

  // ---- Objects ----

  /** Keys are compared character by character, and a prefix comes first. */
  predicate Precedes(a: string, b: string) {
    b != [] && (a == [] || a[0] < b[0] || (a[0] == b[0] && Precedes(a[1..], b[1..])))
  }

  predicate Sorted(fields: seq<Field>) {
    forall i, j | 0 <= i < j < |fields| :: Precedes(fields[i].key, fields[j].key)
  }

  /** Inserting replaces the value of a key that is there, and keeps the fields sorted. */
  function InsertField(fields: seq<Field>, key: string, value: Value): seq<Field> {
    if fields == [] then [Field(key, value)]
    else if fields[0].key == key then [Field(key, value)] + fields[1..]
    else if Precedes(key, fields[0].key) then [Field(key, value)] + fields
    else [fields[0]] + InsertField(fields[1..], key, value)
  }

  lemma {:induction false} OneWay(a: string, b: string)
    ensures Precedes(a, b) ==> a != b && !Precedes(b, a)
    ensures Precedes(a, b) || Precedes(b, a) || a == b
  {
    if a != [] && b != [] {
      OneWay(a[1..], b[1..]);
      assert a == [a[0]] + a[1..] && b == [b[0]] + b[1..];
    }
  }

  lemma {:induction false} Transits(a: string, b: string, c: string)
    requires Precedes(a, b) && Precedes(b, c)
    ensures Precedes(a, c)
  {
    if a != [] && b[0] == a[0] && c[0] == a[0] {
      Transits(a[1..], b[1..], c[1..]);
    }
  }

  lemma {:induction false} InsertLast(fields: seq<Field>, key: string, value: Value)
    requires forall i | 0 <= i < |fields| :: Precedes(fields[i].key, key)
    ensures InsertField(fields, key, value) == fields + [Field(key, value)]
  {
    if fields != [] {
      OneWay(fields[0].key, key);
      InsertLast(fields[1..], key, value);
    }
  }

  /** What is in an object after an insertion: the new field, and the old ones with another key. */
  lemma {:induction false} InsertKeeps(fields: seq<Field>, key: string, value: Value)
    requires Sorted(fields)
    ensures var out := InsertField(fields, key, value);
            && Sorted(out)
            && (forall f :: f in out <==> f == Field(key, value) || (f in fields && f.key != key))
  {
    if fields != [] {
      var first, rest := fields[0], fields[1..];
      assert fields == [first] + rest;
      OneWay(first.key, key);
      InsertKeeps(rest, key, value);
      if first.key == key {
        InsertFirst(Field(key, value), rest);
      } else if Precedes(key, first.key) {
        forall f | f in rest ensures Precedes(key, f.key) {
          Transits(key, first.key, f.key);
        }
        InsertFirst(Field(key, value), fields);
      } else {
        InsertFirst(first, InsertField(rest, key, value));
      }
    }
  }

  lemma InsertFirst(first: Field, rest: seq<Field>)
    requires Sorted(rest) && forall f | f in rest :: Precedes(first.key, f.key)
    ensures Sorted([first] + rest)
    ensures forall f | f in rest :: f.key != first.key
  {
    forall f | f in rest ensures f.key != first.key {
      OneWay(first.key, f.key);
    }
  }

  /** Sorted fields are determined by which ones they are. */
  lemma {:induction false} SortedOneWay(a: seq<Field>, b: seq<Field>)
    requires Sorted(a) && Sorted(b) && forall f :: f in a <==> f in b
    ensures a == b
  {
    if a != [] {
      assert a[0] in b;
    }
    if b != [] {
      assert b[0] in a;
    }
    if a != [] && b != [] {
      OneWay(a[0].key, b[0].key);
      assert a[0] == b[0];
      FirstOnly(a);
      FirstOnly(b);
      forall f ensures f in a[1..] <==> f in b[1..] {
        assert f in a <==> f == a[0] || f in a[1..];
        assert f in b <==> f == b[0] || f in b[1..];
      }
      SortedOneWay(a[1..], b[1..]);
    }
  }

  lemma FirstOnly(fields: seq<Field>)
    requires Sorted(fields) && fields != []
    ensures fields[0] !in fields[1..]
  {
    if fields[0] in fields[1..] {
      OneWay(fields[0].key, fields[0].key);
    }
  }

  function Lookup(fields: seq<Field>, key: string): Option<Value> {
    if fields == [] then None
    else if fields[0].key == key then Some(fields[0].value)
    else Lookup(fields[1..], key)
  }

  /** `Value::get`: `None` for everything but an object holding the key. */
  function Get(v: Value, key: string): Option<Value> {
    if v.Object? then Lookup(v.fields, key) else None
  }

  function GetStr(v: Value, key: string): Option<string> {
    match Get(v, key)
    case Some(Str(s)) => Some(s)
    case _ => None
  }

  /** In sorted fields there is one value for a key, and looking it up finds it. */
  lemma {:induction false} LookupFinds(fields: seq<Field>, key: string)
    requires Sorted(fields)
    ensures forall v :: Field(key, v) in fields <==> Lookup(fields, key) == Some(v)
  {
    if fields != [] {
      var first, rest := fields[0], fields[1..];
      LookupFinds(rest, key);
      assert fields == [first] + rest;
      if first.key == key {
        forall f | f in rest ensures f.key != key {
          OneWay(key, f.key);
        }
      }
    }
  }

  datatype WorkerError = WorkerError(message: string, exceptionClass: Option<string>, stacktrace: Option<string>)

  function PlainError(message: string): WorkerError {
    WorkerError(message, None, None)
  }

  function WorkerErrorFromValue(v: Value): WorkerError {
    var message := GetStr(v, "__error");
    WorkerError(if message.Some? then message.value else "worker error",
                GetStr(v, "__error_class"), GetStr(v, "__error_trace"))
  }

}
