/** The dict/list/str values that the services pass around and persist as JSON,
    with the Python operations applied to them: dict.get, d[k] = v, truthiness,
    str() for f-strings, and the key sorting of json.dumps(..., sort_keys=True). */
module Json {
  import opened Wrappers
  import opened Text
  import opened StrOrder

  type Field = (string, Json)

  /** A JSON value. An object keeps its keys in insertion order, as a Python dict does.
      Floating-point numbers are not modelled. */
  datatype Json =
    | JNull
    | JBool(b: bool)
    | JInt(n: int)
    | JStr(s: string)
    | JArr(items: seq<Json>)
    | JObj(fields: seq<Field>)

  /** The value bound to key; on a repeated key the last binding wins, as in json.loads. */
  function Lookup(fields: seq<Field>, key: string): (r: Option<Json>)
    ensures r.Some? ==> (key, r.value) in fields
    ensures r.None? <==> forall i :: 0 <= i < |fields| ==> fields[i].0 != key
    decreases |fields|
  {
    if |fields| == 0 then None
    else if fields[|fields| - 1].0 == key then Some(fields[|fields| - 1].1)
    else
      var r := Lookup(fields[..|fields| - 1], key);
      assert forall i :: 0 <= i < |fields| - 1 ==> fields[..|fields| - 1][i] == fields[i];
      r
  }

  /** d.get(key) on a dict; a value that is not a dict has no keys here. */
  function Get(j: Json, key: string): Option<Json> {
    if j.JObj? then Lookup(j.fields, key) else None
  }

  /** d.get(key, default) */
  function GetOr(j: Json, key: string, default: Json): Json {
    Get(j, key).GetOr(default)
  }

  predicate HasKey(fields: seq<Field>, key: string) {
    exists i :: 0 <= i < |fields| && fields[i].0 == key
  }

  /** d[key] = value: an existing key keeps its position, a new key goes last. */
  function Put(fields: seq<Field>, key: string, value: Json): seq<Field> {
    if HasKey(fields, key) then
      seq(|fields|, i requires 0 <= i < |fields| =>
        if fields[i].0 == key then (key, value) else fields[i])
    else fields + [(key, value)]
  }

  /** After d[key] = value the key looks up the value and every other key looks up
      what it did before. */
  lemma PutMeaning(fields: seq<Field>, key: string, value: Json)
    ensures Lookup(Put(fields, key, value), key) == Some(value)
    ensures forall k :: k != key ==> Lookup(Put(fields, key, value), k) == Lookup(fields, k)
  {
    var r := Put(fields, key, value);
    if HasKey(fields, key) {
      PutLookup(fields, key, value, r);
    } else {
      assert r[..|r| - 1] == fields;
    }
  }

  lemma {:induction false} PutLookup(fields: seq<Field>, key: string, value: Json, r: seq<Field>)
    requires |r| == |fields|
    requires forall i :: 0 <= i < |fields| ==>
               r[i] == if fields[i].0 == key then (key, value) else fields[i]
    ensures HasKey(fields, key) ==> Lookup(r, key) == Some(value)
    ensures forall k :: k != key ==> Lookup(r, k) == Lookup(fields, k)
    decreases |fields|
  {
    if |fields| > 0 {
      var n := |fields| - 1;
      PutLookup(fields[..n], key, value, r[..n]);
      if HasKey(fields, key) && fields[n].0 != key {
        var i :| 0 <= i < |fields| && fields[i].0 == key;
        assert fields[..n][i].0 == key;
      }
    }
  }

  /** Python truthiness: None, False, 0, "", [] and {} are false. */
  predicate Truthy(j: Json) {
    match j
    case JNull => false
    case JBool(b) => b
    case JInt(n) => n != 0
    case JStr(s) => s != ""
    case JArr(items) => items != []
    case JObj(fields) => fields != []
  }

  /** repr() of a value (strings in single quotes; quote escaping is not modelled). */
  function Repr(j: Json): string
    decreases j, 1
  {
    match j
    case JStr(s) => "'" + s + "'"
    case JArr(items) => "[" + ReprItems(j, items) + "]"
    case JObj(fields) => "{" + ReprFields(j, fields) + "}"
    case _ => ScalarStr(j)
  }

  /** str() of None, a bool or an int. */
  function ScalarStr(j: Json): string {
    match j
    case JBool(b) => if b then "True" else "False"
    case JInt(n) => IntToString(n)
    case _ => "None"
  }

  function ReprItems(ghost parent: Json, items: seq<Json>): string
    requires forall i :: 0 <= i < |items| ==> items[i] < parent
    decreases parent, 0, |items|
  {
    if |items| == 0 then ""
    else if |items| == 1 then Repr(items[0])
    else Repr(items[0]) + ", " + ReprItems(parent, items[1..])
  }

  function ReprFields(ghost parent: Json, fields: seq<Field>): string
    requires forall i :: 0 <= i < |fields| ==> fields[i].1 < parent
    decreases parent, 0, |fields|
  {
    if |fields| == 0 then ""
    else
      var head := "'" + fields[0].0 + "': " + Repr(fields[0].1);
      if |fields| == 1 then head else head + ", " + ReprFields(parent, fields[1..])
  }

  /** str() of a value, as an f-string renders it. */
  function PyStr(j: Json): string {
    match j
    case JStr(s) => s
    case JArr(_) => Repr(j)
    case JObj(_) => Repr(j)
    case _ => ScalarStr(j)
  }

  /** ", ".join(value): defined for a list of strings, a string (its characters) and
      a dict (its keys); anything else raises TypeError, given here as None. */
  function JoinStrings(j: Json, sep: string): Option<string> {
    match j
    case JArr(items) =>
      if forall i :: 0 <= i < |items| ==> items[i].JStr? then
        Some(Join(seq(|items|, i requires 0 <= i < |items| => items[i].s), sep))
      else None
    case JStr(s) => Some(Join(seq(|s|, i requires 0 <= i < |s| => [s[i]]), sep))
    case JObj(fields) => Some(Join(seq(|fields|, i requires 0 <= i < |fields| => fields[i].0), sep))
    case _ => None
  }

  /** A list of strings as a JSON array. */
  function StrList(xs: seq<string>): (r: Json)
    ensures r.JArr? && |r.items| == |xs|
    ensures forall i :: 0 <= i < |xs| ==> r.items[i] == JStr(xs[i])
  {
    JArr(seq(|xs|, i requires 0 <= i < |xs| => JStr(xs[i])))
  }

  /** A list of strings always joins. */
  lemma StrListJoins(xs: seq<string>, sep: string)
    ensures JoinStrings(StrList(xs), sep).Some?
  {
  }

  // ---- json.dumps(..., sort_keys=True) ----

  predicate DistinctKeys(fields: seq<Field>) {
    forall i, j :: 0 <= i < j < |fields| ==> fields[i].0 != fields[j].0
  }

  predicate KeysAscending(fields: seq<Field>) {
    forall i, j :: 0 <= i < j < |fields| ==> Below(fields[i].0, fields[j].0)
  }

  function InsertField(f: Field, sorted: seq<Field>): (r: seq<Field>)
    ensures multiset(r) == multiset(sorted) + multiset{f}
    decreases |sorted|
  {
    if |sorted| == 0 then [f]
    else if Below(f.0, sorted[0].0) then [f] + sorted
    else
      assert sorted == [sorted[0]] + sorted[1..];
      [sorted[0]] + InsertField(f, sorted[1..])
  }

  lemma {:induction false} InsertAscending(f: Field, sorted: seq<Field>)
    requires KeysAscending(sorted)
    requires forall i :: 0 <= i < |sorted| ==> sorted[i].0 != f.0
    ensures KeysAscending(InsertField(f, sorted))
    decreases |sorted|
  {
    if |sorted| == 0 {
    } else if Below(f.0, sorted[0].0) {
      forall j | 0 < j < |sorted| ensures Below(f.0, sorted[j].0) {
        BelowTransitive(f.0, sorted[0].0, sorted[j].0);
      }
    } else {
      var tail := InsertField(f, sorted[1..]);
      InsertAscending(f, sorted[1..]);
      BelowTotal(f.0, sorted[0].0);
      forall j | 0 <= j < |tail| ensures Below(sorted[0].0, tail[j].0) {
        assert tail[j] in multiset(tail);
        if tail[j] != f {
          assert tail[j] in multiset(sorted[1..]);
          var k :| 0 <= k < |sorted[1..]| && sorted[1..][k] == tail[j];
          assert sorted[k + 1] == tail[j];
        }
      }
    }
  }

  /** The fields ordered by key, as sorted(d.items()) orders a dict's items. */
  function SortFields(fields: seq<Field>): (r: seq<Field>)
    ensures multiset(r) == multiset(fields)
    decreases |fields|
  {
    if |fields| == 0 then []
    else
      assert fields == [fields[0]] + fields[1..];
      InsertField(fields[0], SortFields(fields[1..]))
  }

  lemma {:induction false} SortFieldsAscending(fields: seq<Field>)
    requires DistinctKeys(fields)
    ensures KeysAscending(SortFields(fields))
    decreases |fields|
  {
    if |fields| > 0 {
      var rest := SortFields(fields[1..]);
      SortFieldsAscending(fields[1..]);
      assert fields == [fields[0]] + fields[1..];
      forall i | 0 <= i < |rest| ensures rest[i].0 != fields[0].0 {
        assert rest[i] in multiset(fields[1..]);
        var k :| 0 <= k < |fields[1..]| && fields[1..][k] == rest[i];
        assert fields[k + 1] == rest[i];
      }
      InsertAscending(fields[0], rest);
    }
  }

  /** Two key-ascending listings of the same fields are the same listing. */
  lemma {:induction false} AscendingFieldsUnique(a: seq<Field>, b: seq<Field>)
    requires KeysAscending(a) && KeysAscending(b)
    requires multiset(a) == multiset(b)
    ensures a == b
    decreases |a|
  {
    if |a| > 0 {
      assert a[0] in multiset(b);
    }
    if |b| > 0 {
      assert b[0] in multiset(a);
    }
    if |a| > 0 && |b| > 0 {
      AscendingHeadsEqual(a, b);
      TailMultiset(a);
      TailMultiset(b);
      AscendingFieldsUnique(a[1..], b[1..]);
      assert a == [a[0]] + a[1..] && b == [b[0]] + b[1..];
    }
  }

  lemma AscendingHeadsEqual(a: seq<Field>, b: seq<Field>)
    requires KeysAscending(a) && KeysAscending(b)
    requires multiset(a) == multiset(b)
    requires |a| > 0 && |b| > 0
    ensures a[0] == b[0]
  {
    assert a[0] in multiset(b) && b[0] in multiset(a);
    var i :| 0 <= i < |a| && a[i] == b[0];
    var j :| 0 <= j < |b| && b[j] == a[0];
    if i != 0 && j != 0 {
      BelowAsymmetric(a[0].0, a[i].0);
    }
  }

  lemma TailMultiset<T>(a: seq<T>)
    requires |a| > 0
    ensures multiset(a[1..]) == multiset(a) - multiset{a[0]}
  {
    assert a == [a[0]] + a[1..];
  }

  /** The encoding order of json.dumps(j, sort_keys=True): the keys of every dict, at
      every depth, in ascending order. */
  function SortKeys(j: Json): Json
    decreases j
  {
    match j
    case JArr(items) => JArr(seq(|items|, i requires 0 <= i < |items| => SortKeys(items[i])))
    case JObj(fields) =>
      var sorted := SortFields(fields);
      JObj(seq(|sorted|, i requires 0 <= i < |sorted| =>
        assert sorted[i] in multiset(fields);
        assert sorted[i] in fields;
        (sorted[i].0, SortKeys(sorted[i].1))))
    case _ => j
  }

  /** A dict written with its keys in another order has the same sorted encoding. */
  lemma SortKeysIgnoresOrder(a: seq<Field>, b: seq<Field>)
    requires DistinctKeys(a) && DistinctKeys(b)
    requires multiset(a) == multiset(b)
    ensures SortKeys(JObj(a)) == SortKeys(JObj(b))
  {
    SortFieldsAscending(a);
    SortFieldsAscending(b);
    AscendingFieldsUnique(SortFields(a), SortFields(b));
  }
}
