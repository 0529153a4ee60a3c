/** JSON objects as records, and what writing them with sorted keys does to them. */
module KeyOrder {
  import opened Options
  import opened SeqFacts
  import opened StringOrder
  import opened JsonSchema

  function Inserted(field: (string, Json), fields: seq<(string, Json)>): seq<(string, Json)> {
    if fields == [] || LexLeq(field.0, fields[0].0) then [field] + fields
    else [fields[0]] + Inserted(field, fields[1..])
  }

  /** `sort_keys=True`, at every depth. */
  function SortKeys(j: Json): Json
    decreases j, 1, 0
  {
    match j
    case Obj(fields) => Obj(SortedFields(j, 0))
    case Arr(items) => Arr(seq(|items|, k requires 0 <= k < |items| => SortKeys(items[k])))
    case _ => j
  }

  /** The fields from number `i` on. */
  function SortedFields(j: Json, i: nat): seq<(string, Json)>
    requires j.Obj? && i <= |j.fields|
    decreases j, 0, |j.fields| - i
  {
    if i == |j.fields| then []
    else Inserted((j.fields[i].0, SortKeys(j.fields[i].1)), SortedFields(j, i + 1))
  }

  /** `fields[key]`, the first if there are several. */
  function Find(fields: seq<(string, Json)>, key: string): Option<Json> {
    if fields == [] then None else if fields[0].0 == key then Some(fields[0].1) else Find(fields[1..], key)
  }

  lemma {:induction false} FindsKey(fields: seq<(string, Json)>, key: string)
    ensures HasKey(Obj(fields), key) <==> Find(fields, key).Some?
    ensures Find(fields, key).Some? ==> Get(Obj(fields), key) == Find(fields, key).value
  {
    if fields != [] {
      var rest := fields[1..];
      FindsKey(rest, key);
      if fields[0].0 == key {
        assert HasKey(Obj(fields), key);
      } else {
        if HasKey(Obj(fields), key) {
          var i :| 0 <= i < |fields| && fields[i].0 == key;
          assert rest[i - 1].0 == key;
        }
        if HasKey(Obj(rest), key) {
          var i :| 0 <= i < |rest| && rest[i].0 == key;
          assert fields[i + 1].0 == key;
        }
      }
    }
  }

  lemma {:induction false} FindInserted(field: (string, Json), fields: seq<(string, Json)>, key: string)
    ensures Find(Inserted(field, fields), key) == if field.0 == key then Some(field.1) else Find(fields, key)
  {
    if fields == [] {
      assert Inserted(field, fields) == [field] && [field][1..] == [];
    } else if LexLeq(field.0, fields[0].0) {
      assert ([field] + fields)[1..] == fields;
    } else {
      FindInserted(field, fields[1..], key);
      assert ([fields[0]] + Inserted(field, fields[1..]))[1..] == Inserted(field, fields[1..]);
      LexReflexive(field.0);
    }
  }

  function SortedOption(j: Option<Json>): Option<Json> {
    if j.Some? then Some(SortKeys(j.value)) else None
  }

  lemma {:induction false} FindSorted(j: Json, i: nat, key: string)
    requires j.Obj? && i <= |j.fields|
    ensures Find(SortedFields(j, i), key) == SortedOption(Find(j.fields[i..], key))
    decreases |j.fields| - i
  {
    if i < |j.fields| {
      FindSorted(j, i + 1, key);
      FindInserted((j.fields[i].0, SortKeys(j.fields[i].1)), SortedFields(j, i + 1), key);
      DropDrop(j.fields, i, 1);
    }
  }

  /** Main result: sorting the keys changes no lookup, only what is found is sorted in turn. */
  lemma GetSorted(j: Json, key: string)
    requires j.Obj?
    ensures HasKey(SortKeys(j), key) <==> HasKey(j, key)
    ensures Get(SortKeys(j), key) == SortKeys(Get(j, key))
  {
    FindSorted(j, 0, key);
    assert j.fields[0..] == j.fields;
    FindsKey(j.fields, key);
    FindsKey(SortedFields(j, 0), key);
    assert j == Obj(j.fields);
  }

  // ---------- Records ----------

  /** The object with these keys and values. */
  function Record(names: seq<string>, values: seq<Json>): Json
    requires |names| == |values|
  {
    Obj(seq(|names|, k requires 0 <= k < |names| => (names[k], values[k])))
  }

  ghost predicate DistinctNames(names: seq<string>) {
    forall j: nat, k: nat :: j < k < |names| ==> OtherName(names, j, k)
  }

  predicate OtherName(names: seq<string>, j: nat, k: nat)
    requires j < |names| && k < |names|
  {
    names[j] != names[k]
  }

  lemma {:induction false} FindAt(fields: seq<(string, Json)>, i: nat)
    requires i < |fields| && forall k: nat :: k < i ==> fields[k].0 != fields[i].0
    ensures Find(fields, fields[i].0) == Some(fields[i].1)
    decreases i
  {
    if i > 0 { FindAt(fields[1..], i - 1); }
  }

  lemma GetRecord(names: seq<string>, values: seq<Json>, i: nat)
    requires |names| == |values| && DistinctNames(names) && i < |names|
    ensures HasKey(Record(names, values), names[i])
    ensures Get(Record(names, values), names[i]) == values[i]
  {
    var fields := Record(names, values).fields;
    forall k: nat | k < i ensures fields[k].0 != fields[i].0 {
      assert OtherName(names, k, i);
    }
    FindAt(fields, i);
    FindsKey(fields, names[i]);
  }

  /** A field of a record is found again after its keys have been sorted. */
  lemma GetSortedRecord(names: seq<string>, values: seq<Json>, i: nat)
    requires |names| == |values| && DistinctNames(names) && i < |names|
    ensures HasKey(SortKeys(Record(names, values)), names[i])
    ensures Get(SortKeys(Record(names, values)), names[i]) == SortKeys(values[i])
  {
    GetRecord(names, values, i);
    GetSorted(Record(names, values), names[i]);
  }

  // ---------- Sorting once is enough ----------

  predicate InOrder(fields: seq<(string, Json)>, k: nat)
    requires k + 1 < |fields|
  {
    LexLeq(fields[k].0, fields[k + 1].0)
  }

  ghost predicate KeysSorted(fields: seq<(string, Json)>) {
    forall k: nat :: k + 1 < |fields| ==> InOrder(fields, k)
  }

  ghost predicate Settled(fields: seq<(string, Json)>) {
    forall k :: 0 <= k < |fields| ==> SortKeys(fields[k].1) == fields[k].1
  }

  lemma ConsSorted(field: (string, Json), fields: seq<(string, Json)>)
    requires KeysSorted(fields) && (fields != [] ==> LexLeq(field.0, fields[0].0))
    ensures KeysSorted([field] + fields)
  {
    var all := [field] + fields;
    forall k: nat | k + 1 < |all| ensures InOrder(all, k) {
      if k > 0 { assert InOrder(fields, k - 1); }
    }
  }

  lemma TailSorted(fields: seq<(string, Json)>)
    requires KeysSorted(fields) && fields != []
    ensures KeysSorted(fields[1..])
  {
    forall k: nat | k + 1 < |fields[1..]| ensures InOrder(fields[1..], k) {
      assert InOrder(fields, k + 1);
    }
  }

  lemma {:induction false} InsertedSorted(field: (string, Json), fields: seq<(string, Json)>)
    requires KeysSorted(fields)
    ensures KeysSorted(Inserted(field, fields))
    ensures Inserted(field, fields) != []
    ensures Inserted(field, fields)[0].0 == field.0 || (fields != [] && Inserted(field, fields)[0].0 == fields[0].0)
  {
    if fields == [] || LexLeq(field.0, fields[0].0) {
      ConsSorted(field, fields);
    } else {
      TailSorted(fields);
      InsertedSorted(field, fields[1..]);
      LexTotal(field.0, fields[0].0);
      if fields[1..] != [] { assert InOrder(fields, 0); }
      ConsSorted(fields[0], Inserted(field, fields[1..]));
    }
  }

  lemma {:induction false} InsertedSettled(field: (string, Json), fields: seq<(string, Json)>)
    requires Settled(fields) && SortKeys(field.1) == field.1
    ensures Settled(Inserted(field, fields))
  {
    if !(fields == [] || LexLeq(field.0, fields[0].0)) {
      InsertedSettled(field, fields[1..]);
    }
  }

  /** Fields already in order stay where they are. */
  lemma {:induction false} SortedStays(j: Json, i: nat)
    requires j.Obj? && i <= |j.fields| && KeysSorted(j.fields) && Settled(j.fields)
    ensures SortedFields(j, i) == j.fields[i..]
    decreases |j.fields| - i
  {
    if i < |j.fields| {
      SortedStays(j, i + 1);
      assert (j.fields[i].0, SortKeys(j.fields[i].1)) == j.fields[i];
      if i + 1 < |j.fields| { assert InOrder(j.fields, i); }
      assert [j.fields[i]] + j.fields[i + 1..] == j.fields[i..];
    }
  }

  lemma {:induction false} SortedFieldsAreSorted(j: Json, i: nat)
    requires j.Obj? && i <= |j.fields|
    ensures KeysSorted(SortedFields(j, i)) && Settled(SortedFields(j, i))
    decreases j, 0, |j.fields| - i
  {
    if i < |j.fields| {
      SortedFieldsAreSorted(j, i + 1);
      SortedTwice(j.fields[i].1);
      var field := (j.fields[i].0, SortKeys(j.fields[i].1));
      InsertedSorted(field, SortedFields(j, i + 1));
      InsertedSettled(field, SortedFields(j, i + 1));
    }
  }

  /** What has been written once with sorted keys is written the same again. */
  lemma {:induction false} SortedTwice(j: Json)
    ensures SortKeys(SortKeys(j)) == SortKeys(j)
    decreases j, 1, 0
  {
    match j
    case Obj(fields) =>
      SortedFieldsAreSorted(j, 0);
      var sorted := SortKeys(j);
      SortedStays(sorted, 0);
      assert sorted.fields[0..] == sorted.fields;
    case Arr(items) =>
      forall k | 0 <= k < |items| ensures SortKeys(SortKeys(items[k])) == SortKeys(items[k]) {
        SortedTwice(items[k]);
      }
    case _ =>
  }

  // ---------- Trees that sort alike ----------

  predicate SortAlike(a: Json, b: Json) {
    SortKeys(a) == SortKeys(b)
  }

  lemma {:induction false} FieldsSortAlike(a: Json, b: Json, i: nat)
    requires a.Obj? && b.Obj? && |a.fields| == |b.fields| && i <= |a.fields|
    requires forall k :: 0 <= k < |a.fields| ==> a.fields[k].0 == b.fields[k].0 && SortAlike(a.fields[k].1, b.fields[k].1)
    ensures SortedFields(a, i) == SortedFields(b, i)
    decreases |a.fields| - i
  {
    if i < |a.fields| {
      assert SortAlike(a.fields[i].1, b.fields[i].1);
      FieldsSortAlike(a, b, i + 1);
    }
  }

  /** Records whose values sort alike sort alike, and so do lists. */
  lemma RecordsSortAlike(names: seq<string>, values: seq<Json>, values': seq<Json>)
    requires |names| == |values| == |values'| && forall k :: 0 <= k < |names| ==> SortAlike(values[k], values'[k])
    ensures SortAlike(Record(names, values), Record(names, values'))
  {
    FieldsSortAlike(Record(names, values), Record(names, values'), 0);
  }

  lemma ListsSortAlike(items: seq<Json>, items': seq<Json>)
    requires |items| == |items'| && forall k :: 0 <= k < |items| ==> SortAlike(items[k], items'[k])
    ensures SortAlike(Arr(items), Arr(items'))
  {
    forall k | 0 <= k < |items| ensures SortKeys(items[k]) == SortKeys(items'[k]) {
      assert SortAlike(items[k], items'[k]);
    }
  }

  // ---------- Dicts ----------

  /** No key twice. */
  predicate KeysDiffer(fields: seq<(string, Json)>) {
    fields == [] || (Find(fields[1..], fields[0].0).None? && KeysDiffer(fields[1..]))
  }

  /** A tree of dicts: at every depth no object holds a key twice. */
  predicate IsDict(j: Json)
    decreases j
  {
    match j
    case Obj(fields) => KeysDiffer(fields) && forall k :: 0 <= k < |fields| ==> IsDict(fields[k].1)
    case Arr(items) => forall k :: 0 <= k < |items| ==> IsDict(items[k])
    case _ => true
  }

  lemma {:induction false} InsertedDiffer(field: (string, Json), fields: seq<(string, Json)>)
    requires KeysDiffer(fields) && Find(fields, field.0).None?
    ensures KeysDiffer(Inserted(field, fields))
  {
    if fields == [] || LexLeq(field.0, fields[0].0) {
      assert ([field] + fields)[1..] == fields;
    } else {
      var rest := fields[1..];
      InsertedDiffer(field, rest);
      FindInserted(field, rest, fields[0].0);
      assert ([fields[0]] + Inserted(field, rest))[1..] == Inserted(field, rest);
    }
  }

  ghost predicate AllDicts(fields: seq<(string, Json)>) {
    forall k :: 0 <= k < |fields| ==> IsDict(fields[k].1)
  }

  lemma {:induction false} InsertedDicts(field: (string, Json), fields: seq<(string, Json)>)
    requires AllDicts(fields) && IsDict(field.1)
    ensures AllDicts(Inserted(field, fields))
  {
    if !(fields == [] || LexLeq(field.0, fields[0].0)) { InsertedDicts(field, fields[1..]); }
  }

  lemma {:induction false} TailDiffers(fields: seq<(string, Json)>, i: nat)
    requires KeysDiffer(fields) && i <= |fields|
    ensures KeysDiffer(fields[i..])
  {
    if i == 0 {
      assert fields[0..] == fields;
    } else {
      TailDiffers(fields[1..], i - 1);
      DropDrop(fields, 1, i - 1);
    }
  }

  lemma {:induction false} SortedFieldsDiffer(j: Json, i: nat)
    requires j.Obj? && IsDict(j) && i <= |j.fields|
    ensures KeysDiffer(SortedFields(j, i)) && AllDicts(SortedFields(j, i))
    decreases j, 0, |j.fields| - i
  {
    if i < |j.fields| {
      var field := (j.fields[i].0, SortKeys(j.fields[i].1));
      SortedFieldsDiffer(j, i + 1);
      SortedIsDict(j.fields[i].1);
      TailDiffers(j.fields, i);
      DropDrop(j.fields, i, 1);
      assert j.fields[i..][0] == j.fields[i];
      FindSorted(j, i + 1, field.0);
      InsertedDiffer(field, SortedFields(j, i + 1));
      InsertedDicts(field, SortedFields(j, i + 1));
    }
  }

  /** Sorting the keys keeps a tree of dicts one. */
  lemma {:induction false} SortedIsDict(j: Json)
    requires IsDict(j)
    ensures IsDict(SortKeys(j))
    decreases j, 1, 0
  {
    match j
    case Obj(fields) => SortedFieldsDiffer(j, 0);
    case Arr(items) =>
      forall k | 0 <= k < |items| ensures IsDict(SortKeys(items[k])) { SortedIsDict(items[k]); }
    case _ =>
  }

  lemma {:induction false} NotFoundAmong(fields: seq<(string, Json)>, key: string)
    requires forall k :: 0 <= k < |fields| ==> fields[k].0 != key
    ensures Find(fields, key).None?
  {
    if fields != [] { NotFoundAmong(fields[1..], key); }
  }

  lemma {:induction false} RecordDiffers(names: seq<string>, values: seq<Json>, i: nat)
    requires |names| == |values| && DistinctNames(names) && i <= |names|
    ensures KeysDiffer(Record(names, values).fields[i..])
    decreases |names| - i
  {
    var fields := Record(names, values).fields;
    if i < |names| {
      RecordDiffers(names, values, i + 1);
      var later := fields[i + 1..];
      forall k | 0 <= k < |later| ensures later[k].0 != names[i] {
        assert OtherName(names, i, i + 1 + k);
      }
      NotFoundAmong(later, names[i]);
      DropDrop(fields, i, 1);
    }
  }

  /** A record of such trees is one. */
  lemma RecordIsDict(names: seq<string>, values: seq<Json>)
    requires |names| == |values| && DistinctNames(names) && forall k :: 0 <= k < |values| ==> IsDict(values[k])
    ensures IsDict(Record(names, values))
  {
    RecordDiffers(names, values, 0);
    var fields := Record(names, values).fields;
    assert fields[0..] == fields;
  }
}
