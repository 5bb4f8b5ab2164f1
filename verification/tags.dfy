/** The custom-tag overlay of the worker's auto-scaling group: each entry of
    `CustomTags` becomes an AWS tag record, and the records are put in front
    of the group's existing `Tags` with the `array-union` package, which
    concatenates its arguments and drops repeated values as a JavaScript
    `Set` does. */
module Tags {
  import opened JsonValue

  /** `{ Key: key, PropagateAtLaunch: true, Value: value }`. */
  function Record(key: string, value: Json): Json {
    JObj(map["Key" := JStr(key), "PropagateAtLaunch" := JBool(true), "Value" := value])
  }

  /** `Object.entries(tags).map(...)`, the entries given in the order
      `Object.entries` lists them. */
  function Records(entries: seq<(string, Json)>): (r: seq<Json>)
    ensures |r| == |entries|
    ensures forall i :: 0 <= i < |entries| ==> r[i] == Record(entries[i].0, entries[i].1)
  {
    if |entries| == 0 then []
    else [Record(entries[0].0, entries[0].1)] + Records(entries[1..])
  }

  /** What one argument contributes to `[].concat(...)`: an array its
      elements, any other value itself. A missing `Tags` contributes one
      `undefined` element, which a JSON document holds as `null` (the form
      `JSON.stringify` gives it). */
  function Spread(v: Val): seq<Json> {
    match v
    case Undefined => [JNull]
    case Defined(JArr(a)) => a
    case Defined(j) => [j]
  }

  /** Values a `Set` compares by identity. In a document just copied by
      `deep-extend`, and among freshly built tag records, no two of them are
      the same object, so a `Set` never merges them. */
  predicate IsObjectLike(j: Json) {
    j.JArr? || j.JObj?
  }

  predicate AllObjectLike(xs: seq<Json>) {
    forall i :: 0 <= i < |xs| ==> IsObjectLike(xs[i])
  }

  /** `[...new Set(xs)]`: the first occurrence of every primitive value, and
      every object or array, in their original order. */
  function Distinct(xs: seq<Json>): seq<Json>
    decreases |xs|
  {
    if |xs| == 0 then []
    else
      var kept := Distinct(xs[..|xs| - 1]);
      var last := xs[|xs| - 1];
      if !IsObjectLike(last) && last in kept then kept else kept + [last]
  }

  /** `arrayUnion([], awsTags, existing)`. */
  function Union(awsTags: seq<Json>, existing: Val): seq<Json> {
    Distinct(awsTags + Spread(existing))
  }

  /** `Distinct` loses no value and invents none. */
  lemma {:induction false} DistinctSameValues(xs: seq<Json>, x: Json)
    ensures x in Distinct(xs) <==> x in xs
    decreases |xs|
  {
    if |xs| > 0 {
      var init := xs[..|xs| - 1];
      assert xs == init + [xs[|xs| - 1]];
      DistinctSameValues(init, x);
    }
  }

  /** After `Distinct` no primitive value occurs twice. */
  lemma {:induction false} DistinctNoRepeatedPrimitive(xs: seq<Json>)
    ensures forall i, j :: 0 <= i < j < |Distinct(xs)| && !IsObjectLike(Distinct(xs)[i])
              ==> Distinct(xs)[i] != Distinct(xs)[j]
    decreases |xs|
  {
    if |xs| > 0 {
      DistinctNoRepeatedPrimitive(xs[..|xs| - 1]);
    }
  }

  /** A list of objects and arrays passes through `Distinct` unchanged. */
  lemma {:induction false} DistinctKeepsObjects(xs: seq<Json>)
    requires AllObjectLike(xs)
    ensures Distinct(xs) == xs
    decreases |xs|
  {
    if |xs| > 0 {
      var init := xs[..|xs| - 1];
      DistinctKeepsObjects(init);
      assert init + [xs[|xs| - 1]] == xs;
    }
  }

  lemma RecordsAreObjects(entries: seq<(string, Json)>)
    ensures AllObjectLike(Records(entries))
  {
  }

  /** When the existing tags are records (objects), the union is plain
      concatenation: the new records in entry order, then the existing tags. */
  lemma UnionPrependsRecords(entries: seq<(string, Json)>, existing: seq<Json>)
    requires AllObjectLike(existing)
    ensures Union(Records(entries), Defined(JArr(existing))) == Records(entries) + existing
  {
    RecordsAreObjects(entries);
    DistinctKeepsObjects(Records(entries) + existing);
  }

  /** Without existing tags the union is the new records followed by one
      `undefined` (written as `null`). */
  lemma UnionWithoutExistingTags(entries: seq<(string, Json)>)
    ensures Union(Records(entries), Undefined) == Records(entries) + [JNull]
  {
    var xs := Records(entries) + [JNull];
    RecordsAreObjects(entries);
    DistinctKeepsObjects(Records(entries));
    assert xs[..|xs| - 1] == Records(entries);
    assert JNull !in Records(entries);
  }

  /** The union does not merge tags by key: applying the same custom tags
      twice lists every record twice. */
  lemma UnionTwiceRepeatsRecords(entries: seq<(string, Json)>, existing: seq<Json>)
    requires AllObjectLike(existing)
    ensures Union(Records(entries), Defined(JArr(Union(Records(entries), Defined(JArr(existing))))))
            == Records(entries) + Records(entries) + existing
  {
    var records := Records(entries);
    UnionPrependsRecords(entries, existing);
    RecordsAreObjects(entries);
    assert AllObjectLike(records + existing) by {
      forall i | 0 <= i < |records + existing|
        ensures IsObjectLike((records + existing)[i])
      {
        if i < |records| {
          assert (records + existing)[i] == records[i];
        } else {
          assert (records + existing)[i] == existing[i - |records|];
        }
      }
    }
    UnionPrependsRecords(entries, records + existing);
    assert records + (records + existing) == records + records + existing;
  }
}
