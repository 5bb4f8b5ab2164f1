/** JSON documents and the JavaScript property reads and writes the worker
    generator performs on them.

    A template is a tree of JSON values. The generator reaches into it with
    chains of property accesses (`t.Resources[name].Properties.Tags`) and
    assignments (`asg.Properties.DesiredCapacity.Ref = ...`). `Get` and `Put`
    model such chains with JavaScript's failure behaviour; a document is a
    value, so a "deep copy" is the value itself. */
module JsonValue {
  import opened Outcomes

  /** A parsed JSON value. Numbers are kept as reals; the key order of an
      object is not represented. */
  datatype Json =
    | JNull
    | JBool(b: bool)
    | JNum(n: real)
    | JStr(s: string)
    | JArr(items: seq<Json>)
    | JObj(fields: map<string, Json>)

  /** What a JavaScript property read yields: `undefined` or a JSON value. */
  datatype Val = Undefined | Defined(json: Json)

  /** A chain of property keys; array elements are addressed by the decimal
      spelling of their index, as in JavaScript. */
  type Path = seq<string>

  /** JavaScript truthiness: `!j` is false exactly for these values. */
  predicate Truthy(j: Json) {
    match j
    case JNull => false
    case JBool(b) => b
    case JNum(n) => n != 0.0
    case JStr(s) => s != ""
    case JArr(_) => true
    case JObj(_) => true
  }

  // ---------------------------------------------------------------------
  // Array index keys

  predicate IsDigit(c: char) {
    '0' <= c <= '9'
  }

  predicate AllDigits(s: string) {
    forall i :: 0 <= i < |s| ==> IsDigit(s[i])
  }

  /** The canonical decimal spelling of `n` (no leading zeros). */
  function DecimalString(n: nat): (r: string)
    ensures |r| > 0 && AllDigits(r)
  {
    if n < 10 then [('0' as int + n) as char]
    else DecimalString(n / 10) + [('0' as int + n % 10) as char]
  }

  /** The number a string of decimal digits denotes. */
  function DigitsValue(s: string): nat
    requires AllDigits(s)
  {
    if |s| == 0 then 0
    else DigitsValue(s[..|s| - 1]) * 10 + (s[|s| - 1] as int - '0' as int)
  }

  /** The array index a property key denotes, if any: the key must be the
      canonical spelling of a natural number, so "1" is an index and "01"
      is not. The 2^32 - 2 upper bound of JavaScript arrays is not modelled. */
  function ArrayIndex(k: string): Option<nat> {
    if |k| > 0 && AllDigits(k) && DecimalString(DigitsValue(k)) == k
    then Some(DigitsValue(k))
    else None
  }

  /** Reading back the canonical spelling of `n` gives `n`. */
  lemma {:induction false} DecimalRoundTrip(n: nat)
    ensures DigitsValue(DecimalString(n)) == n
  {
    if n >= 10 {
      DecimalRoundTrip(n / 10);
      var s := DecimalString(n);
      assert s[..|s| - 1] == DecimalString(n / 10);
    }
  }

  /** A key denotes index `n` exactly when it is the canonical spelling of
      `n`; in particular two different keys never denote the same index. */
  lemma ArrayIndexSpelling(k: string, n: nat)
    ensures ArrayIndex(k) == Some(n) <==> k == DecimalString(n)
  {
    DecimalRoundTrip(n);
  }

  // ---------------------------------------------------------------------
  // Property reads

  /** `v[k]`: fails on `undefined` and `null`; an object yields its field,
      an array or a string its element at an index key; any other key of a
      non-object yields `undefined`. */
  function Member(v: Val, k: string): Result<Val, Error> {
    match v
    case Undefined => Failure(TypeError)
    case Defined(j) =>
      match j
      case JNull => Failure(TypeError)
      case JObj(m) => Success(if k in m then Defined(m[k]) else Undefined)
      case JArr(a) =>
        var i := ArrayIndex(k);
        Success(if i.Some? && i.value < |a| then Defined(a[i.value]) else Undefined)
      case JStr(s) =>
        var i := ArrayIndex(k);
        Success(if i.Some? && i.value < |s| then Defined(JStr([s[i.value]])) else Undefined)
      case JBool(_) => Success(Undefined)
      case JNum(_) => Success(Undefined)
  }

  /** The chained read `v[p[0]][p[1]]...`. */
  function Get(v: Val, p: Path): (r: Result<Val, Error>)
    ensures r.Failure? ==> r.error == TypeError
    ensures |p| == 0 ==> r == Success(v)
    decreases |p|
  {
    if |p| == 0 then Success(v)
    else
      var c :- Member(v, p[0]);
      Get(c, p[1..])
  }

  /** Reading along `a + b` is reading along `a` and then along `b`. */
  lemma {:induction false} GetAppend(v: Val, a: Path, b: Path)
    ensures Get(v, a + b) == (var u :- Get(v, a); Get(u, b))
    decreases |a|
  {
    if |a| == 0 {
      assert a + b == b;
    } else {
      assert (a + b)[0] == a[0];
      assert (a + b)[1..] == a[1..] + b;
      var c := Member(v, a[0]);
      if c.Success? {
        GetAppend(c.value, a[1..], b);
      }
    }
  }

  // ---------------------------------------------------------------------
  // Property writes

  /** `j[k] = x` in strict mode: an object gets the field, an array the
      element at an existing index or, at the index just past its end, a
      new last element; a primitive or `null` throws. A named property of an
      array, or an index that would leave a hole, has no JSON form. */
  function Assign(j: Json, k: string, x: Json): Result<Json, Error> {
    match j
    case JObj(m) => Success(JObj(m[k := x]))
    case JArr(a) =>
      var i := ArrayIndex(k);
      if i.Some? && i.value < |a| then Success(JArr(a[i.value := x]))
      else if i.Some? && i.value == |a| then Success(JArr(a + [x]))
      else Failure(Unrepresentable)
    case JNull => Failure(TypeError)
    case JBool(_) => Failure(TypeError)
    case JNum(_) => Failure(TypeError)
    case JStr(_) => Failure(TypeError)
  }

  /** The chained assignment `j[p[0]]...[p[|p|-1]] = x`: every key but the
      last is read, the last is assigned, and the modified node replaces the
      old one on the way back up (the mutation, seen as a value). */
  function Put(j: Json, p: Path, x: Json): (r: Result<Json, Error>)
    requires |p| > 0
    ensures r.Failure? ==> r.error == TypeError || r.error == Unrepresentable
    decreases |p|
  {
    if |p| == 1 then Assign(j, p[0], x)
    else
      var c :- Member(Defined(j), p[0]);
      if c.Undefined? then Failure(TypeError)
      else
        var child :- Put(c.json, p[1..], x);
        Assign(j, p[0], child)
  }

  lemma AssignThenRead(j: Json, k: string, x: Json)
    requires Assign(j, k, x).Success?
    ensures Member(Defined(Assign(j, k, x).value), k) == Success(Defined(x))
  {
    if j.JArr? {
      var i := ArrayIndex(k).value;
      assert Assign(j, k, x).value.items[i] == x;
    }
  }

  lemma AssignThenReadOther(j: Json, k: string, x: Json, k': string)
    requires Assign(j, k, x).Success?
    requires k' != k
    ensures Member(Defined(Assign(j, k, x).value), k') == Member(Defined(j), k')
  {
    if j.JArr? {
      var i := ArrayIndex(k).value;
      ArrayIndexSpelling(k, i);
      var i' := ArrayIndex(k');
      if i'.Some? {
        ArrayIndexSpelling(k', i'.value);
      }
    }
  }

  /** After a successful chained assignment, reading the same chain yields
      the assigned value. */
  lemma {:induction false} GetAfterPut(j: Json, p: Path, x: Json)
    requires |p| > 0 && Put(j, p, x).Success?
    ensures Get(Defined(Put(j, p, x).value), p) == Success(Defined(x))
    decreases |p|
  {
    var j' := Put(j, p, x).value;
    if |p| == 1 {
      AssignThenRead(j, p[0], x);
    } else {
      var c := Member(Defined(j), p[0]).value;
      var child := Put(c.json, p[1..], x).value;
      GetAfterPut(c.json, p[1..], x);
      AssignThenRead(j, p[0], child);
    }
  }

  // ---------------------------------------------------------------------
  // Disjoint paths

  /** Neither path is a prefix of the other: they part at some position. */
  predicate Diverge(p: Path, q: Path)
    decreases |p|
  {
    |p| > 0 && |q| > 0 && (p[0] != q[0] || Diverge(p[1..], q[1..]))
  }

  lemma {:induction false} DivergeAt(p: Path, q: Path, i: nat)
    requires i < |p| && i < |q| && p[i] != q[i]
    ensures Diverge(p, q)
    decreases i
  {
    if i > 0 && p[0] == q[0] {
      DivergeAt(p[1..], q[1..], i - 1);
    }
  }

  /** Extending either of two diverging paths keeps them diverging. */
  lemma {:induction false} DivergeExtend(p: Path, q: Path, a: Path, b: Path)
    requires Diverge(p, q)
    ensures Diverge(p + a, q + b)
    decreases |p|
  {
    if p[0] == q[0] {
      assert (p + a)[1..] == p[1..] + a;
      assert (q + b)[1..] == q[1..] + b;
      DivergeExtend(p[1..], q[1..], a, b);
    }
  }

  /** Going deeper along a path that diverges from `q` stays away from `q`. */
  lemma DivergeDeeper(p: Path, x: Path, q: Path)
    requires Diverge(p, q)
    ensures Diverge(p + x, q)
  {
    DivergeExtend(p, q, x, []);
    assert q + [] == q;
  }

  /** A common prefix does not make diverging paths meet. */
  lemma {:induction false} DivergeUnder(a: Path, p: Path, q: Path)
    requires Diverge(p, q)
    ensures Diverge(a + p, a + q)
    decreases |a|
  {
    if |a| == 0 {
      assert a + p == p && a + q == q;
    } else {
      assert (a + p)[0] == (a + q)[0];
      assert (a + p)[1..] == a[1..] + p;
      assert (a + q)[1..] == a[1..] + q;
      DivergeUnder(a[1..], p, q);
    }
  }

  /** A chained assignment leaves every diverging chain reading as before. */
  lemma {:induction false} PutFrame(j: Json, p: Path, x: Json, q: Path)
    requires |p| > 0 && Put(j, p, x).Success?
    requires Diverge(p, q)
    ensures Get(Defined(Put(j, p, x).value), q) == Get(Defined(j), q)
    decreases |p|
  {
    var j' := Put(j, p, x).value;
    if p[0] != q[0] {
      if |p| == 1 {
        AssignThenReadOther(j, p[0], x, q[0]);
      } else {
        var c := Member(Defined(j), p[0]).value;
        var child := Put(c.json, p[1..], x).value;
        AssignThenReadOther(j, p[0], child, q[0]);
      }
    } else {
      var c := Member(Defined(j), p[0]).value;
      var child := Put(c.json, p[1..], x).value;
      PutFrame(c.json, p[1..], x, q[1..]);
      AssignThenRead(j, p[0], child);
    }
  }

  /** A chained assignment that succeeds has read every node above the
      assigned one, and none of them was `undefined`. */
  lemma {:induction false} PutReadsPrefix(j: Json, a: Path, b: Path, x: Json)
    requires |b| > 0 && Put(j, a + b, x).Success?
    ensures Get(Defined(j), a).Success? && Get(Defined(j), a).value.Defined?
    decreases |a|
  {
    if |a| > 0 {
      assert (a + b)[0] == a[0];
      assert (a + b)[1..] == a[1..] + b;
      var c := Member(Defined(j), a[0]).value;
      PutReadsPrefix(c.json, a[1..], b, x);
    }
  }

  // ---------------------------------------------------------------------
  // Where a chained assignment succeeds

  /** `j[k] = x` succeeds on `j`, whatever `x` is: `j` is an object, or an
      array and `k` an index at most its length. */
  predicate Assignable(j: Json, k: string) {
    j.JObj? || (j.JArr? && ArrayIndex(k).Some? && ArrayIndex(k).value <= |j.items|)
  }

  /** The node at `q` exists and can take the key `k`. */
  predicate CanAssignAt(j: Json, q: Path, k: string) {
    var v := Get(Defined(j), q);
    v.Success? && v.value.Defined? && Assignable(v.value.json, k)
  }

  /** Every node a chained assignment along `p` passes through exists and
      can take the next key of `p`. */
  predicate Writable(j: Json, p: Path) {
    forall i :: 0 <= i < |p| ==> CanAssignAt(j, p[..i], p[i])
  }

  lemma AssignSucceeds(j: Json, k: string, x: Json)
    ensures Assign(j, k, x).Success? <==> Assignable(j, k)
  {
  }

  /** Reading `p[..i]` below a key goes through the node at that key. */
  lemma GetPrefixStep(v: Val, p: Path, i: nat)
    requires 1 <= i <= |p| && Member(v, p[0]).Success?
    ensures Get(v, p[..i]) == Get(Member(v, p[0]).value, p[1..][..i - 1])
  {
    assert p[..i][0] == p[0];
    assert p[..i][1..] == p[1..][..i - 1];
  }

  /** A chained assignment succeeds exactly when its path is writable. */
  lemma {:induction false} PutSucceeds(j: Json, p: Path, x: Json)
    requires |p| > 0
    ensures Put(j, p, x).Success? <==> Writable(j, p)
    decreases |p|
  {
    assert p[..0] == [];
    if |p| == 1 {
      AssignSucceeds(j, p[0], x);
    } else {
      var m := Member(Defined(j), p[0]);
      if Writable(j, p) {
        assert CanAssignAt(j, p[..1], p[1]);
        GetPrefixStep(Defined(j), p, 1);
        var c := m.value;
        forall i | 0 <= i < |p[1..]|
          ensures CanAssignAt(c.json, p[1..][..i], p[1..][i])
        {
          assert CanAssignAt(j, p[..i + 1], p[i + 1]);
          GetPrefixStep(Defined(j), p, i + 1);
        }
        PutSucceeds(c.json, p[1..], x);
        AssignSucceeds(j, p[0], Put(c.json, p[1..], x).value);
      }
      if Put(j, p, x).Success? {
        var c := m.value;
        var child := Put(c.json, p[1..], x).value;
        PutSucceeds(c.json, p[1..], x);
        AssignSucceeds(j, p[0], child);
        forall i | 0 <= i < |p|
          ensures CanAssignAt(j, p[..i], p[i])
        {
          if i > 0 {
            GetPrefixStep(Defined(j), p, i);
            assert CanAssignAt(c.json, p[1..][..i - 1], p[1..][i - 1]);
          }
        }
      }
    }
  }

  lemma AssignKeepsAssignable(j: Json, k: string, x: Json, k': string)
    requires Assign(j, k, x).Success? && Assignable(j, k')
    ensures Assignable(Assign(j, k, x).value, k')
  {
  }

  /** A chained assignment keeps every node it does not replace wholesale
      able to take the keys it could take before. */
  lemma {:induction false} NodeAfterPut(j: Json, p: Path, x: Json, r: Path, k: string)
    requires |p| > 0 && Put(j, p, x).Success?
    requires CanAssignAt(j, r, k) && !(p <= r)
    ensures CanAssignAt(Put(j, p, x).value, r, k)
    decreases |p|
  {
    var j' := Put(j, p, x).value;
    if |r| == 0 {
      if |p| == 1 {
        AssignKeepsAssignable(j, p[0], x, k);
      } else {
        var c := Member(Defined(j), p[0]).value;
        AssignKeepsAssignable(j, p[0], Put(c.json, p[1..], x).value, k);
      }
    } else if p[0] != r[0] {
      DivergeAt(p, r, 0);
      PutFrame(j, p, x, r);
    } else {
      assert |p| > 1;
      var c := Member(Defined(j), p[0]).value;
      var child := Put(c.json, p[1..], x).value;
      assert !(p[1..] <= r[1..]);
      NodeAfterPut(c.json, p[1..], x, r[1..], k);
      AssignThenRead(j, p[0], child);
    }
  }

  /** A chained assignment keeps writable every path that does not run
      below the assigned node. */
  lemma WritableKept(j: Json, p: Path, x: Json, q: Path)
    requires |p| > 0 && Put(j, p, x).Success?
    requires Writable(j, q) && !(p < q)
    ensures Writable(Put(j, p, x).value, q)
  {
    forall i | 0 <= i < |q|
      ensures CanAssignAt(Put(j, p, x).value, q[..i], q[i])
    {
      NodeAfterPut(j, p, x, q[..i], q[i]);
    }
  }

  /** Below an existing node `n` at `a`, writability of `a + b` is
      writability of `a` and of `b` within `n`. */
  lemma WritableAppend(j: Json, a: Path, b: Path, n: Json)
    requires Get(Defined(j), a) == Success(Defined(n))
    ensures Writable(j, a + b) <==> Writable(j, a) && Writable(n, b)
  {
    forall i | 0 <= i < |a|
      ensures (a + b)[..i] == a[..i] && (a + b)[i] == a[i]
    {
    }
    forall i | 0 <= i < |b|
      ensures CanAssignAt(j, (a + b)[..|a| + i], (a + b)[|a| + i]) <==> CanAssignAt(n, b[..i], b[i])
    {
      assert (a + b)[..|a| + i] == a + b[..i];
      GetAppend(Defined(j), a, b[..i]);
    }
    if Writable(j, a) && Writable(n, b) {
      forall i | 0 <= i < |a + b|
        ensures CanAssignAt(j, (a + b)[..i], (a + b)[i])
      {
        if i >= |a| {
          assert CanAssignAt(n, b[..i - |a|], b[i - |a|]);
        }
      }
    }
    if Writable(j, a + b) {
      forall i | 0 <= i < |a|
        ensures CanAssignAt(j, a[..i], a[i])
      {
        assert CanAssignAt(j, (a + b)[..i], (a + b)[i]);
      }
      forall i | 0 <= i < |b|
        ensures CanAssignAt(n, b[..i], b[i])
      {
        assert CanAssignAt(j, (a + b)[..|a| + i], (a + b)[|a| + i]);
      }
    }
  }

  /** Each key of `p` names a field of an object, and the last field holds
      an object too. */
  predicate ObjectsAlong(j: Json, p: Path)
    decreases |p|
  {
    && j.JObj?
    && (|p| > 0 ==> p[0] in j.fields && ObjectsAlong(j.fields[p[0]], p[1..]))
  }

  /** Below a chain of objects any key can be assigned: this is what lets a
      template take the references `create` writes. */
  lemma {:induction false} ObjectsAlongWritable(j: Json, p: Path, k: string)
    requires ObjectsAlong(j, p)
    ensures Writable(j, p + [k])
    decreases |p|
  {
    if |p| == 0 {
      assert p + [k] == [k];
      assert CanAssignAt(j, [k][..0], [k][0]);
    } else {
      var n := j.fields[p[0]];
      ObjectsAlongWritable(n, p[1..], k);
      assert Writable(j, [p[0]]) by {
        assert CanAssignAt(j, [p[0]][..0], [p[0]][0]);
      }
      assert Get(Defined(j), [p[0]]) == Success(Defined(n));
      WritableAppend(j, [p[0]], p[1..] + [k], n);
      assert [p[0]] + (p[1..] + [k]) == p + [k];
    }
  }

  /** A writable path can be read, and reads a node at each step above its
      last key. */
  lemma WritableReads(j: Json, p: Path)
    requires |p| > 0 && Writable(j, p)
    ensures Get(Defined(j), p).Success?
  {
    var a := p[..|p| - 1];
    assert CanAssignAt(j, a, p[|p| - 1]);
    assert a + [p[|p| - 1]] == p;
    GetAppend(Defined(j), a, [p[|p| - 1]]);
  }

  /** Paths that differ at a position neither runs below the other. */
  lemma PartedNotBelow(p: Path, q: Path, i: nat)
    requires i < |p| && i < |q| && p[i] != q[i]
    ensures !(p < q) && !(q < p)
  {
  }

  /** A writable path's parent can be read at any key. */
  lemma ReadsBeside(j: Json, p: Path, k: string)
    requires |p| > 0 && Writable(j, p)
    ensures Get(Defined(j), p[..|p| - 1] + [k]).Success?
  {
    assert CanAssignAt(j, p[..|p| - 1], p[|p| - 1]);
    GetAppend(Defined(j), p[..|p| - 1], [k]);
  }

  /** Only an object can take a key that is not an array index. */
  lemma NamedKeyNeedsObject(j: Json, k: string)
    requires Assignable(j, k) && |k| > 0 && !IsDigit(k[0])
    ensures j.JObj?
  {
  }

  // ---------------------------------------------------------------------
  // Copies

  /** `deepExtend({}, v)`: an object is copied whole; `undefined`, `null`,
      a primitive or an array is skipped, leaving the fresh empty object. */
  function ExtendedCopy(v: Val): (r: Json)
    ensures r.JObj?
    ensures v.Defined? && v.json.JObj? ==> r == v.json
    ensures !(v.Defined? && v.json.JObj?) ==> r == JObj(map[])
  {
    match v
    case Defined(JObj(m)) => JObj(m)
    case _ => JObj(map[])
  }
}
