// The dynamically typed values the core passes around: scraped records,
// request payloads, schemas and stored documents are Python dicts, lists and
// scalars. A dict is an ordered sequence of (key, value) pairs, as Python
// keeps insertion order.
module Json {
  import opened Wrappers

  datatype Value =
    | Null
    | Bool(b: bool)
    | Int(i: int)
    | Float(r: real)
    | Str(s: string)
    | List(items: seq<Value>)
    | Object(fields: seq<(string, Value)>)
    | Time(seconds: int)   // a datetime, as seconds on one clock

  type Record = seq<(string, Value)>

  /** Python's bool(v). */
  predicate Truthy(v: Value)
  {
    match v
    case Null => false
    case Bool(b) => b
    case Int(i) => i != 0
    case Float(r) => r != 0.0
    case Str(s) => s != []
    case List(items) => items != []
    case Object(fields) => fields != []
    case Time(_) => true
  }

  /** type(v).__name__ */
  function TypeName(v: Value): string
  {
    match v
    case Null => "NoneType"
    case Bool(_) => "bool"
    case Int(_) => "int"
    case Float(_) => "float"
    case Str(_) => "str"
    case List(_) => "list"
    case Object(_) => "dict"
    case Time(_) => "datetime"
  }

  /** The type's full name, as str(type(v)) and attribute errors print it:
    * the built-in types by their name, datetime with its module. */
  function QualifiedTypeName(v: Value): string
  {
    if v.Time? then "datetime.datetime" else TypeName(v)
  }

  function Keys(r: Record): (ks: seq<string>)
    ensures |ks| == |r|
    ensures forall i | 0 <= i < |r| :: ks[i] == r[i].0
  {
    if r == [] then [] else [r[0].0] + Keys(r[1..])
  }

  /** d.get(k): the value of the first pair with key k. */
  function Get(r: Record, k: string): (o: Option<Value>)
    ensures o.Some? ==> (k, o.value) in r
  {
    if r == [] then None
    else if r[0].0 == k then Some(r[0].1)
    else Get(r[1..], k)
  }

  /** d.get(k) finds a value exactly for the keys the dict lists. */
  lemma {:induction false} GetKeys(r: Record, k: string)
    ensures Get(r, k).Some? <==> k in Keys(r)
  {
    if r != [] {
      GetKeys(r[1..], k);
      assert Keys(r) == [r[0].0] + Keys(r[1..]);
    }
  }

  /** `k in d` */
  predicate HasKey(r: Record, k: string)
  {
    Get(r, k).Some?
  }

  /** `k in d and d[k]`: present with a truthy value. */
  predicate HasTruthy(r: Record, k: string)
  {
    Get(r, k).Some? && Truthy(Get(r, k).value)
  }

  /** d[k] = v: replaces the value in place when k is present, appends otherwise. */
  function SetKey(r: Record, k: string, v: Value): (r': Record)
    ensures Get(r', k) == Some(v)
    ensures forall k' | k' != k :: Get(r', k') == Get(r, k')
  {
    if r == [] then [(k, v)]
    else if r[0].0 == k then [(k, v)] + r[1..]
    else [r[0]] + SetKey(r[1..], k, v)
  }

  /** Setting a present key keeps the key order; a new key goes last. */
  lemma {:induction false} SetKeyKeys(r: Record, k: string, v: Value)
    ensures Keys(SetKey(r, k, v)) == if k in Keys(r) then Keys(r) else Keys(r) + [k]
  {
    if r != [] && r[0].0 != k {
      var rest := SetKey(r[1..], k, v);
      SetKeyKeys(r[1..], k, v);
      assert SetKey(r, k, v) == [r[0]] + rest;
      assert ([r[0]] + rest)[1..] == rest;
      assert Keys([r[0]] + rest) == [r[0].0] + Keys(rest);
      assert Keys(r) == [r[0].0] + Keys(r[1..]);
      assert k in Keys(r) <==> k in Keys(r[1..]);
    }
  }

  /** Setting a key adds no pair other than the one set. */
  lemma {:induction false} SetKeyPairs(r: Record, k: string, v: Value)
    ensures forall p | p in SetKey(r, k, v) :: p in r || p == (k, v)
  {
    if r != [] && r[0].0 != k {
      SetKeyPairs(r[1..], k, v);
      assert forall p | p in r[1..] :: p in r;
    }
  }

  /** The pairs of r whose key is not in ks, in order. */
  function RemoveKeys(r: Record, ks: set<string>): (r': Record)
    ensures |r'| <= |r|
  {
    if r == [] then []
    else if r[0].0 in ks then RemoveKeys(r[1..], ks)
    else [r[0]] + RemoveKeys(r[1..], ks)
  }

  /** The removed keys are gone and every other key keeps its value. */
  lemma {:induction false} RemoveKeysGet(r: Record, ks: set<string>, k: string)
    ensures Get(RemoveKeys(r, ks), k) == if k in ks then None else Get(r, k)
  {
    if r != [] {
      RemoveKeysGet(r[1..], ks, k);
    }
  }

  /** The pairs as a finite map, forgetting their order; a repeated key keeps
    * its first value, as d.get does. */
  function ToMap<T>(ps: seq<(string, T)>): map<string, T>
  {
    if ps == [] then map[] else ToMap(ps[1..])[ps[0].0 := ps[0].1]
  }

  /** The keys the pairs name. */
  function KeySet<T>(ps: seq<(string, T)>): set<string>
  {
    set i | 0 <= i < |ps| :: ps[i].0
  }

  /** The map holds exactly the keys the pairs name. */
  lemma {:induction false} ToMapKeys<T>(ps: seq<(string, T)>)
    ensures ToMap(ps).Keys == KeySet(ps)
  {
    if ps != [] {
      ToMapKeys(ps[1..]);
      assert KeySet(ps) == {ps[0].0} + KeySet(ps[1..]) by {
        forall k | k in KeySet(ps) ensures k in {ps[0].0} + KeySet(ps[1..]) {
          var i :| 0 <= i < |ps| && ps[i].0 == k;
          if i > 0 { assert ps[1..][i - 1].0 == k; }
        }
        forall k | k in KeySet(ps[1..]) ensures k in KeySet(ps) {
          var i :| 0 <= i < |ps[1..]| && ps[1..][i].0 == k;
          assert ps[i + 1].0 == k;
        }
      }
    }
  }

  /** No key is named twice, as in a Python dict. */
  predicate UniqueKeys<T>(ps: seq<(string, T)>)
  {
    forall i, j | 0 <= i < j < |ps| :: ps[i].0 != ps[j].0
  }

  /** With no repeated key, each key maps to its own value. */
  lemma {:induction false} ToMapAt<T>(ps: seq<(string, T)>, i: nat)
    requires UniqueKeys(ps) && i < |ps|
    ensures ps[i].0 in ToMap(ps) && ToMap(ps)[ps[i].0] == ps[i].1
  {
    if i > 0 {
      ToMapAt(ps[1..], i - 1);
      assert ps[0].0 != ps[i].0;
    }
  }

  // ---------------------------------------------------------------------
  // json.dumps(v, sort_keys=True)
  // ---------------------------------------------------------------------

  /** Every dict inside v, at any depth, names each key once. */
  predicate WellKeyed(v: Value)
  {
    match v
    case List(xs) => forall i | 0 <= i < |xs| :: WellKeyed(xs[i])
    case Object(fs) => UniqueKeys(fs) && forall i | 0 <= i < |fs| :: WellKeyed(fs[i].1)
    case _ => true
  }

  /** json.dumps can write v: a datetime anywhere inside raises TypeError. */
  predicate Dumpable(v: Value)
  {
    match v
    case Time(_) => false
    case List(xs) => forall i | 0 <= i < |xs| :: Dumpable(xs[i])
    case Object(fs) => forall i | 0 <= i < |fs| :: Dumpable(fs[i].1)
    case _ => true
  }

  /** The message of that TypeError. */
  const NotSerializable: string := "Object of type datetime is not JSON serializable"

  /** What json.dumps(v, sort_keys=True) writes, up to spelling: a dict is
    * written with its keys sorted, at every depth, so only its key-value
    * pairs matter; lists keep their order; an int, a float and a bool are
    * written differently. A datetime keeps a case of its own although it
    * has no JSON form. */
  datatype Canon =
    | CNull
    | CBool(b: bool)
    | CInt(i: int)
    | CFloat(r: real)
    | CStr(s: string)
    | CList(items: seq<Canon>)
    | CObject(fields: map<string, Canon>)
    | CTime(seconds: int)

  function Canonical(v: Value): Canon
  {
    match v
    case Null => CNull
    case Bool(b) => CBool(b)
    case Int(i) => CInt(i)
    case Float(r) => CFloat(r)
    case Str(s) => CStr(s)
    case Time(t) => CTime(t)
    case List(xs) => CList(seq(|xs|, i requires 0 <= i < |xs| => Canonical(xs[i])))
    case Object(fs) => CObject(ToMap(seq(|fs|, i requires 0 <= i < |fs| => (fs[i].0, Canonical(fs[i].1)))))
  }

  /** The key-value pairs of a dict, each value in canonical form. */
  function CanonicalPairs(fs: seq<(string, Value)>): (ps: seq<(string, Canon)>)
    ensures |ps| == |fs|
    ensures forall i | 0 <= i < |fs| :: ps[i] == (fs[i].0, Canonical(fs[i].1))
    ensures Canonical(Object(fs)) == CObject(ToMap(ps))
  {
    seq(|fs|, i requires 0 <= i < |fs| => (fs[i].0, Canonical(fs[i].1)))
  }

  /** w is v with the keys of its dicts reordered, at any depth, and nothing
    * else changed: a dict becomes a dict with the same keys, each value a
    * reordering of the old one. */
  predicate Reordered(v: Value, w: Value)
  {
    match v
    case List(xs) =>
      && w.List? && |xs| == |w.items|
      && forall i | 0 <= i < |xs| :: Reordered(xs[i], w.items[i])
    case Object(fs) =>
      && w.Object? && KeySet(fs) == KeySet(w.fields)
      && forall i, j | 0 <= i < |fs| && 0 <= j < |w.fields| && fs[i].0 == w.fields[j].0 ::
           Reordered(fs[i].1, w.fields[j].1)
    case _ => w == v
  }

  /** Two dict-shaped values have the same sorted-keys JSON exactly when
    * one is the other with its keys reordered. */
  lemma {:induction false} ReorderedIffSameCanonical(v: Value, w: Value)
    requires WellKeyed(v) && WellKeyed(w)
    ensures Reordered(v, w) <==> Canonical(v) == Canonical(w)
    decreases v
  {
    match v
    case List(xs) =>
      if w.List? {
        var ys := w.items;
        forall i | 0 <= i < |xs| && i < |ys|
          ensures Reordered(xs[i], ys[i]) <==> Canonical(xs[i]) == Canonical(ys[i])
        {
          ReorderedIffSameCanonical(xs[i], ys[i]);
        }
        ListsReordered(xs, ys);
      }
    case Object(fs) =>
      if w.Object? {
        var gs := w.fields;
        forall i, j | 0 <= i < |fs| && 0 <= j < |gs|
          ensures Reordered(fs[i].1, gs[j].1) <==> Canonical(fs[i].1) == Canonical(gs[j].1)
        {
          ReorderedIffSameCanonical(fs[i].1, gs[j].1);
        }
        DictsReordered(fs, gs);
      }
    case _ =>
  }

  /** The list step: element by element. */
  lemma ListsReordered(xs: seq<Value>, ys: seq<Value>)
    requires forall i | 0 <= i < |xs| && i < |ys| :: Reordered(xs[i], ys[i]) <==> Canonical(xs[i]) == Canonical(ys[i])
    ensures Reordered(List(xs), List(ys)) <==> Canonical(List(xs)) == Canonical(List(ys))
  {
    if Canonical(List(xs)) == Canonical(List(ys)) {
      assert |Canonical(List(xs)).items| == |xs| && |Canonical(List(ys)).items| == |ys|;
      forall i | 0 <= i < |xs| ensures Canonical(xs[i]) == Canonical(ys[i]) {
        assert Canonical(List(xs)).items[i] == Canonical(List(ys)).items[i];
      }
    }
  }

  /** The dict step: the maps agree exactly when the key sets do and the
    * values under each key agree. */
  lemma DictsReordered(fs: seq<(string, Value)>, gs: seq<(string, Value)>)
    requires UniqueKeys(fs) && UniqueKeys(gs)
    requires forall i, j | 0 <= i < |fs| && 0 <= j < |gs| ::
      Reordered(fs[i].1, gs[j].1) <==> Canonical(fs[i].1) == Canonical(gs[j].1)
    ensures Reordered(Object(fs), Object(gs)) <==> Canonical(Object(fs)) == Canonical(Object(gs))
  {
    var ps, qs := CanonicalPairs(fs), CanonicalPairs(gs);
    assert KeySet(ps) == KeySet(fs) && KeySet(qs) == KeySet(gs);
    ToMapEqual(ps, qs);
  }

  /** Two dicts give the same map exactly when they name the same keys and
    * agree on the value of each. */
  lemma ToMapEqual<T>(ps: seq<(string, T)>, qs: seq<(string, T)>)
    requires UniqueKeys(ps) && UniqueKeys(qs)
    ensures ToMap(ps) == ToMap(qs) <==>
      && KeySet(ps) == KeySet(qs)
      && forall i, j | 0 <= i < |ps| && 0 <= j < |qs| && ps[i].0 == qs[j].0 :: ps[i].1 == qs[j].1
  {
    var m, n := ToMap(ps), ToMap(qs);
    ToMapKeys(ps);
    ToMapKeys(qs);
    forall i | 0 <= i < |ps| ensures m[ps[i].0] == ps[i].1 {
      ToMapAt(ps, i);
    }
    forall j | 0 <= j < |qs| ensures n[qs[j].0] == qs[j].1 {
      ToMapAt(qs, j);
    }
    if KeySet(ps) == KeySet(qs)
       && forall i, j | 0 <= i < |ps| && 0 <= j < |qs| && ps[i].0 == qs[j].0 :: ps[i].1 == qs[j].1
    {
      forall k | k in m ensures m[k] == n[k] {
        var i :| 0 <= i < |ps| && ps[i].0 == k;
        var j :| 0 <= j < |qs| && qs[j].0 == k;
      }
      assert m == n;
    }
  }
}
