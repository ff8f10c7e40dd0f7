// Helpers shared by the scrapers: JSON-schema checking of scraped dicts,
// a one-token bucket that paces calls to a site, and the fetch loop that
// retries with exponential backoff.
module Utils {
  import opened Wrappers
  import opened Text
  import opened Json

  // ---------------------------------------------------------------------
  // validate_json_schema
  // ---------------------------------------------------------------------

  /** One error of validate_json_schema; Message renders it as the source does. */
  datatype SchemaError =
    | Expected(field: string, expected: string, got: string)   // "{f}: Expected {t}, got {type}"
    | RequiredMissing(field: string)                          // "{f}: Required field is missing or null"
    | TooShort(field: string, bound: Value)                   // "{f}: String too short (min {n} chars)"
    | TooLong(field: string, bound: Value)                    // "{f}: String too long (max {n} chars)"

  /** The TypeError raised when a string length is compared with a bound
    * that is not a number; it aborts the whole validation. */
  datatype Uncomparable = Uncomparable(op: string, boundType: string)

  type Checked = Result<seq<SchemaError>, Uncomparable>

  /** The type tags the validator knows. */
  predicate IsTypeTag(t: string)
  {
    t == "array" || t == "object" || t == "string" || t == "number" || t == "boolean"
  }

  /** isinstance(v, T) for the Python type the tag names; number accepts
    * int and float, and so bool, which is a subclass of int. */
  predicate HasType(v: Value, tag: string)
  {
    if tag == "array" then v.List?
    else if tag == "object" then v.Object?
    else if tag == "string" then v.Str?
    else if tag == "number" then v.Int? || v.Float? || v.Bool?
    else if tag == "boolean" then v.Bool?
    else true
  }

  /** The "Expected ..." error of a field schema, if any. */
  function TypeErrors(name: string, v: Value, sch: Record): (es: seq<SchemaError>)
  {
    match Get(sch, "type")
    case Some(Str(t)) =>
      if IsTypeTag(t) && !HasType(v, t) then [Expected(name, t, TypeName(v))] else []
    case _ => []
  }

  /** Python's `n < bound` (less) or `n > bound` (!less) for a string length n. */
  function CompareLength(n: nat, less: bool, bound: Value): Result<bool, Uncomparable>
  {
    match bound
    case Int(i) => Success(if less then n < i else n > i)
    case Bool(b) =>
      var k := if b then 1 else 0;
      Success(if less then n < k else n > k)
    case Float(r) => Success(if less then (n as real) < r else (n as real) > r)
    case _ => Failure(Uncomparable(if less then "<" else ">", TypeName(bound)))
  }

  /** The min_length / max_length check of a field schema. */
  function LengthErrors(name: string, v: Value, sch: Record, key: string, less: bool): Checked
  {
    match Get(sch, key)
    case Some(bound) =>
      if !v.Str? then Success([])
      else
        (match CompareLength(|v.s|, less, bound)
         case Failure(e) => Failure(e)
         case Success(bad) =>
           Success(if !bad then [] else if less then [TooShort(name, bound)] else [TooLong(name, bound)]))
    case None => Success([])
  }

  /** Runs two validation steps in order: the first TypeError ends the run. */
  function Then(a: Checked, b: Checked): (r: Checked)
    ensures r.Success? <==> a.Success? && b.Success?
    ensures r.Success? ==> r.value == a.value + b.value
  {
    if a.Failure? then a
    else if b.Failure? then b
    else Success(a.value + b.value)
  }

  /** The checks of a dict-valued field schema, in the order the source makes them. */
  function DictErrors(name: string, v: Value, sch: Record): Checked
  {
    var required := if HasTruthy(sch, "required") && v == Null then [RequiredMissing(name)] else [];
    Then(Success(TypeErrors(name, v, sch) + required),
         Then(LengthErrors(name, v, sch, "min_length", true),
              LengthErrors(name, v, sch, "max_length", false)))
  }

  /** The name validate_field gives to item i of a list field. */
  function ItemName(name: string, i: nat): string
  {
    name + "[" + NatToString(i) + "]"
  }

  /** validate_field(name, v, sch): a dict schema checks v itself, a list of
    * schemas checks every item of a list value against every schema in it,
    * and any other schema checks nothing. */
  function FieldErrors(name: string, v: Value, sch: Value): Checked
    decreases sch, 2
  {
    match sch
    case Object(fields) => DictErrors(name, v, fields)
    case List(schemas) =>
      if v.List? then ItemsErrors(name, v.items, schemas, 0) else Success([])
    case _ => Success([])
  }

  /** Items i.. of a list value, each against every schema of the list. */
  function ItemsErrors(name: string, items: seq<Value>, schemas: seq<Value>, i: nat): Checked
    decreases schemas, 1, |items| - i
  {
    if i >= |items| then Success([])
    else Then(SchemasErrors(ItemName(name, i), items[i], schemas, 0), ItemsErrors(name, items, schemas, i + 1))
  }

  /** One item against schemas j.. of the list. */
  function SchemasErrors(name: string, item: Value, schemas: seq<Value>, j: nat): Checked
    decreases schemas, 0, |schemas| - j
  {
    if j >= |schemas| then Success([])
    else Then(FieldErrors(name, item, schemas[j]), SchemasErrors(name, item, schemas, j + 1))
  }

  /** data.get(name): a missing field is None. */
  function FieldValue(data: Record, name: string): Value
  {
    match Get(data, name)
    case Some(v) => v
    case None => Null
  }

  /** The errors of the first fields of the schema, in schema order. */
  function SchemaSpec(data: Record, schema: Record): Checked
  {
    if schema == [] then Success([])
    else
      var last := schema[|schema| - 1];
      Then(SchemaSpec(data, schema[..|schema| - 1]), FieldErrors(last.0, FieldValue(data, last.0), last.1))
  }

  /** validate_json_schema: visits the schema's fields in order and collects
    * their errors; a comparison TypeError propagates to the caller. */
  method ValidateJsonSchema(data: Record, schema: Record) returns (r: Checked)
    ensures r == SchemaSpec(data, schema)
    ensures schema == [] ==> r == Success([])
  {
    var errors: seq<SchemaError> := [];
    var i := 0;
    while i < |schema|
      invariant 0 <= i <= |schema|
      invariant SchemaSpec(data, schema[..i]) == Success(errors)
    {
      var (name, sch) := schema[i];
      var fr := FieldErrors(name, FieldValue(data, name), sch);
      assert schema[..i + 1][..i] == schema[..i];
      if fr.Failure? {
        SchemaSpecFailurePersists(data, schema, i + 1);
        return Failure(fr.error);
      }
      errors := errors + fr.value;
      i := i + 1;
    }
    assert schema[..i] == schema;
    return Success(errors);
  }

  /** Once a field raises, the validation of any longer schema raises the same error. */
  lemma {:induction false} SchemaSpecFailurePersists(data: Record, schema: Record, n: nat)
    requires n <= |schema|
    requires SchemaSpec(data, schema[..n]).Failure?
    ensures SchemaSpec(data, schema) == SchemaSpec(data, schema[..n])
    decreases |schema| - n
  {
    if n < |schema| {
      assert schema[..n + 1][..n] == schema[..n];
      SchemaSpecFailurePersists(data, schema, n + 1);
    } else {
      assert schema[..n] == schema;
    }
  }

  /** "True"/"False" for a bool, the decimal digits of an int, and the
    * given rendering for a float: str() of a numeric bound. */
  function NumberText(v: Value, floatText: real -> string): string
  {
    match v
    case Int(i) => IntToString(i)
    case Bool(b) => if b then "True" else "False"
    case Float(r) => floatText(r)
    case _ => TypeName(v)
  }

  /** The text of an error, always prefixed with its field name. */
  function Message(e: SchemaError, floatText: real -> string): (m: string)
    ensures StartsWith(m, e.field + ": ")
  {
    var prefix := e.field + ": ";
    var m := prefix + match e
      case Expected(_, t, got) => "Expected " + t + ", got " + got
      case RequiredMissing(_) => "Required field is missing or null"
      case TooShort(_, n) => "String too short (min " + NumberText(n, floatText) + " chars)"
      case TooLong(_, n) => "String too long (max " + NumberText(n, floatText) + " chars)";
    assert m[..|prefix|] == prefix;
    m
  }

  /** A field schema with a known type tag reports exactly one "Expected"
    * error when the value has the wrong Python type, and none otherwise. */
  /** The "Expected ..." errors among es, in order. */
  function TypeMismatches(es: seq<SchemaError>): (r: seq<SchemaError>)
    ensures forall e | e in r :: e in es && e.Expected?
  {
    if es == [] then []
    else (if es[0].Expected? then [es[0]] else []) + TypeMismatches(es[1..])
  }

  lemma {:induction false} TypeMismatchesAppend(a: seq<SchemaError>, b: seq<SchemaError>)
    ensures TypeMismatches(a + b) == TypeMismatches(a) + TypeMismatches(b)
  {
    if a != [] {
      assert (a + b)[1..] == a[1..] + b;
      TypeMismatchesAppend(a[1..], b);
    } else {
      assert a + b == b;
    }
  }

  lemma {:induction false} NoTypeMismatches(es: seq<SchemaError>)
    requires forall e | e in es :: !e.Expected?
    ensures TypeMismatches(es) == []
  {
    if es != [] {
      NoTypeMismatches(es[1..]);
    }
  }

  /** A dict schema whose type is a known tag reports exactly one "Expected"
    * error, naming the value's Python type, when the value has the wrong
    * type, and none when it has the right one. */
  lemma TypeMismatchSpec(name: string, v: Value, sch: Record, t: string)
    requires Get(sch, "type") == Some(Str(t)) && IsTypeTag(t)
    ensures FieldErrors(name, v, Object(sch)).Success?
            ==> TypeMismatches(FieldErrors(name, v, Object(sch)).value)
                == if HasType(v, t) then [] else [Expected(name, t, TypeName(v))]
  {
    assert FieldErrors(name, v, Object(sch)) == DictErrors(name, v, sch);
    if DictErrors(name, v, sch).Success? {
      var te := TypeErrors(name, v, sch);
      var rest := DictErrorsSplit(name, v, sch);
      TypeMismatchesAppend(te, rest);
      NoTypeMismatches(rest);
      TypeErrorsOf(name, v, sch, t);
      assert TypeMismatches(te) == te by {
        if te != [] {
          assert te[1..] == [];
        }
      }
    }
  }

  /** The type check of a known tag reports the value's Python type iff it is wrong. */
  lemma TypeErrorsOf(name: string, v: Value, sch: Record, t: string)
    requires Get(sch, "type") == Some(Str(t)) && IsTypeTag(t)
    ensures TypeErrors(name, v, sch) == if HasType(v, t) then [] else [Expected(name, t, TypeName(v))]
  {
  }

  /** A dict schema's errors are its type error followed by errors of other kinds. */
  lemma DictErrorsSplit(name: string, v: Value, sch: Record) returns (rest: seq<SchemaError>)
    requires DictErrors(name, v, sch).Success?
    ensures DictErrors(name, v, sch).value == TypeErrors(name, v, sch) + rest
    ensures forall e | e in rest :: !e.Expected?
  {
    var l1 := LengthErrors(name, v, sch, "min_length", true);
    var l2 := LengthErrors(name, v, sch, "max_length", false);
    var req := if HasTruthy(sch, "required") && v == Null then [RequiredMissing(name)] else [];
    rest := req + (l1.value + l2.value);
  }

  /** A missing field under a typed, required dict schema gets two errors:
    * the wrong-type error naming NoneType, then the missing-field error. */
  lemma MissingRequiredTwoErrors(name: string, sch: Record, t: string)
    requires Get(sch, "type") == Some(Str(t)) && IsTypeTag(t)
    requires HasTruthy(sch, "required")
    ensures FieldErrors(name, Null, Object(sch)) == Success([Expected(name, t, "NoneType"), RequiredMissing(name)])
  {
    assert !HasType(Null, t);
    assert TypeErrors(name, Null, sch) == [Expected(name, t, "NoneType")];
    assert LengthErrors(name, Null, sch, "min_length", true) == Success([]);
    assert LengthErrors(name, Null, sch, "max_length", false) == Success([]);
    assert DictErrors(name, Null, sch) == Success([Expected(name, t, "NoneType")] + [RequiredMissing(name)] + []);
    assert [Expected(name, t, "NoneType")] + [RequiredMissing(name)] + [] == [Expected(name, t, "NoneType"), RequiredMissing(name)];
    assert FieldErrors(name, Null, Object(sch)) == DictErrors(name, Null, sch);
  }

  /** Length bounds apply only to strings: for any other value they neither
    * report an error nor raise. */
  lemma LengthOnlyOnStrings(name: string, v: Value, sch: Record)
    requires !v.Str?
    ensures FieldErrors(name, v, Object(sch)).Success?
    ensures forall e | e in FieldErrors(name, v, Object(sch)).value :: !e.TooShort? && !e.TooLong?
  {
  }

  /** A string of length n under min_length m (an int) is too short iff n < m. */
  lemma MinLengthSpec(name: string, s: string, sch: Record, m: int)
    requires Get(sch, "min_length") == Some(Int(m))
    requires Get(sch, "max_length") == None
    ensures FieldErrors(name, Str(s), Object(sch)).Success?
    ensures TooShort(name, Int(m)) in FieldErrors(name, Str(s), Object(sch)).value <==> |s| < m
  {
    var l1 := LengthErrors(name, Str(s), sch, "min_length", true);
    assert l1 == Success(if |s| < m then [TooShort(name, Int(m))] else []);
    assert LengthErrors(name, Str(s), sch, "max_length", false) == Success([]);
    var req := if HasTruthy(sch, "required") && Str(s) == Null then [RequiredMissing(name)] else [];
    assert forall e | e in TypeErrors(name, Str(s), sch) + req :: !e.TooShort?;
  }

  /** A list of schemas checks nothing when the value is not a list. */
  lemma NonListUnderListSchema(name: string, v: Value, schemas: seq<Value>)
    requires !v.List?
    ensures FieldErrors(name, v, List(schemas)) == Success([])
  {
  }

  /** Every error of a field is named after the field itself or, for list
    * items, after the field followed by an index in brackets. */
  lemma {:induction false} FieldErrorsNamed(name: string, v: Value, sch: Value)
    ensures FieldErrors(name, v, sch).Success?
            ==> forall e | e in FieldErrors(name, v, sch).value :: e.field == name || StartsWith(e.field, name + "[")
    decreases sch, 2
  {
    match sch
    case Object(fields) =>
      DictErrorsNamed(name, v, fields);
    case List(schemas) =>
      if v.List? {
        ItemsErrorsNamed(name, v.items, schemas, 0);
      }
    case _ =>
  }

  /** The checks of a dict schema name only the field itself. */
  lemma DictErrorsNamed(name: string, v: Value, sch: Record)
    ensures DictErrors(name, v, sch).Success? ==> forall e | e in DictErrors(name, v, sch).value :: e.field == name
  {
    var a := LengthErrors(name, v, sch, "min_length", true);
    var b := LengthErrors(name, v, sch, "max_length", false);
    assert a.Success? ==> forall e | e in a.value :: e.field == name;
    assert b.Success? ==> forall e | e in b.value :: e.field == name;
    assert forall e | e in TypeErrors(name, v, sch) :: e.field == name;
  }

  lemma {:induction false} ItemsErrorsNamed(name: string, items: seq<Value>, schemas: seq<Value>, i: nat)
    ensures ItemsErrors(name, items, schemas, i).Success?
            ==> forall e | e in ItemsErrors(name, items, schemas, i).value :: StartsWith(e.field, name + "[")
    decreases schemas, 1, |items| - i
  {
    if i < |items| {
      var n := ItemName(name, i);
      assert n == (name + "[") + (NatToString(i) + "]");
      SchemasErrorsNamed(n, items[i], schemas, 0);
      ItemsErrorsNamed(name, items, schemas, i + 1);
      forall f: string | StartsWith(f, n) ensures StartsWith(f, name + "[") {
        assert f[..|name + "["|] == n[..|name + "["|];
      }
    }
  }

  lemma {:induction false} SchemasErrorsNamed(name: string, item: Value, schemas: seq<Value>, j: nat)
    ensures SchemasErrors(name, item, schemas, j).Success?
            ==> forall e | e in SchemasErrors(name, item, schemas, j).value :: e.field == name || StartsWith(e.field, name + "[")
    decreases schemas, 0, |schemas| - j
  {
    if j < |schemas| {
      FieldErrorsNamed(name, item, schemas[j]);
      SchemasErrorsNamed(name, item, schemas, j + 1);
    }
  }

  /** Every error of a validation names one of the schema's fields, or an item of one. */
  lemma {:induction false} SchemaErrorsNamed(data: Record, schema: Record)
    ensures SchemaSpec(data, schema).Success?
            ==> forall e | e in SchemaSpec(data, schema).value ::
                  exists i | 0 <= i < |schema| :: e.field == schema[i].0 || StartsWith(e.field, schema[i].0 + "[")
  {
    if schema != [] {
      var n := |schema| - 1;
      var init := schema[..n];
      var last := schema[n];
      var a := SchemaSpec(data, init);
      var b := FieldErrors(last.0, FieldValue(data, last.0), last.1);
      assert SchemaSpec(data, schema) == Then(a, b);
      SchemaErrorsNamed(data, init);
      FieldErrorsNamed(last.0, FieldValue(data, last.0), last.1);
      if a.Success? && b.Success? {
        forall e | e in a.value + b.value
          ensures exists i | 0 <= i < |schema| :: e.field == schema[i].0 || StartsWith(e.field, schema[i].0 + "[")
        {
          if e in a.value {
            var i :| 0 <= i < |init| && (e.field == init[i].0 || StartsWith(e.field, init[i].0 + "["));
            assert init[i] == schema[i];
          } else {
            assert e.field == schema[n].0 || StartsWith(e.field, schema[n].0 + "[");
          }
        }
      }
    }
  }

  // ---------------------------------------------------------------------
  // RateLimiter
  // ---------------------------------------------------------------------

  /** The state a call to acquire leaves and the time it waits. */
  datatype Grant = Grant(sleep: real, tokens: real, lastUpdate: real)

  function Min(a: real, b: real): real
  {
    if a <= b then a else b
  }

  /** acquire() as written: refill by the elapsed time, stamp the call time,
    * wait for the missing fraction of a token, then spend the token. */
  function AcquireStep(rate: real, tokens: real, lastUpdate: real, now: real): Grant
    requires rate > 0.0
  {
    var refilled := Min(1.0, tokens + (now - lastUpdate) * rate);
    if refilled < 1.0 then Grant((1.0 - refilled) / rate, 0.0, now)
    else Grant(0.0, refilled - 1.0, now)
  }

  /** The bucket holds between zero tokens and one. */
  predicate BucketInvariant(tokens: real)
  {
    0.0 <= tokens <= 1.0
  }

  /** On a clock that does not go back, acquire always spends the whole
    * bucket, waits only when less than a token has refilled, and then for
    * the missing fraction of a token's period, which is in (0, 1/rate]. */
  lemma AcquireSpec(rate: real, tokens: real, lastUpdate: real, now: real)
    requires rate > 0.0 && BucketInvariant(tokens) && lastUpdate <= now
    ensures var g := AcquireStep(rate, tokens, lastUpdate, now);
      && g.tokens == 0.0 && g.lastUpdate == now
      && var refilled := Min(1.0, tokens + (now - lastUpdate) * rate);
      && (g.sleep > 0.0 <==> refilled < 1.0)
      && g.sleep == (1.0 - refilled) / rate
      && 0.0 <= g.sleep <= 1.0 / rate
  {
    MulNonNegative(now - lastUpdate, rate);
    RefillBounds(tokens, (now - lastUpdate) * rate);
    var refilled := Min(1.0, tokens + (now - lastUpdate) * rate);
    DivSign(1.0 - refilled, rate);
    if refilled < 1.0 {
      DivMonotone(1.0 - refilled, 1.0, rate);
    }
  }

  /** A bucket refilled by a non-negative amount and capped at one token stays in [0, 1]. */
  lemma RefillBounds(tokens: real, gained: real)
    requires BucketInvariant(tokens) && 0.0 <= gained
    ensures BucketInvariant(Min(1.0, tokens + gained))
  {
  }

  /** Dividing by a positive number keeps the sign. */
  lemma DivSign(a: real, d: real)
    requires 0.0 < d
    ensures a / d > 0.0 <==> a > 0.0
    ensures a / d == 0.0 <==> a == 0.0
  {
    assert a / d * d == a;
  }

  lemma MulNonNegative(a: real, b: real)
    requires 0.0 <= a && 0.0 <= b
    ensures 0.0 <= a * b
  {
  }

  lemma DivMonotone(a: real, b: real, d: real)
    requires 0.0 < d && a <= b
    ensures a / d <= b / d
  {
    assert a / d * d == a && b / d * d == b;
  }

  /** asyncio's token bucket of the scrapers: one token, refilled at `rate` tokens a second. */
  class RateLimiter {
    const rate: real
    var tokens: real
    var lastUpdate: real

    predicate Valid()
      reads this
    {
      rate > 0.0 && BucketInvariant(tokens)
    }

    constructor(requestsPerSecond: real, now: real)
      requires requestsPerSecond > 0.0
      ensures Valid()
      ensures rate == requestsPerSecond && tokens == 1.0 && lastUpdate == now
    {
      rate := requestsPerSecond;
      tokens := 1.0;
      lastUpdate := now;
    }

    /** acquire(): returns how long the caller waits before its request. The
      * bucket is stamped when the token is granted, after the wait (see
      * AcquireAsWrittenDoubleGrant for the stamp the source takes). Calls
      * are serialised by the lock, so a call's clock reading is never
      * earlier than the previous grant. */
    method Acquire(now: real) returns (sleep: real)
      requires Valid() && lastUpdate <= now
      modifies this
      ensures Valid()
      ensures Grant(sleep, tokens, lastUpdate) == AcquireSpaced(rate, old(tokens), old(lastUpdate), now)
    {
      var timePassed := now - lastUpdate;
      tokens := Min(1.0, tokens + timePassed * rate);
      sleep := 0.0;
      if tokens < 1.0 {
        sleep := (1.0 - tokens) / rate;
        tokens := 1.0;
      }
      lastUpdate := now + sleep;
      tokens := tokens - 1.0;
      AcquireSpec(rate, old(tokens), old(lastUpdate), now);
    }
  }

  /** acquire() as written stamps the call time, not the end of the wait:
    * at one request a second, a caller arriving with an empty bucket at 0
    * is let through at 1, and a caller arriving at 1 is let through at 1
    * as well, two requests in the same instant. */
  lemma AcquireAsWrittenDoubleGrant()
    ensures var g1 := AcquireStep(1.0, 0.0, 0.0, 0.0);
      && 0.0 + g1.sleep == 1.0
      && var g2 := AcquireStep(1.0, g1.tokens, g1.lastUpdate, 1.0);
      && 1.0 + g2.sleep == 1.0
  {
  }

  /** acquire() with the bucket stamped when the token is actually granted:
    * the same wait and the same bucket as written, only the stamp moves to
    * the end of the wait. */
  function AcquireSpaced(rate: real, tokens: real, lastUpdate: real, now: real): (g: Grant)
    requires rate > 0.0
    ensures g.lastUpdate == now + g.sleep
    ensures g.sleep == AcquireStep(rate, tokens, lastUpdate, now).sleep
    ensures g.tokens == AcquireStep(rate, tokens, lastUpdate, now).tokens
  {
    var refilled := Min(1.0, tokens + (now - lastUpdate) * rate);
    if refilled < 1.0 then Grant((1.0 - refilled) / rate, 0.0, now + (1.0 - refilled) / rate)
    else Grant(0.0, refilled - 1.0, now)
  }

  /** With the corrected stamp, after a grant at time g that emptied the
    * bucket, the next grant comes at least one period 1/rate later. */
  lemma AcquireSpacedSpacing(rate: real, granted: real, now: real)
    requires rate > 0.0 && granted <= now
    ensures var g := AcquireSpaced(rate, 0.0, granted, now);
      now + g.sleep >= granted + 1.0 / rate && g.tokens == 0.0
  {
    var refilled := Min(1.0, (now - granted) * rate);
    if refilled < 1.0 {
      assert (1.0 - refilled) / rate == 1.0 / rate - (now - granted) by {
        assert (now - granted) * rate / rate == now - granted;
      }
    } else {
      assert (now - granted) * rate >= 1.0;
      assert now - granted >= 1.0 / rate by {
        DivMonotone(1.0, (now - granted) * rate, rate);
        assert (now - granted) * rate / rate == now - granted;
      }
    }
  }

  // ---------------------------------------------------------------------
  // fetch_with_retry
  // ---------------------------------------------------------------------

  /** What one GET of the page gave: a response, or an exception. */
  datatype Attempt = Response(status: int, body: string) | Raised

  predicate IsOk(a: Attempt)
  {
    a.Response? && a.status == 200
  }

  function Pow2(k: nat): (p: nat)
    ensures p >= 1
  {
    if k == 0 then 1 else 2 * Pow2(k - 1)
  }

  /** The wait after (or before) attempt k of an exponential backoff. */
  function BackoffWait(delay: real, k: nat): real
  {
    delay * (Pow2(k) as real)
  }

  /** The waits between k failed attempts: delay, 2*delay, 4*delay, ... */
  function Backoff(delay: real, k: nat): (ws: seq<real>)
    ensures |ws| == k
    ensures forall j | 0 <= j < k :: ws[j] == BackoffWait(delay, j)
  {
    if k == 0 then [] else Backoff(delay, k - 1) + [BackoffWait(delay, k - 1)]
  }

  /** fetch_with_retry: up to maxRetries GETs; the first 200 response's body
    * is returned, every failure but the last waits delay*2^attempt, and
    * None is returned once all attempts have failed. The responses are the
    * outcomes of the successive GETs. */
  method FetchWithRetry(maxRetries: int, delay: real, responses: nat -> Attempt)
    returns (body: Option<string>, attempts: nat, waits: seq<real>)
    ensures attempts <= if maxRetries < 0 then 0 else maxRetries
    ensures forall j | 0 <= j < attempts - 1 :: !IsOk(responses(j))
    ensures body.Some? <==> attempts > 0 && IsOk(responses(attempts - 1))
    ensures body.Some? ==> body.value == responses(attempts - 1).body
    ensures body.None? ==> attempts == (if maxRetries < 0 then 0 else maxRetries)
    ensures waits == Backoff(delay, if attempts == 0 then 0 else attempts - 1)
  {
    attempts := 0;
    waits := [];
    while attempts < maxRetries
      invariant attempts <= if maxRetries < 0 then 0 else maxRetries
      invariant attempts == 0 || attempts < maxRetries
      invariant forall j | 0 <= j < attempts :: !IsOk(responses(j))
      invariant waits == Backoff(delay, attempts)
      decreases maxRetries - attempts
    {
      var a := responses(attempts);
      attempts := attempts + 1;
      if IsOk(a) {
        return Some(a.body), attempts, waits;
      }
      if attempts == maxRetries {
        return None, attempts, waits;
      }
      waits := waits + [BackoffWait(delay, attempts - 1)];
    }
    return None, attempts, waits;
  }
}
