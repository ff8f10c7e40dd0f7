// The request guards the orchestrator and the webhook share in form: the
// injection screen on incoming text, the recursive removal of secret-looking
// keys from outgoing responses, and the in-memory sliding-window rate
// limiter keyed by client.
module Security {
  import opened Text
  import opened Json

  // ---------------------------------------------------------------------
  // validate_input_data
  // ---------------------------------------------------------------------

  /** A value validate_input_data lets through: anything but a string, or a
    * string no dangerous pattern matches. */
  predicate Safe(data: Value, patterns: seq<string -> bool>)
  {
    data.Str? ==> forall i | 0 <= i < |patterns| :: !patterns[i](data.s)
  }

  /** validate_input_data: a string is refused as soon as one of the
    * dangerous patterns matches it (each pattern is a case-insensitive
    * regular-expression search, given here as a predicate); every other
    * value passes. */
  method ValidateInputData(data: Value, patterns: seq<string -> bool>) returns (ok: bool)
    ensures !data.Str? ==> ok
    ensures data.Str? ==> (ok <==> forall i | 0 <= i < |patterns| :: !patterns[i](data.s))
    ensures ok == Safe(data, patterns)
  {
    if data.Str? {
      var i := 0;
      while i < |patterns|
        invariant 0 <= i <= |patterns|
        invariant forall k | 0 <= k < i :: !patterns[k](data.s)
      {
        if patterns[i](data.s) {
          return false;
        }
        i := i + 1;
      }
    }
    return true;
  }

  // ---------------------------------------------------------------------
  // sanitize_response
  // ---------------------------------------------------------------------

  /** A key sanitize_response drops: its lowercase form is a sensitive name. */
  predicate Sensitive(key: string, sensitive: set<string>)
  {
    Lower(key) in sensitive
  }

  /** The pairs of a dict whose keys are not sensitive, in their order. */
  function KeptFields(fields: Record, sensitive: set<string>): (kept: Record)
    ensures |kept| <= |fields|
    ensures forall p | p in kept :: p in fields && !Sensitive(p.0, sensitive)
    ensures forall p | p in fields && !Sensitive(p.0, sensitive) :: p in kept
  {
    if fields == [] then []
    else if Sensitive(fields[0].0, sensitive) then KeptFields(fields[1..], sensitive)
    else [fields[0]] + KeptFields(fields[1..], sensitive)
  }

  /** sanitize_recursive: dicts lose their sensitive keys and have their
    * values sanitised, lists are sanitised element by element, and every
    * other value is returned as it is. */
  function Sanitize(v: Value, sensitive: set<string>): (r: Value)
    ensures !v.Object? && !v.List? ==> r == v
    ensures v.List? ==> r.List? && |r.items| == |v.items|
    ensures v.Object? ==> r.Object? && |r.fields| == |KeptFields(v.fields, sensitive)|
    decreases v
  {
    match v
    case List(items) =>
      List(seq(|items|, i requires 0 <= i < |items| => Sanitize(items[i], sensitive)))
    case Object(fields) =>
      var kept := KeptFields(fields, sensitive);
      Object(seq(|kept|, i requires 0 <= i < |kept| => (kept[i].0, Sanitize(kept[i].1, sensitive))))
    case _ => v
  }

  /** No dict anywhere inside the value has a sensitive key. */
  predicate NoSensitiveKeys(v: Value, sensitive: set<string>)
    decreases v
  {
    match v
    case List(items) => forall i | 0 <= i < |items| :: NoSensitiveKeys(items[i], sensitive)
    case Object(fields) =>
      forall i | 0 <= i < |fields| :: !Sensitive(fields[i].0, sensitive) && NoSensitiveKeys(fields[i].1, sensitive)
    case _ => true
  }

  /** The result of sanitize_response has no sensitive key at any depth. */
  lemma {:induction false} SanitizeRemovesSensitive(v: Value, sensitive: set<string>)
    ensures NoSensitiveKeys(Sanitize(v, sensitive), sensitive)
    decreases v
  {
    match v
    case List(items) =>
      forall i | 0 <= i < |items| ensures NoSensitiveKeys(Sanitize(items[i], sensitive), sensitive) {
        SanitizeRemovesSensitive(items[i], sensitive);
      }
    case Object(fields) =>
      var kept := KeptFields(fields, sensitive);
      forall i | 0 <= i < |kept| ensures NoSensitiveKeys(Sanitize(kept[i].1, sensitive), sensitive) {
        assert kept[i] in fields;
        SanitizeRemovesSensitive(kept[i].1, sensitive);
      }
    case _ =>
  }

  lemma {:induction false} KeptFieldsClean(fields: Record, sensitive: set<string>)
    requires forall i | 0 <= i < |fields| :: !Sensitive(fields[i].0, sensitive)
    ensures KeptFields(fields, sensitive) == fields
  {
    if fields != [] {
      KeptFieldsClean(fields[1..], sensitive);
    }
  }

  /** A value with no sensitive key anywhere passes through unchanged. */
  lemma {:induction false} SanitizeKeepsClean(v: Value, sensitive: set<string>)
    requires NoSensitiveKeys(v, sensitive)
    ensures Sanitize(v, sensitive) == v
    decreases v
  {
    match v
    case List(items) =>
      forall i | 0 <= i < |items| ensures Sanitize(items[i], sensitive) == items[i] {
        SanitizeKeepsClean(items[i], sensitive);
      }
      assert Sanitize(v, sensitive).items == items;
    case Object(fields) =>
      KeptFieldsClean(fields, sensitive);
      forall i | 0 <= i < |fields| ensures Sanitize(fields[i].1, sensitive) == fields[i].1 {
        SanitizeKeepsClean(fields[i].1, sensitive);
      }
      assert Sanitize(v, sensitive).fields == fields;
    case _ =>
  }

  /** Sanitising twice is sanitising once. */
  lemma SanitizeIdempotent(v: Value, sensitive: set<string>)
    ensures Sanitize(Sanitize(v, sensitive), sensitive) == Sanitize(v, sensitive)
  {
    SanitizeRemovesSensitive(v, sensitive);
    SanitizeKeepsClean(Sanitize(v, sensitive), sensitive);
  }

  /** A key that is not sensitive survives at the top level, with its value sanitised. */
  lemma SanitizeKeepsOrdinaryKey(fields: Record, sensitive: set<string>, k: string, x: Value)
    requires (k, x) in fields && !Sensitive(k, sensitive)
    ensures (k, Sanitize(x, sensitive)) in Sanitize(Object(fields), sensitive).fields
  {
    var kept := KeptFields(fields, sensitive);
    var i :| 0 <= i < |kept| && kept[i] == (k, x);
    assert Sanitize(Object(fields), sensitive).fields[i] == (k, Sanitize(x, sensitive));
  }

  // ---------------------------------------------------------------------
  // _is_rate_limited_memory
  // ---------------------------------------------------------------------

  /** The recorded request times still inside the window: later than windowStart. */
  function Recent(times: seq<real>, windowStart: real): (r: seq<real>)
    ensures |r| <= |times|
    ensures forall t | t in r :: t in times && t > windowStart
    ensures forall t | t in times && t > windowStart :: t in r
  {
    if times == [] then []
    else (if times[0] > windowStart then [times[0]] else []) + Recent(times[1..], windowStart)
  }

  /** A client's recorded times, an unknown client having none. */
  function TimesOf(store: map<string, seq<real>>, client: string): seq<real>
  {
    if client in store then store[client] else []
  }

  /** One request of a client at time now: the window is pruned, and the
    * request is refused when the remaining count has reached the limit and
    * otherwise recorded. */
  function Admit(store: map<string, seq<real>>, client: string, now: real, window: int, maxRequests: int)
    : (bool, map<string, seq<real>>)
  {
    var kept := Recent(TimesOf(store, client), now - window as real);
    if |kept| >= maxRequests then (true, store[client := kept])
    else (false, store[client := kept + [now]])
  }

  /** Every client holds at most maxRequests times (none when the limit is not positive). */
  predicate Bounded(store: map<string, seq<real>>, maxRequests: int)
  {
    forall c | c in store :: |store[c]| <= if maxRequests < 0 then 0 else maxRequests
  }

  /** A request either is refused, leaving the client with its in-window
    * times only, or is recorded; the per-client bound is kept, every time
    * the client keeps is inside the window, and other clients are untouched. */
  lemma AdmitSpec(store: map<string, seq<real>>, client: string, now: real, window: int, maxRequests: int)
    requires Bounded(store, maxRequests)
    ensures var (limited, store') := Admit(store, client, now, window, maxRequests);
      && store'.Keys == store.Keys + {client}
      && (forall c | c in store && c != client :: store'[c] == store[c])
      && (limited <==> |Recent(TimesOf(store, client), now - window as real)| >= maxRequests)
      && (!limited ==> |store'[client]| == |Recent(TimesOf(store, client), now - window as real)| + 1
                       && store'[client][|store'[client]| - 1] == now)
      && (forall t | t in store'[client] && t != now :: t > now - window as real)
      && Bounded(store', maxRequests)
  {
  }

  /** The limiter's store of request times per client. */
  class SlidingWindowLimiter {
    const window: int
    const maxRequests: int
    var store: map<string, seq<real>>

    predicate Valid()
      reads this
    {
      Bounded(store, maxRequests)
    }

    constructor(window: int, maxRequests: int)
      ensures this.window == window && this.maxRequests == maxRequests && store == map[] && Valid()
    {
      this.window := window;
      this.maxRequests := maxRequests;
      store := map[];
    }

    /** _is_rate_limited_memory at time now. */
    method IsRateLimited(client: string, now: real) returns (limited: bool)
      requires Valid()
      modifies this
      ensures Valid()
      ensures (limited, store) == Admit(old(store), client, now, window, maxRequests)
    {
      AdmitSpec(store, client, now, window, maxRequests);
      var kept := Recent(TimesOf(store, client), now - window as real);
      store := store[client := kept];
      if |kept| >= maxRequests {
        return true;
      }
      store := store[client := store[client] + [now]];
      assert store == old(store)[client := kept + [now]];
      limited := false;
    }
  }

  /** With a limit of two, three requests of one client inside one window:
    * the first two pass and the third is refused. */
  lemma ThirdRequestRefused(client: string, t1: real, t2: real, t3: real, window: int)
    requires t1 <= t2 <= t3 && t3 - t1 < window as real
    ensures var (l1, s1) := Admit(map[], client, t1, window, 2);
            var (l2, s2) := Admit(s1, client, t2, window, 2);
            var (l3, _) := Admit(s2, client, t3, window, 2);
            !l1 && !l2 && l3
  {
    var (l1, s1) := Admit(map[], client, t1, window, 2);
    assert s1[client] == [t1];
    var (l2, s2) := Admit(s1, client, t2, window, 2);
    assert Recent([t1], t2 - window as real) == [t1];
    assert s2[client] == [t1, t2];
    assert Recent([t1, t2], t3 - window as real) == [t1, t2] by {
      assert Recent([t2], t3 - window as real) == [t2];
    }
  }
}
