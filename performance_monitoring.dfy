// The service performance monitor: a bounded per-service history of
// measurements, the error rate, availability and throughput derived from it,
// the threshold alerts with their severities, and the response-time trend
// of the report.  HTTP probes, system probes, the clock, threads and report
// files are outside; their results arrive as parameters.
module PerformanceMonitoring {
  import opened Wrappers
  import opened Text
  import opened Json

  /** The services the monitor watches. */
  const Services: set<string> := {"webhook", "orchestrator", "tramites", "pqrsd", "programas", "notificaciones"}

  /** Minute-by-minute entries kept per service: one day. */
  const HistoryLimit: nat := 1440

  /** One health probe of a service: the status code is 0 when the request
    * itself failed. */
  datatype Health = Health(timestamp: string, responseTime: real, statusCode: int, cpuUsage: real, memoryUsage: real)

  /** is_healthy: the probe answered 200. */
  predicate IsHealthy(h: Health)
  {
    h.statusCode == 200
  }

  datatype Derived = Derived(errorRate: real, throughput: real, availability: real)

  /** One recorded measurement (PerformanceMetrics). */
  datatype Metrics = Metrics(
    timestamp: string, service: string, responseTime: real, statusCode: int,
    cpuUsage: real, memoryUsage: real, errorRate: real, throughput: real, availability: real)

  function Min(a: int, b: int): int
  {
    if a <= b then a else b
  }

  /** Python's s[-n:] for n > 0: the last n entries, or all of them. */
  function Last<T>(s: seq<T>, n: nat): (r: seq<T>)
    ensures |r| == Min(|s|, n)
    ensures r == s[|s| - |r|..]
  {
    s[|s| - Min(|s|, n)..]
  }

  // ---------------------------------------------------------------------
  // The bounded history (deque(maxlen=1440))
  // ---------------------------------------------------------------------

  /** deque.append with a maximum length: the oldest entries fall out. */
  function BoundedAppend<T>(h: seq<T>, x: T, cap: nat): (r: seq<T>)
    requires cap > 0
    ensures |r| == Min(|h| + 1, cap)
    ensures r == (h + [x])[|h| + 1 - |r|..]
    ensures r[|r| - 1] == x
  {
    var h' := h + [x];
    if |h'| > cap then h'[|h'| - cap..] else h'
  }

  /** Appending keeps every entry but the evicted oldest ones, in order. */
  lemma BoundedAppendKeepsRecent<T>(h: seq<T>, x: T, cap: nat)
    requires 0 < cap && |h| <= cap
    ensures |h| < cap ==> BoundedAppend(h, x, cap) == h + [x]
    ensures |h| == cap ==> BoundedAppend(h, x, cap) == h[1..] + [x]
  {
    if |h| == cap {
      assert (h + [x])[1..] == h[1..] + [x];
    }
  }

  // ---------------------------------------------------------------------
  // calculate_derived_metrics
  // ---------------------------------------------------------------------

  /** The metrics derived from an empty history: everything follows the current probe. */
  function FirstDerived(current: Health): Derived
  {
    Derived(if IsHealthy(current) then 0.0 else 100.0, 1.0, if IsHealthy(current) then 100.0 else 0.0)
  }

  /** The availability formula as written: (3600 - failures) / min(len, 3600) * 100. */
  function AvailabilityAsWritten(failures: nat, len: nat): real
    requires len > 0
  {
    (3600 - failures) as real / Min(len, 3600) as real * 100.0
  }

  /** As written, availability exceeds 100 % for every history the monitor
    * can hold, whatever the failures: it is at least 150 %. */
  lemma AvailabilityAboveHundred(failures: nat, len: nat)
    requires 0 < len <= HistoryLimit && failures <= len
    ensures AvailabilityAsWritten(failures, len) >= 150.0
  {
    var a := (3600 - failures) as real;
    var b := len as real;
    assert Min(len, 3600) == len;
    assert a >= 2160.0 && b <= 1440.0;
    assert a / b >= 1.5 by {
      assert a >= 1.5 * b;
    }
  }

  /** A part of a positive whole is a share between nothing and all of it. */
  lemma Share(f: real, n: real)
    requires 0.0 <= f <= n && 0.0 < n
    ensures 0.0 <= f / n <= 1.0
    ensures f / n == 0.0 <==> f == 0.0
    ensures f / n == 1.0 <==> f == n
  {
    assert f / n * n == f;
    assert 0.0 / n == 0.0 && n / n == 1.0;
    ShareMonotone(0.0, f, n);
    ShareMonotone(f, n, n);
  }

  lemma ShareMonotone(a: real, b: real, n: real)
    requires 0.0 < n && a <= b
    ensures a / n <= b / n
  {
    assert a / n * n == a && b / n * n == b;
  }

  /** Availability as the share of healthy probes in the window, in percent. */
  function Availability(failures: nat, len: nat): (r: real)
    requires len > 0 && failures <= Min(len, 3600)
    ensures 0.0 <= r <= 100.0
    ensures r == 100.0 <==> failures == 0
    ensures r == 0.0 <==> failures == Min(len, 3600)
  {
    var w := Min(len, 3600) as real;
    Share(w - failures as real, w);
    (w - failures as real) / w * 100.0
  }

  /** The number of recorded probes that did not answer 200. */
  function Failures(ms: seq<Metrics>): (n: nat)
    ensures n <= |ms|
  {
    if ms == [] then 0 else (if ms[|ms| - 1].statusCode != 200 then 1 else 0) + Failures(ms[..|ms| - 1])
  }

  /** calculate_derived_metrics with each recorded probe's health read from
    * its status code: error rate over the last 300 entries, availability
    * over the last 3600, throughput the number of entries among the last 60. */
  function DerivedMetrics(history: seq<Metrics>, current: Health): Derived
  {
    if history == [] then FirstDerived(current)
    else
      var recent := Last(history, 300);
      var hourly := Last(history, 3600);
      Derived(Failures(recent) as real / |recent| as real * 100.0,
              Min(|history|, 60) as real,
              Availability(Failures(hourly), |history|))
  }

  /** The derived rates are percentages, the throughput counts at most the
    * last sixty entries, and an empty history follows the current probe. */
  lemma DerivedMetricsBounds(history: seq<Metrics>, current: Health)
    ensures var d := DerivedMetrics(history, current);
      && 0.0 <= d.errorRate <= 100.0
      && 0.0 <= d.availability <= 100.0
      && 0.0 <= d.throughput <= 60.0
      && (history == [] ==> d == FirstDerived(current))
      && (history != [] ==> (d.errorRate == 0.0 <==> Failures(Last(history, 300)) == 0))
      && (history != [] ==> d.throughput == Min(|history|, 60) as real)
  {
    if history != [] {
      var recent := Last(history, 300);
      Share(Failures(recent) as real, |recent| as real);
    }
  }

  /** A measurement as record_metrics stores it: asdict(PerformanceMetrics).
    * Python keeps throughput as the int len(...) for a non-empty history,
    * although the field is annotated float; it is stored here as a float,
    * and no contract reads its type. */
  function AsDict(m: Metrics): Record
  {
    [("timestamp", Str(m.timestamp)), ("service", Str(m.service)), ("response_time", Float(m.responseTime)),
     ("status_code", Int(m.statusCode)), ("cpu_usage", Float(m.cpuUsage)), ("memory_usage", Float(m.memoryUsage)),
     ("error_rate", Float(m.errorRate)), ("throughput", Float(m.throughput)), ("availability", Float(m.availability))]
  }

  /** Every entry lists the key. */
  predicate AllHave(rs: seq<Record>, k: string)
  {
    forall i | 0 <= i < |rs| :: HasKey(rs[i], k)
  }

  /** The entries whose health flag is falsy. */
  function FalsyHealth(rs: seq<Record>): nat
    requires AllHave(rs, "is_healthy")
  {
    if rs == [] then 0
    else (if Truthy(Get(rs[0], "is_healthy").value) then 0 else 1) + FalsyHealth(rs[1..])
  }

  /** calculate_derived_metrics as written, over the stored dicts: it reads
    * each entry's "is_healthy", which raises a KeyError for an entry without
    * one, and uses the availability formula as written. */
  function DerivedAsWritten(history: seq<Record>, current: Health): Result<Derived, string>
  {
    if history == [] then Success(FirstDerived(current))
    else
      var recent := Last(history, 300);
      var hourly := Last(history, 3600);
      if !AllHave(recent, "is_healthy") || !AllHave(hourly, "is_healthy") then Failure("KeyError: 'is_healthy'")
      else
        Success(Derived(FalsyHealth(recent) as real / |recent| as real * 100.0,
                        Min(|history|, 60) as real,
                        AvailabilityAsWritten(FalsyHealth(hourly), |history|)))
  }

  /** The stored dicts never hold "is_healthy". */
  lemma AsDictHasNoHealth(m: Metrics)
    ensures !HasKey(AsDict(m), "is_healthy")
  {
    var r := AsDict(m);
    forall p | p in r ensures p.0 != "is_healthy" {
      assert p.0[0] != 'i';
    }
  }

  /** As written, calculate_derived_metrics raises for every service whose
    * history record_metrics has written to. */
  lemma RecordedHistoryRaises(ms: seq<Metrics>, current: Health)
    requires ms != []
    ensures DerivedAsWritten(seq(|ms|, i requires 0 <= i < |ms| => AsDict(ms[i])), current).Failure?
  {
    var history := seq(|ms|, i requires 0 <= i < |ms| => AsDict(ms[i]));
    var recent := Last(history, 300);
    AsDictHasNoHealth(ms[|ms| - 1]);
    assert recent[|recent| - 1] == AsDict(ms[|ms| - 1]);
  }

  // ---------------------------------------------------------------------
  // check_alerts and get_alert_severity
  // ---------------------------------------------------------------------

  /** The thresholds of AlertThresholds, each with the text str() gives it. */
  const MaxResponseTime: real := 3.0
  const MaxCpuUsage: real := 80.0
  const MaxMemoryUsage: real := 85.0
  const MaxErrorRate: real := 5.0
  const MinAvailability: real := 99.0

  /** The thresholds a measurement can breach, in the order they are checked. */
  datatype Breach = SlowResponse | HighCpu | HighMemory | HighErrorRate | LowAvailability

  const BreachOrder: seq<Breach> := [SlowResponse, HighCpu, HighMemory, HighErrorRate, LowAvailability]

  predicate Breaches(b: Breach, m: Metrics)
  {
    match b
    case SlowResponse => m.responseTime > MaxResponseTime
    case HighCpu => m.cpuUsage > MaxCpuUsage
    case HighMemory => m.memoryUsage > MaxMemoryUsage
    case HighErrorRate => m.errorRate > MaxErrorRate
    case LowAvailability => m.availability < MinAvailability
  }

  /** The breached thresholds among bs, in order. */
  function BreachedAmong(bs: seq<Breach>, m: Metrics): seq<Breach>
  {
    if bs == [] then [] else (if Breaches(bs[0], m) then [bs[0]] else []) + BreachedAmong(bs[1..], m)
  }

  /** The breached list holds exactly the breached thresholds of bs. */
  lemma {:induction false} BreachedAmongSpec(bs: seq<Breach>, m: Metrics)
    ensures forall b :: b in BreachedAmong(bs, m) <==> b in bs && Breaches(b, m)
  {
    if bs != [] {
      BreachedAmongSpec(bs[1..], m);
      assert forall b :: b in bs <==> b == bs[0] || b in bs[1..];
    }
  }

  /** The alert text for a breach; fixed2 and fixed1 are the two- and
    * one-decimal renderings of a float. */
  function AlertText(b: Breach, m: Metrics, fixed2: real -> string, fixed1: real -> string): string
  {
    match b
    case SlowResponse => "High response time: " + fixed2(m.responseTime) + "s (threshold: 3.0s)"
    case HighCpu => "High CPU usage: " + fixed1(m.cpuUsage) + "% (threshold: 80.0%)"
    case HighMemory => "High memory usage: " + fixed1(m.memoryUsage) + "% (threshold: 85.0%)"
    case HighErrorRate => "High error rate: " + fixed1(m.errorRate) + "% (threshold: 5.0%)"
    case LowAvailability => "Low availability: " + fixed1(m.availability) + "% (threshold: 99.0%)"
  }

  /** check_alerts */
  function CheckAlerts(m: Metrics, fixed2: real -> string, fixed1: real -> string): seq<string>
  {
    (if m.responseTime > MaxResponseTime then [AlertText(SlowResponse, m, fixed2, fixed1)] else [])
    + ((if m.cpuUsage > MaxCpuUsage then [AlertText(HighCpu, m, fixed2, fixed1)] else [])
    + ((if m.memoryUsage > MaxMemoryUsage then [AlertText(HighMemory, m, fixed2, fixed1)] else [])
    + ((if m.errorRate > MaxErrorRate then [AlertText(HighErrorRate, m, fixed2, fixed1)] else [])
    + (if m.availability < MinAvailability then [AlertText(LowAvailability, m, fixed2, fixed1)] else []))))
  }

  /** The alert texts of a list of breaches. */
  function Texts(bs: seq<Breach>, m: Metrics, fixed2: real -> string, fixed1: real -> string): (ts: seq<string>)
    ensures |ts| == |bs|
    ensures forall i | 0 <= i < |bs| :: ts[i] == AlertText(bs[i], m, fixed2, fixed1)
  {
    if bs == [] then [] else [AlertText(bs[0], m, fixed2, fixed1)] + Texts(bs[1..], m, fixed2, fixed1)
  }

  /** The breached thresholds of the fixed order, one check at a time. */
  lemma BreachedInOrder(m: Metrics)
    ensures BreachedAmong(BreachOrder, m)
      == (if Breaches(SlowResponse, m) then [SlowResponse] else [])
       + ((if Breaches(HighCpu, m) then [HighCpu] else [])
       + ((if Breaches(HighMemory, m) then [HighMemory] else [])
       + ((if Breaches(HighErrorRate, m) then [HighErrorRate] else [])
       + (if Breaches(LowAvailability, m) then [LowAvailability] else []))))
  {
    var o5: seq<Breach> := [LowAvailability];
    var o4 := [HighErrorRate] + o5;
    var o3 := [HighMemory] + o4;
    var o2 := [HighCpu] + o3;
    var o1 := [SlowResponse] + o2;
    assert o1 == BreachOrder;
    BreachedCons(LowAvailability, [], m);
    BreachedCons(HighErrorRate, o5, m);
    BreachedCons(HighMemory, o4, m);
    BreachedCons(HighCpu, o3, m);
    BreachedCons(SlowResponse, o2, m);
  }

  /** One more check in front of a list of checks. */
  lemma BreachedCons(b: Breach, rest: seq<Breach>, m: Metrics)
    ensures BreachedAmong([b] + rest, m) == (if Breaches(b, m) then [b] else []) + BreachedAmong(rest, m)
  {
    assert ([b] + rest)[1..] == rest;
  }

  /** check_alerts gives one message per breached threshold, in the fixed order. */
  lemma CheckAlertsSpec(m: Metrics, fixed2: real -> string, fixed1: real -> string)
    ensures CheckAlerts(m, fixed2, fixed1) == Texts(BreachedAmong(BreachOrder, m), m, fixed2, fixed1)
    ensures forall b :: b in BreachedAmong(BreachOrder, m) <==> Breaches(b, m)
  {
    CheckAlertsTexts(m, fixed2, fixed1);
    EveryBreachChecked();
    BreachedAmongSpec(BreachOrder, m);
  }

  /** Every kind of breach is in the fixed order. */
  lemma EveryBreachChecked()
    ensures forall b :: b in BreachOrder
  {
    forall b ensures b in BreachOrder {
      match b
      case SlowResponse => assert BreachOrder[0] == b;
      case HighCpu => assert BreachOrder[1] == b;
      case HighMemory => assert BreachOrder[2] == b;
      case HighErrorRate => assert BreachOrder[3] == b;
      case LowAvailability => assert BreachOrder[4] == b;
    }
  }

  lemma CheckAlertsTexts(m: Metrics, fixed2: real -> string, fixed1: real -> string)
    ensures CheckAlerts(m, fixed2, fixed1) == Texts(BreachedAmong(BreachOrder, m), m, fixed2, fixed1)
  {
    BreachedInOrder(m);
    var t1 := if Breaches(SlowResponse, m) then [SlowResponse] else [];
    var t2 := if Breaches(HighCpu, m) then [HighCpu] else [];
    var t3 := if Breaches(HighMemory, m) then [HighMemory] else [];
    var t4 := if Breaches(HighErrorRate, m) then [HighErrorRate] else [];
    var t5 := if Breaches(LowAvailability, m) then [LowAvailability] else [];
    TextsJoin(t4, t5, m, fixed2, fixed1);
    TextsJoin(t3, t4 + t5, m, fixed2, fixed1);
    TextsJoin(t2, t3 + (t4 + t5), m, fixed2, fixed1);
    TextsJoin(t1, t2 + (t3 + (t4 + t5)), m, fixed2, fixed1);
    TextsOfOptional(SlowResponse, Breaches(SlowResponse, m), m, fixed2, fixed1);
    TextsOfOptional(HighCpu, Breaches(HighCpu, m), m, fixed2, fixed1);
    TextsOfOptional(HighMemory, Breaches(HighMemory, m), m, fixed2, fixed1);
    TextsOfOptional(HighErrorRate, Breaches(HighErrorRate, m), m, fixed2, fixed1);
    TextsOfOptional(LowAvailability, Breaches(LowAvailability, m), m, fixed2, fixed1);
  }

  /** The texts of an optional breach. */
  lemma TextsOfOptional(b: Breach, breached: bool, m: Metrics, fixed2: real -> string, fixed1: real -> string)
    ensures Texts(if breached then [b] else [], m, fixed2, fixed1)
            == if breached then [AlertText(b, m, fixed2, fixed1)] else []
  {
  }

  lemma {:induction false} TextsJoin(a: seq<Breach>, b: seq<Breach>, m: Metrics, fixed2: real -> string, fixed1: real -> string)
    ensures Texts(a + b, m, fixed2, fixed1) == Texts(a, m, fixed2, fixed1) + Texts(b, m, fixed2, fixed1)
  {
    if a != [] {
      assert (a + b)[1..] == a[1..] + b;
      TextsJoin(a[1..], b, m, fixed2, fixed1);
    }
  }

  /** get_alert_severity */
  function AlertSeverity(alert: string): string
  {
    var a := Lower(alert);
    if Contains(a, "availability") || Contains(a, "down") then "critical"
    else if Contains(a, "response time") || Contains(a, "error rate") then "high"
    else if Contains(a, "cpu") || Contains(a, "memory") then "medium"
    else "low"
  }

  /** The severity each kind of breach is meant to carry. */
  function SeverityOf(b: Breach): string
  {
    match b
    case SlowResponse => "high"
    case HighCpu => "medium"
    case HighMemory => "medium"
    case HighErrorRate => "high"
    case LowAvailability => "critical"
  }

  /** What a float rendering is made of: digits, a point and a sign. */
  predicate Numeral(d: string)
  {
    d != [] && forall i | 0 <= i < |d| :: IsDigit(d[i]) || d[i] == '.' || d[i] == '-'
  }

  /** s holds k starting at position i. */
  lemma {:induction false} ContainsAt(s: string, k: string, i: nat)
    requires i + |k| <= |s| && s[i..i + |k|] == k
    ensures Contains(s, k)
    decreases i
  {
    if i > 0 {
      assert s[1..][i - 1..i - 1 + |k|] == k;
      ContainsAt(s[1..], k, i - 1);
    } else {
      assert s[..|k|] == k;
    }
  }

  /** A substring occurs at some position. */
  lemma {:induction false} ContainsPosition(s: string, k: string) returns (i: nat)
    requires Contains(s, k)
    ensures i + |k| <= |s| && s[i..i + |k|] == k
    decreases |s|
  {
    if StartsWith(s, k) {
      i := 0;
    } else {
      var j := ContainsPosition(s[1..], k);
      i := j + 1;
      assert s[i..i + |k|] == s[1..][j..j + |k|];
    }
  }

  /** s holds k starting at position i. */
  predicate SpellsAt(s: string, k: string, i: nat)
  {
    i + |k| <= |s| && s[i..i + |k|] == k
  }

  /** A text none of whose windows spells k does not contain k. */
  lemma {:induction false} AbsentEverywhere(s: string, k: string)
    requires forall i: nat :: !SpellsAt(s, k, i)
    ensures !Contains(s, k)
    decreases |s|
  {
    assert !SpellsAt(s, k, 0);
    if s != [] {
      forall i: nat ensures !SpellsAt(s[1..], k, i) {
        assert !SpellsAt(s, k, i + 1);
        if i + |k| <= |s[1..]| {
          assert s[1..][i..i + |k|] == s[i + 1..i + 1 + |k|];
        }
      }
      AbsentEverywhere(s[1..], k);
    }
  }

  /** No character of k can occur in a numeral. */
  predicate Wordy(k: string)
  {
    forall c | c in k :: !IsDigit(c) && c != '.' && c != '-'
  }

  /** The severity keywords hold no digit, point or sign. */
  lemma KeywordsWordy()
    ensures Wordy("availability") && Wordy("down") && Wordy("response time")
    ensures Wordy("error rate") && Wordy("cpu")
  {
  }

  /** A keyword found before a numeral is found in the whole text. */
  lemma ContainsPrefixed(p: string, d: string, q: string, k: string)
    requires Contains(p, k)
    ensures Contains(p + d + q, k)
  {
    ContainsExtended(p, d + q, k);
    assert p + (d + q) == p + d + q;
  }

  /** A keyword with a character missing from the text before a numeral and
    * one missing from the text after it, and no numeral character, does not
    * occur in the three joined. */
  lemma NotAcross(p: string, d: string, q: string, k: string, cp: char, cq: char)
    requires Numeral(d)
    requires cp in k && cp !in p && cq in k && cq !in q
    requires Wordy(k)
    ensures !Contains(p + d + q, k)
  {
    var s := p + d + q;
    var jp :| 0 <= jp < |k| && k[jp] == cp;
    var jq :| 0 <= jq < |k| && k[jq] == cq;
    forall i: nat ensures !SpellsAt(s, k, i) {
      if i + |k| <= |s| {
        if i + |k| <= |p| {
          assert s[i + jp] == p[i + jp];
          assert s[i..i + |k|][jp] != k[jp];
        } else if i >= |p| + |d| {
          assert s[i + jq] == q[i + jq - |p| - |d|];
          assert s[i..i + |k|][jq] != k[jq];
        } else {
          var j := if i < |p| then |p| else i;
          assert s[j] == d[j - |p|];
          assert k[j - i] in k;
          assert s[i..i + |k|][j - i] != k[j - i];
        }
      }
    }
    AbsentEverywhere(s, k);
  }

  /** Lower-casing works character by character, and leaves numerals alone. */
  lemma LowerJoin(p: string, d: string, q: string)
    requires Numeral(d)
    ensures Lower(p + d + q) == Lower(p) + d + Lower(q)
  {
    assert Lower(d) == d;
  }

  /** Each alert check_alerts raises gets the severity meant for its kind:
    * slow responses and error rates are high, CPU and memory medium, low
    * availability critical. */
  lemma AlertSeverities(m: Metrics, fixed2: real -> string, fixed1: real -> string)
    requires forall x :: Numeral(fixed2(x)) && Numeral(fixed1(x))
    ensures var bs := BreachedAmong(BreachOrder, m);
      && |CheckAlerts(m, fixed2, fixed1)| == |bs|
      && forall i | 0 <= i < |bs| :: AlertSeverity(CheckAlerts(m, fixed2, fixed1)[i]) == SeverityOf(bs[i])
  {
    CheckAlertsSpec(m, fixed2, fixed1);
    forall b ensures AlertSeverity(AlertText(b, m, fixed2, fixed1)) == SeverityOf(b) {
      match b
      case SlowResponse => SlowResponseSeverity(fixed2(m.responseTime));
      case HighCpu => HighCpuSeverity(fixed1(m.cpuUsage));
      case HighMemory => HighMemorySeverity(fixed1(m.memoryUsage));
      case HighErrorRate => HighErrorRateSeverity(fixed1(m.errorRate));
      case LowAvailability => LowAvailabilitySeverity(fixed1(m.availability));
    }
  }

  /** A keyword found in a text is found in the text with more after it. */
  lemma {:induction false} ContainsExtended(x: string, y: string, k: string)
    requires Contains(x, k)
    ensures Contains(x + y, k)
    decreases |x|
  {
    if StartsWith(x, k) {
      assert (x + y)[..|k|] == x[..|k|];
    } else {
      assert (x + y)[1..] == x[1..] + y;
      ContainsExtended(x[1..], y, k);
    }
  }

  lemma SlowResponseLowered(d: string)
    requires Numeral(d)
    ensures Lower("High response time: " + d + "s (threshold: 3.0s)") == "high response time: " + d + "s (threshold: 3.0s)"
  {
    LowerJoin("High response time: ", d, "s (threshold: 3.0s)");
    assert Lower("High response time: ") == "high response time: ";
    assert Lower("s (threshold: 3.0s)") == "s (threshold: 3.0s)";
  }

  lemma SlowResponseAbsent(d: string)
    requires Numeral(d)
    ensures !Contains("high response time: " + d + "s (threshold: 3.0s)", "availability")
    ensures !Contains("high response time: " + d + "s (threshold: 3.0s)", "down")
  {
    KeywordsWordy();
    NotAcross("high response time: ", d, "s (threshold: 3.0s)", "availability", 'v', 'v');
    NotAcross("high response time: ", d, "s (threshold: 3.0s)", "down", 'w', 'w');
  }

  lemma SlowResponseKeywords(d: string)
    requires Numeral(d)
    ensures !Contains("high response time: " + d + "s (threshold: 3.0s)", "availability")
    ensures !Contains("high response time: " + d + "s (threshold: 3.0s)", "down")
    ensures Contains("high response time: " + d + "s (threshold: 3.0s)", "response time")
  {
    SlowResponseAbsent(d);
    ContainsAt("high response time: ", "response time", 5);
    ContainsPrefixed("high response time: ", d, "s (threshold: 3.0s)", "response time");
  }

  lemma SlowResponseSeverity(d: string)
    requires Numeral(d)
    ensures AlertSeverity("High response time: " + d + "s (threshold: 3.0s)") == "high"
  {
    SlowResponseLowered(d);
    SlowResponseKeywords(d);
  }

  lemma HighCpuLowered(d: string)
    requires Numeral(d)
    ensures Lower("High CPU usage: " + d + "% (threshold: 80.0%)") == "high cpu usage: " + d + "% (threshold: 80.0%)"
  {
    LowerJoin("High CPU usage: ", d, "% (threshold: 80.0%)");
    assert Lower("High CPU usage: ") == "high cpu usage: ";
    assert Lower("% (threshold: 80.0%)") == "% (threshold: 80.0%)";
  }

  lemma HighCpuAbsent(d: string)
    requires Numeral(d)
    ensures !Contains("high cpu usage: " + d + "% (threshold: 80.0%)", "availability")
    ensures !Contains("high cpu usage: " + d + "% (threshold: 80.0%)", "down")
  {
    KeywordsWordy();
    NotAcross("high cpu usage: ", d, "% (threshold: 80.0%)", "availability", 'v', 'v');
    NotAcross("high cpu usage: ", d, "% (threshold: 80.0%)", "down", 'w', 'w');
  }

  lemma HighCpuAbsentMore(d: string)
    requires Numeral(d)
    ensures !Contains("high cpu usage: " + d + "% (threshold: 80.0%)", "response time")
    ensures !Contains("high cpu usage: " + d + "% (threshold: 80.0%)", "error rate")
  {
    KeywordsWordy();
    NotAcross("high cpu usage: ", d, "% (threshold: 80.0%)", "response time", 'm', 'p');
    NotAcross("high cpu usage: ", d, "% (threshold: 80.0%)", "error rate", 'o', 'a');
  }

  lemma HighCpuKeywords(d: string)
    requires Numeral(d)
    ensures !Contains("high cpu usage: " + d + "% (threshold: 80.0%)", "availability")
    ensures !Contains("high cpu usage: " + d + "% (threshold: 80.0%)", "down")
    ensures !Contains("high cpu usage: " + d + "% (threshold: 80.0%)", "response time")
    ensures !Contains("high cpu usage: " + d + "% (threshold: 80.0%)", "error rate")
    ensures Contains("high cpu usage: " + d + "% (threshold: 80.0%)", "cpu")
  {
    HighCpuAbsent(d);
    HighCpuAbsentMore(d);
    ContainsAt("high cpu usage: ", "cpu", 5);
    ContainsPrefixed("high cpu usage: ", d, "% (threshold: 80.0%)", "cpu");
  }


  lemma HighCpuSeverity(d: string)
    requires Numeral(d)
    ensures AlertSeverity("High CPU usage: " + d + "% (threshold: 80.0%)") == "medium"
  {
    HighCpuLowered(d);
    HighCpuKeywords(d);
  }

  lemma HighMemoryLowered(d: string)
    requires Numeral(d)
    ensures Lower("High memory usage: " + d + "% (threshold: 85.0%)") == "high memory usage: " + d + "% (threshold: 85.0%)"
  {
    LowerJoin("High memory usage: ", d, "% (threshold: 85.0%)");
    assert Lower("High memory usage: ") == "high memory usage: ";
    assert Lower("% (threshold: 85.0%)") == "% (threshold: 85.0%)";
  }

  lemma HighMemoryAbsent(d: string)
    requires Numeral(d)
    ensures !Contains("high memory usage: " + d + "% (threshold: 85.0%)", "availability")
    ensures !Contains("high memory usage: " + d + "% (threshold: 85.0%)", "down")
  {
    KeywordsWordy();
    NotAcross("high memory usage: ", d, "% (threshold: 85.0%)", "availability", 'v', 'v');
    NotAcross("high memory usage: ", d, "% (threshold: 85.0%)", "down", 'w', 'w');
  }

  lemma HighMemoryAbsentMore(d: string)
    requires Numeral(d)
    ensures !Contains("high memory usage: " + d + "% (threshold: 85.0%)", "response time")
    ensures !Contains("high memory usage: " + d + "% (threshold: 85.0%)", "error rate")
    ensures !Contains("high memory usage: " + d + "% (threshold: 85.0%)", "cpu")
  {
    KeywordsWordy();
    NotAcross("high memory usage: ", d, "% (threshold: 85.0%)", "response time", 'p', 'p');
    NotAcross("high memory usage: ", d, "% (threshold: 85.0%)", "error rate", 't', 'a');
    NotAcross("high memory usage: ", d, "% (threshold: 85.0%)", "cpu", 'c', 'c');
  }

  lemma HighMemoryKeywords(d: string)
    requires Numeral(d)
    ensures !Contains("high memory usage: " + d + "% (threshold: 85.0%)", "availability")
    ensures !Contains("high memory usage: " + d + "% (threshold: 85.0%)", "down")
    ensures !Contains("high memory usage: " + d + "% (threshold: 85.0%)", "response time")
    ensures !Contains("high memory usage: " + d + "% (threshold: 85.0%)", "error rate")
    ensures !Contains("high memory usage: " + d + "% (threshold: 85.0%)", "cpu")
    ensures Contains("high memory usage: " + d + "% (threshold: 85.0%)", "memory")
  {
    HighMemoryAbsent(d);
    HighMemoryAbsentMore(d);
    ContainsAt("high memory usage: ", "memory", 5);
    ContainsPrefixed("high memory usage: ", d, "% (threshold: 85.0%)", "memory");
  }


  lemma HighMemorySeverity(d: string)
    requires Numeral(d)
    ensures AlertSeverity("High memory usage: " + d + "% (threshold: 85.0%)") == "medium"
  {
    HighMemoryLowered(d);
    HighMemoryKeywords(d);
  }

  lemma HighErrorRateLowered(d: string)
    requires Numeral(d)
    ensures Lower("High error rate: " + d + "% (threshold: 5.0%)") == "high error rate: " + d + "% (threshold: 5.0%)"
  {
    LowerJoin("High error rate: ", d, "% (threshold: 5.0%)");
    assert Lower("High error rate: ") == "high error rate: ";
    assert Lower("% (threshold: 5.0%)") == "% (threshold: 5.0%)";
  }

  lemma HighErrorRateKeywords(d: string)
    requires Numeral(d)
    ensures !Contains("high error rate: " + d + "% (threshold: 5.0%)", "availability")
    ensures !Contains("high error rate: " + d + "% (threshold: 5.0%)", "down")
    ensures Contains("high error rate: " + d + "% (threshold: 5.0%)", "error rate")
  {
    KeywordsWordy();
    NotAcross("high error rate: ", d, "% (threshold: 5.0%)", "availability", 'v', 'v');
    NotAcross("high error rate: ", d, "% (threshold: 5.0%)", "down", 'w', 'w');
    ContainsAt("high error rate: ", "error rate", 5);
    ContainsPrefixed("high error rate: ", d, "% (threshold: 5.0%)", "error rate");
  }

  lemma HighErrorRateSeverity(d: string)
    requires Numeral(d)
    ensures AlertSeverity("High error rate: " + d + "% (threshold: 5.0%)") == "high"
  {
    HighErrorRateLowered(d);
    HighErrorRateKeywords(d);
  }

  lemma LowAvailabilityLowered(d: string)
    requires Numeral(d)
    ensures Lower("Low availability: " + d + "% (threshold: 99.0%)") == "low availability: " + d + "% (threshold: 99.0%)"
  {
    LowerJoin("Low availability: ", d, "% (threshold: 99.0%)");
    assert Lower("Low availability: ") == "low availability: ";
    assert Lower("% (threshold: 99.0%)") == "% (threshold: 99.0%)";
  }

  lemma LowAvailabilityKeywords(d: string)
    requires Numeral(d)
    ensures Contains("low availability: " + d + "% (threshold: 99.0%)", "availability")
  {
    ContainsAt("low availability: ", "availability", 4);
    ContainsPrefixed("low availability: ", d, "% (threshold: 99.0%)", "availability");
  }

  lemma LowAvailabilitySeverity(d: string)
    requires Numeral(d)
    ensures AlertSeverity("Low availability: " + d + "% (threshold: 99.0%)") == "critical"
  {
    LowAvailabilityLowered(d);
    LowAvailabilityKeywords(d);
  }

  // ---------------------------------------------------------------------
  // The trend of generate_performance_report
  // ---------------------------------------------------------------------

  function SumResponse(ms: seq<Metrics>): real
  {
    if ms == [] then 0.0 else SumResponse(ms[..|ms| - 1]) + ms[|ms| - 1].responseTime
  }

  function MeanResponse(ms: seq<Metrics>): real
    requires ms != []
  {
    SumResponse(ms) / |ms| as real
  }

  /** The trend direction of a relative change in percent. */
  function Direction(change: real): string
  {
    if change < 0.0 then "improving" else if change > 0.0 then "degrading" else "stable"
  }

  /** The report's trend for a service: none below 120 entries; otherwise
    * the relative change of the mean response time of the last 60 entries
    * against the 60 before, and its direction; a previous mean of zero
    * raises ZeroDivisionError. */
  function Trend(history: seq<Metrics>): Option<Result<(real, string), string>>
  {
    if |history| < 120 then None
    else
      var last := history[|history| - 60..];
      var prev := history[|history| - 120..|history| - 60];
      var before := MeanResponse(prev);
      if before == 0.0 then Some(Failure("ZeroDivisionError"))
      else
        var change := (MeanResponse(last) - before) / before * 100.0;
        Some(Success((change, Direction(change))))
  }

  lemma {:induction false} SumResponseNonNegative(ms: seq<Metrics>)
    requires forall i | 0 <= i < |ms| :: ms[i].responseTime >= 0.0
    ensures SumResponse(ms) >= 0.0
  {
    if ms != [] {
      SumResponseNonNegative(ms[..|ms| - 1]);
    }
  }

  /** With non-negative response times, the direction compares the last
    * hour's mean with the previous hour's: improving when it fell, degrading
    * when it rose, stable when equal. */
  lemma TrendDirection(history: seq<Metrics>)
    requires |history| >= 120
    requires forall i | 0 <= i < |history| :: history[i].responseTime >= 0.0
    ensures var last := MeanResponse(history[|history| - 60..]);
      var prev := MeanResponse(history[|history| - 120..|history| - 60]);
      match Trend(history)
      case None => false
      case Some(Failure(_)) => prev == 0.0
      case Some(Success((_, dir))) =>
        && prev > 0.0
        && (dir == "improving" <==> last < prev)
        && (dir == "degrading" <==> last > prev)
        && (dir == "stable" <==> last == prev)
  {
    var prevHour := history[|history| - 120..|history| - 60];
    SumResponseNonNegative(prevHour);
    var prev := MeanResponse(prevHour);
    var last := MeanResponse(history[|history| - 60..]);
    if prev != 0.0 {
      assert prev > 0.0;
      var change := (last - prev) / prev * 100.0;
      assert change < 0.0 <==> last < prev;
      assert change > 0.0 <==> last > prev;
    }
  }

  /** Fewer than 120 entries give no trend. */
  lemma NoTrendBelowTwoHours(history: seq<Metrics>)
    requires |history| < 120
    ensures Trend(history) == None
  {
  }

  // ---------------------------------------------------------------------
  // PerformanceMonitor
  // ---------------------------------------------------------------------

  /** One entry of the alert list. */
  datatype AlertEntry = AlertEntry(timestamp: string, service: string, alert: string, severity: string)

  /** The alert entries for one measurement, in check_alerts order. */
  function AlertEntries(m: Metrics, alerts: seq<string>): (es: seq<AlertEntry>)
    ensures |es| == |alerts|
    ensures forall i | 0 <= i < |es| :: es[i] == AlertEntry(m.timestamp, m.service, alerts[i], AlertSeverity(alerts[i]))
  {
    seq(|alerts|, i requires 0 <= i < |alerts| => AlertEntry(m.timestamp, m.service, alerts[i], AlertSeverity(alerts[i])))
  }

  lemma AlertEntriesStep(m: Metrics, raised: seq<string>, i: nat)
    requires i < |raised|
    ensures AlertEntries(m, raised[..i + 1])
            == AlertEntries(m, raised[..i]) + [AlertEntry(m.timestamp, m.service, raised[i], AlertSeverity(raised[i]))]
  {
    assert raised[..i + 1] == raised[..i] + [raised[i]];
  }

  /** The measurement record_metrics assembles from a probe and its derived metrics. */
  function MetricsOf(service: string, health: Health, derived: Derived): Metrics
  {
    Metrics(health.timestamp, service, health.responseTime, health.statusCode,
            health.cpuUsage, health.memoryUsage, derived.errorRate, derived.throughput, derived.availability)
  }

  class PerformanceMonitor {
    var history: map<string, seq<Metrics>>
    var alerts: seq<AlertEntry>

    /** Every watched service has a history of at most a day's entries. */
    predicate Valid()
      reads this
    {
      history.Keys == Services && forall s | s in history :: |history[s]| <= HistoryLimit
    }

    /** __init__: an empty history for each service and no alerts. */
    constructor()
      ensures Valid()
      ensures forall s | s in Services :: history[s] == []
      ensures alerts == []
    {
      history := map s | s in Services :: [];
      alerts := [];
    }

    /** record_metrics: stores the measurement in the service's bounded
      * history and logs one alert entry per breached threshold; an unknown
      * service raises a KeyError (known is false) before anything changes. */
    method RecordMetrics(service: string, health: Health, derived: Derived,
                         fixed2: real -> string, fixed1: real -> string) returns (known: bool)
      requires Valid()
      modifies this
      ensures Valid()
      ensures known == (service in old(history))
      ensures !known ==> history == old(history) && alerts == old(alerts)
      ensures known ==>
        var m := MetricsOf(service, health, derived);
        && history == old(history)[service := BoundedAppend(old(history)[service], m, HistoryLimit)]
        && alerts == old(alerts) + AlertEntries(m, CheckAlerts(m, fixed2, fixed1))
    {
      if service !in history {
        return false;
      }
      var m := MetricsOf(service, health, derived);
      history := history[service := BoundedAppend(history[service], m, HistoryLimit)];
      LogAlerts(m, CheckAlerts(m, fixed2, fixed1));
      known := true;
    }

    /** The alert loop of record_metrics: one logged entry per raised alert,
      * in order, each with the severity its text implies. */
    method LogAlerts(m: Metrics, raised: seq<string>)
      modifies this
      ensures history == old(history)
      ensures alerts == old(alerts) + AlertEntries(m, raised)
    {
      var i := 0;
      while i < |raised|
        invariant 0 <= i <= |raised|
        invariant history == old(history)
        invariant alerts == old(alerts) + AlertEntries(m, raised[..i])
      {
        alerts := alerts + [AlertEntry(m.timestamp, m.service, raised[i], AlertSeverity(raised[i]))];
        AlertEntriesStep(m, raised, i);
        i := i + 1;
      }
      assert raised[..i] == raised;
    }

    /** One service's turn of the monitoring loop: derive the metrics from
      * its history and the new probe, then record them. */
    method ObserveService(service: string, health: Health, fixed2: real -> string, fixed1: real -> string)
      returns (known: bool)
      requires Valid()
      modifies this
      ensures Valid()
      ensures known == (service in old(history))
      ensures !known ==> history == old(history) && alerts == old(alerts)
      ensures known ==>
        var m := MetricsOf(service, health, DerivedMetrics(old(history)[service], health));
        && history == old(history)[service := BoundedAppend(old(history)[service], m, HistoryLimit)]
        && alerts == old(alerts) + AlertEntries(m, CheckAlerts(m, fixed2, fixed1))
    {
      if service !in history {
        return false;
      }
      var derived := DerivedMetrics(history[service], health);
      known := RecordMetrics(service, health, derived, fixed2, fixed1);
    }
  }
}
