// The scraping monitoring service: alert rules evaluated against metric
// values, the list of raised alerts with at most one open alert per rule,
// a health summary, and the per-scrape context that records each scrape's
// outcome in the request and error counters.
module Monitor {
  import opened Wrappers

  datatype AlertRule = AlertRule(
    name: string,
    metricName: string,
    condition: string,
    threshold: real,
    durationMinutes: int,
    severity: string,
    description: string)

  datatype Alert = Alert(rule: AlertRule, value: real, timestamp: int, message: string, resolved: bool)

  /** The three rules every service starts with. */
  function DefaultRules(): (rules: seq<AlertRule>)
    ensures |rules| == 3
  {
    [AlertRule("high_error_rate", "web_scraping_errors_total", ">", 10.0, 5, "critical",
               "High error rate detected in scraping operations"),
     AlertRule("low_data_quality", "web_scraping_data_quality", "<", 0.5, 10, "warning",
               "Data quality below acceptable threshold"),
     AlertRule("scraper_timeout", "web_scraping_request_duration_seconds", ">", 300.0, 1, "critical",
               "Scraper request taking too long")]
  }

  /** _evaluate_condition: compares value with threshold by one of the four
    * operators; any other operator never fires. */
  predicate EvaluateCondition(value: real, condition: string, threshold: real)
  {
    if condition == ">" then value > threshold
    else if condition == "<" then value < threshold
    else if condition == "==" then value == threshold
    else if condition == "!=" then value != threshold
    else false
  }

  /** "==" and "!=" are complementary, ">" and "<" never fire together and
    * each excludes equality, and an unknown operator fires for no value. */
  lemma EvaluateConditionSpec(value: real, threshold: real, condition: string)
    ensures EvaluateCondition(value, "==", threshold) != EvaluateCondition(value, "!=", threshold)
    ensures !(EvaluateCondition(value, ">", threshold) && EvaluateCondition(value, "<", threshold))
    ensures EvaluateCondition(value, ">", threshold) || EvaluateCondition(value, "<", threshold)
            <==> !EvaluateCondition(value, "==", threshold)
    ensures condition !in {">", "<", "==", "!="} ==> !EvaluateCondition(value, condition, threshold)
  {
  }

  /** Some alert in the list is an unresolved alert of the named rule. */
  predicate HasOpen(alerts: seq<Alert>, name: string)
  {
    exists i | 0 <= i < |alerts| :: alerts[i].rule.name == name && !alerts[i].resolved
  }

  /** No rule has two unresolved alerts. */
  predicate AtMostOneOpen(alerts: seq<Alert>)
  {
    forall i, j | 0 <= i < j < |alerts| ::
      alerts[i].rule.name == alerts[j].rule.name ==> alerts[i].resolved || alerts[j].resolved
  }

  /** The alert check_alerts raises for a rule whose metric read value. */
  function NewAlert(rule: AlertRule, value: real, now: int, floatText: real -> string): (a: Alert)
    ensures a.rule == rule && a.value == value && a.timestamp == now && !a.resolved
  {
    Alert(rule, value, now,
          "Alert: " + rule.description + " (value: " + floatText(value) + ", threshold: "
          + floatText(rule.threshold) + ")",
          false)
  }

  /** One rule's turn: an alert is appended when the rule's condition holds
    * for its metric and the rule has no unresolved alert yet. */
  function CheckRule(alerts: seq<Alert>, rule: AlertRule, now: int,
                     metricValue: (string, string) -> real, floatText: real -> string): seq<Alert>
  {
    var v := metricValue(rule.metricName, rule.condition);
    if EvaluateCondition(v, rule.condition, rule.threshold) && !HasOpen(alerts, rule.name)
    then alerts + [NewAlert(rule, v, now, floatText)]
    else alerts
  }

  /** The alert list after the rules have had their turns in order. */
  function CheckRules(alerts: seq<Alert>, rules: seq<AlertRule>, now: int,
                      metricValue: (string, string) -> real, floatText: real -> string): seq<Alert>
  {
    if rules == [] then alerts
    else CheckRule(CheckRules(alerts, rules[..|rules| - 1], now, metricValue, floatText),
                   rules[|rules| - 1], now, metricValue, floatText)
  }

  /** A rule's turn keeps every earlier alert, appends at most one
    * unresolved alert of that rule, and keeps at most one open alert per rule. */
  lemma CheckRuleSpec(alerts: seq<Alert>, rule: AlertRule, now: int,
                      metricValue: (string, string) -> real, floatText: real -> string)
    ensures var r := CheckRule(alerts, rule, now, metricValue, floatText);
      && alerts <= r && |r| <= |alerts| + 1
      && (|r| == |alerts| + 1 <==> EvaluateCondition(metricValue(rule.metricName, rule.condition),
                                                     rule.condition, rule.threshold)
                                   && !HasOpen(alerts, rule.name))
      && (|r| == |alerts| + 1 ==> r[|alerts|].rule == rule && !r[|alerts|].resolved)
      && (AtMostOneOpen(alerts) ==> AtMostOneOpen(r))
  {
    var r := CheckRule(alerts, rule, now, metricValue, floatText);
    if |r| == |alerts| + 1 {
      forall i, j | 0 <= i < j < |r| && r[i].rule.name == r[j].rule.name && AtMostOneOpen(alerts)
        ensures r[i].resolved || r[j].resolved
      {
        if j == |alerts| {
          assert r[i] == alerts[i];
        }
      }
    }
  }

  /** check_alerts keeps the alerts it found, only appends unresolved ones
    * for rules whose condition holds, and never leaves two unresolved
    * alerts of one rule when there were none before. */
  lemma {:induction false} CheckRulesSpec(alerts: seq<Alert>, rules: seq<AlertRule>, now: int,
                                          metricValue: (string, string) -> real, floatText: real -> string)
    ensures var r := CheckRules(alerts, rules, now, metricValue, floatText);
      && alerts <= r
      && |r| <= |alerts| + |rules|
      && (forall k | |alerts| <= k < |r| :: !r[k].resolved && r[k].rule in rules
                                           && EvaluateCondition(r[k].value, r[k].rule.condition, r[k].rule.threshold))
      && (AtMostOneOpen(alerts) ==> AtMostOneOpen(r))
  {
    if rules != [] {
      var init := rules[..|rules| - 1];
      var rule := rules[|rules| - 1];
      CheckRulesSpec(alerts, init, now, metricValue, floatText);
      var mid := CheckRules(alerts, init, now, metricValue, floatText);
      CheckRuleSpec(mid, rule, now, metricValue, floatText);
      var r := CheckRules(alerts, rules, now, metricValue, floatText);
      assert r == CheckRule(mid, rule, now, metricValue, floatText);
      forall k | |alerts| <= k < |r|
        ensures !r[k].resolved && r[k].rule in rules
                && EvaluateCondition(r[k].value, r[k].rule.condition, r[k].rule.threshold)
      {
        if k < |mid| {
          assert r[k] == mid[k];
          assert r[k].rule in init;
        } else {
          assert r[k] == NewAlert(rule, metricValue(rule.metricName, rule.condition), now, floatText);
        }
      }
    }
  }

  /** After check_alerts every rule whose condition holds has an unresolved alert. */
  lemma {:induction false} CheckRulesCovers(alerts: seq<Alert>, rules: seq<AlertRule>, now: int,
                                            metricValue: (string, string) -> real, floatText: real -> string)
    ensures forall rule | rule in rules && EvaluateCondition(metricValue(rule.metricName, rule.condition),
                                                             rule.condition, rule.threshold)
              :: HasOpen(CheckRules(alerts, rules, now, metricValue, floatText), rule.name)
  {
    if rules != [] {
      var init := rules[..|rules| - 1];
      var last := rules[|rules| - 1];
      CheckRulesCovers(alerts, init, now, metricValue, floatText);
      var mid := CheckRules(alerts, init, now, metricValue, floatText);
      var r := CheckRules(alerts, rules, now, metricValue, floatText);
      CheckRuleSpec(mid, last, now, metricValue, floatText);
      forall rule | rule in rules && EvaluateCondition(metricValue(rule.metricName, rule.condition),
                                                      rule.condition, rule.threshold)
        ensures HasOpen(r, rule.name)
      {
        if rule in init {
          var i :| 0 <= i < |mid| && mid[i].rule.name == rule.name && !mid[i].resolved;
          assert r[i] == mid[i];
        } else {
          assert rule == last;
          if !HasOpen(mid, rule.name) {
            assert r[|mid|].rule == rule;
          }
        }
      }
    }
  }

  /** A rule's turn adds nothing when its rule already has an unresolved alert
    * or its condition does not hold. */
  lemma {:induction false} CheckRulesNoChange(alerts: seq<Alert>, rules: seq<AlertRule>, now: int,
                                              metricValue: (string, string) -> real, floatText: real -> string)
    requires forall rule | rule in rules && EvaluateCondition(metricValue(rule.metricName, rule.condition),
                                                              rule.condition, rule.threshold)
               :: HasOpen(alerts, rule.name)
    ensures CheckRules(alerts, rules, now, metricValue, floatText) == alerts
  {
    if rules != [] {
      CheckRulesNoChange(alerts, rules[..|rules| - 1], now, metricValue, floatText);
    }
  }

  /** With the metric values unchanged, a second check_alerts, at any time,
    * raises nothing new. */
  lemma CheckRulesIdempotent(alerts: seq<Alert>, rules: seq<AlertRule>, now: int, later: int,
                             metricValue: (string, string) -> real, floatText: real -> string)
    ensures var once := CheckRules(alerts, rules, now, metricValue, floatText);
            CheckRules(once, rules, later, metricValue, floatText) == once
  {
    var once := CheckRules(alerts, rules, now, metricValue, floatText);
    CheckRulesCovers(alerts, rules, now, metricValue, floatText);
    CheckRulesNoChange(once, rules, later, metricValue, floatText);
  }

  /** _get_metric_value as written: every metric reads 0.0. */
  function StubMetric(metricName: string, condition: string): real
  {
    0.0
  }

  /** With every metric at 0.0, a fresh service's check raises exactly one
    * alert, for low_data_quality, and checking again raises nothing more. */
  lemma StubRaisesOnlyLowDataQuality(now: int, later: int, floatText: real -> string)
    ensures var once := CheckRules([], DefaultRules(), now, StubMetric, floatText);
      && |once| == 1 && once[0].rule.name == "low_data_quality" && !once[0].resolved
      && CheckRules(once, DefaultRules(), later, StubMetric, floatText) == once
  {
    var rules := DefaultRules();
    assert rules[..1] == [rules[0]] && rules[..2][..1] == rules[..1] && rules[..3] == rules;
    assert CheckRules([], rules[..1], now, StubMetric, floatText) == [];
    var two := CheckRules([], rules[..2], now, StubMetric, floatText);
    assert two == [NewAlert(rules[1], 0.0, now, floatText)];
    assert "low_data_quality"[0] != "scraper_timeout"[0];
    assert two[0].rule.name != rules[2].name;
    CheckRulesIdempotent([], rules, now, later, StubMetric, floatText);
  }

  /** How many alerts are still unresolved. */
  function OpenCount(alerts: seq<Alert>): (n: nat)
    ensures n <= |alerts|
    ensures n == 0 <==> forall i | 0 <= i < |alerts| :: alerts[i].resolved
  {
    if alerts == [] then 0
    else OpenCount(alerts[1..]) + (if alerts[0].resolved then 0 else 1)
  }

  datatype Health = Health(status: string, uptimeSeconds: int, activeAlerts: nat, totalAlerts: nat, timestamp: int)

  /** A prometheus request-counter increment, with its observed duration. */
  datatype RequestEvent = RequestEvent(source: string, status: string, duration: real)

  /** A prometheus error-counter increment. */
  datatype ErrorEvent = ErrorEvent(source: string, errorType: string)

  class MonitoringService {
    var alertRules: seq<AlertRule>
    var activeAlerts: seq<Alert>
    const startTime: int
    /** The request and error counters, as the increments made to them. */
    var requests: seq<RequestEvent>
    var errors: seq<ErrorEvent>
    /** The active-scrapers gauge. */
    var activeScrapers: int

    /** A new service holds the three default rules and no alerts. */
    constructor(now: int)
      ensures alertRules == DefaultRules() && activeAlerts == [] && startTime == now
      ensures requests == [] && errors == [] && activeScrapers == 0
    {
      alertRules := DefaultRules();
      activeAlerts := [];
      startTime := now;
      requests := [];
      errors := [];
      activeScrapers := 0;
    }

    /** check_alerts: each rule in turn reads its metric and raises an alert
      * when its condition holds and it has no unresolved alert. */
    method CheckAlerts(now: int, metricValue: (string, string) -> real, floatText: real -> string)
      modifies this
      ensures activeAlerts == CheckRules(old(activeAlerts), alertRules, now, metricValue, floatText)
      ensures alertRules == old(alertRules) && requests == old(requests) && errors == old(errors)
      ensures activeScrapers == old(activeScrapers)
    {
      var i := 0;
      while i < |alertRules|
        invariant 0 <= i <= |alertRules|
        invariant activeAlerts == CheckRules(old(activeAlerts), alertRules[..i], now, metricValue, floatText)
        invariant alertRules == old(alertRules) && requests == old(requests) && errors == old(errors)
        invariant activeScrapers == old(activeScrapers)
      {
        var rule := alertRules[i];
        var value := metricValue(rule.metricName, rule.condition);
        assert alertRules[..i + 1][..i] == alertRules[..i];
        if EvaluateCondition(value, rule.condition, rule.threshold) {
          var existing := FindOpen(activeAlerts, rule.name);
          if existing.None? {
            activeAlerts := activeAlerts + [NewAlert(rule, value, now, floatText)];
          }
        }
        i := i + 1;
      }
      assert alertRules[..i] == alertRules;
    }

    /** get_system_health: the unresolved alerts among all alerts raised. */
    function GetSystemHealth(now: int): (h: Health)
      reads this
      ensures h.status == "healthy" && h.uptimeSeconds == now - startTime && h.timestamp == now
      ensures h.activeAlerts == OpenCount(activeAlerts) && h.totalAlerts == |activeAlerts|
      ensures h.activeAlerts <= h.totalAlerts
    {
      Health("healthy", now - startTime, OpenCount(activeAlerts), |activeAlerts|, now)
    }
  }

  /** The first unresolved alert of the named rule, if any. */
  method FindOpen(alerts: seq<Alert>, name: string) returns (found: Option<Alert>)
    ensures found.None? <==> !HasOpen(alerts, name)
    ensures found.Some? ==> found.value in alerts && found.value.rule.name == name && !found.value.resolved
  {
    var i := 0;
    while i < |alerts|
      invariant 0 <= i <= |alerts|
      invariant forall k | 0 <= k < i :: !(alerts[k].rule.name == name && !alerts[k].resolved)
    {
      if alerts[i].rule.name == name && !alerts[i].resolved {
        return Some(alerts[i]);
      }
      i := i + 1;
    }
    return None;
  }

  /** What leaving a scrape's context records: its status, the request
    * counted under that status, and, after an exception, the error counted
    * under the exception's type name. */
  function ExitRecord(source: string, exception: Option<string>, duration: real)
    : (r: (string, RequestEvent, seq<ErrorEvent>))
    ensures r.0 == (if exception.None? then "success" else "error")
    ensures r.1 == RequestEvent(source, r.0, duration)
    ensures exception.None? ==> r.2 == []
    ensures exception.Some? ==> r.2 == [ErrorEvent(source, exception.value)]
  {
    match exception
    case None => ("success", RequestEvent(source, "success", duration), [])
    case Some(name) => ("error", RequestEvent(source, "error", duration), [ErrorEvent(source, name)])
  }

  /** _get_active_scrapers_count as written: always 0. */
  function ActiveCountStub(): int
  {
    0
  }

  class ScrapingMonitor {
    const source: string
    const service: MonitoringService
    var startTime: Option<real>
    var status: string

    constructor(source: string, service: MonitoringService)
      ensures this.source == source && this.service == service
      ensures startTime.None? && status == "running"
    {
      this.source := source;
      this.service := service;
      startTime := None;
      status := "running";
    }

    /** __aenter__: notes the start time and sets the active-scrapers gauge
      * to the reported count plus one. */
    method Enter(now: real)
      modifies this, service
      ensures startTime == Some(now) && status == old(status)
      ensures service.activeScrapers == ActiveCountStub() + 1
      ensures service.requests == old(service.requests) && service.errors == old(service.errors)
      ensures service.activeAlerts == old(service.activeAlerts) && service.alertRules == old(service.alertRules)
    {
      startTime := Some(now);
      service.activeScrapers := ActiveCountStub() + 1;
    }

    /** __aexit__: counts the request as a success, or as an error together
      * with an error of the exception's type, with the time since Enter (0
      * when Enter was never called), and sets the gauge to the reported
      * count minus one. */
    method Exit(now: real, exception: Option<string>)
      modifies this, service
      ensures var duration := if old(startTime).Some? then now - old(startTime).value else 0.0;
              var rec := ExitRecord(source, exception, duration);
              && status == rec.0
              && service.requests == old(service.requests) + [rec.1]
              && service.errors == old(service.errors) + rec.2
      ensures startTime == old(startTime)
      ensures service.activeScrapers == ActiveCountStub() - 1
      ensures service.activeAlerts == old(service.activeAlerts) && service.alertRules == old(service.alertRules)
    {
      var duration := if startTime.Some? then now - startTime.value else 0.0;
      var rec := ExitRecord(source, exception, duration);
      status := rec.0;
      service.requests := service.requests + [rec.1];
      service.errors := service.errors + rec.2;
      service.activeScrapers := ActiveCountStub() - 1;
    }
  }
}
