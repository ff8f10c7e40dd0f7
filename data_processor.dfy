// The scraped-record pipeline of web_scraping/services/data_processor.py:
// clean -> validate -> deduplicate -> normalise -> quality band, plus the
// warnings and the text chosen for embeddings.
module DataProcessor {
  import opened Wrappers
  import opened Text
  import opened Json

  datatype Quality = High | Medium | Low | Invalid

  datatype ProcessingResult = ProcessingResult(
    success: bool,
    processedData: seq<Record>,
    errors: seq<string>,
    warnings: seq<string>,
    quality: Quality,
    duplicateCount: nat)

  // ---------------------------------------------------------------------
  // Stage 1: cleaning
  // ---------------------------------------------------------------------

  /** The value a field keeps after cleaning, or None when the field is dropped:
    * strings are stripped and kept only when something is left, None is
    * dropped, everything else is kept as it is. */
  function CleanValue(v: Value): (o: Option<Value>)
    ensures o.Some? ==> o.value != Null && (o.value.Str? ==> o.value.s != [] && IsStripped(o.value.s))
    ensures o.None? <==> v.Null? || (v.Str? && Strip(v.s) == [])
  {
    match v
    case Null => None
    case Str(s) =>
      StripSpec(s);
      if Strip(s) == [] then None else Some(Str(Strip(s)))
    case _ => Some(v)
  }

  /** Every value is neither None nor an empty or unstripped string. */
  predicate CleanValues(r: Record)
  {
    forall p | p in r :: p.1 != Null && (p.1.Str? ==> p.1.s != [] && IsStripped(p.1.s))
  }

  /** The copy of a dict's items that cleaning builds, one assignment per item. */
  function CleanFields(r: Record): (c: Record)
    decreases |r|
  {
    if r == [] then []
    else
      var c := CleanFields(r[..|r| - 1]);
      var q := r[|r| - 1];
      match CleanValue(q.1)
      case None => c
      case Some(w) => SetKey(c, q.0, w)
  }

  /** Every cleaned value is neither None nor an empty or unstripped string,
    * and every cleaned item is the cleaned value of an item of the dict. */
  lemma {:induction false} CleanFieldsSpec(r: Record)
    ensures CleanValues(CleanFields(r))
    ensures forall p | p in CleanFields(r) :: exists q | q in r :: q.0 == p.0 && CleanValue(q.1) == Some(p.1)
    decreases |r|
  {
    if r != [] {
      var init := r[..|r| - 1];
      var c := CleanFields(init);
      var q := r[|r| - 1];
      CleanFieldsSpec(init);
      assert forall x | x in init :: x in r;
      match CleanValue(q.1)
      case None =>
      case Some(w) =>
        SetKeyPairs(c, q.0, w);
        forall p | p in CleanFields(r) ensures exists q' | q' in r :: q'.0 == p.0 && CleanValue(q'.1) == Some(p.1) {
          if p != (q.0, w) {
            assert p in c;
          }
        }
    }
  }

  /** Every item that cleaning keeps leaves its key in the cleaned dict. */
  lemma {:induction false} CleanFieldsKeepsKeys(r: Record)
    ensures forall q | q in r && CleanValue(q.1).Some? :: HasKey(CleanFields(r), q.0)
    decreases |r|
  {
    if r != [] {
      var init := r[..|r| - 1];
      CleanFieldsKeepsKeys(init);
      assert r == init + [r[|r| - 1]];
      forall q | q in r && CleanValue(q.1).Some?
        ensures HasKey(CleanFields(r), q.0)
      {
        if q != r[|r| - 1] {
          assert q in init;
        }
      }
    }
  }

  /** One cleaned record: the cleaned items, then 'type' = 'unknown' and
    * 'extracted_at' = the clock's ISO timestamp when they are missing. */
  function CleanRecord(r: Record, now: string): (c: Record)
    ensures HasKey(c, "type") && HasKey(c, "extracted_at")
    ensures Get(c, "type") == (if HasKey(CleanFields(r), "type") then Get(CleanFields(r), "type") else Some(Str("unknown")))
    ensures !HasKey(CleanFields(r), "extracted_at") ==> Get(c, "extracted_at") == Some(Str(now))
  {
    var c0 := CleanFields(r);
    var c1 := if HasKey(c0, "type") then c0 else SetKey(c0, "type", Str("unknown"));
    if HasKey(c1, "extracted_at") then c1 else SetKey(c1, "extracted_at", Str(now))
  }

  /** Setting a clean value keeps a dict clean. */
  lemma SetKeyKeepsClean(r: Record, k: string, v: Value)
    requires CleanValues(r)
    requires v != Null && (v.Str? ==> v.s != [] && IsStripped(v.s))
    ensures CleanValues(SetKey(r, k, v))
  {
    SetKeyPairs(r, k, v);
  }

  /** With a clock that renders as a non-empty stripped string, no cleaned
    * value is None or an empty or unstripped string. */
  lemma CleanRecordValues(r: Record, now: string)
    requires now != [] && IsStripped(now)
    ensures CleanValues(CleanRecord(r, now))
  {
    var c0 := CleanFields(r);
    CleanFieldsSpec(r);
    assert IsStripped("unknown");
    if !HasKey(c0, "type") {
      SetKeyKeepsClean(c0, "type", Str("unknown"));
    }
    var c1 := if HasKey(c0, "type") then c0 else SetKey(c0, "type", Str("unknown"));
    assert CleanValues(c1);
    if !HasKey(c1, "extracted_at") {
      SetKeyKeepsClean(c1, "extracted_at", Str(now));
    }
  }

  /** The cleaned batch: one cleaned record per dict, in order; other items are skipped. */
  function Cleaned(data: seq<Value>, now: string): (out: seq<Record>)
    ensures |out| <= |data|
    ensures forall r | r in out :: HasKey(r, "type") && HasKey(r, "extracted_at")
    decreases |data|
  {
    if data == [] then []
    else
      var init := Cleaned(data[..|data| - 1], now);
      match data[|data| - 1]
      case Object(fields) => init + [CleanRecord(fields, now)]
      case _ => init
  }

  /** The number of dicts among the raw items. */
  function CountDicts(data: seq<Value>): (n: nat)
    decreases |data|
  {
    if data == [] then 0 else CountDicts(data[..|data| - 1]) + (if data[|data| - 1].Object? then 1 else 0)
  }

  /** Cleaning keeps exactly the dicts, and with a well-formed clock every value it
    * leaves is non-null and every string is non-empty and stripped. */
  lemma {:induction false} CleanedSpec(data: seq<Value>, now: string)
    requires now != [] && IsStripped(now)
    ensures |Cleaned(data, now)| == CountDicts(data)
    ensures forall r | r in Cleaned(data, now) :: CleanValues(r)
    decreases |data|
  {
    if data != [] {
      CleanedSpec(data[..|data| - 1], now);
      if data[|data| - 1].Object? {
        CleanRecordValues(data[|data| - 1].fields, now);
      }
    }
  }

  /** One assignment of the cleaning loop: a string is stored stripped when
    * something is left, None is skipped, anything else is stored as it is. */
  lemma CleanFieldsStep(fields: Record, j: nat)
    requires j < |fields|
    ensures var c := CleanFields(fields[..j]);
      var v := fields[j].1;
      CleanFields(fields[..j + 1]) ==
        if v.Str? then (if Strip(v.s) != [] then SetKey(c, fields[j].0, Str(Strip(v.s))) else c)
        else if v != Null then SetKey(c, fields[j].0, v)
        else c
  {
    var pre := fields[..j + 1];
    assert pre[..j] == fields[..j] && pre[j] == fields[j];
  }

  /** The body of _clean_data's loop for one dict. */
  method CleanRecordOf(fields: Record, now: string) returns (record: Record)
    ensures record == CleanRecord(fields, now)
  {
    record := [];
    var j := 0;
    while j < |fields|
      invariant 0 <= j <= |fields|
      invariant record == CleanFields(fields[..j])
    {
      CleanFieldsStep(fields, j);
      var key := fields[j].0;
      var value := fields[j].1;
      if value.Str? {
        var stripped := Strip(value.s);
        if stripped != [] {
          record := SetKey(record, key, Str(stripped));
        }
      } else if value != Null {
        record := SetKey(record, key, value);
      }
      j := j + 1;
    }
    assert fields[..|fields|] == fields;
    if !HasKey(record, "type") {
      record := SetKey(record, "type", Str("unknown"));
    }
    if !HasKey(record, "extracted_at") {
      record := SetKey(record, "extracted_at", Str(now));
    }
  }

  /** One iteration of _clean_data's loop: a dict is cleaned and appended,
    * anything else is skipped. */
  lemma CleanedStep(data: seq<Value>, i: nat, now: string)
    requires i < |data|
    ensures Cleaned(data[..i + 1], now) ==
      if data[i].Object? then Cleaned(data[..i], now) + [CleanRecord(data[i].fields, now)] else Cleaned(data[..i], now)
  {
    var pre := data[..i + 1];
    assert pre[..i] == data[..i] && pre[i] == data[i];
  }

  /** _clean_data */
  method CleanData(data: seq<Value>, now: string) returns (cleaned: seq<Record>)
    ensures cleaned == Cleaned(data, now)
  {
    cleaned := [];
    var i := 0;
    while i < |data|
      invariant 0 <= i <= |data|
      invariant cleaned == Cleaned(data[..i], now)
    {
      CleanedStep(data, i, now);
      if data[i].Object? {
        var record := CleanRecordOf(data[i].fields, now);
        cleaned := cleaned + [record];
      }
      i := i + 1;
    }
    assert data[..|data|] == data;
  }
  // ---------------------------------------------------------------------
  // Stage 2: structural validation
  // ---------------------------------------------------------------------

  datatype ValidationError =
    | MissingField(index: nat, field: string)
    | InvalidDate(index: nat)
    | InvalidUrl(index: nat)

  function ErrorMessage(e: ValidationError): string
  {
    match e
    case MissingField(i, f) => "Record " + NatToString(i) + ": Missing required field '" + f + "'"
    case InvalidDate(i) => "Record " + NatToString(i) + ": Invalid date format"
    case InvalidUrl(i) => "Record " + NatToString(i) + ": Invalid URL format"
  }

  function ErrorMessages(es: seq<ValidationError>): (ms: seq<string>)
    ensures |ms| == |es| && forall j | 0 <= j < |es| :: ms[j] == ErrorMessage(es[j])
  {
    seq(|es|, j requires 0 <= j < |es| => ErrorMessage(es[j]))
  }

  /** parse_date_string on a date value. A string is stripped and handed to the
    * strptime cascade (an oracle yielding the ISO rendering of the first format
    * that matches); any other value makes `.strip()` raise, which the validator
    * catches and reports as an invalid date. */
  function ParseDate(v: Value, strptime: string -> Option<string>): Option<string>
  {
    if v.Str? then strptime(Strip(v.s)) else None
  }

  /** str(e) for the AttributeError raised by calling .startswith on a non-string. */
  function StartswithError(v: Value): string
  {
    "'" + QualifiedTypeName(v) + "' object has no attribute 'startswith'"
  }

  predicate IsHttpUrl(u: string)
  {
    StartsWith(u, "http://") || StartsWith(u, "https://")
  }

  /** The required-field errors of record i, 'type' first. */
  function RequiredFieldErrors(i: nat, r: Record): (es: seq<ValidationError>)
    ensures forall e | e in es :: e.MissingField? && e.index == i && !HasKey(r, e.field)
    ensures es == [] <==> HasKey(r, "type") && HasKey(r, "extracted_at")
  {
    (if HasKey(r, "type") then [] else [MissingField(i, "type")])
    + (if HasKey(r, "extracted_at") then [] else [MissingField(i, "extracted_at")])
  }

  /** The date check of record i: a truthy date that parses is replaced in the
    * record by its ISO form, one that does not gives an error. */
  datatype DateCheck = DateCheck(record: Record, errors: seq<ValidationError>)

  function CheckDate(i: nat, r: Record, strptime: string -> Option<string>): (d: DateCheck)
    ensures forall k | k != "date" :: Get(d.record, k) == Get(r, k)
    ensures d.errors == [] || d.errors == [InvalidDate(i)]
    ensures d.errors == [InvalidDate(i)] <==> HasTruthy(r, "date") && ParseDate(Get(r, "date").value, strptime).None?
  {
    if HasTruthy(r, "date") then
      match ParseDate(Get(r, "date").value, strptime)
      case None => DateCheck(r, [InvalidDate(i)])
      case Some(iso) => DateCheck(SetKey(r, "date", Str(iso)), [])
    else DateCheck(r, [])
  }

  /** What validating one record yields: the record (its date possibly rewritten)
    * with its errors, or the exception that escapes the validator. */
  datatype RecordCheck = Checked(record: Record, errors: seq<ValidationError>) | Crashed(message: string)

  function CheckRecord(i: nat, r: Record, strptime: string -> Option<string>): (c: RecordCheck)
    ensures c.Crashed? <==> HasTruthy(r, "url") && !Get(r, "url").value.Str?
  {
    var d := CheckDate(i, r, strptime);
    var errors := RequiredFieldErrors(i, r) + d.errors;
    assert Get(d.record, "url") == Get(r, "url");
    if HasTruthy(d.record, "url") then
      var url := Get(d.record, "url").value;
      if !url.Str? then Crashed(StartswithError(url))
      else if IsHttpUrl(url.s) then Checked(d.record, errors)
      else Checked(d.record, errors + [InvalidUrl(i)])
    else Checked(d.record, errors)
  }

  /** The errors of record i all name i; its missing-field errors name fields
    * the record lacks; and its only other errors are a bad date and a url
    * that does not start with http:// or https://. */
  lemma CheckRecordErrors(i: nat, r: Record, strptime: string -> Option<string>)
    ensures var c := CheckRecord(i, r, strptime);
      c.Checked? ==> forall e | e in c.errors ::
        e.index == i && (e.MissingField? ==> !HasKey(r, e.field))
        && (e.InvalidDate? ==> HasTruthy(r, "date") && ParseDate(Get(r, "date").value, strptime).None?)
        && (e.InvalidUrl? ==> HasTruthy(r, "url") && !IsHttpUrl(Get(r, "url").value.s))
  {
    var d := CheckDate(i, r, strptime);
    assert Get(d.record, "url") == Get(r, "url");
  }

  /** The outcome of validating a batch: the error-free records and the errors
    * in record order, or the message of the first exception. */
  datatype Validation = Validated(records: seq<Record>, errors: seq<ValidationError>) | Raised(message: string)

  /** A per-record check: the record's index and the record in, its outcome out. */
  type Checker = (nat, Record) -> RecordCheck

  /** The validator's record check for a given date parser. */
  function CheckerOf(strptime: string -> Option<string>): Checker
  {
    (i: nat, r: Record) => CheckRecord(i, r, strptime)
  }

  /** The validator's loop for any per-record check: records are checked in
    * order, the first exception stops the batch, an error-free record is
    * kept and the errors of the others are collected. */
  function ValidateWith(data: seq<Record>, check: Checker): (v: Validation)
    decreases |data|
  {
    if data == [] then Validated([], [])
    else
      match ValidateWith(data[..|data| - 1], check)
      case Raised(m) => Raised(m)
      case Validated(records, errors) =>
        match check(|data| - 1, data[|data| - 1])
        case Crashed(m) => Raised(m)
        case Checked(r, es) => if es == [] then Validated(records + [r], errors) else Validated(records, errors + es)
  }

  function Validate(data: seq<Record>, strptime: string -> Option<string>): Validation
  {
    ValidateWith(data, CheckerOf(strptime))
  }

  /** The number of records whose check reports at least one error. */
  function CountRejected(data: seq<Record>, check: Checker): (n: nat)
    ensures n <= |data|
    decreases |data|
  {
    if data == [] then 0
    else
      var c := check(|data| - 1, data[|data| - 1]);
      CountRejected(data[..|data| - 1], check) + (if c.Checked? && c.errors != [] then 1 else 0)
  }

  /** Some record's check raises. */
  predicate SomeCheckCrashes(data: seq<Record>, check: Checker)
  {
    exists i | 0 <= i < |data| :: check(i, data[i]).Crashed?
  }

  /** Validation raises iff the check of some record raises. */
  lemma {:induction false} ValidateRaises(data: seq<Record>, check: Checker)
    ensures ValidateWith(data, check).Raised? <==> SomeCheckCrashes(data, check)
    decreases |data|
  {
    if data != [] {
      var n := |data| - 1;
      var init := data[..n];
      ValidateRaises(init, check);
      if SomeCheckCrashes(init, check) {
        var i :| 0 <= i < n && check(i, init[i]).Crashed?;
        assert init[i] == data[i];
      }
      if SomeCheckCrashes(data, check) {
        var i :| 0 <= i < |data| && check(i, data[i]).Crashed?;
        if i < n {
          assert init[i] == data[i];
        }
      }
    }
  }

  /** A raising validation raises the message of the first record whose check
    * raises: every record before it was checked without an exception. */
  lemma {:induction false} ValidateRaisesFirst(data: seq<Record>, check: Checker)
    ensures ValidateWith(data, check).Raised? ==>
      exists i | 0 <= i < |data| ::
        && check(i, data[i]).Crashed?
        && (forall j | 0 <= j < i :: check(j, data[j]).Checked?)
        && ValidateWith(data, check).message == check(i, data[i]).message
    decreases |data|
  {
    if data != [] && ValidateWith(data, check).Raised? {
      var n := |data| - 1;
      var init := data[..n];
      assert forall j | 0 <= j < n :: init[j] == data[j];
      if ValidateWith(init, check).Raised? {
        ValidateRaisesFirst(init, check);
        var i :| 0 <= i < n && check(i, init[i]).Crashed?
                 && (forall j | 0 <= j < i :: check(j, init[j]).Checked?)
                 && ValidateWith(init, check).message == check(i, init[i]).message;
      } else {
        ValidateRaises(init, check);
        assert forall j | 0 <= j < n :: check(j, data[j]).Checked? by {
          forall j | 0 <= j < n ensures check(j, data[j]).Checked? {
            assert !check(j, init[j]).Crashed?;
          }
        }
      }
    }
  }

  /** A record is kept iff its check reports no error: the kept records and the
    * rejected ones together make up the batch, and each kept record is the
    * checked form of an error-free record. */
  lemma {:induction false} ValidateKeepsErrorFree(data: seq<Record>, check: Checker)
    ensures ValidateWith(data, check).Validated? ==>
      |ValidateWith(data, check).records| + CountRejected(data, check) == |data|
    ensures ValidateWith(data, check).Validated? ==>
      forall r | r in ValidateWith(data, check).records ::
        exists i | 0 <= i < |data| :: check(i, data[i]) == Checked(r, [])
    decreases |data|
  {
    if data != [] {
      var n := |data| - 1;
      var init := data[..n];
      var v := ValidateWith(data, check);
      if v.Validated? {
        ValidateKeepsErrorFree(init, check);
        var v0 := ValidateWith(init, check);
        var c := check(n, data[n]);
        assert v0.Validated? && c.Checked?;
        forall r | r in v.records ensures exists i | 0 <= i < |data| :: check(i, data[i]) == Checked(r, []) {
          if r in v0.records {
            var i :| 0 <= i < n && check(i, init[i]) == Checked(r, []);
            assert init[i] == data[i];
          } else {
            assert check(n, data[n]) == Checked(r, []);
          }
        }
      }
    }
  }

  /** Every reported error is one that the check of the record it names produced. */
  lemma {:induction false} ValidateErrorsFromChecks(data: seq<Record>, check: Checker)
    requires forall i, r | check(i, r).Checked? :: forall e | e in check(i, r).errors :: e.index == i
    ensures ValidateWith(data, check).Validated? ==>
      forall e | e in ValidateWith(data, check).errors ::
        e.index < |data| && check(e.index, data[e.index]).Checked?
        && e in check(e.index, data[e.index]).errors
    decreases |data|
  {
    if data != [] {
      var n := |data| - 1;
      var init := data[..n];
      var v := ValidateWith(data, check);
      if v.Validated? {
        ValidateErrorsFromChecks(init, check);
        var v0 := ValidateWith(init, check);
        var c := check(n, data[n]);
        assert v0.Validated? && c.Checked?;
        assert v.errors == v0.errors || v.errors == v0.errors + c.errors;
        forall e | e in v.errors
          ensures e.index < |data| && check(e.index, data[e.index]).Checked?
            && e in check(e.index, data[e.index]).errors
        {
          if e in v0.errors {
            assert init[e.index] == data[e.index];
          } else {
            assert e in c.errors;
          }
        }
      }
    }
  }

  /** The errors of record i produced by the validator's own check all name i. */
  lemma CheckerOfIndexes(strptime: string -> Option<string>)
    ensures var check := CheckerOf(strptime);
      forall i, r | check(i, r).Checked? :: forall e | e in check(i, r).errors :: e.index == i
  {
    forall i: nat, r: Record | CheckerOf(strptime)(i, r).Checked?
      ensures forall e | e in CheckerOf(strptime)(i, r).errors :: e.index == i
    {
      CheckRecordErrors(i, r, strptime);
    }
  }

  /** Once a prefix of the batch raises, the whole batch raises with the same message. */
  lemma {:induction false} RaisedPersists(data: seq<Record>, k: nat, check: Checker)
    requires k <= |data|
    requires ValidateWith(data[..k], check).Raised?
    ensures ValidateWith(data, check) == ValidateWith(data[..k], check)
    decreases |data| - k
  {
    if k < |data| {
      assert data[..k + 1][..k] == data[..k];
      RaisedPersists(data, k + 1, check);
    } else {
      assert data[..k] == data;
    }
  }

  /** _validate_data_structure */
  method ValidateDataStructure(data: seq<Record>, strptime: string -> Option<string>) returns (out: Validation)
    ensures out == Validate(data, strptime)
  {
    ghost var check := CheckerOf(strptime);
    var validated: seq<Record> := [];
    var errors: seq<ValidationError> := [];
    var i := 0;
    while i < |data|
      invariant 0 <= i <= |data|
      invariant ValidateWith(data[..i], check) == Validated(validated, errors)
    {
      ghost var pre := data[..i + 1];
      assert pre[..i] == data[..i] && pre[i] == data[i];
      var c := CheckRecord(i, data[i], strptime);
      assert check(i, data[i]) == c;
      if c.Crashed? {
        RaisedPersists(data, i + 1, check);
        return Raised(c.message);
      }
      if c.errors == [] {
        validated := validated + [c.record];
      } else {
        errors := errors + c.errors;
      }
      i := i + 1;
    }
    assert data[..|data|] == data;
    return Validated(validated, errors);
  }
  // ---------------------------------------------------------------------
  // Stage 3: deduplication
  // ---------------------------------------------------------------------

  /** The keys the content hash leaves out. */
  const Unhashed: set<string> := {"extracted_at", "content_hash"}

  /** The dict whose JSON is hashed: the record without 'extracted_at' and
    * 'content_hash'. */
  function HashedContent(r: Record): Value
  {
    Object(RemoveKeys(r, Unhashed))
  }

  /** The content a record is compared on: the JSON of its hashed content
    * with keys sorted at every depth. The MD5 of that JSON is idealised as
    * the content itself: two records collide exactly when their contents
    * agree. */
  type Fingerprint = Canon

  function FingerprintOf(r: Record): Fingerprint
  {
    Canonical(HashedContent(r))
  }

  /** Two records have the same fingerprint, and the later one is a
    * duplicate, exactly when their hashed contents differ at most in the
    * order of keys, at any depth. */
  lemma SameContentSameFingerprint(r1: Record, r2: Record)
    requires WellKeyed(HashedContent(r1)) && WellKeyed(HashedContent(r2))
    ensures Reordered(HashedContent(r1), HashedContent(r2)) <==> FingerprintOf(r1) == FingerprintOf(r2)
  {
    ReorderedIffSameCanonical(HashedContent(r1), HashedContent(r2));
  }

  /** A kept record gains 'content_hash', the hex digest of its fingerprint. */
  function Stamp(r: Record, md5: Fingerprint -> string): Record
  {
    SetKey(r, "content_hash", Str(md5(FingerprintOf(r))))
  }

  /** Setting a key the hash leaves out leaves the hashed content as it was. */
  lemma {:induction false} SetUnhashedKey(r: Record, k: string, v: Value)
    requires k in Unhashed
    ensures RemoveKeys(SetKey(r, k, v), Unhashed) == RemoveKeys(r, Unhashed)
  {
    if r != [] && r[0].0 != k {
      SetUnhashedKey(r[1..], k, v);
      assert SetKey(r, k, v) == [r[0]] + SetKey(r[1..], k, v);
      assert ([r[0]] + SetKey(r[1..], k, v))[1..] == SetKey(r[1..], k, v);
    }
  }

  lemma StampKeepsFingerprint(r: Record, md5: Fingerprint -> string)
    ensures FingerprintOf(Stamp(r, md5)) == FingerprintOf(r)
  {
    SetUnhashedKey(r, "content_hash", Str(md5(FingerprintOf(r))));
  }

  datatype Dedup = Dedup(kept: seq<Record>, duplicates: nat, seen: set<Fingerprint>)

  /** The deduplicating loop for any content key and any stamp: a record whose
    * key was seen before is counted as a duplicate, any other is kept, stamped,
    * and its key remembered. */
  function DedupBy(data: seq<Record>, key: Record -> Fingerprint, stamp: Record -> Record): (d: Dedup)
    ensures |d.kept| + d.duplicates == |data|
    decreases |data|
  {
    if data == [] then Dedup([], 0, {})
    else
      var n := |data| - 1;
      var d := DedupBy(data[..n], key, stamp);
      var fp := key(data[n]);
      if fp in d.seen then Dedup(d.kept, d.duplicates + 1, d.seen)
      else Dedup(d.kept + [stamp(data[n])], d.duplicates, d.seen + {fp})
  }

  /** The stamp the source applies to a kept record. */
  function StamperOf(md5: Fingerprint -> string): Record -> Record
  {
    (r: Record) => Stamp(r, md5)
  }

  function Deduplicated(data: seq<Record>, md5: Fingerprint -> string): Dedup
  {
    DedupBy(data, FingerprintOf, StamperOf(md5))
  }

  /** Some record of the batch has the key fp. */
  predicate KeyOccurs(data: seq<Record>, key: Record -> Fingerprint, fp: Fingerprint)
  {
    exists i | 0 <= i < |data| :: key(data[i]) == fp
  }

  /** The keys seen are exactly those of the batch's records. */
  lemma {:induction false} DedupSeen(data: seq<Record>, key: Record -> Fingerprint, stamp: Record -> Record)
    ensures forall i | 0 <= i < |data| :: key(data[i]) in DedupBy(data, key, stamp).seen
    ensures forall fp | fp in DedupBy(data, key, stamp).seen :: KeyOccurs(data, key, fp)
    decreases |data|
  {
    if data != [] {
      var n := |data| - 1;
      var init := data[..n];
      DedupSeen(init, key, stamp);
      var seen := DedupBy(init, key, stamp).seen;
      var fp := key(data[n]);
      var all := DedupBy(data, key, stamp).seen;
      assert all == seen + {fp};
      forall i | 0 <= i < |data| ensures key(data[i]) in all {
        if i < n {
          assert init[i] == data[i];
        }
      }
      forall f | f in all ensures KeyOccurs(data, key, f) {
        if f in seen {
          var i :| 0 <= i < n && key(init[i]) == f;
          assert init[i] == data[i];
        } else {
          assert key(data[n]) == f;
        }
      }
    }
  }

  /** Record i is the first record of the batch with its key. */
  predicate IsFirstOccurrence(data: seq<Record>, key: Record -> Fingerprint, i: nat)
    requires i < |data|
  {
    forall j | 0 <= j < i :: key(data[j]) != key(data[i])
  }

  /** The positions below n that hold first occurrences, ascending. */
  function FirstOccurrences(data: seq<Record>, key: Record -> Fingerprint, n: nat): (idx: seq<nat>)
    requires n <= |data|
    ensures forall j | 0 <= j < |idx| :: idx[j] < n
  {
    if n == 0 then []
    else FirstOccurrences(data, key, n - 1) + (if IsFirstOccurrence(data, key, n - 1) then [n - 1] else [])
  }

  /** FirstOccurrences lists, in ascending order, exactly the positions below n
    * that hold the first record with their key. */
  lemma {:induction false} FirstOccurrencesSpec(data: seq<Record>, key: Record -> Fingerprint, n: nat)
    requires n <= |data|
    ensures forall j | 0 <= j < |FirstOccurrences(data, key, n)| ::
      IsFirstOccurrence(data, key, FirstOccurrences(data, key, n)[j])
    ensures forall j, k | 0 <= j < k < |FirstOccurrences(data, key, n)| ::
      FirstOccurrences(data, key, n)[j] < FirstOccurrences(data, key, n)[k]
    ensures forall i | 0 <= i < n && IsFirstOccurrence(data, key, i) :: i in FirstOccurrences(data, key, n)
  {
    if n > 0 {
      FirstOccurrencesSpec(data, key, n - 1);
      var pre := FirstOccurrences(data, key, n - 1);
      var extra := if IsFirstOccurrence(data, key, n - 1) then [n - 1] else [];
      var idx := pre + extra;
      assert FirstOccurrences(data, key, n) == idx;
      forall j | 0 <= j < |idx| ensures IsFirstOccurrence(data, key, idx[j]) {
        if j < |pre| {
          assert idx[j] == pre[j];
        }
      }
      forall j, k | 0 <= j < k < |idx| ensures idx[j] < idx[k] {
        assert idx[j] == pre[j];
        if k < |pre| {
          assert idx[k] == pre[k];
        }
      }
      forall i | 0 <= i < n && IsFirstOccurrence(data, key, i) ensures i in idx {
        if i < n - 1 {
          assert i in pre;
        } else {
          assert idx[|pre|] == i;
        }
      }
    }
  }

  /** The last record of a prefix was seen before iff it is not a first occurrence. */
  lemma SeenIffRepeated(data: seq<Record>, key: Record -> Fingerprint, stamp: Record -> Record, n: nat)
    requires 0 < n <= |data|
    ensures key(data[n - 1]) in DedupBy(data[..n - 1], key, stamp).seen <==> !IsFirstOccurrence(data, key, n - 1)
  {
    var init := data[..n - 1];
    DedupSeen(init, key, stamp);
    if key(data[n - 1]) in DedupBy(init, key, stamp).seen {
      var i :| 0 <= i < n - 1 && key(init[i]) == key(data[n - 1]);
      assert init[i] == data[i];
    }
    if !IsFirstOccurrence(data, key, n - 1) {
      var i :| 0 <= i < n - 1 && key(data[i]) == key(data[n - 1]);
      assert init[i] == data[i];
    }
  }

  /** One iteration of the deduplicating loop. */
  lemma DedupByStep(data: seq<Record>, key: Record -> Fingerprint, stamp: Record -> Record, i: nat)
    requires i < |data|
    ensures var d := DedupBy(data[..i], key, stamp);
      DedupBy(data[..i + 1], key, stamp) ==
        if key(data[i]) in d.seen then Dedup(d.kept, d.duplicates + 1, d.seen)
        else Dedup(d.kept + [stamp(data[i])], d.duplicates, d.seen + {key(data[i])})
  {
    var pre := data[..i + 1];
    assert pre[..i] == data[..i] && pre[i] == data[i];
  }

  /** Deduplication keeps exactly the first occurrence of every key, in
    * their original order, each stamped. */
  lemma {:induction false} DedupKeepsFirstOccurrences(data: seq<Record>, key: Record -> Fingerprint, stamp: Record -> Record, n: nat)
    requires n <= |data|
    ensures |DedupBy(data[..n], key, stamp).kept| == |FirstOccurrences(data, key, n)|
    ensures forall j | 0 <= j < |FirstOccurrences(data, key, n)| ::
      DedupBy(data[..n], key, stamp).kept[j] == stamp(data[FirstOccurrences(data, key, n)[j]])
  {
    if n > 0 {
      DedupKeepsFirstOccurrences(data, key, stamp, n - 1);
      DedupByStep(data, key, stamp, n - 1);
      SeenIffRepeated(data, key, stamp, n);
      var d0 := DedupBy(data[..n - 1], key, stamp);
      var idx0 := FirstOccurrences(data, key, n - 1);
      var kept := DedupBy(data[..n], key, stamp).kept;
      var idx := FirstOccurrences(data, key, n);
      if IsFirstOccurrence(data, key, n - 1) {
        assert kept == d0.kept + [stamp(data[n - 1])];
        assert idx == idx0 + [n - 1];
        KeptInStep(data, stamp, d0.kept, idx0, n - 1);
      } else {
        assert kept == d0.kept && idx == idx0;
      }
    }
  }

  /** Appending a stamped record and its position keeps the kept records and
    * their positions in step. */
  lemma KeptInStep(data: seq<Record>, stamp: Record -> Record, kept: seq<Record>, idx: seq<nat>, i: nat)
    requires i < |data| && |kept| == |idx|
    requires forall j | 0 <= j < |idx| :: idx[j] < |data| && kept[j] == stamp(data[idx[j]])
    ensures forall j | 0 <= j < |idx| + 1 ::
      (idx + [i])[j] < |data| && (kept + [stamp(data[i])])[j] == stamp(data[(idx + [i])[j]])
  {
    forall j | 0 <= j < |idx| + 1
      ensures (idx + [i])[j] < |data| && (kept + [stamp(data[i])])[j] == stamp(data[(idx + [i])[j]])
    {
      if j < |idx| {
        assert (idx + [i])[j] == idx[j] && (kept + [stamp(data[i])])[j] == kept[j];
      }
    }
  }

  /** When stamping keeps the key, every kept record's key has been seen. */
  lemma {:induction false} DedupKeptSeen(data: seq<Record>, key: Record -> Fingerprint, stamp: Record -> Record)
    requires forall r :: key(stamp(r)) == key(r)
    ensures forall r | r in DedupBy(data, key, stamp).kept :: key(r) in DedupBy(data, key, stamp).seen
    decreases |data|
  {
    if data != [] {
      var n := |data| - 1;
      DedupKeptSeen(data[..n], key, stamp);
      assert key(stamp(data[n])) == key(data[n]);
    }
  }

  /** No two records of rs have the same key. */
  predicate DistinctKeys(rs: seq<Record>, key: Record -> Fingerprint)
  {
    forall j, k | 0 <= j < k < |rs| :: key(rs[j]) != key(rs[k])
  }

  /** When stamping keeps the key, no two kept records share a key. */
  lemma {:induction false} DedupKeysDistinct(data: seq<Record>, key: Record -> Fingerprint, stamp: Record -> Record)
    requires forall r :: key(stamp(r)) == key(r)
    ensures DistinctKeys(DedupBy(data, key, stamp).kept, key)
    decreases |data|
  {
    if data != [] {
      var n := |data| - 1;
      DedupKeysDistinct(data[..n], key, stamp);
      DedupKeptSeen(data[..n], key, stamp);
      var d0 := DedupBy(data[..n], key, stamp);
      var fp := key(data[n]);
      if fp !in d0.seen {
        var kept := d0.kept + [stamp(data[n])];
        assert key(stamp(data[n])) == fp;
        forall j, k | 0 <= j < k < |kept| ensures key(kept[j]) != key(kept[k]) {
          assert kept[j] == d0.kept[j] && kept[j] in d0.kept;
          if k < |d0.kept| {
            assert kept[k] == d0.kept[k];
          } else {
            assert kept[k] == stamp(data[n]);
          }
        }
      }
    }
  }

  /** A stamped record carries the digest of its own fingerprint. */
  lemma StampCarriesDigest(r: Record, md5: Fingerprint -> string)
    ensures Get(Stamp(r, md5), "content_hash") == Some(Str(md5(FingerprintOf(Stamp(r, md5)))))
  {
    StampKeepsFingerprint(r, md5);
  }

  /** Every kept record is the stamped form of a record of the batch. */
  lemma {:induction false} DedupKeptStamped(data: seq<Record>, key: Record -> Fingerprint, stamp: Record -> Record)
    ensures forall r | r in DedupBy(data, key, stamp).kept :: exists i | 0 <= i < |data| :: r == stamp(data[i])
    decreases |data|
  {
    if data != [] {
      var n := |data| - 1;
      var init := data[..n];
      DedupKeptStamped(init, key, stamp);
      forall r | r in DedupBy(data, key, stamp).kept ensures exists i | 0 <= i < |data| :: r == stamp(data[i]) {
        if r in DedupBy(init, key, stamp).kept {
          var i :| 0 <= i < n && r == stamp(init[i]);
          assert init[i] == data[i];
        } else {
          assert r == stamp(data[n]);
        }
      }
    }
  }

  /** The records the source keeps are the first occurrences of the batch, in
    * order, each stamped. */
  lemma DeduplicatedFirstOccurrences(data: seq<Record>, md5: Fingerprint -> string)
    ensures var kept := Deduplicated(data, md5).kept;
      var idx := FirstOccurrences(data, FingerprintOf, |data|);
      |kept| == |idx| && forall j | 0 <= j < |idx| :: kept[j] == Stamp(data[idx[j]], md5)
  {
    assert data[..|data|] == data;
    DedupKeepsFirstOccurrences(data, FingerprintOf, StamperOf(md5), |data|);
  }

  /** No two records the source keeps have the same fingerprint, and each
    * carries the digest of its own fingerprint. */
  lemma DeduplicatedDigests(data: seq<Record>, md5: Fingerprint -> string)
    ensures DistinctKeys(Deduplicated(data, md5).kept, FingerprintOf)
    ensures forall r | r in Deduplicated(data, md5).kept :: Get(r, "content_hash") == Some(Str(md5(FingerprintOf(r))))
  {
    var stamp := StamperOf(md5);
    assert forall r :: FingerprintOf(stamp(r)) == FingerprintOf(r) by {
      forall r ensures FingerprintOf(stamp(r)) == FingerprintOf(r) {
        StampKeepsFingerprint(r, md5);
      }
    }
    DedupKeysDistinct(data, FingerprintOf, stamp);
    DedupKeptStamped(data, FingerprintOf, stamp);
    forall r | r in Deduplicated(data, md5).kept ensures Get(r, "content_hash") == Some(Str(md5(FingerprintOf(r)))) {
      var i :| 0 <= i < |data| && r == stamp(data[i]);
      StampCarriesDigest(data[i], md5);
    }
  }

  /** One iteration of the deduplicating loop, as the source writes it. */
  lemma DedupStep(data: seq<Record>, i: nat, md5: Fingerprint -> string)
    requires i < |data|
    ensures var d := DedupBy(data[..i], FingerprintOf, StamperOf(md5));
      var fp := FingerprintOf(data[i]);
      DedupBy(data[..i + 1], FingerprintOf, StamperOf(md5)) ==
        if fp in d.seen then Dedup(d.kept, d.duplicates + 1, d.seen)
        else Dedup(d.kept + [SetKey(data[i], "content_hash", Str(md5(fp)))], d.duplicates, d.seen + {fp})
  {
    DedupByStep(data, FingerprintOf, StamperOf(md5), i);
  }

  /** json.dumps can write the hashed content of every record; otherwise
    * the first record it cannot write raises. */
  predicate AllHashable(data: seq<Record>)
  {
    forall i | 0 <= i < |data| :: Dumpable(HashedContent(data[i]))
  }

  /** One more record keeps the batch hashable exactly when its own content
    * is; a record that is not makes the whole batch unhashable. */
  lemma AllHashableStep(data: seq<Record>, i: nat)
    requires i < |data| && AllHashable(data[..i])
    ensures AllHashable(data[..i + 1]) <==> Dumpable(HashedContent(data[i]))
    ensures !Dumpable(HashedContent(data[i])) ==> !AllHashable(data)
  {
    assert data[..i + 1][i] == data[i];
    forall j | 0 <= j < i ensures data[..i + 1][j] == data[..i][j] {
    }
  }

  /** _remove_duplicates: a datetime in the hashed content of any record
    * raises TypeError; otherwise the deduplicated batch and the number of
    * duplicates. */
  method RemoveDuplicates(data: seq<Record>, md5: Fingerprint -> string)
    returns (r: Result<(seq<Record>, nat), string>)
    ensures r.Failure? <==> !AllHashable(data)
    ensures r.Failure? ==> r.error == NotSerializable
    ensures r.Success? ==> r.value == (Deduplicated(data, md5).kept, Deduplicated(data, md5).duplicates)
  {
    if data == [] {
      return Success((data, 0));
    }
    var unique: seq<Record> := [];
    var duplicates: nat := 0;
    var seen: set<Fingerprint> := {};
    var i := 0;
    while i < |data|
      invariant 0 <= i <= |data|
      invariant AllHashable(data[..i])
      invariant DedupBy(data[..i], FingerprintOf, StamperOf(md5)) == Dedup(unique, duplicates, seen)
    {
      AllHashableStep(data, i);
      if !Dumpable(HashedContent(data[i])) {
        return Failure(NotSerializable);
      }
      DedupStep(data, i, md5);
      var contentHash := FingerprintOf(data[i]);
      if contentHash !in seen {
        seen := seen + {contentHash};
        unique := unique + [SetKey(data[i], "content_hash", Str(md5(contentHash)))];
      } else {
        duplicates := duplicates + 1;
      }
      i := i + 1;
    }
    assert data[..|data|] == data;
    return Success((unique, duplicates));
  }

  // ---------------------------------------------------------------------
  // Stage 4: format normalisation
  // ---------------------------------------------------------------------

  predicate IsBlankItem(x: Value)
  {
    x == Str("") || x == Null
  }

  /** [item for item in items if item not in ['', None]] */
  function DropBlankItems(items: seq<Value>): (out: seq<Value>)
    ensures forall x | x in out :: x in items && !IsBlankItem(x)
    ensures forall x | x in items && !IsBlankItem(x) :: x in out
    ensures (forall x | x in items :: !IsBlankItem(x)) ==> out == items
    decreases |items|
  {
    if items == [] then []
    else
      var init := items[..|items| - 1];
      var last := items[|items| - 1];
      assert items == init + [last];
      DropBlankItems(init) + (if IsBlankItem(last) then [] else [last])
  }

  /** Strings get their whitespace collapsed, lists lose their '' and None
    * items, every other value is kept. */
  function NormalizeValue(v: Value): Value
  {
    match v
    case Str(s) => Str(Collapse(s))
    case List(items) => List(DropBlankItems(items))
    case _ => v
  }

  lemma NormalizeValueIdempotent(v: Value)
    ensures NormalizeValue(NormalizeValue(v)) == NormalizeValue(v)
  {
    if v.Str? {
      CollapseIdempotent(v.s);
    }
  }

  function NormalizeRecord(r: Record): (n: Record)
    ensures |n| == |r| && Keys(n) == Keys(r)
  {
    seq(|r|, k requires 0 <= k < |r| => (r[k].0, NormalizeValue(r[k].1)))
  }

  function Normalized(data: seq<Record>): (out: seq<Record>)
    ensures |out| == |data|
  {
    seq(|data|, i requires 0 <= i < |data| => NormalizeRecord(data[i]))
  }

  /** Normalisation keeps the number of records and every record's keys in
    * order, collapses whitespace in every string value, drops '' and None from
    * every list value, and normalising twice changes nothing more. */
  lemma NormalizedSpec(data: seq<Record>)
    ensures |Normalized(data)| == |data|
    ensures forall i | 0 <= i < |data| :: Keys(Normalized(data)[i]) == Keys(data[i])
    ensures forall i, k | 0 <= i < |data| && 0 <= k < |data[i]| && data[i][k].1.Str? ::
      Normalized(data)[i][k].1 == Str(Collapse(data[i][k].1.s))
    ensures forall i, k | 0 <= i < |data| && 0 <= k < |data[i]| && data[i][k].1.List? ::
      Normalized(data)[i][k].1 == List(DropBlankItems(data[i][k].1.items))
    ensures Normalized(Normalized(data)) == Normalized(data)
  {
    var once := Normalized(data);
    forall i | 0 <= i < |data| ensures Normalized(once)[i] == once[i] {
      forall k | 0 <= k < |data[i]| ensures Normalized(once)[i][k] == once[i][k] {
        NormalizeValueIdempotent(data[i][k].1);
      }
    }
  }

  /** _normalize_data_formats: a copy of each record with every field
    * reassigned in place. */
  method NormalizeDataFormats(data: seq<Record>) returns (normalized: seq<Record>)
    ensures normalized == Normalized(data)
  {
    normalized := [];
    var i := 0;
    while i < |data|
      invariant 0 <= i <= |data|
      invariant |normalized| == i
      invariant forall j | 0 <= j < i :: normalized[j] == NormalizeRecord(data[j])
    {
      var record := data[i];
      var copy := record;
      var k := 0;
      while k < |record|
        invariant 0 <= k <= |record| && |copy| == |record|
        invariant forall m | 0 <= m < k :: copy[m] == (record[m].0, NormalizeValue(record[m].1))
        invariant forall m | k <= m < |record| :: copy[m] == record[m]
      {
        var key := record[k].0;
        var value := record[k].1;
        if value.Str? {
          copy := copy[k := (key, Str(Join(" ", Words(value.s))))];
        } else if value.List? {
          copy := copy[k := (key, List(DropBlankItems(value.items)))];
        }
        k := k + 1;
      }
      assert copy == NormalizeRecord(record);
      normalized := normalized + [copy];
      i := i + 1;
    }
  }

  // ---------------------------------------------------------------------
  // Stage 5: quality band
  // ---------------------------------------------------------------------

  /** The band for `complete` complete records and `errors` validation errors
    * out of `total`, the first of HIGH (completeness >= 0.9, errors <= 0.1),
    * MEDIUM (>= 0.7, <= 0.2), LOW (>= 0.5, <= 0.3) whose thresholds hold, with
    * the ratios compared by cross-multiplication. */
  function Band(total: nat, complete: nat, errors: nat): Quality
  {
    if total == 0 then Invalid
    else if 10 * complete >= 9 * total && 10 * errors <= total then High
    else if 10 * complete >= 7 * total && 10 * errors <= 2 * total then Medium
    else if 2 * complete >= total && 10 * errors <= 3 * total then Low
    else Invalid
  }

  function Rank(q: Quality): nat
  {
    match q
    case Invalid => 0
    case Low => 1
    case Medium => 2
    case High => 3
  }

  /** For a fixed total, more complete records never lower the band and more
    * errors never raise it. */
  lemma BandMonotone(total: nat, c1: nat, c2: nat, e1: nat, e2: nat)
    requires c1 <= c2 && e2 <= e1
    ensures Rank(Band(total, c1, e1)) <= Rank(Band(total, c2, e2))
  {
  }

  /** A record with truthy 'type' and 'extracted_at'. */
  predicate IsComplete(r: Record)
  {
    HasTruthy(r, "type") && HasTruthy(r, "extracted_at")
  }

  function CompleteCount(data: seq<Record>): (n: nat)
    ensures n <= |data|
    decreases |data|
  {
    if data == [] then 0
    else CompleteCount(data[..|data| - 1]) + (if IsComplete(data[|data| - 1]) then 1 else 0)
  }

  /** _calculate_quality_score */
  function QualityScore(data: seq<Record>, errorCount: nat): (q: Quality)
    ensures data == [] ==> q == Invalid
    ensures q == High ==> 10 * CompleteCount(data) >= 9 * |data| && 10 * errorCount <= |data|
    ensures 10 * errorCount > 3 * |data| ==> q == Invalid
    ensures 2 * CompleteCount(data) < |data| ==> q == Invalid
  {
    Band(|data|, CompleteCount(data), errorCount)
  }

  // ---------------------------------------------------------------------
  // Warnings
  // ---------------------------------------------------------------------

  /** Which of title, content and description are missing or falsy, in that order. */
  function MissingImportant(r: Record): (m: seq<string>)
    ensures forall f :: f in m <==> (f == "title" || f == "content" || f == "description") && !HasTruthy(r, f)
  {
    (if HasTruthy(r, "title") then [] else ["title"])
    + (if HasTruthy(r, "content") then [] else ["content"])
    + (if HasTruthy(r, "description") then [] else ["description"])
  }

  datatype Warning = Warning(index: nat, missing: seq<string>)

  function WarningMessage(w: Warning): string
  {
    "Record " + NatToString(w.index) + ": Missing multiple important fields: " + Join(", ", w.missing)
  }

  function WarningMessages(ws: seq<Warning>): (ms: seq<string>)
    ensures |ms| == |ws| && forall j {:trigger WarningMessage(ws[j])} | 0 <= j < |ws| :: ms[j] == WarningMessage(ws[j])
  {
    seq(|ws|, j requires 0 <= j < |ws| => WarningMessage(ws[j]))
  }

  lemma WarningMessagesAppend(ws: seq<Warning>, w: Warning)
    ensures WarningMessages(ws + [w]) == WarningMessages(ws) + [WarningMessage(w)]
  {
    var l := WarningMessages(ws + [w]);
    var r := WarningMessages(ws) + [WarningMessage(w)];
    forall j | 0 <= j < |l| ensures l[j] == r[j] {
      assert (ws + [w])[j] == if j < |ws| then ws[j] else w;
      assert l[j] == WarningMessage((ws + [w])[j]);
      if j < |ws| { assert WarningMessages(ws)[j] == WarningMessage(ws[j]); }
    }
  }

  /** The warnings of a batch, in record order. */
  function WarningsOf(data: seq<Record>): (ws: seq<Warning>)
    ensures forall j | 0 <= j < |ws| :: ws[j].index < |data|
    ensures forall j, k | 0 <= j < k < |ws| :: ws[j].index < ws[k].index
    decreases |data|
  {
    if data == [] then []
    else
      var n := |data| - 1;
      var missing := MissingImportant(data[n]);
      WarningsOf(data[..n]) + (if |missing| >= 2 then [Warning(n, missing)] else [])
  }

  /** Each warning lists the important fields its record is missing. */
  lemma {:induction false} WarningsMissing(data: seq<Record>)
    ensures forall j | 0 <= j < |WarningsOf(data)| ::
      WarningsOf(data)[j].missing == MissingImportant(data[WarningsOf(data)[j].index])
    decreases |data|
  {
    if data != [] {
      var n := |data| - 1;
      WarningsMissing(data[..n]);
      var init := WarningsOf(data[..n]);
      var ws := WarningsOf(data);
      forall j | 0 <= j < |ws| ensures ws[j].missing == MissingImportant(data[ws[j].index]) {
        if j < |init| {
          assert ws[j] == init[j];
          assert data[..n][init[j].index] == data[init[j].index];
        }
      }
    }
  }

  /** Some warning of ws is about record i. */
  predicate Warned(ws: seq<Warning>, i: nat)
  {
    exists j | 0 <= j < |ws| :: ws[j].index == i
  }

  lemma WarnedAppend(ws: seq<Warning>, extra: seq<Warning>, i: nat)
    ensures Warned(ws + extra, i) <==> Warned(ws, i) || Warned(extra, i)
  {
    var all := ws + extra;
    if Warned(all, i) {
      var j :| 0 <= j < |all| && all[j].index == i;
      if j >= |ws| {
        assert extra[j - |ws|] == all[j];
      }
    }
    if Warned(ws, i) {
      var j :| 0 <= j < |ws| && ws[j].index == i;
      assert all[j] == ws[j];
    }
    if Warned(extra, i) {
      var j :| 0 <= j < |extra| && extra[j].index == i;
      assert all[|ws| + j] == extra[j];
    }
  }

  /** Record i is warned about iff at least two of its important fields are
    * missing or falsy. */
  lemma {:induction false} WarnedAt(data: seq<Record>, i: nat)
    requires i < |data|
    ensures Warned(WarningsOf(data), i) <==> |MissingImportant(data[i])| >= 2
    decreases |data|
  {
    var n := |data| - 1;
    var init := WarningsOf(data[..n]);
    var missing := MissingImportant(data[n]);
    var extra := if |missing| >= 2 then [Warning(n, missing)] else [];
    assert WarningsOf(data) == init + extra;
    WarnedAppend(init, extra, i);
    if i < n {
      WarnedAt(data[..n], i);
      assert data[..n][i] == data[i];
      assert !Warned(extra, i);
    } else {
      assert !Warned(init, i);
      if |missing| >= 2 {
        assert extra[0].index == n;
      }
    }
  }

  /** At most one warning per record, and record i is warned about iff at least
    * two of its important fields are missing or falsy. */
  lemma WarningsSpec(data: seq<Record>)
    ensures forall j, k | 0 <= j < k < |WarningsOf(data)| :: WarningsOf(data)[j].index != WarningsOf(data)[k].index
    ensures forall i | 0 <= i < |data| :: Warned(WarningsOf(data), i) <==> |MissingImportant(data[i])| >= 2
    ensures forall j | 0 <= j < |WarningsOf(data)| ::
      WarningsOf(data)[j].missing == MissingImportant(data[WarningsOf(data)[j].index])
  {
    WarningsMissing(data);
    forall i | 0 <= i < |data| ensures Warned(WarningsOf(data), i) <==> |MissingImportant(data[i])| >= 2 {
      WarnedAt(data, i);
    }
  }

  /** One more record adds its own warning, if any, after the others. */
  lemma WarningsOfStep(data: seq<Record>, i: nat)
    requires i < |data|
    ensures var missing := MissingImportant(data[i]);
      WarningsOf(data[..i + 1]) == WarningsOf(data[..i]) + (if |missing| >= 2 then [Warning(i, missing)] else [])
  {
    var pre := data[..i + 1];
    assert pre[..i] == data[..i] && pre[i] == data[i];
  }

  /** _generate_warnings */
  method GenerateWarnings(data: seq<Record>) returns (warnings: seq<string>)
    ensures warnings == WarningMessages(WarningsOf(data))
  {
    warnings := [];
    ghost var ws: seq<Warning> := [];
    var i := 0;
    while i < |data|
      invariant 0 <= i <= |data|
      invariant ws == WarningsOf(data[..i])
      invariant warnings == WarningMessages(ws)
    {
      WarningsOfStep(data, i);
      var missingImportant := MissingImportant(data[i]);
      if |missingImportant| >= 2 {
        WarningMessagesAppend(ws, Warning(i, missingImportant));
        warnings := warnings + [WarningMessage(Warning(i, missingImportant))];
        ws := ws + [Warning(i, missingImportant)];
      }
      i := i + 1;
    }
    assert data[..|data|] == data;
  }

  // ---------------------------------------------------------------------
  // Text used for embeddings
  // ---------------------------------------------------------------------

  /** The string value of field f, when it is present and a string. */
  function StringField(r: Record, f: string): Option<string>
  {
    match Get(r, f)
    case Some(Str(s)) => Some(s)
    case _ => None
  }

  /** The string values of the given fields, in the order of the fields. */
  function StringFields(r: Record, fields: seq<string>): (parts: seq<string>)
    ensures forall s :: s in parts <==> exists f | f in fields :: StringField(r, f) == Some(s)
    ensures parts == [] <==> forall f | f in fields :: StringField(r, f).None?
    decreases |fields|
  {
    if fields == [] then []
    else
      var init := fields[..|fields| - 1];
      var f := fields[|fields| - 1];
      assert fields == init + [f];
      StringFields(r, init) + (match StringField(r, f) case Some(s) => [s] case None => [])
  }

  const EmbeddingFields: seq<string> := ["title", "content", "description", "summary", "body", "text"]

  /** The string values longer than ten characters, in the record's order. */
  function LongStrings(r: Record): (parts: seq<string>)
    ensures forall s :: s in parts <==> exists p | p in r :: p.1 == Str(s) && |s| > 10
    decreases |r|
  {
    if r == [] then []
    else
      var init := r[..|r| - 1];
      var p := r[|r| - 1];
      assert r == init + [p];
      LongStrings(init) + (if p.1.Str? && |p.1.s| > 10 then [p.1.s] else [])
  }

  /** _extract_text_for_embedding: the string-valued important fields joined by
    * spaces; only when there are none, the long string values instead. */
  function ExtractTextForEmbedding(r: Record): (text: string)
  {
    var parts := StringFields(r, EmbeddingFields);
    Join(" ", if parts != [] then parts else LongStrings(r))
  }

  /** The fallback is used exactly when no important field holds a string: the
    * parts joined are then the long strings, and otherwise exactly the string
    * values of the important fields. */
  lemma ExtractTextSpec(r: Record)
    ensures (forall f | f in EmbeddingFields :: StringField(r, f).None?) ==>
      ExtractTextForEmbedding(r) == Join(" ", LongStrings(r))
    ensures (exists f | f in EmbeddingFields :: StringField(r, f).Some?) ==>
      ExtractTextForEmbedding(r) == Join(" ", StringFields(r, EmbeddingFields))
  {
  }

  // ---------------------------------------------------------------------
  // The whole pipeline
  // ---------------------------------------------------------------------

  /** _save_to_database as written. process_scraped_data is a coroutine, so
    * the loop asyncio.get_event_loop() hands back is the one already running
    * it, and run_until_complete on a running loop raises RuntimeError; the
    * handler logs it and answers False. `batchSaved` is what the batch save
    * itself would report, which that code never reaches. */
  function SaveToDatabaseAsWritten(loopRunning: bool, batchSaved: bool): (saved: bool)
  {
    !loopRunning && batchSaved
  }

  /** process_scraped_data. `saved` is the outcome of the database save
    * (the batch save awaited, as intended; see SaveToDatabaseAsWritten for
    * the code as written); the embedding and caching steps report their own
    * failures and do not touch the result. `now` is the clock's ISO
    * timestamp, `strptime` the date-format cascade and `md5` the content
    * digest. A result succeeds only when the save did, and an empty result
    * is rated INVALID. */
  function ProcessScrapedData(raw: seq<Value>, now: string, strptime: string -> Option<string>,
                              md5: Fingerprint -> string, saved: bool): (res: ProcessingResult)
    ensures res.success ==> saved
    ensures res.processedData == [] ==> res.quality == Invalid
  {
    var cleaned := Cleaned(raw, now);
    match Validate(cleaned, strptime)
    case Raised(message) => ProcessingResult(false, [], [message], [], Invalid, 0)
    case Validated(records, errors) =>
      if !AllHashable(records) then ProcessingResult(false, [], [NotSerializable], [], Invalid, 0)
      else
        var d := Deduplicated(records, md5);
        var normalized := Normalized(d.kept);
        ProcessingResult(saved, normalized, ErrorMessages(errors),
          WarningMessages(WarningsOf(normalized)),
          QualityScore(normalized, |errors|), d.duplicates)
  }

  /** Cleaning always supplies 'type' and 'extracted_at', so after it the
    * validator reports no missing-field error: its only errors are bad dates
    * and non-http(s) urls. */
  lemma PipelineReportsNoMissingFields(raw: seq<Value>, now: string, strptime: string -> Option<string>)
    ensures var v := Validate(Cleaned(raw, now), strptime);
      v.Validated? ==> forall e | e in v.errors :: e.InvalidDate? || e.InvalidUrl?
  {
    var cleaned := Cleaned(raw, now);
    var check := CheckerOf(strptime);
    CheckerOfIndexes(strptime);
    ValidateErrorsFromChecks(cleaned, check);
    forall i | 0 <= i < |cleaned| ensures check(i, cleaned[i]).Checked? ==>
      forall e | e in check(i, cleaned[i]).errors :: !e.MissingField?
    {
      assert cleaned[i] in cleaned;
      CheckRecordErrors(i, cleaned[i], strptime);
    }
  }

  /** A record whose url check calls .startswith on a non-string. */
  predicate UrlCrashes(r: Record)
  {
    HasTruthy(r, "url") && !Get(r, "url").value.Str?
  }

  /** The pipeline fails, with exactly the exception's message and nothing else,
    * iff some cleaned record has a truthy url that is not a string (the
    * message is then that of the first such record), or some validated
    * record holds a datetime outside 'extracted_at' and 'content_hash';
    * otherwise its success is the database save's and its records and
    * duplicates account for every validated record. */
  lemma PipelineOutcome(raw: seq<Value>, now: string, strptime: string -> Option<string>,
                        md5: Fingerprint -> string, saved: bool)
    ensures var cleaned := Cleaned(raw, now);
      var res := ProcessScrapedData(raw, now, strptime, md5, saved);
      var crashes := exists i | 0 <= i < |cleaned| :: UrlCrashes(cleaned[i]);
      var failed := !res.success && res.processedData == [] && |res.errors| == 1 && res.warnings == []
                    && res.quality == Invalid && res.duplicateCount == 0;
      (crashes ==>
         && failed
         && exists i | 0 <= i < |cleaned| ::
              && UrlCrashes(cleaned[i])
              && (forall j | 0 <= j < i :: !UrlCrashes(cleaned[j]))
              && res.errors == [StartswithError(Get(cleaned[i], "url").value)])
      && (!crashes ==>
         var v := Validate(cleaned, strptime);
         && v.Validated?
         && (!AllHashable(v.records) ==> failed && res.errors == [NotSerializable])
         && (AllHashable(v.records) ==>
               res.success == saved && |res.processedData| + res.duplicateCount == |v.records|))
  {
    var cleaned := Cleaned(raw, now);
    var check := CheckerOf(strptime);
    ValidateRaises(cleaned, check);
    var crashes := exists i | 0 <= i < |cleaned| :: UrlCrashes(cleaned[i]);
    assert SomeCheckCrashes(cleaned, check) <==> crashes by {
      CrashesAreUrlCrashes(cleaned, strptime);
    }
    if crashes {
      FirstUrlCrashRaised(cleaned, strptime);
    }
  }

  /** The validator's check raises exactly on the records whose url crashes. */
  lemma CrashesAreUrlCrashes(data: seq<Record>, strptime: string -> Option<string>)
    ensures forall i | 0 <= i < |data| :: CheckerOf(strptime)(i, data[i]).Crashed? <==> UrlCrashes(data[i])
  {
    forall i | 0 <= i < |data| ensures CheckerOf(strptime)(i, data[i]).Crashed? <==> UrlCrashes(data[i]) {
      assert CheckerOf(strptime)(i, data[i]) == CheckRecord(i, data[i], strptime);
    }
  }

  /** When some url crashes, validation raises the AttributeError of the first
    * record whose url does. */
  lemma FirstUrlCrashRaised(data: seq<Record>, strptime: string -> Option<string>)
    requires exists i | 0 <= i < |data| :: UrlCrashes(data[i])
    ensures Validate(data, strptime).Raised?
    ensures exists i | 0 <= i < |data| ::
      && UrlCrashes(data[i])
      && (forall j | 0 <= j < i :: !UrlCrashes(data[j]))
      && Validate(data, strptime).message == StartswithError(Get(data[i], "url").value)
  {
    var check := CheckerOf(strptime);
    CrashesAreUrlCrashes(data, strptime);
    ValidateRaises(data, check);
    ValidateRaisesFirst(data, check);
    var i :| 0 <= i < |data| && check(i, data[i]).Crashed?
             && (forall j | 0 <= j < i :: check(j, data[j]).Checked?)
             && ValidateWith(data, check).message == check(i, data[i]).message;
    assert check(i, data[i]) == CheckRecord(i, data[i], strptime);
    assert Get(CheckDate(i, data[i], strptime).record, "url") == Get(data[i], "url");
  }

  /** As written, no batch is ever processed successfully: inside the running
    * event loop the save answers False, whatever the batch save would do. */
  lemma ProcessingFailsAsWritten(raw: seq<Value>, now: string, strptime: string -> Option<string>,
                                 md5: Fingerprint -> string, batchSaved: bool)
    ensures !SaveToDatabaseAsWritten(true, batchSaved)
    ensures !ProcessScrapedData(raw, now, strptime, md5, SaveToDatabaseAsWritten(true, batchSaved)).success
  {
  }
}
