// The configuration and result records every scraper shares, the
// structural check of a scraped batch, and the page fetch that retries
// transient failures with exponential backoff.
module BaseScraper {
  import opened Wrappers
  import opened Text
  import opened Json
  import Utils

  // ---------------------------------------------------------------------
  // ScrapingConfig / ScrapingResult
  // ---------------------------------------------------------------------

  datatype ScrapingConfig = ScrapingConfig(
    baseUrl: string,
    rateLimitDelay: real,
    timeout: int,
    maxRetries: int,
    userAgent: string,
    headers: Record)

  const DefaultUserAgent: string := "MedellínBot/1.0"

  /** The headers __post_init__ installs when none are given. */
  function DefaultHeaders(userAgent: string): Record
  {
    [("User-Agent", Str(userAgent)),
     ("Accept", Str("text/html,application/xhtml+xml,application/xml;q=0.9,*/*;q=0.8")),
     ("Accept-Language", Str("es-ES,es;q=0.5")),
     ("Accept-Encoding", Str("gzip, deflate")),
     ("Connection", Str("keep-alive"))]
  }

  /** ScrapingConfig(...) followed by __post_init__: headers left as None
    * become the five default headers, whose User-Agent is the configured
    * agent; headers that are given are kept as they are. */
  function NewScrapingConfig(baseUrl: string, rateLimitDelay: real := 1.0, timeout: int := 30,
                             maxRetries: int := 3, userAgent: string := DefaultUserAgent,
                             headers: Option<Record> := None): (c: ScrapingConfig)
    ensures c.baseUrl == baseUrl && c.rateLimitDelay == rateLimitDelay && c.timeout == timeout
    ensures c.maxRetries == maxRetries && c.userAgent == userAgent
    ensures headers.Some? ==> c.headers == headers.value
    ensures headers.None? ==> Get(c.headers, "User-Agent") == Some(Str(userAgent)) && |c.headers| == 5
  {
    ScrapingConfig(baseUrl, rateLimitDelay, timeout, maxRetries, userAgent,
                   if headers.Some? then headers.value else DefaultHeaders(userAgent))
  }

  /** A config built from a base URL alone waits 1 second, times out after
    * 30, tries 3 times and announces itself as MedellínBot/1.0. */
  lemma DefaultScrapingConfig(baseUrl: string)
    ensures var c := NewScrapingConfig(baseUrl);
      && c.rateLimitDelay == 1.0 && c.timeout == 30 && c.maxRetries == 3
      && Get(c.headers, "User-Agent") == Some(Str("MedellínBot/1.0"))
  {
  }

  datatype ScrapingResult = ScrapingResult(
    success: bool,
    data: Option<seq<Value>>,
    errorMessage: Option<string>,
    metadata: Option<Record>,
    timestamp: int)

  /** ScrapingResult(...) followed by __post_init__: a missing timestamp
    * becomes the current time. */
  function NewScrapingResult(success: bool, now: int, data: Option<seq<Value>> := None,
                             errorMessage: Option<string> := None, metadata: Option<Record> := None,
                             timestamp: Option<int> := None): (r: ScrapingResult)
    ensures r.timestamp == if timestamp.Some? then timestamp.value else now
    ensures r.success == success && r.data == data && r.errorMessage == errorMessage && r.metadata == metadata
  {
    ScrapingResult(success, data, errorMessage, metadata, if timestamp.Some? then timestamp.value else now)
  }

  // ---------------------------------------------------------------------
  // validate_data
  // ---------------------------------------------------------------------

  /** str(type(v)) */
  function TypeText(v: Value): string
  {
    "<class '" + QualifiedTypeName(v) + "'>"
  }

  /** The errors validate_data reports for item i. */
  function ItemErrors(i: nat, item: Value): (es: seq<string>)
    ensures |es| <= 1
    ensures es == [] <==> item.Object? && item.fields != []
  {
    var prefix := "Item " + NatToString(i) + ": ";
    if !item.Object? then [prefix + "Expected dict, got " + TypeText(item)]
    else if item.fields == [] then [prefix + "Empty dictionary"]
    else []
  }

  /** The errors of the first |data| items, in item order. */
  function DataErrors(data: seq<Value>): seq<string>
  {
    if data == [] then []
    else DataErrors(data[..|data| - 1]) + ItemErrors(|data| - 1, data[|data| - 1])
  }

  /** The items validate_data objects to. */
  function BadItems(data: seq<Value>): nat
  {
    if data == [] then 0
    else BadItems(data[..|data| - 1]) + (if ItemErrors(|data| - 1, data[|data| - 1]) == [] then 0 else 1)
  }

  /** One error per item that is not a dict or is an empty dict, and so no
    * error exactly when every item is a non-empty dict. */
  lemma {:induction false} DataErrorsSpec(data: seq<Value>)
    ensures |DataErrors(data)| == BadItems(data)
    ensures DataErrors(data) == [] <==> forall i | 0 <= i < |data| :: data[i].Object? && data[i].fields != []
  {
    if data != [] {
      var init := data[..|data| - 1];
      DataErrorsSpec(init);
      assert forall i | 0 <= i < |init| :: init[i] == data[i];
    }
  }

  /** validate_data: an empty batch is invalid with "No data to validate";
    * otherwise the batch is valid exactly when no item drew an error. */
  method ValidateData(data: seq<Value>) returns (valid: bool, errors: seq<string>)
    ensures data == [] ==> !valid && errors == ["No data to validate"]
    ensures data != [] ==> errors == DataErrors(data) && (valid <==> errors == [])
  {
    if data == [] {
      return false, ["No data to validate"];
    }
    errors := [];
    var i := 0;
    while i < |data|
      invariant 0 <= i <= |data|
      invariant errors == DataErrors(data[..i])
    {
      assert data[..i + 1][..i] == data[..i];
      errors := errors + ItemErrors(i, data[i]);
      i := i + 1;
    }
    assert data[..i] == data;
    valid := |errors| == 0;
  }

  // ---------------------------------------------------------------------
  // fetch_page
  // ---------------------------------------------------------------------

  /** What one GET of the page did: returned a page (status below 400), or
    * raised aiohttp.ClientError (an error status included), a timeout, or
    * some other exception. */
  datatype PageAttempt = Page(text: string) | ClientError | Timeout | OtherError(name: string)

  /** Only client errors and timeouts are retried. */
  predicate Retryable(a: PageAttempt)
  {
    a.ClientError? || a.Timeout?
  }

  /** What fetch_page does with the attempts: return a page, raise the
    * exception of an attempt, or fall off the loop and return None. */
  datatype PageResult = Text(body: string) | Raise(error: PageAttempt) | NoPage

  /** The waits before attempts 1, ..., n-1: delay*2, delay*4, ... */
  function PageWaits(delay: real, n: nat): (ws: seq<real>)
  {
    if n <= 1 then [] else PageWaits(delay, n - 1) + [Utils.BackoffWait(delay, n - 1)]
  }

  /** One wait fewer than attempts, the j-th of them delay*2^(j+1). */
  lemma {:induction false} PageWaitsSpec(delay: real, n: nat)
    ensures |PageWaits(delay, n)| == if n == 0 then 0 else n - 1
    ensures forall j | 0 <= j < |PageWaits(delay, n)| :: PageWaits(delay, n)[j] == Utils.BackoffWait(delay, j + 1)
  {
    if n > 1 {
      PageWaitsSpec(delay, n - 1);
    }
  }

  /** fetch_page: up to maxRetries attempts, each after a wait of
    * rate_limit_delay*2^attempt except the first. A page ends the loop; a
    * client error or timeout is retried unless it was the last attempt,
    * when it is raised; any other exception is raised at once. With no
    * attempts allowed the function returns None. */
  method FetchPage(config: ScrapingConfig, outcomes: nat -> PageAttempt)
    returns (r: PageResult, attempts: nat, waits: seq<real>)
    ensures attempts <= if config.maxRetries < 0 then 0 else config.maxRetries
    ensures forall k | 0 <= k < attempts - 1 :: Retryable(outcomes(k))
    ensures r.NoPage? <==> attempts == 0
    ensures attempts == 0 <==> config.maxRetries <= 0
    ensures r.Text? ==> outcomes(attempts - 1) == Page(r.body)
    ensures r.Raise? ==> r.error == outcomes(attempts - 1) && !r.error.Page?
                         && (!Retryable(r.error) || attempts == config.maxRetries)
    ensures attempts > 0 && outcomes(attempts - 1).Page? ==> r.Text?
    ensures waits == PageWaits(config.rateLimitDelay, attempts)
  {
    attempts := 0;
    waits := [];
    while attempts < config.maxRetries
      invariant attempts == 0 || attempts < config.maxRetries
      invariant forall k | 0 <= k < attempts :: Retryable(outcomes(k))
      invariant waits == PageWaits(config.rateLimitDelay, attempts)
      decreases config.maxRetries - attempts
    {
      if attempts > 0 {
        waits := waits + [Utils.BackoffWait(config.rateLimitDelay, attempts)];
      }
      var a := outcomes(attempts);
      attempts := attempts + 1;
      match a
      case Page(text) =>
        return Text(text), attempts, waits;
      case OtherError(_) =>
        return Raise(a), attempts, waits;
      case _ =>
        if attempts == config.maxRetries {
          return Raise(a), attempts, waits;
        }
    }
    return NoPage, attempts, waits;
  }
}
