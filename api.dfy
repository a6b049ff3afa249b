/**
 * The session token, the per-installation in-flight overview cache and the
 * `apiCall` wrapper around the vendor's HTTP client.
 */
module Api {
  import opened Common
  import opened Vendor

  // ===== request options as JavaScript values =====

  datatype JsValue =
    | JsUndefined
    | JsNull
    | JsBool(b: bool)
    | JsNumber(n: int)
    | JsString(s: string)
    | JsArray(items: seq<JsValue>)
    | JsObject(fields: map<string, JsValue>)

  /** JavaScript truthiness (numbers are integers here, so NaN does not arise). */
  predicate Truthy(v: JsValue)
  {
    match v
    case JsUndefined => false
    case JsNull => false
    case JsBool(b) => b
    case JsNumber(n) => n != 0
    case JsString(s) => s != []
    case JsArray(_) => true
    case JsObject(_) => true
  }

  const AcceptHeader: string := "application/json, text/javascript, */*; q=0.01"

  /** `${VERISURE_TOKEN}`: an unset token renders as "null". */
  function TokenText(token: Option<string>): string
  {
    match token case Some(t) => t case None => "null"
  }

  function DefaultHeaders(token: Option<string>): map<string, JsValue>
  {
    map["Cookie" := JsString("vid=" + TokenText(token)), "Accept" := JsString(AcceptHeader)]
  }

  /** The `_options` object before the caller's fields are copied in. */
  function DefaultOptions(token: Option<string>): map<string, JsValue>
  {
    map["uri" := JsString(""), "method" := JsString("GET"), "headers" := JsObject(DefaultHeaders(token))]
  }

  /** The field `key` is present in the caller's options and truthy. */
  predicate Supplies(options: map<string, JsValue>, key: string)
  {
    key in options && Truthy(options[key])
  }

  /**
   * The `for (let key in options)` loop: every truthy caller field replaces
   * the default of that key wholesale; falsy fields are skipped.
   */
  method MergeOptions(defaults: map<string, JsValue>, options: map<string, JsValue>) returns (merged: map<string, JsValue>)
    ensures forall k :: k in merged <==> k in defaults || Supplies(options, k)
    ensures forall k :: Supplies(options, k) ==> merged[k] == options[k]
    ensures forall k :: k in defaults && !Supplies(options, k) ==> merged[k] == defaults[k]
  {
    merged := defaults;
    var pending := options.Keys;
    while pending != {}
      invariant pending <= options.Keys
      invariant forall k :: k in merged <==> k in defaults || (Supplies(options, k) && k !in pending)
      invariant forall k :: Supplies(options, k) && k !in pending ==> merged[k] == options[k]
      invariant forall k :: k in defaults && !(Supplies(options, k) && k !in pending) ==> merged[k] == defaults[k]
      decreases pending
    {
      var key :| key in pending;
      if Truthy(options[key]) {
        merged := merged[key := options[key]];
      }
      pending := pending - {key};
    }
  }

  /** The parts of the HTTP response the plugin reads. */
  datatype HttpResponse = HttpResponse(statusCode: int)

  /** What the vendor client passes to its callback: `(error, response, body)`. */
  datatype ClientReply<B> = ClientReply(error: Option<RequestError>, response: Option<HttpResponse>, body: B)

  /** How the promise returned by `apiCall` settles. */
  datatype ApiResult<B> =
    | Resolved(response: Option<HttpResponse>, body: B)
    | Rejected(response: Option<HttpResponse>, error: RequestError, body: B)
    | RejectedMissingUri

  /**
   * `apiCall(options)`: rejects at once when `uri` is missing or empty; otherwise
   * merges the options into the defaults, sends them (the client's reply is the
   * input `reply`), rejects when the client reports an error and resolves with
   * `error: null` otherwise. `sent` is what is handed to the client, if anything.
   */
  method ApiCall<B>(token: Option<string>, options: map<string, JsValue>, reply: ClientReply<B>)
    returns (sent: Option<map<string, JsValue>>, result: ApiResult<B>)
    ensures sent.None? <==> !Supplies(options, "uri")
    ensures sent.None? ==> result == RejectedMissingUri
    ensures sent.Some? ==> forall k :: k in sent.value <==> k in DefaultOptions(token) || Supplies(options, k)
    ensures sent.Some? ==> forall k :: Supplies(options, k) ==> sent.value[k] == options[k]
    ensures sent.Some? ==> forall k :: k in DefaultOptions(token) && !Supplies(options, k) ==> sent.value[k] == DefaultOptions(token)[k]
    ensures sent.Some? && reply.error.Some? ==> result == Rejected(reply.response, reply.error.value, reply.body)
    ensures sent.Some? && reply.error.None? ==> result == Resolved(reply.response, reply.body)
  {
    if !Supplies(options, "uri") {
      return None, RejectedMissingUri;
    }
    var merged := MergeOptions(DefaultOptions(token), options);
    sent := Some(merged);
    match reply.error
    case Some(e) => result := Rejected(reply.response, e, reply.body);
    case None => result := Resolved(reply.response, reply.body);
  }

  /** Caller headers replace the default headers as a whole: the Cookie is lost. */
  method HeadersReplacedWholesale(token: Option<string>) returns (sent: map<string, JsValue>)
    ensures "headers" in sent && sent["headers"] == JsObject(map["X-Trace" := JsString("1")])
    ensures "method" in sent && sent["method"] == JsString("GET")
  {
    var headers := JsObject(map["X-Trace" := JsString("1")]);
    var options := map["uri" := JsString("/installation/1/armstate"), "headers" := headers];
    var s, _ := ApiCall(token, options, ClientReply(None, None, ()));
    sent := s.value;
  }

  // ===== session token =====

  /** The process-wide session token (`VERISURE_TOKEN`). */
  class Session {
    var token: Option<string>

    constructor()
      ensures token == None
    {
      token := None;
    }

    /**
     * `getVerisureInstallations`: authenticate, store the token, then list the
     * installations. The two vendor replies are inputs.
     */
    method GetInstallations(auth: Result<string, Error>, installations: Result<seq<Installation>, Error>)
      returns (r: Result<seq<Installation>, Error>)
      modifies this
      ensures auth.Err? ==> r == Err(auth.error) && token == old(token)
      ensures auth.Ok? ==> token == Some(auth.value) && r == installations
    {
      match auth
      case Err(e) =>
        r := Err(e);
      case Ok(t) =>
        token := Some(t);
        r := installations;
    }
  }

  // ===== in-flight overview cache =====

  /** What `OVERVIEW_PROMISES[giid]` holds: a pending fetch, or one that was rejected. */
  datatype Slot = InFlight(fetch: nat) | Failed(fetch: nat, reason: Error)

  /**
   * `OVERVIEW_PROMISES`: at most one fetch per installation id. Fetches are
   * numbered in the order they are started; `fetches` counts the overview
   * calls made to the vendor.
   */
  class OverviewCache {
    var slots: map<string, Slot>
    var fetches: nat

    ghost predicate Valid()
      reads this
    {
      forall g :: g in slots ==> slots[g].fetch < fetches
    }

    constructor()
      ensures Valid() && slots == map[] && fetches == 0
    {
      slots := map[];
      fetches := 0;
    }

    /**
     * `getOverview(i)` for `giid`: returns the stored promise if there is one,
     * otherwise starts one fetch and stores it. `started` tells whether a
     * vendor call was made.
     */
    method Request(giid: string) returns (fetch: nat, started: bool)
      requires Valid()
      modifies this
      ensures Valid()
      ensures giid in old(slots) ==> !started && fetch == old(slots)[giid].fetch && slots == old(slots) && fetches == old(fetches)
      ensures giid !in old(slots) ==> started && fetch == old(fetches) && fetches == old(fetches) + 1 && slots == old(slots)[giid := InFlight(fetch)]
    {
      if giid in slots {
        return slots[giid].fetch, false;
      }
      fetch := fetches;
      fetches := fetches + 1;
      slots := slots[giid := InFlight(fetch)];
      started := true;
    }

    /**
     * The vendor's reply to the fetch in flight for `giid` (src/api.ts):
     * success clears the slot; failure leaves the rejected promise stored.
     */
    method Complete(giid: string, outcome: Result<Overview, Error>)
      requires Valid() && giid in slots && slots[giid].InFlight?
      modifies this
      ensures Valid() && fetches == old(fetches)
      ensures outcome.Ok? ==> slots == old(slots) - {giid}
      ensures outcome.Err? ==> slots == old(slots)[giid := Failed(old(slots)[giid].fetch, outcome.error)]
    {
      match outcome
      case Ok(_) =>
        slots := slots - {giid};
      case Err(e) =>
        slots := slots[giid := Failed(slots[giid].fetch, e)];
    }

    /** The legacy build's completion: the slot is cleared before settling, whatever the outcome. */
    method CompleteLegacy(giid: string, outcome: Result<Overview, Error>)
      requires Valid() && giid in slots && slots[giid].InFlight?
      modifies this
      ensures Valid() && fetches == old(fetches)
      ensures slots == old(slots) - {giid}
    {
      slots := slots - {giid};
    }
  }

  /** Two requests for one installation before the first settles share one vendor call. */
  method ConcurrentRequestsShareOneFetch(giid: string) returns (first: nat, second: nat, calls: nat)
    ensures first == second && calls == 1
  {
    var cache := new OverviewCache();
    var s1, s2;
    first, s1 := cache.Request(giid);
    second, s2 := cache.Request(giid);
    calls := cache.fetches;
  }

  /** After a successful fetch the next request starts a fresh one. */
  method SuccessClearsSlot(giid: string, overview: Overview) returns (first: nat, second: nat, calls: nat)
    ensures first != second && calls == 2
  {
    var cache := new OverviewCache();
    var s1, s2;
    first, s1 := cache.Request(giid);
    cache.Complete(giid, Ok(overview));
    second, s2 := cache.Request(giid);
    calls := cache.fetches;
  }

  /** After a failed fetch every later request gets the same rejected promise and no call is made. */
  method FailureIsSticky(giid: string, reason: Error) returns (first: nat, second: nat, calls: nat, stored: Slot)
    ensures first == second && calls == 1 && stored == Failed(first, reason)
  {
    var cache := new OverviewCache();
    var s1, s2;
    first, s1 := cache.Request(giid);
    cache.Complete(giid, Err(reason));
    second, s2 := cache.Request(giid);
    calls := cache.fetches;
    stored := cache.slots[giid];
  }

  /** In the legacy build a failed fetch is retried by the next request. */
  method LegacyFailureRefetches(giid: string, reason: Error) returns (first: nat, second: nat, calls: nat)
    ensures first != second && calls == 2
  {
    var cache := new OverviewCache();
    var s1, s2;
    first, s1 := cache.Request(giid);
    cache.CompleteLegacy(giid, Err(reason));
    second, s2 := cache.Request(giid);
    calls := cache.fetches;
  }

  /** Requests and completions for one installation leave every other installation's slot alone. */
  method OtherInstallationsUntouched(a: string, b: string, outcome: Result<Overview, Error>) returns (before: Slot, after: Slot)
    requires a != b
    ensures before == after
  {
    var cache := new OverviewCache();
    var f, s;
    f, s := cache.Request(b);
    before := cache.slots[b];
    f, s := cache.Request(a);
    cache.Complete(a, outcome);
    f, s := cache.Request(a);
    after := cache.slots[b];
  }
}
