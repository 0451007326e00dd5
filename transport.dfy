/** The request layer of the client: apiGet and apiPost with their timeout, retry and fallback
    decisions, convertPostToGet, and testApiConnection. Every fetch is replaced by the outcome the
    network gives for it, and every sleep by the delay it would wait. */
module Transport {
  import opened Js
  import opened Text

  // ---------------------------------------------------------------------------
  // Configuration

  /** The static client configuration. */
  datatype Config = Config(timeoutMs: nat, retryAttempts: nat, useCorsProxy: bool)

  /** The configuration the client ships with: 15 s timeout, two retries, no proxy. */
  const AppConfig := Config(15000, 2, false)

  const ApiUrl := "https://script.google.com/macros/s/AKfycbwBIpyl1MyfNkA8M3tfZqes-miMFunrUi9I58DCNSwI3TNYzHH1dbYuhsKz9UYU0HaPbQ/exec"
  const CorsProxyUrl := "https://cors-anywhere.herokuapp.com/"

  // ---------------------------------------------------------------------------
  // Values exchanged with the network

  /** A thrown JavaScript error: its `name` and its `message`. */
  datatype JsError = JsError(name: string, message: string)

  /** `new Error(message)`. */
  function Error(message: string): (e: JsError)
    ensures e.name == "Error" && e.message == message
  {
    JsError("Error", message)
  }

  /** The JSON object the server answers with, as far as the client reads it. */
  datatype Reply = Reply(status: Option<string>, message: Option<string>, data: Option<Record>)

  /** How an awaited call ends: with a value or with a thrown error. */
  datatype Outcome<T> = Returned(value: T) | Thrown(error: JsError)

  /** What `response.json()` yields: the parsed object, or the error it throws. */
  datatype Body = Json(reply: Reply) | Unparsable(parseError: JsError)

  /** What one `fetch` yields: a rejection (abort, network failure), or a response with its
      `ok`, `status`, `statusText`, whether its `type` is `'opaque'`, and its body. */
  datatype FetchOutcome =
    | Rejected(reason: JsError)
    | Responded(ok: bool, status: nat, statusText: string, isOpaque: bool, body: Body)

  /** The network: the outcome of the n-th fetch the client issues. */
  type Network = nat -> FetchOutcome

  datatype Method = HttpGet | HttpPost
  datatype Mode = Cors | NoCors

  /** The object apiPost sends, with the members convertPostToGet reads. */
  datatype PostData = PostData(action: Option<string>, data: Option<Record>, transactionId: Option<string>,
                               regNo: Option<string>)

  /** One fetch as issued: method, URL without its query, mode, query parameters in order, body,
      and the abort deadline. */
  datatype FetchRequest = FetchRequest(verb: Method, url: string, mode: Mode, query: seq<(string, string)>,
                                       body: Option<PostData>, timeoutMs: nat)

  /** The parameters object of apiGet, in key order; `None` is a null or undefined value. */
  type Params = seq<(string, Option<string>)>

  /** What a call did: its outcome, the fetches it issued in order, and the delays it slept in order. */
  datatype Trace = Trace(result: Outcome<Reply>, requests: seq<FetchRequest>, delays: seq<nat>)

  // ---------------------------------------------------------------------------
  // Messages

  const NoCorsMessage := "Request sent (no-cors mode)"
  const TimeoutMessage := "Request timeout: Server is not responding. Please try again."
  const NetworkMessage := "Network error: Cannot connect to server. Please check:\n\U{2022} Your internet connection\n\U{2022} API URL configuration\n\U{2022} CORS settings"
  const CorsMessage := "CORS error: Cross-origin request blocked. Trying alternative method..."
  const AllFailedMessage := "All connection methods failed. Please check your network and try again."

  /** The reply standing in for a response whose body cannot be read. */
  const NoCorsReply := Reply(Some("ok"), Some(NoCorsMessage), None)

  /** The error thrown for a response that is not ok: `HTTP `, the status in decimal, `: ` and
      the status text. */
  function HttpError(status: nat, statusText: string): (e: JsError)
    ensures e.name == "Error" && StartsWith(e.message, "HTTP ")
    ensures var digits := Decimal(status);
      && e.message == "HTTP " + digits + ": " + statusText
      && DigitsValue(digits) == status
  {
    Error("HTTP " + Decimal(status) + ": " + statusText)
  }

  // ---------------------------------------------------------------------------
  // One attempt

  /** One attempt as written: the `ok` test runs before the `opaque` test. */
  function AttemptAsWritten(o: FetchOutcome): (r: Outcome<Reply>)
    ensures o.Rejected? ==> r == Thrown(o.reason)
    ensures o.Responded? && !o.ok ==> r == Thrown(HttpError(o.status, o.statusText))
    ensures o.Responded? && o.ok && o.isOpaque ==> r == Returned(NoCorsReply)
    ensures o.Responded? && o.ok && !o.isOpaque ==>
      r == match o.body case Json(reply) => Returned(reply) case Unparsable(error) => Thrown(error)
  {
    match o
    case Rejected(reason) => Thrown(reason)
    case Responded(ok, status, statusText, isOpaque, body) =>
      if !ok then Thrown(HttpError(status, statusText))
      else if isOpaque then Returned(NoCorsReply)
      else match body
        case Json(reply) => Returned(reply)
        case Unparsable(error) => Thrown(error)
  }

  /** One attempt with the `opaque` test first, so that an unreadable no-cors response yields the
      stand-in reply as the code's comment intends. */
  function Attempt(o: FetchOutcome): (r: Outcome<Reply>)
    ensures o.Rejected? ==> r == Thrown(o.reason)
    ensures o.Responded? && o.isOpaque ==> r == Returned(NoCorsReply)
    ensures o.Responded? && !o.isOpaque && !o.ok ==> r == Thrown(HttpError(o.status, o.statusText))
    ensures o.Responded? && !o.isOpaque && o.ok ==>
      r == match o.body case Json(reply) => Returned(reply) case Unparsable(error) => Thrown(error)
  {
    match o
    case Rejected(reason) => Thrown(reason)
    case Responded(ok, status, statusText, isOpaque, body) =>
      if isOpaque then Returned(NoCorsReply)
      else if !ok then Thrown(HttpError(status, statusText))
      else match body
        case Json(reply) => Returned(reply)
        case Unparsable(error) => Thrown(error)
  }

  /** A response of type `'opaque'` as the Fetch standard defines it: status 0, empty status
      text, and therefore `ok` false. */
  predicate StandardOpaque(o: FetchOutcome) {
    o.Responded? && o.isOpaque && !o.ok && o.status == 0 && o.statusText == ""
  }

  /** As written, a standard opaque response never reaches the no-cors branch: it throws `HTTP 0: `. */
  lemma OpaqueThrowsAsWritten(o: FetchOutcome)
    requires StandardOpaque(o)
    ensures AttemptAsWritten(o) == Thrown(Error("HTTP 0: "))
    ensures Attempt(o) == Returned(NoCorsReply)
  {
    assert Decimal(0) == "0";
  }

  /** The two orders agree on every outcome except an opaque response that is not ok. */
  lemma AttemptOrdersAgree(o: FetchOutcome)
    ensures AttemptAsWritten(o) == Attempt(o) <==> !(o.Responded? && o.isOpaque && !o.ok)
  {
    if o.Responded? && o.isOpaque && !o.ok {
      assert AttemptAsWritten(o).Thrown?;
    }
  }

  /** Which attempt a call runs: the source's order (`ok` tested first) or the corrected one
      (`opaque` tested first). */
  datatype CheckOrder = OkFirst | OpaqueFirst

  function AttemptIn(order: CheckOrder, o: FetchOutcome): Outcome<Reply> {
    match order
    case OkFirst => AttemptAsWritten(o)
    case OpaqueFirst => Attempt(o)
  }

  // ---------------------------------------------------------------------------
  // Query parameters

  /** The parameters apiGet appends: those whose value is neither null nor undefined, in key order. */
  function PresentParams(params: Params): seq<(string, string)>
    decreases |params|
  {
    if params == [] then []
    else
      var rest := PresentParams(params[1..]);
      match params[0].1
      case None => rest
      case Some(v) => [(params[0].0, v)] + rest
  }

  /** The query keeps exactly the present pairs. */
  lemma {:induction false} PresentParamsMembers(params: Params, key: string, value: string)
    ensures (key, value) in PresentParams(params) <==> (key, Some(value)) in params
    decreases |params|
  {
    if params != [] {
      PresentParamsMembers(params[1..], key, value);
      assert params == [params[0]] + params[1..];
    }
  }

  /** Filtering respects order: the query of a concatenation is the concatenation of the queries. */
  lemma {:induction false} PresentParamsAppend(a: Params, b: Params)
    ensures PresentParams(a + b) == PresentParams(a) + PresentParams(b)
    decreases |a|
  {
    if a != [] {
      assert (a + b)[0] == a[0];
      assert (a + b)[1..] == a[1..] + b;
      PresentParamsAppend(a[1..], b);
      var front := match a[0].1 case None => [] case Some(v) => [(a[0].0, v)];
      assert PresentParams(a) == front + PresentParams(a[1..]);
      assert PresentParams(a + b) == front + PresentParams(a[1..] + b);
    } else {
      assert a + b == b;
    }
  }

  /** The loop of apiGet that copies the present parameters into `url.searchParams`. */
  method AppendParams(params: Params) returns (query: seq<(string, string)>)
    ensures query == PresentParams(params)
  {
    query := [];
    var i := 0;
    while i < |params|
      invariant 0 <= i <= |params|
      invariant query == PresentParams(params[..i])
    {
      var (key, value) := params[i];
      PresentParamsAppend(params[..i], [params[i]]);
      assert params[..i + 1] == params[..i] + [params[i]];
      if value.Some? {
        query := query + [(key, value.value)];
      }
      i := i + 1;
    }
    assert params[..|params|] == params;
  }

  // ---------------------------------------------------------------------------
  // apiGet

  function BaseUrl(cfg: Config): string {
    if cfg.useCorsProxy then CorsProxyUrl + ApiUrl else ApiUrl
  }

  function ModeOf(cfg: Config): Mode {
    if cfg.useCorsProxy then Cors else NoCors
  }

  /** The fetch apiGet issues for `params`. */
  function GetRequest(cfg: Config, params: Params): FetchRequest {
    FetchRequest(HttpGet, BaseUrl(cfg), ModeOf(cfg), PresentParams(params), None, cfg.timeoutMs)
  }

  /** The number of attempts a call starting at `retryCount` may make. */
  function Budget(cfg: Config, retryCount: nat): nat {
    if retryCount <= cfg.retryAttempts then cfg.retryAttempts - retryCount + 1 else 1
  }

  /** A network failure as `fetch` reports it. */
  predicate FailedToFetch(e: JsError) {
    e.name == "TypeError" && Contains(e.message, "Failed to fetch")
  }

  /** The error apiGet throws once its retries are spent. */
  function GetFailure(e: JsError): (r: JsError)
    ensures e.name == "AbortError" ==> r == Error(TimeoutMessage)
    ensures e.name != "AbortError" && FailedToFetch(e) ==> r == Error(NetworkMessage)
    ensures e.name != "AbortError" && !FailedToFetch(e) && Contains(e.message, "CORS") ==> r == Error(CorsMessage)
    ensures e.name != "AbortError" && !FailedToFetch(e) && !Contains(e.message, "CORS") ==> r == e
  {
    if e.name == "AbortError" then Error(TimeoutMessage)
    else if FailedToFetch(e) then Error(NetworkMessage)
    else if Contains(e.message, "CORS") then Error(CorsMessage)
    else e
  }

  /** `apiGet(params, retryCount)`, whose first fetch is the network's fetch number `next`.
      The first attempt that does not throw ends the call; a throwing attempt is retried after
      `1000 * (retryCount + 1)` ms while `retryCount < retryAttempts`; the last error is classified. */
  function ApiGet(cfg: Config, order: CheckOrder, params: Params, net: Network, next: nat, retryCount: nat): (t: Trace)
    ensures 1 <= |t.requests| <= Budget(cfg, retryCount)
    ensures forall k :: 0 <= k < |t.requests| ==> t.requests[k] == GetRequest(cfg, params)
    ensures |t.delays| == |t.requests| - 1
    ensures forall k :: 0 <= k < |t.delays| ==> t.delays[k] == 1000 * (retryCount + k + 1)
    ensures forall i :: next <= i < next + |t.requests| - 1 ==> AttemptIn(order, net(i)).Thrown?
    ensures var last := AttemptIn(order, net(next + |t.requests| - 1));
      && (last.Returned? ==> t.result == last)
      && (last.Thrown? ==> |t.requests| == Budget(cfg, retryCount) && t.result == Thrown(GetFailure(last.error)))
    decreases if retryCount <= cfg.retryAttempts then cfg.retryAttempts - retryCount else 0
  {
    var request := GetRequest(cfg, params);
    match AttemptIn(order, net(next))
    case Returned(reply) => Trace(Returned(reply), [request], [])
    case Thrown(error) =>
      if retryCount < cfg.retryAttempts then
        var rest := ApiGet(cfg, order, params, net, next + 1, retryCount + 1);
        var t := Trace(rest.result, [request] + rest.requests, [1000 * (retryCount + 1)] + rest.delays);
        assert t.requests[1..] == rest.requests && t.delays[1..] == rest.delays;
        assert next + |t.requests| - 1 == next + 1 + |rest.requests| - 1;
        assert Budget(cfg, retryCount) == Budget(cfg, retryCount + 1) + 1;
        t
      else
        Trace(Thrown(GetFailure(error)), [request], [])
  }

  /** `apiGet(params)` as the screens and the pass page invoke it: the shipped configuration, the
      check order as written, and no retries spent yet. */
  function Get(params: Params, net: Network, next: nat): (t: Trace)
    ensures 1 <= |t.requests| <= 3
    ensures forall k :: 0 <= k < |t.requests| ==> t.requests[k] == GetRequest(AppConfig, params)
    ensures t.result.Returned? ==> t.result == AttemptAsWritten(net(next + |t.requests| - 1))
  {
    ApiGet(AppConfig, OkFirst, params, net, next, 0)
  }

  /** With the shipped configuration, in either check order, a server that never answers costs
      exactly three attempts, 1000 ms and 2000 ms apart, and ends in the timeout message. */
  lemma ThreeTimeouts(order: CheckOrder, params: Params, net: Network, next: nat, abort: string)
    requires forall k :: next <= k < next + 3 ==> net(k) == Rejected(JsError("AbortError", abort))
    ensures var t := ApiGet(AppConfig, order, params, net, next, 0);
      && t.result == Thrown(Error(TimeoutMessage))
      && t.requests == [GetRequest(AppConfig, params), GetRequest(AppConfig, params), GetRequest(AppConfig, params)]
      && t.delays == [1000, 2000]
  {
    var t := ApiGet(AppConfig, order, params, net, next, 0);
    assert AttemptIn(order, net(next + |t.requests| - 1)).Thrown?;
  }

  /** A reply, whatever its status, ends the call after that one attempt. */
  lemma ReplyEndsCall(cfg: Config, order: CheckOrder, params: Params, net: Network, next: nat, retryCount: nat)
    requires AttemptIn(order, net(next)).Returned?
    ensures ApiGet(cfg, order, params, net, next, retryCount) ==
      Trace(AttemptIn(order, net(next)), [GetRequest(cfg, params)], [])
  {
  }

  /** A response that is not ok, and not opaque, is retried while the budget lasts, in either order. */
  lemma NotOkIsRetried(cfg: Config, order: CheckOrder, params: Params, net: Network, next: nat, retryCount: nat)
    requires net(next).Responded? && !net(next).ok && !net(next).isOpaque
    requires retryCount < cfg.retryAttempts
    ensures |ApiGet(cfg, order, params, net, next, retryCount).requests| >= 2
    ensures ApiGet(cfg, order, params, net, next, retryCount).delays[0] == 1000 * (retryCount + 1)
  {
  }

  /** The `HTTP 0: ` error is neither an abort, nor a fetch failure, nor about CORS, so apiGet
      rethrows it unchanged. */
  lemma HttpZeroUnclassified()
    ensures HttpError(0, "") == Error("HTTP 0: ")
    ensures !FailedToFetch(Error("HTTP 0: "))
    ensures GetFailure(Error("HTTP 0: ")) == Error("HTTP 0: ")
  {
    assert Decimal(0) == ['0'];
    assert "HTTP " + ['0'] + ": " + "" == "HTTP 0: ";
    assert Error("HTTP 0: ").name == "Error";
    NotContainsWithoutFirst("HTTP 0: ", "CORS");
  }

  /** Every attempt on a standard opaque response throws `HTTP 0: ` as written and yields the
      stand-in reply with the corrected order. */
  lemma OpaqueAttempts(net: Network, next: nat, n: nat)
    requires forall k :: next <= k < next + n ==> StandardOpaque(net(k))
    ensures forall k :: next <= k < next + n ==>
      AttemptIn(OkFirst, net(k)) == Thrown(Error("HTTP 0: ")) && AttemptIn(OpaqueFirst, net(k)) == Returned(NoCorsReply)
  {
    forall k | next <= k < next + n
      ensures AttemptIn(OkFirst, net(k)) == Thrown(Error("HTTP 0: ")) && AttemptIn(OpaqueFirst, net(k)) == Returned(NoCorsReply)
    {
      OpaqueThrowsAsWritten(net(k));
    }
  }

  /** Three attempts that throw the same error, which apiGet does not reclassify: three fetches,
      1000 ms and 2000 ms apart, and that error. */
  lemma GetThrowsThrice(order: CheckOrder, params: Params, net: Network, next: nat, e: JsError)
    requires forall k :: next <= k < next + 3 ==> AttemptIn(order, net(k)) == Thrown(e)
    requires GetFailure(e) == e
    ensures ApiGet(AppConfig, order, params, net, next, 0) ==
      Trace(Thrown(e), [GetRequest(AppConfig, params), GetRequest(AppConfig, params), GetRequest(AppConfig, params)],
        [1000, 2000])
  {
    var request := GetRequest(AppConfig, params);
    var t := ApiGet(AppConfig, order, params, net, next, 0);
    assert AttemptIn(order, net(next + |t.requests| - 1)) == Thrown(e);
    assert |t.requests| == 3;
    assert t.requests == [request, request, request];
    assert t.delays == [1000, 2000];
  }

  /** As written, the shipped no-cors configuration gets only standard opaque responses and so
      makes three GETs, 1000 ms and 2000 ms apart, and throws `HTTP 0: `. With the corrected order
      the first response ends the call with the stand-in reply. */
  lemma OpaqueGetAsWritten(params: Params, net: Network, next: nat)
    requires forall k :: next <= k < next + 3 ==> StandardOpaque(net(k))
    ensures ApiGet(AppConfig, OkFirst, params, net, next, 0) ==
      Trace(Thrown(Error("HTTP 0: ")),
        [GetRequest(AppConfig, params), GetRequest(AppConfig, params), GetRequest(AppConfig, params)], [1000, 2000])
    ensures ApiGet(AppConfig, OpaqueFirst, params, net, next, 0) ==
      Trace(Returned(NoCorsReply), [GetRequest(AppConfig, params)], [])
  {
    HttpZeroUnclassified();
    OpaqueAttempts(net, next, 3);
    GetThrowsThrice(OkFirst, params, net, next, Error("HTTP 0: "));
  }

  // ---------------------------------------------------------------------------
  // apiPost and convertPostToGet

  /** The fetch apiPost issues for `data`. */
  function PostRequest(cfg: Config, data: PostData): FetchRequest {
    FetchRequest(HttpPost, BaseUrl(cfg), ModeOf(cfg), [], Some(data), cfg.timeoutMs)
  }

  /** The position convertPostToGet gives a key: action, data, transactionId, regNo. */
  function ConvertedRank(key: string): nat {
    if key == "action" then 0
    else if key == "data" then 1
    else if key == "transactionId" then 2
    else if key == "regNo" then 3
    else 4
  }

  /** The GET parameters convertPostToGet builds: `action` always, and `data` (JSON text),
      `transactionId` and `regNo` when truthy. */
  function ConvertedParams(data: PostData, stringify: Record -> string): (p: Params)
    ensures |p| == 1 + (if data.data.Some? then 1 else 0) + (if Truthy(data.transactionId) then 1 else 0)
      + (if Truthy(data.regNo) then 1 else 0)
    ensures p[0] == ("action", data.action)
    ensures data.data.Some? ==> ("data", Some(stringify(data.data.value))) in p
    ensures Truthy(data.transactionId) ==> ("transactionId", data.transactionId) in p
    ensures Truthy(data.regNo) ==> ("regNo", data.regNo) in p
    ensures forall i :: 0 <= i < |p| ==>
      && (p[i].0 == "data" ==> data.data.Some?)
      && (p[i].0 == "transactionId" ==> Truthy(data.transactionId))
      && (p[i].0 == "regNo" ==> Truthy(data.regNo))
    ensures forall i, j :: 0 <= i < j < |p| ==> ConvertedRank(p[i].0) < ConvertedRank(p[j].0)
  {
    [("action", data.action)]
    + (if data.data.Some? then [("data", Some(stringify(data.data.value)))] else [])
    + (if Truthy(data.transactionId) then [("transactionId", data.transactionId)] else [])
    + (if Truthy(data.regNo) then [("regNo", data.regNo)] else [])
  }

  /** The registration form's request (action and form data only) falls back to a GET carrying the
      action and the JSON text of the form data, in this order. */
  lemma RegistrationFallbackQuery(form: Record, stringify: Record -> string)
    ensures PresentParams(ConvertedParams(PostData(Some("register"), Some(form), None, None), stringify))
      == [("action", "register"), ("data", stringify(form))]
  {
    var p := ConvertedParams(PostData(Some("register"), Some(form), None, None), stringify);
    assert p == [("action", Some("register")), ("data", Some(stringify(form)))];
    assert p[1..] == [("data", Some(stringify(form)))];
    assert p[1..][1..] == [];
    assert PresentParams(p[1..]) == [("data", stringify(form))] + PresentParams([]);
  }

  /** `convertPostToGet(data)`: one full apiGet; any error it throws becomes the final message. */
  function ConvertPostToGet(cfg: Config, order: CheckOrder, data: PostData, stringify: Record -> string, net: Network, next: nat): (t: Trace)
    ensures var g := ApiGet(cfg, order, ConvertedParams(data, stringify), net, next, 0);
      && t.requests == g.requests && t.delays == g.delays
      && (g.result.Returned? ==> t.result == g.result)
      && (g.result.Thrown? ==> t.result == Thrown(Error(AllFailedMessage)))
  {
    var g := ApiGet(cfg, order, ConvertedParams(data, stringify), net, next, 0);
    if g.result.Thrown? then Trace(Thrown(Error(AllFailedMessage)), g.requests, g.delays) else g
  }

  /** The number of POST fetches at the front of a request list. */
  function LeadingPosts(requests: seq<FetchRequest>): nat
    decreases |requests|
  {
    if requests != [] && requests[0].verb == HttpPost then 1 + LeadingPosts(requests[1..]) else 0
  }

  lemma LeadingPostsOfGets(requests: seq<FetchRequest>)
    requires requests != [] && requests[0].verb == HttpGet
    ensures LeadingPosts(requests) == 0
  {
  }

  /** The first `n` fetches of `t` are POST attempts, retried on the apiGet schedule: every one
      before the last threw, and `n` stays within the budget. */
  predicate PostAttempts(cfg: Config, order: CheckOrder, data: PostData, net: Network, next: nat, retryCount: nat, n: nat, t: Trace) {
    && 1 <= n <= Budget(cfg, retryCount) && n <= |t.requests| && n - 1 <= |t.delays|
    && (forall k :: 0 <= k < n ==> t.requests[k] == PostRequest(cfg, data))
    && (forall k :: 0 <= k < n - 1 ==> t.delays[k] == 1000 * (retryCount + k + 1))
    && (forall i :: next <= i < next + n - 1 ==> AttemptIn(order, net(i)).Thrown?)
  }

  /** How the last of the `n` POST attempts decides the call: a reply ends it, an error ends it
      only once the budget is spent, a timeout becomes the timeout message, "Failed to fetch" hands
      over to convertPostToGet, and any other error is rethrown unchanged. */
  predicate PostEnd(cfg: Config, order: CheckOrder, data: PostData, stringify: Record -> string, net: Network, next: nat,
                    retryCount: nat, n: nat, t: Trace)
    requires 1 <= n <= |t.requests| && n - 1 <= |t.delays|
  {
    LastPostEnds(cfg, order, data, stringify, net, next + n - 1, n == Budget(cfg, retryCount),
      t.result, t.requests[n..], t.delays[n - 1..])
  }

  /** How the POST attempt that is fetch number `i` ends a call whose outcome is `result`, whose
      fetches after that attempt are `after` and whose delays after it are `waits`; `spent` says
      whether it was the last attempt the budget allows. */
  predicate LastPostEnds(cfg: Config, order: CheckOrder, data: PostData, stringify: Record -> string, net: Network,
                         i: nat, spent: bool, result: Outcome<Reply>, after: seq<FetchRequest>, waits: seq<nat>)
  {
    var last := AttemptIn(order, net(i));
    && (last.Returned? ==> result == last && after == [] && waits == [])
    && (last.Thrown? ==>
          && spent
          && (last.error.name == "AbortError" ==>
                result == Thrown(Error(TimeoutMessage)) && after == [] && waits == [])
          && (last.error.name != "AbortError" && FailedToFetch(last.error) ==>
                var g := ConvertPostToGet(cfg, order, data, stringify, net, i + 1);
                after == g.requests && waits == g.delays && result == g.result)
          && (last.error.name != "AbortError" && !FailedToFetch(last.error) ==>
                result == last && after == [] && waits == []))
  }

  predicate PostOutcome(cfg: Config, order: CheckOrder, data: PostData, stringify: Record -> string, net: Network, next: nat,
                        retryCount: nat, n: nat, t: Trace) {
    PostAttempts(cfg, order, data, net, next, retryCount, n, t) && PostEnd(cfg, order, data, stringify, net, next, retryCount, n, t)
  }

  /** `apiPost(data, retryCount)`: the retry schedule of apiGet over POST fetches; once the retries
      are spent a timeout becomes the timeout message, "Failed to fetch" falls back to
      convertPostToGet, and any other error is rethrown unchanged. */
  function ApiPost(cfg: Config, order: CheckOrder, data: PostData, stringify: Record -> string, net: Network, next: nat,
                   retryCount: nat): (t: Trace)
    ensures PostOutcome(cfg, order, data, stringify, net, next, retryCount, LeadingPosts(t.requests), t)
    decreases if retryCount <= cfg.retryAttempts then cfg.retryAttempts - retryCount else 0
  {
    var request := PostRequest(cfg, data);
    match AttemptIn(order, net(next))
    case Returned(reply) =>
      PostSingleAttempt(cfg, order, data, stringify, net, next, retryCount, Returned(reply));
      Trace(Returned(reply), [request], [])
    case Thrown(error) =>
      if retryCount < cfg.retryAttempts then
        var rest := ApiPost(cfg, order, data, stringify, net, next + 1, retryCount + 1);
        PostRetryStep(cfg, order, data, stringify, net, next, retryCount, rest);
        Trace(rest.result, [request] + rest.requests, [1000 * (retryCount + 1)] + rest.delays)
      else if error.name == "AbortError" then
        PostSingleAttempt(cfg, order, data, stringify, net, next, retryCount, Thrown(Error(TimeoutMessage)));
        Trace(Thrown(Error(TimeoutMessage)), [request], [])
      else if FailedToFetch(error) then
        var g := ConvertPostToGet(cfg, order, data, stringify, net, next + 1);
        PostFallbackStep(cfg, order, data, stringify, net, next, retryCount, g);
        Trace(g.result, [request] + g.requests, g.delays)
      else
        PostSingleAttempt(cfg, order, data, stringify, net, next, retryCount, Thrown(error));
        Trace(Thrown(error), [request], [])
  }

  /** A call that ends with its first POST: a reply, or, once the budget is spent, a timeout or an
      error that is not a fetch failure. */
  lemma PostSingleAttempt(cfg: Config, order: CheckOrder, data: PostData, stringify: Record -> string, net: Network,
                          next: nat, retryCount: nat, result: Outcome<Reply>)
    requires var last := AttemptIn(order, net(next));
      || (last.Returned? && result == last)
      || (last.Thrown? && retryCount >= cfg.retryAttempts && last.error.name == "AbortError"
          && result == Thrown(Error(TimeoutMessage)))
      || (last.Thrown? && retryCount >= cfg.retryAttempts && last.error.name != "AbortError"
          && !FailedToFetch(last.error) && result == last)
    ensures var t := Trace(result, [PostRequest(cfg, data)], []);
      PostOutcome(cfg, order, data, stringify, net, next, retryCount, LeadingPosts(t.requests), t)
  {
    var t := Trace(result, [PostRequest(cfg, data)], []);
    assert t.requests[1..] == [];
    assert LeadingPosts(t.requests) == 1;
  }

  /** Three POST attempts that throw the same error, neither an abort nor a fetch failure: three
      fetches, 1000 ms and 2000 ms apart, and that error rethrown. */
  lemma PostThrowsThrice(order: CheckOrder, data: PostData, stringify: Record -> string, net: Network, next: nat,
                         e: JsError)
    requires forall k :: next <= k < next + 3 ==> AttemptIn(order, net(k)) == Thrown(e)
    requires e.name != "AbortError" && !FailedToFetch(e)
    ensures ApiPost(AppConfig, order, data, stringify, net, next, 0) ==
      Trace(Thrown(e), [PostRequest(AppConfig, data), PostRequest(AppConfig, data), PostRequest(AppConfig, data)],
        [1000, 2000])
  {
    PostThrowsOnBudgetTwo(AppConfig, order, data, stringify, net, next, e);
  }

  lemma PostThrowsOnBudgetTwo(cfg: Config, order: CheckOrder, data: PostData, stringify: Record -> string, net: Network,
                              next: nat, e: JsError)
    requires cfg.retryAttempts == 2
    requires forall k :: next <= k < next + 3 ==> AttemptIn(order, net(k)) == Thrown(e)
    requires e.name != "AbortError" && !FailedToFetch(e)
    ensures ApiPost(cfg, order, data, stringify, net, next, 0) ==
      Trace(Thrown(e), [PostRequest(cfg, data), PostRequest(cfg, data), PostRequest(cfg, data)], [1000, 2000])
  {
    assert AttemptIn(order, net(next + 2)) == Thrown(e);
    PostLastThrows(cfg, order, data, stringify, net, next + 2, 2, e);
    assert AttemptIn(order, net(next + 1)) == Thrown(e);
    PostRetryUnfolds(cfg, order, data, stringify, net, next + 1, 1);
    assert AttemptIn(order, net(next)) == Thrown(e);
    PostRetryUnfolds(cfg, order, data, stringify, net, next, 0);
    ThreeAttemptTrace(ApiPost(cfg, order, data, stringify, net, next, 0), ApiPost(cfg, order, data, stringify, net, next + 1, 1),
      ApiPost(cfg, order, data, stringify, net, next + 2, 2), PostRequest(cfg, data), e);
  }

  /** Two retries in front of a last attempt that threw `e`. */
  lemma ThreeAttemptTrace(t0: Trace, t1: Trace, t2: Trace, request: FetchRequest, e: JsError)
    requires t2 == Trace(Thrown(e), [request], [])
    requires t1 == Trace(t2.result, [request] + t2.requests, [1000 * (1 + 1)] + t2.delays)
    requires t0 == Trace(t1.result, [request] + t1.requests, [1000 * (0 + 1)] + t1.delays)
    ensures t0 == Trace(Thrown(e), [request, request, request], [1000, 2000])
  {
    assert t1.requests == [request, request];
  }

  /** A throwing attempt with budget left is followed by the retry's whole call. */
  lemma PostRetryUnfolds(cfg: Config, order: CheckOrder, data: PostData, stringify: Record -> string, net: Network,
                         next: nat, retryCount: nat)
    requires AttemptIn(order, net(next)).Thrown? && retryCount < cfg.retryAttempts
    ensures var rest := ApiPost(cfg, order, data, stringify, net, next + 1, retryCount + 1);
      ApiPost(cfg, order, data, stringify, net, next, retryCount)
        == Trace(rest.result, [PostRequest(cfg, data)] + rest.requests, [1000 * (retryCount + 1)] + rest.delays)
  {
  }

  /** The last attempt the budget allows, throwing neither an abort nor a fetch failure, rethrows
      its error after that one fetch. */
  lemma PostLastThrows(cfg: Config, order: CheckOrder, data: PostData, stringify: Record -> string, net: Network,
                       next: nat, retryCount: nat, e: JsError)
    requires AttemptIn(order, net(next)) == Thrown(e) && retryCount >= cfg.retryAttempts
    requires e.name != "AbortError" && !FailedToFetch(e)
    ensures ApiPost(cfg, order, data, stringify, net, next, retryCount) == Trace(Thrown(e), [PostRequest(cfg, data)], [])
  {
  }

  /** As written, the shipped configuration sends the POST three times, 1000 ms and 2000 ms apart,
      and rethrows `HTTP 0: `: that error is not "Failed to fetch", so convertPostToGet is never
      tried. With the corrected order the first response ends the call with the stand-in reply. */
  lemma OpaquePostAsWritten(data: PostData, stringify: Record -> string, net: Network, next: nat)
    requires forall k :: next <= k < next + 3 ==> StandardOpaque(net(k))
    ensures ApiPost(AppConfig, OkFirst, data, stringify, net, next, 0) ==
      Trace(Thrown(Error("HTTP 0: ")),
        [PostRequest(AppConfig, data), PostRequest(AppConfig, data), PostRequest(AppConfig, data)], [1000, 2000])
    ensures ApiPost(AppConfig, OpaqueFirst, data, stringify, net, next, 0) ==
      Trace(Returned(NoCorsReply), [PostRequest(AppConfig, data)], [])
  {
    HttpZeroUnclassified();
    OpaqueAttempts(net, next, 3);
    PostThrowsThrice(OkFirst, data, stringify, net, next, Error("HTTP 0: "));
  }

  /** A retried call extends the retry's outcome by one attempt at the front. */
  lemma PostRetryStep(cfg: Config, order: CheckOrder, data: PostData, stringify: Record -> string, net: Network, next: nat,
                      retryCount: nat, rest: Trace)
    requires AttemptIn(order, net(next)).Thrown? && retryCount < cfg.retryAttempts
    requires PostOutcome(cfg, order, data, stringify, net, next + 1, retryCount + 1, LeadingPosts(rest.requests), rest)
    ensures var t := Trace(rest.result, [PostRequest(cfg, data)] + rest.requests, [1000 * (retryCount + 1)] + rest.delays);
      PostOutcome(cfg, order, data, stringify, net, next, retryCount, LeadingPosts(t.requests), t)
  {
    var t := Trace(rest.result, [PostRequest(cfg, data)] + rest.requests, [1000 * (retryCount + 1)] + rest.delays);
    var m := LeadingPosts(rest.requests);
    assert t.requests[1..] == rest.requests;
    assert LeadingPosts(t.requests) == m + 1;
    PostRetryAttempts(cfg, order, data, net, next, retryCount, rest, m);
    PostRetryEnd(cfg, order, data, stringify, net, next, retryCount, rest, m);
  }

  lemma PostRetryAttempts(cfg: Config, order: CheckOrder, data: PostData, net: Network, next: nat, retryCount: nat, rest: Trace, m: nat)
    requires AttemptIn(order, net(next)).Thrown? && retryCount < cfg.retryAttempts
    requires PostAttempts(cfg, order, data, net, next + 1, retryCount + 1, m, rest)
    ensures PostAttempts(cfg, order, data, net, next, retryCount, m + 1,
      Trace(rest.result, [PostRequest(cfg, data)] + rest.requests, [1000 * (retryCount + 1)] + rest.delays))
  {
    var t := Trace(rest.result, [PostRequest(cfg, data)] + rest.requests, [1000 * (retryCount + 1)] + rest.delays);
    assert forall k :: 1 <= k < m + 1 ==> t.requests[k] == rest.requests[k - 1];
    assert forall k :: 1 <= k < m ==> t.delays[k] == rest.delays[k - 1];
  }

  lemma PostRetryEnd(cfg: Config, order: CheckOrder, data: PostData, stringify: Record -> string, net: Network, next: nat,
                     retryCount: nat, rest: Trace, m: nat)
    requires retryCount < cfg.retryAttempts
    requires 1 <= m <= |rest.requests| && m - 1 <= |rest.delays|
    requires PostEnd(cfg, order, data, stringify, net, next + 1, retryCount + 1, m, rest)
    ensures PostEnd(cfg, order, data, stringify, net, next, retryCount, m + 1,
      Trace(rest.result, [PostRequest(cfg, data)] + rest.requests, [1000 * (retryCount + 1)] + rest.delays))
  {
    var t := Trace(rest.result, [PostRequest(cfg, data)] + rest.requests, [1000 * (retryCount + 1)] + rest.delays);
    assert next + (m + 1) - 1 == next + 1 + m - 1;
    assert (m + 1 == Budget(cfg, retryCount)) == (m == Budget(cfg, retryCount + 1));
    assert t.requests[m + 1..] == rest.requests[m..];
    assert t.delays[m..] == rest.delays[m - 1..];
  }

  /** The fallback's fetches are all GETs, so the POST attempts are exactly the one before them. */
  lemma PostFallbackStep(cfg: Config, order: CheckOrder, data: PostData, stringify: Record -> string, net: Network, next: nat,
                         retryCount: nat, g: Trace)
    requires var last := AttemptIn(order, net(next));
      last.Thrown? && retryCount >= cfg.retryAttempts && last.error.name != "AbortError" && FailedToFetch(last.error)
    requires g == ConvertPostToGet(cfg, order, data, stringify, net, next + 1)
    ensures var t := Trace(g.result, [PostRequest(cfg, data)] + g.requests, g.delays);
      PostOutcome(cfg, order, data, stringify, net, next, retryCount, LeadingPosts(t.requests), t)
  {
    var t := Trace(g.result, [PostRequest(cfg, data)] + g.requests, g.delays);
    LeadingPostsOfGets(g.requests);
    assert t.requests[1..] == g.requests;
    assert LeadingPosts(t.requests) == 1;
  }

  /** A POST that keeps failing to fetch is tried `retryAttempts + 1` times, then the converted
      GET gets a full budget of its own. */
  lemma PostFallsBackToGet(cfg: Config, order: CheckOrder, data: PostData, stringify: Record -> string, net: Network, next: nat)
    requires forall k :: next <= k <= next + cfg.retryAttempts ==> net(k).Rejected? && FailedToFetch(net(k).reason)
    ensures var t := ApiPost(cfg, order, data, stringify, net, next, 0);
      var g := ConvertPostToGet(cfg, order, data, stringify, net, next + cfg.retryAttempts + 1);
      && LeadingPosts(t.requests) == cfg.retryAttempts + 1
      && t.requests[cfg.retryAttempts + 1..] == g.requests
      && t.result == g.result
  {
    var t := ApiPost(cfg, order, data, stringify, net, next, 0);
    FallbackFromOutcome(cfg, order, data, stringify, net, next, LeadingPosts(t.requests), t);
  }

  lemma FallbackFromOutcome(cfg: Config, order: CheckOrder, data: PostData, stringify: Record -> string, net: Network, next: nat,
                            n: nat, t: Trace)
    requires forall k :: next <= k <= next + cfg.retryAttempts ==> net(k).Rejected? && FailedToFetch(net(k).reason)
    requires PostOutcome(cfg, order, data, stringify, net, next, 0, n, t)
    ensures var g := ConvertPostToGet(cfg, order, data, stringify, net, next + cfg.retryAttempts + 1);
      && n == cfg.retryAttempts + 1
      && t.requests[cfg.retryAttempts + 1..] == g.requests
      && t.result == g.result
  {
    assert PostAttempts(cfg, order, data, net, next, 0, n, t);
    assert net(next + n - 1).Rejected? && FailedToFetch(net(next + n - 1).reason);
    FetchFailureEnds(cfg, order, data, stringify, net, next, n, t);
  }

  /** A POST attempt that failed to fetch can only end a call once the budget is spent, and then
      the converted GET makes the remaining fetches and decides the result. */
  lemma FetchFailureEnds(cfg: Config, order: CheckOrder, data: PostData, stringify: Record -> string, net: Network,
                         next: nat, n: nat, t: Trace)
    requires 1 <= n <= |t.requests| && n - 1 <= |t.delays|
    requires net(next + n - 1).Rejected? && FailedToFetch(net(next + n - 1).reason)
    requires PostEnd(cfg, order, data, stringify, net, next, 0, n, t)
    ensures var g := ConvertPostToGet(cfg, order, data, stringify, net, next + n);
      n == Budget(cfg, 0) && t.requests[n..] == g.requests && t.result == g.result
  {
    var reason := net(next + n - 1).reason;
    assert AttemptIn(order, net(next + n - 1)) == Thrown(reason);
    assert reason.name != "AbortError";
  }

  // ---------------------------------------------------------------------------
  // testApiConnection

  /** The object testApiConnection resolves to: success with the reply, or failure with the message. */
  datatype ConnectionReport = Connected(reply: Reply) | NotConnected(error: Option<string>)

  /** `testApiConnection()` in a check order: a `getStats` request whose reply counts as success
      only when its status is ok. */
  function TestApiConnection(order: CheckOrder, net: Network, next: nat): (r: ConnectionReport)
    ensures var t := ApiGet(AppConfig, order, [("action", Some("getStats"))], net, next, 0);
      && (r.Connected? <==> t.result.Returned? && t.result.value.status == Some("ok"))
      && (r.Connected? ==> r.reply == t.result.value)
      && (t.result.Returned? && !r.Connected? ==> r.error == t.result.value.message)
      && (t.result.Thrown? ==> r == NotConnected(Some(t.result.error.message)))
  {
    var t := ApiGet(AppConfig, order, [("action", Some("getStats"))], net, next, 0);
    match t.result
    case Returned(reply) => if reply.status == Some("ok") then Connected(reply) else NotConnected(reply.message)
    case Thrown(error) => NotConnected(Some(error.message))
  }

  /** A server that never answers within the timeout is reported as not connected, with the timeout message. */
  lemma ConnectionTimesOut(order: CheckOrder, net: Network, next: nat, abort: string)
    requires forall k :: next <= k < next + 3 ==> net(k) == Rejected(JsError("AbortError", abort))
    ensures TestApiConnection(order, net, next) == NotConnected(Some(TimeoutMessage))
  {
    ThreeTimeouts(order, [("action", Some("getStats"))], net, next, abort);
  }

  /** As written, the shipped configuration reports "not connected" with the message `HTTP 0: `;
      with the corrected order it reports success with the stand-in reply. */
  lemma OpaqueConnectionAsWritten(net: Network, next: nat)
    requires forall k :: next <= k < next + 3 ==> StandardOpaque(net(k))
    ensures TestApiConnection(OkFirst, net, next) == NotConnected(Some("HTTP 0: "))
    ensures TestApiConnection(OpaqueFirst, net, next) == Connected(NoCorsReply)
  {
    OpaqueGetAsWritten([("action", Some("getStats"))], net, next);
    assert ApiGet(AppConfig, OkFirst, [("action", Some("getStats"))], net, next, 0).result == Thrown(Error("HTTP 0: "));
    assert ApiGet(AppConfig, OpaqueFirst, [("action", Some("getStats"))], net, next, 0).result == Returned(NoCorsReply);
  }
}
