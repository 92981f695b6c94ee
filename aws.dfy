/** The generic query-API connection of lib/aws.js: every request carries
    the baked parameters, a Version 2 HmacSHA1 signature over the sorted
    parameters, and is retried a bounded number of times on a fixed set of
    status codes. */
module Aws {
  import opened Base
  import Common
  import opened Externals
  import Signing
  import Sorting

  /** Status codes that trigger a retry. */
  const RetryOnCodes: seq<int> := [500, 503, 505, 400, 403]

  /** A request is retried while fewer than this many retries were made. */
  const MaxRetries: nat := 5

  const FormContentType: string := "application/x-www-form-urlencoded; charset=utf-8"

  /** The retry decision taken when a response has ended. */
  predicate ShouldRetry(status: int, retries: nat) {
    status in RetryOnCodes && retries < MaxRetries
  }

  /** `Number((retries * 100) + 50)`: the wait before the next attempt, in
      milliseconds. */
  function RetryDelay(retries: nat): (ms: nat)
    ensures ms % 100 == 50
  {
    retries * 100 + 50
  }

  /** The delay grows linearly with every retry and never exceeds 450 ms
      for a retry that is actually made. */
  lemma RetryDelayBounds(retries: nat)
    ensures RetryDelay(retries + 1) == RetryDelay(retries) + 100
    ensures ShouldRetry(500, retries) <==> retries < 5
    ensures retries < MaxRetries ==> 50 <= RetryDelay(retries) <= 450
  {
  }

  /** What the network hands back for one attempt. */
  datatype Response = NetworkError(message: string) | Reply(status: int, body: string)

  /** The `errorResponse` member of a parsed body: absent, with an
      `error.message`, or present without an `error` object (reading the
      message then throws). */
  datatype ErrorField = NoErrorResponse | ErrorMessage(message: string) | ErrorWithoutDetail

  /** `common.xmlToObject(response)`: it throws, or it yields an object. */
  datatype ParseResult = ParseThrows | Parsed(errorResponse: ErrorField)

  /** The value handed to the caller's callback: the raw response text, or
      the object parsed from that text. */
  datatype Payload = RawText(text: string) | Document(text: string)

  /** How the promise of a request settles. */
  datatype Outcome<R> = Resolved(value: R) | Rejected(message: string) | Pending

  /** What `makeRequest` sent for one attempt. */
  datatype SentRequest = SentRequest(
    /** the parameters the signature was computed over */
    signedParams: Dict<Val>,
    stringToSign: string,
    /** the sorted parameters with `Signature`, passed on to a retry */
    params: Dict<Val>,
    verb: string,
    path: string,
    headers: Dict<Val>,
    body: string)

  /** What the end handler passes to the callback: the raw text when
      automatic parsing is off or the parse throws, the parsed object
      otherwise. */
  function Handed(autoParse: bool, text: string, parse: string -> ParseResult): Payload {
    if autoParse && parse(text).Parsed? then Document(text) else RawText(text)
  }

  /** `result = cb(result); return d.resolve(result)`: the call sits after
      the `try`, so a callback that throws (`None`) leaves the promise
      pending. */
  function Call<R>(cb: Payload -> Option<R>, payload: Payload): Outcome<R> {
    match cb(payload)
    case Some(v) => Resolved(v)
    case None => Pending
  }

  /** The end handler for a response that is not retried: with automatic
      parsing on, a parse that throws leaves the raw text, an
      `errorResponse` with a message rejects, and an `errorResponse` without
      `error` throws inside the `try` after the parsed object was stored, so
      the parsed object is passed on. */
  function Settle<R>(autoParse: bool, text: string, parse: string -> ParseResult, cb: Payload -> Option<R>): (o: Outcome<R>)
    ensures o.Rejected? <==> autoParse && parse(text).Parsed? && parse(text).errorResponse.ErrorMessage?
    ensures o.Rejected? ==> o.message == parse(text).errorResponse.message
    ensures !o.Rejected? ==> (o.Pending? <==> cb(Handed(autoParse, text, parse)).None?)
    ensures o.Resolved? ==> cb(Handed(autoParse, text, parse)) == Some(o.value)
  {
    if !autoParse then Call(cb, RawText(text))
    else match parse(text)
      case ParseThrows => Call(cb, RawText(text))
      case Parsed(NoErrorResponse) => Call(cb, Document(text))
      case Parsed(ErrorMessage(m)) => Rejected(m)
      case Parsed(ErrorWithoutDetail) => Call(cb, Document(text))
  }

  /** The baked parameters in the order `makeRequest` assigns them; the
      timestamp is the current time with its milliseconds trimmed. */
  function BakedEntries(action: Val, accessKeyId: string, version: string, ts: string): Dict<Val> {
    [("Action", action), ("AWSAccessKeyId", Str(accessKeyId)), ("Version", Str(version)),
     ("SignatureVersion", Num(2)), ("SignatureMethod", Str("HmacSHA1")),
     ("Timestamp", Str(ts))]
  }

  /** The value a parameter has once the baked parameters are set. */
  function BakedValue(params: Dict<Val>, action: Val, accessKeyId: string, version: string, ts: string, k: string): Option<Val> {
    if k == "Action" then Some(action)
    else if k == "AWSAccessKeyId" then Some(Str(accessKeyId))
    else if k == "Version" then Some(Str(version))
    else if k == "SignatureVersion" then Some(Num(2))
    else if k == "SignatureMethod" then Some(Str("HmacSHA1"))
    else if k == "Timestamp" then Some(Str(ts))
    else Get(params, k)
  }

  lemma BakedEntriesUnique(action: Val, accessKeyId: string, version: string, ts: string)
    ensures UniqueKeys(BakedEntries(action, accessKeyId, version, ts))
  {
  }

  lemma BakedEntriesGet(action: Val, accessKeyId: string, version: string, ts: string, k: string)
    ensures Get(BakedEntries(action, accessKeyId, version, ts), k) == BakedValue([], action, accessKeyId, version, ts, k)
  {
    var e5: Dict<Val> := [("Timestamp", Str(ts))];
    var e4 := [("SignatureMethod", Str("HmacSHA1"))] + e5;
    var e3 := [("SignatureVersion", Num(2))] + e4;
    var e2 := [("Version", Str(version))] + e3;
    var e1 := [("AWSAccessKeyId", Str(accessKeyId))] + e2;
    assert BakedEntries(action, accessKeyId, version, ts) == [("Action", action)] + e1;
    GetCons("Action", action, e1, k);
    GetCons("AWSAccessKeyId", Str(accessKeyId), e2, k);
    GetCons("Version", Str(version), e3, k);
    GetCons("SignatureVersion", Num(2), e4, k);
    GetCons("SignatureMethod", Str("HmacSHA1"), e5, k);
    GetCons("Timestamp", Str(ts), [], k);
  }

  /** Setting the baked parameters: every baked name has its fixed value,
      every other name keeps the caller's value. */
  lemma BakedParamsGet(params: Dict<Val>, action: Val, accessKeyId: string, version: string, ts: string, k: string)
    ensures UniqueKeys(params) ==> UniqueKeys(PutAll(params, BakedEntries(action, accessKeyId, version, ts)))
    ensures Get(PutAll(params, BakedEntries(action, accessKeyId, version, ts)), k) == BakedValue(params, action, accessKeyId, version, ts, k)
  {
    BakedEntriesUnique(action, accessKeyId, version, ts);
    BakedEntriesGet(action, accessKeyId, version, ts, k);
    if UniqueKeys(params) {
      PutAllUnique(params, BakedEntries(action, accessKeyId, version, ts));
    }
    GetPutAll(params, BakedEntries(action, accessKeyId, version, ts), k);
  }

  /** The headers a POST starts with; the length is read from the
      parameter string while that is still empty. */
  function PostHeaders(verb: string): Dict<Val> {
    if verb == "POST" then [("Content-Type", Str(FormContentType)), ("Content-Length", Num(0))] else []
  }

  /** The fields of a connection that a request reads. */
  datatype Settings = Settings(accessKeyId: string, secretAccessKey: string, host: string, version: string,
                               autoParseResponse: bool, path: string)

  /** The Version 2 string to sign: verb, lower-cased host, the
      connection's path and the query string of the sorted parameters. */
  function StringToSign(c: Settings, verb: string, params: Dict<Val>, p: Primitives): string {
    Join([verb, Lower(c.host), c.path, QueryString(Common.SortedByKeys(params), p)], "\n")
  }

  /** `getSignature(verb, params, headers)`: base64 HMAC-SHA1 of the string
      to sign under the secret key; the headers take no part. */
  function Signature(c: Settings, verb: string, params: Dict<Val>, p: Primitives): string {
    Base64(p, HmacSha1(p, c.secretAccessKey, StringToSign(c, verb, params, p)))
  }

  /** The caller's parameters with the baked parameters set over them. */
  function BakedParams(c: Settings, action: Val, params: Dict<Val>, nowIso: string): Dict<Val> {
    PutAll(params, BakedEntries(action, c.accessKeyId, c.version, Signing.TrimMillis(nowIso)))
  }

  /** The signed parameters with `Signature` added, in ascending key order. */
  function SignedParams(c: Settings, verb: string, baked: Dict<Val>, p: Primitives): Dict<Val> {
    Common.SortedByKeys(Put(baked, "Signature", Str(Signature(c, verb, baked, p))))
  }

  /** The request one attempt of `makeRequest` sends. */
  function Prepare(c: Settings, action: Val, params: Dict<Val>, verb: string, headers: Dict<Val>, nowIso: string, p: Primitives): SentRequest {
    var baked := BakedParams(c, action, params, nowIso);
    var sorted := SignedParams(c, verb, baked, p);
    SentRequest(baked, StringToSign(c, verb, baked, p), sorted, verb, c.path + "?" + QueryString(sorted, p),
                PutAll(PostHeaders(verb), headers), if verb == "POST" then QueryString(sorted, p) else "")
  }

  /** How many attempts `makeRequest` makes from attempt `retries` on: one
      more for every reply with a retry code while fewer than five retries
      were made. */
  function AttemptCount(retries: nat, respond: nat -> Response): (n: nat)
    requires retries <= MaxRetries
    ensures 1 <= n <= MaxRetries + 1 - retries
    decreases MaxRetries - retries
  {
    match respond(retries)
    case NetworkError(_) => 1
    case Reply(status, _) => if ShouldRetry(status, retries) then 1 + AttemptCount(retries + 1, respond) else 1
  }

  /** The request an attempt sends, as a function of the parameters it
      starts from and the current time. */
  function Attempt(c: Settings, action: Val, verb: string, headers: Dict<Val>, p: Primitives): (Dict<Val>, string) -> SentRequest {
    (params: Dict<Val>, nowIso: string) => Prepare(c, action, params, verb, headers, nowIso, p)
  }

  /** `sent` is what successive attempts from attempt `retries` on send:
      the first starts from the caller's parameters, every retry from the
      sorted parameters, `Signature` included, that the attempt before it
      sent. */
  predicate AttemptChain(attempt: (Dict<Val>, string) -> SentRequest, params: Dict<Val>, retries: nat,
                         now: nat -> string, sent: seq<SentRequest>)
  {
    && |sent| >= 1
    && sent[0] == attempt(params, now(retries))
    && forall i :: 0 < i < |sent| ==> Follows(attempt, now(retries + i), sent[i - 1], sent[i])
  }

  /** `next` is the retry of `before`: it starts from the parameters
      `before` sent, at time `nowIso`. */
  predicate Follows(attempt: (Dict<Val>, string) -> SentRequest, nowIso: string, before: SentRequest, next: SentRequest) {
    next == attempt(before.params, nowIso)
  }

  /** How the promise settles on the response that is not retried: a
      request error rejects with its message, a reply goes to the end
      handler. */
  function Settlement<R>(autoParse: bool, response: Response, parse: string -> ParseResult, cb: Payload -> Option<R>): (o: Outcome<R>)
    ensures o.Pending? ==> response.Reply?
    ensures response.NetworkError? ==> o == Rejected(response.message)
  {
    match response
    case NetworkError(m) => Rejected(m)
    case Reply(_, text) => Settle(autoParse, text, parse, cb)
  }

  /** How the promise returned by `makeRequest` from attempt `retries` on
      settles: on the response of the last attempt, whatever parameters
      were sent. */
  function Settled<R>(autoParse: bool, cb: Payload -> Option<R>, retries: nat, respond: nat -> Response, parse: string -> ParseResult): Outcome<R>
    requires retries <= MaxRetries
  {
    Settlement(autoParse, respond(retries + AttemptCount(retries, respond) - 1), parse, cb)
  }

  // ------------------------------------------------------------ lemmas

  /** The signed parameters are the caller's with the baked parameters
      set over them. */
  lemma PrepareSignedParams(c: Settings, action: Val, params: Dict<Val>, verb: string, headers: Dict<Val>, nowIso: string, p: Primitives, k: string)
    ensures Get(Prepare(c, action, params, verb, headers, nowIso, p).signedParams, k)
         == BakedValue(params, action, c.accessKeyId, c.version, Signing.TrimMillis(nowIso), k)
  {
    BakedParamsGet(params, action, c.accessKeyId, c.version, Signing.TrimMillis(nowIso), k);
  }

  /** The parameters sent are the signed ones plus `Signature`, the base64
      HMAC-SHA1 under the secret key of a string to sign that holds the
      verb, the lower-cased host, the path and the sorted signed parameters;
      they go out in strictly ascending key order. */
  lemma PrepareSentParams(c: Settings, action: Val, params: Dict<Val>, verb: string, headers: Dict<Val>, nowIso: string, p: Primitives, k: string)
    requires UniqueKeys(params)
    ensures var r := Prepare(c, action, params, verb, headers, nowIso, p);
      UniqueKeys(r.signedParams) && UniqueKeys(r.params)
    ensures var r := Prepare(c, action, params, verb, headers, nowIso, p);
      && r.stringToSign == Join([verb, Lower(c.host), c.path, QueryString(Common.SortedByKeys(r.signedParams), p)], "\n")
      && Get(r.params, "Signature") == Some(Str(Base64(p, HmacSha1(p, c.secretAccessKey, r.stringToSign))))
      && (k != "Signature" ==> Get(r.params, k) == Get(r.signedParams, k))
      && Sorting.StrictlySorted(Keys(r.params))
  {
    var r := Prepare(c, action, params, verb, headers, nowIso, p);
    BakedParamsGet(params, action, c.accessKeyId, c.version, Signing.TrimMillis(nowIso), k);
    var v := Str(Base64(p, HmacSha1(p, c.secretAccessKey, r.stringToSign)));
    var signed := Put(r.signedParams, "Signature", v);
    PutUnique(r.signedParams, "Signature", v);
    Common.SortedByKeysSameEntries(signed, k);
    Common.SortedByKeysSameEntries(signed, "Signature");
    Common.SortedByKeysAscending(signed);
    GetPut(r.signedParams, "Signature", v, k);
    GetPutSame(r.signedParams, "Signature", v);
  }

  /** The query string of the sent parameters is appended to the
      connection's path after `?`, and is the body of a POST only. */
  lemma PrepareQuery(c: Settings, action: Val, params: Dict<Val>, verb: string, headers: Dict<Val>, nowIso: string, p: Primitives)
    ensures var r := Prepare(c, action, params, verb, headers, nowIso, p);
      && r.path == c.path + "?" + QueryString(r.params, p)
      && r.body == (if verb == "POST" then QueryString(r.params, p) else "")
      && r.verb == verb
  {
  }

  /** A POST announces `Content-Length: 0` whatever its body, unless the
      caller passes that header itself; other verbs get no such header from
      the connection. */
  lemma PostContentLengthIsZero(c: Settings, action: Val, params: Dict<Val>, verb: string, headers: Dict<Val>, nowIso: string, p: Primitives)
    requires UniqueKeys(headers)
    requires "Content-Length" !in Keys(headers)
    ensures Get(Prepare(c, action, params, verb, headers, nowIso, p).headers, "Content-Length")
         == if verb == "POST" then Some(Num(0)) else None
  {
    GetPutAll(PostHeaders(verb), headers, "Content-Length");
    if verb == "POST" {
      GetCons("Content-Type", Str(FormContentType), [("Content-Length", Num(0))], "Content-Length");
      GetCons("Content-Length", Num(0), [], "Content-Length");
    }
  }

  /** Every attempt but the last got a reply whose status is one of the
      retry codes while fewer than five retries had been made; the last
      attempt's response is not retried. */
  lemma {:induction false} AttemptCountRetriesOnlyOnCodes(retries: nat, respond: nat -> Response, i: nat)
    requires retries <= MaxRetries
    ensures i + 1 < AttemptCount(retries, respond) ==>
      respond(retries + i).Reply? && ShouldRetry(respond(retries + i).status, retries + i)
    ensures i + 1 == AttemptCount(retries, respond) ==>
      !(respond(retries + i).Reply? && ShouldRetry(respond(retries + i).status, retries + i))
    decreases MaxRetries - retries
  {
    if i > 0 && respond(retries).Reply? && ShouldRetry(respond(retries).status, retries) {
      AttemptCountRetriesOnlyOnCodes(retries + 1, respond, i - 1);
    }
  }

  /** A request is attempted at most six times, and a reply whose status
      is not a retry code is never retried. */
  lemma AttemptCountBounds(respond: nat -> Response)
    ensures AttemptCount(0, respond) <= 6
    ensures respond(0).Reply? && respond(0).status !in RetryOnCodes ==> AttemptCount(0, respond) == 1
    ensures (forall j :: 0 <= j <= MaxRetries ==> respond(j).Reply? && respond(j).status == 503) ==> AttemptCount(0, respond) == 6
  {
    if forall j :: 0 <= j <= MaxRetries ==> respond(j).Reply? && respond(j).status == 503 {
      assert respond(5).Reply? && respond(4).Reply? && respond(3).Reply? && respond(2).Reply? && respond(1).Reply?;
      assert AttemptCount(5, respond) == 1;
      assert AttemptCount(4, respond) == 2;
      assert AttemptCount(3, respond) == 3;
      assert AttemptCount(2, respond) == 4;
      assert AttemptCount(1, respond) == 5;
    }
  }

  /** A reply with a retry code leaves the outcome to the next attempt. */
  lemma SettledRetries<R>(autoParse: bool, cb: Payload -> Option<R>, retries: nat, respond: nat -> Response, parse: string -> ParseResult)
    requires retries <= MaxRetries
    requires respond(retries).Reply? && ShouldRetry(respond(retries).status, retries)
    ensures Settled(autoParse, cb, retries, respond, parse) == Settled(autoParse, cb, retries + 1, respond, parse)
  {
    assert AttemptCount(retries, respond) == 1 + AttemptCount(retries + 1, respond);
  }

  /** Any other response settles the promise: a request error rejects with
      its message, a reply goes to the end handler. */
  lemma SettledOnLast<R>(autoParse: bool, cb: Payload -> Option<R>, retries: nat, respond: nat -> Response, parse: string -> ParseResult)
    requires retries <= MaxRetries
    requires !(respond(retries).Reply? && ShouldRetry(respond(retries).status, retries))
    ensures Settled(autoParse, cb, retries, respond, parse) == Settlement(autoParse, respond(retries), parse, cb)
  {
    assert AttemptCount(retries, respond) == 1;
  }

  /** The promise is rejected exactly when the last attempt failed at the
      network level or its parsed reply holds an `errorResponse` with a
      message; otherwise it resolves with what the callback returns for
      the last reply, and stays pending exactly when the callback throws. */
  lemma SettledRejects<R>(autoParse: bool, cb: Payload -> Option<R>, retries: nat, respond: nat -> Response, parse: string -> ParseResult)
    requires retries <= MaxRetries
    ensures var last := respond(retries + AttemptCount(retries, respond) - 1);
      var o := Settled(autoParse, cb, retries, respond, parse);
      && (o.Rejected? <==> last.NetworkError? || (autoParse && parse(last.body).Parsed? && parse(last.body).errorResponse.ErrorMessage?))
      && (o.Pending? <==> !o.Rejected? && cb(Handed(autoParse, last.body, parse)).None?)
      && (o.Resolved? ==> cb(Handed(autoParse, last.body, parse)) == Some(o.value))
  {
  }

  /** An attempt whose sent parameters have unique names whenever the
      caller's do. */
  ghost predicate KeepsUnique(attempt: (Dict<Val>, string) -> SentRequest) {
    forall params: Dict<Val>, nowIso: string {:trigger attempt(params, nowIso)} ::
      UniqueKeys(params) ==> UniqueKeys(attempt(params, nowIso).params)
  }

  /** Signing and sorting never duplicate a parameter name. */
  lemma AttemptKeepsUnique(c: Settings, action: Val, verb: string, headers: Dict<Val>, p: Primitives)
    ensures KeepsUnique(Attempt(c, action, verb, headers, p))
  {
    forall params: Dict<Val>, nowIso: string | UniqueKeys(params)
      ensures UniqueKeys(Attempt(c, action, verb, headers, p)(params, nowIso).params)
    {
      PrepareSentParams(c, action, params, verb, headers, nowIso, p, "Signature");
    }
  }

  /** Every attempt of a chain that starts from parameters with unique
      names sends parameters with unique names. */
  lemma {:induction false} AttemptChainUnique(attempt: (Dict<Val>, string) -> SentRequest, params: Dict<Val>,
                                              retries: nat, now: nat -> string, sent: seq<SentRequest>, i: nat)
    requires KeepsUnique(attempt) && UniqueKeys(params)
    requires AttemptChain(attempt, params, retries, now, sent)
    requires i < |sent|
    ensures UniqueKeys(sent[i].params)
    decreases i
  {
    if i > 0 {
      AttemptChainUnique(attempt, params, retries, now, sent, i - 1);
      assert Follows(attempt, now(retries + i), sent[i - 1], sent[i]);
    }
  }

  /** An attempt that starts from what another attempt sent signs that
      attempt's `Signature` along with its other parameters. */
  lemma SignsPreviousSignature(c: Settings, action: Val, params: Dict<Val>, verb: string, headers: Dict<Val>, p: Primitives,
                               first: string, second: string)
    requires UniqueKeys(params)
    ensures var before := Attempt(c, action, verb, headers, p)(params, first);
      var next := Attempt(c, action, verb, headers, p)(before.params, second);
      && Get(next.signedParams, "Signature") == Get(before.params, "Signature")
      && Get(before.params, "Signature").Some?
  {
    var before := Prepare(c, action, params, verb, headers, first, p);
    PrepareSentParams(c, action, params, verb, headers, first, p, "Signature");
    PrepareSignedParams(c, action, before.params, verb, headers, second, p, "Signature");
  }

  /** In a chain, attempt `i` is the retry of attempt `i - 1`, which itself
      was made from the caller's parameters or from those of attempt `i - 2`. */
  lemma ChainStep(attempt: (Dict<Val>, string) -> SentRequest, params: Dict<Val>, retries: nat,
                  now: nat -> string, sent: seq<SentRequest>, i: nat)
    returns (start: Dict<Val>, ts: string)
    requires AttemptChain(attempt, params, retries, now, sent)
    requires 0 < i < |sent|
    ensures i == 1 ==> start == params
    ensures i > 1 ==> start == sent[i - 2].params
    ensures sent[i - 1] == attempt(start, ts)
    ensures sent[i] == attempt(sent[i - 1].params, now(retries + i))
  {
    assert Follows(attempt, now(retries + i), sent[i - 1], sent[i]);
    if i == 1 {
      start, ts := params, now(retries);
    } else {
      assert Follows(attempt, now(retries + i - 1), sent[i - 2], sent[i - 1]);
      start, ts := sent[i - 2].params, now(retries + i - 1);
    }
  }

  /** The attempt before a retry was made from parameters with unique names. */
  lemma ChainStart(attempt: (Dict<Val>, string) -> SentRequest, params: Dict<Val>, retries: nat,
                   now: nat -> string, sent: seq<SentRequest>, i: nat)
    returns (start: Dict<Val>, ts: string)
    requires KeepsUnique(attempt) && UniqueKeys(params)
    requires AttemptChain(attempt, params, retries, now, sent)
    requires 0 < i < |sent|
    ensures UniqueKeys(start)
    ensures sent[i - 1] == attempt(start, ts)
  {
    start, ts := ChainStep(attempt, params, retries, now, sent, i);
    if i > 1 {
      AttemptChainUnique(attempt, params, retries, now, sent, i - 2);
    }
  }

  /** A retry signs the parameters of the attempt before it, whose
      `Signature` is still among them: the stale signature becomes part of
      the next string to sign. */
  lemma RetrySignsStaleSignature(c: Settings, action: Val, params: Dict<Val>, verb: string, headers: Dict<Val>,
                                 retries: nat, now: nat -> string, p: Primitives, sent: seq<SentRequest>, i: nat)
    requires UniqueKeys(params)
    requires AttemptChain(Attempt(c, action, verb, headers, p), params, retries, now, sent)
    requires 0 < i < |sent|
    ensures Get(sent[i].signedParams, "Signature") == Get(sent[i - 1].params, "Signature")
    ensures Get(sent[i].signedParams, "Signature").Some?
  {
    AttemptKeepsUnique(c, action, verb, headers, p);
    var start, ts := ChainStart(Attempt(c, action, verb, headers, p), params, retries, now, sent, i);
    assert Follows(Attempt(c, action, verb, headers, p), now(retries + i), sent[i - 1], sent[i]);
    SignsPreviousSignature(c, action, start, verb, headers, p, ts, now(retries + i));
  }

  /** An attempt followed by the chain of its retry is a chain. */
  lemma AttemptChainCons(attempt: (Dict<Val>, string) -> SentRequest, params: Dict<Val>, retries: nat, now: nat -> string,
                         more: seq<SentRequest>)
    requires AttemptChain(attempt, attempt(params, now(retries)).params, retries + 1, now, more)
    ensures AttemptChain(attempt, params, retries, now, [attempt(params, now(retries))] + more)
  {
    var sent := [attempt(params, now(retries))] + more;
    forall i | 0 < i < |sent|
      ensures Follows(attempt, now(retries + i), sent[i - 1], sent[i])
    {
      assert sent[i] == more[i - 1];
      if i > 1 {
        assert sent[i - 1] == more[i - 2];
        assert retries + i == retries + 1 + (i - 1);
      }
    }
  }

  /** `makeRequest` from attempt `retries` on: sends an attempt and, on a
      reply with a retry code, calls itself for the next one, starting from
      the parameters just sent. */
  method Request<R>(attempt: (Dict<Val>, string) -> SentRequest, autoParse: bool, cb: Payload -> Option<R>, params: Dict<Val>,
                    retries: nat, now: nat -> string, respond: nat -> Response, parse: string -> ParseResult)
    returns (outcome: Outcome<R>, sent: seq<SentRequest>)
    requires retries <= MaxRetries
    ensures outcome == Settled(autoParse, cb, retries, respond, parse)
    ensures |sent| == AttemptCount(retries, respond)
    ensures AttemptChain(attempt, params, retries, now, sent)
    decreases MaxRetries - retries
  {
    var request := attempt(params, now(retries));
    var response := respond(retries);
    if response.Reply? && ShouldRetry(response.status, retries) {
      var more;
      outcome, more := Request(attempt, autoParse, cb, request.params, retries + 1, now, respond, parse);
      sent := [request] + more;
      SettledRetries(autoParse, cb, retries, respond, parse);
      AttemptChainCons(attempt, params, retries, now, more);
      assert AttemptCount(retries, respond) == 1 + AttemptCount(retries + 1, respond);
    } else {
      outcome := Settlement(autoParse, response, parse, cb);
      sent := [request];
      SettledOnLast(autoParse, cb, retries, respond, parse);
      assert AttemptCount(retries, respond) == 1;
    }
  }

  class Connection {
    var accessKeyId: string
    var secretAccessKey: string
    var host: string
    var version: string
    var autoParseResponse: bool
    var path: string

    /** `new Connection(accessKeyId, secretAccessKey, host, version)`. */
    constructor (accessKeyId: string, secretAccessKey: string, host: string, version: string)
      ensures Current() == Settings(accessKeyId, secretAccessKey, host, version, true, "/")
    {
      this.accessKeyId, this.secretAccessKey, this.host, this.version := accessKeyId, secretAccessKey, host, version;
      autoParseResponse, path := true, "/";
    }

    /** The connection's fields as a value. */
    function Current(): Settings
      reads this
    {
      Settings(accessKeyId, secretAccessKey, host, version, autoParseResponse, path)
    }

    /** `getSignature(verb, params, headers)`. */
    function GetSignature(verb: string, params: Dict<Val>, headers: Dict<Val>, p: Primitives): (s: string)
      reads this
      ensures s == Base64(p, HmacSha1(p, secretAccessKey, Join([verb, Lower(host), path, QueryString(Common.SortedByKeys(params), p)], "\n")))
    {
      Signature(Current(), verb, params, p)
    }

    /** `makeRequest(cb, action, params, verb, headers, path, retries)`:
        `verb` defaults to GET; the `path` argument is never used, the
        connection's own path is. */
    method MakeRequest<R>(cb: Payload -> Option<R>, action: Val, params: Dict<Val>, verb: string, headers: Dict<Val>,
                          retries: nat, now: nat -> string, respond: nat -> Response,
                          parse: string -> ParseResult, p: Primitives)
      returns (outcome: Outcome<R>, sent: seq<SentRequest>)
      requires retries <= MaxRetries
      ensures outcome == Settled(autoParseResponse, cb, retries, respond, parse)
      ensures |sent| == AttemptCount(retries, respond)
      ensures AttemptChain(Attempt(Current(), action, if verb == "" then "GET" else verb, headers, p), params, retries, now, sent)
    {
      var attempt := Attempt(Current(), action, if verb == "" then "GET" else verb, headers, p);
      outcome, sent := Request(attempt, autoParseResponse, cb, params, retries, now, respond, parse);
    }
  }
}
