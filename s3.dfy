/** The S3 connection of lib/services/s3.js: requests are signed with the
    header scheme `Authorization: AWS <key>:<signature>`, where the string
    to sign lists the verb, three standard headers, the sorted `x-amz-`
    headers and the path. Failed requests are retried on the same status
    codes as the query API. */
module S3 {
  import opened Base
  import Common
  import opened Externals
  import Aws

  /** Status codes that trigger a retry. */
  const RetryOnCodes: seq<int> := [500, 503, 505, 400, 403]

  /** A request is retried while fewer than this many retries were made. */
  const MaxRetries: nat := 5

  /** The retry decision taken when a response has ended. */
  predicate ShouldRetry(status: int, retries: nat) {
    status >= 400 && status in RetryOnCodes && retries < MaxRetries
  }

  /** The S3 retry rule is the query API's rule: every retried code is an
      error code, so the extra `>= 400` test never matters. */
  lemma ShouldRetryAsQueryApi(status: int, retries: nat)
    ensures ShouldRetry(status, retries) <==> Aws.ShouldRetry(status, retries)
    ensures ShouldRetry(status, retries) ==> status >= 400 && retries + 1 <= MaxRetries
  {
  }

  // ------------------------------------------------------------ signature

  /** `key.toLowerCase().indexOf('x-amz-') > -1`: the marker may occur
      anywhere in the name, not only at its start. */
  predicate IsAmzName(key: string) {
    Contains(Lower(key), "x-amz-")
  }

  /** `replace(/[\r\n]/g, ' ')`. */
  function FlattenLines(s: string): (r: string)
    ensures |r| == |s|
    ensures forall i :: 0 <= i < |r| ==> r[i] != '\r' && r[i] != '\n'
    ensures forall i :: 0 <= i < |s| && s[i] != '\r' && s[i] != '\n' ==> r[i] == s[i]
  {
    seq(|s|, i requires 0 <= i < |s| => if s[i] == '\r' || s[i] == '\n' then ' ' else s[i])
  }

  /** The line an `x-amz-` header contributes: `lowercased-name:value`. */
  function AmzLine(key: string, value: string): string {
    Lower(key) + ":" + FlattenLines(value)
  }

  /** The `amzHeaders` object once the `forEach` has visited every entry of
      `headers`: each `x-amz-` header stored under its lowercased name (a
      later one replacing an earlier one with the same lowercased name).
      `None` when an `x-amz-` header's value is not a string: `replace`
      then throws. */
  function AmzHeaders(headers: Dict<Val>): Option<Dict<string>>
    decreases |headers|
  {
    if headers == [] then Some([])
    else
      var key := headers[|headers| - 1].0;
      var v := headers[|headers| - 1].1;
      match AmzHeaders(headers[..|headers| - 1])
      case None => None
      case Some(amz) =>
        if !IsAmzName(key) then Some(amz)
        else if v.Str? then Some(Put(amz, Lower(key), AmzLine(key, v.s)))
        else None
  }

  /** The `forEach` over the header names that fills `amzHeaders`. */
  method CollectAmzHeaders(headers: Dict<Val>) returns (amz: Option<Dict<string>>)
    ensures amz == AmzHeaders(headers)
  {
    var acc: Dict<string> := [];
    var i := 0;
    while i < |headers|
      invariant 0 <= i <= |headers|
      invariant AmzHeaders(headers[..i]) == Some(acc)
    {
      var key := headers[i].0;
      var v := headers[i].1;
      assert headers[..i + 1][..i] == headers[..i];
      if IsAmzName(key) {
        if !v.Str? {
          AmzHeadersStaysThrown(headers, i + 1);
          assert headers[..|headers|] == headers;
          return None;
        }
        acc := Put(acc, Lower(key), AmzLine(key, v.s));
      }
      i := i + 1;
    }
    assert headers[..|headers|] == headers;
    amz := Some(acc);
  }

  /** Once a header makes `replace` throw, the rest of the loop is never reached. */
  lemma {:induction false} AmzHeadersStaysThrown(headers: Dict<Val>, n: nat)
    requires n <= |headers| && AmzHeaders(headers[..n]).None?
    ensures AmzHeaders(headers).None?
    decreases |headers| - n
  {
    if n < |headers| {
      assert headers[..n + 1][..n] == headers[..n];
      AmzHeadersStaysThrown(headers, n + 1);
    } else {
      assert headers[..n] == headers;
    }
  }

  /** `replace` throws exactly when some `x-amz-` header's value is not a string. */
  lemma {:induction false} AmzHeadersThrows(headers: Dict<Val>)
    ensures AmzHeaders(headers).None? <==> exists i :: 0 <= i < |headers| && IsAmzName(headers[i].0) && !headers[i].1.Str?
    decreases |headers|
  {
    if headers != [] {
      var init := headers[..|headers| - 1];
      AmzHeadersThrows(init);
      assert forall i :: 0 <= i < |init| ==> init[i] == headers[i];
      if AmzHeaders(init).None? {
        var i :| 0 <= i < |init| && IsAmzName(init[i].0) && !init[i].1.Str?;
        assert headers[i] == init[i];
      }
    }
  }

  /** No lowercased name occurs twice in `amzHeaders`. */
  lemma {:induction false} AmzHeadersUnique(headers: Dict<Val>)
    requires AmzHeaders(headers).Some?
    ensures UniqueKeys(AmzHeaders(headers).value)
    decreases |headers|
  {
    if headers != [] {
      var init := headers[..|headers| - 1];
      AmzHeadersUnique(init);
      var key := headers[|headers| - 1].0;
      if IsAmzName(key) {
        PutUnique(AmzHeaders(init).value, Lower(key), AmzLine(key, headers[|headers| - 1].1.s));
      }
    }
  }

  /** The names of `amzHeaders` are exactly the lowercased names of the
      `x-amz-` headers. */
  lemma {:induction false} AmzHeadersNames(headers: Dict<Val>, k: string)
    requires AmzHeaders(headers).Some?
    ensures Get(AmzHeaders(headers).value, k).Some? <==>
      exists i :: 0 <= i < |headers| && IsAmzName(headers[i].0) && Lower(headers[i].0) == k
    decreases |headers|
  {
    if headers != [] {
      var init := headers[..|headers| - 1];
      var last := headers[|headers| - 1];
      AmzHeadersNames(init, k);
      assert forall i :: 0 <= i < |init| ==> init[i] == headers[i];
      if IsAmzName(last.0) {
        GetPut(AmzHeaders(init).value, Lower(last.0), AmzLine(last.0, last.1.s), k);
      }
    }
  }

  /** Each name of `amzHeaders` holds the line of an `x-amz-` header with
      that lowercased name. */
  lemma {:induction false} AmzHeadersLines(headers: Dict<Val>, k: string)
    requires AmzHeaders(headers).Some? && Get(AmzHeaders(headers).value, k).Some?
    ensures exists i :: (0 <= i < |headers| && Lower(headers[i].0) == k && headers[i].1.Str?
      && Get(AmzHeaders(headers).value, k).value == AmzLine(headers[i].0, headers[i].1.s))
    decreases |headers|
  {
    var init := headers[..|headers| - 1];
    var last := headers[|headers| - 1];
    var amz := AmzHeaders(init).value;
    if IsAmzName(last.0) && Lower(last.0) == k {
      GetPutSame(amz, k, AmzLine(last.0, last.1.s));
      assert headers[|headers| - 1] == last;
    } else {
      if IsAmzName(last.0) {
        GetPutOther(amz, Lower(last.0), AmzLine(last.0, last.1.s), k);
      }
      AmzHeadersLines(init, k);
      var i :| 0 <= i < |init| && Lower(init[i].0) == k && init[i].1.Str? && Get(amz, k).value == AmzLine(init[i].0, init[i].1.s);
      assert headers[i] == init[i];
    }
  }

  /** Without `x-amz-` headers the object stays empty. */
  lemma {:induction false} AmzHeadersNone(headers: Dict<Val>)
    requires forall i :: 0 <= i < |headers| ==> !IsAmzName(headers[i].0)
    ensures AmzHeaders(headers) == Some([])
    decreases |headers|
  {
    if headers != [] {
      AmzHeadersNone(headers[..|headers| - 1]);
    }
  }

  /** `(headers[name] || '')`. */
  function HeaderOrEmpty(headers: Dict<Val>, name: string): string {
    match Get(headers, name)
    case Some(v) => if Truthy(v) then JoinText(v) else ""
    case None => ""
  }

  /** `headers.Date` as an element of the joined array (`undefined` joins as ''). */
  function DateText(headers: Dict<Val>): string {
    match Get(headers, "Date")
    case Some(v) => JoinText(v)
    case None => ""
  }

  /** The lines of the `x-amz-` block: the values of `amzHeaders` in the
      ascending order of their names. */
  function AmzValues(amz: Dict<string>): seq<string> {
    var sorted := Common.SortedByKeys(amz);
    seq(|sorted|, i requires 0 <= i < |sorted| => sorted[i].1)
  }

  /** The string `getSignature` signs: verb, Content-MD5, Content-Type and
      Date, then the `x-amz-` block only when it has lines, then the path. */
  function StringToSign(verb: string, path: string, headers: Dict<Val>, amz: Dict<string>): string {
    var block := AmzValues(amz);
    Join([verb, HeaderOrEmpty(headers, "Content-MD5"), HeaderOrEmpty(headers, "Content-Type"), DateText(headers)]
         + (if |block| > 0 then [Join(block, "\n")] else [])
         + [path], "\n")
  }

  /** `getSignature(verb, path, headers)`: the base64 HMAC-SHA1 of the
      string to sign under the secret key; `None` when the header scan throws. */
  function Signature(secret: string, verb: string, path: string, headers: Dict<Val>, p: Primitives): (r: Option<string>)
    ensures r.None? <==> exists i :: 0 <= i < |headers| && IsAmzName(headers[i].0) && !headers[i].1.Str?
  {
    AmzHeadersThrows(headers);
    match AmzHeaders(headers)
    case None => None
    case Some(amz) => Some(Base64(p, HmacSha1(p, secret, StringToSign(verb, path, headers, amz))))
  }

  /** The `x-amz-` block lists its lines in strictly ascending name order,
      one per distinct lowercased `x-amz-` name. */
  lemma AmzBlockSorted(headers: Dict<Val>)
    requires AmzHeaders(headers).Some?
    ensures Aws.Sorting.StrictlySorted(Keys(Common.SortedByKeys(AmzHeaders(headers).value)))
    ensures |AmzValues(AmzHeaders(headers).value)| == |AmzHeaders(headers).value|
  {
    AmzHeadersUnique(headers);
    Common.SortedByKeysAscending(AmzHeaders(headers).value);
    Common.SortedByKeysSameEntries(AmzHeaders(headers).value, "");
  }

  /** Without `x-amz-` headers the string to sign has five lines and no block. */
  lemma SignatureWithoutAmz(secret: string, verb: string, path: string, headers: Dict<Val>, p: Primitives)
    requires forall i :: 0 <= i < |headers| ==> !IsAmzName(headers[i].0)
    ensures Signature(secret, verb, path, headers, p) == Some(Base64(p, HmacSha1(p, secret,
      Join([verb, HeaderOrEmpty(headers, "Content-MD5"), HeaderOrEmpty(headers, "Content-Type"), DateText(headers), path], "\n"))))
  {
    AmzHeadersNone(headers);
    assert Common.SortedByKeys<string>([]) == [];
    assert [verb, HeaderOrEmpty(headers, "Content-MD5"), HeaderOrEmpty(headers, "Content-Type"), DateText(headers)] + [] + [path]
        == [verb, HeaderOrEmpty(headers, "Content-MD5"), HeaderOrEmpty(headers, "Content-Type"), DateText(headers), path];
  }

  /** A header that is neither an `x-amz-` header nor one of the three
      standard ones is not signed: adding it leaves the signature as it was. */
  lemma SignatureIgnoresOtherHeaders(secret: string, verb: string, path: string, headers: Dict<Val>,
                                     k: string, v: Val, p: Primitives)
    requires k !in Keys(headers)
    requires !IsAmzName(k) && k != "Content-MD5" && k != "Content-Type" && k != "Date"
    ensures Signature(secret, verb, path, Put(headers, k, v), p) == Signature(secret, verb, path, headers, p)
  {
    var h := Put(headers, k, v);
    PutShape(headers, k, v);
    assert h[..|h| - 1] == headers;
    assert AmzHeaders(h) == AmzHeaders(headers);
    GetPut(headers, k, v, "Content-MD5");
    GetPut(headers, k, v, "Content-Type");
    GetPut(headers, k, v, "Date");
    if AmzHeaders(headers).Some? {
      var amz := AmzHeaders(headers).value;
      assert StringToSign(verb, path, h, amz) == StringToSign(verb, path, headers, amz) by {
        assert HeaderOrEmpty(h, "Content-MD5") == HeaderOrEmpty(headers, "Content-MD5");
        assert HeaderOrEmpty(h, "Content-Type") == HeaderOrEmpty(headers, "Content-Type");
        assert DateText(h) == DateText(headers);
      }
    }
  }

  // ------------------------------------------------------------ requests

  /** What `makeRequest` hands to `https.request` for one attempt. */
  datatype SentRequest = SentRequest(host: string, path: string, verb: string, headers: Dict<Val>, body: string)

  /** `Content-Length` (`body.length`, counted in UTF-16 code units) and
      `Date`, set before the caller's headers are copied in. */
  function FixedHeaders(body: string, date: string): Dict<Val> {
    [("Content-Length", Num(Utf16Length(body))), ("Date", Str(date))]
  }

  /** The headers an attempt signs: the fixed ones overridden by the caller's. */
  function SignedHeaders(headers: Dict<Val>, body: string, date: string): Dict<Val> {
    PutAll(FixedHeaders(body, date), headers)
  }

  /** The request sent once the signature is known: `Authorization` is set
      last, over the signed headers; `None` when signing threw. */
  function Authorize(accessKeyId: string, host: string, path: string, verb: string, signed: Dict<Val>,
                     body: string, sig: Option<string>): Option<SentRequest>
  {
    match sig
    case None => None
    case Some(s) => Some(SentRequest(host, path, verb, Put(signed, "Authorization", Str("AWS " + accessKeyId + ":" + s)), body))
  }

  /** One attempt of `makeRequest` with defaulted arguments, at the time
      `date`: `None` when signing throws. */
  function Prepare(accessKeyId: string, secret: string, host: string, path: string, verb: string,
                   headers: Dict<Val>, body: string, date: string, p: Primitives): Option<SentRequest>
  {
    var h := SignedHeaders(headers, body, date);
    Authorize(accessKeyId, host, path, verb, h, body, Signature(secret, verb, path, h, p))
  }

  /** The signed headers: `Content-Length` and `Date` hold the body's
      UTF-16 length and the time unless the caller gave them; every caller header is
      there as given. */
  lemma SignedHeadersGet(headers: Dict<Val>, body: string, date: string, k: string)
    requires UniqueKeys(headers)
    ensures UniqueKeys(SignedHeaders(headers, body, date))
    ensures Get(SignedHeaders(headers, body, date), k) == (
      if Get(headers, k).Some? then Get(headers, k)
      else if k == "Content-Length" then Some(Num(Utf16Length(body)))
      else if k == "Date" then Some(Str(date))
      else None)
  {
    PutAllUnique(FixedHeaders(body, date), headers);
    GetPutAll(FixedHeaders(body, date), headers, k);
    GetCons("Content-Length", Num(Utf16Length(body)), [("Date", Str(date))], k);
    GetCons("Date", Str(date), [], k);
  }

  /** The request of an attempt keeps the request path, verb and body, and
      adds `Authorization: AWS <key>:<signature>` to the signed headers,
      leaving every other header as it was signed. */
  lemma AuthorizeHeaders(accessKeyId: string, host: string, path: string, verb: string, signed: Dict<Val>,
                         body: string, sig: Option<string>, k: string)
    requires sig.Some?
    ensures var r := Authorize(accessKeyId, host, path, verb, signed, body, sig);
      && r.Some? && r.value.path == path && r.value.verb == verb && r.value.body == body && r.value.host == host
      && Get(r.value.headers, "Authorization") == Some(Str("AWS " + accessKeyId + ":" + sig.value))
      && (k != "Authorization" ==> Get(r.value.headers, k) == Get(signed, k))
  {
    GetPut(signed, "Authorization", Str("AWS " + accessKeyId + ":" + sig.value), k);
    GetPutSame(signed, "Authorization", Str("AWS " + accessKeyId + ":" + sig.value));
  }

  /** Adding the fixed headers never makes the header scan throw: it
      throws on the signed headers exactly when it throws on the caller's. */
  lemma SignedHeadersThrow(headers: Dict<Val>, body: string, date: string)
    requires UniqueKeys(headers)
    ensures var h := SignedHeaders(headers, body, date);
      (exists i :: 0 <= i < |h| && IsAmzName(h[i].0) && !h[i].1.Str?) <==>
      (exists i :: 0 <= i < |headers| && IsAmzName(headers[i].0) && !headers[i].1.Str?)
  {
    var h := SignedHeaders(headers, body, date);
    FixedHeadersNotAmz();
    if exists i :: 0 <= i < |headers| && IsAmzName(headers[i].0) && !headers[i].1.Str? {
      var i :| 0 <= i < |headers| && IsAmzName(headers[i].0) && !headers[i].1.Str?;
      GetAt(headers, i);
      SignedHeadersGet(headers, body, date, headers[i].0);
      var j :| 0 <= j < |h| && h[j] == (headers[i].0, headers[i].1);
    }
    if exists j :: 0 <= j < |h| && IsAmzName(h[j].0) && !h[j].1.Str? {
      var j :| 0 <= j < |h| && IsAmzName(h[j].0) && !h[j].1.Str?;
      SignedHeadersGet(headers, body, date, h[j].0);
      GetAt(h, j);
      var i :| 0 <= i < |headers| && headers[i] == (h[j].0, h[j].1);
    }
  }

  /** Whether an attempt throws depends only on the caller's headers, so a
      retry at another time throws exactly when the first attempt did. */
  lemma PrepareThrows(accessKeyId: string, secret: string, host: string, path: string, verb: string,
                      headers: Dict<Val>, body: string, date: string, p: Primitives)
    requires UniqueKeys(headers)
    ensures Prepare(accessKeyId, secret, host, path, verb, headers, body, date, p).None? <==>
      exists i :: 0 <= i < |headers| && IsAmzName(headers[i].0) && !headers[i].1.Str?
  {
    SignedHeadersThrow(headers, body, date);
  }

  /** Neither fixed header is an `x-amz-` header. */
  lemma FixedHeadersNotAmz()
    ensures !IsAmzName("Content-Length") && !IsAmzName("Date")
  {
    var cl := Lower("Content-Length");
    var d := Lower("Date");
    assert cl == "content-length" && d == "date";
    assert forall j :: 0 <= j < |cl| ==> cl[j] != 'x';
    forall j: nat ensures !OccursAt(cl, "x-amz-", j) {
      if j + 6 <= |cl| { assert cl[j..j + 6][0] == cl[j]; }
    }
  }

  // ------------------------------------------------------------- outcome

  /** `common.xmlToObject(response)` followed by `r.xml ? r.xml.message :
      r.error.message`: the message of an error body, or `None` when that
      throws. */
  type MessageOf = string -> Option<string>

  /** The `cb` argument of `makeRequest`. It runs on the response of a
      request that succeeded, before the promise resolves with that
      response. Its result is ignored, but what it stores on the response
      is kept. `run(status, body)` is what it stores, or `None` when it
      throws. */
  datatype Callback<K> = NoCallback | Callback(run: (int, string) -> Option<K>)

  /** What the callback stored on a response with this status and body
      (`None` without a callback). */
  function Added<K>(cb: Callback<K>, status: int, body: string): Option<K> {
    match cb
    case NoCallback => None
    case Callback(run) => run(status, body)
  }

  /** How the promise of a request settles. `Resolved` carries the
      response and what the callback stored on it. `Throws` means that
      `makeRequest` itself throws before sending. */
  datatype Outcome<K> = Resolved(status: int, body: string, added: Option<K>) | Rejected(message: string) | Pending | Throws

  /** `if(cb){ cb.apply(this, [res, req]); } d.resolve(res);` */
  function Succeed<K>(status: int, body: string, cb: Callback<K>): Outcome<K> {
    match cb
    case NoCallback => Resolved(status, body, None)
    case Callback(run) =>
      match run(status, body)
      case Some(a) => Resolved(status, body, Some(a))
      case None => Pending
  }

  /** The end handler for a response that is not retried. A network error
      is only logged, so the promise never settles. A message read from an
      error body that throws leaves it unsettled too. So does a callback
      that throws, because `d.resolve(res)` comes after it. */
  function Settlement<K>(response: Aws.Response, path: string, messageOf: MessageOf, cb: Callback<K>): (o: Outcome<K>)
    ensures o.Resolved? <==> response.Reply? && response.status < 400 && (cb.NoCallback? || cb.run(response.status, response.body).Some?)
    ensures o.Resolved? ==> o == Resolved(response.status, response.body, Added(cb, response.status, response.body))
    ensures response.Reply? && response.status < 400 && !o.Resolved? ==> o.Pending?
    ensures !o.Throws?
  {
    match response
    case NetworkError(_) => Pending
    case Reply(status, body) =>
      if status < 400 then Succeed(status, body, cb)
      else if |body| > 0 then
        match messageOf(body)
        case Some(m) => Rejected(m)
        case None => Pending
      else if status == 404 then Rejected(path + " not found")
      else Rejected("Unknown error: " + IntToString(status) + ", Body: " + body + ", Path: " + path)
  }

  /** The error message of a failure that is not retried: the parsed
      message when there is a body, otherwise the "not found" message for
      404 and the "Unknown error" message for every other code. */
  lemma SettlementMessages<K>(status: int, body: string, path: string, messageOf: MessageOf, cb: Callback<K>)
    requires status >= 400
    ensures |body| > 0 && messageOf(body).Some? ==>
      Settlement(Aws.Reply(status, body), path, messageOf, cb) == Rejected(messageOf(body).value)
    ensures body == "" && status == 404 ==>
      Settlement(Aws.Reply(status, body), path, messageOf, cb) == Rejected(path + " not found")
    ensures body == "" && status != 404 ==>
      Settlement(Aws.Reply(status, body), path, messageOf, cb) == Rejected("Unknown error: " + IntToString(status) + ", Body: , Path: " + path)
  {
  }

  /** One attempt as a function of the time it is made at. */
  type Attempt = string -> Option<SentRequest>

  /** The number of requests sent from attempt `retries` on: a retry is
      sent after every response that asks for one, unless the retry throws. */
  function AttemptCount(attempt: Attempt, date: nat -> string, retries: nat, respond: nat -> Aws.Response): nat
    decreases MaxRetries - retries
  {
    if attempt(date(retries)).None? then 0
    else match respond(retries)
      case NetworkError(_) => 1
      case Reply(status, _) => if ShouldRetry(status, retries) then 1 + AttemptCount(attempt, date, retries + 1, respond) else 1
  }

  /** How the promise of attempt `retries` settles. A retry resolves the
      original promise when it resolves; when it rejects, the rejection has
      no handler and the original promise stays pending. A retry that throws
      does so inside a timer, leaving it pending as well. */
  function Settled<K>(attempt: Attempt, date: nat -> string, retries: nat, respond: nat -> Aws.Response,
                      path: string, messageOf: MessageOf, cb: Callback<K>): Outcome<K>
    decreases MaxRetries - retries
  {
    if attempt(date(retries)).None? then Throws
    else match respond(retries)
      case Reply(status, _) =>
        if ShouldRetry(status, retries) then
          var later := Settled(attempt, date, retries + 1, respond, path, messageOf, cb);
          if later.Resolved? then later else Pending
        else Settlement(respond(retries), path, messageOf, cb)
      case NetworkError(_) => Settlement(respond(retries), path, messageOf, cb)
  }

  /** At most six requests are sent, and one when the first response is
      not to be retried. */
  lemma {:induction false} AttemptCountBounds(attempt: Attempt, date: nat -> string, retries: nat, respond: nat -> Aws.Response)
    ensures AttemptCount(attempt, date, retries, respond) <= if retries <= MaxRetries then MaxRetries + 1 - retries else 1
    ensures respond(retries).Reply? && !ShouldRetry(respond(retries).status, retries) ==> AttemptCount(attempt, date, retries, respond) <= 1
    decreases MaxRetries - retries
  {
    if attempt(date(retries)).Some? && respond(retries).Reply? && ShouldRetry(respond(retries).status, retries) {
      AttemptCountBounds(attempt, date, retries + 1, respond);
    }
  }

  /** A request that was retried never rejects: it resolves with a later
      successful response or stays pending. */
  lemma RetriedNeverRejects<K>(attempt: Attempt, date: nat -> string, retries: nat, respond: nat -> Aws.Response,
                            path: string, messageOf: MessageOf, cb: Callback<K>)
    requires attempt(date(retries)).Some?
    requires respond(retries).Reply? && ShouldRetry(respond(retries).status, retries)
    ensures Settled(attempt, date, retries, respond, path, messageOf, cb).Resolved? || Settled(attempt, date, retries, respond, path, messageOf, cb).Pending?
  {
  }

  /** A resolved request carries a response below 400, the reply to the
      last attempt sent. */
  lemma {:induction false} ResolvedIsSuccess<K>(attempt: Attempt, date: nat -> string, retries: nat, respond: nat -> Aws.Response,
                                             path: string, messageOf: MessageOf, cb: Callback<K>)
    requires Settled(attempt, date, retries, respond, path, messageOf, cb).Resolved?
    ensures AttemptCount(attempt, date, retries, respond) >= 1
    ensures var last := respond(retries + AttemptCount(attempt, date, retries, respond) - 1);
      last.Reply? && last.status < 400
      && Settled(attempt, date, retries, respond, path, messageOf, cb) == Resolved(last.status, last.body, Added(cb, last.status, last.body))
      && (cb.Callback? ==> cb.run(last.status, last.body).Some?)
    decreases MaxRetries - retries
  {
    if respond(retries).Reply? && ShouldRetry(respond(retries).status, retries) {
      ResolvedIsSuccess(attempt, date, retries + 1, respond, path, messageOf, cb);
    }
  }

  /** The callback of `getKeys`: it stores the keys parsed from the body
      and throws when parsing throws. */
  function KeysCallback<K>(keysOf: string -> Option<K>): Callback<K> {
    Callback((status: int, body: string) => keysOf(body))
  }

  /** A resolved outcome of `count` attempts is the last reply, a
      success, with the keys parsed from its body stored on it. */
  ghost predicate ResolvesWithKeys<K>(outcome: Outcome<K>, respond: nat -> Aws.Response, count: nat, keysOf: string -> Option<K>) {
    outcome.Resolved? ==>
      && count >= 1
      && var last := respond(count - 1);
      && last.Reply? && last.status < 400 && keysOf(last.body).Some?
      && outcome == Resolved(last.status, last.body, keysOf(last.body))
  }

  /** With the `getKeys` callback, a resolved request carries the last
      of its `count` replies and the keys parsed from that reply's body. */
  lemma KeysResolved<K>(attempt: Attempt, date: nat -> string, respond: nat -> Aws.Response,
                        path: string, messageOf: MessageOf, keysOf: string -> Option<K>, outcome: Outcome<K>, count: nat)
    requires outcome == Settled(attempt, date, 0, respond, path, messageOf, KeysCallback(keysOf))
    requires count == AttemptCount(attempt, date, 0, respond)
    ensures ResolvesWithKeys(outcome, respond, count, keysOf)
  {
    if outcome.Resolved? {
      var cb := KeysCallback(keysOf);
      ResolvedIsSuccess(attempt, date, 0, respond, path, messageOf, cb);
      var last := respond(count - 1);
      assert Added(cb, last.status, last.body) == keysOf(last.body);
    }
  }

  /** The requests `sent` are those of attempts `retries`, `retries + 1`, ... */
  ghost predicate Sends(attempt: Attempt, date: nat -> string, retries: nat, sent: seq<SentRequest>) {
    forall i :: 0 <= i < |sent| ==> attempt(date(retries + i)) == Some(sent[i])
  }

  /** An attempt that is retried settles as its retry does, unless the
      retry rejects, and sends one request more than the retry. */
  lemma RetriedStep<K>(attempt: Attempt, date: nat -> string, retries: nat, respond: nat -> Aws.Response,
                    path: string, messageOf: MessageOf, cb: Callback<K>)
    requires attempt(date(retries)).Some? && respond(retries).Reply? && ShouldRetry(respond(retries).status, retries)
    ensures var later := Settled(attempt, date, retries + 1, respond, path, messageOf, cb);
      Settled(attempt, date, retries, respond, path, messageOf, cb) == (if later.Resolved? then later else Pending)
    ensures AttemptCount(attempt, date, retries, respond) == 1 + AttemptCount(attempt, date, retries + 1, respond)
  {
  }

  /** An attempt that is not retried settles by its own response and
      sends one request. */
  lemma FinalStep<K>(attempt: Attempt, date: nat -> string, retries: nat, respond: nat -> Aws.Response,
                  path: string, messageOf: MessageOf, cb: Callback<K>)
    requires attempt(date(retries)).Some?
    requires !(respond(retries).Reply? && ShouldRetry(respond(retries).status, retries))
    ensures Settled(attempt, date, retries, respond, path, messageOf, cb) == Settlement(respond(retries), path, messageOf, cb)
    ensures AttemptCount(attempt, date, retries, respond) == 1
  {
  }

  /** An attempt followed by the requests of its retries. */
  lemma SendsCons(attempt: Attempt, date: nat -> string, retries: nat, first: SentRequest, more: seq<SentRequest>)
    requires attempt(date(retries)) == Some(first)
    requires Sends(attempt, date, retries + 1, more)
    ensures Sends(attempt, date, retries, [first] + more)
  {
    var sent := [first] + more;
    forall i | 0 <= i < |sent| ensures attempt(date(retries + i)) == Some(sent[i]) {
      if i > 0 {
        assert sent[i] == more[i - 1];
        assert retries + i == retries + 1 + (i - 1);
      }
    }
  }

  /** Every request an attempt makes goes to `host` and `path` with the
      given verb and body. */
  ghost predicate Routes(attempt: Attempt, host: string, path: string, verb: string, body: string) {
    forall d: string {:trigger attempt(d)} :: attempt(d).Some? ==>
      var r := attempt(d).value;
      r.host == host && r.path == path && r.verb == verb && r.body == body
  }

  /** The attempt of `makeRequest` as a function of the time. */
  function AttemptFor(accessKeyId: string, secret: string, host: string, path: string, verb: string,
                      headers: Dict<Val>, body: string, p: Primitives): Attempt
  {
    date => Prepare(accessKeyId, secret, host, path, verb, headers, body, date, p)
  }

  /** Signing never changes where a request goes: the path of the request
      is the path given, without any query string. */
  lemma AttemptForRoutes(accessKeyId: string, secret: string, host: string, path: string, verb: string,
                         headers: Dict<Val>, body: string, p: Primitives)
    ensures Routes(AttemptFor(accessKeyId, secret, host, path, verb, headers, body, p), host, path, verb, body)
  {
  }

  /** The requests of a run all go where the attempt routes them. */
  lemma SendsRouted(attempt: Attempt, date: nat -> string, retries: nat, sent: seq<SentRequest>,
                    host: string, path: string, verb: string, body: string)
    requires Sends(attempt, date, retries, sent) && Routes(attempt, host, path, verb, body)
    ensures forall i :: 0 <= i < |sent| ==> sent[i].host == host && sent[i].path == path && sent[i].verb == verb && sent[i].body == body
  {
    forall i | 0 <= i < |sent| ensures sent[i].host == host && sent[i].path == path && sent[i].verb == verb && sent[i].body == body {
      assert attempt(date(retries + i)) == Some(sent[i]);
    }
  }

  /** `querystring.stringify(params)` prefixed with `?`, `n` times over. */
  function Repeat(s: string, n: nat): (r: string)
    ensures |r| == n * |s|
  {
    if n == 0 then "" else s + Repeat(s, n - 1)
  }

  /** One more copy of `s` after `prefix`. */
  lemma RepeatAfter(prefix: string, s: string, n: nat)
    ensures prefix + s + Repeat(s, n) == prefix + Repeat(s, n + 1)
  {
    assert Repeat(s, n + 1) == s + Repeat(s, n);
  }

  /** A single copy of `s` after `prefix`. */
  lemma RepeatOnce(prefix: string, s: string)
    ensures prefix + s == prefix + Repeat(s, 1)
  {
    assert Repeat(s, 1) == s + Repeat(s, 0);
    assert s + Repeat(s, 0) == s;
  }

  /** `getKeys`: option names and the query parameters they become. */
  const OptMap: seq<(string, string)> := [("prefix", "prefix"), ("delimiter", "delimiter"), ("maxKeys", "max-keys"), ("marker", "marker")]

  /** The parameters the option map `m` builds: an option is copied, under
      its parameter name, when the caller's object has it, even with an
      `undefined` value. */
  function CopyOptions(opts: Dict<Val>, m: seq<(string, string)>): Dict<Val>
    decreases |m|
  {
    if m == [] then []
    else
      var params := CopyOptions(opts, m[..|m| - 1]);
      var entry := m[|m| - 1];
      match Get(opts, entry.0)
      case Some(v) => Put(params, entry.1, v)
      case None => params
  }

  /** The query parameters of `getKeys`. */
  function KeyParams(opts: Dict<Val>): Dict<Val> {
    CopyOptions(opts, OptMap)
  }

  /** The `forEach` over the option map in `getKeys`. */
  method GetKeyParams(opts: Dict<Val>) returns (params: Dict<Val>)
    ensures params == KeyParams(opts)
  {
    params := [];
    var i := 0;
    while i < |OptMap|
      invariant 0 <= i <= |OptMap|
      invariant params == CopyOptions(opts, OptMap[..i])
    {
      var option := OptMap[i].0;
      assert OptMap[..i + 1][..i] == OptMap[..i];
      if option in Keys(opts) {
        params := Put(params, OptMap[i].1, ValueOf(opts, option));
      }
      i := i + 1;
    }
    assert OptMap[..|OptMap|] == OptMap;
  }

  /** No parameter name is the target of two options. */
  predicate DistinctTargets(m: seq<(string, string)>) {
    forall i, j :: 0 <= i < j < |m| ==> m[i].1 != m[j].1
  }

  /** The option the parameter `k` is copied from, if any. */
  function SourceOption(k: string, m: seq<(string, string)>): (r: Option<string>)
    ensures r.None? <==> forall i :: 0 <= i < |m| ==> m[i].1 != k
    decreases |m|
  {
    if m == [] then None
    else if m[|m| - 1].1 == k then Some(m[|m| - 1].0)
    else
      assert forall i :: 0 <= i < |m| - 1 ==> m[..|m| - 1][i] == m[i];
      SourceOption(k, m[..|m| - 1])
  }

  /** A parameter holds exactly the option it is copied from. */
  lemma {:induction false} CopyOptionsGet(opts: Dict<Val>, m: seq<(string, string)>, k: string)
    requires DistinctTargets(m)
    ensures Get(CopyOptions(opts, m), k) == match SourceOption(k, m) case Some(o) => Get(opts, o) case None => None
    decreases |m|
  {
    if m != [] {
      var init := m[..|m| - 1];
      var entry := m[|m| - 1];
      assert forall i :: 0 <= i < |init| ==> init[i] == m[i];
      CopyOptionsGet(opts, init, k);
      if Get(opts, entry.0).Some? {
        GetPut(CopyOptions(opts, init), entry.1, Get(opts, entry.0).value, k);
      } else if entry.1 == k {
        assert SourceOption(k, init).None?;
      }
    }
  }

  /** With distinct targets, the parameter named by entry `i` comes from that entry's option. */
  lemma {:induction false} SourceOptionAt(m: seq<(string, string)>, i: nat)
    requires DistinctTargets(m) && i < |m|
    ensures SourceOption(m[i].1, m) == Some(m[i].0)
    decreases |m|
  {
    if i < |m| - 1 {
      var init := m[..|m| - 1];
      assert init[i] == m[i];
      SourceOptionAt(init, i);
    }
  }

  /** Each query parameter of `getKeys` holds exactly the caller's option
      it is mapped from (absent when the option is absent), and no other
      parameter is produced. */
  lemma KeyParamsGet(opts: Dict<Val>, k: string)
    ensures Get(KeyParams(opts), "prefix") == Get(opts, "prefix")
    ensures Get(KeyParams(opts), "delimiter") == Get(opts, "delimiter")
    ensures Get(KeyParams(opts), "max-keys") == Get(opts, "maxKeys")
    ensures Get(KeyParams(opts), "marker") == Get(opts, "marker")
    ensures k != "prefix" && k != "delimiter" && k != "max-keys" && k != "marker" ==> Get(KeyParams(opts), k).None?
  {
    var m := OptMap;
    assert m[0] == ("prefix", "prefix") && m[1] == ("delimiter", "delimiter");
    assert m[2] == ("maxKeys", "max-keys") && m[3] == ("marker", "marker");
    assert DistinctTargets(m);
    SourceOptionAt(m, 0);
    SourceOptionAt(m, 1);
    SourceOptionAt(m, 2);
    SourceOptionAt(m, 3);
    CopyOptionsGet(opts, m, "prefix");
    CopyOptionsGet(opts, m, "delimiter");
    CopyOptionsGet(opts, m, "max-keys");
    CopyOptionsGet(opts, m, "marker");
    CopyOptionsGet(opts, m, k);
    if k != "prefix" && k != "delimiter" && k != "max-keys" && k != "marker" {
      forall i | 0 <= i < |m| ensures m[i].1 != k {
        assert i == 0 || i == 1 || i == 2 || i == 3;
      }
    }
  }

  class S3 {
    var accessKeyId: string
    var secretAccessKey: string
    var host: string
    var version: string
    var autoParseResponse: bool
    var path: string

    /** `new S3(accessKeyId, secretAccessKey)`: a connection to
        s3.amazonaws.com with API version 2006-03-01 and automatic
        parsing turned off. */
    constructor (accessKeyId: string, secretAccessKey: string)
      ensures this.accessKeyId == accessKeyId && this.secretAccessKey == secretAccessKey
      ensures host == "s3.amazonaws.com" && version == "2006-03-01"
      ensures !autoParseResponse && path == "/"
    {
      this.accessKeyId, this.secretAccessKey := accessKeyId, secretAccessKey;
      host, version := "s3.amazonaws.com", "2006-03-01";
      autoParseResponse, path := false, "/";
    }

    /** The attempt `makeRequest` makes with defaulted arguments, as a
        function of the time. */
    function AttemptOf(requestPath: string, verb: string, headers: Dict<Val>, body: string, p: Primitives): Attempt
      reads this
    {
      AttemptFor(accessKeyId, secretAccessKey, host, requestPath, verb, headers, body, p)
    }

    /** Attempt `retries` and its retries: each one appends the query to
        the connection's own `path` before it is sent. */
    method Send<K>(attempt: Attempt, query: string, requestPath: string, retries: nat, date: nat -> string,
                   respond: nat -> Aws.Response, messageOf: MessageOf, cb: Callback<K>)
      returns (outcome: Outcome<K>, sent: seq<SentRequest>)
      modifies this
      ensures path == old(path) + Repeat(query, |sent|)
      ensures accessKeyId == old(accessKeyId) && secretAccessKey == old(secretAccessKey)
      ensures host == old(host) && version == old(version) && autoParseResponse == old(autoParseResponse)
      ensures outcome == Settled(attempt, date, retries, respond, requestPath, messageOf, cb)
      ensures |sent| == AttemptCount(attempt, date, retries, respond)
      ensures Sends(attempt, date, retries, sent)
      decreases MaxRetries - retries
    {
      var request := attempt(date(retries));
      if request.None? {
        return Throws, [];
      }
      var response := respond(retries);
      if response.Reply? && ShouldRetry(response.status, retries) {
        path := path + query;
        var later, more := Send(attempt, query, requestPath, retries + 1, date, respond, messageOf, cb);
        outcome := if later.Resolved? then later else Pending;
        sent := [request.value] + more;
        RetriedStep(attempt, date, retries, respond, requestPath, messageOf, cb);
        SendsCons(attempt, date, retries, request.value, more);
        RepeatAfter(old(path), query, |more|);
      } else {
        outcome, sent := SendLast(attempt, request.value, query, requestPath, retries, date, respond, messageOf, cb);
      }
    }

    /** The attempt that is not retried: its query is appended once and
        its own response settles the request. */
    method SendLast<K>(attempt: Attempt, request: SentRequest, query: string, requestPath: string, retries: nat, date: nat -> string,
                       respond: nat -> Aws.Response, messageOf: MessageOf, cb: Callback<K>)
      returns (outcome: Outcome<K>, sent: seq<SentRequest>)
      requires attempt(date(retries)) == Some(request)
      requires !(respond(retries).Reply? && ShouldRetry(respond(retries).status, retries))
      modifies this
      ensures path == old(path) + Repeat(query, |sent|)
      ensures accessKeyId == old(accessKeyId) && secretAccessKey == old(secretAccessKey)
      ensures host == old(host) && version == old(version) && autoParseResponse == old(autoParseResponse)
      ensures outcome == Settled(attempt, date, retries, respond, requestPath, messageOf, cb)
      ensures |sent| == AttemptCount(attempt, date, retries, respond)
      ensures Sends(attempt, date, retries, sent)
    {
      path := path + query;
      outcome := Settlement(respond(retries), requestPath, messageOf, cb);
      sent := [request];
      FinalStep(attempt, date, retries, respond, requestPath, messageOf, cb);
      RepeatOnce(old(path), query);
    }

    /** `makeRequest(path, verb, headers, cb, body, params, retries)`:
        verb, path and body default to GET, `/` and ''. The query string is
        appended to the connection's `path`, never to the path of the
        request. */
    method MakeRequest<K>(requestPath: string, verb: string, headers: Dict<Val>, cb: Callback<K>, body: string, params: Dict<Val>,
                          retries: nat, date: nat -> string, respond: nat -> Aws.Response, messageOf: MessageOf, p: Primitives)
      returns (outcome: Outcome<K>, sent: seq<SentRequest>)
      modifies this
      ensures var rp := if requestPath == "" then "/" else requestPath;
        var v := if verb == "" then "GET" else verb;
        var attempt := old(AttemptOf(rp, v, headers, body, p));
        && outcome == Settled(attempt, date, retries, respond, rp, messageOf, cb)
        && |sent| == AttemptCount(attempt, date, retries, respond)
        && Sends(attempt, date, retries, sent)
        && forall i :: 0 <= i < |sent| ==> sent[i].host == old(host) && sent[i].path == rp && sent[i].verb == v && sent[i].body == body
      ensures path == old(path) + Repeat("?" + QueryString(params, p), |sent|)
      ensures accessKeyId == old(accessKeyId) && secretAccessKey == old(secretAccessKey)
      ensures host == old(host) && version == old(version) && autoParseResponse == old(autoParseResponse)
    {
      var rp := if requestPath == "" then "/" else requestPath;
      var v := if verb == "" then "GET" else verb;
      var attempt := AttemptOf(rp, v, headers, body, p);
      outcome, sent := Send(attempt, "?" + QueryString(params, p), rp, retries, date, respond, messageOf, cb);
      AttemptForRoutes(old(accessKeyId), old(secretAccessKey), old(host), rp, v, headers, body, p);
      SendsRouted(attempt, date, retries, sent, old(host), rp, v, body);
    }

    /** `getKeys(bucketName, opts)`: a GET of `/<bucket>` whose mapped
        options only ever reach the connection's `path`. Its callback
        stores `common.xmlToObject(res.body).listBucketResult` as
        `res.keys`; `keysOf(body)` is that value, or `None` when parsing
        the body throws. */
    method GetKeys<K>(bucketName: string, opts: Dict<Val>, date: nat -> string, respond: nat -> Aws.Response,
                      messageOf: MessageOf, keysOf: string -> Option<K>, p: Primitives)
      returns (outcome: Outcome<K>, sent: seq<SentRequest>)
      modifies this
      ensures forall i :: 0 <= i < |sent| ==> sent[i].path == "/" + bucketName && sent[i].verb == "GET" && sent[i].body == ""
      ensures path == old(path) + Repeat("?" + QueryString(KeyParams(opts), p), |sent|)
      ensures outcome == Settled(old(AttemptOf("/" + bucketName, "GET", [], "", p)), date, 0, respond, "/" + bucketName, messageOf,
                                 KeysCallback(keysOf))
      ensures ResolvesWithKeys(outcome, respond, |sent|, keysOf)
    {
      var params := GetKeyParams(opts);
      var cb := KeysCallback(keysOf);
      var attempt := AttemptOf("/" + bucketName, "GET", [], "", p);
      outcome, sent := MakeRequest("/" + bucketName, "GET", [], cb, "", params, 0, date, respond, messageOf, p);
      KeysResolved(attempt, date, respond, "/" + bucketName, messageOf, keysOf, outcome, |sent|);
    }
  }
}
