/** The request signers of lib/signing.js: AWS Signature Version 4 (a
    header signature under a key derived through a chain of HMACs) and
    the Version 2 query signer. Both fill in fields of a request object
    in place. */
module Signing {
  import opened Base
  import Sorting
  import Common
  import opened Externals

  /** `creds`: access key, secret and an optional session token. */
  datatype Credentials = Credentials(key: string, secret: string, sessionToken: Option<string>)

  const UserAgent: string := "node-plata/0.1; http://github.com/exfm/node-plata"
  const Algorithm: string := "AWS4-HMAC-SHA256"
  const Terminator: string := "aws4_request"

  // ------------------------------------------------------------ timestamps

  /** `Date.prototype.toISOString()` output: `YYYY-MM-DDTHH:MM:SS.mmmZ`. */
  predicate IsoTime(s: string) {
    && |s| == 24
    && AllDigits(s[0..4]) && s[4] == '-' && AllDigits(s[5..7]) && s[7] == '-'
    && AllDigits(s[8..10]) && s[10] == 'T'
    && AllDigits(s[11..13]) && s[13] == ':' && AllDigits(s[14..16]) && s[16] == ':'
    && AllDigits(s[17..19]) && s[19] == '.' && AllDigits(s[20..23]) && s[23] == 'Z'
  }

  /** `s.replace(/[:\-]|\.\d{3}/g, '')`: every `:` and `-`, and every `.`
      followed by three digits together with those digits, removed. */
  function CompactTimestamp(s: string): string
    decreases |s|
  {
    if s == [] then []
    else if s[0] == ':' || s[0] == '-' then CompactTimestamp(s[1..])
    else if s[0] == '.' && |s| >= 4 && AllDigits(s[1..4]) then CompactTimestamp(s[4..])
    else [s[0]] + CompactTimestamp(s[1..])
  }

  lemma {:induction false} CompactKeepsDigits(d: string, rest: string)
    requires AllDigits(d)
    ensures CompactTimestamp(d + rest) == d + CompactTimestamp(rest)
    decreases |d|
  {
    if d != [] {
      assert IsDigit(d[0]);
      assert (d + rest)[0] == d[0] && (d + rest)[1..] == d[1..] + rest;
      assert AllDigits(d[1..]) by {
        forall i | 0 <= i < |d[1..]| ensures IsDigit(d[1..][i]) { assert d[1..][i] == d[i + 1]; }
      }
      var t := d + rest;
      assert t[0] != ':' && t[0] != '-' && t[0] != '.';
      assert CompactTimestamp(t) == [t[0]] + CompactTimestamp(t[1..]);
      CompactKeepsDigits(d[1..], rest);
      assert d == [d[0]] + d[1..];
      assert [t[0]] + (d[1..] + CompactTimestamp(rest)) == d + CompactTimestamp(rest);
    } else {
      assert d + rest == rest;
    }
  }

  lemma CompactKeepsLetter(c: char, rest: string)
    requires c == 'T' || c == 'Z'
    ensures CompactTimestamp([c] + rest) == [c] + CompactTimestamp(rest)
  {
    assert ([c] + rest)[1..] == rest;
  }

  lemma CompactDropsSeparator(c: char, rest: string)
    requires c == ':' || c == '-'
    ensures CompactTimestamp([c] + rest) == CompactTimestamp(rest)
  {
    assert ([c] + rest)[1..] == rest;
  }

  lemma CompactDropsMillis(ms: string, rest: string)
    requires |ms| == 3 && AllDigits(ms)
    ensures CompactTimestamp(['.'] + ms + rest) == CompactTimestamp(rest)
  {
    var s := ['.'] + ms + rest;
    assert s[1..4] == ms && s[4..] == rest;
  }

  /** The default V4 timestamp of an ISO time is `YYYYMMDDTHHMMSSZ`: the
      date digits, `T`, the time digits to the second, `Z`. */
  lemma CompactTimestampOfIso(s: string)
    requires IsoTime(s)
    ensures CompactTimestamp(s) == s[0..4] + s[5..7] + s[8..10] + "T" + s[11..13] + s[14..16] + s[17..19] + "Z"
    ensures |CompactTimestamp(s)| == 16
  {
    CompactDate(s);
    CompactClock(s);
  }

  /** The date part loses its dashes and keeps the `T`. */
  lemma CompactDate(s: string)
    requires IsoTime(s)
    ensures CompactTimestamp(s) == s[0..4] + s[5..7] + s[8..10] + "T" + CompactTimestamp(s[11..])
  {
    var c11 := CompactTimestamp(s[11..]);
    var c10 := CompactTimestamp(s[10..]);
    assert c10 == "T" + c11 by { assert s[10..] == [s[10]] + s[11..]; CompactKeepsLetter(s[10], s[11..]); }
    var c8 := CompactTimestamp(s[8..]);
    assert c8 == s[8..10] + c10 by { assert s[8..] == s[8..10] + s[10..]; CompactKeepsDigits(s[8..10], s[10..]); }
    var c7 := CompactTimestamp(s[7..]);
    assert c7 == c8 by { assert s[7..] == [s[7]] + s[8..]; CompactDropsSeparator(s[7], s[8..]); }
    var c5 := CompactTimestamp(s[5..]);
    assert c5 == s[5..7] + c7 by { assert s[5..] == s[5..7] + s[7..]; CompactKeepsDigits(s[5..7], s[7..]); }
    var c4 := CompactTimestamp(s[4..]);
    assert c4 == c5 by { assert s[4..] == [s[4]] + s[5..]; CompactDropsSeparator(s[4], s[5..]); }
    assert CompactTimestamp(s) == s[0..4] + c4 by { assert s == s[0..4] + s[4..]; CompactKeepsDigits(s[0..4], s[4..]); }
  }

  /** The time part loses its colons and its milliseconds and keeps the `Z`. */
  lemma CompactClock(s: string)
    requires IsoTime(s)
    ensures CompactTimestamp(s[11..]) == s[11..13] + s[14..16] + s[17..19] + "Z"
  {
    var z := CompactTimestamp(s[23..]);
    assert z == "Z" by { assert s[23..] == [s[23]] + []; CompactKeepsLetter(s[23], []); }
    var c19 := CompactTimestamp(s[19..]);
    assert c19 == z by { assert s[19..] == ['.'] + s[20..23] + s[23..]; CompactDropsMillis(s[20..23], s[23..]); }
    var c17 := CompactTimestamp(s[17..]);
    assert c17 == s[17..19] + c19 by { assert s[17..] == s[17..19] + s[19..]; CompactKeepsDigits(s[17..19], s[19..]); }
    var c16 := CompactTimestamp(s[16..]);
    assert c16 == c17 by { assert s[16..] == [s[16]] + s[17..]; CompactDropsSeparator(s[16], s[17..]); }
    var c14 := CompactTimestamp(s[14..]);
    assert c14 == s[14..16] + c16 by { assert s[14..] == s[14..16] + s[16..]; CompactKeepsDigits(s[14..16], s[16..]); }
    var c13 := CompactTimestamp(s[13..]);
    assert c13 == c14 by { assert s[13..] == [s[13]] + s[14..]; CompactDropsSeparator(s[13], s[14..]); }
    assert CompactTimestamp(s[11..]) == s[11..13] + c13 by { assert s[11..] == s[11..13] + s[13..]; CompactKeepsDigits(s[11..13], s[13..]); }
  }

  /** The timestamp ends in `.` and `k` digits then `Z`. */
  predicate MillisSuffix(s: string, k: nat) {
    |s| >= k + 2 && s[|s| - k - 2] == '.' && AllDigits(s[|s| - k - 1..|s| - 1]) && s[|s| - 1] == 'Z'
  }

  /** `s.replace(/\.[0-9]{0,3}Z$/, 'Z')`: drops the fraction of a second;
      the leftmost match is the one with the most digits. */
  function TrimMillis(s: string): string {
    if MillisSuffix(s, 3) then s[..|s| - 5] + "Z"
    else if MillisSuffix(s, 2) then s[..|s| - 4] + "Z"
    else if MillisSuffix(s, 1) then s[..|s| - 3] + "Z"
    else if MillisSuffix(s, 0) then s[..|s| - 2] + "Z"
    else s
  }

  /** The V2 timestamp of an ISO time is that time to the second:
      `YYYY-MM-DDTHH:MM:SSZ`. */
  lemma TrimMillisOfIso(s: string)
    requires IsoTime(s)
    ensures TrimMillis(s) == s[..19] + "Z"
  {
    assert MillisSuffix(s, 3);
  }

  // ------------------------------------------------------------ V4 pieces

  /** `timestamp || <now, compacted>`. */
  function V4Timestamp(timestamp: Option<string>, nowIso: string): string {
    if Present(timestamp) then timestamp.value else CompactTimestamp(nowIso)
  }

  /** The fixed headers in the order `V4` assigns them: user agent, host,
      `x-amz-date` then `date` (the chained assignment stores the inner
      target first), content length, and the session token if any. */
  function FixedHeaderEntries(host: string, ts: string, bodyLength: nat, creds: Credentials): Dict<Val> {
    [("user-agent", Str(UserAgent)), ("host", Str(Lower(host))), ("x-amz-date", Str(ts)), ("date", Str(ts)),
     ("content-length", Num(bodyLength))]
    + (if Present(creds.sessionToken) then [("x-amz-security-token", Str(creds.sessionToken.value))] else [])
  }

  /** The headers after the fixed ones are set. */
  function V4FixedHeaders(h: Dict<Val>, host: string, ts: string, bodyLength: nat, creds: Credentials): Dict<Val> {
    PutAll(h, FixedHeaderEntries(host, ts, bodyLength, creds))
  }

  /** What a header name maps to once the fixed headers are set, read off
      name by name: the token if the credentials carry one, then the body
      length, the timestamp, the host and the user agent; any other name
      keeps its old value. */
  function FixedHeaderValue(h: Dict<Val>, host: string, ts: string, bodyLength: nat, creds: Credentials, name: string): Option<Val> {
    if name == "x-amz-security-token" && Present(creds.sessionToken) then Some(Str(creds.sessionToken.value))
    else if name == "content-length" then Some(Num(bodyLength))
    else if name == "date" || name == "x-amz-date" then Some(Str(ts))
    else if name == "host" then Some(Str(Lower(host)))
    else if name == "user-agent" then Some(Str(UserAgent))
    else Get(h, name)
  }

  /** Setting the fixed headers keeps header names unique. */
  lemma V4FixedHeadersUnique(h: Dict<Val>, host: string, ts: string, bodyLength: nat, creds: Credentials)
    requires UniqueKeys(h)
    ensures UniqueKeys(V4FixedHeaders(h, host, ts, bodyLength, creds))
  {
    PutAllUnique(h, FixedHeaderEntries(host, ts, bodyLength, creds));
  }

  lemma FixedHeaderEntriesUnique(host: string, ts: string, bodyLength: nat, creds: Credentials)
    ensures UniqueKeys(FixedHeaderEntries(host, ts, bodyLength, creds))
  {
  }

  lemma FixedHeaderEntriesGet(host: string, ts: string, bodyLength: nat, creds: Credentials, name: string)
    ensures Get(FixedHeaderEntries(host, ts, bodyLength, creds), name) == FixedHeaderValue([], host, ts, bodyLength, creds, name)
  {
    var token: Dict<Val> := if Present(creds.sessionToken) then [("x-amz-security-token", Str(creds.sessionToken.value))] else [];
    assert FixedHeaderEntries(host, ts, bodyLength, creds) ==
      [("user-agent", Str(UserAgent)), ("host", Str(Lower(host))), ("x-amz-date", Str(ts)), ("date", Str(ts))] +
      ([("content-length", Num(bodyLength))] + token);
    FixedFrontGet(Str(Lower(host)), Str(ts), [("content-length", Num(bodyLength))] + token, name);
    GetCons("content-length", Num(bodyLength), token, name);
    if Present(creds.sessionToken) {
      GetCons("x-amz-security-token", Str(creds.sessionToken.value), [], name);
    }
  }

  /** The four headers set first, in front of the rest. */
  lemma FixedFrontGet(host: Val, ts: Val, rest: Dict<Val>, name: string)
    ensures Get([("user-agent", Str(UserAgent)), ("host", host), ("x-amz-date", ts), ("date", ts)] + rest, name) ==
      if name == "date" || name == "x-amz-date" then Some(ts)
      else if name == "host" then Some(host)
      else if name == "user-agent" then Some(Str(UserAgent))
      else Get(rest, name)
  {
    var e3 := [("date", ts)] + rest;
    var e2 := [("x-amz-date", ts)] + e3;
    var e1 := [("host", host)] + e2;
    assert [("user-agent", Str(UserAgent)), ("host", host), ("x-amz-date", ts), ("date", ts)] + rest == [("user-agent", Str(UserAgent))] + e1;
    GetCons("user-agent", Str(UserAgent), e1, name);
    GetCons("host", host, e2, name);
    GetCons("x-amz-date", ts, e3, name);
    GetCons("date", ts, rest, name);
  }

  /** Every header of the signed request has the value `FixedHeaderValue`
      gives it. `V4` passes `request.body.length`, the body's length in
      UTF-16 code units (`Utf16Length`), as `bodyLength`. */
  lemma V4FixedHeadersGet(h: Dict<Val>, host: string, ts: string, bodyLength: nat, creds: Credentials, name: string)
    ensures Get(V4FixedHeaders(h, host, ts, bodyLength, creds), name) == FixedHeaderValue(h, host, ts, bodyLength, creds, name)
  {
    FixedHeaderEntriesUnique(host, ts, bodyLength, creds);
    FixedHeaderEntriesGet(host, ts, bodyLength, creds, name);
    GetPutAll(h, FixedHeaderEntries(host, ts, bodyLength, creds), name);
  }

  /** `[key, timestamp.substr(0, 8), region, scope, 'aws4_request'].join('/')`. */
  function CredentialString(key: string, ts: string, region: string, scope: string): string {
    Join([key, Common.Substr(ts, 0, 8), region, scope, Terminator], "/")
  }

  /** The date stamp: the first eight characters of the timestamp. */
  function DateStamp(ts: string): string {
    Common.Substr(ts, 0, 8)
  }

  /** The credential scope: the credential string without the access key. */
  function ScopeLine(ts: string, region: string, scope: string): string {
    Join([DateStamp(ts), region, scope, Terminator], "/")
  }

  /** `credentialString.replace(creds.key + '/', '')` removes exactly the
      leading access key and its slash, leaving the credential scope. */
  lemma ScopeLineDropsKey(key: string, ts: string, region: string, scope: string)
    ensures ReplaceFirst(CredentialString(key, ts, region, scope), key + "/", "") == ScopeLine(ts, region, scope)
  {
    var rest := ScopeLine(ts, region, scope);
    assert CredentialString(key, ts, region, scope) == key + "/" + rest;
    ReplaceLeadingPattern(key + "/", rest, "");
  }

  /** When no component contains `/`, the credential string splits back
      into exactly its five components. */
  lemma CredentialStringParses(key: string, ts: string, region: string, scope: string)
    requires '/' !in key && '/' !in DateStamp(ts) && '/' !in region && '/' !in scope
    ensures Split(CredentialString(key, ts, region, scope), '/') == [key, DateStamp(ts), region, scope, Terminator]
  {
    var parts := [key, DateStamp(ts), region, scope, Terminator];
    assert forall i :: 0 <= i < |parts| ==> '/' !in parts[i];
    SplitJoin(parts, '/');
  }

  /** The header names, lower-cased, in key order. */
  function LowerNames(h: Dict<Val>): (r: seq<string>)
    ensures |r| == |h|
  {
    seq(|h|, i requires 0 <= i < |h| => Lower(h[i].0))
  }

  /** The sorted lower-cased header names. */
  function SignedHeaderNames(h: Dict<Val>): seq<string> {
    Sorting.Sort(LowerNames(h))
  }

  /** `SignedHeaders`: the sorted lower-cased header names joined by `;`. */
  function SignedHeaders(h: Dict<Val>): string {
    Join(SignedHeaderNames(h), ";")
  }

  /** The signed header list is sorted and holds each header name,
      lower-cased, once per header; a name is listed only if some header
      lower-cases to it, so `authorization` is absent while no such header
      has been set. */
  lemma SignedHeaderNamesFacts(h: Dict<Val>, name: string)
    ensures Sorting.Sorted(SignedHeaderNames(h))
    ensures multiset(SignedHeaderNames(h)) == multiset(LowerNames(h))
    ensures name in SignedHeaderNames(h) <==> exists i :: 0 <= i < |h| && Lower(h[i].0) == name
  {
    var names := LowerNames(h);
    assert name in names <==> exists i :: 0 <= i < |h| && Lower(h[i].0) == name by {
      if name in names {
        var i :| 0 <= i < |names| && names[i] == name;
        assert Lower(h[i].0) == name;
      }
      if exists i :: 0 <= i < |h| && Lower(h[i].0) == name {
        var i :| 0 <= i < |h| && Lower(h[i].0) == name;
        assert names[i] == name;
      }
    }
  }

  /** `path.split('?', 2)[1] || ''`. */
  function QueryPart(path: string): string {
    var parts := Split(path, '?');
    if |parts| >= 2 then parts[1] else ""
  }

  /** The query part of the canonical request is empty for a path without
      `?`, and otherwise the text between the first `?` and the next one
      (or the end). */
  lemma QueryPartFacts(a: string, q: string, rest: string)
    requires '?' !in a && '?' !in q
    requires rest == [] || rest[0] == '?'
    ensures QueryPart(a) == ""
    ensures QueryPart(a + "?" + q + rest) == q
  {
    SplitWithout(a, '?');
    var s := a + "?" + q + rest;
    assert s == a + ['?'] + (q + rest);
    SplitAtFirst(a, '?', q + rest);
    SplitFirstPart(q, rest);
    assert Split(s, '?')[1] == Split(q + rest, '?')[0];
  }

  /** A `?`-free text up to the end or the next `?` is the first part. */
  lemma SplitFirstPart(q: string, rest: string)
    requires '?' !in q
    requires rest == [] || rest[0] == '?'
    ensures Split(q + rest, '?')[0] == q
  {
    if rest == [] {
      SplitWithout(q, '?');
      assert q + rest == q;
    } else {
      SplitAtFirst(q, '?', rest[1..]);
      assert q + rest == q + ['?'] + rest[1..];
    }
  }

  /** The canonical request: method, path, query part, canonical headers,
      an empty line, the signed header list and the hex hash of the body. */
  function CanonicalRequest(httpMethod: string, path: string, h: Dict<Val>, body: string, p: Primitives): string {
    Join([httpMethod, path, QueryPart(path), CanonicalHeaders(p, h), "", SignedHeaders(h), Hex(p, Sha256(p, body))], "\n")
  }

  /** The string to sign: algorithm, timestamp, the credential string with
      `key/` replaced away, and the lower-cased hex hash of the canonical
      request. */
  function V4StringToSign(ts: string, credentialString: string, key: string, canonical: string, p: Primitives): string {
    Join([Algorithm, ts, ReplaceFirst(credentialString, key + "/", ""), Lower(Hex(p, Sha256(p, canonical)))], "\n")
  }

  /** HMAC applied along a list of messages, each result keying the next. */
  function DeriveKey(seed: string, messages: seq<string>, p: Primitives): string
    decreases |messages|
  {
    if messages == [] then seed else DeriveKey(HmacSha256(p, seed, messages[0]), messages[1..], p)
  }

  /** The signing key: `'AWS4' + secret` keyed through date stamp, region,
      scope and `aws4_request`. */
  function SigningKey(secret: string, ts: string, region: string, scope: string, p: Primitives): string {
    var kDate := HmacSha256(p, "AWS4" + secret, DateStamp(ts));
    var kRegion := HmacSha256(p, kDate, region);
    var kService := HmacSha256(p, kRegion, scope);
    HmacSha256(p, kService, Terminator)
  }

  /** The signing key is derived from exactly the components that the
      string to sign names in its scope line, in that order, so a verifier
      can rebuild it from the signed text. */
  lemma SigningKeyFollowsScopeLine(key: string, secret: string, ts: string, region: string, scope: string, p: Primitives)
    requires '/' !in key && '/' !in DateStamp(ts) && '/' !in region && '/' !in scope
    ensures SigningKey(secret, ts, region, scope, p)
      == DeriveKey("AWS4" + secret, Split(ReplaceFirst(CredentialString(key, ts, region, scope), key + "/", ""), '/'), p)
  {
    ScopeLineDropsKey(key, ts, region, scope);
    var msgs := [DateStamp(ts), region, scope, Terminator];
    assert forall i :: 0 <= i < |msgs| ==> '/' !in msgs[i];
    SplitJoin(msgs, '/');
    var seed := "AWS4" + secret;
    var k1 := HmacSha256(p, seed, DateStamp(ts));
    var k2 := HmacSha256(p, k1, region);
    var k3 := HmacSha256(p, k2, scope);
    var k4 := HmacSha256(p, k3, Terminator);
    assert msgs[1..] == [region, scope, Terminator];
    assert msgs[1..][1..] == [scope, Terminator];
    assert msgs[1..][1..][1..] == [Terminator];
    assert DeriveKey(k4, msgs[1..][1..][1..][1..], p) == k4;
    assert DeriveKey(seed, msgs, p) == DeriveKey(k1, msgs[1..], p);
    assert DeriveKey(k1, msgs[1..], p) == DeriveKey(k2, msgs[1..][1..], p);
    assert DeriveKey(k2, msgs[1..][1..], p) == DeriveKey(k3, msgs[1..][1..][1..], p);
  }

  /** The `authorization` header value. */
  function V4Authorization(credentialString: string, signedHeaders: string, signature: string): string {
    Join([Algorithm + " Credential=" + credentialString, "SignedHeaders=" + signedHeaders, "Signature=" + signature], ", ")
  }

  // ------------------------------------------------------------ V2 pieces

  /** The parameters after V2 sets its four fixed entries. */
  function V2BakedParams(params: Dict<Val>, key: string, nowIso: string): Dict<Val> {
    var p1 := Put(params, "AWSAccessKeyId", Str(key));
    var p2 := Put(p1, "SignatureVersion", Num(2));
    var p3 := Put(p2, "SignatureMethod", Str("HmacSHA256"));
    Put(p3, "Timestamp", Str(TrimMillis(nowIso)))
  }

  /** The four assignments V2 makes before signing, one after the other. */
  method BakeV2Params(params: Dict<Val>, key: string, nowIso: string) returns (ps: Dict<Val>)
    ensures ps == V2BakedParams(params, key, nowIso)
  {
    ps := params;
    ps := Put(ps, "AWSAccessKeyId", Str(key));
    ps := Put(ps, "SignatureVersion", Num(2));
    ps := Put(ps, "SignatureMethod", Str("HmacSHA256"));
    ps := Put(ps, "Timestamp", Str(TrimMillis(nowIso)));
  }

  /** The V2 string to sign: method, lower-cased host, path and the query
      string of the key-sorted parameters. */
  function V2StringToSign(httpMethod: string, host: string, path: string, params: Dict<Val>, p: Primitives): string
    requires UniqueKeys(params)
  {
    Join([httpMethod, Lower(host), path, QueryString(Common.SortedByKeys(params), p)], "\n")
  }

  /** What a parameter name maps to once V2 has set its entries. */
  function V2ParamValue(params: Dict<Val>, key: string, nowIso: string, name: string): Option<Val> {
    if name == "Timestamp" then Some(Str(TrimMillis(nowIso)))
    else if name == "SignatureMethod" then Some(Str("HmacSHA256"))
    else if name == "SignatureVersion" then Some(Num(2))
    else if name == "AWSAccessKeyId" then Some(Str(key))
    else Get(params, name)
  }

  /** Setting the V2 entries keeps parameter names unique. */
  lemma V2BakedParamsUnique(params: Dict<Val>, key: string, nowIso: string)
    requires UniqueKeys(params)
    ensures UniqueKeys(V2BakedParams(params, key, nowIso))
  {
    var p1 := Put(params, "AWSAccessKeyId", Str(key));
    var p2 := Put(p1, "SignatureVersion", Num(2));
    var p3 := Put(p2, "SignatureMethod", Str("HmacSHA256"));
    PutUnique(params, "AWSAccessKeyId", Str(key));
    PutUnique(p1, "SignatureVersion", Num(2));
    PutUnique(p2, "SignatureMethod", Str("HmacSHA256"));
    PutUnique(p3, "Timestamp", Str(TrimMillis(nowIso)));
  }

  /** V2 sets the access key, version 2, HmacSHA256 and a timestamp
      without fraction, and leaves every other parameter as it was. */
  lemma V2BakedParamsGet(params: Dict<Val>, key: string, nowIso: string, name: string)
    ensures Get(V2BakedParams(params, key, nowIso), name) == V2ParamValue(params, key, nowIso, name)
  {
    var p1 := Put(params, "AWSAccessKeyId", Str(key));
    var p2 := Put(p1, "SignatureVersion", Num(2));
    var p3 := Put(p2, "SignatureMethod", Str("HmacSHA256"));
    GetPut(params, "AWSAccessKeyId", Str(key), name);
    GetPut(p1, "SignatureVersion", Num(2), name);
    GetPut(p2, "SignatureMethod", Str("HmacSHA256"), name);
    GetPut(p3, "Timestamp", Str(TrimMillis(nowIso)), name);
  }

  /** The signed parameters hold no `Signature` unless the caller passed
      one: the signature is not part of its own input. */
  lemma V2SignatureNotSigned(params: Dict<Val>, key: string, nowIso: string)
    requires UniqueKeys(params) && "Signature" !in Keys(params)
    ensures UniqueKeys(V2BakedParams(params, key, nowIso))
    ensures "Signature" !in Keys(Common.SortedByKeys(V2BakedParams(params, key, nowIso)))
  {
    var b := V2BakedParams(params, key, nowIso);
    V2BakedParamsUnique(params, key, nowIso);
    V2BakedParamsGet(params, key, nowIso, "Signature");
    assert Get(params, "Signature") == None;
    assert Get(b, "Signature") == None;
    Common.SortedByKeysSameEntries(b, "Signature");
  }

  function V4Outcome(verb: string, host: string, path: string, body: string, region: string, scope: string,
                     headers: Dict<Val>, creds: Credentials, timestamp: Option<string>, nowIso: string, p: Primitives)
    : (Dict<Val>, string, string, string)
  {
    var ts := V4Timestamp(timestamp, nowIso);
    var fixed := V4FixedHeaders(headers, host, ts, Utf16Length(body), creds);
    var cs := CredentialString(creds.key, ts, region, scope);
    var canonical := CanonicalRequest(verb, path, fixed, body, p);
    var stringToSign := V4StringToSign(ts, cs, creds.key, canonical, p);
    var signature := Lower(Hex(p, HmacSha256(p, SigningKey(creds.secret, ts, region, scope, p), stringToSign)));
    (Put(fixed, "authorization", Str(V4Authorization(cs, SignedHeaders(fixed), signature))), canonical, stringToSign, signature)
  }

  /** After `V4` every header has its fixed value or keeps its old one,
      except `authorization`, which holds the assembled authorization:
      credential string, signed header list and the signature returned. */
  lemma V4OutcomeHeaders(verb: string, host: string, path: string, body: string, region: string, scope: string,
                         headers: Dict<Val>, creds: Credentials, timestamp: Option<string>, nowIso: string, p: Primitives,
                         name: string)
    ensures var r := V4Outcome(verb, host, path, body, region, scope, headers, creds, timestamp, nowIso, p);
      var ts := V4Timestamp(timestamp, nowIso);
      var fixed := V4FixedHeaders(headers, host, ts, Utf16Length(body), creds);
      && Get(r.0, "authorization")
         == Some(Str(V4Authorization(CredentialString(creds.key, ts, region, scope), SignedHeaders(fixed), r.3)))
      && (name != "authorization" ==> Get(r.0, name) == FixedHeaderValue(headers, host, ts, Utf16Length(body), creds, name))
  {
    var r := V4Outcome(verb, host, path, body, region, scope, headers, creds, timestamp, nowIso, p);
    var ts := V4Timestamp(timestamp, nowIso);
    var fixed := V4FixedHeaders(headers, host, ts, Utf16Length(body), creds);
    var auth := Str(V4Authorization(CredentialString(creds.key, ts, region, scope), SignedHeaders(fixed), r.3));
    assert r.0 == Put(fixed, "authorization", auth);
    GetPut(fixed, "authorization", auth, "authorization");
    GetPut(fixed, "authorization", auth, name);
    V4FixedHeadersGet(headers, host, ts, Utf16Length(body), creds, name);
  }

  /** `V4(request, creds, timestamp)` on the request's values: sets the
      fixed headers, builds the canonical request and the string to sign,
      signs it under the derived key and adds the `authorization` header
      last. */
  method V4(httpMethod: string, host: string, path: string, body: string, region: string, scope: string,
            headers: Dict<Val>, creds: Credentials, timestamp: Option<string>, nowIso: string, p: Primitives)
    returns (signedHeaders: Dict<Val>, canonical: string, stringToSign: string, signature: string)
    requires UniqueKeys(headers)
    ensures UniqueKeys(signedHeaders)
    ensures (signedHeaders, canonical, stringToSign, signature)
      == V4Outcome(httpMethod, host, path, body, region, scope, headers, creds, timestamp, nowIso, p)
  {
    var ts := if Present(timestamp) then timestamp.value else CompactTimestamp(nowIso);
    V4FixedHeadersUnique(headers, host, ts, Utf16Length(body), creds);
    signedHeaders := PutAll(headers, FixedHeaderEntries(host, ts, Utf16Length(body), creds));
    var credentialString := Join([creds.key, Common.Substr(ts, 0, 8), region, scope, Terminator], "/");
    var sortedHeadersString := Join(Sorting.Sort(LowerNames(signedHeaders)), ";");
    canonical := Join([httpMethod, path, QueryPart(path), CanonicalHeaders(p, signedHeaders), "",
                       sortedHeadersString, Hex(p, Sha256(p, body))], "\n");
    stringToSign := Join([Algorithm, ts, ReplaceFirst(credentialString, creds.key + "/", ""),
                          Lower(Hex(p, Sha256(p, canonical)))], "\n");
    var kDate := HmacSha256(p, "AWS4" + creds.secret, Common.Substr(ts, 0, 8));
    var kRegion := HmacSha256(p, kDate, region);
    var kService := HmacSha256(p, kRegion, scope);
    var kSigning := HmacSha256(p, kService, Terminator);
    signature := Lower(Hex(p, HmacSha256(p, kSigning, stringToSign)));
    var authorization := Join([Algorithm + " Credential=" + credentialString, "SignedHeaders=" + sortedHeadersString,
                               "Signature=" + signature], ", ");
    PutUnique(signedHeaders, "authorization", Str(authorization));
    signedHeaders := Put(signedHeaders, "authorization", Str(authorization));
  }

  /** How `V4` as written ends: line 58 calls `common.cannonicalizeHeaders`,
      which must be among the exports of lib/common.js. */
  datatype V4Attempt =
    | Signed(outcome: (Dict<Val>, string, string, string))
    | ThrowsTypeError(headersLeft: Dict<Val>)

  /** `V4` as written. When the canonicaliser is not exported the call
      throws a `TypeError` after the fixed headers have been stored on the
      request and before anything else is set. */
  function V4AsWritten(verb: string, host: string, path: string, body: string, region: string, scope: string,
                       headers: Dict<Val>, creds: Credentials, timestamp: Option<string>, nowIso: string, p: Primitives)
    : V4Attempt
  {
    if "cannonicalizeHeaders" in Common.Exports
    then Signed(V4Outcome(verb, host, path, body, region, scope, headers, creds, timestamp, nowIso, p))
    else ThrowsTypeError(V4FixedHeaders(headers, host, V4Timestamp(timestamp, nowIso), Utf16Length(body), creds))
  }

  /** lib/common.js exports no `cannonicalizeHeaders`, so every call of
      `V4` as written throws and no request is ever signed. */
  lemma V4AsWrittenAlwaysThrows(verb: string, host: string, path: string, body: string, region: string, scope: string,
                                headers: Dict<Val>, creds: Credentials, timestamp: Option<string>, nowIso: string,
                                p: Primitives)
    ensures V4AsWritten(verb, host, path, body, region, scope, headers, creds, timestamp, nowIso, p).ThrowsTypeError?
  {
    assert Common.Exports[0] != "cannonicalizeHeaders" && Common.Exports[1] != "cannonicalizeHeaders";
    assert Common.Exports[2] != "cannonicalizeHeaders" && Common.Exports[3] != "cannonicalizeHeaders";
  }

  // ------------------------------------------------------------ the request

  /** The request object the signers fill in. */
  class Request {
    var httpMethod: string
    var host: string
    var path: string
    var body: string
    var region: string
    var scope: string
    var headers: Dict<Val>
    var params: Dict<Val>
    var canonical: string
    var stringToSign: string
    var signature: string

    /** Header and parameter objects never hold a key twice. */
    ghost predicate Valid()
      reads this`headers, this`params
    {
      UniqueKeys(headers) && UniqueKeys(params)
    }

    constructor (httpMethod: string, host: string, path: string, body: string, region: string, scope: string,
                 headers: Dict<Val>, params: Dict<Val>)
      requires UniqueKeys(headers) && UniqueKeys(params)
      ensures Valid()
      ensures this.httpMethod == httpMethod && this.host == host && this.path == path && this.body == body
      ensures this.region == region && this.scope == scope && this.headers == headers && this.params == params
      ensures canonical == "" && stringToSign == "" && signature == ""
    {
      this.httpMethod, this.host, this.path, this.body := httpMethod, host, path, body;
      this.region, this.scope, this.headers, this.params := region, scope, headers, params;
      canonical, stringToSign, signature := "", "", "";
    }

    /** `V4(request, creds, timestamp)`: the request's headers, canonical
        request, string to sign and signature become those `V4Outcome`
        gives for its old values. */
    method SignV4(creds: Credentials, timestamp: Option<string>, nowIso: string, p: Primitives)
      requires Valid()
      modifies this
      ensures Valid()
      ensures httpMethod == old(httpMethod) && host == old(host) && path == old(path) && body == old(body)
      ensures region == old(region) && scope == old(scope) && params == old(params)
      ensures (headers, canonical, stringToSign, signature)
        == V4Outcome(httpMethod, host, path, body, region, scope, old(headers), creds, timestamp, nowIso, p)
    {
      var h, c, t, sig := V4(httpMethod, host, path, body, region, scope, headers, creds, timestamp, nowIso, p);
      headers, canonical, stringToSign, signature := h, c, t, sig;
    }

    /** `V2(request, creds)`: sets the four V2 parameters, signs the string
        built from the sorted parameters with HMAC-SHA256, then adds
        `Signature`. */
    method SignV2(creds: Credentials, nowIso: string, p: Primitives)
      requires Valid()
      modifies this
      ensures Valid()
      ensures httpMethod == old(httpMethod) && host == old(host) && path == old(path) && body == old(body)
      ensures region == old(region) && scope == old(scope) && headers == old(headers)
      ensures canonical == old(canonical) && stringToSign == old(stringToSign) && signature == old(signature)
      ensures var baked := V2BakedParams(old(params), creds.key, nowIso);
        UniqueKeys(baked) &&
        params == Put(baked, "Signature", Str(Base64(p, HmacSha256(p, creds.secret, V2StringToSign(httpMethod, host, path, baked, p)))))
    {
      V2BakedParamsUnique(params, creds.key, nowIso);
      var ps := BakeV2Params(params, creds.key, nowIso);
      var sorted := Common.SortObjectByKeys(ps);
      var str := Join([httpMethod, Lower(host), path, QueryString(sorted, p)], "\n");
      var sig := Base64(p, HmacSha256(p, creds.secret, str));
      PutUnique(ps, "Signature", Str(sig));
      params := Put(ps, "Signature", Str(sig));
    }
  }
}
