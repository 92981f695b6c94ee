# plata, modelled in Dafny

plata is a small Node.js client for Amazon Web Services. This project
models its request-preparation and bookkeeping code, and proves properties
of that model. The model covers:

- the two AWS signers of `lib/signing.js` (Signature Version 4 and the
  query-string Version 2);
- the legacy HmacSHA1 query connection of `lib/aws.js`, including the
  parameters it bakes in, its retry decision and how it settles a response;
- the S3 header signer and request loop of `lib/services/s3.js`;
- the parameter builders of CloudWatch, SQS and SNS, with their
  `X.member.N` numbering;
- the small state machines:
  - the SQS `Queue` put buffer;
  - the SNS `Topic` call queue and its replay;
  - the DynamoDB `ready` gate;
  - the STS `Session`;
- the parsers and classifiers:
  - queue URLs and topic ARNs;
  - the SNS notification middleware;
  - SQS attribute conversion;
  - DynamoDB consumed-capacity statistics.

Objects whose fields the library updates in place are Dafny classes:

- `Aws.Connection` and `S3.S3`;
- `Signing.Request` (the request object the signers fill in);
- `Sqs.Queue` and `Sns.Topic`;
- `Dynamo.Client` and `Sts.Session`.

Pure computations are functions. JavaScript objects used as dictionaries are
association lists (`Base.Dict`) kept in insertion order. That is the
order `Object.keys` reports for keys that are not integer-like. Loops of the source are methods with loop
invariants, each proved equal to a specification function. The lemmas then
state what the source promises about that function.

The following are parameters of the model and are never defined:

- digests, HMAC, hex and base64, percent-escaping, and the header
  canonicaliser (`Externals.Primitives`);
- the clock (a timestamp argument, or a function from attempt number to
  time);
- server replies (a function from attempt number to a reply);
- XML parsing (a `parse` or `messageOf` function);
- `JSON.stringify`, `uuid` and `url.parse`.

Modules: `Base` (dictionaries, strings, numbers), `Sorting`, `Common`,
`Externals`, `Signing`, `Aws`, `S3`, `Params` (the shared member and
dimension numbering), `CloudWatch`, `Sqs`, `Sns`, `Dynamo`, `Sts`.

## Model

| member | source | states |
|---|---|---|
| Base.Utf16Length | lib/signing.js:25 | `s.length` counts UTF-16 code units: between `|s|` and `2*|s|`, and equal to `|s|` exactly when every character is in the Basic Multilingual Plane |
| Base.Utf16LengthAstral | lib/signing.js:25 | a single character above U+FFFF (such as an emoji) has length 2 |
| Sorting.Sort | lib/common.js:79 | `Array.prototype.sort` on key strings: the result is a permutation of the input (same multiset) and is sorted character by character (by code point; see Left out) |
| Sorting.SortedUnique | lib/common.js:79 | two sorted sequences with the same multiset are equal, so the sorted order is unique |
| Sorting.SortOrderIndependent | lib/common.js:79 | sorting any two permutations of the same keys gives the same sequence |
| Sorting.SortSorted | lib/common.js:79 | sorting an already sorted sequence leaves it unchanged |
| Common.SortObjectByKeys | lib/common.js:76-84 | the sort-then-`forEach` copy loop computes exactly `SortedByKeys(obj)` |
| Common.SortedByKeysSameEntries | lib/common.js:76-84 | the sorted object has the same size and the same key set as the input, and every key keeps its original value |
| Common.SortedByKeysAscending | lib/common.js:77-81 | the keys of the result are strictly ascending |
| Common.SortedByKeysOrderIndependent | lib/common.js:77-81 | two objects with the same entries in different insertion orders sort to the same object |
| Common.SortedByKeysIdempotent | lib/common.js:76-84 | sorting a sorted object changes nothing |
| Common.CamelizeFirstOnly | lib/common.js:11-13 | `camelize` lower-cases only the first character: length and every later character are kept, and `""` maps to `""` |
| Common.CamelizeIdempotent | lib/common.js:11-13 | camelizing twice is camelizing once |
| Common.ToTitleCaseFirstOnly | lib/common.js:87-92 | `toTitleCase` upper-cases the first character exactly when it is `a`-`z` and otherwise returns the input; length and later characters are kept |
| Common.ToTitleCaseIdempotent | lib/common.js:87-92 | title-casing twice is title-casing once |
| Common.CamelizeUndoesTitleCase | lib/common.js:11-13 | for a string starting with `a`-`z`, `camelize(toTitleCase(s)) == s` |
| Common.TitleCaseUndoesCamelize | lib/common.js:87-92 | for a string starting with `A`-`Z`, `toTitleCase(camelize(s)) == s` |
| Signing.CompactTimestampOfIso | lib/signing.js:9 | the default V4 timestamp of an ISO time `YYYY-MM-DDTHH:MM:SS.mmmZ` is `YYYYMMDDTHHMMSSZ`, 16 characters |
| Signing.TrimMillisOfIso | lib/signing.js:104-107 | the V2 `Timestamp` is the ISO time with its `.mmm` removed |
| Signing.V4FixedHeadersGet | lib/signing.js:22-29 | after V4 sets its headers: `host` is the lower-cased host, `date` and `x-amz-date` are the timestamp, `content-length` is the `bodyLength` it is given, which `V4` takes as `request.body.length` in UTF-16 code units (`Base.Utf16Length`), the user agent is fixed, `x-amz-security-token` is set exactly when the credentials carry a session token, and other headers keep their values |
| Signing.CredentialStringParses | lib/signing.js:32-38 | the credential string splits on `/` into exactly key, the first 8 characters of the timestamp, region, scope and `aws4_request` |
| Signing.ScopeLineDropsKey | lib/signing.js:69-74 | removing the leading `key/` from the credential string leaves the scope line of the string to sign |
| Signing.SignedHeaderNamesFacts | lib/signing.js:45-50 | the signed header list is sorted, holds every lower-cased header name once per header, and lists a name only if some header lower-cases to it |
| Signing.QueryPartFacts | lib/signing.js:57 | the query line of the canonical request is `''` for a path without `?` and otherwise the text between the first `?` and the next one |
| Signing.SigningKeyFollowsScopeLine | lib/signing.js:79-89 | the signing key is the HMAC chain from `AWS4`+secret over exactly the `/`-separated parts of the scope line (date, region, scope, `aws4_request`), in that order |
| Signing.V4OutcomeHeaders | lib/signing.js:41 | after signing, `authorization` holds `AWS4-HMAC-SHA256 Credential=…, SignedHeaders=…, Signature=…`, computed over the headers before `authorization` was added; every other header is the fixed-header value |
| Signing.V4 | lib/signing.js:8-101 | the corrected V4 signer: keeps header names unique and returns the headers, canonical request, string to sign and signature of `V4Outcome` |
| Signing.V4AsWrittenAlwaysThrows | lib/signing.js:58 | as written, V4 reaches `common.cannonicalizeHeaders`, which `lib/common.js` does not define, and throws a TypeError for every input |
| Signing.V2BakedParamsGet | lib/signing.js:104-107 | V2 sets `AWSAccessKeyId`, `SignatureVersion=2`, `SignatureMethod=HmacSHA256` and `Timestamp`, and leaves every other parameter as it was |
| Signing.V2SignatureNotSigned | lib/signing.js:109-119 | the sorted parameters that V2 signs hold no `Signature`: the signature is not part of its own input |
| Signing.Request.constructor | lib/signing.js:8-101 | a request object holds the given method, host, path, body, region, scope, headers and parameters |
| Signing.Request.SignV4 | lib/signing.js:8-101 | signing in place replaces headers, canonical request, string to sign and signature with `V4Outcome` and changes nothing else |
| Signing.Request.SignV2 | lib/signing.js:103-121 | signing in place sets the four V2 parameters, then `Signature` = base64 HMAC-SHA256 of method, lower-cased host, path and sorted query string over those parameters; nothing else changes |
| Aws.RetryDelayBounds | lib/aws.js:117-122 | retry delays grow by 100 ms from 50 ms and stay within 50..450 ms; a retryable status is retried exactly while `retries < 5` |
| Aws.Settle | lib/aws.js:125-145 | with auto-parsing, an `errorResponse` with a message rejects with that message; otherwise the callback gets the parsed object, or the raw text when parsing is off or throws, and the promise resolves with its result, or stays pending when the callback throws |
| Aws.BakedParamsGet | lib/aws.js:68-73 | every request overwrites `Action`, `AWSAccessKeyId`, `Version`, `SignatureVersion=2`, `SignatureMethod=HmacSHA1` and `Timestamp` (no milliseconds) and leaves other parameters alone, keeping keys unique |
| Aws.PrepareSignedParams | lib/aws.js:68-96 | the parameters a request signs are the caller's parameters with the baked ones overwritten |
| Aws.PrepareSentParams | lib/aws.js:95-101 | the string to sign is verb, lower-cased host, `this.path` and the sorted query string, joined by newlines; the sent parameters are the signed ones sorted by key, with `Signature` added |
| Aws.PrepareQuery | lib/aws.js:101 | the sent path is the connection's path, `?` and the query string; the body is that query string for POST and `''` otherwise |
| Aws.PostContentLengthIsZero | lib/aws.js:84-87 | a POST without a caller `Content-Length` is sent with `Content-Length: 0`, read before the parameter string is built |
| Aws.AttemptCountBounds | lib/aws.js:117-122 | a request is sent at most 6 times; it is sent once when the first status is not retryable, and 6 times when every answer is 503 |
| Aws.AttemptCountRetriesOnlyOnCodes | lib/aws.js:44-50 | every attempt but the last got a status in {500, 503, 505, 400, 403} while retries were left; the last did not |
| Aws.SettledRetries | lib/aws.js:117-122 | a retried attempt settles as the next attempt does |
| Aws.SettledOnLast | lib/aws.js:125-145 | the attempt that is not retried settles the request by its own reply |
| Aws.SettledRejects | lib/aws.js:125-145 | a request rejects if and only if its last attempt failed on the network or was parsed into an `errorResponse` with a message; otherwise it stays pending if and only if the callback throws on the last reply, and else resolves with the callback's result |
| Aws.SignsPreviousSignature | lib/aws.js:95-96 | a retry starts from the sent parameters, so the previous `Signature` is among the parameters it signs |
| Aws.RetrySignsStaleSignature | lib/aws.js:120 | in every chain of attempts, each retry signs the parameters, stale `Signature` included, of the attempt before it |
| Aws.Connection.constructor | lib/aws.js:21-28 | a new connection holds the keys, host and version, with `path = '/'` and `autoParseResponse = true` |
| Aws.Connection.GetSignature | lib/aws.js:30-42 | the signature is base64 HMAC-SHA1 under the secret of verb, lower-cased host, path and the key-sorted query string; the headers argument is ignored |
| Aws.Connection.MakeRequest | lib/aws.js:52-149 | with verb defaulting to GET, a request settles as `Settled`, sends `AttemptCount` attempts, and prepares each retry from the previous attempt's sent parameters |
| S3.ShouldRetryAsQueryApi | lib/services/s3.js:54-60 | S3 retries on the same statuses and with the same bound as the query connection |
| S3.CollectAmzHeaders | lib/services/s3.js:26-32 | the header loop computes `AmzHeaders(headers)` |
| S3.AmzHeadersThrows | lib/services/s3.js:28 | collecting throws if and only if some `x-amz-` header has a non-string value |
| S3.AmzHeadersNames | lib/services/s3.js:27-30 | the amz block has an entry for a name exactly when some header containing `x-amz-` lower-cases to it |
| S3.AmzHeadersLines | lib/services/s3.js:28-30 | every amz entry is `lowercased-name:value` of some header with that name, with CR and LF replaced by spaces |
| S3.AmzHeadersUnique | lib/services/s3.js:30 | the amz block has unique names |
| S3.AmzHeadersNone | lib/services/s3.js:26-32 | without `x-amz-` headers the amz block is empty |
| S3.FlattenLines | lib/services/s3.js:28 | replacing CR and LF by spaces keeps the length and every other character, and leaves no line break |
| S3.AmzBlockSorted | lib/services/s3.js:33-36 | the amz lines are taken in strictly ascending name order, one per entry |
| S3.Signature | lib/services/s3.js:24-52 | the signature is missing (a throw) exactly when an `x-amz-` header is not a string |
| S3.SignatureWithoutAmz | lib/services/s3.js:38-49 | without amz headers, the string to sign is verb, Content-MD5 or `''`, Content-Type or `''`, Date and path, joined by newlines, with no amz line |
| S3.SignatureIgnoresOtherHeaders | lib/services/s3.js:38-49 | adding a header that is not amz, Content-MD5, Content-Type or Date does not change the signature |
| S3.SignedHeadersGet | lib/services/s3.js:81-88 | `Content-Length` (`body.length`, in UTF-16 code units) and `Date` are set first, and caller headers override them |
| S3.AuthorizeHeaders | lib/services/s3.js:90-91 | the sent request carries `Authorization: AWS key:sig` over the final headers, to the request path, verb and body |
| S3.PrepareThrows | lib/services/s3.js:81-91 | preparing a request fails exactly when a caller `x-amz-` header is not a string |
| S3.Settlement | lib/services/s3.js:110-139 | a reply resolves if and only if its status is below 400 and the `cb` argument, when given, does not throw; it resolves with that status and body and what `cb` stored on the response; a success whose `cb` throws stays pending |
| S3.SettlementMessages | lib/services/s3.js:123-134 | an error takes its message from the parsed body when the body is non-empty; otherwise it is `<path> not found` for 404, or `Unknown error: …` |
| S3.AttemptCountBounds | lib/services/s3.js:110-122 | at most 6 attempts from retry 0, and a single one when the first status is not retried |
| S3.RetriedNeverRejects | lib/services/s3.js:115-121 | a retried request never rejects: the retry chain forwards only resolution |
| S3.ResolvedIsSuccess | lib/services/s3.js:136-139 | a request resolves only when its last attempt got a status below 400 on which `cb`, when given, did not throw, and it resolves with that reply and what `cb` stored |
| S3.SendsRouted | lib/services/s3.js:74-79 | every attempt is sent to the same host, path, verb and body |
| S3.GetKeyParams | lib/services/s3.js:201-211 | the option loop computes `KeyParams(opts)` |
| S3.KeyParamsGet | lib/services/s3.js:201-211 | `prefix`, `delimiter`, `maxKeys` and `marker` become `prefix`, `delimiter`, `max-keys` and `marker`; only options that are present are copied, and nothing else |
| S3.S3.constructor | lib/services/s3.js:16-20 | a new S3 connection targets `s3.amazonaws.com`, version 2006-03-01, path `/`, with no auto-parsing |
| S3.S3.Send | lib/services/s3.js:96 | each attempt appends `?` and the query string to the connection's own `path`, never to the request path |
| S3.S3.MakeRequest | lib/services/s3.js:62-150 | with defaults GET and `/`, a request settles as `Settled` with its `cb`, every attempt goes to the same host, path, verb and body, and the connection's path grows by one query string per attempt |
| S3.S3.GetKeys | lib/services/s3.js:198-217 | listing keys sends GET to `/bucket` with no body and appends the mapped options to the connection's path; it settles as `Settled` with the callback that stores `listBucketResult` as `res.keys`, and when it resolves, it resolves with the last reply, a success, and the keys parsed from its body |
| Params.MembersGet | lib/services/cloud-watch.js:18-29 | the i-th item (0-based) is stored under `prefix(i+1)`; other numbers keep what the parameters had |
| Params.MembersGetOther | lib/services/cloud-watch.js:18-29 | keys that are not member keys under the prefix are untouched |
| Params.MembersKeys | lib/services/cloud-watch.js:18-29 | the keys after numbering are the old keys plus `prefix1..prefixN`, nothing else |
| Params.MembersUnique | lib/services/cloud-watch.js:18-29 | numbering into parameters without such keys adds exactly one entry per item and keeps keys unique |
| Params.AddMembers | lib/services/cloud-watch.js:25-27 | the `forEach` over the items computes `Members` |
| Params.AddDims | lib/services/cloud-watch.js:209-214 | the `forEach` over the dimension names computes `Dims` |
| Params.DimsGetName | lib/services/cloud-watch.js:209-214 | dimension n holds the n-th name |
| Params.DimsGetValue | lib/services/cloud-watch.js:209-214 | dimension n holds the value of the n-th name |
| Params.DimsGetOther | lib/services/cloud-watch.js:209-214 | keys outside the dimension prefix are untouched |
| Params.PutIfGet | lib/services/cloud-watch.js:46-74 | a guarded option is set exactly when it is truthy, and other keys are left alone |
| Params.MemberKeyInjective | lib/services/cloud-watch.js:18-29 | two member keys under one prefix are equal only for the same number and suffix, so numbered entries never collide |
| CloudWatch.NewCloudWatch | lib/services/cloud-watch.js:7-10 | a CloudWatch connection targets `monitoring.us-east-1.amazonaws.com`, version 2010-08-01 |
| CloudWatch.AlarmNamesContents | lib/services/cloud-watch.js:18-29 | the i-th name is stored under `AlarmNames.member.(i+1)`, and those are the only keys |
| CloudWatch.DeleteAlarms | lib/services/cloud-watch.js:18-29 | `DeleteAlarms` with the numbered alarm names |
| CloudWatch.DescribeAlarmHistory | lib/services/cloud-watch.js:31-36 | `DescribeAlarmHistory` with `AlarmName` and nothing else |
| CloudWatch.DisableAlaramActions | lib/services/cloud-watch.js:123-134 | `DisableAlarmActions` with the numbered alarm names |
| CloudWatch.EnableParamsContents | lib/services/cloud-watch.js:136-151 | an (empty) `AlarmNames` entry plus the i-th name under `AlarmNames.member.(i+1)`, one entry per name |
| CloudWatch.EnableAlarmActions | lib/services/cloud-watch.js:136-151 | `EnableAlarmActions` with those parameters |
| CloudWatch.DescribeAlarms | lib/services/cloud-watch.js:46-79 | `DescribeAlarms` with the parameters of the options (none when absent) |
| CloudWatch.DescribeAlarmsOptions | lib/services/cloud-watch.js:46-74 | each option is copied to its parameter name exactly when it is truthy |
| CloudWatch.DescribeAlarmsScalar | lib/services/cloud-watch.js:46-74 | the non-name parameters are exactly the truthy options |
| CloudWatch.DescribeAlarmsNames | lib/services/cloud-watch.js:46-74 | the alarm names are numbered `AlarmNames.member.1..n` in input order |
| CloudWatch.GetMetricStatisticsAsWritten | lib/services/cloud-watch.js:154-191 | the builder as written, with its running dimension counter |
| CloudWatch.MetricStatisticsGap | lib/services/cloud-watch.js:170-185 | with an array dimension of two values followed by a scalar, the as-written numbering skips number 3 and puts the scalar at 4; the corrected numbering puts it at 3 |
| CloudWatch.MetricStatisticsScalars | lib/services/cloud-watch.js:170-185 | when every dimension value is a scalar, the as-written and corrected numberings agree |
| CloudWatch.GetMetricStatistics | lib/services/cloud-watch.js:154-191 | the corrected builder: `GetMetricStatistics` with consecutive dimension numbers |
| CloudWatch.MetricStatisticsStatistics | lib/services/cloud-watch.js:166-168 | statistics are numbered `Statistics.member.1..n` in input order |
| CloudWatch.MetricStatisticsDimensions | lib/services/cloud-watch.js:170-185 | dimension n holds the n-th name/value pair of the flattened dimensions, and nothing is numbered past them |
| CloudWatch.ListMetrics | lib/services/cloud-watch.js:193-220 | `ListMetrics` with the parameters of the options |
| CloudWatch.ListMetricsOptions | lib/services/cloud-watch.js:193-220 | `Namespace`, `MetricName` and `NextToken` are set exactly when truthy |
| CloudWatch.ListMetricsDimensions | lib/services/cloud-watch.js:193-220 | dimensions are numbered from 1 in key order, name and value |
| CloudWatch.DescribeAlarmsForMetric | lib/services/cloud-watch.js:92-121 | `DescribeAlarmsForMetric` with the parameters of the options |
| CloudWatch.ForMetricThrows | lib/services/cloud-watch.js:111-116 | the builder throws exactly when the misspelt `dimenions` option is truthy and `dimensions` is absent |
| CloudWatch.ForMetricDimensions | lib/services/cloud-watch.js:111-116 | dimensions are added only when the misspelt `dimenions` option is truthy |
| CloudWatch.ForMetricHeadGet | lib/services/cloud-watch.js:92-110 | `Namespace` and `MetricName` are always set; `Statistic`, `Period` and `Unit` exactly when truthy; nothing else |
| CloudWatch.SetAlarmState | lib/services/cloud-watch.js:329-344 | the call is `SetAlarmState` with the parameters `AlarmStateParams` specifies; `StateReasonData` is added in place only when the reason data is truthy |
| CloudWatch.AlarmStateGet | lib/services/cloud-watch.js:329-344 | reason, value and the stringified reason data (only when truthy) are set, and nothing else |
| CloudWatch.AlarmStateName | lib/services/cloud-watch.js:329-344 | the alarm name goes under the misspelt key `AlaramName`, never `AlarmName` |
| CloudWatch.OperatorNames | lib/services/cloud-watch.js:223-253 | each shorthand `>=`, `>`, `<`, `<=` maps by position to its long name, and a long name maps to itself |
| CloudWatch.OperatorUnknown | lib/services/cloud-watch.js:250-253 | any other operator becomes undefined |
| CloudWatch.OperatorIdempotent | lib/services/cloud-watch.js:250-253 | the mapping yields a long name or undefined, and mapping twice is mapping once |
| CloudWatch.PutMetricAlarm | lib/services/cloud-watch.js:237-296 | `PutMetricAlarm` as `PutMetricAlarmCall` |
| CloudWatch.PutMetricAlarmThrows | lib/services/cloud-watch.js:237-296 | the builder throws exactly when options are absent, or `alarmActions` is given without the misspelt `alaramActions` it then reads |
| CloudWatch.PutMetricAlarmOperator | lib/services/cloud-watch.js:250-253 | `ComparisonOperator` is the mapped operator |
| CloudWatch.PutMetricAlarmActions | lib/services/cloud-watch.js:259-268 | alarm actions are numbered under `AlaramActions.member.` from `alaramActions`, when `alarmActions` is set; never under `AlarmActions.member.` |
| CloudWatch.AlarmParamsScalar | lib/services/cloud-watch.js:255-290 | `ActionsEnabled`, `AlarmDescription` and `Unit` are set exactly when truthy; every other key outside the numbered lists keeps the fixed parameters |
| CloudWatch.PutMetricData | lib/services/cloud-watch.js:298-327 | `PutMetricData` as `PutMetricDataCall` |
| CloudWatch.PutMetricDataField | lib/services/cloud-watch.js:303-321 | item n sits under `MetricData.member.n`: `.Value` when a value is defined, otherwise the four `StatisticValues` fields |
| CloudWatch.PutMetricDataDimension | lib/services/cloud-watch.js:303-321 | each item's dimensions are numbered from 1 under its own prefix |
| Sqs.NewSqs | lib/services/sqs.js:33-38 | an SQS connection targets `queue.amazonaws.com`, version 2012-11-05 |
| Sqs.Aim | lib/services/sqs.js:74-83 | a URL-addressed call points the connection's host and path at the queue URL, and changes nothing else |
| Sqs.CreateQueue | lib/services/sqs.js:55-68 | the attribute loop builds exactly the request `CreateQueue` with `CreateQueueParams` (queue name, then the numbered title-cased attributes, `Policy` stringified) |
| Sqs.CreateQueueAttribute | lib/services/sqs.js:55-68 | the i-th attribute is `Attribute.(i+1).Name` = title-cased name, with `.Value` |
| Sqs.CreateQueuePolicy | lib/services/sqs.js:55-68 | a `policy` attribute is named `Policy` and its value is stringified |
| Sqs.CreateQueueOther | lib/services/sqs.js:55-68 | outside the attributes only `QueueName` is set |
| Sqs.DeleteMessageBatch | lib/services/sqs.js:272-287 | `DeleteMessageBatch` with the paired entries |
| Sqs.DeleteBatchEntry | lib/services/sqs.js:276-279 | `ids[i]` and `receipts[i]` are paired under `DeleteMessageBatchRequestEntry.(i+1).Id` and `.Receipthandle` |
| Sqs.DeleteBatchOther | lib/services/sqs.js:272-287 | nothing else is set |
| Sqs.SendMessageBatch | lib/services/sqs.js:251-270 | `SendMessageBatch` with one entry per message |
| Sqs.SendBatchEntry | lib/services/sqs.js:251-270 | entry i+1 has a fresh id and the encoded i-th message as body |
| Sqs.SendMessage | lib/services/sqs.js:179-192 | `SendMessage` with the encoded body |
| Sqs.SendMessageDelay | lib/services/sqs.js:182 | `DelaySeconds` defaults to 0 |
| Sqs.ReceiveMessage | lib/services/sqs.js:195-215 | `ReceiveMessage` with its parameters |
| Sqs.ReceiveDefaults | lib/services/sqs.js:196-197 | max defaults to 1 and timeout to 30, and all attributes are asked for |
| Sqs.ChangeMessageVisibility | lib/services/sqs.js:217-230 | `ChangeMessageVisibility` with receipt and timeout |
| Sqs.VisibilityTimeoutAsGiven | lib/services/sqs.js:217-230 | the timeout is sent as given |
| Sqs.DeleteMessage | lib/services/sqs.js:233-247 | `DeleteMessage` with the receipt, if truthy |
| Sqs.DeleteQueue | lib/services/sqs.js:74-83 | `DeleteQueue` with the name |
| Sqs.ListQueues | lib/services/sqs.js:85-103 | `ListQueues` with the prefix, if truthy |
| Sqs.GetQueueUrl | lib/services/sqs.js:105-123 | `GetQueueUrl` with its options |
| Sqs.QueueUrlOptions | lib/services/sqs.js:105-123 | owner and name are copied exactly when truthy |
| Sqs.GetQueueAttributes | lib/services/sqs.js:143-175 | `GetQueueAttributes` asking for all attributes |
| Sqs.DigitRun | lib/services/sqs.js:365 | the longest leading run of digits |
| Sqs.WordRun | lib/services/sqs.js:365 | the longest leading run of word characters |
| Sqs.FirstMatchLeftmost | lib/services/sqs.js:363-367 | the match is the leftmost position where the URL pattern matches, and none exists only when no position matches |
| Sqs.FromUrlRoundTrip | lib/services/sqs.js:363-367 | a queue URL built from a digit id and a word name parses back to that id and name |
| Sqs.FromUrlExample | test/sqs.test.js:25-27 | `http://queue.amazonaws.com/160241911954/platatest2` yields id `160241911954` and name `platatest2` |
| Sqs.ToNumber | lib/services/sqs.js:160-171 | a number is read exactly when the text is all digits |
| Sqs.ConvertAttributes | lib/services/sqs.js:156-171 | the conversion loop computes `Converted` |
| Sqs.ConvertedLast | lib/services/sqs.js:156-171 | each attribute is stored under its camelized name, the last of equal names winning |
| Sqs.ConvertedAbsent | lib/services/sqs.js:156-171 | no other names are added |
| Sqs.ConvertListedField | lib/services/sqs.js:127-171 | the eight number fields become counts and the two date fields become milliseconds (seconds times 1000) |
| Sqs.ConvertOtherField | lib/services/sqs.js:127-171 | every other attribute stays a raw string, and no field is both a number and a date field |
| Sqs.DrainedInOrder | lib/services/sqs.js:341-361 | the drained buffer sends value i as its i-th request: by `Array.isArray`, an array as `SendMessageBatch` of its elements and any other value as `SendMessage`, whichever method queued it |
| Sqs.DrainedLength | lib/services/sqs.js:341-361 | one request per buffered value |
| Sqs.DrainedAppend | lib/services/sqs.js:341-361 | draining a concatenated buffer sends the first part's requests, then the second's |
| Sqs.Queue.constructor | lib/services/sqs.js:325-338 | a new queue is ready if and only if it has both a connection and a URL, with an empty buffer |
| Sqs.Queue.Put | lib/services/sqs.js:373-380 | a non-ready queue buffers the value as it is and sends nothing; a ready one sends it with `SendMessage` |
| Sqs.Queue.PutBatch | lib/services/sqs.js:382-389 | a non-ready queue buffers the value as it is and sends nothing; a ready one sends an array with `SendMessageBatch`, and throws on any other value after aiming the connection |
| Sqs.Queue.BecomeReady | lib/services/sqs.js:309-310 | becoming ready (with the `ready` listener of sqs.js:335-337) leaves the queue ready with an empty buffer and its id, name, URL and connection unchanged, and sends `Drained(old buffer)` in order |
| Sqs.Queue.ProcessPutQueue | lib/services/sqs.js:341-361 | sends `Drained(old buffer)` in order and leaves the buffer empty; an empty buffer sends nothing and leaves the connection alone |
| Sqs.Queue.Get | lib/services/sqs.js:395-405 | receives with max defaulting to 1 and timeout to 0 |
| Sqs.Queue.Remove | lib/services/sqs.js:369-371 | deletes the queue by name at its URL |
| Sqs.Queue.GetDetails | lib/services/sqs.js:391-393 | asks for all attributes at the queue's URL |
| Sqs.FromUrl | lib/services/sqs.js:363-367 | a URL without a match makes no queue (`None`: the source throws a TypeError because `matches` is `null`); otherwise a queue with the matched id and name, that URL and connection |
| Sqs.PutWhileNotReady | lib/services/sqs.js:341-389 | values put before the queue is ready are sent, in order, once it becomes ready, each by its own type: an array given to `put` goes as a batch, and a non-array given to `putBatch` as a single message |
| Sqs.GetTimeoutDefault | lib/services/sqs.js:396-397 | `Queue.get`'s timeout 0 reaches `receiveMessage` as falsy and becomes 30 |
| Sqs.Ack | lib/services/sqs.js:479-482 | acknowledging deletes the message by its receipt |
| Sqs.Extend | lib/services/sqs.js:485-488 | extending changes its visibility by the given timeout |
| Sqs.Retry | lib/services/sqs.js:492-494 | retrying sets the visibility timeout to 0 for its receipt |
| Sns.NewSns | lib/services/sns.js:13-16 | an SNS connection targets `sns.us-east-1.amazonaws.com`, version 2010-03-31 |
| Sns.PublishParams | lib/services/sns.js:82-88 | `Message` and `TopicArn` are always set, `Subject` only when truthy, `MessageStructure=json` only for multi-format messages |
| Sns.ConfirmSubscriptionFlag | lib/services/sns.js:97-112 | `AuthenticateOnUnSubscribe` is `'true'` or `'false'`, with `Token` and `TopicArn` |
| Sns.ListingToken | lib/services/sns.js:181-198 | `NextToken` is sent only when truthy |
| Sns.FirstIndex | lib/services/sns.js:213-225 | the first index satisfying the test, or none |
| Sns.GetTopic | lib/services/sns.js:213-225 | resolves with the first topic ARN whose name matches; otherwise rejects with `No topic with name …` |
| Sns.GetSubscriptionArn | lib/services/sns.js:328-340 | resolves with the first subscription with that endpoint; otherwise rejects with the `No endpoint` message |
| Sns.TopicName | lib/services/sns.js:247-252 | the topic name is the last `:`-separated segment and holds no `:` |
| Sns.TopicNameAfterColon | lib/services/sns.js:247-252 | the name of `prefix:name` is `name`, and an ARN without `:` is its own name |
| Sns.TopicNameSuffix | lib/services/sns.js:247-252 | the ARN ends with its name, and when longer, that name follows a `:` |
| Sns.TopicFromArn | lib/services/sns.js:247-252 | a topic from an ARN keeps the ARN, is named after its last segment and is ready exactly when the ARN is non-empty |
| Sns.Topic.constructor | lib/services/sns.js:254-261 | a new topic is ready if and only if it was given an ARN, with an empty call queue |
| Sns.Topic.Subscribe | lib/services/sns.js:272-280 | a non-ready topic queues one `[deferred, method, args]` entry and sends nothing; a ready one sends `Subscribe` |
| Sns.Topic.Unsubscribe | lib/services/sns.js:282-290 | a non-ready topic queues one entry and sends nothing; a ready one sends `Unsubscribe` |
| Sns.Topic.Publish | lib/services/sns.js:292-303 | a non-ready topic pushes three separate elements (deferred, `publish`, arguments); a ready one publishes |
| Sns.Topic.Confirm | lib/services/sns.js:305-313 | a non-ready topic pushes three separate elements; a ready one confirms the subscription |
| Sns.Topic.GetSubscriptions | lib/services/sns.js:315-326 | a non-ready topic pushes three separate elements; a ready one lists its subscriptions |
| Sns.Topic.ProcessCallQueue | lib/services/sns.js:264-270 | the replay, up to a step bound, is `ReplayFrom` over the old queue in index order; `ready` is set only when it completes |
| Sns.Topic.ArnKnown | lib/services/sns.js:264-270 | learning the ARN stores it and then replays as written |
| Sns.ReplayEmpty | lib/services/sns.js:264-270 | replaying an empty queue completes and sends nothing |
| Sns.ReplayNeverCompletes | lib/services/sns.js:264-270 | as written, replaying queued subscribe/unsubscribe calls while not ready re-queues each one and never completes: the queue grows by one per step and nothing is sent |
| Sns.ReplayThrows | lib/services/sns.js:264-270 | the first loose element (from publish, confirm or getSubscriptions) makes the replay throw at its index, after re-queuing the calls before it |
| Sns.GroupedFirstLoose | lib/services/sns.js:295 | in a queue built by the topic's methods, the first loose element is the `deferred` one, so it is what the replay tries to call |
| Sns.GroupedAppend | lib/services/sns.js:272-326 | the topic's methods keep the queue well formed |
| Sns.ReplayKeepsQueue | lib/services/sns.js:264-270 | the replay never clears the call queue: the old queue stays its prefix |
| Sns.SubscribeBeforeArn | lib/services/sns.js:264-280 | subscribing before the ARN is known and then learning it leaves the topic not ready, with one queue entry more per replay step |
| Sns.PublishBeforeArn | lib/services/sns.js:292-303 | publishing before the ARN is known makes the replay throw at index 0 and send nothing |
| Sns.Topic.ProcessCallQueueReadyFirst | lib/services/sns.js:264-270 | the corrected replay (ready set first) equals `ReplayFrom` from a ready state and leaves the topic ready |
| Sns.ReplayReadyFirstSendsAll | lib/services/sns.js:264-270 | replayed while ready, queued subscribe/unsubscribe calls are sent in order and the replay completes |
| Sns.SubscribeBeforeArnReadyFirst | lib/services/sns.js:264-280 | with the corrected replay, a subscribe made before the ARN was known is sent once the ARN is known |
| Sns.ClassifyCases | lib/services/sns.js:417-436 | no type header passes through; an unknown type is the error `Unknown notification <type>`; a topic-ARN header different from the topic's is the error `Wrong topic ARN: <header>` (`undefined` when absent); an already-read body passes through; otherwise the body of that type is read |
| Sns.ClassifyWithoutArn | lib/services/sns.js:430-432 | a topic without an ARN rejects every typed notification with `Wrong topic ARN: <header>` (`undefined` when absent) |
| Dynamo.Client.constructor | lib/services/dynamo.js:12-18 | a new client targets `dynamodb.us-east-1.amazonaws.com`, version 2012-08-10, is ready and has nothing queued |
| Dynamo.Client.Action | lib/services/dynamo.js:26-31 | a non-ready client queues the action and sends nothing; a ready one sends it as it is |
| Dynamo.ActionOnNewClient | lib/services/dynamo.js:17 | a new client never queues an action |
| Dynamo.End | lib/services/dynamo.js:64-86 | the response handler emits `ConsumedStat` and returns the response unchanged |
| Dynamo.SingleTableStat | lib/services/dynamo.js:66-74 | a truthy total is reported against the request's table alone |
| Dynamo.PerTableStat | lib/services/dynamo.js:75-85 | otherwise, with `Responses`, the statistic has exactly one entry per table, holding that table's units |
| Dynamo.NoStat | lib/services/dynamo.js:66-85 | no statistic is emitted if and only if the total is falsy (zero or absent) and there is no `Responses` |
| Sts.NewSts | lib/services/sts.js:9-13 | an STS connection targets `sts.amazonaws.com`, version 2011-06-15 |
| Sts.GetSessionToken | lib/services/sts.js:16-28 | the connection's `makeRequest` sends `GetSessionToken` by GET with `DurationSeconds` = duration as its only own parameter, and the token settles as `Settled` with the token callback |
| Sts.TokenSettles | lib/services/sts.js:23-27 | the token resolves exactly when the last reply was parsed, has no `errorResponse` message and holds `getSessionTokenResponse.getSessionTokenResult.credentials`, and then with those credentials; it rejects exactly as any request does; with auto-parsing off it never resolves |
| Sts.RefreshBeforeExpiry | lib/services/sts.js:47 | the refresh interval in milliseconds is the duration less 60 s, and it is positive exactly for sessions longer than a minute |
| Sts.Session.constructor | lib/services/sts.js:44-51 | a new session stores connection and duration, sets `refreshTime`, has no refresh timer and undefined credentials |
| Sts.Session.FromCredentials | lib/services/sts.js:54-59 | overwrites exactly the four credential fields |
| Sts.Session.AddRefresher | lib/services/sts.js:61-65 | replaces the refresh timer and keeps the credentials |
| Sts.Session.Refresh | lib/services/sts.js:67-75 | asks the connection for a token of the session's duration; only a resolved token replaces the credentials, and the timer is kept |
| Sts.StartSession | lib/services/sts.js:30-42 | a new session asks for a token; once it resolves, the session takes its credentials and starts a refresh timer whose interval is 60 s short of the duration; otherwise the session keeps undefined credentials and no timer |

## Left out

- Network I/O: sockets, response streaming, `req.on('error')` and timers. A reply is a value (status and body, or a network error) that each attempt receives from a function of its attempt number. Retry delays are computed, not waited for.
- Promises, EventEmitter events and logging. A promise's outcome is an `Outcome` value. Events are not modelled, except for the DynamoDB `stat` payload.
- Crypto and encodings (HMAC-SHA1, HMAC-SHA256, SHA-256, hex, base64), `querystring.escape`, XML parsing (`xmlToObject`), `JSON.stringify`, `uuid.v4` and `url.parse`. These are function parameters, so every property holds whatever they compute.
- `common.cannonicalizeHeaders` is not defined anywhere in the library. It is a parameter of the corrected V4 signer.
- The fluent `this.request(...)` builder used by CloudWatch, SNS and DynamoDB is not defined in the library. The model stops at the action name and parameter map each wrapper hands it.
- `Date` objects and `new Date()`. Times are ISO strings or integers, passed in.
- Sqs.ToNumber: reads only non-negative digit strings, not JavaScript's full `Number()` float syntax.
- Sqs.ConvertListedField: the date conversion is on the integer seconds, not on a `Date` object.
- JavaScript truthiness is modelled by `Base.Truthy` over `Base.Val`, which has only strings, integers and `undefined`. `null`, booleans, floats, `NaN`, arrays and objects are not values of the model. Where the source tests an argument that may be an object for truthiness, the model takes an `Option` (`None` for a falsy argument).
- Integer-like keys: JavaScript lists them first, in ascending numeric order, in `Object.keys` and `for … in`. `Base.Dict` keeps every key in insertion order. The library's parameter names are never integer-like.
- Case mapping: `Base.Lower` and `Base.Upper` map only ASCII letters. JavaScript's `toLowerCase` and `toUpperCase` also map non-ASCII letters. This affects `camelize` (lib/common.js:12) and the lower-cased header names and hosts of the V2 and V4 signers and S3.
- Sorting.Sort: `Sorting.StrLe` compares characters as Unicode code points. JavaScript's default sort compares UTF-16 code units. The two orders differ only between characters above U+FFFF and characters from U+E000 to U+FFFF.
- Aws.Connection.MakeRequest: every retry is prepared from the connection's fields as they were at the first attempt. The source re-reads `this` in the `setTimeout` callback (lib/aws.js:117-121). SQS calls such as `deleteQueue` re-aim the shared connection by setting its host and path (lib/services/sqs.js:74-83), so a call that interleaves with another one's retry could sign with another host and path. Interleaving is not modelled.
- S3.S3.MakeRequest: every retry is prepared from the connection's host and keys as they were at the first attempt. The source re-enters `makeRequest` on `this` from the `setTimeout` callback (lib/services/s3.js:115-121), so it reads those fields again at that moment. A call that changes them between two attempts is not modelled.
- S3 convenience wrappers (`createBucket`, `removeBucket`, `get`, `put`, `lookup`, `exists`, `remove`, `getBuckets`). Each is one `makeRequest` with fixed arguments and a callback over the parsed response.
- The S3 `pendingRetries` global. It is only logging bookkeeping.
- SNS `createTopic`, `deleteTopic`, `getTopicAttributes`, `setTopicAttributes`, `listTopics`, `getSubscriptionAttributes`, `setSubscriptionAttributes`, `addPermission`, `SNS.Topic` and `Notification`. They are single-action wrappers, or assemble objects from unmodelled XML. Topics are searched as their ARN list.
- The SNS middleware's body reading and dispatch after classification. These are stream and JSON handling.
- Sns.Topic.ProcessCallQueue: the replay takes a step bound (`fuel`). The as-written loop need not terminate, and the bound is what lets the model state that it grows forever.
- SQS `queueFromUrl`, `getQueue`, `SQS.Queue`, `Queue.batch`, `listen`, `close`, `MessageBatch`, `changeMessageVisibilityBatch`, `queue` and `getMessages`. These are promise wiring, timer polling, or stubs with no body.
- `toBase64` and `fromBase64` in SQS. Message encoding is a parameter.
- DynamoDB wrappers `getItem` … `query`. Each is `action` with a fixed name. JSON bodies are modelled by their top-level fields.
- STS `Session.close`, and the `ready` and `refresh` events as events. `Sts.StartSession` runs `addRefresher` where `ready` is emitted. The `throw err` of a rejected token has nowhere to go and only leaves the session unchanged.
- `lib/services/ec2.js` and `index.js`: name wrappers and credential file loading.

## Findings

| source | as written | input that shows it | evidently intended | confidence | as-written member | corrected member |
|---|---|---|---|---|---|---|
| lib/signing.js:58 | V4 calls `common.cannonicalizeHeaders`, which `lib/common.js` never defines | any request signed with V4 | the canonical headers block of the canonical request | not executed | Signing.V4AsWrittenAlwaysThrows | Signing.V4 |
| lib/services/cloud-watch.js:170-185 | the running counter adds an array's length after its values are numbered at `index+i+k+1`, leaving one number unused before the next dimension | dimensions `{a: [x, y], b: z}`: `b` lands at `Dimensions.member.4`, and 3 is empty | consecutive numbers `1..n` over the flattened dimensions | not executed | CloudWatch.MetricStatisticsGap | CloudWatch.MetricStatisticsDimensions |
| lib/services/sns.js:264-270 | the replay runs while `ready` is still false, so a replayed `subscribe`/`unsubscribe` pushes itself back onto the queue it is walking | `topic.subscribe(...)` on a topic created without an ARN, then the replay | set `ready` before replaying, so queued calls are sent once | not executed | Sns.ReplayNeverCompletes | Sns.ReplayReadyFirstSendsAll |
