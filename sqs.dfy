/** The SQS client of lib/services/sqs.js: a query connection whose calls
    first aim the connection at the queue's URL and then send a flat
    parameter object; a `Queue` object that buffers puts until it is
    ready; and the pure pieces (reading a queue URL, converting queue
    attributes). */
module Sqs {
  import opened Base
  import opened Params
  import Common
  import Aws

  /** `new SQS(accessKeyId, secretAccessKey)`: a query connection to
      queue.amazonaws.com, API version 2012-11-05. */
  method NewSqs(accessKeyId: string, secretAccessKey: string) returns (c: Aws.Connection)
    ensures fresh(c)
    ensures c.Current() == Aws.Settings(accessKeyId, secretAccessKey, "queue.amazonaws.com", "2012-11-05", true, "/")
  {
    c := new Aws.Connection(accessKeyId, secretAccessKey, "queue.amazonaws.com", "2012-11-05");
  }

  /** A `makeRequest(cb, action, params, verb)` call; `verb` is `""` when
      the call leaves the connection's default (GET). */
  datatype Request = Request(action: string, params: Dict<Val>, verb: string)

  /** What `url.parse` gives back that the client uses. */
  datatype UrlParts = UrlParts(host: string, pathname: string)

  /** `this.host = queryUrl.host; this.path = queryUrl.pathname;`: every
      per-queue call points the shared connection at the queue first. */
  method Aim(c: Aws.Connection, u: UrlParts)
    modifies c
    ensures c.Current() == old(c.Current()).(host := u.host, path := u.pathname)
  {
    c.host := u.host;
    c.path := u.pathname;
  }

  /** JavaScript's `v || fallback`. */
  function Or(v: Val, fallback: Val): (r: Val)
    ensures Truthy(v) ==> r == v
    ensures !Truthy(v) ==> r == fallback
  {
    if Truthy(v) then v else fallback
  }

  // ------------------------------------------------------ createQueue

  const AttributePrefix := "Attribute."

  /** The value stored for an attribute: the `policy` attribute is sent
      as its JSON text, every other value as given. */
  function AttributeValue(name: string, v: Val, stringify: Val -> string): Val {
    if name == "policy" then Str(stringify(v)) else v
  }

  /** The attributes as the name/value pairs that are numbered: each name
      title-cased, each value as `AttributeValue` gives it. */
  function Titled(attributes: Dict<Val>, stringify: Val -> string): (r: Dict<Val>)
    ensures |r| == |attributes|
    ensures forall i :: 0 <= i < |r| ==>
      r[i] == (Common.ToTitleCase(attributes[i].0), AttributeValue(attributes[i].0, attributes[i].1, stringify))
  {
    seq(|attributes|, i requires 0 <= i < |attributes| =>
      (Common.ToTitleCase(attributes[i].0), AttributeValue(attributes[i].0, attributes[i].1, stringify)))
  }

  /** The parameters of `createQueue(name, attributes)`. */
  function CreateQueueParams(name: string, attributes: Option<Dict<Val>>, stringify: Val -> string): Dict<Val> {
    var base: Dict<Val> := [("QueueName", Str(name))];
    if attributes.Some? then Dims(base, AttributePrefix, Titled(attributes.value, stringify)) else base
  }

  /** `createQueue(name, attributes)`; the queue built from the returned
      URL is `FromUrl`'s business. */
  method CreateQueue(name: string, attributes: Option<Dict<Val>>, stringify: Val -> string) returns (r: Request)
    ensures r == Request("CreateQueue", CreateQueueParams(name, attributes, stringify), "")
  {
    var base: Dict<Val> := [("QueueName", Str(name))];
    var params := base;
    if attributes.Some? {
      var attrs := attributes.value;
      ghost var titled := Titled(attrs, stringify);
      var index := 0;
      while index < |attrs|
        invariant 0 <= index <= |attrs|
        invariant params == Dims(base, AttributePrefix, titled[..index])
      {
        var key, val := attrs[index].0, attrs[index].1;
        if key == "policy" {
          val := Str(stringify(val));
        }
        assert titled[..index + 1][..index] == titled[..index];
        params := PutDim(params, AttributePrefix, index + 1, Common.ToTitleCase(key), val);
        index := index + 1;
      }
      assert titled[..|attrs|] == titled;
    }
    r := Request("CreateQueue", params, "");
  }

  /** Attribute n (1-based, in the attributes' order) is stored as its
      title-cased name and its value; there is no attribute n outside
      1..|attributes|, and none at all without attributes. */
  lemma CreateQueueAttribute(name: string, attributes: Option<Dict<Val>>, stringify: Val -> string, n: nat)
    ensures Get(CreateQueueParams(name, attributes, stringify), MemberKey(AttributePrefix, n, ".Name")) ==
      if attributes.Some? && 1 <= n <= |attributes.value|
      then Some(Str(Common.ToTitleCase(attributes.value[n - 1].0))) else None
    ensures Get(CreateQueueParams(name, attributes, stringify), MemberKey(AttributePrefix, n, ".Value")) ==
      if attributes.Some? && 1 <= n <= |attributes.value|
      then Some(AttributeValue(attributes.value[n - 1].0, attributes.value[n - 1].1, stringify)) else None
  {
    var base: Dict<Val> := [("QueueName", Str(name))];
    MemberKeyApart(AttributePrefix, n, ".Name", "QueueName", 0);
    MemberKeyApart(AttributePrefix, n, ".Value", "QueueName", 0);
    GetCons("QueueName", Str(name), [], MemberKey(AttributePrefix, n, ".Name"));
    GetCons("QueueName", Str(name), [], MemberKey(AttributePrefix, n, ".Value"));
    if attributes.Some? {
      var titled := Titled(attributes.value, stringify);
      DimsGetName(base, AttributePrefix, titled, n);
      DimsGetValue(base, AttributePrefix, titled, n);
    }
  }

  /** Outside the attribute keys there is `QueueName` and nothing else. */
  lemma CreateQueueOther(name: string, attributes: Option<Dict<Val>>, stringify: Val -> string, k: string)
    requires Apart(k, AttributePrefix)
    ensures Get(CreateQueueParams(name, attributes, stringify), k) == if k == "QueueName" then Some(Str(name)) else None
  {
    var base: Dict<Val> := [("QueueName", Str(name))];
    GetCons("QueueName", Str(name), [], k);
    if attributes.Some? {
      DimsGetOther(base, AttributePrefix, Titled(attributes.value, stringify), k);
    }
  }

  /** The `policy` attribute goes out as `Policy` holding its JSON text. */
  lemma CreateQueuePolicy(name: string, attributes: Dict<Val>, stringify: Val -> string, n: nat)
    requires 1 <= n <= |attributes| && attributes[n - 1].0 == "policy"
    ensures Get(CreateQueueParams(name, Some(attributes), stringify), MemberKey(AttributePrefix, n, ".Name")) == Some(Str("Policy"))
    ensures Get(CreateQueueParams(name, Some(attributes), stringify), MemberKey(AttributePrefix, n, ".Value")) ==
      Some(Str(stringify(attributes[n - 1].1)))
  {
    CreateQueueAttribute(name, Some(attributes), stringify, n);
    PolicyTitle();
  }

  lemma PolicyTitle()
    ensures Common.ToTitleCase("policy") == "Policy"
  {
    var p := "policy";
    assert Common.CharAt(p, 0) == "p";
    assert Common.Substr(p, 1, |p| - 1) == "olicy";
  }

  // ------------------------------------------------------ numbered entries

  /** Entry n of a batch: its two fields `prefix + n + first` and
      `prefix + n + second`. */
  function PutEntry(params: Dict<Val>, prefix: string, n: nat, first: string, second: string, entry: (Val, Val)): Dict<Val> {
    Put(Put(params, MemberKey(prefix, n, first), entry.0), MemberKey(prefix, n, second), entry.1)
  }

  /** `batch.forEach((x, index) => { params[prefix + (index + 1) + first] = ...;
      params[prefix + (index + 1) + second] = ...; })`. */
  function Entries(params: Dict<Val>, prefix: string, first: string, second: string, entries: seq<(Val, Val)>): Dict<Val>
    decreases |entries|
  {
    if entries == [] then params
    else PutEntry(Entries(params, prefix, first, second, entries[..|entries| - 1]), prefix, |entries|, first, second, entries[|entries| - 1])
  }

  /** The `forEach` loop that numbers the entries. */
  method AddEntries(params: Dict<Val>, prefix: string, first: string, second: string, entries: seq<(Val, Val)>)
    returns (r: Dict<Val>)
    ensures r == Entries(params, prefix, first, second, entries)
  {
    r := params;
    var index := 0;
    while index < |entries|
      invariant 0 <= index <= |entries|
      invariant r == Entries(params, prefix, first, second, entries[..index])
    {
      assert entries[..index + 1][..index] == entries[..index];
      r := Put(r, MemberKey(prefix, index + 1, first), entries[index].0);
      r := Put(r, MemberKey(prefix, index + 1, second), entries[index].1);
      index := index + 1;
    }
    assert entries[..|entries|] == entries;
  }

  /** Reading one field of entry n back: the first or second component of
      the n-th entry for 1 <= n <= |entries|, otherwise what `params` had. */
  lemma {:induction false} EntriesGet(params: Dict<Val>, prefix: string, first: string, second: string,
                                      entries: seq<(Val, Val)>, n: nat, suffix: string)
    requires Separates(first) && Separates(second) && first != second
    requires suffix == first || suffix == second
    ensures Get(Entries(params, prefix, first, second, entries), MemberKey(prefix, n, suffix)) ==
      if 1 <= n <= |entries| then Some(if suffix == first then entries[n - 1].0 else entries[n - 1].1)
      else Get(params, MemberKey(prefix, n, suffix))
    decreases |entries|
  {
    if entries != [] {
      var init := entries[..|entries| - 1];
      EntriesGetStep(params, prefix, first, second, entries, n, suffix);
      if n != |entries| {
        EntriesGet(params, prefix, first, second, init, n, suffix);
        if 1 <= n <= |init| {
          assert init[n - 1] == entries[n - 1];
        }
      }
    }
  }

  /** The last entry's fields, and every other key as before it. */
  lemma EntriesGetStep(params: Dict<Val>, prefix: string, first: string, second: string,
                       entries: seq<(Val, Val)>, n: nat, suffix: string)
    requires Separates(first) && Separates(second) && first != second
    requires suffix == first || suffix == second
    requires entries != []
    ensures var m := |entries|;
      Get(Entries(params, prefix, first, second, entries), MemberKey(prefix, n, suffix)) ==
      if n == m then Some(if suffix == first then entries[m - 1].0 else entries[m - 1].1)
      else Get(Entries(params, prefix, first, second, entries[..m - 1]), MemberKey(prefix, n, suffix))
  {
    var m := |entries|;
    PutEntryGet(Entries(params, prefix, first, second, entries[..m - 1]), prefix, m, first, second, entries[m - 1], n, suffix);
  }

  /** One entry's two assignments, read back through a key of entry n. */
  lemma PutEntryGet(d: Dict<Val>, prefix: string, m: nat, first: string, second: string, entry: (Val, Val),
                    n: nat, suffix: string)
    requires Separates(first) && Separates(second) && first != second
    requires suffix == first || suffix == second
    ensures Get(PutEntry(d, prefix, m, first, second, entry), MemberKey(prefix, n, suffix)) ==
      if n == m then Some(if suffix == first then entry.0 else entry.1) else Get(d, MemberKey(prefix, n, suffix))
  {
    var k := MemberKey(prefix, n, suffix);
    MemberKeyInjective(prefix, n, suffix, m, first);
    MemberKeyInjective(prefix, n, suffix, m, second);
    GetPut(Put(d, MemberKey(prefix, m, first), entry.0), MemberKey(prefix, m, second), entry.1, k);
    GetPut(d, MemberKey(prefix, m, first), entry.0, k);
  }

  /** Keys outside `prefix` keep what `params` had. */
  lemma {:induction false} EntriesGetOther(params: Dict<Val>, prefix: string, first: string, second: string,
                                           entries: seq<(Val, Val)>, k: string)
    requires Apart(k, prefix)
    ensures Get(Entries(params, prefix, first, second, entries), k) == Get(params, k)
    decreases |entries|
  {
    if entries != [] {
      EntriesGetOtherStep(params, prefix, first, second, entries, k);
      EntriesGetOther(params, prefix, first, second, entries[..|entries| - 1], k);
    }
  }

  /** One entry of the list writes only keys under `prefix`. */
  lemma EntriesGetOtherStep(params: Dict<Val>, prefix: string, first: string, second: string,
                            entries: seq<(Val, Val)>, k: string)
    requires Apart(k, prefix) && entries != []
    ensures Get(Entries(params, prefix, first, second, entries), k) ==
            Get(Entries(params, prefix, first, second, entries[..|entries| - 1]), k)
  {
    var m := |entries|;
    var before := Entries(params, prefix, first, second, entries[..m - 1]);
    ApartNotMember(k, prefix, m, first);
    ApartNotMember(k, prefix, m, second);
    GetPutOther(Put(before, MemberKey(prefix, m, first), entries[m - 1].0), MemberKey(prefix, m, second), entries[m - 1].1, k);
    GetPutOther(before, MemberKey(prefix, m, first), entries[m - 1].0, k);
  }

  // ------------------------------------------------------ deleteMessageBatch

  const DeletePrefix := "DeleteMessageBatchRequestEntry."

  /** `receipts[index]`: `undefined` past the end of the array. */
  function ReceiptAt(receipts: seq<Val>, i: nat): (r: Val)
    ensures i < |receipts| ==> r == receipts[i]
    ensures i >= |receipts| ==> r == Undef
  {
    if i < |receipts| then receipts[i] else Undef
  }

  /** The i-th id paired with the i-th receipt handle, one pair per id. */
  function DeletePairs(ids: seq<Val>, receipts: seq<Val>): (r: seq<(Val, Val)>)
    ensures |r| == |ids|
    ensures forall i :: 0 <= i < |ids| ==> r[i] == (ids[i], ReceiptAt(receipts, i))
  {
    seq(|ids|, i requires 0 <= i < |ids| => (ids[i], ReceiptAt(receipts, i)))
  }

  function DeleteBatchParams(ids: seq<Val>, receipts: seq<Val>): Dict<Val> {
    Entries([], DeletePrefix, ".Id", ".Receipthandle", DeletePairs(ids, receipts))
  }

  /** `deleteMessageBatch(url, ids, receipts)`. */
  method DeleteMessageBatch(c: Aws.Connection, u: UrlParts, ids: seq<Val>, receipts: seq<Val>) returns (r: Request)
    modifies c
    ensures c.Current() == old(c.Current()).(host := u.host, path := u.pathname)
    ensures r == Request("DeleteMessageBatch", DeleteBatchParams(ids, receipts), "")
  {
    var params := AddEntries([], DeletePrefix, ".Id", ".Receipthandle", DeletePairs(ids, receipts));
    Aim(c, u);
    r := Request("DeleteMessageBatch", params, "");
  }

  /** Entry n carries the n-th id and the n-th receipt handle (undefined
      when there are fewer receipts than ids); there is no entry beyond
      the ids, and nothing outside the entries. */
  lemma DeleteBatchEntry(ids: seq<Val>, receipts: seq<Val>, n: nat)
    ensures Get(DeleteBatchParams(ids, receipts), MemberKey(DeletePrefix, n, ".Id")) ==
      if 1 <= n <= |ids| then Some(ids[n - 1]) else None
    ensures Get(DeleteBatchParams(ids, receipts), MemberKey(DeletePrefix, n, ".Receipthandle")) ==
      if 1 <= n <= |ids| then Some(ReceiptAt(receipts, n - 1)) else None
  {
    EntriesGet([], DeletePrefix, ".Id", ".Receipthandle", DeletePairs(ids, receipts), n, ".Id");
    EntriesGet([], DeletePrefix, ".Id", ".Receipthandle", DeletePairs(ids, receipts), n, ".Receipthandle");
  }

  lemma DeleteBatchOther(ids: seq<Val>, receipts: seq<Val>, k: string)
    requires Apart(k, DeletePrefix)
    ensures Get(DeleteBatchParams(ids, receipts), k) == None
  {
    EntriesGetOther([], DeletePrefix, ".Id", ".Receipthandle", DeletePairs(ids, receipts), k);
  }

  // ------------------------------------------------------ sendMessageBatch

  const SendPrefix := "SendMessageBatchRequestEntry."

  /** Each message with the id drawn for it and its encoded body. */
  function SendPairs<M>(batch: seq<M>, encode: M -> string, uuid: nat -> string): (r: seq<(Val, Val)>)
    ensures |r| == |batch|
    ensures forall i :: 0 <= i < |batch| ==> r[i] == (Str(uuid(i)), Str(encode(batch[i])))
  {
    seq(|batch|, i requires 0 <= i < |batch| => (Str(uuid(i)), Str(encode(batch[i]))))
  }

  function SendBatchParams<M>(batch: seq<M>, encode: M -> string, uuid: nat -> string): Dict<Val> {
    Entries([], SendPrefix, ".Id", ".MessageBody", SendPairs(batch, encode, uuid))
  }

  /** The request `sendMessageBatch(url, batch)` sends, by POST. */
  function SendBatchRequest<M>(batch: seq<M>, encode: M -> string, uuid: nat -> string): Request {
    Request("SendMessageBatch", SendBatchParams(batch, encode, uuid), "POST")
  }

  /** `sendMessageBatch(url, batch)`; `uuid(i)` is the id `uuid.v4()`
      draws for the i-th message. */
  method SendMessageBatch<M>(c: Aws.Connection, u: UrlParts, batch: seq<M>, encode: M -> string, uuid: nat -> string)
    returns (r: Request)
    modifies c
    ensures c.Current() == old(c.Current()).(host := u.host, path := u.pathname)
    ensures r == SendBatchRequest(batch, encode, uuid)
  {
    Aim(c, u);
    var params := AddEntries([], SendPrefix, ".Id", ".MessageBody", SendPairs(batch, encode, uuid));
    r := Request("SendMessageBatch", params, "POST");
  }

  /** Entry n carries the n-th message's id and encoded body. */
  lemma SendBatchEntry<M>(batch: seq<M>, encode: M -> string, uuid: nat -> string, n: nat)
    ensures Get(SendBatchParams(batch, encode, uuid), MemberKey(SendPrefix, n, ".Id")) ==
      if 1 <= n <= |batch| then Some(Str(uuid(n - 1))) else None
    ensures Get(SendBatchParams(batch, encode, uuid), MemberKey(SendPrefix, n, ".MessageBody")) ==
      if 1 <= n <= |batch| then Some(Str(encode(batch[n - 1]))) else None
  {
    EntriesGet([], SendPrefix, ".Id", ".MessageBody", SendPairs(batch, encode, uuid), n, ".Id");
    EntriesGet([], SendPrefix, ".Id", ".MessageBody", SendPairs(batch, encode, uuid), n, ".MessageBody");
  }

  // ------------------------------------------------------ single-message calls

  /** The parameters of `sendMessage(url, message, delay)`. */
  function SendParams(body: string, delay: Val): Dict<Val> {
    [("MessageBody", Str(body)), ("DelaySeconds", Or(delay, Num(0)))]
  }

  function SendRequest<M>(message: M, delay: Val, encode: M -> string): Request {
    Request("SendMessage", SendParams(encode(message), delay), "")
  }

  /** `sendMessage(url, message, delay)`. */
  method SendMessage<M>(c: Aws.Connection, u: UrlParts, message: M, delay: Val, encode: M -> string) returns (r: Request)
    modifies c
    ensures c.Current() == old(c.Current()).(host := u.host, path := u.pathname)
    ensures r == SendRequest(message, delay, encode)
  {
    var params := [("MessageBody", Str(encode(message))), ("DelaySeconds", Or(delay, Num(0)))];
    Aim(c, u);
    r := Request("SendMessage", params, "");
  }

  /** The encoded body is sent, with no delay unless a truthy one is given. */
  lemma SendMessageDelay(body: string, delay: Val, k: string)
    ensures Get(SendParams(body, delay), k) ==
      if k == "MessageBody" then Some(Str(body))
      else if k == "DelaySeconds" then Some(if Truthy(delay) then delay else Num(0))
      else None
  {
    GetCons("MessageBody", Str(body), [("DelaySeconds", Or(delay, Num(0)))], k);
    GetCons("DelaySeconds", Or(delay, Num(0)), [], k);
  }

  /** The parameters of `receiveMessage(url, max, timeout)`. */
  function ReceiveParams(max: Val, timeout: Val): Dict<Val> {
    [("AttributeName.1", Str("ALL")), ("MaxNumberOfMessages", Or(max, Num(1))), ("VisibilityTimeout", Or(timeout, Num(30)))]
  }

  /** `receiveMessage(url, max, timeout)`. */
  method ReceiveMessage(c: Aws.Connection, u: UrlParts, max: Val, timeout: Val) returns (r: Request)
    modifies c
    ensures c.Current() == old(c.Current()).(host := u.host, path := u.pathname)
    ensures r == Request("ReceiveMessage", ReceiveParams(max, timeout), "")
  {
    var m := Or(max, Num(1));
    var t := Or(timeout, Num(30));
    var params := [("AttributeName.1", Str("ALL")), ("MaxNumberOfMessages", m), ("VisibilityTimeout", t)];
    Aim(c, u);
    r := Request("ReceiveMessage", params, "");
  }

  /** One message at most and a 30-second visibility timeout unless truthy
      values are given; all attributes are asked for. */
  lemma ReceiveDefaults(max: Val, timeout: Val, k: string)
    ensures Get(ReceiveParams(max, timeout), k) ==
      if k == "AttributeName.1" then Some(Str("ALL"))
      else if k == "MaxNumberOfMessages" then Some(if Truthy(max) then max else Num(1))
      else if k == "VisibilityTimeout" then Some(if Truthy(timeout) then timeout else Num(30))
      else None
  {
    var t: Dict<Val> := [("VisibilityTimeout", Or(timeout, Num(30)))];
    var m: Dict<Val> := [("MaxNumberOfMessages", Or(max, Num(1)))] + t;
    GetCons("AttributeName.1", Str("ALL"), m, k);
    GetCons("MaxNumberOfMessages", Or(max, Num(1)), t, k);
    GetCons("VisibilityTimeout", Or(timeout, Num(30)), [], k);
  }

  /** The parameters of `changeMessageVisibility(url, receipt, timeout)`. */
  function VisibilityParams(receipt: Val, timeout: Val): Dict<Val> {
    [("ReceiptHandle", receipt), ("VisibilityTimeout", timeout)]
  }

  /** `changeMessageVisibility(url, receipt, timeout)`. */
  method ChangeMessageVisibility(c: Aws.Connection, u: UrlParts, receipt: Val, timeout: Val) returns (r: Request)
    modifies c
    ensures c.Current() == old(c.Current()).(host := u.host, path := u.pathname)
    ensures r == Request("ChangeMessageVisibility", VisibilityParams(receipt, timeout), "")
  {
    var params := [("ReceiptHandle", receipt), ("VisibilityTimeout", timeout)];
    Aim(c, u);
    r := Request("ChangeMessageVisibility", params, "");
  }

  /** The timeout is sent exactly as given, with no default. */
  lemma VisibilityTimeoutAsGiven(receipt: Val, timeout: Val)
    ensures Get(VisibilityParams(receipt, timeout), "VisibilityTimeout") == Some(timeout)
    ensures Get(VisibilityParams(receipt, timeout), "ReceiptHandle") == Some(receipt)
  {
    GetCons("ReceiptHandle", receipt, [("VisibilityTimeout", timeout)], "VisibilityTimeout");
    GetCons("VisibilityTimeout", timeout, [], "VisibilityTimeout");
  }

  /** `deleteMessage(url, receipt)`: the receipt handle only when truthy. */
  method DeleteMessage(c: Aws.Connection, u: UrlParts, receipt: Val) returns (r: Request)
    modifies c
    ensures c.Current() == old(c.Current()).(host := u.host, path := u.pathname)
    ensures r == Request("DeleteMessage", PutIf([], "ReceiptHandle", receipt), "")
  {
    var params: Dict<Val> := [];
    if Truthy(receipt) {
      params := Put(params, "ReceiptHandle", receipt);
    }
    Aim(c, u);
    r := Request("DeleteMessage", params, "");
  }

  /** `deleteQueue(url, name)`. */
  method DeleteQueue(c: Aws.Connection, u: UrlParts, name: Val) returns (r: Request)
    modifies c
    ensures c.Current() == old(c.Current()).(host := u.host, path := u.pathname)
    ensures r == Request("DeleteQueue", [("QueueName", name)], "")
  {
    Aim(c, u);
    r := Request("DeleteQueue", [("QueueName", name)], "");
  }

  /** `listQueues(prefix)`: the prefix only when truthy. */
  method ListQueues(prefix: Val) returns (r: Request)
    ensures r == Request("ListQueues", PutIf([], "QueueNamePrefix", prefix), "")
  {
    var params: Dict<Val> := [];
    if Truthy(prefix) {
      params := Put(params, "QueueNamePrefix", prefix);
    }
    r := Request("ListQueues", params, "");
  }

  /** The options of `getQueueUrl`. */
  datatype QueueUrlQuery = QueueUrlQuery(name: Val, ownerId: Val)

  function QueueUrlParams(opts: Option<QueueUrlQuery>): Dict<Val> {
    var q := if opts.Some? then opts.value else QueueUrlQuery(Undef, Undef);
    PutIf(PutIf([], "QueueName", q.name), "QueueOwnerAWSAccountId", q.ownerId)
  }

  /** `getQueueUrl(opts)`. */
  method GetQueueUrl(opts: Option<QueueUrlQuery>) returns (r: Request)
    ensures r == Request("GetQueueUrl", QueueUrlParams(opts), "")
  {
    var q := if opts.Some? then opts.value else QueueUrlQuery(Undef, Undef);
    var params: Dict<Val> := [];
    if Truthy(q.name) {
      params := Put(params, "QueueName", q.name);
    }
    if Truthy(q.ownerId) {
      params := Put(params, "QueueOwnerAWSAccountId", q.ownerId);
    }
    r := Request("GetQueueUrl", params, "");
  }

  /** Each option is sent under its parameter name exactly when it is
      truthy; nothing else is sent. */
  lemma QueueUrlOptions(opts: Option<QueueUrlQuery>, k: string)
    ensures Get(QueueUrlParams(opts), k) ==
      if opts.None? then None
      else if k == "QueueOwnerAWSAccountId" then IfTruthy(opts.value.ownerId)
      else if k == "QueueName" then IfTruthy(opts.value.name)
      else None
  {
    var q := if opts.Some? then opts.value else QueueUrlQuery(Undef, Undef);
    PutIfGet(PutIf([], "QueueName", q.name), "QueueOwnerAWSAccountId", q.ownerId, k);
    PutIfGet([], "QueueName", q.name, k);
  }

  /** `getQueueAttributes(url)`: every attribute is asked for. */
  method GetQueueAttributes(c: Aws.Connection, u: UrlParts) returns (r: Request)
    modifies c
    ensures c.Current() == old(c.Current()).(host := u.host, path := u.pathname)
    ensures r == Request("GetQueueAttributes", [("AttributeName.1", Str("All"))], "")
  {
    var params: Dict<Val> := [("AttributeName.1", Str("All"))];
    Aim(c, u);
    r := Request("GetQueueAttributes", params, "");
  }

  // ------------------------------------------------------ Queue.fromUrl

  const QueueUrlPrefix := "http://queue.amazonaws.com/"

  /** The length of the run of digits `\d+` can take at the start of `s`. */
  function DigitRun(s: string): (n: nat)
    ensures n <= |s|
    ensures forall i :: 0 <= i < n ==> IsDigit(s[i])
    ensures n < |s| ==> !IsDigit(s[n])
  {
    if s == [] || !IsDigit(s[0]) then 0 else 1 + DigitRun(s[1..])
  }

  /** The length of the run of word characters `\w+` can take at the
      start of `s`. */
  function WordRun(s: string): (n: nat)
    ensures n <= |s|
    ensures forall i :: 0 <= i < n ==> IsWordChar(s[i])
    ensures n < |s| ==> !IsWordChar(s[n])
  {
    if s == [] || !IsWordChar(s[0]) then 0 else 1 + WordRun(s[1..])
  }

  /** A match of `/http\:\/\/queue\.amazonaws\.com\/(\d+)\/(\w+)/` that
      starts at position i, with its two groups. The digits must be
      followed by `/`, so only the whole run of digits can match; the
      word characters end the pattern, so the greedy `\w+` takes the
      whole run. */
  function MatchAt(url: string, i: nat): Option<(string, string)>
    requires i <= |url|
  {
    var rest := url[i..];
    if |rest| < |QueueUrlPrefix| || rest[..|QueueUrlPrefix|] != QueueUrlPrefix then None
    else Groups(rest[|QueueUrlPrefix|..])
  }

  /** The two groups read from the text after the queue host. */
  function Groups(t: string): Option<(string, string)> {
    var d := DigitRun(t);
    if d == 0 || d == |t| || t[d] != '/' then None
    else
      var w := WordRun(t[d + 1..]);
      if w == 0 then None else Some((t[..d], t[d + 1..][..w]))
  }

  /** `url.match(regex)` searching from position i: the leftmost match. */
  function FirstMatch(url: string, i: nat): Option<(string, string)>
    requires i <= |url|
    decreases |url| - i
  {
    if MatchAt(url, i).Some? || i == |url| then MatchAt(url, i) else FirstMatch(url, i + 1)
  }

  /** What a match captures: a non-empty run of digits as the id and a
      non-empty run of word characters as the name, found in the URL
      right after the queue host, with nothing more of either kind
      following. */
  lemma MatchAtGroups(url: string, i: nat)
    requires i <= |url| && MatchAt(url, i).Some?
    ensures var (id, name) := MatchAt(url, i).value;
      id != [] && AllDigits(id) && name != [] && AllWordChars(name) &&
      var found := QueueUrlPrefix + (id + "/" + name);
      |url| >= i + |found| && url[i..i + |found|] == found &&
      (|url| == i + |found| || !IsWordChar(url[i + |found|]))
  {
    var t := url[i..][|QueueUrlPrefix|..];
    GroupsFound(t);
    var (id, name) := Groups(t).value;
    FoundAfterPrefix(url, i, QueueUrlPrefix, id + "/" + name);
  }

  /** Text found right after a prefix is found, prefix included, at the
      same position of the whole string. */
  lemma FoundAfterPrefix(url: string, i: nat, p: string, tail: string)
    requires i <= |url| && |url[i..]| >= |p| && url[i..][..|p|] == p
    requires var t := url[i..][|p|..];
      |t| >= |tail| && t[..|tail|] == tail && (|t| == |tail| || !IsWordChar(t[|tail|]))
    ensures |url| >= i + |p + tail| && url[i..i + |p + tail|] == p + tail
    ensures |url| == i + |p + tail| || !IsWordChar(url[i + |p + tail|])
  {
    var t := url[i..][|p|..];
    assert url[i..i + |p + tail|] == url[i..][..|p|] + t[..|tail|];
    if |url| > i + |p + tail| {
      assert url[i + |p + tail|] == t[|tail|];
    }
  }

  /** The groups sit at the start of the text they are read from. */
  lemma GroupsFound(t: string)
    requires Groups(t).Some?
    ensures var (id, name) := Groups(t).value;
      id != [] && AllDigits(id) && name != [] && AllWordChars(name) &&
      |t| >= |id + "/" + name| && t[..|id + "/" + name|] == id + "/" + name &&
      (|t| == |id + "/" + name| || !IsWordChar(t[|id + "/" + name|]))
  {
    var d := DigitRun(t);
    var w := WordRun(t[d + 1..]);
    var id, name := t[..d], t[d + 1..][..w];
    assert t[..d + 1 + w] == id + "/" + name;
    if |t| > d + 1 + w {
      assert t[d + 1 + w] == t[d + 1..][w];
    }
  }

  /** `FirstMatch` finds a match exactly when one starts at or after i,
      and then it is the one with the smallest start. */
  lemma {:induction false} FirstMatchLeftmost(url: string, i: nat)
    requires i <= |url|
    ensures FirstMatch(url, i).None? <==> forall j :: i <= j <= |url| ==> MatchAt(url, j).None?
    ensures FirstMatch(url, i).Some? ==>
      exists j :: i <= j <= |url| && FirstMatch(url, i) == MatchAt(url, j) &&
        forall j' :: i <= j' < j ==> MatchAt(url, j').None?
    decreases |url| - i
  {
    if MatchAt(url, i).None? && i < |url| {
      FirstMatchLeftmost(url, i + 1);
      if FirstMatch(url, i).Some? {
        var j :| i + 1 <= j <= |url| && FirstMatch(url, i + 1) == MatchAt(url, j) &&
          forall j' :: i + 1 <= j' < j ==> MatchAt(url, j').None?;
        assert forall j' :: i <= j' < j ==> MatchAt(url, j').None?;
      }
    }
  }

  lemma {:induction false} DigitRunOf(id: string, tail: string)
    requires AllDigits(id) && tail != [] && !IsDigit(tail[0])
    ensures DigitRun(id + tail) == |id|
    decreases |id|
  {
    if id != [] {
      assert (id + tail)[1..] == id[1..] + tail;
      DigitRunOf(id[1..], tail);
    } else {
      assert id + tail == tail;
    }
  }

  lemma {:induction false} WordRunOf(name: string, tail: string)
    requires AllWordChars(name) && (tail == [] || !IsWordChar(tail[0]))
    ensures WordRun(name + tail) == |name|
    decreases |name|
  {
    if name != [] {
      assert (name + tail)[1..] == name[1..] + tail;
      WordRunOf(name[1..], tail);
    } else {
      assert name + tail == tail;
    }
  }

  /** Reading back a queue URL built from an account id and a queue name
      gives that id and name, whatever non-word text follows. */
  lemma FromUrlRoundTrip(id: string, name: string, tail: string)
    requires id != [] && AllDigits(id) && name != [] && AllWordChars(name)
    requires tail == [] || !IsWordChar(tail[0])
    ensures FirstMatch(QueueUrlPrefix + id + "/" + name + tail, 0) == Some((id, name))
  {
    var url := QueueUrlPrefix + id + "/" + name + tail;
    var t := id + "/" + name + tail;
    assert url == QueueUrlPrefix + t;
    StartsWithPrefix(url, QueueUrlPrefix, t);
    GroupsOf(id, name, tail);
  }

  lemma StartsWithPrefix(url: string, prefix: string, t: string)
    requires url == prefix + t
    ensures url[0..] == url && url[..|prefix|] == prefix && url[|prefix|..] == t
  {
  }

  /** Reading the groups back from the text they were written to. */
  lemma GroupsOf(id: string, name: string, tail: string)
    requires id != [] && AllDigits(id) && name != [] && AllWordChars(name)
    requires tail == [] || !IsWordChar(tail[0])
    ensures Groups(id + "/" + name + tail) == Some((id, name))
  {
    var t := id + "/" + name + tail;
    assert t == id + ("/" + name + tail);
    DigitRunOf(id, "/" + name + tail);
    assert t[..|id|] == id;
    assert t[|id|] == '/';
    assert t[|id| + 1..] == name + tail;
    WordRunOf(name, tail);
    assert (name + tail)[..|name|] == name;
  }

  /** The queue URL of the library's own example. */
  lemma FromUrlExample()
    ensures FirstMatch("http://queue.amazonaws.com/160241911954/platatest2", 0) == Some(("160241911954", "platatest2"))
  {
    var id, name := "160241911954", "platatest2";
    assert QueueUrlPrefix + id + "/" + name + "" == "http://queue.amazonaws.com/160241911954/platatest2";
    FromUrlRoundTrip(id, name, "");
  }

  // ------------------------------------------------------ getQueueAttributes

  /** The attributes whose values are counts or sizes. */
  const NumberFields: seq<string> := [
    "approximateNumberOfMessages", "approximateNumberOfMessagesNotVisible", "approximateNumberOfMessagesDelayed",
    "visibilityTimeout", "maximumMessageSize", "messageRetentionPeriod", "delaySeconds",
    "receiveMessageWaitTimeSeconds"]

  /** The attributes whose values are times in seconds. */
  const DateFields: seq<string> := ["createdTimestamp", "lastModifiedTimestamp"]

  /** `Number(s)` on a string of decimal digits (the empty string is 0);
      anything else is NaN, written `None`. */
  function ToNumber(s: string): (r: Option<nat>)
    ensures r.Some? <==> AllDigits(s)
  {
    if AllDigits(s) then Some(DigitsValue(s)) else None
  }

  /** A converted attribute: a number, a time in milliseconds since the
      epoch (`None` is an invalid date), or the text as received. */
  datatype QueueAttribute = Count(n: Option<nat>) | Time(ms: Option<nat>) | Text(s: string)

  /** The conversion of one attribute value, by its camelized name. */
  function ConvertValue(name: string, value: string): QueueAttribute {
    if name in NumberFields then Count(ToNumber(value))
    else if name in DateFields then Time(if AllDigits(value) then Some(DigitsValue(value) * 1000) else None)
    else Text(value)
  }

  /** `attrs.forEach(attr => res[camelize(attr.name)] = value)`. */
  function Converted(attrs: seq<(string, string)>): Dict<QueueAttribute>
    decreases |attrs|
  {
    if attrs == [] then []
    else
      var name := Common.Camelize(attrs[|attrs| - 1].0);
      Put(Converted(attrs[..|attrs| - 1]), name, ConvertValue(name, attrs[|attrs| - 1].1))
  }

  /** The body of the `forEach` callback: the conversion of one value. */
  method ConvertOne(name: string, raw: string) returns (value: QueueAttribute)
    ensures value == ConvertValue(name, raw)
  {
    if name in NumberFields {
      value := Count(ToNumber(raw));
    } else if name in DateFields {
      var seconds := ToNumber(raw);
      value := Time(if seconds.Some? then Some(seconds.value * 1000) else None);
    } else {
      value := Text(raw);
    }
  }

  /** The `forEach` loop of the response callback. */
  method ConvertAttributes(attrs: seq<(string, string)>) returns (res: Dict<QueueAttribute>)
    ensures res == Converted(attrs)
  {
    res := [];
    var index := 0;
    while index < |attrs|
      invariant 0 <= index <= |attrs|
      invariant res == Converted(attrs[..index])
    {
      var name := Common.Camelize(attrs[index].0);
      var value := ConvertOne(name, attrs[index].1);
      assert attrs[..index + 1][..index] == attrs[..index];
      res := Put(res, name, value);
      index := index + 1;
    }
    assert attrs[..|attrs|] == attrs;
  }

  /** Each attribute is found under its camelized name holding its
      converted value, unless a later attribute has the same camelized
      name. */
  lemma {:induction false} ConvertedLast(attrs: seq<(string, string)>, i: nat)
    requires i < |attrs|
    requires forall j :: i < j < |attrs| ==> Common.Camelize(attrs[j].0) != Common.Camelize(attrs[i].0)
    ensures Get(Converted(attrs), Common.Camelize(attrs[i].0)) ==
      Some(ConvertValue(Common.Camelize(attrs[i].0), attrs[i].1))
    decreases |attrs|
  {
    var last := |attrs| - 1;
    var init := attrs[..last];
    var name := Common.Camelize(attrs[last].0);
    if i == last {
      GetPutSame(Converted(init), name, ConvertValue(name, attrs[last].1));
    } else {
      ConvertedLast(init, i);
      GetPutOther(Converted(init), name, ConvertValue(name, attrs[last].1), Common.Camelize(attrs[i].0));
    }
  }

  /** A name no attribute camelizes to is absent from the result. */
  lemma {:induction false} ConvertedAbsent(attrs: seq<(string, string)>, k: string)
    requires forall j :: 0 <= j < |attrs| ==> Common.Camelize(attrs[j].0) != k
    ensures Get(Converted(attrs), k) == None
    decreases |attrs|
  {
    if attrs != [] {
      var last := |attrs| - 1;
      var name := Common.Camelize(attrs[last].0);
      ConvertedAbsent(attrs[..last], k);
      GetPutOther(Converted(attrs[..last]), name, ConvertValue(name, attrs[last].1), k);
    }
  }

  /** The attributes as SQS names them (title case) land under the
      listed names: counts become numbers and times in seconds become
      milliseconds. */
  lemma ConvertListedField(field: string, digits: string)
    requires field in NumberFields || field in DateFields
    requires AllDigits(digits)
    ensures field in NumberFields ==> ConvertValue(Common.Camelize(Common.ToTitleCase(field)), digits) == Count(Some(DigitsValue(digits)))
    ensures field in DateFields ==> ConvertValue(Common.Camelize(Common.ToTitleCase(field)), digits) == Time(Some(DigitsValue(digits) * 1000))
  {
    ListedLower(field);
    Common.CamelizeUndoesTitleCase(field);
    ConvertOtherField(field, digits);
  }

  lemma ListedLower(field: string)
    requires field in NumberFields || field in DateFields
    ensures field != [] && IsLowerAscii(field[0])
  {
  }

  /** A name on neither list keeps its raw text, and no name is on both. */
  lemma ConvertOtherField(name: string, value: string)
    ensures name !in NumberFields && name !in DateFields ==> ConvertValue(name, value) == Text(value)
    ensures !(name in NumberFields && name in DateFields)
  {
  }

  // ------------------------------------------------------ Queue

  /** How `processPutQueue` sends one buffered value: by
      `Array.isArray(message)`, an array as a batch of its elements, any
      other value as a single message. `elements(v)` is `Some` of the
      elements exactly when `v` is an array (the deferred a value was
      queued with is not modelled). */
  function PendingRequest<M>(v: M, elements: M -> Option<seq<M>>, encode: M -> string, uuid: nat -> string): Request {
    match elements(v)
    case Some(ms) => SendBatchRequest(ms, encode, uuid)
    case None => SendRequest(v, Undef, encode)
  }

  /** The requests a drained `putQueue` makes, in order. */
  function Drained<M>(q: seq<M>, elements: M -> Option<seq<M>>, encode: M -> string, uuid: nat -> string): (r: seq<Request>)
    decreases |q|
  {
    if q == [] then []
    else Drained(q[..|q| - 1], elements, encode, uuid) + [PendingRequest(q[|q| - 1], elements, encode, uuid)]
  }

  /** One request per buffered value, in the order the values were
      queued; an array goes out as `SendMessageBatch` of its elements and
      anything else as `SendMessage`, whichever method queued it. */
  lemma {:induction false} DrainedInOrder<M>(q: seq<M>, elements: M -> Option<seq<M>>, encode: M -> string, uuid: nat -> string, i: nat)
    requires i < |q|
    ensures |Drained(q, elements, encode, uuid)| == |q|
    ensures Drained(q, elements, encode, uuid)[i] == PendingRequest(q[i], elements, encode, uuid)
    ensures Drained(q, elements, encode, uuid)[i].action == (if elements(q[i]).Some? then "SendMessageBatch" else "SendMessage")
    ensures elements(q[i]).Some? ==> Drained(q, elements, encode, uuid)[i] == SendBatchRequest(elements(q[i]).value, encode, uuid)
    ensures elements(q[i]).None? ==> Drained(q, elements, encode, uuid)[i] == SendRequest(q[i], Undef, encode)
    decreases |q|
  {
    DrainedLength(q, elements, encode, uuid);
    if i < |q| - 1 {
      DrainedInOrder(q[..|q| - 1], elements, encode, uuid, i);
    }
  }

  lemma {:induction false} DrainedLength<M>(q: seq<M>, elements: M -> Option<seq<M>>, encode: M -> string, uuid: nat -> string)
    ensures |Drained(q, elements, encode, uuid)| == |q|
    decreases |q|
  {
    if q != [] {
      DrainedLength(q[..|q| - 1], elements, encode, uuid);
    }
  }

  /** Values queued later are sent later. */
  lemma {:induction false} DrainedAppend<M>(a: seq<M>, b: seq<M>, elements: M -> Option<seq<M>>, encode: M -> string, uuid: nat -> string)
    ensures Drained(a + b, elements, encode, uuid) == Drained(a, elements, encode, uuid) + Drained(b, elements, encode, uuid)
    decreases |b|
  {
    if b == [] {
      assert a + b == a;
    } else {
      var init := b[..|b| - 1];
      assert (a + b)[..|a + b| - 1] == a + init;
      DrainedAppend(a, init, elements, encode, uuid);
    }
  }

  /** The body of `processPutQueue`'s `forEach`: one value sent. */
  method SendPending<M>(c: Aws.Connection, u: UrlParts, v: M, elements: M -> Option<seq<M>>, encode: M -> string, uuid: nat -> string)
    returns (r: Request)
    modifies c
    ensures c.Current() == old(c.Current()).(host := u.host, path := u.pathname)
    ensures r == PendingRequest(v, elements, encode, uuid)
  {
    match elements(v)
    case Some(ms) =>
      r := SendMessageBatch(c, u, ms, encode, uuid);
    case None =>
      r := SendMessage(c, u, v, Undef, encode);
  }

  lemma DrainedSnoc<M>(q: seq<M>, i: nat, elements: M -> Option<seq<M>>, encode: M -> string, uuid: nat -> string)
    requires i < |q|
    ensures Drained(q[..i + 1], elements, encode, uuid) == Drained(q[..i], elements, encode, uuid) + [PendingRequest(q[i], elements, encode, uuid)]
  {
    assert q[..i + 1][..i] == q[..i];
  }

  /** What `put` and `putBatch` do with a value: queue it, send it, or
      throw (`putBatch` on a ready queue with a value that is not an
      array, whose `batch.forEach` is not a function). */
  datatype Putting = Queued | Sent(request: Request) | Threw

  /** A queue of lib/services/sqs.js. */
  class Queue<M> {
    var id: string
    var name: string
    var url: string
    var connection: Aws.Connection?
    var ready: bool
    var putQueue: seq<M>

    /** A queue marked ready has a connection to send through. */
    predicate Valid()
      reads this
    {
      ready ==> connection != null
    }

    /** `new Queue(id, name, url, connection)`: ready exactly when it has
        both a connection and a URL; nothing is queued. */
    constructor (id: string, name: string, url: string, connection: Aws.Connection?)
      ensures Valid()
      ensures this.id == id && this.name == name && this.url == url && this.connection == connection
      ensures ready <==> connection != null && url != ""
      ensures putQueue == []
    {
      this.id, this.name, this.url, this.connection := id, name, url, connection;
      ready := connection != null && url != "";
      putQueue := [];
    }

    /** `put(message)`: queued while not ready, sent once ready. */
    method Put(message: M, parseUrl: string -> UrlParts, encode: M -> string) returns (r: Putting)
      requires Valid()
      modifies this, connection
      ensures Valid()
      ensures id == old(id) && name == old(name) && url == old(url) && connection == old(connection) && ready == old(ready)
      ensures !ready ==> r == Queued && putQueue == old(putQueue) + [message]
      ensures !ready && connection != null ==> connection.Current() == old(connection.Current())
      ensures ready ==> r == Sent(SendRequest(message, Undef, encode)) && putQueue == old(putQueue)
      ensures ready ==>
        connection.Current() == old(connection.Current()).(host := parseUrl(url).host, path := parseUrl(url).pathname)
    {
      if !ready {
        putQueue := putQueue + [message];
        r := Queued;
      } else {
        var sent := SendMessage(connection, parseUrl(url), message, Undef, encode);
        r := Sent(sent);
      }
    }

    /** `putBatch(messages)`: queued while not ready, sent once ready;
        `sendMessageBatch` aims the connection and then walks the value
        with `forEach`, which throws unless it is an array. */
    method PutBatch(messages: M, parseUrl: string -> UrlParts, elements: M -> Option<seq<M>>, encode: M -> string, uuid: nat -> string)
      returns (r: Putting)
      requires Valid()
      modifies this, connection
      ensures Valid()
      ensures id == old(id) && name == old(name) && url == old(url) && connection == old(connection) && ready == old(ready)
      ensures !ready ==> r == Queued && putQueue == old(putQueue) + [messages]
      ensures !ready && connection != null ==> connection.Current() == old(connection.Current())
      ensures ready && elements(messages).Some? ==> r == Sent(SendBatchRequest(elements(messages).value, encode, uuid))
      ensures ready && elements(messages).None? ==> r == Threw
      ensures ready ==> putQueue == old(putQueue)
      ensures ready ==>
        connection.Current() == old(connection.Current()).(host := parseUrl(url).host, path := parseUrl(url).pathname)
    {
      if !ready {
        putQueue := putQueue + [messages];
        r := Queued;
      } else if elements(messages).Some? {
        var sent := SendMessageBatch(connection, parseUrl(url), elements(messages).value, encode, uuid);
        r := Sent(sent);
      } else {
        Aim(connection, parseUrl(url));
        r := Threw;
      }
    }

    /** `processPutQueue()`: nothing on an empty buffer; otherwise every
        value is sent in order and the buffer is emptied. */
    method ProcessPutQueue(parseUrl: string -> UrlParts, elements: M -> Option<seq<M>>, encode: M -> string, uuid: nat -> string)
      returns (sent: seq<Request>)
      requires connection != null
      modifies this, connection
      ensures id == old(id) && name == old(name) && url == old(url) && connection == old(connection) && ready == old(ready)
      ensures putQueue == []
      ensures sent == Drained(old(putQueue), elements, encode, uuid)
      ensures old(putQueue) == [] ==> connection.Current() == old(connection.Current())
      ensures old(putQueue) != [] ==>
        connection.Current() == old(connection.Current()).(host := parseUrl(url).host, path := parseUrl(url).pathname)
    {
      sent := [];
      if putQueue == [] {
        return;
      }
      var queued := putQueue;
      var c := connection;
      var u := parseUrl(url);
      ghost var before := c.Current();
      var index := 0;
      while index < |queued|
        invariant 0 <= index <= |queued|
        invariant sent == Drained(queued[..index], elements, encode, uuid)
        invariant unchanged(this)
        invariant index == 0 ==> c.Current() == before
        invariant index > 0 ==> c.Current() == before.(host := u.host, path := u.pathname)
      {
        var r := SendPending(c, u, queued[index], elements, encode, uuid);
        DrainedSnoc(queued, index, elements, encode, uuid);
        sent := sent + [r];
        index := index + 1;
      }
      assert queued[..|queued|] == queued;
      putQueue := [];
    }

    /** What `assemble` does once the queue is known: mark it ready and
        emit `ready`, whose listener drains the buffer. */
    method BecomeReady(parseUrl: string -> UrlParts, elements: M -> Option<seq<M>>, encode: M -> string, uuid: nat -> string)
      returns (sent: seq<Request>)
      requires connection != null
      modifies this, connection
      ensures Valid() && ready
      ensures id == old(id) && name == old(name) && url == old(url) && connection == old(connection)
      ensures putQueue == [] && sent == Drained(old(putQueue), elements, encode, uuid)
    {
      ready := true;
      sent := ProcessPutQueue(parseUrl, elements, encode, uuid);
    }

    /** `get(max, timeout)`: receives with defaults 1 and 0, which
        `receiveMessage` then replaces. */
    method Get(max: Val, timeout: Val, parseUrl: string -> UrlParts) returns (r: Request)
      requires connection != null
      modifies connection
      ensures connection.Current() == old(connection.Current()).(host := parseUrl(url).host, path := parseUrl(url).pathname)
      ensures r == Request("ReceiveMessage", ReceiveParams(Or(max, Num(1)), Or(timeout, Num(0))), "")
    {
      r := ReceiveMessage(connection, parseUrl(url), Or(max, Num(1)), Or(timeout, Num(0)));
    }

    /** `remove()`: deletes the queue by its URL and name. */
    method Remove(parseUrl: string -> UrlParts) returns (r: Request)
      requires connection != null
      modifies connection
      ensures connection.Current() == old(connection.Current()).(host := parseUrl(url).host, path := parseUrl(url).pathname)
      ensures r == Request("DeleteQueue", [("QueueName", Str(name))], "")
    {
      r := DeleteQueue(connection, parseUrl(url), Str(name));
    }

    /** `getDetails()`: the queue's attributes. */
    method GetDetails(parseUrl: string -> UrlParts) returns (r: Request)
      requires connection != null
      modifies connection
      ensures connection.Current() == old(connection.Current()).(host := parseUrl(url).host, path := parseUrl(url).pathname)
      ensures r == Request("GetQueueAttributes", [("AttributeName.1", Str("All"))], "")
    {
      r := GetQueueAttributes(connection, parseUrl(url));
    }
  }

  /** `Queue.fromUrl(url, connection)`: a queue named by the URL's account
      id and queue name; without a match `matches[1]` throws (`None`). */
  method FromUrl<M>(url: string, connection: Aws.Connection?) returns (q: Option<Queue<M>>)
    ensures FirstMatch(url, 0).None? ==> q.None?
    ensures FirstMatch(url, 0).Some? ==> q.Some? && fresh(q.value) && q.value.Valid()
    ensures FirstMatch(url, 0).Some? ==>
      q.value.id == FirstMatch(url, 0).value.0 && q.value.name == FirstMatch(url, 0).value.1
    ensures FirstMatch(url, 0).Some? ==> q.value.url == url && q.value.connection == connection
    ensures FirstMatch(url, 0).Some? ==> (q.value.ready <==> connection != null) && q.value.putQueue == []
  {
    var matches := FirstMatch(url, 0);
    if matches.None? {
      return None;
    }
    var queue := new Queue(matches.value.0, matches.value.1, url, connection);
    q := Some(queue);
  }

  /** A queue that is put to while not ready sends its values, in the
      order they were put, once it becomes ready; each goes out by its
      own runtime type, not by the method that queued it: an array given
      to `put` is sent as a batch, and a non-array given to `putBatch` as
      a single message. */
  method PutWhileNotReady<M>(q: Queue<M>, a: M, b: M, parseUrl: string -> UrlParts, elements: M -> Option<seq<M>>,
                             encode: M -> string, uuid: nat -> string)
    returns (sent: seq<Request>)
    requires q.Valid() && !q.ready && q.connection != null && q.putQueue == []
    modifies q, q.connection
    ensures q.ready && q.putQueue == []
    ensures |sent| == 2
    ensures sent[0] == if elements(a).Some? then SendBatchRequest(elements(a).value, encode, uuid) else SendRequest(a, Undef, encode)
    ensures sent[1] == if elements(b).Some? then SendBatchRequest(elements(b).value, encode, uuid) else SendRequest(b, Undef, encode)
  {
    var r1 := q.Put(a, parseUrl, encode);
    var r2 := q.PutBatch(b, parseUrl, elements, encode, uuid);
    assert q.putQueue == [a, b];
    sent := q.BecomeReady(parseUrl, elements, encode, uuid);
    DrainedSnoc([a, b], 0, elements, encode, uuid);
    DrainedSnoc([a, b], 1, elements, encode, uuid);
    assert [a, b][..2] == [a, b];
  }

  /** The timeout default of `get` is 0, but `receiveMessage` turns every
      falsy timeout into 30: a message fetched with `get` and no timeout
      is hidden for 30 seconds, never 0. */
  lemma GetTimeoutDefault(max: Val, timeout: Val)
    ensures Get(ReceiveParams(Or(max, Num(1)), Or(timeout, Num(0))), "VisibilityTimeout") ==
      Some(if Truthy(timeout) then timeout else Num(30))
    ensures Get(ReceiveParams(Or(max, Num(1)), Or(timeout, Num(0))), "MaxNumberOfMessages") ==
      Some(if Truthy(max) then max else Num(1))
  {
    ReceiveDefaults(Or(max, Num(1)), Or(timeout, Num(0)), "VisibilityTimeout");
    ReceiveDefaults(Or(max, Num(1)), Or(timeout, Num(0)), "MaxNumberOfMessages");
  }

  // ------------------------------------------------------ Message

  /** A received message: its queue, decoded body, id, receipt handle and
      body checksum. */
  datatype Message<M> = Message(queue: Queue<M>, body: M, id: Val, receipt: Val, md5: Val)

  /** `ack()`: deletes the message by its receipt handle. */
  method Ack<M>(m: Message<M>, parseUrl: string -> UrlParts) returns (r: Request)
    requires m.queue.connection != null
    modifies m.queue.connection
    ensures m.queue.connection.Current() ==
      old(m.queue.connection.Current()).(host := parseUrl(m.queue.url).host, path := parseUrl(m.queue.url).pathname)
    ensures r == Request("DeleteMessage", PutIf([], "ReceiptHandle", m.receipt), "")
  {
    r := DeleteMessage(m.queue.connection, parseUrl(m.queue.url), m.receipt);
  }

  /** `extend(timeout)`: changes the message's visibility timeout. */
  method Extend<M>(m: Message<M>, timeout: Val, parseUrl: string -> UrlParts) returns (r: Request)
    requires m.queue.connection != null
    modifies m.queue.connection
    ensures m.queue.connection.Current() ==
      old(m.queue.connection.Current()).(host := parseUrl(m.queue.url).host, path := parseUrl(m.queue.url).pathname)
    ensures r == Request("ChangeMessageVisibility", VisibilityParams(m.receipt, timeout), "")
  {
    r := ChangeMessageVisibility(m.queue.connection, parseUrl(m.queue.url), m.receipt, timeout);
  }

  /** `retry()`: makes the message visible again at once, with a
      visibility timeout of 0 sent as such. */
  method Retry<M>(m: Message<M>, parseUrl: string -> UrlParts) returns (r: Request)
    requires m.queue.connection != null
    modifies m.queue.connection
    ensures m.queue.connection.Current() ==
      old(m.queue.connection.Current()).(host := parseUrl(m.queue.url).host, path := parseUrl(m.queue.url).pathname)
    ensures r.action == "ChangeMessageVisibility"
    ensures Get(r.params, "VisibilityTimeout") == Some(Num(0)) && Get(r.params, "ReceiptHandle") == Some(m.receipt)
  {
    r := Extend(m, Num(0), parseUrl);
    VisibilityTimeoutAsGiven(m.receipt, Num(0));
  }
}
