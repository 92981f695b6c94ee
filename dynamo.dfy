/** The DynamoDB client of lib/services/dynamo.js: the `ready` gate in
    front of every action and the consumed-capacity statistic its
    response handler derives from a response. */
module Dynamo {
  import opened Base
  import Aws

  /** An action the client sends: its name and its JSON body, by the
      top-level fields of the body. */
  datatype Call = Call(action: string, data: Dict<Val>)

  /** The parts of a response the handler reads: the top-level
      `ConsumedCapacityUnits`, and `Responses` (`None` when absent) as
      each table's `ConsumedCapacityUnits`, in key order. */
  datatype Response = Response(consumedCapacityUnits: Val, responses: Option<Dict<Val>>)

  /** A DynamoDB client: a connection to the us-east-1 endpoint (API
      version 2012-08-10) with a queue of actions held back while it is
      not ready. */
  class Client {
    const connection: Aws.Connection
    var ready: bool
    var actionQueue: seq<Call>

    /** `new Dynamo(key, secret)`: ready at once, nothing queued. */
    constructor (key: string, secret: string)
      ensures fresh(connection)
      ensures connection.Current() == Aws.Settings(key, secret, "dynamodb.us-east-1.amazonaws.com", "2012-08-10", true, "/")
      ensures ready && actionQueue == []
    {
      connection := new Aws.Connection(key, secret, "dynamodb.us-east-1.amazonaws.com", "2012-08-10");
      ready := true;
      actionQueue := [];
    }

    /** `action(action, data)`: while not ready the call is queued and
        nothing is sent; once ready it is sent as it is. */
    method Action(action: string, data: Dict<Val>) returns (sent: Option<Call>)
      modifies this
      ensures ready == old(ready)
      ensures !ready ==> sent.None? && actionQueue == old(actionQueue) + [Call(action, data)]
      ensures ready ==> sent == Some(Call(action, data)) && actionQueue == old(actionQueue)
    {
      if !ready {
        actionQueue := actionQueue + [Call(action, data)];
        return None;
      }
      sent := Some(Call(action, data));
    }
  }

  /** A freshly made client sends every action at once and never
      queues one. */
  method ActionOnNewClient(key: string, secret: string, action: string, data: Dict<Val>) returns (sent: Option<Call>)
    ensures sent == Some(Call(action, data))
  {
    var c := new Client(key, secret);
    sent := c.Action(action, data);
    assert c.actionQueue == [];
  }

  /** `data.TableName`. */
  function TableName(data: Dict<Val>): Val {
    match Get(data, "TableName")
    case Some(v) => v
    case None => Undef
  }

  /** The `consumed` object of the `stat` event, or `None` when no event
      is emitted: one entry for the request's table when the response
      carries a truthy `ConsumedCapacityUnits`, otherwise one per table
      of `Responses`. */
  function ConsumedStat(res: Response, data: Dict<Val>): Option<Dict<Val>> {
    if Truthy(res.consumedCapacityUnits) then Some([(KeyText(TableName(data)), res.consumedCapacityUnits)])
    else if res.responses.Some? then Some(PutAll([], res.responses.value))
    else None
  }

  /** The `end` handler: the statistic it emits and the response it
      passes on. */
  method End(res: Response, data: Dict<Val>) returns (stat: Option<Dict<Val>>, out: Response)
    ensures stat == ConsumedStat(res, data)
    ensures out == res
  {
    var consumed: Dict<Val> := [];
    if Truthy(res.consumedCapacityUnits) {
      consumed := Put(consumed, KeyText(TableName(data)), res.consumedCapacityUnits);
      stat := Some(consumed);
    } else if res.responses.Some? {
      var tables := res.responses.value;
      var i := 0;
      while i < |tables|
        invariant 0 <= i <= |tables|
        invariant consumed == PutAll([], tables[..i])
      {
        PutAllSnoc([], tables, i);
        consumed := Put(consumed, tables[i].0, tables[i].1);
        i := i + 1;
      }
      assert tables[..|tables|] == tables;
      stat := Some(consumed);
    } else {
      stat := None;
    }
    out := res;
  }

  /** A truthy `ConsumedCapacityUnits` is reported against the request's
      table alone. */
  lemma SingleTableStat(res: Response, data: Dict<Val>)
    requires Truthy(res.consumedCapacityUnits)
    ensures ConsumedStat(res, data).Some?
    ensures Keys(ConsumedStat(res, data).value) == [KeyText(TableName(data))]
    ensures Get(ConsumedStat(res, data).value, KeyText(TableName(data))) == Some(res.consumedCapacityUnits)
  {
    GetCons(KeyText(TableName(data)), res.consumedCapacityUnits, [], KeyText(TableName(data)));
  }

  /** Copying the entries of an object with distinct keys into an empty
      one reproduces it entry for entry. */
  lemma {:induction false} PutAllIntoEmpty(src: Dict<Val>, i: nat)
    requires UniqueKeys(src) && i <= |src|
    ensures PutAll([], src[..i]) == src[..i]
    decreases i
  {
    if i > 0 {
      PutAllIntoEmpty(src, i - 1);
      PutAllSnoc([], src, i - 1);
      assert src[i - 1].0 !in Keys(src[..i - 1]);
      PutShape(src[..i - 1], src[i - 1].0, src[i - 1].1);
      assert src[..i - 1] + [src[i - 1]] == src[..i];
    }
  }

  /** Otherwise, with `Responses`, the statistic has exactly one entry per
      table, holding that table's consumed units, in the same order. */
  lemma PerTableStat(res: Response, data: Dict<Val>)
    requires !Truthy(res.consumedCapacityUnits) && res.responses.Some?
    requires UniqueKeys(res.responses.value)
    ensures ConsumedStat(res, data) == Some(res.responses.value)
  {
    var tables := res.responses.value;
    PutAllIntoEmpty(tables, |tables|);
    assert tables[..|tables|] == tables;
  }

  /** With neither a truthy total nor `Responses`, including a total of
      zero, no statistic is emitted. */
  lemma NoStat(res: Response, data: Dict<Val>)
    ensures ConsumedStat(res, data).None? <==> !Truthy(res.consumedCapacityUnits) && res.responses.None?
  {
  }
}
