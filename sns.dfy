/** The SNS client of lib/services/sns.js: the parameter objects its calls
    send, the searches over listed topics and subscriptions, the `Topic`
    object that queues calls until it knows its ARN, and the checks its
    notification middleware makes on incoming requests. */
module Sns {
  import opened Base
  import opened Params
  import Aws

  /** `new SNS(key, secret)`: a query connection to the us-east-1 endpoint,
      API version 2010-03-31. */
  method NewSns(key: string, secret: string) returns (c: Aws.Connection)
    ensures fresh(c)
    ensures c.Current() == Aws.Settings(key, secret, "sns.us-east-1.amazonaws.com", "2010-03-31", true, "/")
  {
    c := new Aws.Connection(key, secret, "sns.us-east-1.amazonaws.com", "2010-03-31");
  }

  /** An action with the parameters it is sent with. */
  datatype Action = Action(name: string, params: Dict<Val>)

  // ------------------------------------------------------ parameter objects

  /** `publish(arn, message, subject, multi)`; `multi` is the truthiness
      of the argument. */
  function PublishAction(arn: Val, message: Val, subject: Val, multi: bool): Action {
    var params := PutIf([("Message", message), ("TopicArn", arn)], "Subject", subject);
    Action("Publish", if multi then Put(params, "MessageStructure", Str("json")) else params)
  }

  /** The message and topic are always sent, the subject only when it is
      truthy and `MessageStructure=json` only for a multi-format message;
      nothing else is sent. */
  lemma PublishParams(arn: Val, message: Val, subject: Val, multi: bool, k: string)
    ensures Get(PublishAction(arn, message, subject, multi).params, k) ==
      if k == "Message" then Some(message)
      else if k == "TopicArn" then Some(arn)
      else if k == "Subject" then IfTruthy(subject)
      else if k == "MessageStructure" then (if multi then Some(Str("json")) else None)
      else None
  {
    var base: Dict<Val> := [("Message", message), ("TopicArn", arn)];
    var params := PutIf(base, "Subject", subject);
    GetCons("Message", message, [("TopicArn", arn)], k);
    GetCons("TopicArn", arn, [], k);
    PutIfGet(base, "Subject", subject, k);
    if multi {
      GetPut(params, "MessageStructure", Str("json"), k);
    }
  }

  /** `confirmSubscription(arn, token, authOnUnsub)`; `authOnUnsub` is the
      truthiness of the argument. */
  function ConfirmSubscription(arn: Val, token: Val, authOnUnsub: bool): Action {
    Action("ConfirmSubscription",
      [("Token", token), ("TopicArn", arn), ("AuthenticateOnUnSubscribe", Str(if authOnUnsub then "true" else "false"))])
  }

  /** The flag is sent as the text `'true'` or `'false'`. */
  lemma ConfirmSubscriptionFlag(arn: Val, token: Val, authOnUnsub: bool)
    ensures Get(ConfirmSubscription(arn, token, authOnUnsub).params, "AuthenticateOnUnSubscribe") ==
      Some(Str(if authOnUnsub then "true" else "false"))
    ensures Get(ConfirmSubscription(arn, token, authOnUnsub).params, "Token") == Some(token)
    ensures Get(ConfirmSubscription(arn, token, authOnUnsub).params, "TopicArn") == Some(arn)
  {
    var flag := Str(if authOnUnsub then "true" else "false");
    var tail: Dict<Val> := [("AuthenticateOnUnSubscribe", flag)];
    GetCons("Token", token, [("TopicArn", arn)] + tail, "AuthenticateOnUnSubscribe");
    GetCons("TopicArn", arn, tail, "AuthenticateOnUnSubscribe");
    GetCons("AuthenticateOnUnSubscribe", flag, [], "AuthenticateOnUnSubscribe");
    GetCons("Token", token, [("TopicArn", arn)] + tail, "TopicArn");
    GetCons("TopicArn", arn, tail, "TopicArn");
  }

  /** `subscribe(arn, protocol, endpoint)`. */
  function SubscribeAction(arn: Val, protocol: Val, endpoint: Val): Action {
    Action("Subscribe", [("TopicArn", arn), ("Protocol", protocol), ("Endpoint", endpoint)])
  }

  /** `unsubscribe(subscriptionArn)`. */
  function UnsubscribeAction(subscriptionArn: Val): Action {
    Action("Unsubscribe", [("SubscriptionArn", subscriptionArn)])
  }

  /** `listTopics(nextToken)` and `listSubscriptions(nextToken)`: the token
      only when truthy. */
  function Listing(name: string, nextToken: Val): Action {
    Action(name, PutIf([], "NextToken", nextToken))
  }

  /** `listSubscriptionsByTopic(arn, nextToken)`. */
  function ListSubscriptionsByTopic(arn: Val, nextToken: Val): Action {
    Action("ListSubscriptionsByTopic", PutIf([("TopicArn", arn)], "NextToken", nextToken))
  }

  /** A listing sends the continuation token exactly when it is truthy,
      after the topic for a listing by topic. */
  lemma ListingToken(arn: Val, nextToken: Val, k: string)
    ensures Get(Listing("ListTopics", nextToken).params, k) == if k == "NextToken" then IfTruthy(nextToken) else None
    ensures Get(ListSubscriptionsByTopic(arn, nextToken).params, k) ==
      if k == "TopicArn" then Some(arn) else if k == "NextToken" then IfTruthy(nextToken) else None
  {
    PutIfGet([], "NextToken", nextToken, k);
    PutIfGet([("TopicArn", arn)], "NextToken", nextToken, k);
    GetCons("TopicArn", arn, [], k);
  }

  // ------------------------------------------------------ listed results

  /** A listed subscription, by the two fields the client reads. */
  datatype Subscription = Subscription(endpoint: Val, subscriptionArn: Val)

  /** A settled promise: resolved with a value or rejected with an error. */
  datatype Outcome<T> = Resolved(value: T) | Rejected(message: string)

  /** The first index whose element passes `p`. */
  function FirstIndex<T>(xs: seq<T>, p: T -> bool): (r: Option<nat>)
    ensures r.Some? ==> r.value < |xs| && p(xs[r.value]) && forall j :: 0 <= j < r.value ==> !p(xs[j])
    ensures r.None? ==> forall j :: 0 <= j < |xs| ==> !p(xs[j])
    decreases |xs|
  {
    if xs == [] then None
    else if p(xs[0]) then Some(0)
    else
      var r := FirstIndex(xs[1..], p);
      if r.Some? then Some(r.value + 1) else None
  }

  // ------------------------------------------------------ topicFromArn

  /** The topic name of an ARN: its last `:`-separated segment. */
  function TopicName(arn: string): (name: string)
    ensures ':' !in name
  {
    var p := Split(arn, ':');
    p[|p| - 1]
  }

  lemma {:induction false} JoinSnoc(parts: seq<string>, sep: string, last: string)
    requires |parts| >= 1
    ensures Join(parts + [last], sep) == Join(parts, sep) + sep + last
    decreases |parts|
  {
    if |parts| == 1 {
      assert (parts + [last])[1..] == [last];
    } else {
      assert (parts + [last])[1..] == parts[1..] + [last];
      JoinSnoc(parts[1..], sep, last);
    }
  }

  /** The name is what follows the last `:` of the ARN, or the whole
      ARN when it has no `:`. */
  lemma TopicNameAfterColon(prefix: string, name: string)
    requires ':' !in name
    ensures TopicName(prefix + ":" + name) == name
    ensures TopicName(name) == name
  {
    var parts := Split(prefix, ':');
    JoinSplit(prefix, ':');
    JoinSnoc(parts, [':'], name);
    assert prefix + ":" + name == Join(parts + [name], [':']);
    assert forall i :: 0 <= i < |parts + [name]| ==> ':' !in (parts + [name])[i];
    SplitJoin(parts + [name], ':');
    SplitWithout(name, ':');
  }

  /** The ARN ends with the name, right after a `:` when there is one. */
  lemma TopicNameSuffix(arn: string)
    ensures |TopicName(arn)| <= |arn| && arn[|arn| - |TopicName(arn)|..] == TopicName(arn)
    ensures |TopicName(arn)| < |arn| ==> arn[|arn| - |TopicName(arn)| - 1] == ':'
  {
    var p := Split(arn, ':');
    var name := p[|p| - 1];
    JoinSplit(arn, ':');
    if |p| == 1 {
      assert arn == name;
    } else {
      var init := p[..|p| - 1];
      assert p == init + [name];
      JoinSnoc(init, [':'], name);
      assert arn == Join(init, [':']) + [':'] + name;
    }
  }

  // ------------------------------------------------------ Topic

  /** What `subscribe` and `unsubscribe` queue: the method and its
      arguments (the deferred queued with them is not modelled). */
  datatype TopicCall = SubscribeCall(protocol: Val, endpoint: Val, authOnUnsub: bool) | UnsubscribeCall(subscriptionArn: Val)

  /** One of the three elements `publish`, `confirm` and `getSubscriptions`
      push one by one: the deferred, the method name, the argument array. */
  datatype Part = DeferredPart | NamePart(name: string) | ArgsPart

  /** An element of `callQueue`. */
  datatype Entry = Queued(call: TopicCall) | Loose(part: Part)

  /** A published message: a value, or an object sent as its JSON text. */
  datatype Payload = Scalar(v: Val) | Object(fields: Dict<Val>)

  /** The ARN as the topic passes it on; a topic without one has `null`. */
  function ArnVal(arn: Option<string>): Val {
    if arn.Some? then Str(arn.value) else Undef
  }

  /** What a queued call does once the topic is ready. */
  function CallAction(arn: Option<string>, call: TopicCall): Action {
    match call
    case SubscribeCall(protocol, endpoint, _) => SubscribeAction(ArnVal(arn), protocol, endpoint)
    case UnsubscribeCall(subscriptionArn) => UnsubscribeAction(subscriptionArn)
  }

  /** How `processCallQueue` ends: after the last element, at an element
      it cannot replay (a TypeError), or with its step bound used up. */
  datatype Replay = Completed | Threw(index: nat) | Unfinished

  /** `processCallQueue` from element i with at most `fuel` more steps:
      the outcome, the queue afterwards and the actions sent. A queued
      call replayed while not ready queues itself again at the end,
      since `ready` is set only after the loop. An element that is not
      a triple has no method at position 1, so calling it throws. */
  function ReplayFrom(arn: Option<string>, ready: bool, q: seq<Entry>, i: nat, fuel: nat, sent: seq<Action>)
    : (Replay, seq<Entry>, seq<Action>)
    decreases fuel
  {
    if i >= |q| then (Completed, q, sent)
    else if fuel == 0 then (Unfinished, q, sent)
    else match q[i]
      case Loose(_) => (Threw(i), q, sent)
      case Queued(call) =>
        if ready then ReplayFrom(arn, ready, q, i + 1, fuel - 1, sent + [CallAction(arn, call)])
        else ReplayFrom(arn, ready, q + [q[i]], i + 1, fuel - 1, sent)
  }

  /** The queue is made of whole triples and of the three loose elements
      the other methods push, in order. */
  predicate Grouped(q: seq<Entry>)
    decreases |q|
  {
    if q == [] then true
    else if q[0].Queued? then Grouped(q[1..])
    else
      |q| >= 3 && q[0] == Loose(DeferredPart) && q[1].Loose? && q[1].part.NamePart? && q[2] == Loose(ArgsPart) &&
      Grouped(q[3..])
  }

  /** A topic of lib/services/sns.js. */
  class Topic {
    var arn: Option<string>
    var name: string
    var ready: bool
    var callQueue: seq<Entry>

    /** `new Topic(arn, displayName, connection)`: ready exactly when it was
        given an ARN; nothing is queued. */
    constructor (arn: Option<string>, displayName: string)
      ensures this.arn == arn && name == displayName && callQueue == []
      ensures ready <==> Present(arn)
    {
      this.arn, name, callQueue := arn, displayName, [];
      ready := Present(arn);
    }

    /** `subscribe(protocol, endpoint, authOnUnsub)`. */
    method Subscribe(protocol: Val, endpoint: Val, authOnUnsub: bool) returns (r: Option<Action>)
      modifies this
      ensures Grouped(old(callQueue)) ==> Grouped(callQueue)
      ensures arn == old(arn) && name == old(name) && ready == old(ready)
      ensures !ready ==> r.None? && callQueue == old(callQueue) + [Queued(SubscribeCall(protocol, endpoint, authOnUnsub))]
      ensures ready ==> r == Some(SubscribeAction(ArnVal(arn), protocol, endpoint)) && callQueue == old(callQueue)
    {
      if !ready {
        GroupedSingle(Queued(SubscribeCall(protocol, endpoint, authOnUnsub)));
        if Grouped(callQueue) { GroupedAppend(callQueue, [Queued(SubscribeCall(protocol, endpoint, authOnUnsub))]); }
        callQueue := callQueue + [Queued(SubscribeCall(protocol, endpoint, authOnUnsub))];
        return None;
      }
      r := Some(SubscribeAction(ArnVal(arn), protocol, endpoint));
    }

    /** `unsubscribe(subscriptionArn)`. */
    method Unsubscribe(subscriptionArn: Val) returns (r: Option<Action>)
      modifies this
      ensures Grouped(old(callQueue)) ==> Grouped(callQueue)
      ensures arn == old(arn) && name == old(name) && ready == old(ready)
      ensures !ready ==> r.None? && callQueue == old(callQueue) + [Queued(UnsubscribeCall(subscriptionArn))]
      ensures ready ==> r == Some(UnsubscribeAction(subscriptionArn)) && callQueue == old(callQueue)
    {
      if !ready {
        GroupedSingle(Queued(UnsubscribeCall(subscriptionArn)));
        if Grouped(callQueue) { GroupedAppend(callQueue, [Queued(UnsubscribeCall(subscriptionArn))]); }
        callQueue := callQueue + [Queued(UnsubscribeCall(subscriptionArn))];
        return None;
      }
      r := Some(UnsubscribeAction(subscriptionArn));
    }

    /** `publish(message, subject, multi)`: while not ready, three loose
        elements are pushed instead of one triple. */
    method Publish(message: Payload, subject: Val, multi: bool, stringify: Dict<Val> -> string) returns (r: Option<Action>)
      modifies this
      ensures Grouped(old(callQueue)) ==> Grouped(callQueue)
      ensures arn == old(arn) && name == old(name) && ready == old(ready)
      ensures !ready ==> r.None? && callQueue == old(callQueue) + [Loose(DeferredPart), Loose(NamePart("publish")), Loose(ArgsPart)]
      ensures ready ==> callQueue == old(callQueue)
      ensures ready ==>
        r == Some(PublishAction(ArnVal(arn), match message case Scalar(v) => v case Object(o) => Str(stringify(o)), subject, multi))
    {
      if !ready {
        GroupedTriple("publish");
        if Grouped(callQueue) { GroupedAppend(callQueue, [Loose(DeferredPart), Loose(NamePart("publish")), Loose(ArgsPart)]); }
        callQueue := callQueue + [Loose(DeferredPart), Loose(NamePart("publish")), Loose(ArgsPart)];
        return None;
      }
      var text := match message case Scalar(v) => v case Object(o) => Str(stringify(o));
      r := Some(PublishAction(ArnVal(arn), text, subject, multi));
    }

    /** `confirm(token, authOnUnsub)`: loose elements while not ready. */
    method Confirm(token: Val, authOnUnsub: bool) returns (r: Option<Action>)
      modifies this
      ensures Grouped(old(callQueue)) ==> Grouped(callQueue)
      ensures arn == old(arn) && name == old(name) && ready == old(ready)
      ensures !ready ==> r.None? && callQueue == old(callQueue) + [Loose(DeferredPart), Loose(NamePart("confirm")), Loose(ArgsPart)]
      ensures ready ==> r == Some(ConfirmSubscription(ArnVal(arn), token, authOnUnsub)) && callQueue == old(callQueue)
    {
      if !ready {
        GroupedTriple("confirm");
        if Grouped(callQueue) { GroupedAppend(callQueue, [Loose(DeferredPart), Loose(NamePart("confirm")), Loose(ArgsPart)]); }
        callQueue := callQueue + [Loose(DeferredPart), Loose(NamePart("confirm")), Loose(ArgsPart)];
        return None;
      }
      r := Some(ConfirmSubscription(ArnVal(arn), token, authOnUnsub));
    }

    /** `getSubscriptions()`: loose elements while not ready. */
    method GetSubscriptions() returns (r: Option<Action>)
      modifies this
      ensures Grouped(old(callQueue)) ==> Grouped(callQueue)
      ensures arn == old(arn) && name == old(name) && ready == old(ready)
      ensures !ready ==> r.None?
      ensures !ready ==>
        callQueue == old(callQueue) + [Loose(DeferredPart), Loose(NamePart("listSubscriptionsByTopic")), Loose(ArgsPart)]
      ensures ready ==> r == Some(ListSubscriptionsByTopic(ArnVal(arn), Undef)) && callQueue == old(callQueue)
    {
      if !ready {
        GroupedTriple("listSubscriptionsByTopic");
        if Grouped(callQueue) { GroupedAppend(callQueue, [Loose(DeferredPart), Loose(NamePart("listSubscriptionsByTopic")), Loose(ArgsPart)]); }
        callQueue := callQueue + [Loose(DeferredPart), Loose(NamePart("listSubscriptionsByTopic")), Loose(ArgsPart)];
        return None;
      }
      r := Some(ListSubscriptionsByTopic(ArnVal(arn), Undef));
    }

    /** `processCallQueue()` with a bound of `fuel` steps: replays the
        queue in index order and sets `ready` only when the loop ends. */
    method ProcessCallQueue(fuel: nat) returns (outcome: Replay, sent: seq<Action>)
      modifies this
      ensures arn == old(arn) && name == old(name)
      ensures (outcome, callQueue, sent) == ReplayFrom(arn, old(ready), old(callQueue), 0, fuel, [])
      ensures ready == (old(ready) || outcome == Completed)
    {
      ghost var ready0 := ready;
      sent := [];
      var i := 0;
      var steps := 0;
      while i < |callQueue|
        invariant steps <= fuel && arn == old(arn) && name == old(name) && ready == ready0
        invariant ReplayFrom(arn, ready, callQueue, i, fuel - steps, sent) == ReplayFrom(arn, ready0, old(callQueue), 0, fuel, [])
        decreases fuel - steps
      {
        if steps == fuel {
          return Unfinished, sent;
        }
        match callQueue[i]
        case Loose(_) =>
          return Threw(i), sent;
        case Queued(call) =>
          var r := ReplayCall(call);
          if r.Some? {
            sent := sent + [r.value];
          }
        i := i + 1;
        steps := steps + 1;
      }
      ready := true;
      outcome := Completed;
    }

    /** The `ready` event once `SNS.Topic(name)` has learnt the ARN: the
        ARN is stored, then `processCallQueue()` runs. */
    method ArnKnown(newArn: string, fuel: nat) returns (outcome: Replay, sent: seq<Action>)
      modifies this
      ensures arn == Some(newArn) && name == old(name)
      ensures (outcome, callQueue, sent) == ReplayFrom(Some(newArn), old(ready), old(callQueue), 0, fuel, [])
      ensures ready == (old(ready) || outcome == Completed)
    {
      arn := Some(newArn);
      outcome, sent := ProcessCallQueue(fuel);
    }

    /** `processCallQueue()` as evidently intended: `ready` is set before
        the replay, so replayed calls go to the connection. */
    method ProcessCallQueueReadyFirst(fuel: nat) returns (outcome: Replay, sent: seq<Action>)
      modifies this
      ensures arn == old(arn) && name == old(name) && ready
      ensures (outcome, callQueue, sent) == ReplayFrom(arn, true, old(callQueue), 0, fuel, [])
    {
      ready := true;
      outcome, sent := ProcessCallQueue(fuel);
    }

    /** `this[method].apply(this, args)` for a queued triple. */
    method ReplayCall(call: TopicCall) returns (r: Option<Action>)
      modifies this
      ensures arn == old(arn) && name == old(name) && ready == old(ready)
      ensures !ready ==> r.None? && callQueue == old(callQueue) + [Queued(call)]
      ensures ready ==> r == Some(CallAction(arn, call)) && callQueue == old(callQueue)
    {
      match call
      case SubscribeCall(protocol, endpoint, authOnUnsub) =>
        r := Subscribe(protocol, endpoint, authOnUnsub);
      case UnsubscribeCall(subscriptionArn) =>
        r := Unsubscribe(subscriptionArn);
    }
  }

  /** `topicFromArn(arn)`: a ready topic named after the ARN's last segment. */
  method TopicFromArn(arn: string) returns (t: Topic)
    ensures fresh(t)
    ensures t.arn == Some(arn) && t.name == TopicName(arn) && t.callQueue == []
    ensures t.ready <==> arn != ""
  {
    t := new Topic(Some(arn), TopicName(arn));
  }

  // ------------------------------------------------------ replay properties

  /** An empty queue replays at once and the topic becomes ready. */
  lemma ReplayEmpty(arn: Option<string>, ready: bool, fuel: nat)
    ensures ReplayFrom(arn, ready, [], 0, fuel, []) == (Completed, [], [])
  {
  }

  /** Every element of the queue is a whole triple. */
  predicate AllQueued(q: seq<Entry>) {
    forall j :: 0 <= j < |q| ==> q[j].Queued?
  }

  /** While not ready, a queue of triples never finishes: every replay
      queues the call again, so each step adds one more triple and
      nothing is sent, for as many steps as allowed. */
  lemma {:induction false} ReplayRepeats(arn: Option<string>, q: seq<Entry>, i: nat, fuel: nat)
    requires i < |q| && AllQueued(q)
    ensures ReplayFrom(arn, false, q, i, fuel, []).0 == Unfinished
    ensures |ReplayFrom(arn, false, q, i, fuel, []).1| == |q| + fuel
    ensures AllQueued(ReplayFrom(arn, false, q, i, fuel, []).1)
    ensures ReplayFrom(arn, false, q, i, fuel, []).2 == []
    decreases fuel
  {
    if fuel > 0 {
      assert q[i].Queued?;
      var q1 := q + [q[i]];
      assert AllQueued(q1) by {
        assert forall j :: 0 <= j < |q1| ==> q1[j] == (if j < |q| then q[j] else q[i]);
      }
      ReplayRepeats(arn, q1, i + 1, fuel - 1);
    }
  }

  /** Hence a topic that was not ready and had only queued triples is
      still not ready after any number of replay steps, its queue has
      grown by one triple per step and nothing was sent. */
  lemma ReplayNeverCompletes(arn: Option<string>, q: seq<Entry>, fuel: nat)
    requires q != [] && AllQueued(q)
    ensures ReplayFrom(arn, false, q, 0, fuel, []).0 == Unfinished
    ensures |ReplayFrom(arn, false, q, 0, fuel, []).1| == |q| + fuel
    ensures ReplayFrom(arn, false, q, 0, fuel, []).2 == []
  {
    ReplayRepeats(arn, q, 0, fuel);
  }

  /** The actions of a queue of triples, in queue order. */
  function Calls(arn: Option<string>, q: seq<Entry>): (r: seq<Action>)
    requires AllQueued(q)
    ensures |r| == |q|
  {
    seq(|q|, i requires 0 <= i < |q| => CallAction(arn, q[i].call))
  }

  lemma {:induction false} ReplayReadyFrom(arn: Option<string>, q: seq<Entry>, i: nat, fuel: nat)
    requires AllQueued(q) && i <= |q| && fuel >= |q| - i
    ensures ReplayFrom(arn, true, q, i, fuel, Calls(arn, q)[..i]) == (Completed, q, Calls(arn, q))
    decreases |q| - i
  {
    if i < |q| {
      assert Calls(arn, q)[..i] + [CallAction(arn, q[i].call)] == Calls(arn, q)[..i + 1];
      ReplayReadyFrom(arn, q, i + 1, fuel - 1);
    } else {
      assert Calls(arn, q)[..i] == Calls(arn, q);
    }
  }

  /** With `ready` set first, a queue of triples is replayed in one pass:
      every queued call is sent, in order, and the queue does not grow. */
  lemma ReplayReadyFirstSendsAll(arn: Option<string>, q: seq<Entry>, fuel: nat)
    requires AllQueued(q) && fuel >= |q|
    ensures ReplayFrom(arn, true, q, 0, fuel, []) == (Completed, q, Calls(arn, q))
  {
    assert Calls(arn, q)[..0] == [];
    ReplayReadyFrom(arn, q, 0, fuel);
  }

  /** `sns.Topic(name)`, then `subscribe` before the ARN has come back:
      once it has, the replay queues the subscription again at every
      step and the topic never becomes ready. */
  method SubscribeBeforeArn(name: string, arn: string, protocol: Val, endpoint: Val, fuel: nat) returns (t: Topic, outcome: Replay)
    ensures outcome == Unfinished && !t.ready && |t.callQueue| == 1 + fuel
  {
    t := new Topic(None, name);
    var r := t.Subscribe(protocol, endpoint, false);
    var sent;
    ReplayNeverCompletes(Some(arn), t.callQueue, fuel);
    outcome, sent := t.ArnKnown(arn, fuel);
  }

  /** `sns.Topic(name)`, then `publish` before the ARN has come back:
      the replay reaches the loose deferred first and throws, leaving the
      topic not ready and the message unsent. */
  method PublishBeforeArn(name: string, arn: string, message: Payload, subject: Val, stringify: Dict<Val> -> string, fuel: nat)
    returns (t: Topic, outcome: Replay, sent: seq<Action>)
    requires fuel >= 1
    ensures outcome == Threw(0) && !t.ready && sent == []
    ensures |t.callQueue| == 3 && t.callQueue[0] == Loose(DeferredPart)
  {
    t := new Topic(None, name);
    var r := t.Publish(message, subject, false, stringify);
    ReplayThrows(Some(arn), t.callQueue, 0, fuel);
    outcome, sent := t.ArnKnown(arn, fuel);
  }

  /** The same calls with `ready` set before the replay: the
      subscription is sent once and the topic becomes ready. */
  method SubscribeBeforeArnReadyFirst(name: string, arn: string, protocol: Val, endpoint: Val) returns (t: Topic, sent: seq<Action>)
    ensures t.ready && sent == [SubscribeAction(Str(arn), protocol, endpoint)]
  {
    t := new Topic(None, name);
    var r := t.Subscribe(protocol, endpoint, false);
    t.arn := Some(arn);
    ReplayReadyFirstSendsAll(Some(arn), t.callQueue, 1);
    var outcome;
    outcome, sent := t.ProcessCallQueueReadyFirst(1);
  }

  /** While not ready, the replay throws at the first element that is
      not a triple, after queuing again every triple before it. */
  lemma {:induction false} ReplayThrowsFrom(arn: Option<string>, q: seq<Entry>, j: nat, i: nat, fuel: nat)
    requires j < |q| && q[j].Loose? && forall m :: 0 <= m < j ==> q[m].Queued?
    requires i <= j
    ensures ReplayFrom(arn, false, q + q[..i], i, fuel, []) ==
      if fuel > j - i then (Threw(j), q + q[..j], []) else (Unfinished, q + q[..i + fuel], [])
    decreases fuel
  {
    var cur := q + q[..i];
    if fuel > 0 && i < j {
      assert cur[i] == q[i];
      assert cur + [cur[i]] == q + q[..i + 1];
      ReplayThrowsFrom(arn, q, j, i + 1, fuel - 1);
    } else if fuel > 0 {
      assert cur[j] == q[j];
    }
  }

  lemma ReplayThrows(arn: Option<string>, q: seq<Entry>, j: nat, fuel: nat)
    requires j < |q| && q[j].Loose? && forall m :: 0 <= m < j ==> q[m].Queued?
    requires fuel > j
    ensures ReplayFrom(arn, false, q, 0, fuel, []) == (Threw(j), q + q[..j], [])
  {
    assert q + q[..0] == q;
    ReplayThrowsFrom(arn, q, j, 0, fuel);
  }

  /** In a queue made of whole groups, the first element that is not a
      triple is a deferred, whose missing method is what throws. */
  lemma {:induction false} GroupedFirstLoose(q: seq<Entry>, j: nat)
    requires Grouped(q) && j < |q| && q[j].Loose? && forall m :: 0 <= m < j ==> q[m].Queued?
    ensures q[j] == Loose(DeferredPart)
    decreases |q|
  {
    if j > 0 {
      assert q[1..][j - 1] == q[j];
      GroupedFirstLoose(q[1..], j - 1);
    }
  }

  /** What `subscribe` and `unsubscribe` push is a group on its own. */
  lemma GroupedSingle(e: Entry)
    requires e.Queued?
    ensures Grouped([e])
  {
    assert [e][1..] == [];
  }

  /** So are the three elements `publish`, `confirm` and
      `getSubscriptions` push. */
  lemma GroupedTriple(name: string)
    ensures Grouped([Loose(DeferredPart), Loose(NamePart(name)), Loose(ArgsPart)])
  {
    assert [Loose(DeferredPart), Loose(NamePart(name)), Loose(ArgsPart)][3..] == [];
  }

  /** Every method keeps the queue grouped. */
  lemma {:induction false} GroupedAppend(q: seq<Entry>, more: seq<Entry>)
    requires Grouped(q) && Grouped(more)
    ensures Grouped(q + more)
    decreases |q|
  {
    if q == [] {
      assert q + more == more;
    } else if q[0].Queued? {
      assert (q + more)[1..] == q[1..] + more;
      GroupedAppend(q[1..], more);
    } else {
      assert (q + more)[3..] == q[3..] + more;
      GroupedAppend(q[3..], more);
    }
  }

  /** The queue is never cleared: what was queued is still at the front. */
  lemma {:induction false} ReplayKeepsQueue(arn: Option<string>, ready: bool, q: seq<Entry>, i: nat, fuel: nat, sent: seq<Action>)
    ensures |ReplayFrom(arn, ready, q, i, fuel, sent).1| >= |q|
    ensures ReplayFrom(arn, ready, q, i, fuel, sent).1[..|q|] == q
    decreases fuel
  {
    if i < |q| && fuel > 0 && q[i].Queued? {
      if ready {
        ReplayKeepsQueue(arn, ready, q, i + 1, fuel - 1, sent + [CallAction(arn, q[i].call)]);
      } else {
        ReplayKeepsQueue(arn, ready, q + [q[i]], i + 1, fuel - 1, sent);
        assert (q + [q[i]])[..|q|] == q;
      }
    }
  }

  // ------------------------------------------------------ searches

  /** `getTopic(name)` over the ARNs `listTopics` returned: the first topic
      whose name matches, else a rejection naming the topic. */
  method GetTopic(arns: seq<string>, name: string) returns (o: Outcome<string>)
    ensures FirstIndex(arns, a => TopicName(a) == name).Some? ==>
      o == Resolved(arns[FirstIndex(arns, a => TopicName(a) == name).value])
    ensures FirstIndex(arns, a => TopicName(a) == name).None? ==> o == Rejected("No topic with name " + name)
  {
    var i := 0;
    while i < |arns|
      invariant 0 <= i <= |arns|
      invariant forall j :: 0 <= j < i ==> TopicName(arns[j]) != name
    {
      if TopicName(arns[i]) == name {
        FirstIndexIs(arns, a => TopicName(a) == name, i);
        return Resolved(arns[i]);
      }
      i := i + 1;
    }
    return Rejected("No topic with name " + name);
  }

  /** An index whose element passes and whose predecessors all fail is
      the first index. */
  lemma FirstIndexIs<T>(xs: seq<T>, p: T -> bool, i: nat)
    requires i < |xs| && p(xs[i]) && forall j :: 0 <= j < i ==> !p(xs[j])
    ensures FirstIndex(xs, p) == Some(i)
  {
  }

  /** `getSubscriptionArn(endpoint)` over the topic's subscriptions: the
      ARN of the first subscription with that endpoint, else a rejection. */
  method GetSubscriptionArn(subs: seq<Subscription>, endpoint: Val) returns (o: Outcome<Val>)
    ensures FirstIndex(subs, (s: Subscription) => s.endpoint == endpoint).Some? ==>
      o == Resolved(subs[FirstIndex(subs, (s: Subscription) => s.endpoint == endpoint).value].subscriptionArn)
    ensures FirstIndex(subs, (s: Subscription) => s.endpoint == endpoint).None? ==>
      o == Rejected("No endpoint `" + KeyText(endpoint) + "` subscription for this topic.")
  {
    var i := 0;
    while i < |subs|
      invariant 0 <= i <= |subs|
      invariant forall j :: 0 <= j < i ==> subs[j].endpoint != endpoint
    {
      if subs[i].endpoint == endpoint {
        FirstIndexIs(subs, (s: Subscription) => s.endpoint == endpoint, i);
        return Resolved(subs[i].subscriptionArn);
      }
      i := i + 1;
    }
    return Rejected("No endpoint `" + KeyText(endpoint) + "` subscription for this topic.");
  }

  // ------------------------------------------------------ middleware

  const NotificationTypes: seq<string> := ["SubscriptionConfirmation", "UnsubscribeConfirmation", "Notification"]

  /** What the middleware does with a request: pass it on, pass on an
      error, or read the body of a notification of the given type. */
  datatype Verdict = Next | NextError(message: string) | ReadBody(kind: string)

  /** The checks of `topic.middleware()` on the message-type and topic-ARN
      headers (`None` for a header that is not there) against the topic's
      ARN (`None` for `null`); `bodyRead` is `req._body`. A missing header
      is `undefined`, which is never `===` to the topic's `null`. */
  function Classify(messageType: Option<string>, topicArnHeader: Option<string>, arn: Option<string>, bodyRead: bool): Verdict {
    if !Present(messageType) then Next
    else if messageType.value !in NotificationTypes then NextError("Unknown notification " + messageType.value)
    else if !(topicArnHeader.Some? && arn.Some? && topicArnHeader.value == arn.value) then
      NextError("Wrong topic ARN: " + (if topicArnHeader.Some? then topicArnHeader.value else "undefined"))
    else if bodyRead then Next
    else ReadBody(messageType.value)
  }

  /** Requests without a type pass through untouched; unknown types and
      other topics' notifications are errors; an already-read body
      passes through; only a known notification for this very topic
      has its body read. */
  lemma ClassifyCases(messageType: Option<string>, topicArnHeader: Option<string>, arn: Option<string>, bodyRead: bool)
    ensures var v := Classify(messageType, topicArnHeader, arn, bodyRead);
      (v.ReadBody? <==> Present(messageType) && messageType.value in NotificationTypes &&
                        topicArnHeader.Some? && topicArnHeader == arn && !bodyRead) &&
      (v.ReadBody? ==> v.kind == messageType.value) &&
      (v == Next <==> !Present(messageType) ||
                      (messageType.value in NotificationTypes && topicArnHeader.Some? && topicArnHeader == arn && bodyRead)) &&
      (!Present(messageType) ==> v == Next) &&
      (Present(messageType) && messageType.value !in NotificationTypes ==> v == NextError("Unknown notification " + messageType.value)) &&
      (Present(messageType) && messageType.value in NotificationTypes && !(topicArnHeader.Some? && topicArnHeader == arn) ==>
         v == NextError("Wrong topic ARN: " + (if topicArnHeader.Some? then topicArnHeader.value else "undefined")))
  {
  }

  /** A topic that does not know its ARN yet turns away every typed
      notification. */
  lemma ClassifyWithoutArn(messageType: Option<string>, topicArnHeader: Option<string>, bodyRead: bool)
    requires Present(messageType) && messageType.value in NotificationTypes
    ensures Classify(messageType, topicArnHeader, None, bodyRead) ==
      NextError("Wrong topic ARN: " + (if topicArnHeader.Some? then topicArnHeader.value else "undefined"))
  {
  }
}
