/** The CloudWatch client of lib/services/cloud-watch.js: each call builds
    a flat parameter object, numbering list members `X.member.1`,
    `X.member.2`, ... in input order, and hands it to the query connection
    with the name of the action. */
module CloudWatch {
  import opened Base
  import opened Params
  import Aws

  /** `new CloudWatch(accessKeyId, secretAccessKey)`: a query connection to
      the us-east-1 monitoring endpoint, API version 2010-08-01. */
  method NewCloudWatch(accessKeyId: string, secretAccessKey: string) returns (c: Aws.Connection)
    ensures fresh(c)
    ensures c.Current() == Aws.Settings(accessKeyId, secretAccessKey, "monitoring.us-east-1.amazonaws.com", "2010-08-01", true, "/")
  {
    c := new Aws.Connection(accessKeyId, secretAccessKey, "monitoring.us-east-1.amazonaws.com", "2010-08-01");
  }

  /** An action with the parameters it is sent with; `Throws` when building
      the parameters throws a TypeError. */
  datatype Call<V> = Call(action: string, params: Dict<V>) | Throws

  /** `deleteAlarms(names)` and `disableAlaramActions(names)`: the names,
      and nothing else, as `AlarmNames.member.N`. */
  function AlarmNames(names: seq<Val>): Dict<Val> {
    Members([], "AlarmNames.member.", names)
  }

  /** The i-th name (from 0) sits under `AlarmNames.member.(i+1)`, and those
      are the only parameters. */
  lemma AlarmNamesContents(names: seq<Val>, i: nat, k: string)
    requires i < |names|
    ensures Get(AlarmNames(names), MemberKey("AlarmNames.member.", i + 1, "")) == Some(names[i])
    ensures |AlarmNames(names)| == |names|
    ensures k in Keys(AlarmNames(names)) <==> exists n: nat :: 1 <= n <= |names| && k == MemberKey("AlarmNames.member.", n, "")
  {
    MembersGet([], "AlarmNames.member.", names, i + 1);
    MembersKeys<Val>([], "AlarmNames.member.", names, k);
    MembersUnique<Val>([], "AlarmNames.member.", names);
  }

  /** `deleteAlarms(names)`. */
  method DeleteAlarms(names: seq<Val>) returns (call: Call<Val>)
    ensures call == Call("DeleteAlarms", AlarmNames(names))
  {
    var params := AddMembers([], "AlarmNames.member.", names);
    call := Call("DeleteAlarms", params);
  }

  /** `describeAlarmHistory(name, opts)`: only the alarm name is sent; the
      options are ignored. */
  function DescribeAlarmHistory(name: Val, opts: Dict<Val>): (call: Call<Val>)
    ensures call.Call? && call.action == "DescribeAlarmHistory"
    ensures forall k :: Get(call.params, k) == if k == "AlarmName" then Some(name) else None
  {
    var call := Call("DescribeAlarmHistory", [("AlarmName", name)]);
    assert forall k :: Get(call.params, k) == if k == "AlarmName" then Some(name) else None by {
      forall k ensures Get(call.params, k) == if k == "AlarmName" then Some(name) else None {
        GetCons("AlarmName", name, [], k);
      }
    }
    call
  }

  /** `disableAlaramActions(names)`. */
  method DisableAlaramActions(names: seq<Val>) returns (call: Call<Val>)
    ensures call == Call("DisableAlarmActions", AlarmNames(names))
  {
    var params := AddMembers([], "AlarmNames.member.", names);
    call := Call("DisableAlarmActions", params);
  }

  /** A parameter value of `enableAlarmActions`, whose object starts with a
      nested `AlarmNames: {member: {}}` entry besides the flat names. */
  datatype Param = Plain(v: Val) | EmptyMemberObject

  /** `enableAlarmActions(names)`: the nested entry first, then the names. */
  function EnableParams(names: seq<Val>): Dict<Param> {
    Members([("AlarmNames", EmptyMemberObject)], "AlarmNames.member.", seq(|names|, i requires 0 <= i < |names| => Plain(names[i])))
  }

  method EnableAlarmActions(names: seq<Val>) returns (call: Call<Param>)
    ensures call == Call("EnableAlarmActions", EnableParams(names))
  {
    var items := seq(|names|, i requires 0 <= i < |names| => Plain(names[i]));
    var params := AddMembers([("AlarmNames", EmptyMemberObject)], "AlarmNames.member.", items);
    call := Call("EnableAlarmActions", params);
  }

  /** The nested entry stays as it is and the names follow it under their
      member keys. */
  lemma EnableParamsContents(names: seq<Val>, i: nat)
    requires i < |names|
    ensures Get(EnableParams(names), "AlarmNames") == Some(EmptyMemberObject)
    ensures Get(EnableParams(names), MemberKey("AlarmNames.member.", i + 1, "")) == Some(Plain(names[i]))
    ensures |EnableParams(names)| == |names| + 1
  {
    var items := seq(|names|, j requires 0 <= j < |names| => Plain(names[j]));
    var nested := [("AlarmNames", EmptyMemberObject)];
    forall n: nat ensures "AlarmNames" != MemberKey("AlarmNames.member.", n, "") {
      MemberKeyPrefix("AlarmNames.member.", n, "");
    }
    assert Keys(nested) == ["AlarmNames"];
    MembersGetOther(nested, "AlarmNames.member.", items, "AlarmNames");
    MembersGet(nested, "AlarmNames.member.", items, i + 1);
    MembersUnique(nested, "AlarmNames.member.", items);
  }

  // ------------------------------------------------------ describeAlarms

  /** The options of `describeAlarms`; `names` is `None` when the option is
      absent. */
  datatype AlarmsQuery = AlarmsQuery(actionPrefix: Val, namePrefix: Val, names: Option<seq<Val>>,
                                     max: Val, token: Val, state: Val)

  /** `opts || {}` */
  function AlarmsQueryOrEmpty(opts: Option<AlarmsQuery>): AlarmsQuery {
    if opts.Some? then opts.value else AlarmsQuery(Undef, Undef, None, Undef, Undef, Undef)
  }

  function DescribeAlarmsParams(q: AlarmsQuery): Dict<Val> {
    var head := PutIf(PutIf([], "ActionPrefix", q.actionPrefix), "AlarmNamePrefix", q.namePrefix);
    var named := if q.names.Some? then Members(head, "AlarmNames.member.", q.names.value) else head;
    PutIf(PutIf(PutIf(named, "MaxRecords", q.max), "NextToken", q.token), "StateValue", q.state)
  }

  /** `describeAlarms(opts)`. */
  method DescribeAlarms(opts: Option<AlarmsQuery>) returns (call: Call<Val>)
    ensures call == Call("DescribeAlarms", DescribeAlarmsParams(AlarmsQueryOrEmpty(opts)))
  {
    var q := AlarmsQueryOrEmpty(opts);
    var params: Dict<Val> := [];
    if Truthy(q.actionPrefix) {
      params := Put(params, "ActionPrefix", q.actionPrefix);
    }
    if Truthy(q.namePrefix) {
      params := Put(params, "AlarmNamePrefix", q.namePrefix);
    }
    if q.names.Some? {
      params := AddMembers(params, "AlarmNames.member.", q.names.value);
    }
    if Truthy(q.max) {
      params := Put(params, "MaxRecords", q.max);
    }
    if Truthy(q.token) {
      params := Put(params, "NextToken", q.token);
    }
    if Truthy(q.state) {
      params := Put(params, "StateValue", q.state);
    }
    call := Call("DescribeAlarms", params);
  }

  /** A parameter outside the names is the last guarded assignment to it. */
  lemma DescribeAlarmsScalar(q: AlarmsQuery, k: string)
    requires Apart(k, "AlarmNames.member.")
    ensures Get(DescribeAlarmsParams(q), k) ==
      if k == "StateValue" && Truthy(q.state) then Some(q.state)
      else if k == "NextToken" && Truthy(q.token) then Some(q.token)
      else if k == "MaxRecords" && Truthy(q.max) then Some(q.max)
      else if k == "AlarmNamePrefix" && Truthy(q.namePrefix) then Some(q.namePrefix)
      else if k == "ActionPrefix" && Truthy(q.actionPrefix) then Some(q.actionPrefix)
      else None
  {
    var head1 := PutIf([], "ActionPrefix", q.actionPrefix);
    var head := PutIf(head1, "AlarmNamePrefix", q.namePrefix);
    var named := if q.names.Some? then Members(head, "AlarmNames.member.", q.names.value) else head;
    var tail1 := PutIf(named, "MaxRecords", q.max);
    var tail2 := PutIf(tail1, "NextToken", q.token);
    PutIfGet(tail2, "StateValue", q.state, k);
    PutIfGet(tail1, "NextToken", q.token, k);
    PutIfGet(named, "MaxRecords", q.max, k);
    if q.names.Some? {
      forall n: nat ensures k != MemberKey("AlarmNames.member.", n, "") {
        ApartNotMember(k, "AlarmNames.member.", n, "");
      }
      MembersGetOther(head, "AlarmNames.member.", q.names.value, k);
    }
    PutIfGet(head1, "AlarmNamePrefix", q.namePrefix, k);
    PutIfGet([], "ActionPrefix", q.actionPrefix, k);
  }

  /** Each scalar option reaches its parameter exactly when it is truthy. */
  lemma DescribeAlarmsOptions(q: AlarmsQuery)
    ensures Get(DescribeAlarmsParams(q), "ActionPrefix") == IfTruthy(q.actionPrefix)
    ensures Get(DescribeAlarmsParams(q), "AlarmNamePrefix") == IfTruthy(q.namePrefix)
    ensures Get(DescribeAlarmsParams(q), "MaxRecords") == IfTruthy(q.max)
    ensures Get(DescribeAlarmsParams(q), "NextToken") == IfTruthy(q.token)
    ensures Get(DescribeAlarmsParams(q), "StateValue") == IfTruthy(q.state)
  {
    DescribeAlarmsScalar(q, "ActionPrefix");
    DescribeAlarmsScalar(q, "AlarmNamePrefix");
    DescribeAlarmsScalar(q, "MaxRecords");
    DescribeAlarmsScalar(q, "NextToken");
    DescribeAlarmsScalar(q, "StateValue");
  }

  /** The names, when given, are members 1 to |names| in order; without them
      there is no `AlarmNames.member.N` parameter at all. */
  lemma DescribeAlarmsNames(q: AlarmsQuery, n: nat)
    ensures Get(DescribeAlarmsParams(q), MemberKey("AlarmNames.member.", n, "")) ==
      if q.names.Some? && 1 <= n <= |q.names.value| then Some(q.names.value[n - 1]) else None
  {
    var k := MemberKey("AlarmNames.member.", n, "");
    var head1 := PutIf([], "ActionPrefix", q.actionPrefix);
    var head := PutIf(head1, "AlarmNamePrefix", q.namePrefix);
    var named := if q.names.Some? then Members(head, "AlarmNames.member.", q.names.value) else head;
    var tail1 := PutIf(named, "MaxRecords", q.max);
    var tail2 := PutIf(tail1, "NextToken", q.token);
    ApartNotMember("ActionPrefix", "AlarmNames.member.", n, "");
    ApartNotMember("AlarmNamePrefix", "AlarmNames.member.", n, "");
    ApartNotMember("MaxRecords", "AlarmNames.member.", n, "");
    ApartNotMember("NextToken", "AlarmNames.member.", n, "");
    ApartNotMember("StateValue", "AlarmNames.member.", n, "");
    PutIfGet(tail2, "StateValue", q.state, k);
    PutIfGet(tail1, "NextToken", q.token, k);
    PutIfGet(named, "MaxRecords", q.max, k);
    PutIfGet(head1, "AlarmNamePrefix", q.namePrefix, k);
    PutIfGet([], "ActionPrefix", q.actionPrefix, k);
    if q.names.Some? {
      MembersGet(head, "AlarmNames.member.", q.names.value, n);
    }
  }

  // ------------------------------------------------------ getMetricStatistics

  /** A dimension value of `getMetricStatistics`: one value, or an array
      whose elements each become a dimension of the same name. */
  datatype DimValue = Scalar(v: Val) | Many(vs: seq<Val>)

  const DimPrefix := "Dimensions.member."

  /** One dimension spread into name/value pairs. */
  function Spread(name: string, d: DimValue): (r: seq<(string, Val)>)
    ensures d.Scalar? ==> r == [(name, d.v)]
    ensures d.Many? ==> |r| == |d.vs| && forall k :: 0 <= k < |r| ==> r[k] == (name, d.vs[k])
  {
    match d
    case Scalar(v) => [(name, v)]
    case Many(vs) => seq(|vs|, k requires 0 <= k < |vs| => (name, vs[k]))
  }

  /** All dimensions as name/value pairs, arrays spread out in place. */
  function Flatten(dims: Dict<DimValue>): seq<(string, Val)>
    decreases |dims|
  {
    if dims == [] then [] else Flatten(dims[..|dims| - 1]) + Spread(dims[|dims| - 1].0, dims[|dims| - 1].1)
  }

  /** The elements of one array dimension at numbers `base + 1` to
      `base + |vs|`: the source's inner `for` loop over `k`. */
  function PutRun(params: Dict<Val>, base: nat, name: string, vs: seq<Val>): Dict<Val>
    decreases |vs|
  {
    if vs == [] then params
    else PutDim(PutRun(params, base, name, vs[..|vs| - 1]), DimPrefix, base + |vs|, name, vs[|vs| - 1])
  }

  /** How far an array dimension advances the source's counter `i`. */
  function ArrayLength(d: DimValue): nat {
    if d.Many? then |d.vs| else 0
  }

  /** One dimension as written, its numbers starting after `start`. */
  function AsWrittenStep(params: Dict<Val>, start: nat, name: string, d: DimValue): Dict<Val> {
    match d
    case Scalar(v) => PutDim(params, DimPrefix, start + 1, name, v)
    case Many(vs) => PutRun(params, start, name, vs)
  }

  /** The dimension loop as written, from the dimension whose numbers start
      after `start` (the source's `index + i`). A scalar takes one number and
      an array one per element, but the next dimension starts one further
      still, because both `index` and `i` advance. */
  function AsWrittenFrom(params: Dict<Val>, dims: Dict<DimValue>, start: nat): Dict<Val>
    decreases |dims|
  {
    if dims == [] then params
    else AsWrittenFrom(AsWrittenStep(params, start, dims[0].0, dims[0].1), dims[1..], start + 1 + ArrayLength(dims[0].1))
  }

  /** The dimension loop as written. */
  function DimsAsWritten(params: Dict<Val>, dims: Dict<DimValue>): Dict<Val> {
    AsWrittenFrom(params, dims, 0)
  }

  /** The statistics and the fixed parameters of `getMetricStatistics`. */
  function StatisticsBase(namespace: Val, name: Val, period: Val, startTime: Val, endTime: Val,
                          statistics: seq<Val>, unit: Val): Dict<Val>
  {
    Members([("Namespace", namespace), ("MetricName", name), ("Period", period),
             ("StartTime", startTime), ("EndTime", endTime), ("Unit", unit)],
            "Statistics.member.", statistics)
  }

  /** `getMetricStatistics` as written. */
  function MetricStatisticsAsWritten(namespace: Val, name: Val, period: Val, startTime: Val, endTime: Val,
                                     statistics: seq<Val>, unit: Val, dimensions: Option<Dict<DimValue>>): Dict<Val>
  {
    var base := StatisticsBase(namespace, name, period, startTime, endTime, statistics, unit);
    if dimensions.Some? then DimsAsWritten(base, dimensions.value) else base
  }

  /** `getMetricStatistics` with the dimensions numbered 1, 2, 3, ... in
      order, each array element taking the next number. */
  function MetricStatisticsParams(namespace: Val, name: Val, period: Val, startTime: Val, endTime: Val,
                                  statistics: seq<Val>, unit: Val, dimensions: Option<Dict<DimValue>>): Dict<Val>
  {
    var base := StatisticsBase(namespace, name, period, startTime, endTime, statistics, unit);
    if dimensions.Some? then Dims(base, DimPrefix, Flatten(dimensions.value)) else base
  }

  /** The fixed parameters and the statistics, as both versions build them. */
  method StatisticsParams(namespace: Val, name: Val, period: Val, startTime: Val, endTime: Val,
                          statistics: seq<Val>, unit: Val) returns (params: Dict<Val>)
    ensures params == StatisticsBase(namespace, name, period, startTime, endTime, statistics, unit)
  {
    params := [("Namespace", namespace), ("MetricName", name), ("Period", period),
               ("StartTime", startTime), ("EndTime", endTime), ("Unit", unit)];
    params := AddMembers(params, "Statistics.member.", statistics);
  }

  /** The source's inner loop over the elements of an array dimension. */
  method AddRun(params: Dict<Val>, base: nat, name: string, vs: seq<Val>) returns (r: Dict<Val>)
    ensures r == PutRun(params, base, name, vs)
  {
    r := params;
    var k := 0;
    while k < |vs|
      invariant 0 <= k <= |vs|
      invariant r == PutRun(params, base, name, vs[..k])
    {
      assert vs[..k + 1][..k] == vs[..k];
      r := Put(r, MemberKey(DimPrefix, base + k + 1, ".Name"), Str(name));
      r := Put(r, MemberKey(DimPrefix, base + k + 1, ".Value"), vs[k]);
      k := k + 1;
    }
    assert vs[..|vs|] == vs;
  }

  /** One more dimension, flattened. */
  lemma FlattenUnfold(dims: Dict<DimValue>, index: nat)
    requires index < |dims|
    ensures Flatten(dims[..index + 1]) == Flatten(dims[..index]) + Spread(dims[index].0, dims[index].1)
  {
    assert dims[..index + 1][..index] == dims[..index];
  }

  /** The first remaining dimension, as written, is one step of the loop
      whose next dimension starts after `next`. */
  lemma AsWrittenFromNext(params: Dict<Val>, dims: Dict<DimValue>, start: nat, next: nat)
    requires dims != [] && next == start + 1 + ArrayLength(dims[0].1)
    ensures AsWrittenFrom(params, dims, start) ==
      AsWrittenFrom(AsWrittenStep(params, start, dims[0].0, dims[0].1), dims[1..], next)
  {
    var step := AsWrittenStep(params, start, dims[0].0, dims[0].1);
    assert AsWrittenFrom(params, dims, start) == AsWrittenFrom(step, dims[1..], next);
  }

  /** The `forEach` callback of the dimension loop as written: it numbers
      from `index + i + 1` and adds the length of an array to `i`. */
  method DimensionAsWritten(params: Dict<Val>, key: string, d: DimValue, index: nat, i: nat)
    returns (r: Dict<Val>, i': nat)
    ensures r == AsWrittenStep(params, index + i, key, d)
    ensures i' == i + ArrayLength(d)
  {
    var start := index + i;
    match d {
      case Many(vs) =>
        r := AddRun(params, start, key, vs);
        i' := i + |vs|;
      case Scalar(v) =>
        r := Put(params, MemberKey(DimPrefix, start + 1, ".Name"), Str(key));
        r := Put(r, MemberKey(DimPrefix, start + 1, ".Value"), v);
        i' := i;
    }
  }

  /** The source's dimension loop, with its counter `i`; `rest` holds the
      dimensions from `index` on and `start` is `index + i`. */
  method AddDimsAsWritten(base: Dict<Val>, dims: Dict<DimValue>) returns (params: Dict<Val>)
    ensures params == DimsAsWritten(base, dims)
  {
    params := base;
    var i: nat := 0;
    var index: nat := 0;
    var rest := dims;
    var start: nat := 0;
    while rest != []
      invariant start == index + i
      invariant AsWrittenFrom(params, rest, start) == DimsAsWritten(base, dims)
      decreases |rest|
    {
      var next := start + 1 + ArrayLength(rest[0].1);
      AsWrittenFromNext(params, rest, start, next);
      var stepped, i' := DimensionAsWritten(params, rest[0].0, rest[0].1, index, i);
      params, i := stepped, i';
      index := index + 1;
      rest := rest[1..];
      start := next;
    }
  }

  /** `getMetricStatistics(...)` exactly as written. */
  method GetMetricStatisticsAsWritten(namespace: Val, name: Val, period: Val, startTime: Val, endTime: Val,
                                      statistics: seq<Val>, unit: Val, dimensions: Option<Dict<DimValue>>)
    returns (call: Call<Val>)
    ensures call == Call("GetMetricStatistics",
      MetricStatisticsAsWritten(namespace, name, period, startTime, endTime, statistics, unit, dimensions))
  {
    var params := StatisticsParams(namespace, name, period, startTime, endTime, statistics, unit);
    if dimensions.Some? {
      params := AddDimsAsWritten(params, dimensions.value);
    }
    call := Call("GetMetricStatistics", params);
  }

  /** One more dimension is one more pair of assignments. */
  lemma DimsUnfold(params: Dict<Val>, prefix: string, dims: Dict<Val>)
    requires dims != []
    ensures Dims(params, prefix, dims) ==
      PutDim(Dims(params, prefix, dims[..|dims| - 1]), prefix, |dims|, dims[|dims| - 1].0, dims[|dims| - 1].1)
  {
  }

  /** One more pair is one more pair of assignments. */
  lemma DimsSnoc(params: Dict<Val>, prefix: string, pairs: seq<(string, Val)>, longer: seq<(string, Val)>,
                 name: string, v: Val, n: nat)
    requires longer == pairs + [(name, v)] && n == |pairs| + 1
    ensures Dims(params, prefix, longer) == PutDim(Dims(params, prefix, pairs), prefix, n, name, v)
  {
    assert longer[..|pairs|] == pairs;
    DimsUnfold(params, prefix, longer);
  }

  /** Spreading one more element of an array. */
  lemma SpreadSnoc(name: string, vs: seq<Val>, k: nat)
    requires k < |vs|
    ensures Spread(name, Many(vs[..k + 1])) == Spread(name, Many(vs[..k])) + [(name, vs[k])]
  {
  }

  /** The last element of an array after `done` takes number |done| + |vs|. */
  lemma DimsRunLast(params: Dict<Val>, done: seq<(string, Val)>, name: string, vs: seq<Val>)
    requires vs != []
    ensures Dims(params, DimPrefix, done + Spread(name, Many(vs))) ==
      PutDim(Dims(params, DimPrefix, done + Spread(name, Many(vs[..|vs| - 1]))), DimPrefix, |done| + |vs|, name, vs[|vs| - 1])
  {
    SpreadLast(done, name, vs);
    DimsSnoc(params, DimPrefix, done + Spread(name, Many(vs[..|vs| - 1])), done + Spread(name, Many(vs)),
             name, vs[|vs| - 1], |done| + |vs|);
  }

  /** The pairs of an array after `done`, its last element split off. */
  lemma SpreadLast(done: seq<(string, Val)>, name: string, vs: seq<Val>)
    requires vs != []
    ensures done + Spread(name, Many(vs)) == done + Spread(name, Many(vs[..|vs| - 1])) + [(name, vs[|vs| - 1])]
    ensures |done + Spread(name, Many(vs[..|vs| - 1]))| + 1 == |done| + |vs|
  {
    var k := |vs| - 1;
    SpreadSnoc(name, vs, k);
    assert vs[..k + 1] == vs;
  }

  /** One more element of an array dimension. */
  lemma PutRunUnfold(params: Dict<Val>, base: nat, name: string, vs: seq<Val>)
    requires vs != []
    ensures PutRun(params, base, name, vs) == PutDim(PutRun(params, base, name, vs[..|vs| - 1]), DimPrefix, base + |vs|, name, vs[|vs| - 1])
  {
  }

  /** Numbering the elements of an array after `done` with a running
      counter is the inner loop started at |done|. */
  lemma {:induction false} DimsRun(params: Dict<Val>, done: seq<(string, Val)>, name: string, vs: seq<Val>)
    ensures Dims(params, DimPrefix, done + Spread(name, Many(vs))) == PutRun(Dims(params, DimPrefix, done), |done|, name, vs)
    decreases |vs|
  {
    if vs == [] {
      assert done + Spread(name, Many(vs)) == done;
    } else {
      DimsRun(params, done, name, vs[..|vs| - 1]);
      DimsRunLast(params, done, name, vs);
      PutRunUnfold(Dims(params, DimPrefix, done), |done|, name, vs);
    }
  }

  /** The dimension loop with a counter that every dimension, array
      elements included, advances one by one. */
  method AddFlatDims(base: Dict<Val>, dims: Dict<DimValue>) returns (params: Dict<Val>)
    ensures params == Dims(base, DimPrefix, Flatten(dims))
  {
    params := base;
    var n := 0;
    var index := 0;
    while index < |dims|
      invariant 0 <= index <= |dims|
      invariant n == |Flatten(dims[..index])|
      invariant params == Dims(base, DimPrefix, Flatten(dims[..index]))
    {
      FlattenUnfold(dims, index);
      var key := dims[index].0;
      var done := Flatten(dims[..index]);
      match dims[index].1 {
        case Many(vs) =>
          DimsRun(base, done, key, vs);
          params := AddRun(params, n, key, vs);
          n := n + |vs|;
        case Scalar(v) =>
          DimsSnoc(base, DimPrefix, done, done + [(key, v)], key, v, n + 1);
          params := Put(params, MemberKey(DimPrefix, n + 1, ".Name"), Str(key));
          params := Put(params, MemberKey(DimPrefix, n + 1, ".Value"), v);
          n := n + 1;
      }
      index := index + 1;
    }
    assert dims[..|dims|] == dims;
  }

  /** `getMetricStatistics(...)` with the dimensions numbered 1, 2, 3, ...
      without gaps. */
  method GetMetricStatistics(namespace: Val, name: Val, period: Val, startTime: Val, endTime: Val,
                             statistics: seq<Val>, unit: Val, dimensions: Option<Dict<DimValue>>)
    returns (call: Call<Val>)
    ensures call == Call("GetMetricStatistics",
      MetricStatisticsParams(namespace, name, period, startTime, endTime, statistics, unit, dimensions))
  {
    var params := StatisticsParams(namespace, name, period, startTime, endTime, statistics, unit);
    if dimensions.Some? {
      params := AddFlatDims(params, dimensions.value);
    }
    call := Call("GetMetricStatistics", params);
  }
  /** A key longer than every fixed parameter name is not among them. */
  lemma StatisticsFixedGet(namespace: Val, name: Val, period: Val, startTime: Val, endTime: Val, unit: Val, k: string)
    requires |k| > 10
    ensures Get([("Namespace", namespace), ("MetricName", name), ("Period", period),
                 ("StartTime", startTime), ("EndTime", endTime), ("Unit", unit)], k) == None
  {
    var fixed := [("Namespace", namespace), ("MetricName", name), ("Period", period),
                  ("StartTime", startTime), ("EndTime", endTime), ("Unit", unit)];
    assert forall i :: 0 <= i < |fixed| ==> |Keys(fixed)[i]| < |k|;
    assert k !in Keys(fixed);
  }

  /** Keys under `prefix` other than the statistics are not set by the
      fixed parameters and the statistics. */
  lemma StatisticsBaseOther(namespace: Val, name: Val, period: Val, startTime: Val, endTime: Val,
                            statistics: seq<Val>, unit: Val, n: nat, suffix: string)
    ensures Get(StatisticsBase(namespace, name, period, startTime, endTime, statistics, unit),
                MemberKey(DimPrefix, n, suffix)) == None
  {
    var k := MemberKey(DimPrefix, n, suffix);
    MemberKeyPrefix(DimPrefix, n, suffix);
    assert k[0] == 'D';
    forall m: nat ensures k != MemberKey("Statistics.member.", m, "") {
      MemberKeyPrefix("Statistics.member.", m, "");
    }
    MembersGetOther([("Namespace", namespace), ("MetricName", name), ("Period", period),
                     ("StartTime", startTime), ("EndTime", endTime), ("Unit", unit)],
                    "Statistics.member.", statistics, k);
    StatisticsFixedGet(namespace, name, period, startTime, endTime, unit, k);
  }

  /** Statistic number n (1 <= n <= |statistics|) is the n-th statistic,
      whatever the dimensions; there are no others. */
  lemma MetricStatisticsStatistics(namespace: Val, name: Val, period: Val, startTime: Val, endTime: Val,
                                   statistics: seq<Val>, unit: Val, dimensions: Option<Dict<DimValue>>, n: nat)
    ensures Get(MetricStatisticsParams(namespace, name, period, startTime, endTime, statistics, unit, dimensions),
                MemberKey("Statistics.member.", n, "")) ==
      if 1 <= n <= |statistics| then Some(statistics[n - 1]) else None
  {
    var fixed := [("Namespace", namespace), ("MetricName", name), ("Period", period),
                  ("StartTime", startTime), ("EndTime", endTime), ("Unit", unit)];
    var base := StatisticsBase(namespace, name, period, startTime, endTime, statistics, unit);
    var k := MemberKey("Statistics.member.", n, "");
    MemberKeyPrefix("Statistics.member.", n, "");
    if dimensions.Some? {
      ApartAt(k, DimPrefix, 0);
      DimsGetOther(base, DimPrefix, Flatten(dimensions.value), k);
    }
    MembersGet(fixed, "Statistics.member.", statistics, n);
    StatisticsFixedGet(namespace, name, period, startTime, endTime, unit, k);
  }

  /** With the running counter, dimension number n is the n-th pair of the
      flattened dimensions, 1 <= n <= |Flatten(dims)|, with no gaps and no
      others. */
  lemma MetricStatisticsDimensions(namespace: Val, name: Val, period: Val, startTime: Val, endTime: Val,
                                   statistics: seq<Val>, unit: Val, dims: Dict<DimValue>, n: nat)
    ensures var r := MetricStatisticsParams(namespace, name, period, startTime, endTime, statistics, unit, Some(dims));
      var flat := Flatten(dims);
      && Get(r, MemberKey(DimPrefix, n, ".Name")) == (if 1 <= n <= |flat| then Some(Str(flat[n - 1].0)) else None)
      && Get(r, MemberKey(DimPrefix, n, ".Value")) == (if 1 <= n <= |flat| then Some(flat[n - 1].1) else None)
  {
    var base := StatisticsBase(namespace, name, period, startTime, endTime, statistics, unit);
    StatisticsBaseOther(namespace, name, period, startTime, endTime, statistics, unit, n, ".Name");
    StatisticsBaseOther(namespace, name, period, startTime, endTime, statistics, unit, n, ".Value");
    DimsGetName(base, DimPrefix, Flatten(dims), n);
    DimsGetValue(base, DimPrefix, Flatten(dims), n);
  }

  /** Flattening from the front. */
  lemma {:induction false} FlattenCons(dims: Dict<DimValue>)
    requires dims != []
    ensures Flatten(dims) == Spread(dims[0].0, dims[0].1) + Flatten(dims[1..])
    decreases |dims|
  {
    if |dims| > 1 {
      var init := dims[..|dims| - 1];
      FlattenCons(init);
      assert init[1..] == dims[1..][..|dims[1..]| - 1];
      assert dims[1..][|dims[1..]| - 1] == dims[|dims| - 1];
    } else {
      assert dims[1..] == [];
    }
  }

  /** Without arrays, the loop as written numbers the dimensions after
      `done` consecutively. */
  lemma {:induction false} AsWrittenScalars(params: Dict<Val>, done: seq<(string, Val)>, dims: Dict<DimValue>)
    requires forall j :: 0 <= j < |dims| ==> dims[j].1.Scalar?
    ensures AsWrittenFrom(Dims(params, DimPrefix, done), dims, |done|) == Dims(params, DimPrefix, done + Flatten(dims))
    decreases |dims|
  {
    if dims == [] {
      assert done + Flatten(dims) == done;
    } else {
      var name := dims[0].0;
      var v := dims[0].1.v;
      var longer := done + [(name, v)];
      DimsSnoc(params, DimPrefix, done, longer, name, v, |done| + 1);
      AsWrittenFromNext(Dims(params, DimPrefix, done), dims, |done|, |longer|);
      AsWrittenScalars(params, longer, dims[1..]);
      FlattenScalarFront(done, dims);
    }
  }

  /** A scalar at the front moves from the dimensions to `done`. */
  lemma FlattenScalarFront(done: seq<(string, Val)>, dims: Dict<DimValue>)
    requires dims != [] && dims[0].1.Scalar?
    ensures done + Flatten(dims) == (done + [(dims[0].0, dims[0].1.v)]) + Flatten(dims[1..])
  {
    FlattenCons(dims);
    AppendFront(done, (dims[0].0, dims[0].1.v), Flatten(dims[1..]));
  }

  lemma AppendFront<T>(a: seq<T>, e: T, b: seq<T>)
    ensures a + ([e] + b) == (a + [e]) + b
  {
  }

  /** Without array dimensions the code as written and the running counter
      build the same parameters. */
  lemma MetricStatisticsScalars(namespace: Val, name: Val, period: Val, startTime: Val, endTime: Val,
                                statistics: seq<Val>, unit: Val, dims: Dict<DimValue>)
    requires forall j :: 0 <= j < |dims| ==> dims[j].1.Scalar?
    ensures MetricStatisticsAsWritten(namespace, name, period, startTime, endTime, statistics, unit, Some(dims)) ==
      MetricStatisticsParams(namespace, name, period, startTime, endTime, statistics, unit, Some(dims))
  {
    var base := StatisticsBase(namespace, name, period, startTime, endTime, statistics, unit);
    AsWrittenScalars(base, [], dims);
    assert [] + Flatten(dims) == Flatten(dims);
  }

  /** The loop as written on `a: [x, y]` followed by `b: z`. */
  lemma AsWrittenArrayThenScalar(base: Dict<Val>, x: Val, y: Val, z: Val)
    ensures DimsAsWritten(base, [("a", Many([x, y])), ("b", Scalar(z))]) ==
      PutDim(PutDim(PutDim(base, DimPrefix, 1, "a", x), DimPrefix, 2, "a", y), DimPrefix, 4, "b", z)
  {
    var dims := [("a", Many([x, y])), ("b", Scalar(z))];
    PutRunUnfold(base, 0, "a", [x, y]);
    assert [x, y][..1] == [x];
    PutRunUnfold(base, 0, "a", [x]);
    assert [x][..0] == [];
    var two := PutRun(base, 0, "a", [x, y]);
    AsWrittenFromNext(base, dims, 0, 3);
    AsWrittenFromNext(two, dims[1..], 3, 4);
    assert dims[1..][1..] == [];
  }

  /** After the array `a: [x, y]` the scalar `b` is numbered 4 by the code
      as written, and no dimension is numbered 3; with the running counter
      `b` is number 3 and there is no number 4. */
  lemma MetricStatisticsGap(namespace: Val, name: Val, period: Val, startTime: Val, endTime: Val,
                            statistics: seq<Val>, unit: Val, x: Val, y: Val, z: Val)
    ensures var dims := [("a", Many([x, y])), ("b", Scalar(z))];
      var written := MetricStatisticsAsWritten(namespace, name, period, startTime, endTime, statistics, unit, Some(dims));
      var fixed := MetricStatisticsParams(namespace, name, period, startTime, endTime, statistics, unit, Some(dims));
      && Get(written, MemberKey(DimPrefix, 3, ".Name")) == None
      && Get(written, MemberKey(DimPrefix, 4, ".Name")) == Some(Str("b"))
      && Get(fixed, MemberKey(DimPrefix, 3, ".Name")) == Some(Str("b"))
      && Get(fixed, MemberKey(DimPrefix, 4, ".Name")) == None
  {
    var base := StatisticsBase(namespace, name, period, startTime, endTime, statistics, unit);
    StatisticsBaseOther(namespace, name, period, startTime, endTime, statistics, unit, 3, ".Name");
    AsWrittenGap(base, x, y, z);
    var dims := [("a", Many([x, y])), ("b", Scalar(z))];
    FlattenArrayThenScalar(x, y, z);
    MetricStatisticsDimensions(namespace, name, period, startTime, endTime, statistics, unit, dims, 3);
    MetricStatisticsDimensions(namespace, name, period, startTime, endTime, statistics, unit, dims, 4);
  }

  /** As written, number 3 keeps what the parameters had and `b` is
      number 4. */
  lemma AsWrittenGap(base: Dict<Val>, x: Val, y: Val, z: Val)
    ensures var written := DimsAsWritten(base, [("a", Many([x, y])), ("b", Scalar(z))]);
      && Get(written, MemberKey(DimPrefix, 3, ".Name")) == Get(base, MemberKey(DimPrefix, 3, ".Name"))
      && Get(written, MemberKey(DimPrefix, 4, ".Name")) == Some(Str("b"))
  {
    var k3 := MemberKey(DimPrefix, 3, ".Name");
    var k4 := MemberKey(DimPrefix, 4, ".Name");
    var one := PutDim(base, DimPrefix, 1, "a", x);
    var two := PutDim(one, DimPrefix, 2, "a", y);
    AsWrittenArrayThenScalar(base, x, y, z);
    DimKeysDiffer(DimPrefix, 3, 1);
    DimKeysDiffer(DimPrefix, 3, 2);
    DimKeysDiffer(DimPrefix, 3, 4);
    PutDimGet(base, DimPrefix, 1, "a", x, k3);
    PutDimGet(one, DimPrefix, 2, "a", y, k3);
    PutDimGet(two, DimPrefix, 4, "b", z, k3);
    DimKeysDiffer(DimPrefix, 4, 4);
    PutDimGet(two, DimPrefix, 4, "b", z, k4);
  }

  /** The pairs of `a: [x, y]` followed by `b: z`. */
  lemma FlattenArrayThenScalar(x: Val, y: Val, z: Val)
    ensures Flatten([("a", Many([x, y])), ("b", Scalar(z))]) == [("a", x), ("a", y), ("b", z)]
  {
    var dims := [("a", Many([x, y])), ("b", Scalar(z))];
    var first := [("a", Many([x, y]))];
    assert dims[..1] == first && first[..0] == [];
    assert Flatten(first) == Spread("a", Many([x, y])) == [("a", x), ("a", y)];
    assert Flatten(dims) == Flatten(first) + [("b", z)];
  }

  // ------------------------------------------------------ optional lists

  /** `if (list) { list.forEach(...) }`: the members, when the list is given. */
  function MembersIf(params: Dict<Val>, prefix: string, items: Option<seq<Val>>): Dict<Val> {
    if items.Some? then Members(params, prefix, items.value) else params
  }

  /** Member n of an optional list. */
  lemma MembersIfGet(params: Dict<Val>, prefix: string, items: Option<seq<Val>>, n: nat)
    ensures Get(MembersIf(params, prefix, items), MemberKey(prefix, n, "")) ==
      if items.Some? && 1 <= n <= |items.value| then Some(items.value[n - 1]) else Get(params, MemberKey(prefix, n, ""))
  {
    if items.Some? {
      MembersGet(params, prefix, items.value, n);
    }
  }

  /** Keys outside the prefix are left alone by an optional list. */
  lemma MembersIfOther(params: Dict<Val>, prefix: string, items: Option<seq<Val>>, k: string)
    requires Apart(k, prefix)
    ensures Get(MembersIf(params, prefix, items), k) == Get(params, k)
  {
    if items.Some? {
      forall n: nat ensures k != MemberKey(prefix, n, "") {
        ApartNotMember(k, prefix, n, "");
      }
      MembersGetOther(params, prefix, items.value, k);
    }
  }

  /** `if (opts.dimensions) { Object.keys(opts.dimensions).forEach(...) }`. */
  function DimsIf(params: Dict<Val>, dims: Option<Dict<Val>>): Dict<Val> {
    if dims.Some? then Dims(params, DimPrefix, dims.value) else params
  }

  /** Dimension n of optional dimensions. */
  lemma DimsIfGet(params: Dict<Val>, dims: Option<Dict<Val>>, n: nat)
    ensures Get(DimsIf(params, dims), MemberKey(DimPrefix, n, ".Name")) ==
      if dims.Some? && 1 <= n <= |dims.value| then Some(Str(dims.value[n - 1].0))
      else Get(params, MemberKey(DimPrefix, n, ".Name"))
    ensures Get(DimsIf(params, dims), MemberKey(DimPrefix, n, ".Value")) ==
      if dims.Some? && 1 <= n <= |dims.value| then Some(dims.value[n - 1].1)
      else Get(params, MemberKey(DimPrefix, n, ".Value"))
  {
    if dims.Some? {
      DimsGetName(params, DimPrefix, dims.value, n);
      DimsGetValue(params, DimPrefix, dims.value, n);
    }
  }

  /** Keys outside the dimensions are left alone by optional dimensions. */
  lemma DimsIfOther(params: Dict<Val>, dims: Option<Dict<Val>>, k: string)
    requires Apart(k, DimPrefix)
    ensures Get(DimsIf(params, dims), k) == Get(params, k)
  {
    if dims.Some? {
      DimsGetOther(params, DimPrefix, dims.value, k);
    }
  }

  // ------------------------------------------------------ listMetrics

  /** The options of `listMetrics`; `dimensions` is `None` when absent. */
  datatype MetricsQuery = MetricsQuery(namespace: Val, name: Val, token: Val, dimensions: Option<Dict<Val>>)

  /** `opts || {}` */
  function MetricsQueryOrEmpty(opts: Option<MetricsQuery>): MetricsQuery {
    if opts.Some? then opts.value else MetricsQuery(Undef, Undef, Undef, None)
  }

  /** The truthy options of `listMetrics`. */
  function ListMetricsHead(q: MetricsQuery): Dict<Val> {
    PutIf(PutIf(PutIf([], "Namespace", q.namespace), "MetricName", q.name), "NextToken", q.token)
  }

  function ListMetricsParams(q: MetricsQuery): Dict<Val> {
    DimsIf(ListMetricsHead(q), q.dimensions)
  }

  /** `listMetrics(opts)`. */
  method ListMetrics(opts: Option<MetricsQuery>) returns (call: Call<Val>)
    ensures call == Call("ListMetrics", ListMetricsParams(MetricsQueryOrEmpty(opts)))
  {
    var q := MetricsQueryOrEmpty(opts);
    var params: Dict<Val> := [];
    if Truthy(q.namespace) {
      params := Put(params, "Namespace", q.namespace);
    }
    if Truthy(q.name) {
      params := Put(params, "MetricName", q.name);
    }
    if Truthy(q.token) {
      params := Put(params, "NextToken", q.token);
    }
    if q.dimensions.Some? {
      params := AddDims(params, DimPrefix, q.dimensions.value);
    }
    call := Call("ListMetrics", params);
  }

  /** Each option is sent under its name when truthy. */
  lemma ListMetricsHeadGet(q: MetricsQuery, k: string)
    ensures Get(ListMetricsHead(q), k) ==
      if k == "NextToken" && Truthy(q.token) then Some(q.token)
      else if k == "MetricName" && Truthy(q.name) then Some(q.name)
      else if k == "Namespace" && Truthy(q.namespace) then Some(q.namespace)
      else None
  {
    var p1 := PutIf([], "Namespace", q.namespace);
    var p2 := PutIf(p1, "MetricName", q.name);
    PutIfGet(p2, "NextToken", q.token, k);
    PutIfGet(p1, "MetricName", q.name, k);
    PutIfGet([], "Namespace", q.namespace, k);
  }

  /** A parameter outside the dimensions is its option, when truthy. */
  lemma ListMetricsScalar(q: MetricsQuery, k: string)
    requires Apart(k, DimPrefix)
    ensures Get(ListMetricsParams(q), k) == Get(ListMetricsHead(q), k)
  {
    DimsIfOther(ListMetricsHead(q), q.dimensions, k);
  }

  /** The namespace, the metric name and the token are sent exactly when
      they are truthy. */
  lemma ListMetricsOptions(q: MetricsQuery)
    ensures Get(ListMetricsParams(q), "Namespace") == IfTruthy(q.namespace)
    ensures Get(ListMetricsParams(q), "MetricName") == IfTruthy(q.name)
    ensures Get(ListMetricsParams(q), "NextToken") == IfTruthy(q.token)
  {
    ListMetricsScalar(q, "Namespace");
    ListMetricsScalar(q, "MetricName");
    ListMetricsScalar(q, "NextToken");
    ListMetricsHeadGet(q, "Namespace");
    ListMetricsHeadGet(q, "MetricName");
    ListMetricsHeadGet(q, "NextToken");
  }

  /** Dimension n is the n-th name of the dimensions object with its value. */
  lemma ListMetricsDimensions(q: MetricsQuery, n: nat)
    ensures Get(ListMetricsParams(q), MemberKey(DimPrefix, n, ".Name")) ==
      if q.dimensions.Some? && 1 <= n <= |q.dimensions.value| then Some(Str(q.dimensions.value[n - 1].0)) else None
    ensures Get(ListMetricsParams(q), MemberKey(DimPrefix, n, ".Value")) ==
      if q.dimensions.Some? && 1 <= n <= |q.dimensions.value| then Some(q.dimensions.value[n - 1].1) else None
  {
    DimsIfGet(ListMetricsHead(q), q.dimensions, n);
    MemberKeyPrefix(DimPrefix, n, ".Name");
    MemberKeyPrefix(DimPrefix, n, ".Value");
    ListMetricsHeadGet(q, MemberKey(DimPrefix, n, ".Name"));
    ListMetricsHeadGet(q, MemberKey(DimPrefix, n, ".Value"));
  }
  // ------------------------------------------------------ describeAlarmsForMetric

  /** The options of `describeAlarmsForMetric`. The code tests the misspelt
      option `dimenions` and then reads `dimensions`, which is `None` when
      absent. */
  datatype ForMetricQuery = ForMetricQuery(statistic: Val, unit: Val, period: Val,
                                           dimenions: Val, dimensions: Option<Dict<Val>>)

  /** `opts || {}` */
  function ForMetricQueryOrEmpty(opts: Option<ForMetricQuery>): ForMetricQuery {
    if opts.Some? then opts.value else ForMetricQuery(Undef, Undef, Undef, Undef, None)
  }

  /** The fixed parameters and the truthy options. */
  function ForMetricHead(namespace: Val, name: Val, q: ForMetricQuery): Dict<Val> {
    PutIf(PutIf(PutIf([("Namespace", namespace), ("MetricName", name)], "Statistic", q.statistic),
                "Unit", q.unit), "Period", q.period)
  }

  /** The call `describeAlarmsForMetric` makes; `Object.keys(undefined)`
      throws when `dimenions` is truthy and `dimensions` is absent. */
  function ForMetricCall(namespace: Val, name: Val, q: ForMetricQuery): Call<Val> {
    if !Truthy(q.dimenions) then Call("DescribeAlarmsForMetric", ForMetricHead(namespace, name, q))
    else if q.dimensions.None? then Throws
    else Call("DescribeAlarmsForMetric", Dims(ForMetricHead(namespace, name, q), DimPrefix, q.dimensions.value))
  }

  /** `describeAlarmsForMetric(namespace, name, opts)`. */
  method DescribeAlarmsForMetric(namespace: Val, name: Val, opts: Option<ForMetricQuery>) returns (call: Call<Val>)
    ensures call == ForMetricCall(namespace, name, ForMetricQueryOrEmpty(opts))
  {
    var q := ForMetricQueryOrEmpty(opts);
    var params := [("Namespace", namespace), ("MetricName", name)];
    if Truthy(q.statistic) {
      params := Put(params, "Statistic", q.statistic);
    }
    if Truthy(q.unit) {
      params := Put(params, "Unit", q.unit);
    }
    if Truthy(q.period) {
      params := Put(params, "Period", q.period);
    }
    if Truthy(q.dimenions) {
      if q.dimensions.None? {
        return Throws;
      }
      params := AddDims(params, DimPrefix, q.dimensions.value);
    }
    call := Call("DescribeAlarmsForMetric", params);
  }

  /** It throws exactly when the misspelt option is truthy and there are no
      dimensions. */
  lemma ForMetricThrows(namespace: Val, name: Val, q: ForMetricQuery)
    ensures ForMetricCall(namespace, name, q).Throws? <==> Truthy(q.dimenions) && q.dimensions.None?
  {
  }

  /** Each parameter of the head: the namespace and the metric name always,
      the options when truthy. */
  lemma ForMetricHeadGet(namespace: Val, name: Val, q: ForMetricQuery, k: string)
    ensures Get(ForMetricHead(namespace, name, q), k) ==
      if k == "Period" && Truthy(q.period) then Some(q.period)
      else if k == "Unit" && Truthy(q.unit) then Some(q.unit)
      else if k == "Statistic" && Truthy(q.statistic) then Some(q.statistic)
      else if k == "Namespace" then Some(namespace)
      else if k == "MetricName" then Some(name)
      else None
  {
    var p0 := [("Namespace", namespace), ("MetricName", name)];
    var p1 := PutIf(p0, "Statistic", q.statistic);
    var p2 := PutIf(p1, "Unit", q.unit);
    PutIfGet(p2, "Period", q.period, k);
    PutIfGet(p1, "Unit", q.unit, k);
    PutIfGet(p0, "Statistic", q.statistic, k);
  }

  /** Dimension n is sent only when the misspelt option is truthy, and then
      it is the n-th name of `dimensions` with its value. */
  lemma ForMetricDimensions(namespace: Val, name: Val, q: ForMetricQuery, n: nat)
    requires ForMetricCall(namespace, name, q).Call?
    ensures Get(ForMetricCall(namespace, name, q).params, MemberKey(DimPrefix, n, ".Name")) ==
      if Truthy(q.dimenions) && 1 <= n <= |q.dimensions.value| then Some(Str(q.dimensions.value[n - 1].0)) else None
    ensures Get(ForMetricCall(namespace, name, q).params, MemberKey(DimPrefix, n, ".Value")) ==
      if Truthy(q.dimenions) && 1 <= n <= |q.dimensions.value| then Some(q.dimensions.value[n - 1].1) else None
  {
    var head := ForMetricHead(namespace, name, q);
    MemberKeyPrefix(DimPrefix, n, ".Name");
    MemberKeyPrefix(DimPrefix, n, ".Value");
    ForMetricHeadGet(namespace, name, q, MemberKey(DimPrefix, n, ".Name"));
    ForMetricHeadGet(namespace, name, q, MemberKey(DimPrefix, n, ".Value"));
    if Truthy(q.dimenions) {
      DimsGetName(head, DimPrefix, q.dimensions.value, n);
      DimsGetValue(head, DimPrefix, q.dimensions.value, n);
    }
  }

  /** The parameters outside the dimensions do not depend on them. */
  lemma ForMetricScalar(namespace: Val, name: Val, q: ForMetricQuery, k: string)
    requires ForMetricCall(namespace, name, q).Call? && Apart(k, DimPrefix)
    ensures Get(ForMetricCall(namespace, name, q).params, k) == Get(ForMetricHead(namespace, name, q), k)
  {
    if Truthy(q.dimenions) {
      DimsGetOther(ForMetricHead(namespace, name, q), DimPrefix, q.dimensions.value, k);
    }
  }

  // ------------------------------------------------------ setAlarmState

  /** The parameters of `setAlarmState(name, reason, value, reasonData)`:
      the alarm name goes under the misspelt key `AlaramName`, and the
      reason data, when truthy, as its JSON text (`stringify` stands for
      `JSON.stringify`). `reasonData` is `None` for a falsy argument
      (`undefined`, `null`, `false`, `0`, `NaN`, `""`) and `Some` for any
      other. */
  function AlarmStateParams<D>(name: Val, reason: Val, value: Val, reasonData: Option<D>,
                               stringify: D -> string): Dict<Val>
  {
    var params := [("AlaramName", name), ("StateReason", reason), ("StateValue", value)];
    if reasonData.Some? then Put(params, "StateReasonData", Str(stringify(reasonData.value))) else params
  }

  /** `setAlarmState(name, reason, value, reasonData)`: builds the
      parameter object and adds `StateReasonData` to it in place when the
      reason data is truthy. */
  method SetAlarmState<D>(name: Val, reason: Val, value: Val, reasonData: Option<D>,
                          stringify: D -> string) returns (call: Call<Val>)
    ensures call == Call("SetAlarmState", AlarmStateParams(name, reason, value, reasonData, stringify))
  {
    var params := [("AlaramName", name), ("StateReason", reason), ("StateValue", value)];
    if reasonData.Some? {
      params := Put(params, "StateReasonData", Str(stringify(reasonData.value)));
    }
    call := Call("SetAlarmState", params);
  }

  /** What `setAlarmState` sends: the name, the reason and the state, and
      the reason data as JSON exactly when it is truthy; nothing else. */
  lemma AlarmStateGet<D>(name: Val, reason: Val, value: Val, reasonData: Option<D>, stringify: D -> string,
                         k: string)
    ensures Get(AlarmStateParams(name, reason, value, reasonData, stringify), k) ==
      if k == "StateReasonData" && reasonData.Some? then Some(Str(stringify(reasonData.value)))
      else if k == "AlaramName" then Some(name)
      else if k == "StateReason" then Some(reason)
      else if k == "StateValue" then Some(value)
      else None
  {
    var fixed := [("AlaramName", name), ("StateReason", reason), ("StateValue", value)];
    GetThree("AlaramName", name, "StateReason", reason, "StateValue", value, k);
    if reasonData.Some? {
      GetPut(fixed, "StateReasonData", Str(stringify(reasonData.value)), k);
    }
  }

  /** The alarm name is sent under the misspelt key only. */
  lemma AlarmStateName<D>(name: Val, reason: Val, value: Val, reasonData: Option<D>, stringify: D -> string)
    ensures Get(AlarmStateParams(name, reason, value, reasonData, stringify), "AlaramName") == Some(name)
    ensures Get(AlarmStateParams(name, reason, value, reasonData, stringify), "AlarmName") == None
  {
    AlarmStateGet(name, reason, value, reasonData, stringify, "AlaramName");
    AlarmStateGet(name, reason, value, reasonData, stringify, "AlarmName");
  }

  /** Looking a key up in an object literal of three entries. */
  lemma GetThree<V>(k1: string, v1: V, k2: string, v2: V, k3: string, v3: V, k: string)
    ensures Get([(k1, v1), (k2, v2), (k3, v3)], k) ==
      if k == k1 then Some(v1) else if k == k2 then Some(v2) else if k == k3 then Some(v3) else None
  {
    assert [(k1, v1), (k2, v2), (k3, v3)] == [(k1, v1)] + ([(k2, v2)] + ([(k3, v3)] + []));
    GetCons(k1, v1, [(k2, v2), (k3, v3)], k);
    GetCons(k2, v2, [(k3, v3)], k);
    GetCons(k3, v3, [], k);
  }

  // ------------------------------------------------------ putMetricAlarm

  const OperatorStrings: seq<Val> := [Str("GreaterThanOrEqualToThreshold"), Str("GreaterThanThreshold"),
                                      Str("LessThanThreshold"), Str("LessThanOrEqualToThreshold")]

  const OperatorShortHand: seq<Val> := [Str(">="), Str(">"), Str("<"), Str("<=")]

  /** `xs.indexOf(v)`: the first position of `v`, or -1. */
  function IndexOf(xs: seq<Val>, v: Val): (r: int)
    ensures -1 <= r < |xs|
    ensures r == -1 <==> v !in xs
    ensures r >= 0 ==> xs[r] == v && forall j :: 0 <= j < r ==> xs[j] != v
    decreases |xs|
  {
    if xs == [] then -1
    else if xs[0] == v then 0
    else
      var r := IndexOf(xs[1..], v);
      if r == -1 then -1 else r + 1
  }

  /** The comparison operator as sent: a long name stays, a shorthand
      becomes the long name at its position, anything else `undefined`. */
  function Operator(op: Val): Val {
    if IndexOf(OperatorStrings, op) != -1 then op
    else
      var j := IndexOf(OperatorShortHand, op);
      if j == -1 then Undef else OperatorStrings[j]
  }

  /** Every shorthand maps to the long name at its position, and long
      names are kept. */
  lemma OperatorNames(j: nat)
    requires j < 4
    ensures Operator(OperatorShortHand[j]) == OperatorStrings[j]
    ensures Operator(OperatorStrings[j]) == OperatorStrings[j]
  {
    assert OperatorShortHand[j] !in OperatorStrings;
    assert forall i :: 0 <= i < j ==> OperatorShortHand[i] != OperatorShortHand[j];
  }

  /** Anything that is neither a long name nor a shorthand is sent as
      `undefined`. */
  lemma OperatorUnknown(op: Val)
    requires op !in OperatorStrings && op !in OperatorShortHand
    ensures Operator(op) == Undef
  {
  }

  /** The result is always a long name or `undefined`, so mapping twice
      changes nothing. */
  lemma OperatorIdempotent(op: Val)
    ensures Operator(op) in OperatorStrings || Operator(op) == Undef
    ensures Operator(Operator(op)) == Operator(op)
  {
    assert Undef !in OperatorStrings && Undef !in OperatorShortHand;
  }

  /** The options of `putMetricAlarm`. The code tests `alarmActions` but
      reads the misspelt `alaramActions`; a list option is `None` when
      absent. */
  datatype AlarmOptions = AlarmOptions(actionsEnabled: Val, alarmActions: Option<seq<Val>>,
                                       alaramActions: Option<seq<Val>>, alarmDescription: Val,
                                       dimensions: Option<Dict<Val>>, insufficientDataActions: Option<seq<Val>>,
                                       okActions: Option<seq<Val>>, unit: Val)

  /** The fixed parameters and the comparison operator as mapped. */
  function AlarmHead(namespace: Val, metricName: Val, alarmName: Val, comparison: Val, evaluationPeriod: Val,
                     period: Val, statistic: Val, threshold: Val): Dict<Val>
  {
    Put([("Namespace", namespace), ("MetricName", metricName), ("AlarmName", alarmName),
         ("EvaluationPeriod", evaluationPeriod), ("Period", period), ("Statistic", statistic),
         ("Threshold", threshold)], "ComparisonOperator", comparison)
  }

  /** The enabled flag, the actions and the description, in the order the
      code adds them. */
  function AlarmFront(head: Dict<Val>, o: AlarmOptions): Dict<Val>
    requires o.alarmActions.Some? ==> o.alaramActions.Some?
  {
    var enabled := PutIf(head, "ActionsEnabled", o.actionsEnabled);
    var actions := if o.alarmActions.Some? then Members(enabled, "AlaramActions.member.", o.alaramActions.value) else enabled;
    PutIf(actions, "AlarmDescription", o.alarmDescription)
  }

  /** The dimensions, the other action lists and the unit, after them. */
  function AlarmBack(front: Dict<Val>, o: AlarmOptions): Dict<Val> {
    var dims := DimsIf(front, o.dimensions);
    var insufficient := MembersIf(dims, "InsufficientDataActions.member.", o.insufficientDataActions);
    PutIf(MembersIf(insufficient, "OKActions.member.", o.okActions), "Unit", o.unit)
  }

  /** The options added to the head. */
  function AlarmParams(head: Dict<Val>, o: AlarmOptions): Dict<Val>
    requires o.alarmActions.Some? ==> o.alaramActions.Some?
  {
    AlarmBack(AlarmFront(head, o), o)
  }

  /** The call `putMetricAlarm` makes. Reading an option of absent `opts`
      throws, and so does `alaramActions.forEach` when `alarmActions` is
      given but `alaramActions` is not. */
  function PutMetricAlarmCall(namespace: Val, metricName: Val, alarmName: Val, op: Val, evaluationPeriod: Val,
                              period: Val, statistic: Val, threshold: Val, opts: Option<AlarmOptions>): Call<Val>
  {
    if opts.None? || (opts.value.alarmActions.Some? && opts.value.alaramActions.None?) then Throws
    else Call("PutMetricAlarm",
      AlarmParams(AlarmHead(namespace, metricName, alarmName, Operator(op), evaluationPeriod, period, statistic, threshold), opts.value))
  }

  /** `putMetricAlarm(namespace, metricName, alarmName, comparisonOperator,
      evaluationPeriod, period, statistic, threshold, opts)`. */
  method PutMetricAlarm(namespace: Val, metricName: Val, alarmName: Val, op: Val, evaluationPeriod: Val,
                        period: Val, statistic: Val, threshold: Val, opts: Option<AlarmOptions>)
    returns (call: Call<Val>)
    ensures call == PutMetricAlarmCall(namespace, metricName, alarmName, op, evaluationPeriod, period, statistic, threshold, opts)
  {
    var params := [("Namespace", namespace), ("MetricName", metricName), ("AlarmName", alarmName),
                   ("EvaluationPeriod", evaluationPeriod), ("Period", period), ("Statistic", statistic),
                   ("Threshold", threshold)];
    var comparison := op;
    if IndexOf(OperatorStrings, comparison) == -1 {
      var j := IndexOf(OperatorShortHand, comparison);
      comparison := if j == -1 then Undef else OperatorStrings[j];
    }
    params := Put(params, "ComparisonOperator", comparison);
    if opts.None? || (opts.value.alarmActions.Some? && opts.value.alaramActions.None?) {
      // `opts.actionsEnabled` or `opts.alaramActions.forEach` throws
      return Throws;
    }
    params := AddAlarmOptions(params, opts.value);
    call := Call("PutMetricAlarm", params);
  }

  /** The options of `putMetricAlarm`, added in order. */
  method AddAlarmOptions(head: Dict<Val>, o: AlarmOptions) returns (params: Dict<Val>)
    requires o.alarmActions.Some? ==> o.alaramActions.Some?
    ensures params == AlarmParams(head, o)
  {
    params := AddAlarmFront(head, o);
    params := AddAlarmBack(params, o);
  }

  /** The first three options: `ActionsEnabled`, the misspelt action list
      and `AlarmDescription`. */
  method AddAlarmFront(head: Dict<Val>, o: AlarmOptions) returns (params: Dict<Val>)
    requires o.alarmActions.Some? ==> o.alaramActions.Some?
    ensures params == AlarmFront(head, o)
  {
    params := head;
    if Truthy(o.actionsEnabled) {
      params := Put(params, "ActionsEnabled", o.actionsEnabled);
    }
    if o.alarmActions.Some? {
      params := AddMembers(params, "AlaramActions.member.", o.alaramActions.value);
    }
    if Truthy(o.alarmDescription) {
      params := Put(params, "AlarmDescription", o.alarmDescription);
    }
  }

  /** The remaining options: dimensions, the two other action lists and
      `Unit`. */
  method AddAlarmBack(front: Dict<Val>, o: AlarmOptions) returns (params: Dict<Val>)
    ensures params == AlarmBack(front, o)
  {
    params := front;
    if o.dimensions.Some? {
      params := AddDims(params, DimPrefix, o.dimensions.value);
    }
    if o.insufficientDataActions.Some? {
      params := AddMembers(params, "InsufficientDataActions.member.", o.insufficientDataActions.value);
    }
    if o.okActions.Some? {
      params := AddMembers(params, "OKActions.member.", o.okActions.value);
    }
    if Truthy(o.unit) {
      params := Put(params, "Unit", o.unit);
    }
  }

  /** It throws exactly when `opts` is absent or `alarmActions` is given
      without `alaramActions`. */
  lemma PutMetricAlarmThrows(namespace: Val, metricName: Val, alarmName: Val, op: Val, evaluationPeriod: Val,
                             period: Val, statistic: Val, threshold: Val, opts: Option<AlarmOptions>)
    ensures PutMetricAlarmCall(namespace, metricName, alarmName, op, evaluationPeriod, period, statistic, threshold, opts).Throws?
      <==> opts.None? || (opts.value.alarmActions.Some? && opts.value.alaramActions.None?)
  {
  }

  /** A key apart from every list and the dimensions is set by the head or
      by the truthy scalar options. */
  lemma AlarmParamsScalar(head: Dict<Val>, o: AlarmOptions, k: string)
    requires o.alarmActions.Some? ==> o.alaramActions.Some?
    requires Apart(k, "AlaramActions.member.") && Apart(k, DimPrefix)
    requires Apart(k, "InsufficientDataActions.member.") && Apart(k, "OKActions.member.")
    ensures Get(AlarmParams(head, o), k) ==
      if k == "Unit" && Truthy(o.unit) then Some(o.unit)
      else if k == "AlarmDescription" && Truthy(o.alarmDescription) then Some(o.alarmDescription)
      else if k == "ActionsEnabled" && Truthy(o.actionsEnabled) then Some(o.actionsEnabled)
      else Get(head, k)
  {
    var enabled := PutIf(head, "ActionsEnabled", o.actionsEnabled);
    var actions := MembersIf(enabled, "AlaramActions.member.", if o.alarmActions.Some? then o.alaramActions else None);
    var described := PutIf(actions, "AlarmDescription", o.alarmDescription);
    var dims := DimsIf(described, o.dimensions);
    var insufficient := MembersIf(dims, "InsufficientDataActions.member.", o.insufficientDataActions);
    var ok := MembersIf(insufficient, "OKActions.member.", o.okActions);
    PutIfGet(ok, "Unit", o.unit, k);
    MembersIfOther(insufficient, "OKActions.member.", o.okActions, k);
    MembersIfOther(dims, "InsufficientDataActions.member.", o.insufficientDataActions, k);
    DimsIfOther(described, o.dimensions, k);
    PutIfGet(actions, "AlarmDescription", o.alarmDescription, k);
    MembersIfOther(enabled, "AlaramActions.member.", if o.alarmActions.Some? then o.alaramActions else None, k);
    PutIfGet(head, "ActionsEnabled", o.actionsEnabled, k);
  }

  /** The comparison operator is sent mapped by `Operator`. */
  lemma PutMetricAlarmOperator(namespace: Val, metricName: Val, alarmName: Val, op: Val, evaluationPeriod: Val,
                               period: Val, statistic: Val, threshold: Val, opts: Option<AlarmOptions>)
    requires PutMetricAlarmCall(namespace, metricName, alarmName, op, evaluationPeriod, period, statistic, threshold, opts).Call?
    ensures Get(PutMetricAlarmCall(namespace, metricName, alarmName, op, evaluationPeriod, period, statistic, threshold, opts).params,
                "ComparisonOperator") == Some(Operator(op))
  {
    var k := "ComparisonOperator";
    ApartAt(k, "AlaramActions.member.", 0);
    ApartAt(k, DimPrefix, 0);
    ApartAt(k, "InsufficientDataActions.member.", 0);
    ApartAt(k, "OKActions.member.", 0);
    var fixed := [("Namespace", namespace), ("MetricName", metricName), ("AlarmName", alarmName),
                  ("EvaluationPeriod", evaluationPeriod), ("Period", period), ("Statistic", statistic),
                  ("Threshold", threshold)];
    AlarmParamsScalar(AlarmHead(namespace, metricName, alarmName, Operator(op), evaluationPeriod, period, statistic, threshold),
                      opts.value, k);
    GetPutSame(fixed, k, Operator(op));
  }
  /** The fixed parameters have short keys only. */
  lemma AlarmFixedLong(namespace: Val, metricName: Val, alarmName: Val, evaluationPeriod: Val,
                       period: Val, statistic: Val, threshold: Val, k: string)
    requires |k| > 18
    ensures Get([("Namespace", namespace), ("MetricName", metricName), ("AlarmName", alarmName),
                 ("EvaluationPeriod", evaluationPeriod), ("Period", period), ("Statistic", statistic),
                 ("Threshold", threshold)], k) == None
  {
    var fixed := [("Namespace", namespace), ("MetricName", metricName), ("AlarmName", alarmName),
                  ("EvaluationPeriod", evaluationPeriod), ("Period", period), ("Statistic", statistic),
                  ("Threshold", threshold)];
    assert forall i :: 0 <= i < |fixed| ==> |Keys(fixed)[i]| < |k|;
    assert k !in Keys(fixed);
  }

  /** Nor does the operator. */
  lemma AlarmHeadLong(namespace: Val, metricName: Val, alarmName: Val, comparison: Val, evaluationPeriod: Val,
                      period: Val, statistic: Val, threshold: Val, k: string)
    requires |k| > 18
    ensures Get(AlarmHead(namespace, metricName, alarmName, comparison, evaluationPeriod, period, statistic, threshold), k) == None
  {
    var fixed := [("Namespace", namespace), ("MetricName", metricName), ("AlarmName", alarmName),
                  ("EvaluationPeriod", evaluationPeriod), ("Period", period), ("Statistic", statistic),
                  ("Threshold", threshold)];
    GetPutOther(fixed, "ComparisonOperator", comparison, k);
    AlarmFixedLong(namespace, metricName, alarmName, evaluationPeriod, period, statistic, threshold, k);
  }

  /** The options after the description leave other keys alone. */
  lemma AlarmBackOther(front: Dict<Val>, o: AlarmOptions, k: string)
    requires Apart(k, DimPrefix) && Apart(k, "InsufficientDataActions.member.") && Apart(k, "OKActions.member.")
    requires k != "Unit"
    ensures Get(AlarmBack(front, o), k) == Get(front, k)
  {
    var dims := DimsIf(front, o.dimensions);
    var insufficient := MembersIf(dims, "InsufficientDataActions.member.", o.insufficientDataActions);
    var ok := MembersIf(insufficient, "OKActions.member.", o.okActions);
    PutIfGet(ok, "Unit", o.unit, k);
    MembersIfOther(insufficient, "OKActions.member.", o.okActions, k);
    MembersIfOther(dims, "InsufficientDataActions.member.", o.insufficientDataActions, k);
    DimsIfOther(front, o.dimensions, k);
  }

  /** A key under one of the action prefixes, after the description. */
  lemma AlarmBackActions(front: Dict<Val>, o: AlarmOptions, prefix: string, n: nat)
    requires prefix == "AlaramActions.member." || prefix == "AlarmActions.member."
    ensures Get(AlarmBack(front, o), MemberKey(prefix, n, "")) == Get(front, MemberKey(prefix, n, ""))
  {
    MemberKeyApart(prefix, n, "", DimPrefix, 0);
    MemberKeyApart(prefix, n, "", "InsufficientDataActions.member.", 0);
    MemberKeyApart(prefix, n, "", "OKActions.member.", 0);
    MemberKeyPrefix(prefix, n, "");
    AlarmBackOther(front, o, MemberKey(prefix, n, ""));
  }

  /** The actions of the options, over any head without such keys. */
  lemma AlarmParamsActions(head: Dict<Val>, o: AlarmOptions, n: nat)
    requires o.alarmActions.Some? ==> o.alaramActions.Some?
    requires Get(head, MemberKey("AlaramActions.member.", n, "")) == None
    requires Get(head, MemberKey("AlarmActions.member.", n, "")) == None
    ensures Get(AlarmParams(head, o), MemberKey("AlaramActions.member.", n, "")) ==
      if o.alarmActions.Some? && 1 <= n <= |o.alaramActions.value| then Some(o.alaramActions.value[n - 1]) else None
    ensures Get(AlarmParams(head, o), MemberKey("AlarmActions.member.", n, "")) == None
  {
    var enabled := PutIf(head, "ActionsEnabled", o.actionsEnabled);
    var actions := if o.alarmActions.Some? then Members(enabled, "AlaramActions.member.", o.alaramActions.value) else enabled;
    var k := MemberKey("AlaramActions.member.", n, "");
    var wrong := MemberKey("AlarmActions.member.", n, "");
    MemberKeyPrefix("AlaramActions.member.", n, "");
    MemberKeyPrefix("AlarmActions.member.", n, "");
    AlarmBackActions(AlarmFront(head, o), o, "AlaramActions.member.", n);
    AlarmBackActions(AlarmFront(head, o), o, "AlarmActions.member.", n);
    PutIfGet(actions, "AlarmDescription", o.alarmDescription, k);
    PutIfGet(actions, "AlarmDescription", o.alarmDescription, wrong);
    AlarmActionsMembers(enabled, o, n);
    MemberKeyApart("AlarmActions.member.", n, "", "AlaramActions.member.", 4);
    MembersIfOther(enabled, "AlaramActions.member.", if o.alarmActions.Some? then o.alaramActions else None, wrong);
    PutIfGet(head, "ActionsEnabled", o.actionsEnabled, k);
    PutIfGet(head, "ActionsEnabled", o.actionsEnabled, wrong);
  }

  /** The alarm actions are sent as `AlaramActions.member.N`, taken from
      `alaramActions` whenever `alarmActions` is given; no parameter is
      ever named `AlarmActions.member.N`. */
  lemma PutMetricAlarmActions(namespace: Val, metricName: Val, alarmName: Val, op: Val, evaluationPeriod: Val,
                              period: Val, statistic: Val, threshold: Val, opts: Option<AlarmOptions>, n: nat)
    requires PutMetricAlarmCall(namespace, metricName, alarmName, op, evaluationPeriod, period, statistic, threshold, opts).Call?
    ensures var params := PutMetricAlarmCall(namespace, metricName, alarmName, op, evaluationPeriod, period, statistic, threshold, opts).params;
      && Get(params, MemberKey("AlaramActions.member.", n, "")) ==
        (if opts.value.alarmActions.Some? && 1 <= n <= |opts.value.alaramActions.value|
         then Some(opts.value.alaramActions.value[n - 1]) else None)
      && Get(params, MemberKey("AlarmActions.member.", n, "")) == None
  {
    MemberKeyPrefix("AlaramActions.member.", n, "");
    MemberKeyPrefix("AlarmActions.member.", n, "");
    var comparison := Operator(op);
    AlarmHeadLong(namespace, metricName, alarmName, comparison, evaluationPeriod, period, statistic, threshold,
                  MemberKey("AlaramActions.member.", n, ""));
    AlarmHeadLong(namespace, metricName, alarmName, comparison, evaluationPeriod, period, statistic, threshold,
                  MemberKey("AlarmActions.member.", n, ""));
    AlarmParamsActions(AlarmHead(namespace, metricName, alarmName, comparison, evaluationPeriod, period, statistic, threshold),
                       opts.value, n);
  }

  /** Member n of the actions, when `alarmActions` is given. */
  lemma AlarmActionsMembers(enabled: Dict<Val>, o: AlarmOptions, n: nat)
    requires o.alarmActions.Some? ==> o.alaramActions.Some?
    ensures Get(if o.alarmActions.Some? then Members(enabled, "AlaramActions.member.", o.alaramActions.value) else enabled,
                MemberKey("AlaramActions.member.", n, "")) ==
      if o.alarmActions.Some? && 1 <= n <= |o.alaramActions.value| then Some(o.alaramActions.value[n - 1])
      else Get(enabled, MemberKey("AlaramActions.member.", n, ""))
  {
    if o.alarmActions.Some? {
      MembersGet(enabled, "AlaramActions.member.", o.alaramActions.value, n);
    }
  }
  // ------------------------------------------------------ putMetricData

  const DataPrefix := "MetricData.member."

  /** One element of the `data` array of `putMetricData`; `value` is
      `Undef` when the item has none, `dimensions` is `None` when absent. */
  datatype Datum = Datum(name: Val, unit: Val, timestamp: Val, value: Val, max: Val, min: Val,
                         samples: Val, sum: Val, dimensions: Option<Dict<Val>>)

  /** `base + suffix` with `base = 'MetricData.member.' + n`. */
  function DataKey(n: nat, suffix: string): string {
    MemberKey(DataPrefix, n, suffix)
  }

  /** The name, unit and timestamp of item n. */
  function DatumHead(params: Dict<Val>, n: nat, item: Datum): Dict<Val> {
    Put(Put(Put(params, DataKey(n, ".MetricName"), item.name), DataKey(n, ".Unit"), item.unit),
        DataKey(n, ".Timestamp"), item.timestamp)
  }

  /** Then the value, or the four statistic values when the value is
      `undefined`. */
  function DatumValues(params: Dict<Val>, n: nat, item: Datum): Dict<Val> {
    var head := DatumHead(params, n, item);
    if item.value == Undef then
      Put(Put(Put(Put(head, DataKey(n, ".StatisticValues.Maximum"), item.max),
                  DataKey(n, ".StatisticValues.Minimum"), item.min),
              DataKey(n, ".StatisticValues.SampleCount"), item.samples),
          DataKey(n, ".StatisticValues.Sum"), item.sum)
    else Put(head, DataKey(n, ".Value"), item.value)
  }

  /** The dimensions of an item; an item without them makes the whole
      call throw, so the empty object here is never sent. */
  function DimsOf(item: Datum): Dict<Val> {
    if item.dimensions.Some? then item.dimensions.value else []
  }

  /** Item n with its dimensions numbered from 1 under
      `base + '.Dimensions.member.'`. */
  function DatumParams(params: Dict<Val>, n: nat, item: Datum): Dict<Val> {
    Dims(DatumValues(params, n, item), DataKey(n, ".Dimensions.member."), DimsOf(item))
  }

  /** `Object.keys(item.dimensions)` throws for an item without
      dimensions. */
  predicate AllHaveDimensions(data: seq<Datum>) {
    forall j :: 0 <= j < |data| ==> data[j].dimensions.Some?
  }

  /** The items from `rest` on, the first of them numbered `n`. */
  function DataFrom(params: Dict<Val>, rest: seq<Datum>, n: nat): Dict<Val>
    decreases |rest|
  {
    if rest == [] then params
    else DataFrom(DatumParams(params, n, rest[0]), rest[1..], n + 1)
  }

  /** The call `putMetricData(namespace, data)` makes: item n (from 1) under
      `MetricData.member.n`; it throws exactly when some item has no
      dimensions. */
  function PutMetricDataCall(namespace: Val, data: seq<Datum>): Call<Val> {
    if AllHaveDimensions(data) then Call("PutMetricData", DataFrom([("Namespace", namespace)], data, 1))
    else Throws
  }

  /** The `forEach` callback for item n. */
  method AddDatum(params: Dict<Val>, n: nat, item: Datum) returns (r: Dict<Val>)
    requires item.dimensions.Some?
    ensures r == DatumParams(params, n, item)
  {
    r := Put(params, DataKey(n, ".MetricName"), item.name);
    r := Put(r, DataKey(n, ".Unit"), item.unit);
    r := Put(r, DataKey(n, ".Timestamp"), item.timestamp);
    if item.value == Undef {
      r := Put(r, DataKey(n, ".StatisticValues.Maximum"), item.max);
      r := Put(r, DataKey(n, ".StatisticValues.Minimum"), item.min);
      r := Put(r, DataKey(n, ".StatisticValues.SampleCount"), item.samples);
      r := Put(r, DataKey(n, ".StatisticValues.Sum"), item.sum);
    } else {
      r := Put(r, DataKey(n, ".Value"), item.value);
    }
    r := AddDims(r, DataKey(n, ".Dimensions.member."), item.dimensions.value);
  }

  /** The first remaining item is one step, the next numbered `next`. */
  lemma DataFromNext(params: Dict<Val>, rest: seq<Datum>, n: nat, next: nat)
    requires rest != [] && next == n + 1
    ensures DataFrom(params, rest, n) == DataFrom(DatumParams(params, n, rest[0]), rest[1..], next)
  {
    var step := DatumParams(params, n, rest[0]);
    assert DataFrom(params, rest, n) == DataFrom(step, rest[1..], n + 1);
  }

  /** `putMetricData(namespace, data)`; `rest` holds the items from `index`
      on and `n` is `index + 1`. */
  method PutMetricData(namespace: Val, data: seq<Datum>) returns (call: Call<Val>)
    ensures call == PutMetricDataCall(namespace, data)
  {
    var start := [("Namespace", namespace)];
    var params := start;
    var index := 0;
    var n: nat := 1;
    var rest := data;
    while rest != []
      invariant 0 <= index <= |data| && rest == data[index..] && n == index + 1
      invariant forall j :: 0 <= j < index ==> data[j].dimensions.Some?
      invariant DataFrom(params, rest, n) == DataFrom(start, data, 1)
      decreases |rest|
    {
      var item := rest[0];
      if item.dimensions.None? {
        assert data[index] == item;
        return Throws;
      }
      var next := n + 1;
      DataFromNext(params, rest, n, next);
      params := AddDatum(params, n, item);
      index := index + 1;
      rest := rest[1..];
      n := next;
    }
    call := Call("PutMetricData", params);
  }
  /** Assigning a key of item n, read back through a key of item m. */
  lemma PutDataKey(d: Dict<Val>, n: nat, t: string, v: Val, m: nat, s: string)
    requires Separates(s) && Separates(t)
    ensures Get(Put(d, DataKey(n, t), v), DataKey(m, s)) ==
      if m == n && s == t then Some(v) else Get(d, DataKey(m, s))
  {
    MemberKeyInjective(DataPrefix, m, s, n, t);
    GetPut(d, DataKey(n, t), v, DataKey(m, s));
  }

  /** What item `item` sends under `base + s`, outside its dimensions. */
  function DatumField(item: Datum, s: string): Option<Val> {
    if s == ".MetricName" then Some(item.name)
    else if s == ".Unit" then Some(item.unit)
    else if s == ".Timestamp" then Some(item.timestamp)
    else if item.value != Undef then (if s == ".Value" then Some(item.value) else None)
    else if s == ".StatisticValues.Maximum" then Some(item.max)
    else if s == ".StatisticValues.Minimum" then Some(item.min)
    else if s == ".StatisticValues.SampleCount" then Some(item.samples)
    else if s == ".StatisticValues.Sum" then Some(item.sum)
    else None
  }

  /** The name, unit, timestamp and values of item n, read through any key
      of item m. */
  lemma DatumValuesGet(params: Dict<Val>, n: nat, item: Datum, m: nat, s: string)
    requires Separates(s)
    ensures Get(DatumValues(params, n, item), DataKey(m, s)) ==
      if m == n && DatumField(item, s).Some? then DatumField(item, s) else Get(params, DataKey(m, s))
  {
    var p1 := Put(params, DataKey(n, ".MetricName"), item.name);
    var p2 := Put(p1, DataKey(n, ".Unit"), item.unit);
    var head := Put(p2, DataKey(n, ".Timestamp"), item.timestamp);
    PutDataKey(params, n, ".MetricName", item.name, m, s);
    PutDataKey(p1, n, ".Unit", item.unit, m, s);
    PutDataKey(p2, n, ".Timestamp", item.timestamp, m, s);
    if item.value == Undef {
      var q1 := Put(head, DataKey(n, ".StatisticValues.Maximum"), item.max);
      var q2 := Put(q1, DataKey(n, ".StatisticValues.Minimum"), item.min);
      var q3 := Put(q2, DataKey(n, ".StatisticValues.SampleCount"), item.samples);
      PutDataKey(head, n, ".StatisticValues.Maximum", item.max, m, s);
      PutDataKey(q1, n, ".StatisticValues.Minimum", item.min, m, s);
      PutDataKey(q2, n, ".StatisticValues.SampleCount", item.samples, m, s);
      PutDataKey(q3, n, ".StatisticValues.Sum", item.sum, m, s);
    } else {
      PutDataKey(head, n, ".Value", item.value, m, s);
    }
  }

  /** Item n, read through a key of item m outside m's dimensions. */
  lemma DatumParamsGet(params: Dict<Val>, n: nat, item: Datum, m: nat, s: string)
    requires Separates(s) && (m != n || Apart(s, ".Dimensions.member."))
    ensures Get(DatumParams(params, n, item), DataKey(m, s)) ==
      if m == n && DatumField(item, s).Some? then DatumField(item, s) else Get(params, DataKey(m, s))
  {
    MemberKeysApart(DataPrefix, m, s, n, ".Dimensions.member.");
    DimsGetOther(DatumValues(params, n, item), DataKey(n, ".Dimensions.member."), DimsOf(item), DataKey(m, s));
    DatumValuesGet(params, n, item, m, s);
  }

  /** Items numbered from `n` leave the keys of other numbers alone. */
  lemma {:induction false} DataFromOther(params: Dict<Val>, rest: seq<Datum>, n: nat, m: nat, s: string)
    requires Separates(s) && (m < n || m >= n + |rest|)
    ensures Get(DataFrom(params, rest, n), DataKey(m, s)) == Get(params, DataKey(m, s))
    decreases |rest|
  {
    if rest != [] {
      var next := n + 1;
      DataFromNext(params, rest, n, next);
      DataFromOther(DatumParams(params, n, rest[0]), rest[1..], next, m, s);
      DatumParamsGet(params, n, rest[0], m, s);
    }
  }

  /** Items `a` then items `b`, numbered on from where `a` ends. */
  lemma {:induction false} DataFromAppend(params: Dict<Val>, a: seq<Datum>, b: seq<Datum>, n: nat, k: nat)
    requires k == n + |a|
    ensures DataFrom(params, a + b, n) == DataFrom(DataFrom(params, a, n), b, k)
    decreases |a|
  {
    if a == [] {
      assert a + b == b;
    } else {
      var next := n + 1;
      assert (a + b)[0] == a[0] && (a + b)[1..] == a[1..] + b;
      DataFromNext(params, a + b, n, next);
      DataFromNext(params, a, n, next);
      DataFromAppend(DatumParams(params, n, a[0]), a[1..], b, next, k);
    }
  }

  /** Item m (1 <= m <= |data|) between the items before and after it. */
  lemma DataFromItem(params: Dict<Val>, data: seq<Datum>, m: nat, next: nat)
    requires 1 <= m <= |data| && next == m + 1
    ensures DataFrom(params, data, 1) ==
      DataFrom(DatumParams(DataFrom(params, data[..m - 1], 1), m, data[m - 1]), data[m..], next)
  {
    assert data == data[..m - 1] + data[m - 1..];
    DataFromAppend(params, data[..m - 1], data[m - 1..], 1, m);
    assert data[m - 1..][1..] == data[m..];
    DataFromNext(DataFrom(params, data[..m - 1], 1), data[m - 1..], m, next);
  }

  /** Item m's name, unit, timestamp and value or statistic values are
      sent under `MetricData.member.m`, for 1 <= m <= |data|; no other
      number is used. */
  lemma PutMetricDataField(namespace: Val, data: seq<Datum>, m: nat, s: string)
    requires PutMetricDataCall(namespace, data).Call?
    requires Separates(s) && Apart(s, ".Dimensions.member.")
    ensures Get(PutMetricDataCall(namespace, data).params, DataKey(m, s)) ==
      if 1 <= m <= |data| then DatumField(data[m - 1], s) else None
  {
    var start := [("Namespace", namespace)];
    MemberKeyPrefix(DataPrefix, m, s);
    GetCons("Namespace", namespace, [], DataKey(m, s));
    if 1 <= m <= |data| {
      var before := DataFrom(start, data[..m - 1], 1);
      DataFromItem(start, data, m, m + 1);
      DataFromOther(DatumParams(before, m, data[m - 1]), data[m..], m + 1, m, s);
      DatumParamsGet(before, m, data[m - 1], m, s);
      DataFromOther(start, data[..m - 1], 1, m, s);
    } else {
      DataFromOther(start, data, 1, m, s);
    }
  }
  /** `(base + '.Dimensions.member.') + j + u` is `base + s` for one suffix
      `s`. */
  lemma NestedDataKey(m: nat, j: nat, u: string)
    ensures MemberKey(DataKey(m, ".Dimensions.member."), j, u) == DataKey(m, ".Dimensions.member." + NatToString(j) + u)
    ensures Separates(".Dimensions.member." + NatToString(j) + u)
    ensures (".Dimensions.member." + NatToString(j) + u)[1] == 'D'
  {
    var x := NatToString(j);
    assert DataPrefix + NatToString(m) + ".Dimensions.member." + x + u ==
      DataPrefix + NatToString(m) + (".Dimensions.member." + x + u);
  }

  /** No field of an item lives under its dimensions. */
  lemma DimensionNoField(item: Datum, s: string)
    requires |s| > 1 && s[1] == 'D'
    ensures DatumField(item, s) == None
  {
  }

  /** Dimension j of item m (1 <= m <= |data|, 1 <= j <= the number of its
      dimensions) is its j-th name with the value, under
      `MetricData.member.m.Dimensions.member.j`; no other numbers are
      used. */
  lemma PutMetricDataDimension(namespace: Val, data: seq<Datum>, m: nat, j: nat, u: string)
    requires PutMetricDataCall(namespace, data).Call?
    requires u == ".Name" || u == ".Value"
    ensures Get(PutMetricDataCall(namespace, data).params, MemberKey(DataKey(m, ".Dimensions.member."), j, u)) ==
      if 1 <= m <= |data| && 1 <= j <= |DimsOf(data[m - 1])|
      then Some(if u == ".Name" then Str(DimsOf(data[m - 1])[j - 1].0) else DimsOf(data[m - 1])[j - 1].1)
      else None
  {
    var start := [("Namespace", namespace)];
    var s := ".Dimensions.member." + NatToString(j) + u;
    NestedDataKey(m, j, u);
    MemberKeyPrefix(DataPrefix, m, s);
    GetCons("Namespace", namespace, [], DataKey(m, s));
    if 1 <= m <= |data| {
      var item := data[m - 1];
      var before := DataFrom(start, data[..m - 1], 1);
      DataFromItem(start, data, m, m + 1);
      DataFromOther(DatumParams(before, m, item), data[m..], m + 1, m, s);
      if u == ".Name" {
        DimsGetName(DatumValues(before, m, item), DataKey(m, ".Dimensions.member."), DimsOf(item), j);
      } else {
        DimsGetValue(DatumValues(before, m, item), DataKey(m, ".Dimensions.member."), DimsOf(item), j);
      }
      DimensionNoField(item, s);
      DatumValuesGet(before, m, item, m, s);
      DataFromOther(start, data[..m - 1], 1, m, s);
    } else {
      DataFromOther(start, data, 1, m, s);
    }
  }
}
