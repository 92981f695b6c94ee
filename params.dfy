/** Building flat query parameter objects, as the service clients of
    lib/services/ do in their `forEach` loops: list items numbered
    `prefix + (index + 1)`, name/value pairs numbered the same way, and
    options copied only when truthy. */
module Params {
  import opened Base

  // ------------------------------------------------------ numbered members

  /** `prefix + n + suffix`, as `'X.member.' + (index + 1) + '.Name'` builds it. */
  function MemberKey(prefix: string, n: nat, suffix: string): string {
    prefix + NatToString(n) + suffix
  }

  /** A suffix that cannot be mistaken for more digits of the number. */
  predicate Separates(suffix: string) {
    suffix == [] || !IsDigit(suffix[0])
  }

  /** Two member keys under the same prefix are equal only for the same
      number and suffix. */
  lemma MemberKeyInjective(prefix: string, a: nat, s1: string, b: nat, s2: string)
    requires Separates(s1) && Separates(s2)
    ensures MemberKey(prefix, a, s1) == MemberKey(prefix, b, s2) ==> a == b && s1 == s2
  {
    if MemberKey(prefix, a, s1) == MemberKey(prefix, b, s2) {
      var x, y := NatToString(a), NatToString(b);
      assert prefix + x + s1 == prefix + (x + s1);
      assert prefix + y + s2 == prefix + (y + s2);
      assert x + s1 == (prefix + x + s1)[|prefix|..];
      assert y + s2 == (prefix + y + s2)[|prefix|..];
      DigitsThenSuffix(x, s1, y, s2);
      NatToStringInjective(a, b);
    }
  }

  /** Every member key starts with its prefix. */
  lemma MemberKeyPrefix(prefix: string, n: nat, suffix: string)
    ensures |MemberKey(prefix, n, suffix)| >= |prefix|
    ensures MemberKey(prefix, n, suffix)[..|prefix|] == prefix
  {
    assert MemberKey(prefix, n, suffix) == prefix + (NatToString(n) + suffix);
  }

  /** Different member numbers give different keys. */
  lemma MemberNumbersDiffer(prefix: string, a: nat, b: nat)
    requires a != b
    ensures MemberKey(prefix, a, "") != MemberKey(prefix, b, "")
  {
    NumberedKeyInjective(prefix, a, b, "");
  }

  /** `items.forEach((x, index) => params[prefix + (index + 1)] = x)`. */
  function Members<V>(params: Dict<V>, prefix: string, items: seq<V>): Dict<V>
    decreases |items|
  {
    if items == [] then params
    else Put(Members(params, prefix, items[..|items| - 1]), MemberKey(prefix, |items|, ""), items[|items| - 1])
  }

  /** The `forEach` loop itself. */
  method AddMembers<V>(params: Dict<V>, prefix: string, items: seq<V>) returns (r: Dict<V>)
    ensures r == Members(params, prefix, items)
  {
    r := params;
    var index := 0;
    while index < |items|
      invariant 0 <= index <= |items|
      invariant r == Members(params, prefix, items[..index])
    {
      assert items[..index + 1][..index] == items[..index];
      r := Put(r, MemberKey(prefix, index + 1, ""), items[index]);
      index := index + 1;
    }
    assert items[..|items|] == items;
  }

  /** Member number n holds the n-th item for 1 <= n <= |items|; any other
      number keeps what `params` had. */
  lemma {:induction false} MembersGet<V>(params: Dict<V>, prefix: string, items: seq<V>, n: nat)
    ensures Get(Members(params, prefix, items), MemberKey(prefix, n, "")) ==
      if 1 <= n <= |items| then Some(items[n - 1]) else Get(params, MemberKey(prefix, n, ""))
    decreases |items|
  {
    if items != [] {
      var last := |items| - 1;
      var init := items[..last];
      var before := Members(params, prefix, init);
      assert Members(params, prefix, items) == Put(before, MemberKey(prefix, |items|, ""), items[last]);
      if n == |items| {
        GetPutSame(before, MemberKey(prefix, n, ""), items[last]);
      } else {
        MembersGet(params, prefix, init, n);
        assert 1 <= n <= |init| ==> init[n - 1] == items[n - 1];
        MemberNumbersDiffer(prefix, n, |items|);
        GetPutOther(before, MemberKey(prefix, |items|, ""), items[last], MemberKey(prefix, n, ""));
      }
    }
  }

  /** Keys that are no member key under `prefix` keep their values. */
  lemma {:induction false} MembersGetOther<V>(params: Dict<V>, prefix: string, items: seq<V>, k: string)
    requires forall n: nat :: k != MemberKey(prefix, n, "")
    ensures Get(Members(params, prefix, items), k) == Get(params, k)
    decreases |items|
  {
    if items != [] {
      MembersGetOther(params, prefix, items[..|items| - 1], k);
      GetPutOther(Members(params, prefix, items[..|items| - 1]), MemberKey(prefix, |items|, ""), items[|items| - 1], k);
    }
  }

  /** A key is present after the members are added exactly when it was
      present before or is the key of member 1 to |items|. */
  lemma {:induction false} MembersKeys<V>(params: Dict<V>, prefix: string, items: seq<V>, k: string)
    ensures k in Keys(Members(params, prefix, items)) <==>
      k in Keys(params) || exists n: nat :: 1 <= n <= |items| && k == MemberKey(prefix, n, "")
    decreases |items|
  {
    if items != [] {
      var init := items[..|items| - 1];
      var key := MemberKey(prefix, |items|, "");
      MembersKeys(params, prefix, init, k);
      KeysPut(Members(params, prefix, init), key, items[|items| - 1], k);
      if exists n: nat :: 1 <= n <= |items| && k == MemberKey(prefix, n, "") {
        var n: nat :| 1 <= n <= |items| && k == MemberKey(prefix, n, "");
        if n < |items| {
          assert exists m: nat :: 1 <= m <= |init| && k == MemberKey(prefix, m, "");
        }
      }
    }
  }

  /** Members are added as new keys when none of their keys is present: no
      key is duplicated and the object grows by one entry per item. */
  lemma {:induction false} MembersUnique<V>(params: Dict<V>, prefix: string, items: seq<V>)
    requires UniqueKeys(params)
    requires forall n: nat :: MemberKey(prefix, n, "") !in Keys(params)
    ensures UniqueKeys(Members(params, prefix, items))
    ensures |Members(params, prefix, items)| == |params| + |items|
    decreases |items|
  {
    if items != [] {
      var init := items[..|items| - 1];
      var key := MemberKey(prefix, |items|, "");
      MembersUnique(params, prefix, init);
      MembersKeys(params, prefix, init, key);
      forall n: nat | 1 <= n <= |init| ensures key != MemberKey(prefix, n, "") {
        MemberNumbersDiffer(prefix, n, |items|);
      }
      PutUnique(Members(params, prefix, init), key, items[|items| - 1]);
      PutShape(Members(params, prefix, init), key, items[|items| - 1]);
    }
  }

  // ------------------------------------------------------ truthy options

  /** `if (v) { params[name] = v; }` */
  function PutIf(params: Dict<Val>, name: string, v: Val): Dict<Val> {
    if Truthy(v) then Put(params, name, v) else params
  }

  /** The option as it ends up in an object that lacked it. */
  function IfTruthy(v: Val): (r: Option<Val>)
    ensures r.Some? <==> Truthy(v)
    ensures r.Some? ==> r.value == v
  {
    if Truthy(v) then Some(v) else None
  }

  /** A guarded assignment sets its parameter exactly when the option is
      truthy and leaves every other key alone. */
  lemma PutIfGet(params: Dict<Val>, name: string, v: Val, k: string)
    ensures Get(PutIf(params, name, v), k) ==
      if k == name && Truthy(v) then Some(v) else Get(params, k)
  {
    if Truthy(v) { GetPut(params, name, v, k); }
  }

  // ------------------------------------------------------ prefixes

  /** `k` does not start with `prefix`. */
  predicate Apart(k: string, prefix: string) {
    |k| < |prefix| || k[..|prefix|] != prefix
  }

  /** A key that does not start with `prefix` is no member key under it. */
  lemma ApartNotMember(k: string, prefix: string, n: nat, suffix: string)
    requires Apart(k, prefix)
    ensures k != MemberKey(prefix, n, suffix)
  {
    MemberKeyPrefix(prefix, n, suffix);
  }

  // ------------------------------------------------------ dimensions

  /** Dimension number n: `prefix + n + '.Name'` gets the name and
      `prefix + n + '.Value'` the value. */
  function PutDim(params: Dict<Val>, prefix: string, n: nat, name: string, v: Val): Dict<Val> {
    Put(Put(params, MemberKey(prefix, n, ".Name"), Str(name)), MemberKey(prefix, n, ".Value"), v)
  }

  /** `Object.keys(dims).forEach((key, index) => ...)`: dimension `index + 1`
      is the index-th key of the object with its value. */
  function Dims(params: Dict<Val>, prefix: string, dims: Dict<Val>): Dict<Val>
    decreases |dims|
  {
    if dims == [] then params
    else PutDim(Dims(params, prefix, dims[..|dims| - 1]), prefix, |dims|, dims[|dims| - 1].0, dims[|dims| - 1].1)
  }

  /** The `forEach` loop over the dimension names. */
  method AddDims(params: Dict<Val>, prefix: string, dims: Dict<Val>) returns (r: Dict<Val>)
    ensures r == Dims(params, prefix, dims)
  {
    r := params;
    var index := 0;
    while index < |dims|
      invariant 0 <= index <= |dims|
      invariant r == Dims(params, prefix, dims[..index])
    {
      assert dims[..index + 1][..index] == dims[..index];
      r := Put(r, MemberKey(prefix, index + 1, ".Name"), Str(dims[index].0));
      r := Put(r, MemberKey(prefix, index + 1, ".Value"), dims[index].1);
      index := index + 1;
    }
    assert dims[..|dims|] == dims;
  }

  /** The name and the value keys of a dimension never coincide, and those
      of different numbers differ. */
  lemma DimKeysDiffer(prefix: string, a: nat, b: nat)
    ensures MemberKey(prefix, a, ".Name") != MemberKey(prefix, b, ".Value")
    ensures a != b ==> MemberKey(prefix, a, ".Name") != MemberKey(prefix, b, ".Name")
    ensures a != b ==> MemberKey(prefix, a, ".Value") != MemberKey(prefix, b, ".Value")
  {
    MemberKeyInjective(prefix, a, ".Name", b, ".Value");
    MemberKeyInjective(prefix, a, ".Name", b, ".Name");
    MemberKeyInjective(prefix, a, ".Value", b, ".Value");
  }

  /** Reading one dimension back. */
  lemma PutDimGet(params: Dict<Val>, prefix: string, n: nat, name: string, v: Val, k: string)
    ensures Get(PutDim(params, prefix, n, name, v), k) ==
      if k == MemberKey(prefix, n, ".Value") then Some(v)
      else if k == MemberKey(prefix, n, ".Name") then Some(Str(name))
      else Get(params, k)
  {
    DimKeysDiffer(prefix, n, n);
    var named := Put(params, MemberKey(prefix, n, ".Name"), Str(name));
    GetPut(named, MemberKey(prefix, n, ".Value"), v, k);
    GetPut(params, MemberKey(prefix, n, ".Name"), Str(name), k);
  }

  /** Dimension n (1 <= n <= |dims|) holds the n-th name; other numbers
      keep what `params` had. */
  lemma {:induction false} DimsGetName(params: Dict<Val>, prefix: string, dims: Dict<Val>, n: nat)
    ensures Get(Dims(params, prefix, dims), MemberKey(prefix, n, ".Name")) ==
      if 1 <= n <= |dims| then Some(Str(dims[n - 1].0)) else Get(params, MemberKey(prefix, n, ".Name"))
    decreases |dims|
  {
    if dims != [] {
      var init := dims[..|dims| - 1];
      var last := dims[|dims| - 1];
      var k := MemberKey(prefix, n, ".Name");
      DimsGetName(params, prefix, init, n);
      DimKeysDiffer(prefix, n, |dims|);
      PutDimGet(Dims(params, prefix, init), prefix, |dims|, last.0, last.1, k);
      if 1 <= n < |dims| {
        assert init[n - 1] == dims[n - 1];
      }
    }
  }

  /** Dimension n (1 <= n <= |dims|) holds the value of the n-th name; other
      numbers keep what `params` had. */
  lemma {:induction false} DimsGetValue(params: Dict<Val>, prefix: string, dims: Dict<Val>, n: nat)
    ensures Get(Dims(params, prefix, dims), MemberKey(prefix, n, ".Value")) ==
      if 1 <= n <= |dims| then Some(dims[n - 1].1) else Get(params, MemberKey(prefix, n, ".Value"))
    decreases |dims|
  {
    if dims != [] {
      var init := dims[..|dims| - 1];
      var last := dims[|dims| - 1];
      var k := MemberKey(prefix, n, ".Value");
      DimsGetValue(params, prefix, init, n);
      DimKeysDiffer(prefix, |dims|, n);
      PutDimGet(Dims(params, prefix, init), prefix, |dims|, last.0, last.1, k);
      if 1 <= n < |dims| {
        assert init[n - 1] == dims[n - 1];
      }
    }
  }

  /** Keys outside the prefix keep their values. */
  lemma {:induction false} DimsGetOther(params: Dict<Val>, prefix: string, dims: Dict<Val>, k: string)
    requires Apart(k, prefix)
    ensures Get(Dims(params, prefix, dims), k) == Get(params, k)
    decreases |dims|
  {
    if dims != [] {
      var init := dims[..|dims| - 1];
      DimsGetOther(params, prefix, init, k);
      ApartNotMember(k, prefix, |dims|, ".Name");
      ApartNotMember(k, prefix, |dims|, ".Value");
      PutDimGet(Dims(params, prefix, init), prefix, |dims|, dims[|dims| - 1].0, dims[|dims| - 1].1, k);
    }
  }

  /** `k` and `prefix` differ at character `i`. */
  lemma ApartAt(k: string, prefix: string, i: nat)
    requires i < |k| && i < |prefix| && k[i] != prefix[i]
    ensures Apart(k, prefix)
  {
    if |k| >= |prefix| {
      assert k[..|prefix|][i] == k[i];
    }
  }

  /** A member key is apart from any prefix that differs from its own
      prefix at some character. */
  lemma MemberKeyApart(prefix: string, n: nat, suffix: string, other: string, i: nat)
    requires i < |prefix| && i < |other| && prefix[i] != other[i]
    ensures Apart(MemberKey(prefix, n, suffix), other)
  {
    MemberKeyPrefix(prefix, n, suffix);
    assert MemberKey(prefix, n, suffix)[i] == MemberKey(prefix, n, suffix)[..|prefix|][i];
    ApartAt(MemberKey(prefix, n, suffix), other, i);
  }

  /** A member key is apart from the keys under another member key with a
      different number, or with a suffix its own suffix does not start
      with. */
  lemma MemberKeysApart(prefix: string, m: nat, s: string, n: nat, t: string)
    requires Separates(s) && t != [] && !IsDigit(t[0])
    requires m != n || Apart(s, t)
    ensures Apart(MemberKey(prefix, m, s), MemberKey(prefix, n, t))
  {
    var k, p := MemberKey(prefix, m, s), MemberKey(prefix, n, t);
    if |k| >= |p| && k[..|p|] == p {
      var r := k[|p|..];
      assert k == p + r;
      assert p + r == MemberKey(prefix, n, t + r);
      MemberKeyInjective(prefix, m, s, n, t + r);
    }
  }
}
