/** The helpers every signer and builder depends on (lib/common.js):
    first-character case transforms and rebuilding an object in sorted key
    order. */
module Common {
  import opened Base
  import Sorting

  /** The names lib/common.js puts on `module.exports`. */
  const Exports: seq<string> := ["camelize", "xmlToObject", "sortObjectByKeys", "toTitleCase"]

  /** `s.charAt(i)`: the one-character string at `i`, or `''` past the end. */
  function CharAt(s: string, i: nat): string {
    if i < |s| then [s[i]] else ""
  }

  /** `s.substr(start, length)` for a start inside the string. */
  function Substr(s: string, start: nat, length: int): string
    requires start <= |s|
  {
    if length <= 0 then ""
    else if start + length >= |s| then s[start..]
    else s[start..start + length]
  }

  /** `camelize`: replaces the first occurrence of the first character by
      its lower-case form. */
  function Camelize(s: string): string {
    ReplaceFirst(s, CharAt(s, 0), Lower(CharAt(s, 0)))
  }

  /** `toTitleCase`: upper-cases the first character when it is `a`-`z`. */
  function ToTitleCase(s: string): string {
    if CharAt(s, 0) != "" && IsLowerAscii(CharAt(s, 0)[0]) then
      [UpperChar(s[0])] + Substr(s, 1, |s| - 1)
    else s
  }

  /** Only the first character is lower-cased; length and every later
      character are kept, and the empty string stays empty. */
  lemma CamelizeFirstOnly(s: string)
    ensures |Camelize(s)| == |s|
    ensures s != [] ==> Camelize(s)[0] == LowerChar(s[0]) && Camelize(s)[1..] == s[1..]
    ensures s == [] ==> Camelize(s) == []
  {
    if s != [] {
      assert s == CharAt(s, 0) + s[1..];
      ReplaceLeadingPattern(CharAt(s, 0), s[1..], Lower(CharAt(s, 0)));
    } else {
      assert OccursAt(s, "", 0);
    }
  }

  lemma CamelizeIdempotent(s: string)
    ensures Camelize(Camelize(s)) == Camelize(s)
  {
    CamelizeFirstOnly(s);
    CamelizeFirstOnly(Camelize(s));
    if s != [] {
      assert Camelize(Camelize(s)) == [Camelize(Camelize(s))[0]] + Camelize(Camelize(s))[1..];
      assert Camelize(s) == [Camelize(s)[0]] + Camelize(s)[1..];
    }
  }

  /** The first character is upper-cased exactly when it is `a`-`z`;
      otherwise the string is returned unchanged. Length and the rest of
      the string are always kept. */
  lemma ToTitleCaseFirstOnly(s: string)
    ensures |ToTitleCase(s)| == |s|
    ensures s != [] && IsLowerAscii(s[0]) ==>
      ToTitleCase(s)[0] == UpperChar(s[0]) && ToTitleCase(s)[1..] == s[1..]
    ensures !(s != [] && IsLowerAscii(s[0])) ==> ToTitleCase(s) == s
  {
  }

  lemma ToTitleCaseIdempotent(s: string)
    ensures ToTitleCase(ToTitleCase(s)) == ToTitleCase(s)
  {
    ToTitleCaseFirstOnly(s);
    ToTitleCaseFirstOnly(ToTitleCase(s));
  }

  /** `camelize` undoes `toTitleCase` on a string that starts with `a`-`z`. */
  lemma CamelizeUndoesTitleCase(s: string)
    requires s != [] && IsLowerAscii(s[0])
    ensures Camelize(ToTitleCase(s)) == s
  {
    ToTitleCaseFirstOnly(s);
    CamelizeFirstOnly(ToTitleCase(s));
    var r := Camelize(ToTitleCase(s));
    assert r == [r[0]] + r[1..];
    assert s == [s[0]] + s[1..];
  }

  /** `toTitleCase` undoes `camelize` on a string that starts with `A`-`Z`. */
  lemma TitleCaseUndoesCamelize(s: string)
    requires s != [] && IsUpperAscii(s[0])
    ensures ToTitleCase(Camelize(s)) == s
  {
    CamelizeFirstOnly(s);
    ToTitleCaseFirstOnly(Camelize(s));
    var r := ToTitleCase(Camelize(s));
    assert r == [r[0]] + r[1..];
    assert s == [s[0]] + s[1..];
  }

  /** The object `sortObjectByKeys` builds: every key of `obj`, in sorted
      order, with its value. */
  function SortedByKeys<V>(obj: Dict<V>): Dict<V>
  {
    var ks := Sorting.Sort(Keys(obj));
    seq(|ks|, i requires 0 <= i < |ks| => (ks[i], ValueOf(obj, ks[i])))
  }

  /** `sortObjectByKeys`: sorts the key list, then copies each key's value
      into a fresh object in that order. */
  method SortObjectByKeys<V>(obj: Dict<V>) returns (result: Dict<V>)
    requires UniqueKeys(obj)
    ensures result == SortedByKeys(obj)
  {
    var keys := Keys(obj);
    keys := Sorting.Sort(keys);
    SortedKeysDistinct(obj);
    result := [];
    var i := 0;
    while i < |keys|
      invariant 0 <= i <= |keys|
      invariant result == SortedByKeys(obj)[..i]
    {
      assert keys[i] !in Keys(result) by {
        assert forall j :: 0 <= j < i ==> Keys(result)[j] == keys[j];
      }
      PutShape(result, keys[i], ValueOf(obj, keys[i]));
      result := Put(result, keys[i], ValueOf(obj, keys[i]));
      i := i + 1;
    }
  }

  /** The sorted key list of an object has no repeated key. */
  lemma SortedKeysDistinct<V>(obj: Dict<V>)
    requires UniqueKeys(obj)
    ensures Distinct(Sorting.Sort(Keys(obj)))
  {
    UniqueKeysDistinct(obj);
    DistinctMultiset(Keys(obj));
    DistinctMultiset(Sorting.Sort(Keys(obj)));
  }

  /** The result holds exactly the keys of the input, each with its
      original value. */
  lemma SortedByKeysSameEntries<V>(obj: Dict<V>, k: string)
    requires UniqueKeys(obj)
    ensures UniqueKeys(SortedByKeys(obj))
    ensures |SortedByKeys(obj)| == |obj|
    ensures k in Keys(SortedByKeys(obj)) <==> k in Keys(obj)
    ensures Get(SortedByKeys(obj), k) == Get(obj, k)
  {
    var r := SortedByKeys(obj);
    var ks := Sorting.Sort(Keys(obj));
    SortedKeysDistinct(obj);
    assert Keys(r) == ks;
    assert k in Keys(r) <==> k in multiset(Keys(obj));
    if k in Keys(r) {
      var i :| 0 <= i < |r| && r[i].0 == k;
      GetAt(r, i);
    }
  }

  /** The keys come out strictly ascending. */
  lemma SortedByKeysAscending<V>(obj: Dict<V>)
    requires UniqueKeys(obj)
    ensures Sorting.StrictlySorted(Keys(SortedByKeys(obj)))
  {
    SortedKeysDistinct(obj);
    assert Keys(SortedByKeys(obj)) == Sorting.Sort(Keys(obj));
  }

  /** Two objects with the same entries, whatever their insertion order,
      give the same sorted object. */
  lemma SortedByKeysOrderIndependent<V>(a: Dict<V>, b: Dict<V>)
    requires UniqueKeys(a) && UniqueKeys(b)
    requires forall k :: Get(a, k) == Get(b, k)
    ensures SortedByKeys(a) == SortedByKeys(b)
  {
    SameGetsSameKeys(a, b);
    SameKeysSameMultiset(a, b);
    Sorting.SortOrderIndependent(Keys(a), Keys(b));
    var ks := Sorting.Sort(Keys(a));
    forall i | 0 <= i < |ks| ensures ValueOf(a, ks[i]) == ValueOf(b, ks[i]) {
      assert Get(a, ks[i]) == Get(b, ks[i]);
    }
  }

  /** Objects that answer every lookup alike have the same key set. */
  lemma SameGetsSameKeys<V>(a: Dict<V>, b: Dict<V>)
    requires forall k :: Get(a, k) == Get(b, k)
    ensures forall k :: k in Keys(a) <==> k in Keys(b)
  {
    forall x ensures x in Keys(a) <==> x in Keys(b) {
      assert Get(a, x) == Get(b, x);
    }
  }

  /** Sorting an already sorted object changes nothing. */
  lemma SortedByKeysIdempotent<V>(obj: Dict<V>)
    requires UniqueKeys(obj)
    ensures UniqueKeys(SortedByKeys(obj))
    ensures SortedByKeys(SortedByKeys(obj)) == SortedByKeys(obj)
  {
    var r := SortedByKeys(obj);
    SortedByKeysSameEntries(obj, "");
    SortedKeysDistinct(obj);
    assert Keys(r) == Sorting.Sort(Keys(obj));
    Sorting.SortSorted(Keys(r));
    forall i | 0 <= i < |r| ensures ValueOf(r, r[i].0) == r[i].1 {
      GetAt(r, i);
    }
  }
}
