/** The parts of the JavaScript runtime that the library's code leans on:
    values as they sit in parameter and header objects, the string
    operations it calls (join, split, replace, case mapping, number
    rendering) and objects as insertion-ordered dictionaries. */
module Base {

  datatype Option<T> = None | Some(value: T)

  /** A value stored in a parameter or header object: a string, an
      integer, or `undefined` (an option the caller left out). */
  datatype Val = Str(s: string) | Num(n: int) | Undef

  /** JavaScript truthiness of a value: `''`, `0` and `undefined` are falsy. */
  predicate Truthy(v: Val) {
    match v
    case Str(s) => s != ""
    case Num(n) => n != 0
    case Undef => false
  }

  /** Truthiness of an optional string (absent and empty are falsy). */
  predicate Present(o: Option<string>) {
    o.Some? && o.value != ""
  }

  // ---------------------------------------------------------------- chars

  predicate IsDigit(c: char) { '0' <= c <= '9' }
  predicate IsLowerAscii(c: char) { 'a' <= c <= 'z' }
  predicate IsUpperAscii(c: char) { 'A' <= c <= 'Z' }
  /** The class `\w` of a regular expression: `[A-Za-z0-9_]`. */
  predicate IsWordChar(c: char) { IsLowerAscii(c) || IsUpperAscii(c) || IsDigit(c) || c == '_' }

  predicate AllDigits(s: string) { forall i :: 0 <= i < |s| ==> IsDigit(s[i]) }
  predicate AllWordChars(s: string) { forall i :: 0 <= i < |s| ==> IsWordChar(s[i]) }

  /** `toLowerCase` of one character (ASCII letters only). */
  function LowerChar(c: char): (r: char)
    ensures IsUpperAscii(c) ==> IsLowerAscii(r) && r as int == c as int + 32
    ensures !IsUpperAscii(c) ==> r == c
  {
    if IsUpperAscii(c) then (c as int + 32) as char else c
  }

  /** `toUpperCase` of one character (ASCII letters only). */
  function UpperChar(c: char): (r: char)
    ensures IsLowerAscii(c) ==> IsUpperAscii(r) && r as int == c as int - 32
    ensures !IsLowerAscii(c) ==> r == c
  {
    if IsLowerAscii(c) then (c as int - 32) as char else c
  }

  /** `String.prototype.toLowerCase` (ASCII letters only). */
  function Lower(s: string): (r: string)
    ensures |r| == |s|
    ensures forall i :: 0 <= i < |s| ==> r[i] == LowerChar(s[i])
  {
    seq(|s|, i requires 0 <= i < |s| => LowerChar(s[i]))
  }

  // -------------------------------------------------------------- numbers

  function DigitChar(d: nat): (c: char)
    requires d < 10
    ensures IsDigit(c) && c as int - '0' as int == d
  {
    ('0' as int + d) as char
  }

  /** Decimal rendering of a natural number, as `String(n)` gives it. */
  function NatToString(n: nat): (r: string)
    ensures |r| >= 1 && AllDigits(r)
  {
    if n < 10 then [DigitChar(n)] else NatToString(n / 10) + [DigitChar(n % 10)]
  }

  /** Decimal rendering of an integer, with a leading `-` when negative. */
  function IntToString(i: int): string {
    if i < 0 then "-" + NatToString(-i) else NatToString(i)
  }

  /** The value of a string of decimal digits (`Number(s)` on such a string). */
  function DigitsValue(s: string): nat
    requires AllDigits(s)
  {
    if s == [] then 0 else DigitsValue(s[..|s| - 1]) * 10 + (s[|s| - 1] as int - '0' as int)
  }

  /** Reading back the decimal rendering gives the number. */
  lemma {:induction false} DigitsValueOfNatToString(n: nat)
    ensures DigitsValue(NatToString(n)) == n
  {
    if n >= 10 {
      var s := NatToString(n);
      assert s[..|s| - 1] == NatToString(n / 10);
      DigitsValueOfNatToString(n / 10);
    }
  }

  /** Distinct numbers render as distinct strings. */
  lemma NatToStringInjective(a: nat, b: nat)
    ensures NatToString(a) == NatToString(b) ==> a == b
  {
    DigitsValueOfNatToString(a);
    DigitsValueOfNatToString(b);
  }

  /** A digit string followed by a suffix that does not start with a digit
      determines both parts. */
  lemma {:induction false} DigitsThenSuffix(x: string, s1: string, y: string, s2: string)
    requires AllDigits(x) && AllDigits(y)
    requires s1 == [] || !IsDigit(s1[0])
    requires s2 == [] || !IsDigit(s2[0])
    requires x + s1 == y + s2
    ensures x == y && s1 == s2
  {
    assert x != [] ==> (x + s1)[0] == x[0];
    assert y != [] ==> (y + s2)[0] == y[0];
    assert x == [] ==> x + s1 == s1;
    assert y == [] ==> y + s2 == s2;
    if x != [] && y != [] {
      assert (x + s1)[0] == x[0] && (y + s2)[0] == y[0];
      assert x[1..] + s1 == (x + s1)[1..] == (y + s2)[1..] == y[1..] + s2;
      DigitsThenSuffix(x[1..], s1, y[1..], s2);
    }
  }

  /** Keys of the form `prefix + n + suffix` are equal only for equal `n`,
      when the suffix does not start with a digit. */
  lemma NumberedKeyInjective(prefix: string, a: nat, b: nat, suffix: string)
    requires suffix == [] || !IsDigit(suffix[0])
    ensures prefix + NatToString(a) + suffix == prefix + NatToString(b) + suffix ==> a == b
  {
    if prefix + NatToString(a) + suffix == prefix + NatToString(b) + suffix {
      var x, y := NatToString(a), NatToString(b);
      assert prefix + x + suffix == prefix + (x + suffix);
      assert prefix + y + suffix == prefix + (y + suffix);
      assert x + suffix == (prefix + x + suffix)[|prefix|..];
      assert y + suffix == (prefix + y + suffix)[|prefix|..];
      DigitsThenSuffix(x, suffix, y, suffix);
      NatToStringInjective(a, b);
    }
  }

  /** `String(v)` as `Array.prototype.join` and `querystring.stringify`
      apply it: `undefined` becomes the empty string. */
  function JoinText(v: Val): string {
    match v
    case Str(s) => s
    case Num(n) => IntToString(n)
    case Undef => ""
  }

  /** `String(v)` as a property key or a `+` operand: `undefined` becomes
      the word "undefined". */
  function KeyText(v: Val): string {
    match v
    case Str(s) => s
    case Num(n) => IntToString(n)
    case Undef => "undefined"
  }

  // -------------------------------------------------------------- strings

  /** Characters of the Basic Multilingual Plane take one UTF-16 code
      unit; the others take a surrogate pair. */
  predicate IsBmp(c: char) { c as int < 0x1_0000 }

  /** `s.length`: JavaScript strings count UTF-16 code units, so every
      character outside the Basic Multilingual Plane counts twice. The
      length equals the number of characters exactly when all of them are
      in that plane. */
  function Utf16Length(s: string): (r: nat)
    ensures |s| <= r <= 2 * |s|
    ensures r == |s| <==> forall i :: 0 <= i < |s| ==> IsBmp(s[i])
  {
    if |s| == 0 then 0
    else
      var rest := Utf16Length(s[1..]);
      assert forall i :: 1 <= i < |s| ==> s[i] == s[1..][i - 1];
      (if IsBmp(s[0]) then 1 else 2) + rest
  }

  /** One character outside the Basic Multilingual Plane, such as U+1F600,
      has length 2. */
  lemma Utf16LengthAstral(c: char)
    requires !IsBmp(c)
    ensures Utf16Length([c]) == 2
  {
    assert [c][1..] == [];
  }

  /** `Array.prototype.join(sep)` on strings. */
  function Join(parts: seq<string>, sep: string): string {
    if |parts| == 0 then ""
    else if |parts| == 1 then parts[0]
    else parts[0] + sep + Join(parts[1..], sep)
  }

  /** `String.prototype.split(c)` with a one-character separator: there is
      always at least one piece, and no piece contains the separator. */
  function Split(s: string, c: char): (r: seq<string>)
    ensures |r| >= 1
    ensures forall i :: 0 <= i < |r| ==> c !in r[i]
    decreases |s|
  {
    if |s| == 0 then [""]
    else if s[0] == c then [""] + Split(s[1..], c)
    else
      var rest := Split(s[1..], c);
      [[s[0]] + rest[0]] + rest[1..]
  }

  /** Splitting and joining again with the same separator gives back the string. */
  lemma {:induction false} JoinSplit(s: string, c: char)
    ensures Join(Split(s, c), [c]) == s
    decreases |s|
  {
    if |s| > 0 {
      var rest := Split(s[1..], c);
      JoinSplit(s[1..], c);
      if s[0] == c {
        assert Split(s, c) == [""] + rest;
        if |rest| == 1 {
          assert Join(Split(s, c), [c]) == "" + [c] + rest[0];
        } else {
          assert Join(Split(s, c), [c]) == "" + [c] + Join(rest, [c]);
        }
        assert s == [s[0]] + s[1..];
      } else {
        var r := Split(s, c);
        assert r == [[s[0]] + rest[0]] + rest[1..];
        if |rest| == 1 {
          assert Join(r, [c]) == [s[0]] + rest[0];
        } else {
          assert r[1..] == rest[1..];
          assert Join(rest, [c]) == rest[0] + [c] + Join(rest[1..], [c]);
          assert Join(r, [c]) == [s[0]] + rest[0] + [c] + Join(rest[1..], [c]);
        }
        assert s == [s[0]] + s[1..];
      }
    }
  }

  /** A string without the separator splits into itself alone. */
  lemma {:induction false} SplitWithout(s: string, c: char)
    requires c !in s
    ensures Split(s, c) == [s]
    decreases |s|
  {
    if |s| > 0 {
      assert c !in s[1..];
      assert s[0] != c;
      SplitWithout(s[1..], c);
      assert s == [s[0]] + s[1..];
    }
  }

  /** Splitting `a + [c] + b`, where `a` has no separator, gives `a`
      followed by the pieces of `b`. */
  lemma {:induction false} SplitAtFirst(a: string, c: char, b: string)
    requires c !in a
    ensures Split(a + [c] + b, c) == [a] + Split(b, c)
    decreases |a|
  {
    if |a| == 0 {
      assert a + [c] + b == [c] + b;
      assert ([c] + b)[1..] == b;
    } else {
      var s := a + [c] + b;
      assert s[0] == a[0] && s[1..] == a[1..] + [c] + b;
      assert c !in a[1..];
      SplitAtFirst(a[1..], c, b);
      assert [a[0]] + a[1..] == a;
    }
  }

  /** Joining pieces that do not contain the separator and splitting
      again gives back the pieces: split is the inverse of join. */
  lemma {:induction false} SplitJoin(parts: seq<string>, c: char)
    requires |parts| >= 1
    requires forall i :: 0 <= i < |parts| ==> c !in parts[i]
    ensures Split(Join(parts, [c]), c) == parts
    decreases |parts|
  {
    if |parts| == 1 {
      SplitWithout(parts[0], c);
    } else {
      SplitJoin(parts[1..], c);
      SplitAtFirst(parts[0], c, Join(parts[1..], [c]));
      assert parts == [parts[0]] + parts[1..];
    }
  }

  /** `pat` occurs in `s` at position `j`. */
  predicate OccursAt(s: string, pat: string, j: nat) {
    j + |pat| <= |s| && s[j..j + |pat|] == pat
  }

  /** Index of the first occurrence of `pat` in `s` at or after `from`
      (`String.prototype.indexOf`). */
  function IndexOfFrom(s: string, pat: string, from: nat): (r: Option<nat>)
    requires from <= |s|
    ensures r.Some? ==> from <= r.value && OccursAt(s, pat, r.value)
    ensures r.Some? ==> forall j: nat :: from <= j < r.value ==> !OccursAt(s, pat, j)
    ensures r.None? ==> forall j: nat :: from <= j ==> !OccursAt(s, pat, j)
    decreases |s| - from
  {
    if from + |pat| > |s| then None
    else if s[from..from + |pat|] == pat then Some(from)
    else IndexOfFrom(s, pat, from + 1)
  }

  /** `String.prototype.replace(pat, rep)` with a string pattern: only the
      first occurrence is replaced. */
  function ReplaceFirst(s: string, pat: string, rep: string): string {
    match IndexOfFrom(s, pat, 0)
    case None => s
    case Some(i) => s[..i] + rep + s[i + |pat|..]
  }

  /** When the string starts with the pattern, `replace` swaps exactly that prefix. */
  lemma ReplaceLeadingPattern(pat: string, rest: string, rep: string)
    ensures ReplaceFirst(pat + rest, pat, rep) == rep + rest
  {
    var s := pat + rest;
    assert s[0..|pat|] == pat;
    assert s[|pat|..] == rest;
  }

  /** `String.prototype.indexOf(pat) > -1`. */
  predicate Contains(s: string, pat: string) {
    IndexOfFrom(s, pat, 0).Some?
  }

  // --------------------------------------------------------- dictionaries

  /** A JavaScript object used as a dictionary: its entries in insertion
      order, which is also the order of `Object.keys`. */
  type Dict<V> = seq<(string, V)>

  /** `Object.keys(d)`. */
  function Keys<V>(d: Dict<V>): (r: seq<string>)
    ensures |r| == |d|
    ensures forall i :: 0 <= i < |d| ==> r[i] == d[i].0
  {
    seq(|d|, i requires 0 <= i < |d| => d[i].0)
  }

  predicate UniqueKeys<V>(d: Dict<V>) {
    forall i, j :: 0 <= i < j < |d| ==> d[i].0 != d[j].0
  }

  /** `d[k]`: the value stored under `k`, if any. */
  function Get<V>(d: Dict<V>, k: string): (r: Option<V>)
    ensures r.None? <==> k !in Keys(d)
    ensures r.Some? ==> exists i :: 0 <= i < |d| && d[i] == (k, r.value)
  {
    if d == [] then None
    else if d[0].0 == k then Some(d[0].1)
    else
      assert forall i :: 1 <= i < |d| ==> Keys(d)[i] == Keys(d[1..])[i - 1];
      Get(d[1..], k)
  }

  /** `d[k] = v`: an existing key keeps its position and takes the new
      value; a new key is appended. */
  function Put<V>(d: Dict<V>, k: string, v: V): Dict<V>
    decreases |d|
  {
    if d == [] then [(k, v)]
    else if d[0].0 == k then [(k, v)] + d[1..]
    else [d[0]] + Put(d[1..], k, v)
  }

  /** Assigning an existing key keeps the length; a new key is appended. */
  lemma {:induction false} PutShape<V>(d: Dict<V>, k: string, v: V)
    ensures k in Keys(d) ==> |Put(d, k, v)| == |d|
    ensures k !in Keys(d) ==> Put(d, k, v) == d + [(k, v)]
    decreases |d|
  {
    if d != [] && d[0].0 != k {
      assert k in Keys(d) <==> k in Keys(d[1..]) by {
        assert forall i :: 1 <= i < |d| ==> Keys(d)[i] == Keys(d[1..])[i - 1];
      }
      PutShape(d[1..], k, v);
    }
  }

  lemma KeysCons<V>(d: Dict<V>)
    requires d != []
    ensures Keys(d) == [d[0].0] + Keys(d[1..])
  {
  }

  /** Reading after writing: the written key yields the new value. */
  lemma {:induction false} GetPutSame<V>(d: Dict<V>, k: string, v: V)
    ensures Get(Put(d, k, v), k) == Some(v)
    decreases |d|
  {
    if d != [] && d[0].0 != k {
      GetPutSame(d[1..], k, v);
    }
  }

  /** Reading after writing: every other key is unaffected. */
  lemma {:induction false} GetPutOther<V>(d: Dict<V>, k: string, v: V, k': string)
    requires k' != k
    ensures Get(Put(d, k, v), k') == Get(d, k')
    decreases |d|
  {
    if d != [] && d[0].0 != k {
      GetPutOther(d[1..], k, v, k');
    }
  }

  /** Writing a key adds exactly that key to the key set. */
  lemma {:induction false} KeysPut<V>(d: Dict<V>, k: string, v: V, k': string)
    ensures k' in Keys(Put(d, k, v)) <==> k' == k || k' in Keys(d)
    decreases |d|
  {
    if d == [] {
    } else if d[0].0 != k {
      KeysPut(d[1..], k, v, k');
      KeysCons(d);
      KeysCons(Put(d, k, v));
    } else {
      KeysCons(d);
      KeysCons(Put(d, k, v));
    }
  }

  /** Reading after writing, both cases together. */
  lemma GetPut<V>(d: Dict<V>, k: string, v: V, k': string)
    ensures Get(Put(d, k, v), k') == if k' == k then Some(v) else Get(d, k')
  {
    if k' == k { GetPutSame(d, k, v); } else { GetPutOther(d, k, v, k'); }
  }

  /** Assignment never creates a duplicate key. */
  lemma {:induction false} PutUnique<V>(d: Dict<V>, k: string, v: V)
    requires UniqueKeys(d)
    ensures UniqueKeys(Put(d, k, v))
    decreases |d|
  {
    if d != [] && d[0].0 != k {
      PutUnique(d[1..], k, v);
      var r := Put(d, k, v);
      forall j | 0 < j < |r| ensures r[0].0 != r[j].0 {
        KeysPut(d[1..], k, v, d[0].0);
        assert r[j].0 in Keys(Put(d[1..], k, v)) by {
          assert Keys(Put(d[1..], k, v))[j - 1] == r[j].0;
        }
        assert d[0].0 !in Keys(d[1..]) by {
          forall i | 0 <= i < |d| - 1 ensures Keys(d[1..])[i] != d[0].0 {
            assert d[i + 1].0 != d[0].0;
          }
        }
      }
    }
  }

  /** `Object.keys(src).forEach(k => d[k] = src[k])`: every entry of `src`
      written into `d` in order. */
  function PutAll<V>(d: Dict<V>, src: Dict<V>): Dict<V>
    decreases |src|
  {
    if src == [] then d else PutAll(Put(d, src[0].0, src[0].1), src[1..])
  }

  /** `PutAll` of a prefix extended by one entry is one more assignment. */
  lemma {:induction false} PutAllSnoc<V>(d: Dict<V>, src: Dict<V>, i: nat)
    requires i < |src|
    ensures PutAll(d, src[..i + 1]) == Put(PutAll(d, src[..i]), src[i].0, src[i].1)
    decreases i
  {
    if i > 0 {
      assert src[..i + 1][1..] == src[1..][..i];
      assert src[..i][1..] == src[1..][..i - 1];
      PutAllSnoc(Put(d, src[0].0, src[0].1), src[1..], i - 1);
    }
  }

  /** Looking a key up in an object with a first entry in front. */
  lemma GetCons<V>(k: string, v: V, rest: Dict<V>, name: string)
    ensures Get([(k, v)] + rest, name) == if k == name then Some(v) else Get(rest, name)
  {
    assert ([(k, v)] + rest)[1..] == rest;
  }

  /** Copying entries into an object keeps its keys unique. */
  lemma {:induction false} PutAllUnique<V>(d: Dict<V>, src: Dict<V>)
    requires UniqueKeys(d)
    ensures UniqueKeys(PutAll(d, src))
    decreases |src|
  {
    if src != [] {
      PutUnique(d, src[0].0, src[0].1);
      PutAllUnique(Put(d, src[0].0, src[0].1), src[1..]);
    }
  }

  /** Copying `src` into `d`: keys of `src` take its values, the others keep theirs. */
  lemma {:induction false} GetPutAll<V>(d: Dict<V>, src: Dict<V>, k: string)
    requires UniqueKeys(src)
    ensures Get(src, k).Some? ==> Get(PutAll(d, src), k) == Get(src, k)
    ensures Get(src, k).None? ==> Get(PutAll(d, src), k) == Get(d, k)
    decreases |src|
  {
    if src != [] {
      var d' := Put(d, src[0].0, src[0].1);
      GetPutAll(d', src[1..], k);
      GetPut(d, src[0].0, src[0].1, k);
      if k == src[0].0 {
        assert Get(src[1..], k).None? by {
          forall i | 0 <= i < |src| - 1 ensures Keys(src[1..])[i] != k {
            assert src[i + 1].0 != src[0].0;
          }
        }
      }
    }
  }

  /** No element occurs twice. */
  predicate Distinct<T(==)>(s: seq<T>) {
    forall i, j :: 0 <= i < j < |s| ==> s[i] != s[j]
  }

  /** A sequence is free of repetitions exactly when every element occurs
      in its multiset at most once. */
  lemma {:induction false} DistinctMultiset<T>(s: seq<T>)
    ensures Distinct(s) <==> forall x :: multiset(s)[x] <= 1
    decreases |s|
  {
    if s != [] {
      DistinctMultiset(s[1..]);
      assert s == [s[0]] + s[1..];
      assert multiset(s) == multiset{s[0]} + multiset(s[1..]);
      if Distinct(s) {
        assert s[0] !in s[1..] by {
          forall k | 0 <= k < |s| - 1 ensures s[1..][k] != s[0] { assert s[k + 1] != s[0]; }
        }
        assert Distinct(s[1..]) by {
          forall i, j | 0 <= i < j < |s| - 1 ensures s[1..][i] != s[1..][j] {
            assert s[i + 1] != s[j + 1];
          }
        }
      } else {
        var i, j :| 0 <= i < j < |s| && s[i] == s[j];
        if i == 0 {
          assert s[j] in s[1..] by { assert s[1..][j - 1] == s[j]; }
          assert multiset(s)[s[0]] >= 2;
        } else {
          assert s[1..][i - 1] == s[1..][j - 1];
          assert !Distinct(s[1..]);
          var x :| multiset(s[1..])[x] > 1;
          assert multiset(s)[x] > 1;
        }
      }
    }
  }

  /** Keys are unique exactly when the key list is free of repetitions. */
  lemma UniqueKeysDistinct<V>(d: Dict<V>)
    ensures UniqueKeys(d) <==> Distinct(Keys(d))
  {
  }

  /** In a dictionary with unique keys, the i-th entry is what its key reads. */
  lemma {:induction false} GetAt<V>(d: Dict<V>, i: nat)
    requires UniqueKeys(d) && i < |d|
    ensures Get(d, d[i].0) == Some(d[i].1)
    decreases i
  {
    if i > 0 {
      assert d[0].0 != d[i].0;
      GetAt(d[1..], i - 1);
    }
  }

  /** The value stored under a key known to be present. */
  function ValueOf<V>(d: Dict<V>, k: string): V
    requires k in Keys(d)
  {
    Get(d, k).value
  }

  /** Two dictionaries with unique keys and the same key set list the same
      keys, possibly in another order. */
  lemma SameKeysSameMultiset<V>(a: Dict<V>, b: Dict<V>)
    requires UniqueKeys(a) && UniqueKeys(b)
    requires forall k :: k in Keys(a) <==> k in Keys(b)
    ensures multiset(Keys(a)) == multiset(Keys(b))
  {
    UniqueKeysDistinct(a);
    UniqueKeysDistinct(b);
    DistinctMultiset(Keys(a));
    DistinctMultiset(Keys(b));
    forall x ensures multiset(Keys(a))[x] == multiset(Keys(b))[x] {
      assert x in Keys(a) <==> x in Keys(b);
      assert x in multiset(Keys(a)) <==> x in multiset(Keys(b));
    }
  }
}
