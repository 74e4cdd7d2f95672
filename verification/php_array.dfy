/**
 * PHP arrays with string keys, as the source uses them: ordered dictionaries
 * whose iteration order is insertion order, plus the few array and string
 * built-ins the source calls (`implode`, `array_unique`, `array_filter`).
 */
module PhpArray {

  /** One key/value slot of a PHP array. */
  datatype Entry<V> = Entry(key: string, value: V)

  /** A PHP array: entries in iteration order. */
  type Dict<V> = seq<Entry<V>>

  function Keys<V>(d: Dict<V>): seq<string> {
    seq(|d|, i requires 0 <= i < |d| => d[i].key)
  }

  /** `isset($d[$k])` / `array_key_exists($k, $d)`. */
  predicate Has<V>(d: Dict<V>, k: string) {
    k in Keys(d)
  }

  /** A well-formed PHP array never holds the same key twice. */
  predicate DistinctKeys<V>(d: Dict<V>) {
    forall i, j :: 0 <= i < j < |d| ==> d[i].key != d[j].key
  }

  /** Position of key `k`. */
  function IndexOf<V>(d: Dict<V>, k: string): (i: nat)
    requires Has(d, k)
    ensures i < |d| && d[i].key == k
    ensures forall j :: 0 <= j < i ==> d[j].key != k
  {
    assert Keys(d)[0] == d[0].key;
    if d[0].key == k then 0
    else
      assert Has(d[1..], k) by {
        var j :| 0 <= j < |d| && Keys(d)[j] == k;
        assert Keys(d[1..])[j - 1] == k;
      }
      IndexOf(d[1..], k) + 1
  }

  /** `$d[$k]` for a key that is present. */
  function Get<V>(d: Dict<V>, k: string): V
    requires Has(d, k)
  {
    d[IndexOf(d, k)].value
  }

  lemma HasAt<V>(d: Dict<V>, i: int)
    requires 0 <= i < |d|
    ensures Has(d, d[i].key)
  {
    assert Keys(d)[i] == d[i].key;
  }

  lemma GetAt<V>(d: Dict<V>, i: int)
    requires DistinctKeys(d) && 0 <= i < |d|
    ensures Has(d, d[i].key) && IndexOf(d, d[i].key) == i && Get(d, d[i].key) == d[i].value
  {
    HasAt(d, i);
  }

  /** `$d[$k] = $v`: overwrites in place when `k` is present, appends otherwise. */
  function Set<V>(d: Dict<V>, k: string, v: V): Dict<V> {
    if Has(d, k) then d[IndexOf(d, k) := Entry(k, v)] else d + [Entry(k, v)]
  }

  /**
   * After `$d[$k] = $v`, `k` maps to `v`, every other key is present and
   * mapped as before, a new key goes last and distinct keys stay distinct.
   */
  lemma SetSpec<V>(d: Dict<V>, k: string, v: V)
    ensures var r := Set(d, k, v);
      && Has(r, k) && Get(r, k) == v
      && (forall k' :: k' != k ==> (Has(r, k') <==> Has(d, k')))
      && (forall k' :: k' != k && Has(d, k') ==> Get(r, k') == Get(d, k'))
      && Keys(r) == (if Has(d, k) then Keys(d) else Keys(d) + [k])
      && (DistinctKeys(d) ==> DistinctKeys(r))
  {
    if Has(d, k) {
      SetOverwrite(d, IndexOf(d, k), k, v);
    } else {
      SetAppend(d, k, v);
    }
  }

  lemma SetOverwrite<V>(d: Dict<V>, i: nat, k: string, v: V)
    requires Has(d, k) && i == IndexOf(d, k)
    ensures var r := d[i := Entry(k, v)];
      && Keys(r) == Keys(d) && Has(r, k) && Get(r, k) == v
      && forall k' :: k' != k && Has(d, k') ==> Get(r, k') == Get(d, k')
  {
    var r := d[i := Entry(k, v)];
    assert Keys(r) == Keys(d);
    assert r[i].key == k;
    forall k' | k' != k && Has(d, k') ensures Get(r, k') == Get(d, k') {
      var j := IndexOf(d, k');
      assert IndexOf(r, k') == j by {
        assert r[j].key == k';
        HasAt(r, j);
        var m := IndexOf(r, k');
        assert forall x :: 0 <= x < j ==> r[x].key == d[x].key;
      }
    }
  }

  lemma SetAppend<V>(d: Dict<V>, k: string, v: V)
    requires !Has(d, k)
    ensures var r := d + [Entry(k, v)];
      && Keys(r) == Keys(d) + [k] && Has(r, k) && Get(r, k) == v
      && (forall k' :: k' != k && Has(d, k') ==> Get(r, k') == Get(d, k'))
      && (DistinctKeys(d) ==> DistinctKeys(r))
  {
    var r := d + [Entry(k, v)];
    assert Keys(r) == Keys(d) + [k];
    HasAt(r, |d|);
    assert IndexOf(r, k) == |d| by {
      var m := IndexOf(r, k);
      if m < |d| { HasAt(d, m); }
    }
    forall k' | k' != k && Has(d, k') ensures Get(r, k') == Get(d, k') {
      var j := IndexOf(d, k');
      HasAt(r, j);
      assert forall x :: 0 <= x < j ==> r[x] == d[x];
    }
    forall i | 0 <= i < |d| ensures d[i].key != k {
      HasAt(d, i);
    }
  }

  /** `k` sits at `j` and nowhere before it: `j` is its position. */
  lemma IndexOfAt<V>(d: Dict<V>, k: string, j: nat)
    requires j < |d| && d[j].key == k
    requires forall x :: 0 <= x < j ==> d[x].key != k
    ensures Has(d, k) && IndexOf(d, k) == j
  {
    HasAt(d, j);
  }

  /**
   * A PHP array is its entries but the last, followed by the last entry:
   * keys, presence and lookups of the shorter array carry over.
   */
  lemma DictSnoc<V>(d: Dict<V>)
    requires d != []
    ensures var init, last := d[..|d| - 1], d[|d| - 1];
      && Keys(d) == Keys(init) + [last.key]
      && (forall k :: Has(d, k) <==> Has(init, k) || k == last.key)
      && (forall k :: Has(init, k) ==> Get(d, k) == Get(init, k))
      && (DistinctKeys(d) ==> DistinctKeys(init) && !Has(init, last.key) && Get(d, last.key) == last.value)
  {
    var init, last := d[..|d| - 1], d[|d| - 1];
    assert Keys(d) == Keys(init) + [last.key];
    forall k | Has(init, k) ensures Get(d, k) == Get(init, k) {
      var j := IndexOf(init, k);
      IndexOfAt(d, k, j);
    }
    if DistinctKeys(d) {
      GetAt(d, |d| - 1);
    }
  }

  /** Creating a missing key and then overwriting it is the same as setting it once. */
  lemma SetTwice<V>(d: Dict<V>, k: string, a: V, b: V)
    requires !Has(d, k)
    ensures Set(Set(d, k, a), k, b) == Set(d, k, b)
  {
    forall x | 0 <= x < |d| ensures d[x].key != k {
      HasAt(d, x);
    }
    var d' := d + [Entry(k, a)];
    IndexOfAt(d', k, |d|);
  }

  /** The values of a PHP array, in order. */
  function Values<V>(d: Dict<V>): seq<V> {
    seq(|d|, i requires 0 <= i < |d| => d[i].value)
  }

  /** `unset($d[$k])`. */
  function Remove<V>(d: Dict<V>, k: string): Dict<V> {
    if d == [] then []
    else if d[0].key == k then Remove(d[1..], k)
    else [d[0]] + Remove(d[1..], k)
  }

  /**
   * After `unset($d[$k])`, `k` is absent and every other key is present
   * exactly when it was; with distinct keys, their values are unchanged.
   */
  lemma {:induction false} RemoveSpec<V>(d: Dict<V>, k: string)
    ensures var r := Remove(d, k);
      && !Has(r, k)
      && (forall k' :: k' != k ==> (Has(r, k') <==> Has(d, k')))
      && (DistinctKeys(d) ==> DistinctKeys(r) && forall k' :: k' != k && Has(d, k') ==> Get(r, k') == Get(d, k'))
  {
    if d != [] {
      var rest := Remove(d[1..], k);
      RemoveSpec(d[1..], k);
      HasCons(d);
      if d[0].key != k {
        var r := [d[0]] + rest;
        assert r[1..] == rest && r[0] == d[0];
        HasCons(r);
        if DistinctKeys(d) {
          assert DistinctKeys(d[1..]);
          RemoveCons(d, rest, k);
        }
      }
    }
  }

  /** A key is in a non-empty dictionary iff it is the first key or in the tail. */
  lemma HasCons<V>(d: Dict<V>)
    requires d != []
    ensures forall k' :: Has(d, k') <==> k' == d[0].key || Has(d[1..], k')
  {
    forall k' ensures Has(d, k') <==> k' == d[0].key || Has(d[1..], k') {
      if Has(d, k') {
        var j :| 0 <= j < |d| && Keys(d)[j] == k';
        if j > 0 { assert Keys(d[1..])[j - 1] == k'; }
      }
      if Has(d[1..], k') {
        var j :| 0 <= j < |d| - 1 && Keys(d[1..])[j] == k';
        assert Keys(d)[j + 1] == k';
      }
      assert Keys(d)[0] == d[0].key;
    }
  }

  /** Keeping the first entry in front of the tail with `k` removed keeps keys distinct and values in place. */
  lemma RemoveCons<V>(d: Dict<V>, rest: Dict<V>, k: string)
    requires d != [] && DistinctKeys(d) && d[0].key != k
    requires DistinctKeys(rest) && !Has(rest, k)
    requires forall k' :: k' != k ==> (Has(rest, k') <==> Has(d[1..], k'))
    requires forall k' :: k' != k && Has(d[1..], k') ==> Get(rest, k') == Get(d[1..], k')
    ensures DistinctKeys([d[0]] + rest)
    ensures forall k' :: k' != k ==> (Has([d[0]] + rest, k') <==> Has(d, k'))
    ensures forall k' :: k' != k && Has(d, k') ==> Get([d[0]] + rest, k') == Get(d, k')
  {
    var r := [d[0]] + rest;
    assert r[1..] == rest && r[0] == d[0];
    HasCons(d);
    HasCons(r);
    RemoveConsDistinct(d, rest, k);
    forall k' | k' != k && Has(d, k') ensures Get(r, k') == Get(d, k') {
      RemoveConsGet(d, rest, k, k');
    }
  }

  lemma RemoveConsDistinct<V>(d: Dict<V>, rest: Dict<V>, k: string)
    requires d != [] && DistinctKeys(d) && d[0].key != k
    requires DistinctKeys(rest)
    requires forall k' :: k' != k ==> (Has(rest, k') <==> Has(d[1..], k'))
    requires !Has(rest, k)
    ensures DistinctKeys([d[0]] + rest)
  {
    var r := [d[0]] + rest;
    assert !Has(rest, d[0].key) by {
      forall j | 0 <= j < |d| - 1 ensures Keys(d[1..])[j] != d[0].key {
        assert d[j + 1].key != d[0].key;
      }
    }
    forall i, j | 0 <= i < j < |r| ensures r[i].key != r[j].key {
      if i == 0 {
        HasAt(rest, j - 1);
      } else {
        assert r[i] == rest[i - 1] && r[j] == rest[j - 1];
      }
    }
  }

  lemma RemoveConsGet<V>(d: Dict<V>, rest: Dict<V>, k: string, k': string)
    requires d != [] && DistinctKeys(d) && d[0].key != k
    requires DistinctKeys([d[0]] + rest)
    requires forall k' :: k' != k ==> (Has(rest, k') <==> Has(d[1..], k'))
    requires forall k' :: k' != k && Has(d[1..], k') ==> Get(rest, k') == Get(d[1..], k')
    requires k' != k && Has(d, k') && Has([d[0]] + rest, k')
    ensures Get([d[0]] + rest, k') == Get(d, k')
  {
    var r := [d[0]] + rest;
    assert r[1..] == rest && r[0] == d[0];
    if k' == d[0].key {
      assert IndexOf(d, k') == 0;
      HasAt(r, 0);
      assert IndexOf(r, k') == 0;
    } else {
      GetTail(d, k');
      GetTail(r, k');
    }
  }

  /** A key other than the first is found, with its value, in the tail. */
  lemma GetTail<V>(d: Dict<V>, k: string)
    requires d != [] && d[0].key != k && Has(d, k)
    ensures Has(d[1..], k) && Get(d, k) == Get(d[1..], k)
  {
    HasCons(d);
    var j := IndexOf(d[1..], k);
    assert IndexOf(d, k) == j + 1;
    assert d[j + 1] == d[1..][j];
  }

  /** An element of a concatenation past its first part. */
  lemma ConcatAt<T>(a: seq<T>, b: seq<T>, k: nat)
    requires |a| <= k < |a| + |b|
    ensures (a + b)[k] == b[k - |a|]
  {
  }

  /** Extending a prefix by one element. */
  lemma TakeSnoc<T>(s: seq<T>, i: nat)
    requires i < |s|
    ensures s[..i + 1] == s[..i] + [s[i]]
  {
  }

  /**
   * A PHP value as the request bag and decoded JSON hold it. Every array is
   * an ordered map; a list's keys are its positions written in decimal.
   */
  datatype Value = Null | Bool(b: bool) | Int(i: int) | Str(s: string) | Arr(entries: Dict<Value>)

  /** The decimal digits of `n`: the string form of an integer array key. */
  function DecimalKey(n: nat): (r: string)
    ensures |r| > 0
  {
    var digit := ["0", "1", "2", "3", "4", "5", "6", "7", "8", "9"][n % 10];
    if n < 10 then digit else DecimalKey(n / 10) + digit
  }

  /** A PHP list of strings: keys 0, 1, ... in order. */
  function StringList(items: seq<string>): Value {
    Arr(seq(|items|, i requires 0 <= i < |items| => Entry(DecimalKey(i), Str(items[i]))))
  }

  /** PHP truthiness: `null`, `false`, `0`, `""`, `"0"` and the empty array are falsy. */
  predicate Truthy(v: Value) {
    match v
    case Null => false
    case Bool(b) => b
    case Int(i) => i != 0
    case Str(s) => TruthyString(s)
    case Arr(entries) => entries != []
  }

  /** `implode($sep, $parts)`. */
  function Implode(sep: string, parts: seq<string>): string {
    if |parts| == 0 then ""
    else if |parts| == 1 then parts[0]
    else parts[0] + sep + Implode(sep, parts[1..])
  }

  /** PHP truthiness of a string: only "" and "0" are falsy. */
  predicate TruthyString(s: string) {
    s != "" && s != "0"
  }

  /** `array_filter($s)` without a callback, on strings: drops falsy entries, keeps order. */
  function FilterTruthy(s: seq<string>): (r: seq<string>)
    ensures forall x :: x in r <==> x in s && TruthyString(x)
  {
    if s == [] then []
    else
      var rest := FilterTruthy(s[1..]);
      assert forall x :: x in s <==> x == s[0] || x in s[1..];
      if TruthyString(s[0]) then [s[0]] + rest else rest
  }

  /** `array_filter` keeps the relative order of what it keeps: it distributes over concatenation. */
  lemma {:induction false} FilterTruthyAppend(a: seq<string>, b: seq<string>)
    ensures FilterTruthy(a + b) == FilterTruthy(a) + FilterTruthy(b)
    decreases |a|
  {
    if a != [] {
      assert (a + b)[0] == a[0] && (a + b)[1..] == a[1..] + b;
      FilterTruthyAppend(a[1..], b);
    } else {
      assert a + b == b;
    }
  }

  /** The position of the first occurrence of `x` in `s`. */
  function FirstIndex(s: seq<string>, x: string): (k: nat)
    requires x in s
    ensures k < |s| && s[k] == x && x !in s[..k]
  {
    if s[0] == x then 0
    else
      var k := FirstIndex(s[1..], x);
      assert s[..k + 1] == [s[0]] + s[1..][..k];
      k + 1
  }

  /** Dropping falsy values keeps the order of first occurrences of the values kept. */
  lemma {:induction false} FilterTruthyOrder(s: seq<string>, x: string, y: string)
    requires x in FilterTruthy(s) && y in FilterTruthy(s)
    requires FirstIndex(FilterTruthy(s), x) < FirstIndex(FilterTruthy(s), y)
    ensures FirstIndex(s, x) < FirstIndex(s, y)
    decreases |s|
  {
    var f := FilterTruthy(s);
    var rest := FilterTruthy(s[1..]);
    if TruthyString(s[0]) {
      assert f == [s[0]] + rest;
      if x != s[0] {
        assert y != s[0];
        assert f[1..] == rest;
        FilterTruthyOrder(s[1..], x, y);
      }
    } else {
      assert f == rest;
      FilterTruthyOrder(s[1..], x, y);
    }
  }

  /** `Unique(s)` lists the values of `s` in the order of their first occurrences. */
  lemma {:induction false} UniqueOrder(s: seq<string>)
    ensures forall i, j :: 0 <= i < j < |Unique(s)| ==> FirstIndex(s, Unique(s)[i]) < FirstIndex(s, Unique(s)[j])
    decreases |s|
  {
    if s != [] {
      var init := s[..|s| - 1];
      var last := s[|s| - 1];
      var u := Unique(init);
      UniqueOrder(init);
      assert s == init + [last];
      forall x | x in init ensures FirstIndex(s, x) == FirstIndex(init, x) {
        FirstIndexPrefix(init, last, x);
      }
      if last !in u {
        assert last !in init;
        FirstIndexLast(init, last);
      }
    }
  }

  lemma {:induction false} FirstIndexPrefix(init: seq<string>, last: string, x: string)
    requires x in init
    ensures FirstIndex(init + [last], x) == FirstIndex(init, x)
    decreases |init|
  {
    if init[0] != x {
      assert (init + [last])[1..] == init[1..] + [last];
      FirstIndexPrefix(init[1..], last, x);
    }
  }

  lemma FirstIndexLast(init: seq<string>, last: string)
    requires last !in init
    ensures FirstIndex(init + [last], last) == |init|
  {
    assert (init + [last])[..|init|] == init;
  }

  predicate Distinct<T(==)>(s: seq<T>) {
    forall i, j :: 0 <= i < j < |s| ==> s[i] != s[j]
  }

  /** `array_unique($s)`: keeps the first occurrence of every value, in order. */
  function Unique(s: seq<string>): (r: seq<string>)
    ensures forall x :: x in r <==> x in s
    ensures Distinct(r)
  {
    if s == [] then []
    else
      var init := s[..|s| - 1];
      var u := Unique(init);
      assert forall x :: x in s <==> x in init || x == s[|s| - 1] by {
        assert s == init + [s[|s| - 1]];
      }
      if s[|s| - 1] in u then u else u + [s[|s| - 1]]
  }

  /** `Unique` of a prefix is a prefix of `Unique`: a value's position follows its first occurrence. */
  lemma {:induction false} UniquePrefix(s: seq<string>, n: nat)
    requires n <= |s|
    ensures Unique(s[..n]) <= Unique(s)
    decreases |s| - n
  {
    if n < |s| {
      UniquePrefix(s, n + 1);
      var t := s[..n + 1];
      assert t[..|t| - 1] == s[..n];
      assert Unique(s[..n]) <= Unique(t);
    } else {
      assert s[..n] == s;
    }
  }
}
