/** The slice of PHP's value model the adapters depend on: loosely typed
    values, insertion-ordered string-keyed arrays, truthiness (`empty()`), the
    `(string)` cast, the loose `>` and `==` comparisons used in response
    rules, and the library functions the adapters call but the model does not
    implement (json_encode, json_decode, parse_url), bundled as a `Runtime`. */
module Php {
  import opened Text

  datatype Option<T> = None | Some(value: T)

  /** A PHP value as it travels in props, payloads and decoded responses.
      Floats and objects are not modelled; a PHP list is `List`, an array
      with string keys is `Dict`. */
  datatype Value =
    | Null
    | Bool(b: bool)
    | Int(i: int)
    | Str(s: string)
    | List(items: seq<Value>)
    | Dict(entries: seq<(string, Value)>)

  /** An insertion-ordered PHP array with string keys. */
  type Assoc<V> = seq<(string, V)>

  function Keys<V>(a: Assoc<V>): (ks: seq<string>)
    ensures |ks| == |a|
    ensures forall i :: 0 <= i < |a| ==> ks[i] == a[i].0
  {
    if a == [] then [] else [a[0].0] + Keys(a[1..])
  }

  /** Every PHP array has this shape: no key occurs twice. */
  predicate KeysUnique<V>(a: Assoc<V>) {
    forall i, j :: 0 <= i < j < |a| ==> a[i].0 != a[j].0
  }

  /** `array_key_exists($k, $a) ? $a[$k] : absent`. */
  function Get<V>(a: Assoc<V>, k: string): (r: Option<V>)
    ensures r.None? <==> k !in Keys(a)
  {
    if a == [] then None else if a[0].0 == k then Some(a[0].1) else Get(a[1..], k)
  }

  /** The position of key k. */
  function IndexOf<V>(a: Assoc<V>, k: string): (i: nat)
    requires k in Keys(a)
    ensures i < |a| && a[i].0 == k
    ensures forall j :: 0 <= j < i ==> a[j].0 != k
    ensures Get(a, k) == Some(a[i].1)
  {
    if a[0].0 == k then 0 else 1 + IndexOf(a[1..], k)
  }

  lemma {:induction false} GetAt<V>(a: Assoc<V>, i: nat)
    requires KeysUnique(a) && i < |a|
    ensures Get(a, a[i].0) == Some(a[i].1)
  {
    if i > 0 {
      assert a[0].0 != a[i].0;
      GetAt(a[1..], i - 1);
    }
  }

  lemma {:induction false} KeysAppend<V>(a: Assoc<V>, b: Assoc<V>)
    ensures Keys(a + b) == Keys(a) + Keys(b)
  {
    if a == [] {
      assert a + b == b;
    } else {
      assert (a + b)[0] == a[0] && (a + b)[1..] == a[1..] + b;
      KeysAppend(a[1..], b);
      AppendAssoc([a[0].0], Keys(a[1..]), Keys(b));
    }
  }

  /** The last entry's key is new to the entries before it. */
  lemma SnocUnique<V>(a: Assoc<V>)
    requires KeysUnique(a) && a != []
    ensures KeysUnique(a[..|a| - 1]) && a[|a| - 1].0 !in Keys(a[..|a| - 1])
    ensures a == a[..|a| - 1] + [a[|a| - 1]]
  {
    var n := |a| - 1;
    forall i | 0 <= i < n ensures a[..n][i].0 != a[n].0 { assert a[..n][i] == a[i]; }
  }

  /** Reading an array that had one entry appended. */
  lemma {:induction false} GetAppend<V>(a: Assoc<V>, k: string, v: V, j: string)
    ensures Get(a + [(k, v)], j) ==
      if j in Keys(a) then Get(a, j) else if j == k then Some(v) else None
  {
    if a != [] {
      assert (a + [(k, v)])[0] == a[0] && (a + [(k, v)])[1..] == a[1..] + [(k, v)];
      GetAppend(a[1..], k, v, j);
    } else {
      assert [(k, v)][1..] == [];
    }
  }

  /** `$a[$k] = $v`: an existing key keeps its place, a new key goes last. */
  function Put<V>(a: Assoc<V>, k: string, v: V): (r: Assoc<V>)
    ensures k !in Keys(a) ==> r == a + [(k, v)]
  {
    if a == [] then [(k, v)]
    else if a[0].0 == k then [(k, v)] + a[1..]
    else
      assert Keys(a) == [a[0].0] + Keys(a[1..]);
      assert k !in Keys(a) ==> [a[0]] + (a[1..] + [(k, v)]) == a + [(k, v)];
      [a[0]] + Put(a[1..], k, v)
  }

  /** After `$a[$k] = $v`, key k reads v and every other key reads as before. */
  lemma {:induction false} PutGet<V>(a: Assoc<V>, k: string, v: V, j: string)
    ensures Get(Put(a, k, v), j) == if j == k then Some(v) else Get(a, j)
  {
    if a != [] && a[0].0 != k {
      PutGet(a[1..], k, v, j);
      var r := Put(a, k, v);
      assert r[0] == a[0] && r[1..] == Put(a[1..], k, v);
    }
  }

  /** Overwriting an existing key changes only its own slot. */
  lemma {:induction false} PutInPlace<V>(a: Assoc<V>, k: string, v: V)
    requires k in Keys(a)
    ensures |Put(a, k, v)| == |a|
    ensures KeysUnique(a) ==>
      forall i :: 0 <= i < |a| ==> Put(a, k, v)[i] == (if a[i].0 == k then (k, v) else a[i])
  {
    if a[0].0 != k {
      PutInPlace(a[1..], k, v);
      var r := Put(a, k, v);
      assert r == [a[0]] + Put(a[1..], k, v);
      if KeysUnique(a) {
        assert KeysUnique(a[1..]);
        forall i | 0 <= i < |a| ensures r[i] == (if a[i].0 == k then (k, v) else a[i]) {
          if i > 0 { assert r[i] == Put(a[1..], k, v)[i - 1] && a[i] == a[1..][i - 1]; }
        }
      }
    } else if KeysUnique(a) {
      forall i | 0 < i < |a| ensures a[i].0 != k { }
    }
  }

  lemma {:induction false} PutKeys<V>(a: Assoc<V>, k: string, v: V)
    ensures Keys(Put(a, k, v)) == if k in Keys(a) then Keys(a) else Keys(a) + [k]
  {
    if a != [] && a[0].0 != k {
      PutKeys(a[1..], k, v);
    }
  }

  lemma PutUnique<V>(a: Assoc<V>, k: string, v: V)
    requires KeysUnique(a)
    ensures KeysUnique(Put(a, k, v))
  {
    var r := Put(a, k, v);
    PutKeys(a, k, v);
    forall i, j | 0 <= i < j < |r| ensures r[i].0 != r[j].0 {
      assert Keys(r)[i] == r[i].0 && Keys(r)[j] == r[j].0;
    }
  }

  /** `unset($a[$k])`: the key disappears, everything else keeps its order. */
  function Remove<V>(a: Assoc<V>, k: string): (r: Assoc<V>)
    ensures k !in Keys(a) ==> r == a
  {
    if a == [] then []
    else if a[0].0 == k then Remove(a[1..], k)
    else [a[0]] + Remove(a[1..], k)
  }

  /** After `unset($a[$k])`, k is absent and every other key reads as before. */
  lemma {:induction false} RemoveGet<V>(a: Assoc<V>, k: string, j: string)
    ensures Get(Remove(a, k), j) == if j == k then None else Get(a, j)
  {
    if a != [] {
      RemoveGet(a[1..], k, j);
      if a[0].0 != k {
        var r := Remove(a, k);
        assert r[0] == a[0] && r[1..] == Remove(a[1..], k);
      }
    }
  }

  /** Removing the key of entry i, found nowhere else, splices out exactly
      that entry. */
  lemma {:induction false} RemoveAt<V>(a: Assoc<V>, i: nat)
    requires i < |a|
    requires forall j :: 0 <= j < |a| && j != i ==> a[j].0 != a[i].0
    ensures Remove(a, a[i].0) == a[..i] + a[i + 1..]
  {
    var k := a[i].0;
    var tl := a[1..];
    if i == 0 {
      assert k !in Keys(tl) by {
        forall j | 0 <= j < |tl| ensures tl[j].0 != k { assert tl[j] == a[j + 1]; }
      }
      assert a[..0] + a[1..] == tl;
    } else {
      assert a[0].0 != k;
      assert tl[i - 1] == a[i];
      forall j | 0 <= j < |tl| && j != i - 1 ensures tl[j].0 != k { assert tl[j] == a[j + 1]; }
      RemoveAt(tl, i - 1);
      AppendAssoc([a[0]], tl[..i - 1], tl[i..]);
      SliceAfterHead(a, i);
    }
  }

  lemma SliceAfterHead<T>(a: seq<T>, i: nat)
    requires 0 < i < |a|
    ensures a[..i] == [a[0]] + a[1..][..i - 1] && a[i + 1..] == a[1..][i..]
  {
  }

  /** Removing a present key splices out exactly its entry. */
  lemma RemoveSplice<V>(a: Assoc<V>, k: string)
    requires KeysUnique(a) && k in Keys(a)
    ensures Remove(a, k) == a[..IndexOf(a, k)] + a[IndexOf(a, k) + 1..]
  {
    var i := IndexOf(a, k);
    forall j | 0 <= j < |a| && j != i ensures a[j].0 != a[i].0 {
      if j < i { assert a[j].0 != k; } else { assert a[i].0 != a[j].0; }
    }
    RemoveAt(a, i);
  }

  /** Removing a key keeps the keys distinct. */
  lemma {:induction false} RemoveUnique<V>(a: Assoc<V>, k: string)
    requires KeysUnique(a)
    ensures KeysUnique(Remove(a, k))
  {
    if a != [] {
      assert KeysUnique(a[1..]);
      RemoveUnique(a[1..], k);
      if a[0].0 != k {
        var t := Remove(a[1..], k);
        assert a[0].0 !in Keys(a[1..]) by {
          forall i | 0 <= i < |a[1..]| ensures a[1..][i].0 != a[0].0 { assert a[1..][i] == a[i + 1]; }
        }
        RemoveGet(a[1..], k, a[0].0);
        var r := [a[0]] + t;
        forall x, y | 0 <= x < y < |r| ensures r[x].0 != r[y].0 {
          assert r[y] == t[y - 1] && Keys(t)[y - 1] == t[y - 1].0;
          if x > 0 { assert r[x] == t[x - 1]; }
        }
      }
    }
  }

  /** The entries whose key is outside ks, in order. */
  function Drop<V>(a: Assoc<V>, ks: seq<string>): Assoc<V>
    decreases |a|
  {
    if a == [] then []
    else
      var n := |a| - 1;
      Drop(a[..n], ks) + (if a[n].0 in ks then [] else [a[n]])
  }

  /** Dropping keys: a dropped key is absent, every other key reads as before. */
  lemma {:induction false} DropGet<V>(a: Assoc<V>, ks: seq<string>, j: string)
    requires KeysUnique(a)
    ensures Get(Drop(a, ks), j) == if j in ks then None else Get(a, j)
    decreases |a|
  {
    if a != [] {
      var n := |a| - 1;
      var init := a[..n];
      var last := a[n];
      assert a == init + [last];
      assert KeysUnique(init);
      DropGet(init, ks, j);
      var d := Drop(init, ks);
      GetAppend(init, last.0, last.1, j);
      if last.0 in ks {
        assert Drop(a, ks) == d;
      } else {
        assert Drop(a, ks) == d + [last];
        GetAppend(d, last.0, last.1, j);
        if j == last.0 {
          assert j !in Keys(init) by {
            forall i | 0 <= i < n ensures init[i].0 != j { assert init[i] == a[i]; }
          }
        }
      }
    }
  }

  lemma {:induction false} DropKeys<V>(a: Assoc<V>, ks: seq<string>)
    ensures forall k :: k in Keys(Drop(a, ks)) <==> k in Keys(a) && k !in ks
    decreases |a|
  {
    if a != [] {
      var n := |a| - 1;
      assert a == a[..n] + [a[n]];
      DropKeys(a[..n], ks);
      KeysAppend(a[..n], [a[n]]);
      KeysAppend(Drop(a[..n], ks), if a[n].0 in ks then [] else [a[n]]);
    }
  }

  lemma {:induction false} RemoveSnoc<V>(a: Assoc<V>, x: (string, V), k: string)
    ensures Remove(a + [x], k) == Remove(a, k) + (if x.0 == k then [] else [x])
    decreases |a|
  {
    if a == [] {
      assert [x][1..] == [];
    } else {
      assert (a + [x])[0] == a[0] && (a + [x])[1..] == a[1..] + [x];
      RemoveSnoc(a[1..], x, k);
      if a[0].0 != k {
        AppendAssoc([a[0]], Remove(a[1..], k), if x.0 == k then [] else [x]);
      }
    }
  }

  /** `unset` of one key is dropping that key. */
  lemma {:induction false} RemoveIsDrop<V>(a: Assoc<V>, k: string)
    ensures Remove(a, k) == Drop(a, [k])
    decreases |a|
  {
    if a != [] {
      var n := |a| - 1;
      assert a == a[..n] + [a[n]];
      RemoveIsDrop(a[..n], k);
      RemoveSnoc(a[..n], a[n], k);
    }
  }

  /** Dropping twice drops both key lists. */
  lemma {:induction false} DropTwice<V>(a: Assoc<V>, xs: seq<string>, ys: seq<string>)
    ensures Drop(Drop(a, xs), ys) == Drop(a, xs + ys)
    decreases |a|
  {
    if a != [] {
      var n := |a| - 1;
      var last := a[n];
      var d := Drop(a[..n], xs);
      DropTwice(a[..n], xs, ys);
      assert (last.0 in xs + ys) <==> (last.0 in xs || last.0 in ys);
      assert Drop(a, xs + ys) == Drop(a[..n], xs + ys) + (if last.0 in xs + ys then [] else [last]);
      if last.0 !in xs {
        var dn := d + [last];
        assert Drop(a, xs) == dn;
        assert dn[..|dn| - 1] == d && dn[|dn| - 1] == last;
        assert Drop(dn, ys) == Drop(d, ys) + (if last.0 in ys then [] else [last]);
      } else {
        assert Drop(a, xs) == d + [];
        assert d + [] == d;
      }
    }
  }

  predicate Disjoint<V>(a: Assoc<V>, b: Assoc<V>) {
    forall i :: 0 <= i < |b| ==> b[i].0 !in Keys(a)
  }

  /** `array_merge($a, $b)` for string keys: b's values win, a's order first. */
  function Merge<V>(a: Assoc<V>, b: Assoc<V>): Assoc<V>
    decreases |b|
  {
    if b == [] then a else Merge(Put(a, b[0].0, b[0].1), b[1..])
  }

  /** The first entry's key is new to the entries after it. */
  lemma ConsUnique<V>(b: Assoc<V>)
    requires KeysUnique(b) && b != []
    ensures KeysUnique(b[1..]) && b[0].0 !in Keys(b[1..])
  {
    forall i | 0 <= i < |b[1..]| ensures b[1..][i].0 != b[0].0 { assert b[1..][i] == b[i + 1]; }
  }

  /** With disjoint keys, merging is concatenation. */
  lemma {:induction false} MergeDisjoint<V>(a: Assoc<V>, b: Assoc<V>)
    requires KeysUnique(b) && Disjoint(a, b)
    ensures Merge(a, b) == a + b
    decreases |b|
  {
    if b != [] {
      ConsUnique(b);
      MergeDisjointStep(a, b);
      MergeDisjoint(a + [b[0]], b[1..]);
    }
  }

  /** One step of `MergeDisjoint`: the first entry of b is appended to a. */
  lemma MergeDisjointStep<V>(a: Assoc<V>, b: Assoc<V>)
    requires b != [] && Disjoint(a, b) && b[0].0 !in Keys(b[1..])
    ensures Merge(a, b) == Merge(a + [b[0]], b[1..])
    ensures Disjoint(a + [b[0]], b[1..])
    ensures a + b == (a + [b[0]]) + b[1..]
  {
    var a' := a + [b[0]];
    assert Put(a, b[0].0, b[0].1) == a';
    KeysAppend(a, [b[0]]);
    forall i | 0 <= i < |b[1..]| ensures b[1..][i].0 !in Keys(a') {
      assert b[1..][i] == b[i + 1];
    }
    assert b == [b[0]] + b[1..];
    AppendAssoc(a, [b[0]], b[1..]);
  }

  /** A key of b reads b's value after the merge; any other key reads a's. */
  lemma {:induction false} MergeGet<V>(a: Assoc<V>, b: Assoc<V>, j: string)
    requires KeysUnique(b)
    ensures Get(Merge(a, b), j) == if j in Keys(b) then Get(b, j) else Get(a, j)
    decreases |b|
  {
    if b != [] {
      var a' := Put(a, b[0].0, b[0].1);
      assert KeysUnique(b[1..]);
      MergeGet(a', b[1..], j);
      PutGet(a, b[0].0, b[0].1, j);
      if j == b[0].0 {
        assert j !in Keys(b[1..]) by {
          forall i | 0 <= i < |b[1..]| ensures b[1..][i].0 != j { assert b[1..][i] == b[i + 1]; }
        }
      }
    }
  }

  // ---- values -------------------------------------------------------------

  /** PHP's boolean conversion; `empty($x)` is its negation. */
  predicate Truthy(v: Value) {
    match v
    case Null => false
    case Bool(b) => b
    case Int(i) => i != 0
    case Str(s) => s != "" && s != "0"
    case List(xs) => xs != []
    case Dict(es) => es != []
  }

  predicate IsEmpty(v: Value) { !Truthy(v) }

  predicate IsScalar(v: Value) { v.Bool? || v.Int? || v.Str? }

  /** The `(string)` cast. */
  function StringOf(v: Value): string {
    match v
    case Null => ""
    case Bool(b) => if b then "1" else ""
    case Int(i) => IntToString(i)
    case Str(s) => s
    case List(_) => "Array"
    case Dict(_) => "Array"
  }

  /** `$a[$k]` as a getter: null when the key is absent. */
  function Lookup(a: Assoc<Value>, k: string): (r: Value)
    ensures k !in Keys(a) ==> r == Null
    ensures k in Keys(a) ==> Get(a, k) == Some(r)
  {
    match Get(a, k)
    case Some(v) => v
    case None => Null
  }

  /** `$a[$k] ?? $default`: a null value counts as missing. */
  function Coalesce(a: Assoc<Value>, k: string, default: Value): (r: Value)
    ensures Lookup(a, k) != Null ==> r == Lookup(a, k)
    ensures Lookup(a, k) == Null ==> r == default
  {
    match Get(a, k)
    case Some(v) => if v.Null? then default else v
    case None => default
  }

  /** `isset($a[$k])`. */
  predicate Isset(a: Assoc<Value>, k: string) {
    Lookup(a, k) != Null
  }

  /** The array_filter callback shared by the adapters: `!is_null($v) && $v !== ''`. */
  predicate KeepEntry(v: Value) { v != Null && v != Str("") }

  function FilterNonEmpty(a: Assoc<Value>): (r: Assoc<Value>)
    ensures forall i :: 0 <= i < |r| ==> KeepEntry(r[i].1)
  {
    if a == [] then []
    else if KeepEntry(a[0].1) then [a[0]] + FilterNonEmpty(a[1..])
    else FilterNonEmpty(a[1..])
  }

  /** The filter drops exactly the null and '' entries: every other key
      reads as before, those keys read as absent. */
  lemma {:induction false} FilterGet(a: Assoc<Value>, j: string)
    requires KeysUnique(a)
    ensures Get(FilterNonEmpty(a), j) ==
      if Get(a, j).Some? && KeepEntry(Get(a, j).value) then Get(a, j) else None
  {
    if a != [] {
      assert KeysUnique(a[1..]);
      FilterGet(a[1..], j);
      if a[0].0 == j {
        assert j !in Keys(a[1..]) by {
          forall i | 0 <= i < |a[1..]| ensures a[1..][i].0 != j { assert a[1..][i] == a[i + 1]; }
        }
      }
      if KeepEntry(a[0].1) {
        var r := FilterNonEmpty(a);
        assert r[0] == a[0] && r[1..] == FilterNonEmpty(a[1..]);
      }
    }
  }

  /** The i-th entry survives the filter exactly when its value is kept. */
  lemma FilterAtIndex(a: Assoc<Value>, i: nat)
    requires KeysUnique(a) && i < |a|
    ensures Get(FilterNonEmpty(a), a[i].0) == if KeepEntry(a[i].1) then Some(a[i].1) else None
  {
    GetAt(a, i);
    FilterGet(a, a[i].0);
  }

  /** `$v[$k]` on a decoded JSON value; anything but an array gives null. */
  function At(v: Value, k: string): Value {
    match v
    case Dict(es) => Lookup(es, k)
    case _ => Null
  }

  /** `$v[$n]` on a decoded JSON value (`{"0": x}` decodes to an int key too). */
  function AtIndex(v: Value, n: nat): Value {
    match v
    case List(xs) => if n < |xs| then xs[n] else Null
    case Dict(es) => Lookup(es, IntToString(n))
    case _ => Null
  }

  /** The values `foreach ($v as $x)` visits; a non-array visits nothing. */
  function Items(v: Value): seq<Value> {
    match v
    case List(xs) => xs
    case Dict(es) => seq(|es|, i requires 0 <= i < |es| => es[i].1)
    case _ => []
  }

  /** PHP 8's loose `$v > 0`. Numeric strings compare as numbers; any other
      string is compared with "0" as a string; arrays are always greater. */
  predicate GreaterThanZero(v: Value) {
    match v
    case Null => false
    case Bool(b) => b
    case Int(i) => i > 0
    case Str(s) => if IsDecimal(s) then ParseDecimal(s) > 0 else StrLess("0", s)
    case List(_) => true
    case Dict(_) => true
  }

  /** PHP 8's loose `$v == $s` against a string. */
  predicate LooselyEquals(v: Value, s: string) {
    match v
    case Null => s == ""
    case Bool(b) => b == Truthy(Str(s))
    case Int(i) => IsDecimal(s) && ParseDecimal(s) == i
    case Str(t) => if IsDecimal(t) && IsDecimal(s) then ParseDecimal(t) == ParseDecimal(s) else t == s
    case List(_) => false
    case Dict(_) => false
  }

  /** What parse_url reports; a URL it rejects has no parts at all. */
  datatype UrlParts = UrlParts(host: Option<string>, path: Option<string>, query: Option<string>)

  /** The library functions the adapters call, as oracles: json_encode,
      json_decode (None when it fails) and parse_url. */
  datatype Runtime = Runtime(
    jsonEncode: Value -> string,
    jsonDecode: string -> Option<Value>,
    parseUrl: string -> UrlParts)

  // ---- laws the adapters' contracts rest on -----------------------------

  /** The decimal text of an int is what `(string)` gives, and `> 0` on that
      text agrees with `> 0` on the int. */
  lemma CastKeepsSign(i: int)
    ensures GreaterThanZero(Str(StringOf(Int(i)))) <==> GreaterThanZero(Int(i))
  {
    IntToStringRoundTrip(i);
  }

  /** An int equals (loosely) its own decimal text and no other int's. */
  lemma LooseEqualityOnIds(i: int, j: int)
    ensures LooselyEquals(Int(i), IntToString(j)) <==> i == j
  {
    IntToStringRoundTrip(j);
  }
}
