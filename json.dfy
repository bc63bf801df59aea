/**
 * JavaScript values as they stand in a request body before serialisation, and the
 * two object operations the client builds its bodies with: defining one property
 * (`{...o, k: v}`) and copying every own property of one object onto another
 * (`{...target, ...src}`).
 *
 * An object is the sequence of its own properties in insertion order. For keys that
 * are not array indices this is the order JavaScript enumerates, and JSON
 * serialisation writes, them; keys such as "0" would come first in ascending numeric
 * order, but every key the client uses is an ordinary name. A JavaScript object never has two
 * own properties with the same key; `Distinct(Keys(fs))` states that where it is needed.
 */
module Json {
  import opened Wrappers

  datatype Value =
    | Null
    | Num(n: int)
    | Str(s: string)
    | Obj(fields: seq<Field>)
      /** The not-yet-awaited result of reading `key` from the persistent storage. */
    | StoreRead(key: string)

  /** One own property of an object. */
  datatype Field = Field(key: string, value: Value)

  /** The keys of an object, in insertion order. */
  function Keys(fs: seq<Field>): (ks: seq<string>)
    ensures |ks| == |fs|
  {
    if fs == [] then [] else [fs[0].key] + Keys(fs[1..])
  }

  predicate Distinct(ks: seq<string>) {
    forall i, j :: 0 <= i < j < |ks| ==> ks[i] != ks[j]
  }

  /** Property access `o[k]`: None stands for `undefined`. */
  function Lookup(fs: seq<Field>, k: string): (r: Option<Value>)
    ensures r.Some? <==> k in Keys(fs)
  {
    if fs == [] then None
    else if fs[0].key == k then Some(fs[0].value)
    else Lookup(fs[1..], k)
  }

  /**
   * Defining property `k` with value `v`: an existing property keeps its place and
   * takes the new value, a new one goes last.
   */
  function Assign(fs: seq<Field>, k: string, v: Value): (r: seq<Field>)
    ensures Lookup(r, k) == Some(v)
    ensures forall j :: j != k ==> Lookup(r, j) == Lookup(fs, j)
    ensures Keys(r) == if k in Keys(fs) then Keys(fs) else Keys(fs) + [k]
  {
    if fs == [] then [Field(k, v)]
    else if fs[0].key == k then [Field(k, v)] + fs[1..]
    else [fs[0]] + Assign(fs[1..], k, v)
  }

  /**
   * Object spread `{...target, ...src}`: every own property of `src`, in order,
   * is defined on (a copy of) `target`.
   */
  function Spread(target: seq<Field>, src: seq<Field>): seq<Field>
    decreases |src|
  {
    if src == [] then target
    else Spread(Assign(target, src[0].key, src[0].value), src[1..])
  }

  /** Spreading a property that is missing or not an object copies nothing. */
  function SpreadSource(v: Option<Value>): seq<Field> {
    match v
    case Some(Obj(fs)) => fs
    case _ => []
  }

  /** Property access on an object literal, one property at a time. */
  lemma LookupCons(f: Field, fs: seq<Field>, k: string)
    ensures Lookup([f] + fs, k) == if f.key == k then Some(f.value) else Lookup(fs, k)
  {
    assert ([f] + fs)[1..] == fs;
  }

  lemma KeysCons(f: Field, fs: seq<Field>)
    ensures Keys([f] + fs) == [f.key] + Keys(fs)
  {
    assert ([f] + fs)[1..] == fs;
  }

  lemma {:induction false} KeysAppend(a: seq<Field>, b: seq<Field>)
    ensures Keys(a + b) == Keys(a) + Keys(b)
  {
    if a != [] {
      assert (a + b)[1..] == a[1..] + b;
      KeysAppend(a[1..], b);
    } else {
      assert a + b == b;
    }
  }

  lemma DistinctSnoc(ks: seq<string>, k: string)
    requires Distinct(ks) && k !in ks
    ensures Distinct(ks + [k])
  {
    forall i, j | 0 <= i < j < |ks| + 1 ensures (ks + [k])[i] != (ks + [k])[j] {
      if j == |ks| { assert (ks + [k])[i] == ks[i]; }
    }
  }

  /** The first key of a list of distinct keys does not occur again. */
  lemma HeadNotInTail(ks: seq<string>)
    requires Distinct(ks) && ks != []
    ensures ks[0] !in ks[1..] && Distinct(ks[1..])
  {
    forall i | 0 <= i < |ks| - 1 ensures ks[1..][i] != ks[0] {
      assert ks[1..][i] == ks[i + 1];
    }
  }

  /** Defining a property keeps an object's keys distinct. */
  lemma AssignDistinct(fs: seq<Field>, k: string, v: Value)
    requires Distinct(Keys(fs))
    ensures Distinct(Keys(Assign(fs, k, v)))
  {
    if k !in Keys(fs) { DistinctSnoc(Keys(fs), k); }
  }

  /** Assigning a key an object does not have appends it. */
  lemma {:induction false} AssignNewKey(fs: seq<Field>, k: string, v: Value)
    requires k !in Keys(fs)
    ensures Assign(fs, k, v) == fs + [Field(k, v)]
  {
    if fs != [] {
      assert fs[0].key != k && k !in Keys(fs[1..]) by {
        KeysCons(fs[0], fs[1..]);
        assert [fs[0]] + fs[1..] == fs;
      }
      AssignNewKey(fs[1..], k, v);
      ConsThenSnoc(fs, Field(k, v));
    }
  }

  lemma ConsThenSnoc<T>(s: seq<T>, x: T)
    requires s != []
    ensures [s[0]] + (s[1..] + [x]) == s + [x]
  {
    assert [s[0]] + s[1..] == s;
  }

  /**
   * After a spread, a key of `src` has the value `src` gives it and any other key
   * keeps the value it had in `target`.
   */
  lemma {:induction false} SpreadLookup(target: seq<Field>, src: seq<Field>, j: string)
    requires Distinct(Keys(src))
    ensures Lookup(Spread(target, src), j) == if j in Keys(src) then Lookup(src, j) else Lookup(target, j)
    decreases |src|
  {
    if src != [] {
      var k, v := src[0].key, src[0].value;
      assert Keys(src) == [k] + Keys(src[1..]);
      HeadNotInTail(Keys(src));
      var next := Assign(target, k, v);
      SpreadLookup(next, src[1..], j);
    }
  }

  /** Spreading an object whose keys `target` already has leaves the key order unchanged. */
  lemma {:induction false} SpreadKnownKeys(target: seq<Field>, src: seq<Field>)
    requires forall j :: j in Keys(src) ==> j in Keys(target)
    ensures Keys(Spread(target, src)) == Keys(target)
    decreases |src|
  {
    if src != [] {
      var k, v := src[0].key, src[0].value;
      assert Keys(src) == [k] + Keys(src[1..]);
      var next := Assign(target, k, v);
      SpreadKnownKeys(next, src[1..]);
    }
  }

  /** Spreading an object whose keys are all new appends its properties in order. */
  lemma {:induction false} SpreadNewKeys(target: seq<Field>, src: seq<Field>)
    requires Distinct(Keys(src))
    requires forall j :: j in Keys(src) ==> j !in Keys(target)
    ensures Spread(target, src) == target + src
    decreases |src|
  {
    if src != [] {
      var k, v, rest := src[0].key, src[0].value, src[1..];
      assert src == [Field(k, v)] + rest;
      assert Keys(src) == [k] + Keys(rest);
      var next := target + [Field(k, v)];
      assert Assign(target, k, v) == next by {
        assert k in Keys(src);
        AssignNewKey(target, k, v);
      }
      assert Distinct(Keys(rest)) && k !in Keys(rest) by {
        assert Keys(src)[0] == k && Keys(src)[1..] == Keys(rest);
        HeadNotInTail(Keys(src));
      }
      assert forall j :: j in Keys(rest) ==> j !in Keys(next) by {
        KeysAppend(target, [Field(k, v)]);
        assert Keys([Field(k, v)]) == [k];
      }
      SpreadNewKeys(next, rest);
      SnocThenAppend(target, Field(k, v), rest);
    }
  }

  lemma SnocThenAppend<T>(a: seq<T>, x: T, b: seq<T>)
    ensures (a + [x]) + b == a + ([x] + b)
  {
  }

  /** A copy by spread into an empty object is the object itself. */
  lemma SpreadIntoEmpty(fs: seq<Field>)
    requires Distinct(Keys(fs))
    ensures Spread([], fs) == fs
  {
    SpreadNewKeys([], fs);
  }

  /** Spreading an object over itself changes nothing: `{...o, ...o}` equals `o`. */
  lemma SpreadSelf(fs: seq<Field>)
    requires Distinct(Keys(fs))
    ensures Spread(fs, fs) == fs
  {
    SpreadKnownKeys(fs, fs);
    forall j ensures Lookup(Spread(fs, fs), j) == Lookup(fs, j) {
      SpreadLookup(fs, fs, j);
    }
    Extensional(Spread(fs, fs), fs);
  }

  /** Defining a property with the value it already has changes nothing. */
  lemma AssignSame(fs: seq<Field>, k: string, v: Value)
    requires Distinct(Keys(fs)) && Lookup(fs, k) == Some(v)
    ensures Assign(fs, k, v) == fs
  {
    Extensional(Assign(fs, k, v), fs);
  }

  /** Two objects with the same keys in the same order and the same property values are equal. */
  lemma {:induction false} Extensional(a: seq<Field>, b: seq<Field>)
    requires Keys(a) == Keys(b) && Distinct(Keys(a))
    requires forall k :: Lookup(a, k) == Lookup(b, k)
    ensures a == b
  {
    if a != [] {
      var k := a[0].key;
      assert Keys(a) == [k] + Keys(a[1..]);
      assert Keys(b) == [b[0].key] + Keys(b[1..]);
      assert Keys(a)[0] == k && Keys(b)[0] == b[0].key;
      assert Lookup(a, k) == Some(a[0].value) && Lookup(b, k) == Some(b[0].value);
      HeadNotInTail(Keys(a));
      forall j ensures Lookup(a[1..], j) == Lookup(b[1..], j) {
        if j != k {
          assert Lookup(a, j) == Lookup(a[1..], j);
          assert Lookup(b, j) == Lookup(b[1..], j);
        }
      }
      Extensional(a[1..], b[1..]);
    }
  }
}
