/**
 * Plain JavaScript objects as far as object spread (`{ ...a, ...b }`) and
 * object rest destructuring (`{ size, ...rest } = o`) observe them: own data
 * properties with string keys, each key at most once, enumerated with the
 * array-index keys first in ascending numeric order and every other key
 * after them in creation order.
 */
module JsObject {

  datatype Option<+T> = None | Some(value: T)

  /** One own enumerable data property. */
  datatype Property<V> = Property(key: string, value: V)

  predicate Digits(s: string)
  {
    forall i :: 0 <= i < |s| ==> '0' <= s[i] <= '9'
  }

  function DecimalValue(s: string): nat
    requires Digits(s)
  {
    if s == [] then 0 else DecimalValue(s[..|s| - 1]) * 10 + (s[|s| - 1] - '0') as int
  }

  /** An array index: the canonical decimal form of an integer below 2^32 - 1. */
  predicate IsArrayIndex(k: string)
  {
    |k| > 0 && Digits(k) && (k[0] == '0' ==> |k| == 1) && DecimalValue(k) < 0xFFFF_FFFF
  }

  /** A key that does not start with a digit is never an array index. */
  lemma NonDigitFirstIsNamed(k: string)
    requires |k| > 0 && !('0' <= k[0] <= '9')
    ensures !IsArrayIndex(k)
  {
    assert !Digits(k) by { assert !('0' <= k[0] <= '9'); }
  }

  /**
   * An object. Its array-index properties are enumerated in ascending
   * numeric order whatever order they were made in, so a map says all there
   * is to say about them; its other properties are kept in creation order.
   */
  datatype Object<V> = Object(indexed: map<string, V>, named: seq<Property<V>>)

  /** `{}` */
  function Empty<V>(): Object<V>
  {
    Object(map[], [])
  }

  /** The first value for key `k` in a property list. */
  function Lookup<V>(props: seq<Property<V>>, k: string): Option<V>
  {
    if props == [] then None
    else if props[0].key == k then Some(props[0].value)
    else Lookup(props[1..], k)
  }

  /** The keys of a property list, in order. */
  function Keys<V>(props: seq<Property<V>>): seq<string>
  {
    if props == [] then [] else [props[0].key] + Keys(props[1..])
  }

  /** A property list has a value for exactly the keys it lists. */
  lemma {:induction false} LookupKeys<V>(props: seq<Property<V>>)
    ensures forall k :: Lookup(props, k).Some? <==> k in Keys(props)
    decreases |props|
  {
    if props != [] {
      LookupKeys(props[1..]);
    }
  }

  /** No key occurs twice in a property list. */
  predicate Distinct<V>(props: seq<Property<V>>)
  {
    props == [] || (Lookup(props[1..], props[0].key).None? && Distinct(props[1..]))
  }

  /** What every object the language builds satisfies: each key once, each in the part its kind belongs to. */
  ghost predicate WellFormed<V>(o: Object<V>)
  {
    && (forall k :: k in o.indexed ==> IsArrayIndex(k))
    && (forall k :: Lookup(o.named, k).Some? ==> !IsArrayIndex(k))
    && Distinct(o.named)
  }

  /** The value of own property `k`, if `o` has one. */
  function Get<V>(o: Object<V>, k: string): Option<V>
  {
    if IsArrayIndex(k) then (if k in o.indexed then Some(o.indexed[k]) else None)
    else Lookup(o.named, k)
  }

  /**
   * Defines the non-index property `k` with value `v`: a property that
   * already exists keeps its place and takes the new value, a new one goes
   * last.
   */
  function Define<V>(props: seq<Property<V>>, k: string, v: V): (r: seq<Property<V>>)
    ensures Lookup(r, k) == Some(v)
    ensures forall j :: j != k ==> Lookup(r, j) == Lookup(props, j)
    ensures Lookup(props, k).Some? ==> Keys(r) == Keys(props)
    ensures Lookup(props, k).None? ==> r == props + [Property(k, v)]
    ensures Distinct(props) ==> Distinct(r)
  {
    if props == [] then [Property(k, v)]
    else if props[0].key == k then [Property(k, v)] + props[1..]
    else [props[0]] + Define(props[1..], k, v)
  }

  /** Defines the properties of `source`, in order, on `target`. */
  function DefineAll<V>(target: seq<Property<V>>, source: seq<Property<V>>): (r: seq<Property<V>>)
    requires Distinct(source)
    ensures forall k :: Lookup(r, k) == (if Lookup(source, k).Some? then Lookup(source, k) else Lookup(target, k))
    ensures Distinct(target) ==> Distinct(r)
    decreases |source|
  {
    if source == [] then target
    else DefineAll(Define(target, source[0].key, source[0].value), source[1..])
  }

  /** Every property of the list except those with key `k`, in order. */
  function Remove<V>(props: seq<Property<V>>, k: string): (r: seq<Property<V>>)
    ensures Lookup(r, k).None?
    ensures forall j :: j != k ==> Lookup(r, j) == Lookup(props, j)
    ensures Lookup(props, k).None? ==> r == props
    ensures Distinct(props) ==> Distinct(r)
  {
    if props == [] then []
    else if props[0].key == k then Remove(props[1..], k)
    else [props[0]] + Remove(props[1..], k)
  }

  /**
   * Copies the own properties of `source` onto `target`: the effect of one
   * `...source` element in an object literal.
   */
  function Copy<V>(target: Object<V>, source: Object<V>): (r: Object<V>)
    requires WellFormed(source)
    ensures forall k :: Get(r, k) == (if Get(source, k).Some? then Get(source, k) else Get(target, k))
    ensures WellFormed(target) ==> WellFormed(r)
  {
    Object(target.indexed + source.indexed, DefineAll(target.named, source.named))
  }

  /**
   * The rest object of `{ [k]: _, ...rest } = o`: every own property of `o`
   * except `k`, in the order of `o`.
   */
  function Omit<V>(o: Object<V>, k: string): (r: Object<V>)
    ensures Get(r, k).None?
    ensures forall j :: j != k ==> Get(r, j) == Get(o, j)
    ensures Get(o, k).None? ==> r == o
    ensures WellFormed(o) ==> WellFormed(r)
  {
    if IsArrayIndex(k) then Object(o.indexed - {k}, o.named)
    else Object(o.indexed, Remove(o.named, k))
  }

  /** Leaving out `k` after defining `j` is defining `j` after leaving out `k`, unless `j` is `k`. */
  lemma {:induction false} RemoveDefine<V>(props: seq<Property<V>>, j: string, v: V, k: string)
    ensures Remove(Define(props, j, v), k) == if j == k then Remove(props, k) else Define(Remove(props, k), j, v)
    decreases |props|
  {
    if props == [] {
    } else if props[0].key == j {
      assert Define(props, j, v)[1..] == props[1..];
    } else {
      assert Define(props, j, v)[1..] == Define(props[1..], j, v);
      RemoveDefine(props[1..], j, v, k);
      if props[0].key != k {
        assert Remove(props, k)[1..] == Remove(props[1..], k);
      }
    }
  }

  /** Leaving out `k` after defining a list equals defining the list without `k` on the target without `k`. */
  lemma {:induction false} RemoveDefineAll<V>(target: seq<Property<V>>, source: seq<Property<V>>, k: string)
    requires Distinct(source)
    ensures Remove(DefineAll(target, source), k) == DefineAll(Remove(target, k), Remove(source, k))
    decreases |source|
  {
    if source != [] {
      var p := source[0];
      var tail := source[1..];
      RemoveDefineAll(Define(target, p.key, p.value), tail, k);
      RemoveDefine(target, p.key, p.value, k);
      if p.key != k {
        var rest := Remove(source, k);
        assert rest[0] == p && rest[1..] == Remove(tail, k);
      }
    }
  }

  /** After defining the first property of a list with new keys, the rest of its keys are still new. */
  lemma FreshKeysStep<V>(target: seq<Property<V>>, source: seq<Property<V>>)
    requires source != [] && Distinct(source)
    requires forall k :: Lookup(source, k).Some? ==> Lookup(target, k).None?
    ensures Lookup(target, source[0].key).None?
    ensures forall k :: Lookup(source[1..], k).Some? ==>
      Lookup(Define(target, source[0].key, source[0].value), k).None?
  {
    assert Lookup(source, source[0].key).Some?;
    forall k | Lookup(source[1..], k).Some?
      ensures Lookup(Define(target, source[0].key, source[0].value), k).None?
    {
      assert k != source[0].key;
      assert Lookup(source, k) == Lookup(source[1..], k);
    }
  }

  /** Defining a list whose keys are all new appends it, in order. */
  lemma {:induction false} DefineAllFresh<V>(target: seq<Property<V>>, source: seq<Property<V>>)
    requires Distinct(source)
    requires forall k :: Lookup(source, k).Some? ==> Lookup(target, k).None?
    ensures DefineAll(target, source) == target + source
    decreases |source|
  {
    if source != [] {
      var p, tail := source[0], source[1..];
      var next := Define(target, p.key, p.value);
      assert next == target + [p] && Distinct(tail) &&
        forall k :: Lookup(tail, k).Some? ==> Lookup(next, k).None?
      by {
        FreshKeysStep(target, source);
      }
      calc {
        DefineAll(target, source);
        DefineAll(next, tail);
        { DefineAllFresh(next, tail); }
        next + tail;
        { assert target + source == target + [p] + tail; }
        target + source;
      }
    }
  }

  /** Rest destructuring after a spread equals the spread of the two rests. */
  lemma OmitCopy<V>(target: Object<V>, source: Object<V>, k: string)
    requires WellFormed(source)
    ensures Omit(Copy(target, source), k) == Copy(Omit(target, k), Omit(source, k))
  {
    if IsArrayIndex(k) {
      assert (target.indexed + source.indexed) - {k} == (target.indexed - {k}) + (source.indexed - {k});
    } else {
      RemoveDefineAll(target.named, source.named, k);
    }
  }

  /** A literal `{ ...o }` is a faithful copy of `o`. */
  lemma CopyOfObject<V>(o: Object<V>)
    requires WellFormed(o)
    ensures Copy(Empty(), o) == o
  {
    DefineAllFresh([], o.named);
    assert map[] + o.indexed == o.indexed;
  }
}
