/**
 * Value coercion for key-value pairs and logstash fields
 * (`captureKeyValueAttribute`) and the compaction of arrays and collections
 * into homogeneous array attributes (`captureKeyArrayValueAttribute`).
 */
module Coercion {
  import opened JavaValues
  import opened Attributes

  /** The number of null elements. */
  function NullCount(elements: seq<Value>): (n: nat)
    ensures n <= |elements|
  {
    if elements == [] then 0
    else NullCount(elements[..|elements| - 1]) + (if elements[|elements| - 1].Null? then 1 else 0)
  }

  /** The non-null elements, in their original order. */
  function NonNulls(elements: seq<Value>): (r: seq<Value>)
    ensures |r| == |elements| - NullCount(elements)
    ensures forall i | 0 <= i < |r| :: r[i] != Null
  {
    if elements == [] then []
    else
      var last := elements[|elements| - 1];
      NonNulls(elements[..|elements| - 1]) + (if last.Null? then [] else [last])
  }

  function MapSeq<T>(elements: seq<Value>, f: Value -> T): (r: seq<T>)
    ensures |r| == |elements|
    ensures forall i | 0 <= i < |elements| :: r[i] == f(elements[i])
  {
    seq(|elements|, i requires 0 <= i < |elements| => f(elements[i]))
  }

  /** What the typed array holds after compaction: the non-null elements, each extracted. */
  function Compacted<T>(elements: seq<Value>, extractor: Value -> T): seq<T> {
    MapSeq(NonNulls(elements), extractor)
  }

  lemma {:induction false} NonNullsAppend(a: seq<Value>, b: seq<Value>)
    ensures NonNulls(a + b) == NonNulls(a) + NonNulls(b)
  {
    if b != [] {
      var front := b[..|b| - 1];
      assert (a + b)[..|a + b| - 1] == a + front;
      assert (a + b)[|a + b| - 1] == b[|b| - 1];
      NonNullsAppend(a, front);
    } else {
      assert a + b == a;
    }
  }

  /** Compaction is empty exactly when every element is null. */
  lemma {:induction false} NonNullsEmpty(elements: seq<Value>)
    ensures NonNulls(elements) == [] <==> forall i | 0 <= i < |elements| :: elements[i] == Null
  {
    if elements != [] {
      var front := elements[..|elements| - 1];
      NonNullsEmpty(front);
      if NonNulls(elements) == [] {
        forall i | 0 <= i < |elements| ensures elements[i] == Null {
          if i < |front| { assert front[i] == elements[i]; }
        }
      }
    }
  }

  /** Compaction drops the nulls and keeps every other element as often as it occurs. */
  lemma {:induction false} NonNullsMultiset(elements: seq<Value>)
    ensures Null !in NonNulls(elements)
    ensures forall v | v != Null :: multiset(NonNulls(elements))[v] == multiset(elements)[v]
  {
    if elements != [] {
      var front := elements[..|elements| - 1];
      var last := elements[|elements| - 1];
      assert elements == front + [last];
      NonNullsMultiset(front);
    }
  }

  /** An array without nulls is kept whole. */
  lemma {:induction false} NonNullsOfNullFree(elements: seq<Value>)
    requires forall i | 0 <= i < |elements| :: elements[i] != Null
    ensures NonNulls(elements) == elements
  {
    if elements != [] {
      var front := elements[..|elements| - 1];
      assert forall i | 0 <= i < |front| :: front[i] == elements[i];
      NonNullsOfNullFree(front);
    }
  }

  /**
   * The loop of `captureKeyArrayValueAttribute`: fills a fresh typed array of
   * the input's length, writing each non-null element at `i - offset` and
   * counting the nulls in `offset`.
   */
  method FillTypedArray<T(0)>(elements: seq<Value>, extractor: Value -> T)
    returns (typedArray: array<T>, offset: nat)
    ensures typedArray.Length == |elements|
    ensures offset == NullCount(elements)
    ensures typedArray[..|elements| - offset] == Compacted(elements, extractor)
  {
    var length := |elements|;
    typedArray := new T[length];
    offset := 0;
    for i := 0 to length
      invariant offset == NullCount(elements[..i])
      invariant typedArray[..i - offset] == Compacted(elements[..i], extractor)
    {
      assert elements[..i + 1] == elements[..i] + [elements[i]];
      assert elements[..i + 1][..i] == elements[..i];
      var value := elements[i];
      if value != Null {
        typedArray[i - offset] := extractor(value);
        assert typedArray[..i + 1 - offset] == typedArray[..i - offset] + [extractor(value)];
      } else {
        offset := offset + 1;
      }
    }
    assert elements[..length] == elements;
  }

  /** Java's casts and `Number` conversions used as extractors; the fallbacks are never reached by well-typed arrays. */
  function AsBoolean(v: Value): bool {
    if v.Boolean? then v.b else false
  }

  function AsLong(v: Value): int {
    if v.Integral? then v.n else 0
  }

  function AsDouble(v: Value): Double {
    if v.Floating? then v.d else Double(0, "0.0")
  }

  /**
   * What `captureKeyArrayValueAttribute` writes: nothing when no element
   * survives compaction, otherwise the compacted array under the typed key
   * (`wrap` stands for the key's element type).
   */
  function ArrayWrites<T>(keyStr: string, elements: seq<Value>, extractor: Value -> T, wrap: seq<T> -> AttrValue)
    : (w: seq<Write>)
    ensures |w| <= 1
    ensures w == [] <==> forall i | 0 <= i < |elements| :: elements[i] == Null
    ensures w != [] ==> w == [(keyStr, wrap(Compacted(elements, extractor)))]
  {
    NonNullsEmpty(elements);
    if |elements| == NullCount(elements) then []
    else [(keyStr, wrap(Compacted(elements, extractor)))]
  }

  /** The array attribute for each array component type. */
  function ComponentArrayWrites(keyStr: string, component: Component, elements: seq<Value>): seq<Write> {
    match component
    case BooleanComponent => ArrayWrites(keyStr, elements, AsBoolean, bs => BooleanArrayAttr(bs))
    case IntegralComponent(_) => ArrayWrites(keyStr, elements, AsLong, ns => LongArrayAttr(ns))
    case FloatingComponent(_) => ArrayWrites(keyStr, elements, AsDouble, ds => DoubleArrayAttr(ds))
    case ObjectComponent => ArrayWrites(keyStr, elements, ValueOf, ss => StringArrayAttr(ss))
  }

  /**
   * Nothing exactly when every element is null; otherwise one attribute under
   * the key, the compacted elements as the array type the component selects.
   */
  lemma ComponentArrayOutcomes(keyStr: string, component: Component, elements: seq<Value>)
    ensures var w := ComponentArrayWrites(keyStr, component, elements);
      && |w| <= 1
      && (w == [] <==> forall i | 0 <= i < |elements| :: elements[i] == Null)
      && (w != [] ==> w[0].0 == keyStr)
      && (w != [] && component.BooleanComponent? ==> w[0].1 == BooleanArrayAttr(Compacted(elements, AsBoolean)))
      && (w != [] && component.IntegralComponent? ==> w[0].1 == LongArrayAttr(Compacted(elements, AsLong)))
      && (w != [] && component.FloatingComponent? ==> w[0].1 == DoubleArrayAttr(Compacted(elements, AsDouble)))
      && (w != [] && component.ObjectComponent? ==> w[0].1 == StringArrayAttr(Compacted(elements, ValueOf)))
  {
  }

  /**
   * What `captureKeyValueAttribute` writes for `(key, value)`: at most one
   * attribute, under the key's string form; nothing for a null key or value.
   */
  function KeyValueWrites(key: Value, value: Value): (w: seq<Write>)
    ensures |w| <= 1
    ensures key.Null? || value.Null? ==> w == []
    ensures w != [] ==> w[0].0 == ValueOf(key)
    ensures !key.Null? && value.Boolean? ==> w == [(ValueOf(key), BooleanAttr(value.b))]
    ensures !key.Null? && value.Integral? ==> w == [(ValueOf(key), LongAttr(value.n))]
    ensures !key.Null? && value.Floating? ==> w == [(ValueOf(key), DoubleAttr(value.d))]
    ensures !key.Null? && (value.Str? || value.Other?) ==> w == [(ValueOf(key), StringAttr(ValueOf(value)))]
    ensures (value.Array? || value.Collection?) ==>
      (w == [] <==> key.Null? || forall i | 0 <= i < |value.elements| :: value.elements[i] == Null)
    ensures value.Collection? && w != [] ==> w == [(ValueOf(key), StringArrayAttr(Compacted(value.elements, ValueOf)))]
  {
    if key.Null? || value.Null? then []
    else
      var keyStr := ValueOf(key);
      match value
      case Boolean(b) => [(keyStr, BooleanAttr(b))]
      case Integral(_, n) => [(keyStr, LongAttr(n))]
      case Floating(_, d) => [(keyStr, DoubleAttr(d))]
      case Array(component, _, elements, _) => ComponentArrayWrites(keyStr, component, elements)
      case Collection(elements, _) => ArrayWrites(keyStr, elements, ValueOf, ss => StringArrayAttr(ss))
      case _ => [(keyStr, StringAttr(ValueOf(value)))]
  }

  /** An integral value of any width is written as a long with the same numeric value. */
  lemma IntegralWidensToLong(key: Value, value: Value)
    requires !key.Null? && value.Integral? && WellTyped(value)
    ensures KeyValueWrites(key, value) == [(ValueOf(key), LongAttr(value.n))]
    ensures IsLong(value.n)
  {
  }

  /** Compaction keeps only elements that fit the array's component type, and no null. */
  lemma {:induction false} NonNullsFit(component: Component, primitive: bool, elements: seq<Value>)
    requires forall i | 0 <= i < |elements| :: ElementFits(component, primitive, elements[i])
    ensures forall i | 0 <= i < |NonNulls(elements)| ::
      NonNulls(elements)[i] != Null && ElementFits(component, primitive, NonNulls(elements)[i])
  {
    if elements != [] {
      var front := elements[..|elements| - 1];
      assert forall i | 0 <= i < |front| :: front[i] == elements[i];
      NonNullsFit(component, primitive, front);
    }
  }

  /**
   * A typed array with a non-null element is written as the array of its
   * non-null elements, in order, each converted as its component type says;
   * the attribute's length is the input length minus the number of nulls.
   */
  lemma {:induction false} ArrayCoercion(key: Value, value: Value)
    requires !key.Null? && value.Array? && WellTyped(value)
    requires exists i | 0 <= i < |value.elements| :: value.elements[i] != Null
    ensures var w := KeyValueWrites(key, value);
      var kept := NonNulls(value.elements);
      && |w| == 1 && w[0].0 == ValueOf(key)
      && |kept| == |value.elements| - NullCount(value.elements)
      && (value.component.BooleanComponent? ==>
            w[0].1.BooleanArrayAttr? && |w[0].1.bs| == |kept|
            && forall i | 0 <= i < |kept| :: kept[i] == Boolean(w[0].1.bs[i]))
      && (value.component.IntegralComponent? ==>
            w[0].1.LongArrayAttr? && |w[0].1.ns| == |kept|
            && forall i | 0 <= i < |kept| ::
                 kept[i] == Integral(value.component.itype, w[0].1.ns[i]) && IsLong(w[0].1.ns[i]))
      && (value.component.FloatingComponent? ==>
            w[0].1.DoubleArrayAttr? && |w[0].1.ds| == |kept|
            && forall i | 0 <= i < |kept| :: kept[i] == Floating(value.component.ftype, w[0].1.ds[i]))
      && (value.component.ObjectComponent? ==>
            w[0].1 == StringArrayAttr(MapSeq(kept, ValueOf)))
  {
    NonNullsFit(value.component, value.primitive, value.elements);
  }

  /**
   * The canonical Java value of an attribute value: a boxed scalar, a String,
   * or a typed array (`String[]` for string arrays).
   */
  function JavaValueOf(a: AttrValue): Value {
    match a
    case BooleanAttr(b) => Boolean(b)
    case LongAttr(n) => Integral(LongType, n)
    case DoubleAttr(d) => Floating(DoubleType, d)
    case StringAttr(s) => Str(s)
    case BooleanArrayAttr(bs) => Array(BooleanComponent, false, seq(|bs|, i requires 0 <= i < |bs| => Boolean(bs[i])), "")
    case LongArrayAttr(ns) => Array(IntegralComponent(LongType), false, seq(|ns|, i requires 0 <= i < |ns| => Integral(LongType, ns[i])), "")
    case DoubleArrayAttr(ds) => Array(FloatingComponent(DoubleType), false, seq(|ds|, i requires 0 <= i < |ds| => Floating(DoubleType, ds[i])), "")
    case StringArrayAttr(ss) => Array(ObjectComponent, false, seq(|ss|, i requires 0 <= i < |ss| => Str(ss[i])), "")
  }

  predicate NonEmptyArrays(a: AttrValue) {
    match a
    case BooleanArrayAttr(bs) => bs != []
    case LongArrayAttr(ns) => ns != []
    case DoubleArrayAttr(ds) => ds != []
    case StringArrayAttr(ss) => ss != []
    case _ => true
  }

  /** Null-free elements compact to themselves, so extraction undoes boxing. */
  lemma CompactedNullFree<T>(elements: seq<Value>, extractor: Value -> T, original: seq<T>)
    requires |elements| == |original|
    requires forall i | 0 <= i < |elements| :: elements[i] != Null && extractor(elements[i]) == original[i]
    ensures Compacted(elements, extractor) == original
  {
    NonNullsOfNullFree(elements);
  }

  /**
   * Every attribute value the SDK accepts, other than an empty array, is what
   * coercion writes for its canonical Java value: coercion loses no attribute
   * shape and changes no value it keeps.
   */
  lemma {:induction false} CoercionRoundTrip(key: string, a: AttrValue)
    requires NonEmptyArrays(a)
    ensures KeyValueWrites(Str(key), JavaValueOf(a)) == [(key, a)]
  {
    var v := JavaValueOf(a);
    match a
    case BooleanArrayAttr(bs) =>
      CompactedNullFree(v.elements, AsBoolean, bs);
      assert v.elements[0] != Null;
    case LongArrayAttr(ns) =>
      CompactedNullFree(v.elements, AsLong, ns);
      assert v.elements[0] != Null;
    case DoubleArrayAttr(ds) =>
      CompactedNullFree(v.elements, AsDouble, ds);
      assert v.elements[0] != Null;
    case StringArrayAttr(ss) =>
      CompactedNullFree(v.elements, ValueOf, ss);
      assert v.elements[0] != Null;
    case _ =>
  }

  /** The writes of a sequence of key-value pairs, in order. */
  function PairsWrites(pairs: seq<(Value, Value)>): (w: seq<Write>)
    ensures |w| <= |pairs|
  {
    if pairs == [] then []
    else
      var last := pairs[|pairs| - 1];
      PairsWrites(pairs[..|pairs| - 1]) + KeyValueWrites(last.0, last.1)
  }

  /** The writes of two runs of pairs are the first run's and then the second's: pair order is kept. */
  lemma {:induction false} PairsWritesAppend(a: seq<(Value, Value)>, b: seq<(Value, Value)>)
    ensures PairsWrites(a + b) == PairsWrites(a) + PairsWrites(b)
  {
    if b == [] {
      assert a + b == a;
    } else {
      var front := b[..|b| - 1];
      var last := b[|b| - 1];
      assert (a + b)[..|a + b| - 1] == a + front;
      PairsWritesAppend(a, front);
      assert PairsWrites(a + b) == PairsWrites(a) + PairsWrites(front) + KeyValueWrites(last.0, last.1);
    }
  }

  /** `captureKeyArrayValueAttribute`. */
  method CaptureKeyArrayValueAttribute<T(0)>(
    attributes: AttributesBuilder, keyStr: string, elements: seq<Value>,
    extractor: Value -> T, wrap: seq<T> -> AttrValue)
    modifies attributes
    ensures attributes.writes == old(attributes.writes) + ArrayWrites(keyStr, elements, extractor, wrap)
  {
    var typedArray, offset := FillTypedArray(elements, extractor);
    var length := |elements|;
    if length != offset {
      attributes.Put(keyStr, wrap(typedArray[..length - offset]));
    }
  }

  /** `captureKeyValueAttribute`. */
  method CaptureKeyValueAttribute(attributes: AttributesBuilder, key: Value, value: Value)
    modifies attributes
    ensures attributes.writes == old(attributes.writes) + KeyValueWrites(key, value)
  {
    if key != Null && value != Null {
      var keyStr := ValueOf(key);
      match value
      case Boolean(b) => attributes.Put(keyStr, BooleanAttr(b));
      case Integral(_, n) => attributes.Put(keyStr, LongAttr(n));
      case Floating(_, d) => attributes.Put(keyStr, DoubleAttr(d));
      case Array(component, _, elements, _) => {
        match component
        case BooleanComponent =>
          CaptureKeyArrayValueAttribute(attributes, keyStr, elements, AsBoolean, bs => BooleanArrayAttr(bs));
        case IntegralComponent(_) =>
          CaptureKeyArrayValueAttribute(attributes, keyStr, elements, AsLong, ns => LongArrayAttr(ns));
        case FloatingComponent(_) =>
          CaptureKeyArrayValueAttribute(attributes, keyStr, elements, AsDouble, ds => DoubleArrayAttr(ds));
        case ObjectComponent =>
          CaptureKeyArrayValueAttribute(attributes, keyStr, elements, ValueOf, ss => StringArrayAttr(ss));
      }
      case Collection(elements, _) =>
        CaptureKeyArrayValueAttribute(attributes, keyStr, elements, ValueOf, ss => StringArrayAttr(ss));
      case Str(_) => attributes.Put(keyStr, StringAttr(ValueOf(value)));
      case Other(_) => attributes.Put(keyStr, StringAttr(ValueOf(value)));
      case Null =>
    }
  }

  /** The loop over key-value pairs shared by `captureKeyValuePairAttributes` and the map-entries marker. */
  method CapturePairs(attributes: AttributesBuilder, pairs: seq<(Value, Value)>)
    modifies attributes
    ensures attributes.writes == old(attributes.writes) + PairsWrites(pairs)
  {
    for i := 0 to |pairs|
      invariant attributes.writes == old(attributes.writes) + PairsWrites(pairs[..i])
    {
      assert pairs[..i + 1][..i] == pairs[..i];
      CaptureKeyValueAttribute(attributes, pairs[i].0, pairs[i].1);
    }
    assert pairs[..|pairs|] == pairs;
  }
}
