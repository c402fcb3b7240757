/**
 * OpenTelemetry attribute values and the attributes builder the mapper writes
 * into. The builder keeps every `put` in order; building keeps, for each key
 * name, the value of the last `put` to it.
 */
module Attributes {
  import opened JavaValues

  /** The attribute value shapes OpenTelemetry supports. */
  datatype AttrValue =
    | BooleanAttr(b: bool)
    | LongAttr(n: int)
    | DoubleAttr(d: Double)
    | StringAttr(s: string)
    | BooleanArrayAttr(bs: seq<bool>)
    | LongArrayAttr(ns: seq<int>)
    | DoubleArrayAttr(ds: seq<Double>)
    | StringArrayAttr(ss: seq<string>)

  /** One `put` into the builder: a key name and a value. */
  type Write = (string, AttrValue)

  /** The key names of a sequence of entries. */
  function KeysOf<V>(entries: seq<(string, V)>): set<string> {
    set i | 0 <= i < |entries| :: entries[i].0
  }

  /**
   * The map a sequence of entries builds into: a later entry for a key
   * replaces an earlier one. Used both for attribute writes and for the
   * string maps (MDC, logger context) the event carries.
   */
  function Collect<V>(entries: seq<(string, V)>): (m: map<string, V>)
    ensures m.Keys == KeysOf(entries)
  {
    if entries == [] then map[]
    else
      var last := entries[|entries| - 1];
      assert entries == entries[..|entries| - 1] + [last];
      Collect(entries[..|entries| - 1])[last.0 := last.1]
  }

  /** Building the concatenation of two write sequences: the second overrides the first. */
  lemma {:induction false} CollectAppend<V>(a: seq<(string, V)>, b: seq<(string, V)>)
    ensures Collect(a + b) == Collect(a) + Collect(b)
  {
    if b == [] {
      assert a + b == a;
    } else {
      var last := b[|b| - 1];
      var front := b[..|b| - 1];
      assert (a + b)[..|a + b| - 1] == a + front;
      assert (a + b)[|a + b| - 1] == last;
      CollectAppend(a, front);
    }
  }

  /** The last entry for a key decides the key's value. */
  lemma {:induction false} CollectLastEntry<V>(entries: seq<(string, V)>, i: nat)
    requires i < |entries|
    requires forall j | i < j < |entries| :: entries[j].0 != entries[i].0
    ensures entries[i].0 in Collect(entries) && Collect(entries)[entries[i].0] == entries[i].1
  {
    var front := entries[..|entries| - 1];
    if i < |entries| - 1 {
      assert front[i] == entries[i];
      CollectLastEntry(front, i);
    }
  }

  /** Entries whose values are mapped one by one build into the map of mapped values. */
  function MapValues<V, U>(entries: seq<(string, V)>, f: V -> U): (r: seq<(string, U)>)
    ensures |r| == |entries|
    ensures forall i | 0 <= i < |entries| :: r[i] == (entries[i].0, f(entries[i].1))
  {
    seq(|entries|, i requires 0 <= i < |entries| => (entries[i].0, f(entries[i].1)))
  }

  lemma {:induction false} CollectMapValues<V, U>(entries: seq<(string, V)>, f: V -> U)
    ensures Collect(MapValues(entries, f)) == map k | k in Collect(entries) :: f(Collect(entries)[k])
  {
    var r := MapValues(entries, f);
    if entries != [] {
      var front := entries[..|entries| - 1];
      assert r[..|r| - 1] == MapValues(front, f);
      CollectMapValues(front, f);
    }
  }

  /**
   * The SDK's attributes builder, as the mapper uses it: `put` records a
   * write, `build` keeps the last write per key name.
   */
  class AttributesBuilder {
    var writes: seq<Write>

    constructor ()
      ensures writes == []
    {
      writes := [];
    }

    method Put(key: string, value: AttrValue)
      modifies this
      ensures writes == old(writes) + [(key, value)]
    {
      writes := writes + [(key, value)];
    }

    function Build(): map<string, AttrValue>
      reads this
    {
      Collect(writes)
    }
  }
}
