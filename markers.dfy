/**
 * SLF4J markers as a finite tree: each marker has a name, may be a logstash
 * marker carrying a payload, and may reference other markers. Covers the
 * marker-name attribute and the depth-first logstash traversal.
 */
module Markers {
  import opened Wrappers
  import opened JavaValues
  import opened Attributes
  import opened Coercion

  /** The payload of a logstash marker, as the mapper extracts it. */
  datatype LogstashPayload =
      /**
       * A `SingleFieldAppendingMarker`: its field name (null allowed) and the
       * value reflective extraction finds (`Null` when it finds none).
       */
    | SingleField(fieldName: Option<string>, fieldValue: Value)
      /** A `MapEntriesAppendingMarker`: the extracted map's entries in iteration order, or none. */
    | MapEntries(entries: Option<seq<(Value, Value)>>)
      /** Any other `LogstashMarker`. */
    | OtherLogstash

  datatype Marker = Marker(name: string, logstash: Option<LogstashPayload>, references: seq<Marker>)

  const LOG_MARKER: string := "logback.marker"

  predicate IsLogstashMarker(m: Marker) {
    m.logstash.Some?
  }

  /** The names the multi-marker path collects, in list order, skipping logstash markers if asked. */
  function MarkerNames(markers: seq<Marker>, skipLogstashMarkers: bool): (names: seq<string>)
    ensures |names| <= |markers|
  {
    if markers == [] then []
    else
      var last := markers[|markers| - 1];
      MarkerNames(markers[..|markers| - 1], skipLogstashMarkers)
        + (if !skipLogstashMarkers || !IsLogstashMarker(last) then [last.name] else [])
  }

  /** The number of logstash markers in a list. */
  function LogstashCount(markers: seq<Marker>): (n: nat)
    ensures n <= |markers|
  {
    if markers == [] then 0
    else LogstashCount(markers[..|markers| - 1]) + (if IsLogstashMarker(markers[|markers| - 1]) then 1 else 0)
  }

  /** The markers of a list that are not logstash markers, in list order. */
  function NonLogstash(markers: seq<Marker>): (kept: seq<Marker>)
    ensures |kept| == |markers| - LogstashCount(markers)
    ensures forall i | 0 <= i < |kept| :: !IsLogstashMarker(kept[i])
  {
    if markers == [] then []
    else
      var last := markers[|markers| - 1];
      NonLogstash(markers[..|markers| - 1]) + (if IsLogstashMarker(last) then [] else [last])
  }

  /** Name collection distributes over concatenation, so it keeps the relative order of the names it keeps. */
  lemma {:induction false} MarkerNamesAppend(a: seq<Marker>, b: seq<Marker>, skip: bool)
    ensures MarkerNames(a + b, skip) == MarkerNames(a, skip) + MarkerNames(b, skip)
  {
    if b == [] {
      assert a + b == a;
    } else {
      assert (a + b)[..|a + b| - 1] == a + b[..|b| - 1];
      assert (a + b)[|a + b| - 1] == b[|b| - 1];
      MarkerNamesAppend(a, b[..|b| - 1], skip);
    }
  }

  /**
   * Without skipping every name is collected; with skipping exactly the
   * logstash markers are dropped.
   */
  lemma {:induction false} MarkerNamesContents(markers: seq<Marker>, skip: bool)
    ensures !skip ==> MarkerNames(markers, skip) == seq(|markers|, i requires 0 <= i < |markers| => markers[i].name)
    ensures skip ==> |MarkerNames(markers, skip)| == |markers| - LogstashCount(markers)
    ensures skip && LogstashCount(markers) == 0 ==> MarkerNames(markers, skip) == MarkerNames(markers, false)
    ensures skip ==> MarkerNames(markers, skip) == MarkerNames(NonLogstash(markers), false)
  {
    if markers != [] {
      var front := markers[..|markers| - 1];
      var last := markers[|markers| - 1];
      MarkerNamesContents(front, skip);
      var tail := if IsLogstashMarker(last) then [] else [last];
      MarkerNamesAppend(NonLogstash(front), tail, false);
      assert MarkerNames(tail, false) == if IsLogstashMarker(last) then [] else [last.name] by {
        if !IsLogstashMarker(last) { assert tail[..0] == []; }
      }
    }
  }

  /** The attribute written for the non-logstash fields of one logstash marker (`captureLogstashMarkerAttributes`). */
  function PayloadWrites(payload: LogstashPayload): seq<Write> {
    match payload
    case SingleField(fieldName, fieldValue) =>
      KeyValueWrites(if fieldName.Some? then Str(fieldName.value) else Null, fieldValue)
    case MapEntries(entries) => if entries.Some? then PairsWrites(entries.value) else []
    case OtherLogstash => []
  }

  /**
   * A single-field marker writes at most one attribute, none for a null name
   * or value; a map-entries marker at most one per entry of a non-null map; a
   * null map or any other logstash marker writes nothing.
   */
  lemma PayloadOutcomes(payload: LogstashPayload)
    ensures var w := PayloadWrites(payload);
      && (payload.SingleField? ==> |w| <= 1)
      && (payload.SingleField? && (payload.fieldName.None? || payload.fieldValue.Null?) ==> w == [])
      && (payload.MapEntries? && payload.entries.Some? ==> |w| <= |payload.entries.value|)
      && (payload.OtherLogstash? || (payload.MapEntries? && payload.entries.None?) ==> w == [])
  {
  }

  /**
   * `captureLogstashMarker`: the marker's own fields, then, depth-first and in
   * order, every referenced marker that is itself a logstash marker.
   */
  function LogstashWrites(m: Marker): seq<Write>
    requires IsLogstashMarker(m)
    decreases m, 1
  {
    PayloadWrites(m.logstash.value) + LogstashListWrites(m.references)
  }

  /** A marker's own fields are written before anything its references write. */
  lemma OwnFieldsFirst(m: Marker)
    requires IsLogstashMarker(m)
    ensures var own := PayloadWrites(m.logstash.value);
      |own| <= |LogstashWrites(m)| && LogstashWrites(m)[..|own|] == own
  {
    var own := PayloadWrites(m.logstash.value);
    assert LogstashWrites(m) == own + LogstashListWrites(m.references);
  }

  /** The logstash writes of the logstash markers of a list, in order; the others are passed over. */
  function LogstashListWrites(markers: seq<Marker>): seq<Write>
    decreases markers, 0
  {
    if markers == [] then []
    else
      var last := markers[|markers| - 1];
      LogstashListWrites(markers[..|markers| - 1]) + (if IsLogstashMarker(last) then LogstashWrites(last) else [])
  }

  /** A list without logstash markers writes nothing: the traversal only enters logstash markers. */
  lemma {:induction false} NoLogstashNoWrites(markers: seq<Marker>)
    requires LogstashCount(markers) == 0
    ensures LogstashListWrites(markers) == []
  {
    if markers != [] {
      NoLogstashNoWrites(markers[..|markers| - 1]);
    }
  }

  /** The logstash markers the traversal visits, in visiting order (pre-order). */
  function Preorder(m: Marker): (visited: seq<Marker>)
    requires IsLogstashMarker(m)
    ensures |visited| >= 1 && visited[0] == m
    ensures forall i | 0 <= i < |visited| :: IsLogstashMarker(visited[i])
    decreases m, 1
  {
    [m] + ListPreorder(m.references)
  }

  function ListPreorder(markers: seq<Marker>): (visited: seq<Marker>)
    ensures forall i | 0 <= i < |visited| :: IsLogstashMarker(visited[i])
    ensures LogstashCount(markers) <= |visited|
    decreases markers, 0
  {
    if markers == [] then []
    else
      var last := markers[|markers| - 1];
      ListPreorder(markers[..|markers| - 1]) + (if IsLogstashMarker(last) then Preorder(last) else [])
  }

  /** The payload writes of the visited logstash markers, one marker after another. */
  function VisitWrites(visited: seq<Marker>): seq<Write> {
    ConcatMap(visited, OwnWrites)
  }

  /** Each element's sequence, one after another. */
  function ConcatMap<T, U>(xs: seq<T>, f: T -> seq<U>): seq<U> {
    if xs == [] then [] else ConcatMap(xs[..|xs| - 1], f) + f(xs[|xs| - 1])
  }

  lemma {:induction false} ConcatMapAppend<T, U>(a: seq<T>, b: seq<T>, f: T -> seq<U>)
    ensures ConcatMap(a + b, f) == ConcatMap(a, f) + ConcatMap(b, f)
  {
    if b == [] {
      assert a + b == a;
    } else {
      var front := b[..|b| - 1];
      var ab := a + b;
      assert ab[..|ab| - 1] == a + front;
      assert ab[|ab| - 1] == b[|b| - 1];
      ConcatMapAppend(a, front, f);
    }
  }

  /** The writes of one visited marker. */
  function OwnWrites(m: Marker): seq<Write> {
    if m.logstash.Some? then PayloadWrites(m.logstash.value) else []
  }

  lemma VisitWritesAppend(a: seq<Marker>, b: seq<Marker>)
    ensures VisitWrites(a + b) == VisitWrites(a) + VisitWrites(b)
  {
    ConcatMapAppend(a, b, OwnWrites);
  }

  /**
   * The recursive traversal writes exactly what visiting the pre-order list
   * of logstash markers and writing each one's own payload writes.
   */
  lemma {:induction false} LogstashWritesArePreorder(m: Marker)
    requires IsLogstashMarker(m)
    ensures LogstashWrites(m) == VisitWrites(Preorder(m))
    decreases m, 1
  {
    ListWritesArePreorder(m.references);
    VisitWritesAppend([m], ListPreorder(m.references));
    assert VisitWrites([m]) == PayloadWrites(m.logstash.value) by {
      assert [m][..0] == [];
      assert ConcatMap([m], OwnWrites) == ConcatMap([m][..0], OwnWrites) + OwnWrites(m);
    }
  }

  lemma {:induction false} ListWritesArePreorder(markers: seq<Marker>)
    ensures LogstashListWrites(markers) == VisitWrites(ListPreorder(markers))
    decreases markers, 0
  {
    if markers != [] {
      var front := markers[..|markers| - 1];
      var last := markers[|markers| - 1];
      ListWritesArePreorder(front);
      if IsLogstashMarker(last) {
        LogstashWritesArePreorder(last);
        VisitWritesAppend(ListPreorder(front), Preorder(last));
      } else {
        assert ListPreorder(markers) == ListPreorder(front) + [];
        assert ListPreorder(front) + [] == ListPreorder(front);
        assert LogstashListWrites(markers) == LogstashListWrites(front) + [];
        assert LogstashListWrites(front) + [] == LogstashListWrites(front);
      }
    }
  }

  /** `captureLogstashMarkerAttributes`. */
  method CaptureLogstashMarkerAttributes(attributes: AttributesBuilder, payload: LogstashPayload)
    modifies attributes
    ensures attributes.writes == old(attributes.writes) + PayloadWrites(payload)
  {
    match payload
    case SingleField(fieldName, fieldValue) =>
      CaptureKeyValueAttribute(attributes, if fieldName.Some? then Str(fieldName.value) else Null, fieldValue);
    case MapEntries(entries) =>
      if entries.Some? {
        CapturePairs(attributes, entries.value);
      }
    case OtherLogstash =>
  }

  /** `captureLogstashMarker`: own fields first, then the logstash references, recursively. */
  method CaptureLogstashMarker(attributes: AttributesBuilder, m: Marker)
    requires IsLogstashMarker(m)
    modifies attributes
    ensures attributes.writes == old(attributes.writes) + LogstashWrites(m)
    decreases m, 1
  {
    CaptureLogstashMarkerAttributes(attributes, m.logstash.value);
    CaptureLogstashMarkers(attributes, m.references);
  }

  /** The iteration over a marker list that recurses into its logstash markers. */
  method CaptureLogstashMarkers(attributes: AttributesBuilder, markers: seq<Marker>)
    modifies attributes
    ensures attributes.writes == old(attributes.writes) + LogstashListWrites(markers)
    decreases markers, 0
  {
    for i := 0 to |markers|
      invariant attributes.writes == old(attributes.writes) + LogstashListWrites(markers[..i])
    {
      assert markers[..i + 1][..i] == markers[..i];
      var reference := markers[i];
      if IsLogstashMarker(reference) {
        CaptureLogstashMarker(attributes, reference);
      }
    }
    assert markers[..|markers|] == markers;
  }
}
