/**
 * Whole-event examples: one setting switched on, one piece of event data,
 * and the record `mapLoggingEvent` fills in.
 */
module Scenarios {
  import opened Wrappers
  import opened JavaValues
  import opened Attributes
  import opened Severities
  import opened Coercion
  import opened Markers
  import opened EventMapper

  /** Every capture setting off, no MDC names configured. */
  const NoCapture: Settings := Settings(false, [], false, false, false, false, false, false)

  /** A Logback 1.3+ runtime with SLF4J 2 and logstash-logback-encoder present. */
  const FullRuntime: Capabilities := Capabilities(true, true, true, true)

  /** An INFO event with a message and nothing else attached. */
  const PlainEvent: LoggingEvent := LoggingEvent(
    Some("hello"), Some("hello"), None, 1000, None, Some(Level(INFO_INT, "INFO")), Some("com.example.App"), "main",
    None, [], [], None, None, None, [])

  /** The attributes of a record whose steps all write nothing but one. */
  lemma SingleStepAttributes(settings: Settings, caps: Capabilities, event: LoggingEvent, threadId: int, j: nat)
    requires j < 9
    requires forall l | 0 <= l < 9 && l != j :: EventSteps(settings, caps, event, threadId)[l] == []
    ensures MapEvent(settings, caps, event, threadId).attributes == Collect(EventSteps(settings, caps, event, threadId)[j])
  {
    FlattenOne(EventSteps(settings, caps, event, threadId), j);
  }

  /** Steps that all write nothing write nothing together. */
  lemma {:induction false} FlattenNone(steps: seq<seq<Write>>)
    requires forall l | 0 <= l < |steps| :: steps[l] == []
    ensures Flatten(steps) == []
  {
    if steps != [] {
      var front := steps[..|steps| - 1];
      assert forall l | 0 <= l < |front| :: front[l] == steps[l];
      FlattenNone(front);
    }
  }

  /** When only step `j` writes anything, the steps together write what it writes. */
  lemma {:induction false} FlattenOne(steps: seq<seq<Write>>, j: nat)
    requires j < |steps|
    requires forall l | 0 <= l < |steps| && l != j :: steps[l] == []
    ensures Flatten(steps) == steps[j]
  {
    var front := steps[..|steps| - 1];
    assert forall l | 0 <= l < |front| :: front[l] == steps[l];
    if j == |steps| - 1 {
      FlattenNone(front);
    } else {
      FlattenOne(front, j);
      assert Flatten(steps) == Flatten(front) + [];
    }
  }

  /** With capture-all (`["*"]`), the MDC entry user=a42 becomes the string attribute user="a42". */
  lemma MdcCaptureAllScenario()
    ensures var settings := NoCapture.(captureMdcAttributes := ["*"]);
      var event := PlainEvent.(mdcPropertyMap := [("user", "a42")]);
      MapEvent(settings, FullRuntime, event, -1).attributes == map["user" := StringAttr("a42")]
  {
    var settings := NoCapture.(captureMdcAttributes := ["*"]);
    var event := PlainEvent.(mdcPropertyMap := [("user", "a42")]);
    assert CaptureAllMdc(settings.captureMdcAttributes);
    SingleStepAttributes(settings, FullRuntime, event, -1, 1);
    PropertyWritesCollect(event.mdcPropertyMap);
  }

  /** The key-value pair ("retries", 3) becomes the long attribute retries=3, not a string. */
  lemma KeyValueLongScenario()
    ensures var settings := NoCapture.(captureKeyValuePairAttributes := true);
      var event := PlainEvent.(keyValuePairs := Some([(Str("retries"), Integral(IntegerType, 3))]));
      MapEvent(settings, FullRuntime, event, -1).attributes == map["retries" := LongAttr(3)]
  {
    var settings := NoCapture.(captureKeyValuePairAttributes := true);
    var event := PlainEvent.(keyValuePairs := Some([(Str("retries"), Integral(IntegerType, 3))]));
    SingleStepAttributes(settings, FullRuntime, event, -1, 5);
    assert PairsWrites(event.keyValuePairs.value) == [("retries", LongAttr(3))] by {
      assert event.keyValuePairs.value[..0] == [];
    }
  }

  /** Two markers A and B, with the multi-marker API, become logback.marker=["A", "B"]. */
  lemma MarkerListScenario()
    ensures var settings := NoCapture.(captureMarkerAttribute := true);
      var event := PlainEvent.(markerList := Some([Marker("A", None, []), Marker("B", None, [])]));
      MapEvent(settings, FullRuntime, event, -1).attributes == map[LOG_MARKER := StringArrayAttr(["A", "B"])]
  {
    var settings := NoCapture.(captureMarkerAttribute := true);
    var markers := [Marker("A", None, []), Marker("B", None, [])];
    var event := PlainEvent.(markerList := Some(markers));
    SingleStepAttributes(settings, FullRuntime, event, -1, 4);
    assert MarkerNames(markers, false) == ["A", "B"] by {
      assert markers[..1][..0] == [];
      assert markers[..1] == [markers[0]];
    }
  }

  /** Arguments "x" and 7 under template "val={} n={}" give the template and the parameters ["x", "7"]. */
  lemma ArgumentsScenario()
    ensures var settings := NoCapture.(captureArguments := true);
      var event := PlainEvent.(message := Some("val={} n={}"), argumentArray := Some([Str("x"), Integral(IntegerType, 7)]));
      MapEvent(settings, FullRuntime, event, -1).attributes
        == map[LOG_BODY_TEMPLATE := StringAttr("val={} n={}"), LOG_BODY_PARAMETERS := StringArrayAttr(["x", "7"])]
  {
    var settings := NoCapture.(captureArguments := true);
    var event := PlainEvent.(message := Some("val={} n={}"), argumentArray := Some([Str("x"), Integral(IntegerType, 7)]));
    SingleStepAttributes(settings, FullRuntime, event, -1, 7);
    assert MapSeq(event.argumentArray.value, ValueOf) == ["x", "7"];
  }

  /** An attached exception gives its type, message and stack trace. */
  lemma ExceptionScenario(stackTrace: string)
    ensures var t := ThrowableInfo("java.lang.IllegalStateException", Some("bad state"), stackTrace);
      var event := PlainEvent.(throwableProxy := Some(LocalProxy(Some(t))));
      MapEvent(NoCapture, FullRuntime, event, -1).attributes
        == map[EXCEPTION_TYPE := StringAttr("java.lang.IllegalStateException"),
               EXCEPTION_MESSAGE := StringAttr("bad state"),
               EXCEPTION_STACKTRACE := StringAttr(stackTrace)]
  {
    var t := ThrowableInfo("java.lang.IllegalStateException", Some("bad state"), stackTrace);
    var event := PlainEvent.(throwableProxy := Some(LocalProxy(Some(t))));
    SingleStepAttributes(NoCapture, FullRuntime, event, -1, 0);
    ThrowableAttributes(t);
  }

  /** The plain event keeps its message as body and INFO as severity, is emitted under its logger's name, and carries no attributes. */
  lemma PlainEventScenario()
    ensures var emitted := EmitEvent(NoCapture, FullRuntime, PlainEvent, 42);
      && emitted.instrumentationName == "com.example.App"
      && emitted.record.body == Some("hello")
      && emitted.record.timestamp == FromEpochMillis(1000)
      && emitted.record.severity == Some(Info) && SeverityNumber(emitted.record.severity.value) == 9
      && emitted.record.severityText == Some("INFO")
      && emitted.record.attributes == map[]
  {
    SingleStepAttributes(NoCapture, FullRuntime, PlainEvent, 42, 0);
  }
}
