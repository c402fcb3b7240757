/**
 * `LoggingEventMapper`: maps a Logback logging event onto an OpenTelemetry
 * log record. The per-step functions say what each capture step writes; the
 * class runs the steps against one attributes builder, in `mapLoggingEvent`'s order,
 * so a later step's write to a key replaces an earlier one.
 */
module EventMapper {
  import opened Wrappers
  import opened JavaValues
  import opened Attributes
  import opened Severities
  import opened Coercion
  import opened Markers

  const CODE_FILEPATH: string := "code.filepath"
  const CODE_FUNCTION: string := "code.function"
  const CODE_LINENO: string := "code.lineno"
  const CODE_NAMESPACE: string := "code.namespace"
  const THREAD_ID: string := "thread.id"
  const THREAD_NAME: string := "thread.name"
  const LOG_BODY_TEMPLATE: string := "log.body.template"
  const LOG_BODY_PARAMETERS: string := "log.body.parameters"
  const EXCEPTION_TYPE: string := "exception.type"
  const EXCEPTION_MESSAGE: string := "exception.message"
  const EXCEPTION_STACKTRACE: string := "exception.stacktrace"
  const ROOT_LOGGER_NAME: string := "ROOT"

  /** The builder's settings, fixed when the mapper is built. */
  datatype Settings = Settings(
    captureExperimentalAttributes: bool,
    captureMdcAttributes: seq<string>,
    captureCodeAttributes: bool,
    captureMarkerAttribute: bool,
    captureKeyValuePairAttributes: bool,
    captureLoggerContext: bool,
    captureArguments: bool,
    captureLogstashAttributes: bool)

  /** Which optional Logback, SLF4J and logstash APIs are present; probed once, never changed. */
  datatype Capabilities = Capabilities(
    supportsInstant: bool,
    supportsKeyValuePairs: bool,
    supportsMultipleMarkers: bool,
    supportsLogstashMarkers: bool)

  datatype Instant = Instant(epochSecond: int, nano: int)

  /** The first caller frame's fields; a missing file name is `None`. */
  datatype StackFrame = StackFrame(fileName: Option<string>, className: string, methodName: string, lineNumber: int)

  /** A throwable: its class name, its message (possibly null) and the text `printStackTrace` renders. */
  datatype ThrowableInfo = ThrowableInfo(className: string, message: Option<string>, stackTrace: string)

  /** `getThrowableProxy()`: a local `ThrowableProxy` (whose throwable may be null) or the proxy used for events sent over the wire. */
  datatype ThrowableProxy = LocalProxy(throwable: Option<ThrowableInfo>) | RemoteProxy

  /**
   * What the mapper reads from an `ILoggingEvent`. String maps are their
   * entries in iteration order; a null caller-data array is the empty one.
   */
  datatype LoggingEvent = LoggingEvent(
    formattedMessage: Option<string>,
    message: Option<string>,
    argumentArray: Option<seq<Value>>,
    timeStamp: int,
    instant: Option<Instant>,
    level: Option<Level>,
    loggerName: Option<string>,
    threadName: string,
    throwableProxy: Option<ThrowableProxy>,
    callerData: seq<StackFrame>,
    mdcPropertyMap: seq<(string, string)>,
    marker: Option<Marker>,
    markerList: Option<seq<Marker>>,
    keyValuePairs: Option<seq<(Value, Value)>>,
    loggerContextProperties: seq<(string, string)>)

  datatype Timestamp = FromInstant(instant: Instant) | FromEpochMillis(millis: int)

  /** What the mapper sets on the log record builder. */
  datatype LogRecord = LogRecord(
    body: Option<string>,
    timestamp: Timestamp,
    severity: Option<Severity>,
    severityText: Option<string>,
    attributes: map<string, AttrValue>)

  /** A record together with the name of the logger (instrumentation scope) it is emitted through. */
  datatype EmittedRecord = EmittedRecord(instrumentationName: string, record: LogRecord)

  /** The name `emit` asks the logger provider for: the logger name, or "ROOT" when it is null or empty. */
  function InstrumentationName(loggerName: Option<string>): (name: string)
    ensures name != ""
    ensures loggerName.Some? && loggerName.value != "" ==> name == loggerName.value
    ensures loggerName.None? || loggerName.value == "" ==> name == ROOT_LOGGER_NAME
  {
    if loggerName.None? || loggerName.value == "" then ROOT_LOGGER_NAME else loggerName.value
  }

  /** Capture-all is on exactly when the configured list is `["*"]`. */
  predicate CaptureAllMdc(names: seq<string>) {
    |names| == 1 && names[0] == "*"
  }

  function StringOf(s: string): AttrValue {
    StringAttr(s)
  }

  /** A string map copied entry by entry into string attributes (MDC capture-all, logger context). */
  function PropertyWrites(properties: seq<(string, string)>): seq<Write> {
    MapValues(properties, StringOf)
  }

  /** Copying a string map entry by entry builds the same map, with string attribute values. */
  lemma PropertyWritesCollect(properties: seq<(string, string)>)
    ensures Collect(PropertyWrites(properties))
      == map k | k in Collect(properties) :: StringAttr(Collect(properties)[k])
  {
    CollectMapValues(properties, StringOf);
  }

  /** The named MDC keys, in configured order, that the MDC map holds. */
  function NamedMdcWrites(names: seq<string>, mdc: map<string, string>): seq<Write> {
    if names == [] then []
    else
      var key := names[|names| - 1];
      NamedMdcWrites(names[..|names| - 1], mdc) + (if key in mdc then [(key, StringAttr(mdc[key]))] else [])
  }

  lemma {:induction false} NamedMdcCollect(names: seq<string>, mdc: map<string, string>)
    ensures Collect(NamedMdcWrites(names, mdc)) == map k | k in mdc && k in names :: StringAttr(mdc[k])
  {
    if names != [] {
      var front := names[..|names| - 1];
      var key := names[|names| - 1];
      NamedMdcCollect(front, mdc);
      assert names == front + [key];
      var extra := if key in mdc then [(key, StringAttr(mdc[key]))] else [];
      CollectAppend(NamedMdcWrites(front, mdc), extra);
    }
  }

  /** What `captureMdcAttributes` writes. */
  function MdcWrites(captureAll: bool, names: seq<string>, mdcEntries: seq<(string, string)>): seq<Write> {
    if captureAll then PropertyWrites(mdcEntries) else NamedMdcWrites(names, Collect(mdcEntries))
  }

  /**
   * With capture-all every MDC entry becomes an attribute; otherwise exactly
   * the configured keys the MDC holds do.
   */
  lemma MdcCapture(names: seq<string>, mdcEntries: seq<(string, string)>)
    ensures var mdc := Collect(mdcEntries);
      Collect(MdcWrites(CaptureAllMdc(names), names, mdcEntries))
        == if CaptureAllMdc(names) then map k | k in mdc :: StringAttr(mdc[k])
           else map k | k in mdc && k in names :: StringAttr(mdc[k])
  {
    if CaptureAllMdc(names) {
      PropertyWritesCollect(mdcEntries);
    } else {
      NamedMdcCollect(names, Collect(mdcEntries));
    }
  }

  /** True when `getThrowableProxy()` is a local proxy holding a throwable. */
  predicate HasThrowable(proxy: Option<ThrowableProxy>) {
    proxy.Some? && proxy.value.LocalProxy? && proxy.value.throwable.Some?
  }

  /** What `setThrowable` writes; a null message is dropped, as the SDK's builder drops null values. */
  function ThrowableWrites(t: ThrowableInfo): (w: seq<Write>)
    ensures |w| == if t.message.Some? then 3 else 2
  {
    [(EXCEPTION_TYPE, StringAttr(t.className))]
      + (if t.message.Some? then [(EXCEPTION_MESSAGE, StringAttr(t.message.value))] else [])
      + [(EXCEPTION_STACKTRACE, StringAttr(t.stackTrace))]
  }

  /**
   * The exception type and stack trace are always recorded, the message
   * exactly when the throwable has one, each with the throwable's own value.
   */
  lemma ThrowableAttributes(t: ThrowableInfo)
    ensures var m := Collect(ThrowableWrites(t));
      && EXCEPTION_TYPE in m && m[EXCEPTION_TYPE] == StringAttr(t.className)
      && EXCEPTION_STACKTRACE in m && m[EXCEPTION_STACKTRACE] == StringAttr(t.stackTrace)
      && (EXCEPTION_MESSAGE in m <==> t.message.Some?)
      && (t.message.Some? ==> m[EXCEPTION_MESSAGE] == StringAttr(t.message.value))
  {
    var w := ThrowableWrites(t);
    CollectLastEntry(w, |w| - 1);
    CollectLastEntry(w, 0);
    if t.message.Some? {
      CollectLastEntry(w, 1);
    }
  }

  /** What the experimental step writes: the thread name, and the id unless it is the -1 sentinel. */
  function ThreadWrites(threadName: string, threadId: int): (w: seq<Write>)
    ensures |w| == if threadId == -1 then 1 else 2
  {
    [(THREAD_NAME, StringAttr(threadName))]
      + (if threadId != -1 then [(THREAD_ID, LongAttr(threadId))] else [])
  }

  /** The thread name is always recorded; the thread id exactly when it is not the -1 sentinel, as a long. */
  lemma ThreadAttributes(threadName: string, threadId: int)
    ensures var m := Collect(ThreadWrites(threadName, threadId));
      && THREAD_NAME in m && m[THREAD_NAME] == StringAttr(threadName)
      && (THREAD_ID in m <==> threadId != -1)
      && (THREAD_ID in m ==> m[THREAD_ID] == LongAttr(threadId))
  {
    var w := ThreadWrites(threadName, threadId);
    CollectLastEntry(w, 0);
    if threadId != -1 {
      CollectLastEntry(w, 1);
    }
  }

  /**
   * What the code step writes from the first caller frame: the file only when
   * known, the class and method, and the line only when positive.
   */
  function CodeWrites(callerData: seq<StackFrame>): (w: seq<Write>)
    ensures callerData == [] <==> w == []
    ensures |w| <= 4
  {
    if callerData == [] then []
    else
      var frame := callerData[0];
      (if frame.fileName.Some? then [(CODE_FILEPATH, StringAttr(frame.fileName.value))] else [])
        + [(CODE_NAMESPACE, StringAttr(frame.className)), (CODE_FUNCTION, StringAttr(frame.methodName))]
        + (if frame.lineNumber > 0 then [(CODE_LINENO, LongAttr(frame.lineNumber))] else [])
  }

  /**
   * From the first caller frame: the file path exactly when it has a file
   * name, the class and method names always, the line exactly when positive,
   * each with the frame's own value.
   */
  lemma CodeAttributes(callerData: seq<StackFrame>)
    ensures var m := Collect(CodeWrites(callerData));
      && (callerData == [] ==> m == map[])
      && (CODE_FILEPATH in m <==> callerData != [] && callerData[0].fileName.Some?)
      && (CODE_LINENO in m <==> callerData != [] && callerData[0].lineNumber > 0)
      && (callerData != [] ==> CODE_NAMESPACE in m && m[CODE_NAMESPACE] == StringAttr(callerData[0].className))
      && (callerData != [] ==> CODE_FUNCTION in m && m[CODE_FUNCTION] == StringAttr(callerData[0].methodName))
      && (CODE_FILEPATH in m ==> m[CODE_FILEPATH] == StringAttr(callerData[0].fileName.value))
      && (CODE_LINENO in m ==> m[CODE_LINENO] == LongAttr(callerData[0].lineNumber))
  {
    if callerData != [] {
      var frame := callerData[0];
      var file := if frame.fileName.Some? then [(CODE_FILEPATH, StringAttr(frame.fileName.value))] else [];
      var names := [(CODE_NAMESPACE, StringAttr(frame.className)), (CODE_FUNCTION, StringAttr(frame.methodName))];
      var line := if frame.lineNumber > 0 then [(CODE_LINENO, LongAttr(frame.lineNumber))] else [];
      CollectAppend(file + names, line);
      CollectAppend(file, names);
      assert Collect(names) == map[CODE_NAMESPACE := StringAttr(frame.className), CODE_FUNCTION := StringAttr(frame.methodName)] by {
        assert names[..1][..0] == [];
      }
      assert Collect(file) == if frame.fileName.Some? then map[CODE_FILEPATH := StringAttr(frame.fileName.value)] else map[] by {
        if frame.fileName.Some? { assert file[..0] == []; }
      }
      assert Collect(line) == if frame.lineNumber > 0 then map[CODE_LINENO := LongAttr(frame.lineNumber)] else map[] by {
        if frame.lineNumber > 0 { assert line[..0] == []; }
      }
    }
  }

  /** `hasMultipleMarkers`: a non-null marker list with more than one marker. */
  predicate HasMultipleMarkers(markerList: Option<seq<Marker>>): (b: bool)
    ensures b ==> markerList.Some? && markerList.value != []
    ensures markerList.Some? && |markerList.value| <= 1 ==> !b
    ensures markerList.Some? && |markerList.value| > 1 ==> b
  {
    markerList.Some? && |markerList.value| > 1
  }

  /**
   * What `captureMarkerAttribute` writes: on the multi-marker path the
   * collected names, unless there are none; otherwise the single marker's name,
   * unless it is absent or a skipped logstash marker. Never an empty array.
   */
  function MarkerAttributeWrites(
    supportsMultipleMarkers: bool, skipLogstashMarkers: bool,
    marker: Option<Marker>, markerList: Option<seq<Marker>>): (w: seq<Write>)
    ensures |w| <= 1
    ensures w != [] ==> w[0].0 == LOG_MARKER && w[0].1.StringArrayAttr? && w[0].1.ss != []
    ensures supportsMultipleMarkers && HasMultipleMarkers(markerList) ==>
      (w == [] <==> MarkerNames(markerList.value, skipLogstashMarkers) == [])
      && (w != [] ==> w[0].1.ss == MarkerNames(markerList.value, skipLogstashMarkers))
    ensures !(supportsMultipleMarkers && HasMultipleMarkers(markerList)) ==>
      (w != [] <==> marker.Some? && !(skipLogstashMarkers && IsLogstashMarker(marker.value)))
      && (w != [] ==> w[0].1.ss == [marker.value.name])
  {
    if supportsMultipleMarkers && HasMultipleMarkers(markerList) then
      var names := MarkerNames(markerList.value, skipLogstashMarkers);
      if names == [] then [] else [(LOG_MARKER, StringArrayAttr(names))]
    else if marker.Some? && (!skipLogstashMarkers || !IsLogstashMarker(marker.value)) then
      [(LOG_MARKER, StringArrayAttr([marker.value.name]))]
    else []
  }

  /**
   * What `captureArguments` writes: the template (a null template is dropped,
   * as the SDK's builder drops null values), and every argument rendered by
   * `String.valueOf`.
   */
  function ArgumentWrites(message: Option<string>, arguments: seq<Value>): seq<Write> {
    (if message.Some? then [(LOG_BODY_TEMPLATE, StringAttr(message.value))] else [])
      + [(LOG_BODY_PARAMETERS, StringArrayAttr(MapSeq(arguments, ValueOf)))]
  }

  /**
   * The template attribute holds the template, and is present exactly when
   * there is one; the parameters attribute holds one string per argument, in
   * order, a null argument included as "null".
   */
  lemma ArgumentAttributes(message: Option<string>, arguments: seq<Value>)
    ensures var m := Collect(ArgumentWrites(message, arguments));
      && (LOG_BODY_TEMPLATE in m <==> message.Some?)
      && (message.Some? ==> m[LOG_BODY_TEMPLATE] == StringAttr(message.value))
      && LOG_BODY_PARAMETERS in m && m[LOG_BODY_PARAMETERS].StringArrayAttr?
      && |m[LOG_BODY_PARAMETERS].ss| == |arguments|
      && (forall i | 0 <= i < |arguments| :: m[LOG_BODY_PARAMETERS].ss[i] == ValueOf(arguments[i]))
      && (forall i | 0 <= i < |arguments| && arguments[i] == Null :: m[LOG_BODY_PARAMETERS].ss[i] == "null")
  {
    var w := ArgumentWrites(message, arguments);
    CollectLastEntry(w, |w| - 1);
    if message.Some? {
      CollectLastEntry(w, 0);
    }
  }

  /** What `captureLogstashAttributes` writes: the logstash markers of the list or the single marker, each traversed. */
  function LogstashEventWrites(supportsMultipleMarkers: bool, marker: Option<Marker>, markerList: Option<seq<Marker>>)
    : seq<Write>
  {
    if supportsMultipleMarkers && HasMultipleMarkers(markerList) then LogstashListWrites(markerList.value)
    else if marker.Some? && IsLogstashMarker(marker.value) then LogstashWrites(marker.value)
    else []
  }

  /**
   * The logstash step writes the depth-first pre-order visit of the list's
   * logstash markers on the multi-marker path, otherwise that of the single
   * marker when it is a logstash marker, otherwise nothing.
   */
  lemma LogstashEventPreorder(supportsMultipleMarkers: bool, marker: Option<Marker>, markerList: Option<seq<Marker>>)
    ensures var w := LogstashEventWrites(supportsMultipleMarkers, marker, markerList);
      && (supportsMultipleMarkers && HasMultipleMarkers(markerList) ==>
            w == VisitWrites(ListPreorder(markerList.value)))
      && (!(supportsMultipleMarkers && HasMultipleMarkers(markerList)) && marker.Some? && IsLogstashMarker(marker.value) ==>
            w == VisitWrites(Preorder(marker.value)))
      && (!(supportsMultipleMarkers && HasMultipleMarkers(markerList)) && !(marker.Some? && IsLogstashMarker(marker.value)) ==>
            w == [])
  {
    if supportsMultipleMarkers && HasMultipleMarkers(markerList) {
      ListWritesArePreorder(markerList.value);
    } else if marker.Some? && IsLogstashMarker(marker.value) {
      LogstashWritesArePreorder(marker.value);
    }
  }

  function ThrowableStep(event: LoggingEvent): seq<Write> {
    if HasThrowable(event.throwableProxy) then ThrowableWrites(event.throwableProxy.value.throwable.value) else []
  }

  /**
   * Exception attributes come only from a local proxy holding a throwable:
   * no proxy, a proxy without a throwable, or the proxy of an event sent over
   * the wire give none.
   */
  lemma ThrowableGate(event: LoggingEvent)
    ensures ThrowableStep(event) == [] <==> !HasThrowable(event.throwableProxy)
    ensures event.throwableProxy == Some(RemoteProxy) ==> ThrowableStep(event) == []
    ensures event.throwableProxy == None ==> ThrowableStep(event) == []
    ensures forall t :: event.throwableProxy == Some(LocalProxy(Some(t))) ==> ThrowableStep(event) == ThrowableWrites(t)
  {
  }

  function MdcStep(settings: Settings, event: LoggingEvent): seq<Write> {
    MdcWrites(CaptureAllMdc(settings.captureMdcAttributes), settings.captureMdcAttributes, event.mdcPropertyMap)
  }

  function ThreadStep(settings: Settings, event: LoggingEvent, threadId: int): seq<Write> {
    if settings.captureExperimentalAttributes then ThreadWrites(event.threadName, threadId) else []
  }

  function CodeStep(settings: Settings, event: LoggingEvent): seq<Write> {
    if settings.captureCodeAttributes then CodeWrites(event.callerData) else []
  }

  function MarkerStep(settings: Settings, caps: Capabilities, event: LoggingEvent): seq<Write> {
    var skipLogstashMarkers := caps.supportsLogstashMarkers && settings.captureLogstashAttributes;
    if settings.captureMarkerAttribute
    then MarkerAttributeWrites(caps.supportsMultipleMarkers, skipLogstashMarkers, event.marker, event.markerList)
    else []
  }

  function KeyValuePairStep(settings: Settings, caps: Capabilities, event: LoggingEvent): seq<Write> {
    if caps.supportsKeyValuePairs && settings.captureKeyValuePairAttributes && event.keyValuePairs.Some?
    then PairsWrites(event.keyValuePairs.value) else []
  }

  function LoggerContextStep(settings: Settings, event: LoggingEvent): seq<Write> {
    if settings.captureLoggerContext then PropertyWrites(event.loggerContextProperties) else []
  }

  function ArgumentStep(settings: Settings, event: LoggingEvent): seq<Write> {
    if settings.captureArguments && event.argumentArray.Some? && |event.argumentArray.value| > 0
    then ArgumentWrites(event.message, event.argumentArray.value) else []
  }

  function LogstashStep(settings: Settings, caps: Capabilities, event: LoggingEvent): seq<Write> {
    if caps.supportsLogstashMarkers && settings.captureLogstashAttributes
    then LogstashEventWrites(caps.supportsMultipleMarkers, event.marker, event.markerList) else []
  }

  /** The writes of each step of `mapLoggingEvent`, in the order the steps run. */
  function EventSteps(settings: Settings, caps: Capabilities, event: LoggingEvent, threadId: int)
    : (steps: seq<seq<Write>>)
    ensures |steps| == 9
  {
    [ ThrowableStep(event),
      MdcStep(settings, event),
      ThreadStep(settings, event, threadId),
      CodeStep(settings, event),
      MarkerStep(settings, caps, event),
      KeyValuePairStep(settings, caps, event),
      LoggerContextStep(settings, event),
      ArgumentStep(settings, event),
      LogstashStep(settings, caps, event) ]
  }

  /** All writes of a sequence of steps, step after step. */
  function Flatten(steps: seq<seq<Write>>): seq<Write> {
    if steps == [] then [] else Flatten(steps[..|steps| - 1]) + steps[|steps| - 1]
  }

  lemma FlattenPrefix(steps: seq<seq<Write>>, k: nat)
    requires k < |steps|
    ensures Flatten(steps[..k + 1]) == Flatten(steps[..k]) + steps[k]
  {
    assert steps[..k + 1][..k] == steps[..k];
  }

  /** Nine steps, flattened after some earlier writes, are those writes and then each step's, one after another. */
  lemma FlattenNine(earlier: seq<Write>, a: seq<Write>, b: seq<Write>, c: seq<Write>, d: seq<Write>, e: seq<Write>,
                    f: seq<Write>, g: seq<Write>, h: seq<Write>, i: seq<Write>)
    ensures earlier + Flatten([a, b, c, d, e, f, g, h, i]) == earlier + a + b + c + d + e + f + g + h + i
  {
    var steps := [a, b, c, d, e, f, g, h, i];
    assert earlier + Flatten(steps[..0]) == earlier by {
      assert steps[..0] == [];
    }
    FlattenStep(earlier, steps, 0, earlier);
    FlattenStep(earlier, steps, 1, earlier + a);
    FlattenStep(earlier, steps, 2, earlier + a + b);
    FlattenStep(earlier, steps, 3, earlier + a + b + c);
    FlattenStep(earlier, steps, 4, earlier + a + b + c + d);
    FlattenStep(earlier, steps, 5, earlier + a + b + c + d + e);
    FlattenStep(earlier, steps, 6, earlier + a + b + c + d + e + f);
    FlattenStep(earlier, steps, 7, earlier + a + b + c + d + e + f + g);
    FlattenStep(earlier, steps, 8, earlier + a + b + c + d + e + f + g + h);
    assert steps[..9] == steps;
  }

  /** One more step after some earlier writes: its writes follow theirs. */
  lemma FlattenStep(earlier: seq<Write>, steps: seq<seq<Write>>, k: nat, done: seq<Write>)
    requires k < |steps| && earlier + Flatten(steps[..k]) == done
    ensures earlier + Flatten(steps[..k + 1]) == done + steps[k]
  {
    FlattenPrefix(steps, k);
    assert earlier + (Flatten(steps[..k]) + steps[k]) == (earlier + Flatten(steps[..k])) + steps[k];
  }

  /** The attributes of a sequence of steps when each step overrides the steps before it. */
  function Layered(steps: seq<seq<Write>>): map<string, AttrValue> {
    if steps == [] then map[] else Layered(steps[..|steps| - 1]) + Collect(steps[|steps| - 1])
  }

  lemma {:induction false} CollectFlatten(steps: seq<seq<Write>>)
    ensures Collect(Flatten(steps)) == Layered(steps)
  {
    if steps != [] {
      var front := steps[..|steps| - 1];
      CollectFlatten(front);
      CollectAppend(Flatten(front), steps[|steps| - 1]);
    }
  }

  /** A key written by a step and by no later step keeps that step's value. */
  lemma {:induction false} LayeredPrecedence(steps: seq<seq<Write>>, j: nat, key: string)
    requires j < |steps| && key in Collect(steps[j])
    requires forall l | j < l < |steps| :: key !in Collect(steps[l])
    ensures key in Layered(steps) && Layered(steps)[key] == Collect(steps[j])[key]
  {
    var front := steps[..|steps| - 1];
    if j < |steps| - 1 {
      assert front[j] == steps[j];
      LayeredPrecedence(front, j, key);
    }
  }

  /** The record `mapLoggingEvent` fills in. */
  function MapEvent(settings: Settings, caps: Capabilities, event: LoggingEvent, threadId: int): (r: LogRecord)
    ensures r.body == event.formattedMessage
    ensures r.timestamp == if caps.supportsInstant && event.instant.Some? then FromInstant(event.instant.value)
      else FromEpochMillis(event.timeStamp)
    ensures r.severity.Some? <==> event.level.Some?
    ensures r.severityText.Some? <==> event.level.Some?
    ensures event.level.Some? ==> r.severity == Some(LevelToSeverity(event.level.value.levelInt))
    ensures event.level.Some? ==> r.severityText == Some(event.level.value.levelStr)
    ensures r.attributes == Layered(EventSteps(settings, caps, event, threadId))
  {
    CollectFlatten(EventSteps(settings, caps, event, threadId));
    LogRecord(
      event.formattedMessage,
      if caps.supportsInstant && event.instant.Some? then FromInstant(event.instant.value)
      else FromEpochMillis(event.timeStamp),
      if event.level.Some? then Some(LevelToSeverity(event.level.value.levelInt)) else None,
      if event.level.Some? then Some(event.level.value.levelStr) else None,
      Collect(Flatten(EventSteps(settings, caps, event, threadId))))
  }

  /**
   * The record's attributes: each step's attributes, a later step's value
   * replacing an earlier one's for the same key; a key written by one step and
   * no later step has that step's value.
   */
  lemma AttributesByStep(settings: Settings, caps: Capabilities, event: LoggingEvent, threadId: int, j: nat, key: string)
    requires j < 9
    requires key in Collect(EventSteps(settings, caps, event, threadId)[j])
    requires forall l | j < l < 9 :: key !in Collect(EventSteps(settings, caps, event, threadId)[l])
    ensures var steps := EventSteps(settings, caps, event, threadId);
      MapEvent(settings, caps, event, threadId).attributes == Layered(steps)
      && key in Layered(steps) && Layered(steps)[key] == Collect(steps[j])[key]
  {
    var steps := EventSteps(settings, caps, event, threadId);
    CollectFlatten(steps);
    LayeredPrecedence(steps, j, key);
  }

  /** What `emit` hands to the SDK: the scope name and the mapped record. */
  function EmitEvent(settings: Settings, caps: Capabilities, event: LoggingEvent, threadId: int): EmittedRecord {
    EmittedRecord(InstrumentationName(event.loggerName), MapEvent(settings, caps, event, threadId))
  }

  class LoggingEventMapper {
    const settings: Settings
    const capabilities: Capabilities
    const captureAllMdcAttributes: bool := CaptureAllMdc(settings.captureMdcAttributes)

    constructor (builder: Settings, capabilities: Capabilities)
      ensures settings == builder && this.capabilities == capabilities
      ensures captureAllMdcAttributes <==> |builder.captureMdcAttributes| == 1 && builder.captureMdcAttributes[0] == "*"
    {
      settings := builder;
      this.capabilities := capabilities;
    }

    /** `emit`: the scope name with the ROOT rule, and the mapped record. */
    method Emit(event: LoggingEvent, threadId: int) returns (emitted: EmittedRecord)
      ensures emitted.instrumentationName != ""
      ensures emitted == EmitEvent(settings, capabilities, event, threadId)
    {
      var instrumentationName := event.loggerName;
      var name: string;
      if instrumentationName.None? || instrumentationName.value == "" {
        name := ROOT_LOGGER_NAME;
      } else {
        name := instrumentationName.value;
      }
      var record := MapLoggingEvent(event, threadId);
      emitted := EmittedRecord(name, record);
    }

    /** `mapLoggingEvent`: body, timestamp, severity, then the capture steps into one attributes builder. */
    method MapLoggingEvent(event: LoggingEvent, threadId: int) returns (record: LogRecord)
      ensures record == MapEvent(settings, capabilities, event, threadId)
    {
      var body := event.formattedMessage;
      var timestamp := if capabilities.supportsInstant && event.instant.Some? then FromInstant(event.instant.value)
        else FromEpochMillis(event.timeStamp);
      var severity: Option<Severity> := None;
      var severityText: Option<string> := None;
      if event.level.Some? {
        severity := Some(LevelToSeverity(event.level.value.levelInt));
        severityText := Some(event.level.value.levelStr);
      }

      var attributes := new AttributesBuilder();
      CaptureEventSteps(attributes, event, threadId);
      assert attributes.writes == Flatten(EventSteps(settings, capabilities, event, threadId));
      record := LogRecord(body, timestamp, severity, severityText, attributes.Build());
    }

    /** The capture steps of `mapLoggingEvent`, in order, each gated by its setting. */
    method CaptureEventSteps(attributes: AttributesBuilder, event: LoggingEvent, threadId: int)
      modifies attributes
      ensures attributes.writes == old(attributes.writes) + Flatten(EventSteps(settings, capabilities, event, threadId))
    {
      CaptureEarlySteps(attributes, event, threadId);
      CaptureMiddleSteps(attributes, event);
      CaptureLateSteps(attributes, event);
      FlattenNine(old(attributes.writes), ThrowableStep(event), MdcStep(settings, event), ThreadStep(settings, event, threadId),
        CodeStep(settings, event), MarkerStep(settings, capabilities, event),
        KeyValuePairStep(settings, capabilities, event), LoggerContextStep(settings, event),
        ArgumentStep(settings, event), LogstashStep(settings, capabilities, event));
    }

    /** The throwable, MDC and experimental steps. */
    method CaptureEarlySteps(attributes: AttributesBuilder, event: LoggingEvent, threadId: int)
      modifies attributes
      ensures attributes.writes == old(attributes.writes)
        + ThrowableStep(event) + MdcStep(settings, event) + ThreadStep(settings, event, threadId)
    {
      if HasThrowable(event.throwableProxy) {
        SetThrowable(attributes, event.throwableProxy.value.throwable.value);
      }
      CaptureMdcAttributes(attributes, event.mdcPropertyMap);
      if settings.captureExperimentalAttributes {
        CaptureThreadAttributes(attributes, event.threadName, threadId);
      }
    }

    /** The code, marker and key-value pair steps. */
    method CaptureMiddleSteps(attributes: AttributesBuilder, event: LoggingEvent)
      modifies attributes
      ensures attributes.writes == old(attributes.writes)
        + CodeStep(settings, event) + MarkerStep(settings, capabilities, event)
        + KeyValuePairStep(settings, capabilities, event)
    {
      if settings.captureCodeAttributes {
        CaptureCodeAttributes(attributes, event.callerData);
      }
      ghost var afterCode := attributes.writes;
      if settings.captureMarkerAttribute {
        var skipLogstashMarkers := capabilities.supportsLogstashMarkers && settings.captureLogstashAttributes;
        CaptureMarkerAttribute(attributes, event, skipLogstashMarkers);
      }
      ghost var afterMarkers := attributes.writes;
      if capabilities.supportsKeyValuePairs && settings.captureKeyValuePairAttributes {
        CaptureKeyValuePairAttributes(attributes, event);
      }
      assert attributes.writes == afterMarkers + KeyValuePairStep(settings, capabilities, event);
      assert afterMarkers == afterCode + MarkerStep(settings, capabilities, event);
    }

    /** The logger context, argument and logstash steps. */
    method CaptureLateSteps(attributes: AttributesBuilder, event: LoggingEvent)
      modifies attributes
      ensures attributes.writes == old(attributes.writes)
        + LoggerContextStep(settings, event) + ArgumentStep(settings, event)
        + LogstashStep(settings, capabilities, event)
    {
      if settings.captureLoggerContext {
        CaptureLoggerContext(attributes, event.loggerContextProperties);
      }
      if settings.captureArguments && event.argumentArray.Some? && |event.argumentArray.value| > 0 {
        CaptureArguments(attributes, event.message, event.argumentArray.value);
      }
      if capabilities.supportsLogstashMarkers && settings.captureLogstashAttributes {
        CaptureLogstashAttributes(attributes, event);
      }
    }

    /** The experimental step of `mapLoggingEvent`: thread name, and thread id unless it is -1. */
    static method CaptureThreadAttributes(attributes: AttributesBuilder, threadName: string, threadId: int)
      modifies attributes
      ensures attributes.writes == old(attributes.writes) + ThreadWrites(threadName, threadId)
    {
      attributes.Put(THREAD_NAME, StringAttr(threadName));
      if threadId != -1 {
        attributes.Put(THREAD_ID, LongAttr(threadId));
      }
    }

    /** The code step of `mapLoggingEvent`, from the first caller frame if there is one. */
    static method CaptureCodeAttributes(attributes: AttributesBuilder, callerData: seq<StackFrame>)
      modifies attributes
      ensures attributes.writes == old(attributes.writes) + CodeWrites(callerData)
    {
      if |callerData| > 0 {
        var firstStackElement := callerData[0];
        if firstStackElement.fileName.Some? {
          attributes.Put(CODE_FILEPATH, StringAttr(firstStackElement.fileName.value));
        }
        attributes.Put(CODE_NAMESPACE, StringAttr(firstStackElement.className));
        attributes.Put(CODE_FUNCTION, StringAttr(firstStackElement.methodName));
        var lineNumber := firstStackElement.lineNumber;
        if lineNumber > 0 {
          attributes.Put(CODE_LINENO, LongAttr(lineNumber));
        }
      }
    }

    /** `captureMdcAttributes`. */
    method CaptureMdcAttributes(attributes: AttributesBuilder, mdcProperties: seq<(string, string)>)
      modifies attributes
      ensures attributes.writes
        == old(attributes.writes) + MdcWrites(captureAllMdcAttributes, settings.captureMdcAttributes, mdcProperties)
    {
      if captureAllMdcAttributes {
        CaptureProperties(attributes, mdcProperties);
        return;
      }
      var names := settings.captureMdcAttributes;
      var mdc := Collect(mdcProperties);
      for i := 0 to |names|
        invariant attributes.writes == old(attributes.writes) + NamedMdcWrites(names[..i], mdc)
      {
        assert names[..i + 1][..i] == names[..i];
        var key := names[i];
        if key in mdc {
          attributes.Put(key, StringAttr(mdc[key]));
        }
      }
      assert names[..|names|] == names;
    }

    /** `captureLoggerContext`. */
    static method CaptureLoggerContext(attributes: AttributesBuilder, loggerContextProperties: seq<(string, string)>)
      modifies attributes
      ensures attributes.writes == old(attributes.writes) + PropertyWrites(loggerContextProperties)
    {
      CaptureProperties(attributes, loggerContextProperties);
    }

    /** The loop shared by MDC capture-all and the logger context: every entry, in iteration order. */
    static method CaptureProperties(attributes: AttributesBuilder, properties: seq<(string, string)>)
      modifies attributes
      ensures attributes.writes == old(attributes.writes) + PropertyWrites(properties)
    {
      for i := 0 to |properties|
        invariant attributes.writes == old(attributes.writes) + PropertyWrites(properties)[..i]
      {
        attributes.Put(properties[i].0, StringAttr(properties[i].1));
        assert PropertyWrites(properties)[..i + 1] == PropertyWrites(properties)[..i] + [PropertyWrites(properties)[i]];
      }
      assert PropertyWrites(properties)[..|properties|] == PropertyWrites(properties);
    }

    /** `captureArguments`. */
    static method CaptureArguments(attributes: AttributesBuilder, message: Option<string>, arguments: seq<Value>)
      modifies attributes
      ensures attributes.writes == old(attributes.writes) + ArgumentWrites(message, arguments)
    {
      if message.Some? {
        attributes.Put(LOG_BODY_TEMPLATE, StringAttr(message.value));
      }
      attributes.Put(LOG_BODY_PARAMETERS, StringArrayAttr(MapSeq(arguments, ValueOf)));
    }

    /** `setThrowable`. */
    static method SetThrowable(attributes: AttributesBuilder, throwable: ThrowableInfo)
      modifies attributes
      ensures attributes.writes == old(attributes.writes) + ThrowableWrites(throwable)
    {
      attributes.Put(EXCEPTION_TYPE, StringAttr(throwable.className));
      if throwable.message.Some? {
        attributes.Put(EXCEPTION_MESSAGE, StringAttr(throwable.message.value));
      }
      attributes.Put(EXCEPTION_STACKTRACE, StringAttr(throwable.stackTrace));
    }

    /** `captureKeyValuePairAttributes`. */
    static method CaptureKeyValuePairAttributes(attributes: AttributesBuilder, event: LoggingEvent)
      modifies attributes
      ensures attributes.writes
        == old(attributes.writes) + if event.keyValuePairs.Some? then PairsWrites(event.keyValuePairs.value) else []
    {
      var keyValuePairs := event.keyValuePairs;
      if keyValuePairs.Some? {
        CapturePairs(attributes, keyValuePairs.value);
      }
    }

    /** `captureMarkerAttribute`. */
    method CaptureMarkerAttribute(attributes: AttributesBuilder, event: LoggingEvent, skipLogstashMarkers: bool)
      modifies attributes
      ensures attributes.writes == old(attributes.writes)
        + MarkerAttributeWrites(capabilities.supportsMultipleMarkers, skipLogstashMarkers, event.marker, event.markerList)
    {
      if capabilities.supportsMultipleMarkers && HasMultipleMarkers(event.markerList) {
        CaptureMultipleMarkerAttributes(attributes, event.markerList.value, skipLogstashMarkers);
      } else {
        CaptureSingleMarkerAttribute(attributes, event.marker, skipLogstashMarkers);
      }
    }

    /** `captureSingleMarkerAttribute`. */
    static method CaptureSingleMarkerAttribute(attributes: AttributesBuilder, marker: Option<Marker>, skipLogstashMarkers: bool)
      modifies attributes
      ensures attributes.writes == old(attributes.writes)
        + if marker.Some? && (!skipLogstashMarkers || !IsLogstashMarker(marker.value))
          then [(LOG_MARKER, StringArrayAttr([marker.value.name]))] else []
    {
      if marker.Some? && (!skipLogstashMarkers || !IsLogstashMarker(marker.value)) {
        attributes.Put(LOG_MARKER, StringArrayAttr([marker.value.name]));
      }
    }

    /** `captureMultipleMarkerAttributes`: collect the names into a list, then write them unless there are none. */
    static method CaptureMultipleMarkerAttributes(attributes: AttributesBuilder, markerList: seq<Marker>, skipLogstashMarkers: bool)
      modifies attributes
      ensures attributes.writes == old(attributes.writes)
        + if MarkerNames(markerList, skipLogstashMarkers) == [] then []
          else [(LOG_MARKER, StringArrayAttr(MarkerNames(markerList, skipLogstashMarkers)))]
    {
      var markerNames: seq<string> := [];
      for i := 0 to |markerList|
        invariant markerNames == MarkerNames(markerList[..i], skipLogstashMarkers)
      {
        assert markerList[..i + 1][..i] == markerList[..i];
        var marker := markerList[i];
        if !skipLogstashMarkers || !IsLogstashMarker(marker) {
          markerNames := markerNames + [marker.name];
        }
      }
      assert markerList[..|markerList|] == markerList;
      if markerNames != [] {
        attributes.Put(LOG_MARKER, StringArrayAttr(markerNames));
      }
    }

    /** `captureLogstashAttributes`, with `captureSingleLogstashAttribute` and `captureMultipleLogstashAttributes`. */
    method CaptureLogstashAttributes(attributes: AttributesBuilder, event: LoggingEvent)
      modifies attributes
      ensures attributes.writes == old(attributes.writes)
        + LogstashEventWrites(capabilities.supportsMultipleMarkers, event.marker, event.markerList)
    {
      if capabilities.supportsMultipleMarkers && HasMultipleMarkers(event.markerList) {
        CaptureLogstashMarkers(attributes, event.markerList.value);
      } else {
        var marker := event.marker;
        if marker.Some? && IsLogstashMarker(marker.value) {
          CaptureLogstashMarker(attributes, marker.value);
        }
      }
    }
  }
}
