# Logback log-event mapping

A model in Dafny of `LoggingEventMapper`, the class of the OpenTelemetry
Logback appender that turns a Logback `ILoggingEvent` into an OpenTelemetry
log record. The mapper sets the body, the timestamp and the severity. It then
runs a fixed sequence of capture steps into one attributes builder:

- the exception
- the MDC
- the thread
- the caller frame
- the markers
- the SLF4J key-value pairs
- the logger-context properties
- the arguments
- the logstash markers

A later write to the same key wins.

Layout:

- `attributes.dfy`: the attribute values, and the builder as a class that records every `put`. Building keeps the last write per key.
- `java_values.dfy`: the Java values the mapper inspects with `instanceof`, and `String.valueOf`.
- `severities.dfy`: `levelToSeverity`.
- `coercion.dfy`: `captureKeyValueAttribute`, and the in-place compaction loop of `captureKeyArrayValueAttribute` on a real `array`.
- `markers.dfy`: marker names, and the recursive logstash traversal over a finite marker tree. The traversal is proved equal to a depth-first pre-order visit.
- `event_mapper.dfy`: the settings, the capabilities, the event, a specification function per capture step, and the class `LoggingEventMapper`. Its methods append to the builder, and each is proved to append exactly its step's writes.
- `scenarios.dfy`: whole-event examples.

Both `mapLoggingEvent` and `emit` are proved equal to functions of the settings, the capabilities, the event and the thread id. Mapping the same event twice therefore gives the same record.

## Model

| member | source | states |
|---|---|---|
| Severities.LevelToSeverity | instrumentation/logback/logback-appender-1.0/library/src/main/java/io/opentelemetry/instrumentation/logback/appender/v1_0/internal/LoggingEventMapper.java:266-283 | ALL and TRACE give TRACE; DEBUG, INFO, WARN, ERROR give themselves; every other level, OFF included, gives UNDEFINED; each direction of each case is stated |
| Severities.LevelToSeverityMonotonic | instrumentation/logback/logback-appender-1.0/library/src/main/java/io/opentelemetry/instrumentation/logback/appender/v1_0/internal/LoggingEventMapper.java:266-283 | among the named levels the severity number never decreases as the level rises, and strictly increases above ALL |
| Severities.LevelOf | instrumentation/logback/logback-appender-1.0/library/src/main/java/io/opentelemetry/instrumentation/logback/appender/v1_0/internal/LoggingEventMapper.java:266-283 | every severity the switch can return is reached from some Logback level |
| EventMapper.InstrumentationName | instrumentation/logback/logback-appender-1.0/library/src/main/java/io/opentelemetry/instrumentation/logback/appender/v1_0/internal/LoggingEventMapper.java:102-106 | the scope name is the logger name, or "ROOT" when that is null or empty; never empty |
| EventMapper.LoggingEventMapper.Emit | instrumentation/logback/logback-appender-1.0/library/src/main/java/io/opentelemetry/instrumentation/logback/appender/v1_0/internal/LoggingEventMapper.java:102-111 | the record is emitted under the normalised logger name and is the mapped record |
| EventMapper.LoggingEventMapper.constructor | instrumentation/logback/logback-appender-1.0/library/src/main/java/io/opentelemetry/instrumentation/logback/appender/v1_0/internal/LoggingEventMapper.java:85-96 | the settings are the builder's; capture-all MDC is on exactly when the configured list is one element equal to "*" |
| EventMapper.LoggingEventMapper.MapLoggingEvent | instrumentation/logback/logback-appender-1.0/library/src/main/java/io/opentelemetry/instrumentation/logback/appender/v1_0/internal/LoggingEventMapper.java:114-204 | body from the formatted message, timestamp from the instant when supported and present else epoch millis, severity and its text only when the level is present, attributes built from the nine capture steps in source order |
| EventMapper.LoggingEventMapper.CaptureEventSteps | instrumentation/logback/logback-appender-1.0/library/src/main/java/io/opentelemetry/instrumentation/logback/appender/v1_0/internal/LoggingEventMapper.java:137-198 | the builder receives the writes of the throwable, MDC, thread, code, marker, key-value, logger-context, argument and logstash steps, in that order, each only when its setting and capability allow |
| EventMapper.AttributesByStep | instrumentation/logback/logback-appender-1.0/library/src/main/java/io/opentelemetry/instrumentation/logback/appender/v1_0/internal/LoggingEventMapper.java:137-201 | a key written by a step and by no later step carries that step's value in the record: later steps override earlier ones |
| EventMapper.ThrowableWrites | instrumentation/logback/logback-appender-1.0/library/src/main/java/io/opentelemetry/instrumentation/logback/appender/v1_0/internal/LoggingEventMapper.java:256-264 | three writes when the throwable has a message, two when it has none |
| EventMapper.ThrowableAttributes | instrumentation/logback/logback-appender-1.0/library/src/main/java/io/opentelemetry/instrumentation/logback/appender/v1_0/internal/LoggingEventMapper.java:256-264 | exception type and stack trace are always recorded with the throwable's class name and rendered trace; the message exactly when the throwable has one, with that message |
| EventMapper.ThrowableGate | instrumentation/logback/logback-appender-1.0/library/src/main/java/io/opentelemetry/instrumentation/logback/appender/v1_0/internal/LoggingEventMapper.java:140-149 | the exception step writes nothing exactly when there is no local proxy holding a throwable: no proxy and the over-the-wire proxy give nothing; a local proxy with a throwable gives exactly `setThrowable`'s writes for it |
| EventMapper.LoggingEventMapper.SetThrowable | instrumentation/logback/logback-appender-1.0/library/src/main/java/io/opentelemetry/instrumentation/logback/appender/v1_0/internal/LoggingEventMapper.java:256-264 | appends the exception attributes in source order |
| EventMapper.MdcCapture | instrumentation/logback/logback-appender-1.0/library/src/main/java/io/opentelemetry/instrumentation/logback/appender/v1_0/internal/LoggingEventMapper.java:229-243 | capture-all copies every MDC entry; otherwise exactly the configured keys present in the MDC are copied, as string attributes |
| EventMapper.NamedMdcCollect | instrumentation/logback/logback-appender-1.0/library/src/main/java/io/opentelemetry/instrumentation/logback/appender/v1_0/internal/LoggingEventMapper.java:236-242 | the named-keys loop yields the MDC restricted to the configured names |
| EventMapper.PropertyWritesCollect | instrumentation/logback/logback-appender-1.0/library/src/main/java/io/opentelemetry/instrumentation/logback/appender/v1_0/internal/LoggingEventMapper.java:230-233 | copying a string map entry by entry yields the same map of string attributes |
| EventMapper.LoggingEventMapper.CaptureMdcAttributes | instrumentation/logback/logback-appender-1.0/library/src/main/java/io/opentelemetry/instrumentation/logback/appender/v1_0/internal/LoggingEventMapper.java:229-243 | appends the capture-all or the named-keys writes, with a loop invariant over the configured names |
| EventMapper.LoggingEventMapper.CaptureProperties | instrumentation/logback/logback-appender-1.0/library/src/main/java/io/opentelemetry/instrumentation/logback/appender/v1_0/internal/LoggingEventMapper.java:230-233 | the entry loop appends every entry, in iteration order |
| EventMapper.LoggingEventMapper.CaptureLoggerContext | instrumentation/logback/logback-appender-1.0/library/src/main/java/io/opentelemetry/instrumentation/logback/appender/v1_0/internal/LoggingEventMapper.java:390-395 | every logger-context property becomes a string attribute |
| EventMapper.ThreadWrites | instrumentation/logback/logback-appender-1.0/library/src/main/java/io/opentelemetry/instrumentation/logback/appender/v1_0/internal/LoggingEventMapper.java:153-158 | one write for the -1 sentinel, two otherwise |
| EventMapper.ThreadAttributes | instrumentation/logback/logback-appender-1.0/library/src/main/java/io/opentelemetry/instrumentation/logback/appender/v1_0/internal/LoggingEventMapper.java:153-158 | the thread name is always recorded; the thread id exactly when it is not -1, as a long with its value |
| EventMapper.LoggingEventMapper.CaptureThreadAttributes | instrumentation/logback/logback-appender-1.0/library/src/main/java/io/opentelemetry/instrumentation/logback/appender/v1_0/internal/LoggingEventMapper.java:153-158 | appends the thread attributes |
| EventMapper.CodeWrites | instrumentation/logback/logback-appender-1.0/library/src/main/java/io/opentelemetry/instrumentation/logback/appender/v1_0/internal/LoggingEventMapper.java:160-175 | nothing exactly when there is no caller data; at most four writes |
| EventMapper.CodeAttributes | instrumentation/logback/logback-appender-1.0/library/src/main/java/io/opentelemetry/instrumentation/logback/appender/v1_0/internal/LoggingEventMapper.java:160-175 | nothing without caller data; from the first frame: its file name exactly when it has one, its class and method names always, its line exactly when positive, as a long, each with the frame's value |
| EventMapper.LoggingEventMapper.CaptureCodeAttributes | instrumentation/logback/logback-appender-1.0/library/src/main/java/io/opentelemetry/instrumentation/logback/appender/v1_0/internal/LoggingEventMapper.java:160-175 | appends the code attributes of the first caller frame |
| EventMapper.MarkerAttributeWrites | instrumentation/logback/logback-appender-1.0/library/src/main/java/io/opentelemetry/instrumentation/logback/appender/v1_0/internal/LoggingEventMapper.java:416-452 | the multi-marker path only with the capability and more than one marker, writing the collected names unless none; otherwise the single marker's name unless absent or a skipped logstash marker; never an empty array |
| EventMapper.LoggingEventMapper.CaptureMarkerAttribute | instrumentation/logback/logback-appender-1.0/library/src/main/java/io/opentelemetry/instrumentation/logback/appender/v1_0/internal/LoggingEventMapper.java:416-423 | appends the marker attribute writes of the path the capability and list size choose |
| EventMapper.LoggingEventMapper.CaptureSingleMarkerAttribute | instrumentation/logback/logback-appender-1.0/library/src/main/java/io/opentelemetry/instrumentation/logback/appender/v1_0/internal/LoggingEventMapper.java:426-432 | writes the single marker's name as a one-element array unless it is absent or a skipped logstash marker |
| EventMapper.LoggingEventMapper.CaptureMultipleMarkerAttributes | instrumentation/logback/logback-appender-1.0/library/src/main/java/io/opentelemetry/instrumentation/logback/appender/v1_0/internal/LoggingEventMapper.java:435-446 | the loop collects the marker names (invariant: the names of the prefix) and writes them unless the list is empty |
| Markers.MarkerNames | instrumentation/logback/logback-appender-1.0/library/src/main/java/io/opentelemetry/instrumentation/logback/appender/v1_0/internal/LoggingEventMapper.java:435-441 | no more names than markers |
| Markers.MarkerNamesAppend | instrumentation/logback/logback-appender-1.0/library/src/main/java/io/opentelemetry/instrumentation/logback/appender/v1_0/internal/LoggingEventMapper.java:435-441 | name collection distributes over concatenation, so kept names keep their relative order |
| Markers.MarkerNamesContents | instrumentation/logback/logback-appender-1.0/library/src/main/java/io/opentelemetry/instrumentation/logback/appender/v1_0/internal/LoggingEventMapper.java:435-441 | without skipping every name in order; with skipping, the names of the non-logstash markers in list order, and no others |
| EventMapper.ArgumentAttributes | instrumentation/logback/logback-appender-1.0/library/src/main/java/io/opentelemetry/instrumentation/logback/appender/v1_0/internal/LoggingEventMapper.java:245-250 | the template under log.body.template exactly when it is non-null; log.body.parameters holds one String.valueOf per argument, in order, "null" for null |
| EventMapper.LoggingEventMapper.CaptureArguments | instrumentation/logback/logback-appender-1.0/library/src/main/java/io/opentelemetry/instrumentation/logback/appender/v1_0/internal/LoggingEventMapper.java:245-250 | appends the template, when non-null, and the parameters |
| EventMapper.LoggingEventMapper.CaptureKeyValuePairAttributes | instrumentation/logback/logback-appender-1.0/library/src/main/java/io/opentelemetry/instrumentation/logback/appender/v1_0/internal/LoggingEventMapper.java:286-294 | nothing for a null pair list, otherwise every pair coerced in order |
| Coercion.PairsWrites | instrumentation/logback/logback-appender-1.0/library/src/main/java/io/opentelemetry/instrumentation/logback/appender/v1_0/internal/LoggingEventMapper.java:286-294 | at most one attribute per pair |
| Coercion.PairsWritesAppend | instrumentation/logback/logback-appender-1.0/library/src/main/java/io/opentelemetry/instrumentation/logback/appender/v1_0/internal/LoggingEventMapper.java:286-294 | the writes for two runs of pairs are those of the first run followed by those of the second, so pairs are coerced in list order |
| Coercion.CapturePairs | instrumentation/logback/logback-appender-1.0/library/src/main/java/io/opentelemetry/instrumentation/logback/appender/v1_0/internal/LoggingEventMapper.java:289-292 | the pair loop appends each pair's coercion in order |
| Coercion.KeyValueWrites | instrumentation/logback/logback-appender-1.0/library/src/main/java/io/opentelemetry/instrumentation/logback/appender/v1_0/internal/LoggingEventMapper.java:296-362 | nothing for a null key or value; boolean, integral and floating scalars keep their kind; strings and other objects become String.valueOf; an array or collection writes nothing exactly when all its elements are null, and a collection otherwise writes its non-null elements, through String.valueOf, as one string array; the key is the key's string form |
| Coercion.IntegralWidensToLong | instrumentation/logback/logback-appender-1.0/library/src/main/java/io/opentelemetry/instrumentation/logback/appender/v1_0/internal/LoggingEventMapper.java:302-308 | a Byte, Short, Integer or Long is written as a long with the same value, which fits in 64 bits |
| Coercion.ArrayCoercion | instrumentation/logback/logback-appender-1.0/library/src/main/java/io/opentelemetry/instrumentation/logback/appender/v1_0/internal/LoggingEventMapper.java:311-350 | a typed array with a non-null element is written as the array of its non-null elements, converted by component type, of length input minus nulls |
| Coercion.CoercionRoundTrip | instrumentation/logback/logback-appender-1.0/library/src/main/java/io/opentelemetry/instrumentation/logback/appender/v1_0/internal/LoggingEventMapper.java:296-362 | every attribute value other than an empty array is what coercion writes for its canonical Java value |
| Coercion.CaptureKeyValueAttribute | instrumentation/logback/logback-appender-1.0/library/src/main/java/io/opentelemetry/instrumentation/logback/appender/v1_0/internal/LoggingEventMapper.java:296-362 | appends exactly what KeyValueWrites says |
| Coercion.NullCount | instrumentation/logback/logback-appender-1.0/library/src/main/java/io/opentelemetry/instrumentation/logback/appender/v1_0/internal/LoggingEventMapper.java:370-379 | the offset counter never exceeds the array length |
| Coercion.NonNulls | instrumentation/logback/logback-appender-1.0/library/src/main/java/io/opentelemetry/instrumentation/logback/appender/v1_0/internal/LoggingEventMapper.java:370-379 | the kept elements number length minus nulls and contain no null |
| Coercion.NonNullsMultiset | instrumentation/logback/logback-appender-1.0/library/src/main/java/io/opentelemetry/instrumentation/logback/appender/v1_0/internal/LoggingEventMapper.java:370-379 | compaction keeps every non-null element as often as it occurs and drops every null |
| Coercion.NonNullsEmpty | instrumentation/logback/logback-appender-1.0/library/src/main/java/io/opentelemetry/instrumentation/logback/appender/v1_0/internal/LoggingEventMapper.java:382-386 | compaction is empty exactly when every element is null, the empty array included |
| Coercion.FillTypedArray | instrumentation/logback/logback-appender-1.0/library/src/main/java/io/opentelemetry/instrumentation/logback/appender/v1_0/internal/LoggingEventMapper.java:370-380 | after the loop the offset is the number of nulls and the first length-offset cells are the extracted non-null elements in order |
| Coercion.ArrayWrites | instrumentation/logback/logback-appender-1.0/library/src/main/java/io/opentelemetry/instrumentation/logback/appender/v1_0/internal/LoggingEventMapper.java:382-387 | nothing exactly when no element survives, otherwise the compacted typed array under the key |
| Coercion.CaptureKeyArrayValueAttribute | instrumentation/logback/logback-appender-1.0/library/src/main/java/io/opentelemetry/instrumentation/logback/appender/v1_0/internal/LoggingEventMapper.java:364-388 | appends what ArrayWrites says, from the array the loop fills |
| EventMapper.LoggingEventMapper.CaptureLogstashAttributes | instrumentation/logback/logback-appender-1.0/library/src/main/java/io/opentelemetry/instrumentation/logback/appender/v1_0/internal/LoggingEventMapper.java:464-475 | traverses the marker list when the multi-marker path applies, otherwise the single marker when it is a logstash marker |
| Markers.Preorder | instrumentation/logback/logback-appender-1.0/library/src/main/java/io/opentelemetry/instrumentation/logback/appender/v1_0/internal/LoggingEventMapper.java:505-518 | the traversal visits the marker first and only logstash markers |
| Markers.LogstashWritesArePreorder | instrumentation/logback/logback-appender-1.0/library/src/main/java/io/opentelemetry/instrumentation/logback/appender/v1_0/internal/LoggingEventMapper.java:505-518 | the recursive traversal writes each visited marker's own fields, in depth-first pre-order |
| Markers.ListWritesArePreorder | instrumentation/logback/logback-appender-1.0/library/src/main/java/io/opentelemetry/instrumentation/logback/appender/v1_0/internal/LoggingEventMapper.java:494-502 | the iteration over a list writes the pre-order visits of its logstash markers, in list order |
| Markers.CaptureLogstashMarker | instrumentation/logback/logback-appender-1.0/library/src/main/java/io/opentelemetry/instrumentation/logback/appender/v1_0/internal/LoggingEventMapper.java:505-518 | a marker's own fields are written before its references, which are recursed into |
| Markers.CaptureLogstashMarkers | instrumentation/logback/logback-appender-1.0/library/src/main/java/io/opentelemetry/instrumentation/logback/appender/v1_0/internal/LoggingEventMapper.java:494-502 | the loop recurses into each logstash marker of the list, in order, and passes over the others |
| Markers.CaptureLogstashMarkerAttributes | instrumentation/logback/logback-appender-1.0/library/src/main/java/io/opentelemetry/instrumentation/logback/appender/v1_0/internal/LoggingEventMapper.java:521-541 | a single-field marker coerces its field, a map-entries marker every entry of a non-null map, any other marker writes nothing |
| Markers.NonLogstash | instrumentation/logback/logback-appender-1.0/library/src/main/java/io/opentelemetry/instrumentation/logback/appender/v1_0/internal/LoggingEventMapper.java:438-441 | the markers that are not logstash markers, in order: as many as the list minus its logstash markers, none of them a logstash marker |
| EventMapper.HasMultipleMarkers | instrumentation/logback/logback-appender-1.0/library/src/main/java/io/opentelemetry/instrumentation/logback/appender/v1_0/internal/LoggingEventMapper.java:448-452 | true exactly for a non-null list of more than one marker: true implies a non-null, non-empty list, at most one marker gives false, and more than one gives true |
| EventMapper.MapEvent | instrumentation/logback/logback-appender-1.0/library/src/main/java/io/opentelemetry/instrumentation/logback/appender/v1_0/internal/LoggingEventMapper.java:114-204 | the body is the formatted message; the timestamp is the event's instant when the runtime has one and the event carries it, otherwise its epoch milliseconds; with a level, the severity is that level's mapped severity and the severity text its name, and both are absent without one; the attributes are the steps' maps, each later step overriding the earlier ones |
| EventMapper.LogstashEventPreorder | instrumentation/logback/logback-appender-1.0/library/src/main/java/io/opentelemetry/instrumentation/logback/appender/v1_0/internal/LoggingEventMapper.java:464-502 | what the logstash step writes (LogstashEventWrites): on the multi-marker path the writes of the depth-first pre-order visit of the list's logstash markers; otherwise that of the single marker when it is a logstash marker; otherwise nothing |
| Markers.OwnFieldsFirst | instrumentation/logback/logback-appender-1.0/library/src/main/java/io/opentelemetry/instrumentation/logback/appender/v1_0/internal/LoggingEventMapper.java:505-518 | in the traversal of a logstash marker (LogstashWrites) the marker's own payload writes come first, before anything its references write |
| Markers.NoLogstashNoWrites | instrumentation/logback/logback-appender-1.0/library/src/main/java/io/opentelemetry/instrumentation/logback/appender/v1_0/internal/LoggingEventMapper.java:494-502 | iterating a list without logstash markers (LogstashListWrites) writes nothing |
| Markers.PayloadOutcomes | instrumentation/logback/logback-appender-1.0/library/src/main/java/io/opentelemetry/instrumentation/logback/appender/v1_0/internal/LoggingEventMapper.java:521-541 | a marker's own fields (PayloadWrites): a single-field marker writes at most one attribute, none for a null name or value; a map-entries marker at most one per entry of a non-null map; a null map or any other marker writes nothing |
| Coercion.ComponentArrayOutcomes | instrumentation/logback/logback-appender-1.0/library/src/main/java/io/opentelemetry/instrumentation/logback/appender/v1_0/internal/LoggingEventMapper.java:311-350 | the array dispatch (ComponentArrayWrites): nothing exactly when every element is null; otherwise one attribute under the key, the compacted elements as a boolean, long, double or string array according to the component type |
| Attributes.Collect | instrumentation/logback/logback-appender-1.0/library/src/main/java/io/opentelemetry/instrumentation/logback/appender/v1_0/internal/LoggingEventMapper.java:200 | the built attributes have exactly the keys written, the last write to a key deciding its value |
| Attributes.CollectAppend | instrumentation/logback/logback-appender-1.0/library/src/main/java/io/opentelemetry/instrumentation/logback/appender/v1_0/internal/LoggingEventMapper.java:200 | building the writes of two phases: the later phase overrides the earlier |
| Scenarios.MdcCaptureAllScenario | instrumentation/logback/logback-appender-1.0/library/src/main/java/io/opentelemetry/instrumentation/logback/appender/v1_0/internal/LoggingEventMapper.java:229-233 | MDC user=a42 with ["*"] gives the attribute user="a42" and nothing else |
| Scenarios.KeyValueLongScenario | instrumentation/logback/logback-appender-1.0/library/src/main/java/io/opentelemetry/instrumentation/logback/appender/v1_0/internal/LoggingEventMapper.java:302-308 | the pair ("retries", 3) gives the long attribute retries=3 |
| Scenarios.MarkerListScenario | instrumentation/logback/logback-appender-1.0/library/src/main/java/io/opentelemetry/instrumentation/logback/appender/v1_0/internal/LoggingEventMapper.java:435-446 | markers A and B give logback.marker=["A", "B"] |
| Scenarios.ArgumentsScenario | instrumentation/logback/logback-appender-1.0/library/src/main/java/io/opentelemetry/instrumentation/logback/appender/v1_0/internal/LoggingEventMapper.java:245-250 | arguments "x" and 7 give the template and the parameters ["x", "7"] |
| Scenarios.ExceptionScenario | instrumentation/logback/logback-appender-1.0/library/src/main/java/io/opentelemetry/instrumentation/logback/appender/v1_0/internal/LoggingEventMapper.java:256-264 | an IllegalStateException with message "bad state" gives exactly the three exception attributes |
| Scenarios.PlainEventScenario | instrumentation/logback/logback-appender-1.0/library/src/main/java/io/opentelemetry/instrumentation/logback/appender/v1_0/internal/LoggingEventMapper.java:102-133 | a plain INFO event: named scope, body, epoch-millis timestamp, INFO severity (number 9) and text, no attributes |

## Left out

- Capability probing by reflection (`supportsInstant`, `supportsKeyValuePairs`, `supportsMultipleMarkers`, `supportsLogstashMarkers`). The four results are fixed booleans passed to the constructor.
- Reflective extraction of logstash payloads (`extractFieldValue`, `extractMapValue`, `findValueField`) and its field cache. The extracted field value and map entries are inputs, absent when extraction finds nothing.
- The bounded key caches (`getMdcAttributeKey`, `getAttributeKey`). They only intern keys; a key is its name.
- Stack-trace rendering by `printStackTrace`. The rendered text is an input of the throwable.
- The logger provider, the log record builder's `emit`, `Context.current()` and the `Instant` value. The record is returned as a value; the timestamp records which source it came from.
- Floating-point widening and numerics. A double is an opaque value carrying its `String.valueOf` text.
- `ValueOf`: `String.valueOf` / `toString` of doubles, arrays, collections and other objects is the text the value carries, not computed.
- The catch of any `Throwable` in `captureLogstashAttributes`: the model's traversal cannot fail.
- The `Builder` setters and `builder()`. The configuration is the `Settings` record.
- The SDK builder's dropping of null values and empty key names. Only the null exception message is modelled, since a throwable's message can be null; MDC and logger-context values, thread names, marker names and caller-frame class and method names are non-null strings here. A null argument template is modelled: its `log.body.template` write is dropped while `log.body.parameters` is still written.
- Primitive and boxed arrays are told apart only by whether they may hold nulls.
- Logback's level constants (`Level.ALL_INT` … `Level.OFF_INT`) are taken from Logback, which is not part of this model.
- Cyclic marker references: markers form a finite tree here. On a cyclic reference graph `captureLogstashMarker` recurses until the stack overflows; the `StackOverflowError` is caught with every other `Throwable` in `captureLogstashAttributes`, so the step ends keeping the writes it made before the overflow. The model cannot represent such a graph or that partial outcome.
- The MDC and logger-context maps are given as their entries in iteration order. Where the named-keys MDC path looks a key up, the map is built from the entries with the last entry for a key winning.
- Severity monotonicity is stated over the named Logback levels only; OFF and unknown levels map to UNDEFINED, whose number 0 is below every other.
- The exception message is written only when present: `setThrowable` passes a possibly null message to `put`, which ignores null values, so fewer than three exception attributes can appear.
