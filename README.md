# Baseline application interface: bootstrap and event dispatch

A Dafny model of `BaselineAppInterface`, the bootstrap and request-dispatch
layer of a Java Lambda function that runs on an AWS Greengrass core. The model
covers three sequential procedures:

- **Module-list assembly with backend fallback** (`getBaselineModuleList`,
  `getInjector`). The Guice module list is the caller's modules, then
  `BaselineAppModule`, then exactly one communication backend. The backend is
  `GreengrassCommunicationModule`, or `DummyCommunicationModule` when building
  with the Greengrass backend raises `NoClassDefFoundError`. The injector is
  identified with the module list it is created from.
- **Bootstrap** (`initialize`). The region becomes the `aws.region` system
  property when it is known; otherwise a warning goes to standard error. The
  start event is posted in both cases. Then two timing messages are posted on
  `<thingName>/debug`. `Optional.get()` throws when the thing name is absent,
  which happens after the start event and before any message.
- **Invocation dispatch** (`handleBinaryRequest`, `handleJsonRequest`,
  `handleRequest`, `getTopic`). Each invocation posts exactly one
  `GreengrassLambdaEvent` whose topic is the context's `subject` attribute.
  There are two exceptions. A JSON input that is neither `null` nor a
  `LinkedHashMap` is logged and dropped. A binary input whose reading throws
  `IOException` posts nothing, and the exception propagates.

The process-wide Guava `EventBus` is an `EventBus` object whose `posted` field
is the append-only sequence of everything posted. Standard error and the
Lambda logger are `LogSink` objects with an append-only `lines` field. The JVM
system properties are a ghost map in a `SystemProperties` object.

Files:

- `wrappers.dfy`: `Option` and `Result`.
- `seqs.dfy`: counting the elements of a sequence that satisfy a predicate.
- `types.dfy`: modules, JSON values, contexts, events, exceptions, and the
  bus, log and property objects.
- `module_assembly.dfy`: the module list and the backend fallback.
- `baseline_app.dfy`: topics, `initialize` and the three handlers.

Two facts about the code that the contracts make explicit:

- The code does not filter the caller's modules, so a resolved list holds
  exactly one backend only when the caller supplied none.
  `ResolveAddsOneBackend` states the general fact: one backend more than the
  caller supplied.
- A `null` JSON input posts an event with neither a binary nor a JSON payload.

## Model

| member | source | states |
|---|---|---|
| `ModuleAssembly.Resolve` | foundation/CDDBaselineJava/src/main/java/com/timmattison/greengrass/cdd/BaselineAppInterface.java:28-39 | The injector's list keeps the caller's modules unchanged and in order, followed by the baseline module and then the Greengrass backend if it loads, else the stub backend. It fails with `NoClassDefFoundError` exactly when neither backend loads: there is no second fallback. |
| `ModuleAssembly.ResolveAddsOneBackend` | foundation/CDDBaselineJava/src/main/java/com/timmattison/greengrass/cdd/BaselineAppInterface.java:28-45 | A resolved list holds exactly one communication backend more than the caller's list. |
| `ModuleAssembly.ResolveExactlyOneBackend` | foundation/CDDBaselineJava/src/main/java/com/timmattison/greengrass/cdd/BaselineAppInterface.java:28-45 | If the caller supplies no backend, the resolved list holds exactly one backend, and it is the last module. |
| `ModuleAssembly.GetBaselineModuleList` | foundation/CDDBaselineJava/src/main/java/com/timmattison/greengrass/cdd/BaselineAppInterface.java:41-45 | Returns a freshly allocated list (so the caller's list is never modified): the caller's modules followed by one `BaselineAppModule`. |
| `ModuleAssembly.ModuleList.Copy` | foundation/CDDBaselineJava/src/main/java/com/timmattison/greengrass/cdd/BaselineAppInterface.java:42 | The copy constructor's list holds the source modules, in order. |
| `ModuleAssembly.ModuleList.Add` | foundation/CDDBaselineJava/src/main/java/com/timmattison/greengrass/cdd/BaselineAppInterface.java:43 | Adding appends one module at the end and leaves the earlier modules as they were (also the adds at lines 31 and 36). |
| `ModuleAssembly.GetInjector` | foundation/CDDBaselineJava/src/main/java/com/timmattison/greengrass/cdd/BaselineAppInterface.java:28-39 | The try path followed by the catch path, which rebuilds the list and discards the first one, yields exactly `Resolve` of the caller's modules. |
| `Types.EventBus.Post` | foundation/CDDBaselineJava/src/main/java/com/timmattison/greengrass/cdd/BaselineAppInterface.java:26 | Posting appends the event to the bus's log and changes nothing else. |
| `Types.SystemProperties.SetProperty` | foundation/CDDBaselineJava/src/main/java/com/timmattison/greengrass/cdd/BaselineAppInterface.java:61 | Setting a property maps the key to the value and leaves every other key as it was. |
| `Types.LogSink.Log` | foundation/CDDBaselineJava/src/main/java/com/timmattison/greengrass/cdd/BaselineAppInterface.java:111 | Logging appends one line. |
| `BaselineApp.GetTopic` | foundation/CDDBaselineJava/src/main/java/com/timmattison/greengrass/cdd/BaselineAppInterface.java:88-90 | The topic is present exactly when the context's custom attributes hold `subject`, and then equals that attribute. |
| `BaselineApp.DebugTopic` | foundation/CDDBaselineJava/src/main/java/com/timmattison/greengrass/cdd/BaselineAppInterface.java:66 | The diagnostic topic is the thing name followed by `/debug`. |
| `BaselineApp.InitializeEvents` | foundation/CDDBaselineJava/src/main/java/com/timmattison/greengrass/cdd/BaselineAppInterface.java:63-68 | Once the injector exists, `initialize` posts the start event first. Then, only when the thing name is known, it posts two messages on its debug topic: the injector timing, then the total initialization timing. |
| `BaselineApp.InitializeStartsOnce` | foundation/CDDBaselineJava/src/main/java/com/timmattison/greengrass/cdd/BaselineAppInterface.java:63-68 | The bootstrap posts exactly one start event. Every other event it posts is a message, and no message comes before the start event. |
| `BaselineApp.Initialize` | foundation/CDDBaselineJava/src/main/java/com/timmattison/greengrass/cdd/BaselineAppInterface.java:47-69 | If the injector fails, it throws and changes nothing. Otherwise `aws.region` is set exactly when the region is known, with a warning on standard error exactly when it is not. The bus receives `InitializeEvents` in whichever case, and the method throws `NoSuchElementException` exactly when the thing name is absent. |
| `BaselineApp.BinaryEvent` | foundation/CDDBaselineJava/src/main/java/com/timmattison/greengrass/cdd/BaselineAppInterface.java:75-81 | A binary invocation's event carries the bytes read, no JSON input and the output stream as given (empty for a `null` stream). Its topic is the `subject` attribute, absent when that is missing. It also carries the context and its logger. |
| `BaselineApp.JsonEvent` | foundation/CDDBaselineJava/src/main/java/com/timmattison/greengrass/cdd/BaselineAppInterface.java:118-123 | A JSON invocation's event carries the map payload (if any), no binary input and no output stream. Its topic is the `subject` attribute, absent when that is missing. It also carries the context and its logger. |
| `BaselineApp.ClassifyJson` | foundation/CDDBaselineJava/src/main/java/com/timmattison/greengrass/cdd/BaselineAppInterface.java:107-116 | An input is dropped exactly when it is neither `null` nor a map. An accepted input has an empty payload exactly when it is `null`, and a map input is carried as is. |
| `BaselineApp.DispatchedEventsIdentifyInvocation` | foundation/CDDBaselineJava/src/main/java/com/timmattison/greengrass/cdd/BaselineAppInterface.java:75-123 | A binary-path event never equals a JSON-path event. Each path's event determines the payload, output stream and context it was built from. |
| `BaselineApp.HandleBinaryRequest` | foundation/CDDBaselineJava/src/main/java/com/timmattison/greengrass/cdd/BaselineAppInterface.java:71-86 | When the input is read, exactly one `BinaryEvent` is appended to the bus. When reading fails, `IOException` propagates and nothing is posted. |
| `BaselineApp.HandleJsonRequest` | foundation/CDDBaselineJava/src/main/java/com/timmattison/greengrass/cdd/BaselineAppInterface.java:103-128 | Always returns `""`. A rejected input logs "Input could not be converted to a hashmap" and leaves the bus unchanged. An accepted input appends exactly one `JsonEvent` and logs nothing. |
| `BaselineApp.HandleRequest` | foundation/CDDBaselineJava/src/main/java/com/timmattison/greengrass/cdd/BaselineAppInterface.java:99-101 | Has the same result, bus effect and log effect as `HandleJsonRequest`. |

## Left out

- Guice's `createInjector` and `getInstance` (reflective dependency resolution). The injector is its module list. The `EnvironmentProvider` it would supply is an input giving the region and the thing name.
- Where exactly `NoClassDefFoundError` arises (module construction or injector creation) is not modelled: two booleans say whether each backend path gets past class loading. Other exceptions from Guice, and a failure to build `BaselineAppModule`, are not modelled.
- Guava `EventBus` delivery to subscribers, the subscriber registry, and failures inside subscribers. Posting only appends to the bus's log.
- `IOUtils.toByteArray` and the streams. The input stream is its bytes plus a flag saying whether reading fails. The output stream is an opaque handle, or `None` for `null`.
- A `null` input stream, on which `IOUtils.toByteArray` throws `NullPointerException`: the input stream always exists here, and only an `IOException` read failure is modelled.
- `Instant.now()` and `Duration.toString()`. The three clock readings are inputs. A timing message carries its fixed prefix and the difference of two readings, not the formatted text.
- The handler's `Object` input is modelled as the value the Lambda runtime deserialises from JSON: `null`, a `LinkedHashMap` for an object, or another value. A Java caller passing a `HashMap`, `TreeMap` or other non-`LinkedHashMap` map directly has no value of its own here; the source drops it exactly as it drops the other non-map values (`ClassifyJson`'s rejected case).
- The JSON map payload is a sequence of key/value entries; the model does not enforce that keys are distinct, as a `LinkedHashMap` guarantees.
- A `null` context, client context or custom-attribute map (a `NullPointerException` in the source), and a `subject` attribute mapped to `null`.
- Concurrent invocations of the handlers, and the ordering between `initialize` and the handlers. Every operation here runs alone.
- The real JVM system properties beyond the ghost map, and all other standard-error output.
