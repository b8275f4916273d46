/** The data the bootstrap and dispatch code works on: configuration
    modules, invocation payloads and contexts, the events posted on the
    bus, and the mutable sinks (bus, logs, system properties). */
module Types {
  import opened Wrappers

  type byte = bv8

  /** A Guice configuration module. Caller-supplied modules are opaque;
      the three modules the bootstrap itself creates are named. */
  datatype Module =
    | Custom(name: string)
    | BaselineAppModule
    | GreengrassCommunicationModule
    | DummyCommunicationModule
  {
    /** A communication backend: the real Greengrass one or the stub. */
    predicate IsBackend() {
      GreengrassCommunicationModule? || DummyCommunicationModule?
    }
  }

  /** The Java exceptions that can leave the modelled operations. */
  datatype Exception =
    | NoClassDefFoundError    // managed-runtime classes missing on the stub path too
    | NoSuchElementException  // `Optional.get()` on an absent thing name
    | IOException             // reading the binary input stream failed

  /** Completion of a `void` Java method: normal return or a thrown exception. */
  datatype Status = Completed | Threw(exception: Exception)

  /** A value as the Lambda runtime deserialises a JSON invocation into a
      Java `Object`: `null`, a `LinkedHashMap` for a JSON object (keys in
      document order, each key once), or some other object. */
  datatype Json =
    | JNull
    | JBool(b: bool)
    | JNumber(literal: string)
    | JString(s: string)
    | JArray(elements: seq<Json>)
    | JObject(members: seq<(string, Json)>)

  /** The key-ordered map carried by a JSON invocation event: entries in
      insertion order. A `LinkedHashMap` holds each key at most once; this
      type does not enforce that, and no operation here depends on it. */
  type JsonMap = seq<(string, Json)>

  /** An opaque handle on the invocation's output stream. */
  datatype OutputStream = OutputStream(id: nat)

  /** An append-only log: the Lambda logger, or standard error. */
  class LogSink {
    var lines: seq<string>

    constructor ()
      ensures lines == []
    {
      lines := [];
    }

    method Log(line: string)
      modifies this
      ensures lines == old(lines) + [line]
    {
      lines := lines + [line];
    }
  }

  /** The Lambda invocation context: the client context's custom
      attributes and the logger. */
  datatype Context = Context(custom: map<string, string>, logger: LogSink)

  /** Diagnostic text: a fixed prefix and an elapsed time in the clock's unit. */
  datatype Message = Elapsed(prefix: string, elapsed: int)

  /** Events posted on the bus. */
  datatype Event =
    | GreengrassStartEvent
    | PublishMessageEvent(messageTopic: string, message: Message)
    | GreengrassLambdaEvent(
        binaryInput: Option<seq<byte>>,
        jsonInput: Option<JsonMap>,
        topic: Option<string>,
        context: Context,
        logger: LogSink,
        outputStream: Option<OutputStream>)

  /** The process-wide event bus, seen as the sequence of everything posted
      to it; delivery to subscribers happens outside this model. */
  class EventBus {
    var posted: seq<Event>

    constructor ()
      ensures posted == []
    {
      posted := [];
    }

    method Post(e: Event)
      modifies this
      ensures posted == old(posted) + [e]
    {
      posted := posted + [e];
    }
  }

  /** The JVM's system properties. */
  class SystemProperties {
    ghost var values: map<string, string>

    constructor ()
      ensures values == map[]
    {
      values := map[];
    }

    method SetProperty(key: string, value: string)
      modifies this
      ensures values == old(values)[key := value]
    {
      values := values[key := value];
    }
  }
}
