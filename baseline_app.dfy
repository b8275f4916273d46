/** The static bootstrap (`initialize`) and the Lambda entry points
    (`handleBinaryRequest`, `handleJsonRequest`, `handleRequest`) of the
    baseline application interface. Every event goes to one `EventBus`
    object passed by reference, standing for the interface's static bus. */
module BaselineApp {
  import opened Wrappers
  import opened Seqs
  import opened Types
  import opened ModuleAssembly

  const SubjectAttribute := "subject"
  const RegionProperty := "aws.region"
  const RegionWarning :=
    "Could not determine the region for this core.  aws.region system property not set.  TES may not work."
  const NotAMapMessage := "Input could not be converted to a hashmap"
  const InjectorTimingPrefix := "Injector instantiation took: "
  const InitializationTimingPrefix := "Initialization took: "

  /** What the injector's `EnvironmentProvider` reports. */
  datatype Environment = Environment(region: Option<string>, thingName: Option<string>)

  /** The three clock readings `initialize` takes: at entry, after the
      injector is built, and after the start event is posted. */
  datatype Clock = Clock(initializeStart: int, injectorEnd: int, initializeEnd: int)

  /** The binary input stream: its bytes, and whether reading it fails. */
  datatype InputStream = InputStream(contents: seq<byte>, readFails: bool)

  /** How `handleJsonRequest` sorts its input: dropped, or dispatched with
      an optional map payload. */
  datatype Classification = Rejected | Accepted(payload: Option<JsonMap>)

  // ---------------------------------------------------------------------
  // Topics

  /** `getTopic`: the `subject` custom attribute, absent when not set. */
  function GetTopic(ctx: Context): (topic: Option<string>)
    ensures topic.Some? <==> SubjectAttribute in ctx.custom
    ensures topic.Some? ==> topic.value == ctx.custom[SubjectAttribute]
  {
    if SubjectAttribute in ctx.custom then Some(ctx.custom[SubjectAttribute]) else None
  }

  /** The diagnostic topic, `String.join("/", thingName, "debug")`. */
  function DebugTopic(thingName: string): (topic: string)
    ensures |topic| == |thingName| + 6
    ensures topic[..|thingName|] == thingName
    ensures topic[|thingName|..] == "/debug"
  {
    thingName + "/" + "debug"
  }

  // ---------------------------------------------------------------------
  // Bootstrap

  /** The events `initialize` posts once the injector exists: the start
      event, then, only when the thing name is known, the two timing
      messages on the debug topic. */
  function InitializeEvents(thingName: Option<string>, clock: Clock): (events: seq<Event>)
    ensures |events| == if thingName.Some? then 3 else 1
    ensures events[0] == GreengrassStartEvent
    ensures forall i :: 1 <= i < |events| ==>
      events[i].PublishMessageEvent? && events[i].messageTopic == DebugTopic(thingName.value)
    ensures thingName.Some? ==>
      && events[1].message == Elapsed(InjectorTimingPrefix, clock.injectorEnd - clock.initializeStart)
      && events[2].message == Elapsed(InitializationTimingPrefix, clock.initializeEnd - clock.initializeStart)
  {
    match thingName
    case None => [GreengrassStartEvent]
    case Some(name) =>
      var debugTopic := DebugTopic(name);
      [ GreengrassStartEvent,
        PublishMessageEvent(debugTopic, Elapsed(InjectorTimingPrefix, clock.injectorEnd - clock.initializeStart)),
        PublishMessageEvent(debugTopic, Elapsed(InitializationTimingPrefix, clock.initializeEnd - clock.initializeStart)) ]
  }

  predicate IsStart(e: Event) { e.GreengrassStartEvent? }

  predicate IsMessage(e: Event) { e.PublishMessageEvent? }

  /** Exactly one start event, every message after it, whatever the region. */
  lemma InitializeStartsOnce(thingName: Option<string>, clock: Clock)
    ensures var events := InitializeEvents(thingName, clock);
      && Count(events, IsStart) == 1
      && Count(events, IsMessage) == |events| - 1
      && forall i :: 0 <= i < |events| && IsMessage(events[i]) ==> 0 < i
  {
  }

  /** `initialize`: build the injector, publish the region as the
      `aws.region` property if known (a warning on standard error
      otherwise), post the start event, then the two timing messages on
      `<thingName>/debug`; `Optional.get()` throws when the thing name is
      absent, after the start event. */
  method Initialize(callers: ModuleList, rt: Runtime, env: Environment, clock: Clock,
                    bus: EventBus, props: SystemProperties, stderr: LogSink)
    returns (status: Status)
    modifies bus, props, stderr
    ensures Resolve(callers.items, rt).Failure? ==>
      && status == Threw(NoClassDefFoundError)
      && bus.posted == old(bus.posted)
      && props.values == old(props.values)
      && stderr.lines == old(stderr.lines)
    ensures Resolve(callers.items, rt).Success? ==>
      && props.values == (if env.region.Some? then old(props.values)[RegionProperty := env.region.value]
                          else old(props.values))
      && stderr.lines == old(stderr.lines) + (if env.region.Some? then [] else [RegionWarning])
      && bus.posted == old(bus.posted) + InitializeEvents(env.thingName, clock)
      && status == (if env.thingName.Some? then Completed else Threw(NoSuchElementException))
  {
    var injector := GetInjector(callers, rt);
    if injector.Failure? {
      return Threw(injector.error);
    }
    var region := env.region;
    if region.None? {
      stderr.Log(RegionWarning);
    }
    if region.Some? {
      props.SetProperty(RegionProperty, region.value);
    }
    bus.Post(GreengrassStartEvent);
    if env.thingName.None? {
      return Threw(NoSuchElementException);
    }
    var debugTopic := DebugTopic(env.thingName.value);
    bus.Post(PublishMessageEvent(debugTopic, Elapsed(InjectorTimingPrefix, clock.injectorEnd - clock.initializeStart)));
    bus.Post(PublishMessageEvent(debugTopic, Elapsed(InitializationTimingPrefix, clock.initializeEnd - clock.initializeStart)));
    return Completed;
  }

  // ---------------------------------------------------------------------
  // Invocation dispatch

  /** The event built for a binary invocation; a `null` output stream is
      `None` and is carried as an empty `outputStream`. */
  function BinaryEvent(input: seq<byte>, output: Option<OutputStream>, ctx: Context): (e: Event)
    ensures e.GreengrassLambdaEvent?
    ensures e.binaryInput == Some(input) && e.jsonInput.None?
    ensures e.outputStream == output
    ensures e.topic.Some? <==> SubjectAttribute in ctx.custom
    ensures e.topic.Some? ==> e.topic.value == ctx.custom[SubjectAttribute]
    ensures e.context == ctx && e.logger == ctx.logger
  {
    GreengrassLambdaEvent(Some(input), None, GetTopic(ctx), ctx, ctx.logger, output)
  }

  /** The event built for an accepted JSON invocation. */
  function JsonEvent(payload: Option<JsonMap>, ctx: Context): (e: Event)
    ensures e.GreengrassLambdaEvent?
    ensures e.jsonInput == payload && e.binaryInput.None?
    ensures e.outputStream.None?
    ensures e.topic.Some? <==> SubjectAttribute in ctx.custom
    ensures e.topic.Some? ==> e.topic.value == ctx.custom[SubjectAttribute]
    ensures e.context == ctx && e.logger == ctx.logger
  {
    GreengrassLambdaEvent(None, payload, GetTopic(ctx), ctx, ctx.logger, None)
  }

  /** Sorting the JSON handler's input: `null` and `LinkedHashMap` are
      dispatched, everything else is dropped. */
  function ClassifyJson(input: Json): (c: Classification)
    ensures c.Rejected? <==> !input.JNull? && !input.JObject?
    ensures c.Accepted? ==> (c.payload.None? <==> input.JNull?)
    ensures input.JObject? ==> c == Accepted(Some(input.members))
  {
    match input
    case JNull => Accepted(None)
    case JObject(members) => Accepted(Some(members))
    case _ => Rejected
  }

  /** A subscriber can tell which entry point an invocation came through,
      and recover the invocation from the event. */
  lemma DispatchedEventsIdentifyInvocation(
    input: seq<byte>, output: Option<OutputStream>, ctx: Context,
    payload: Option<JsonMap>, ctx': Context)
    ensures BinaryEvent(input, output, ctx) != JsonEvent(payload, ctx')
    ensures forall input2, output2, ctx2 ::
      BinaryEvent(input, output, ctx) == BinaryEvent(input2, output2, ctx2) ==>
        input == input2 && output == output2 && ctx == ctx2
    ensures forall payload2, ctx2 ::
      JsonEvent(payload, ctx') == JsonEvent(payload2, ctx2) ==> payload == payload2 && ctx' == ctx2
  {
  }

  /** `handleBinaryRequest`: read the whole input, then post exactly one
      event; a read failure propagates and nothing is posted. */
  method HandleBinaryRequest(input: InputStream, output: Option<OutputStream>, ctx: Context, bus: EventBus)
    returns (status: Status)
    modifies bus
    ensures input.readFails ==> status == Threw(IOException) && bus.posted == old(bus.posted)
    ensures !input.readFails ==>
      status == Completed && bus.posted == old(bus.posted) + [BinaryEvent(input.contents, output, ctx)]
  {
    if input.readFails {
      return Threw(IOException);
    }
    var bytes := input.contents;
    var topic := GetTopic(ctx);
    var event := GreengrassLambdaEvent(Some(bytes), None, topic, ctx, ctx.logger, output);
    bus.Post(event);
    return Completed;
  }

  /** `handleJsonRequest`: always answers the empty string; a rejected
      input is logged and posts nothing, an accepted one posts exactly one
      event and logs nothing. */
  method HandleJsonRequest(input: Json, ctx: Context, bus: EventBus) returns (r: string)
    modifies bus, ctx.logger
    ensures r == ""
    ensures ClassifyJson(input).Rejected? ==>
      && bus.posted == old(bus.posted)
      && ctx.logger.lines == old(ctx.logger.lines) + [NotAMapMessage]
    ensures ClassifyJson(input).Accepted? ==>
      && bus.posted == old(bus.posted) + [JsonEvent(ClassifyJson(input).payload, ctx)]
      && ctx.logger.lines == old(ctx.logger.lines)
  {
    var logger := ctx.logger;
    var topic := GetTopic(ctx);
    var payload: Option<JsonMap> := None;
    if !input.JNull? {
      if !input.JObject? {
        logger.Log(NotAMapMessage);
        return "";
      }
      payload := Some(input.members);
    }
    var event := GreengrassLambdaEvent(None, payload, topic, ctx, ctx.logger, None);
    bus.Post(event);
    return "";
  }

  /** `handleRequest`: the legacy entry point, the JSON handler itself. */
  method HandleRequest(input: Json, ctx: Context, bus: EventBus) returns (r: string)
    modifies bus, ctx.logger
    ensures r == ""
    ensures ClassifyJson(input).Rejected? ==>
      && bus.posted == old(bus.posted)
      && ctx.logger.lines == old(ctx.logger.lines) + [NotAMapMessage]
    ensures ClassifyJson(input).Accepted? ==>
      && bus.posted == old(bus.posted) + [JsonEvent(ClassifyJson(input).payload, ctx)]
      && ctx.logger.lines == old(ctx.logger.lines)
  {
    r := HandleJsonRequest(input, ctx, bus);
  }
}
