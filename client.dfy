/** Client construction and the per-call execution pipeline of the
    asynchronous client: the rules that assemble a client's arguments, the
    generation of the client class, the call sequence (serialize, before-call
    hook, dispatch, after-call hook, classify) and the paginator guard.
    (cloud/asyncbotocore/client.py)

    botocore's collaborators are abstract here: the endpoint resolver, the
    request serializer, the HTTP endpoint, method generation and the
    pageability test are function values handed in by the caller; hook
    handlers are not modelled, so an emitted event only records its payload. */
module Client {
  import opened Values
  import Config

  type Params = map<string, Value>
  type RequestDict = map<string, Value>
  type Body = map<string, Value>
  type PageConfig = map<string, Value>

  datatype OperationModel = OperationModel(name: string, hasStreamingInput: bool)

  /** The service description, as far as this layer consults it. */
  datatype ServiceModel = ServiceModel(endpointPrefix: string, protocol: string, operations: map<string, OperationModel>)

  /** The attributes of the caller's client configuration read while
      assembling a client. */
  datatype ClientConfig = ClientConfig(
    parameterValidation: bool,
    userAgent: Option<string>,
    userAgentExtra: Option<string>,
    connectTimeout: Value,
    readTimeout: Value)

  /** What the endpoint resolver returns. */
  datatype EndpointConfig = EndpointConfig(
    regionName: Option<string>,
    endpointUrl: string,
    signingRegion: Option<string>,
    signingName: string,
    signatureVersion: string)

  function StrOrNone(s: Option<string>): Value {
    match s
    case Some(x) => Str(x)
    case None => NoneValue
  }

  // ---------------------------------------------------------------------
  // Decision rules of client construction

  const PARAMETER_VALIDATION := "parameter_validation"

  /** Whether request parameters are validated: off when an explicit
      configuration turns the flag off; otherwise, when a non-empty scoped
      configuration is present, off when its parameter_validation entry (the
      empty string if missing) reads as "false". So a scoped "false" disables
      validation even when an explicit configuration leaves the flag on. */
  function ParameterValidation(clientConfig: Option<ClientConfig>, scopedConfig: Option<map<string, Value>>): (enabled: bool)
    ensures !enabled <==>
      (clientConfig.Some? && !clientConfig.value.parameterValidation)
      || (scopedConfig.Some? && PARAMETER_VALIDATION in scopedConfig.value
          && StrIsFalse(scopedConfig.value[PARAMETER_VALIDATION]))
  {
    if clientConfig.Some? && !clientConfig.value.parameterValidation then false
    else if scopedConfig.Some? && |scopedConfig.value| > 0 then
      var rawValue := Get(scopedConfig.value, PARAMETER_VALIDATION, Str(""));
      !StrIsFalse(rawValue)
    else true
  }

  /** A scoped value disables validation exactly when it is a string spelling
      "false" in any mix of upper and lower case. */
  lemma ScopedStringDisables(clientConfig: Option<ClientConfig>, s: string)
    ensures !ParameterValidation(clientConfig, Some(map[PARAMETER_VALIDATION := Str(s)]))
            <==> (clientConfig.Some? && !clientConfig.value.parameterValidation) || MatchesIgnoringCase(s, "false")
  {
  }

  /** The user agent before the extra suffix: the configured one replaces the
      default. */
  function BaseUserAgent(default: string, clientConfig: Option<ClientConfig>): string {
    if clientConfig.Some? && clientConfig.value.userAgent.Some? then clientConfig.value.userAgent.value else default
  }

  function UserAgentExtra(clientConfig: Option<ClientConfig>): Option<string> {
    if clientConfig.Some? then clientConfig.value.userAgentExtra else None
  }

  /** The effective user agent: the base, then the extra suffix after exactly
      one space when one is configured, whether or not the base was replaced. */
  function UserAgent(default: string, clientConfig: Option<ClientConfig>): (ua: string)
    ensures BaseUserAgent(default, clientConfig) <= ua
    ensures UserAgentExtra(clientConfig).None? ==> ua == BaseUserAgent(default, clientConfig)
    ensures UserAgentExtra(clientConfig).Some? ==>
      var n := |BaseUserAgent(default, clientConfig)|;
      |ua| == n + 1 + |UserAgentExtra(clientConfig).value|
      && ua[n] == ' ' && ua[n + 1..] == UserAgentExtra(clientConfig).value
  {
    match clientConfig
    case None => default
    case Some(config) =>
      var replaced := if config.userAgent.Some? then config.userAgent.value else default;
      if config.userAgentExtra.Some? then
        var ua := replaced + " " + config.userAgentExtra.value;
        assert ua[..|replaced|] == replaced;
        assert ua[|replaced| + 1..] == config.userAgentExtra.value;
        ua
      else replaced
  }

  /** The keyword options of the client's new configuration: the resolved
      region and signature version and the effective user agent always, the
      timeouts only when an explicit configuration was given, and the S3
      settings when botocore's S3 hook resolved any. */
  function ConfigKwargs(resolved: EndpointConfig, userAgent: string, clientConfig: Option<ClientConfig>, s3: Option<Value>): (kwargs: map<string, Value>)
    ensures kwargs.Keys == {"region_name", "signature_version", "user_agent"}
                           + (if clientConfig.Some? then {"connect_timeout", "read_timeout"} else {})
                           + (if s3.Some? then {"s3"} else {})
    ensures kwargs["region_name"] == StrOrNone(resolved.regionName)
    ensures kwargs["signature_version"] == Str(resolved.signatureVersion)
    ensures kwargs["user_agent"] == Str(userAgent)
    ensures clientConfig.Some? ==> kwargs["connect_timeout"] == clientConfig.value.connectTimeout
                                   && kwargs["read_timeout"] == clientConfig.value.readTimeout
    ensures clientConfig.None? ==> "connect_timeout" !in kwargs && "read_timeout" !in kwargs
    ensures s3.Some? ==> kwargs["s3"] == s3.value
  {
    var base := map["region_name" := StrOrNone(resolved.regionName),
                     "signature_version" := Str(resolved.signatureVersion),
                     "user_agent" := Str(userAgent)];
    var timed := if clientConfig.Some? then
        base["connect_timeout" := clientConfig.value.connectTimeout]["read_timeout" := clientConfig.value.readTimeout]
      else base;
    if s3.Some? then timed["s3" := s3.value] else timed
  }

  // ---------------------------------------------------------------------
  // Events

  const BEFORE_CALL := "before-call"
  const AFTER_CALL := "after-call"
  const CREATING_CLIENT_CLASS := "creating-client-class"
  const PY_TO_OP_NAME := "_PY_TO_OP_NAME"

  /** "<kind>.<endpoint prefix>.<operation>" */
  function CallEventName(kind: string, prefix: string, op: string): string {
    kind + "." + prefix + "." + op
  }

  /** An attribute of a generated client class. */
  datatype Attr = ApiMethod(operationName: string) | NameMapping(pyToOp: map<string, string>) | Attribute(h: Handle)

  datatype BaseClass = AsyncBaseClientClass

  /** A generated client class: its name, bases and attributes. */
  datatype ClientClass = ClientClass(name: string, bases: seq<BaseClass>, attributes: map<string, Attr>)

  datatype Serializer = Serializer(protocol: string, validateParams: bool)

  datatype Parser = Parser(protocol: string)

  datatype RequestSigner = RequestSigner(
    serviceName: string,
    signingRegion: Option<string>,
    signingName: string,
    signatureVersion: string,
    credentials: Handle,
    emitter: EventEmitter)

  /** The arguments an HTTP endpoint is created with. */
  datatype EndpointArgs = EndpointArgs(
    httpSession: Handle,
    emitter: EventEmitter,
    serviceModel: ServiceModel,
    regionName: Option<string>,
    endpointUrl: string,
    verify: Value,
    responseParserFactory: Handle,
    timeout: (Option<Value>, Option<Value>))

  /** The request context of one call. */
  datatype RequestContext = RequestContext(clientRegion: Option<string>, clientConfig: Config.AsyncConfig, hasStreamingInput: bool)

  datatype HttpResponse = HttpResponse(statusCode: int)

  /** What the endpoint's make_request yields: a completed exchange, or a
      transport fault that propagates as an exception. */
  datatype Response = Completed(http: HttpResponse, parsed: Body) | Fault(reason: string)

  datatype Event =
    | CreatingClientClass(name: string, classAttributes: map<string, Attr>, baseClasses: seq<BaseClass>)
    | BeforeCall(name: string, model: OperationModel, params: RequestDict, requestSigner: RequestSigner, context: RequestContext)
    | AfterCall(name: string, httpResponse: HttpResponse, parsed: Body, model: OperationModel, context: RequestContext)

  /** The observable steps, in the order they happen, of everything done
      through one emitter and the endpoint built with it: hook events and
      dispatches. */
  class CallTrace {
    ghost var steps: seq<Step>

    constructor ()
      ensures steps == []
    {
      steps := [];
    }
  }

  /** The hook registry. Handlers are opaque; log records what was emitted
      through this emitter, trace the shared sequence of steps. */
  class EventEmitter {
    var handlers: seq<(string, Handle)>
    ghost var log: seq<Event>
    ghost const trace: CallTrace

    constructor (handlers: seq<(string, Handle)>, ghost trace: CallTrace)
      ensures this.handlers == handlers && log == [] && this.trace == trace
    {
      this.handlers := handlers;
      log := [];
      this.trace := trace;
    }

    method Emit(e: Event)
      modifies this`log, trace
      ensures log == old(log) + [e]
      ensures trace.steps == old(trace.steps) + [Emitted(e)]
    {
      log := log + [e];
      trace.steps := trace.steps + [Emitted(e)];
    }

    /** copy.copy(emitter): the same registrations in a separate object, so
        that changes to the copy do not reach this emitter. */
    method Copy() returns (c: EventEmitter)
      ensures fresh(c) && c.handlers == handlers && c.log == [] && c.trace == trace
    {
      c := new EventEmitter(handlers, trace);
    }
  }

  // ---------------------------------------------------------------------
  // Client factory

  /** The bundle a client is constructed from: exactly these eight parts. */
  datatype ClientArgs = ClientArgs(
    serializer: Serializer,
    endpoint: EndpointArgs,
    responseParser: Parser,
    eventEmitter: EventEmitter,
    requestSigner: RequestSigner,
    serviceModel: ServiceModel,
    loader: Handle,
    clientConfig: Config.AsyncConfig)

  type EndpointResolver = (string, Option<string>, Option<string>, bool) -> EndpointConfig

  class AsyncClientCreator {
    const httpSession: Handle
    const eventEmitter: EventEmitter
    const userAgent: string
    const loader: Handle
    const responseParserFactory: Handle
    /** botocore's _create_methods: the generated methods by Python name. */
    const createMethods: ServiceModel -> map<string, Attr>
    /** botocore's _create_name_mapping: Python name to operation name. */
    const createNameMapping: ServiceModel -> map<string, string>
    /** botocore's get_service_module_name. */
    const serviceModuleName: ServiceModel -> string

    constructor (httpSession: Handle, eventEmitter: EventEmitter, userAgent: string, loader: Handle,
                 responseParserFactory: Handle, createMethods: ServiceModel -> map<string, Attr>,
                 createNameMapping: ServiceModel -> map<string, string>, serviceModuleName: ServiceModel -> string)
      ensures this.httpSession == httpSession && this.eventEmitter == eventEmitter && this.userAgent == userAgent
      ensures this.loader == loader && this.responseParserFactory == responseParserFactory
      ensures this.createMethods == createMethods && this.createNameMapping == createNameMapping
      ensures this.serviceModuleName == serviceModuleName
    {
      this.httpSession := httpSession;
      this.eventEmitter := eventEmitter;
      this.userAgent := userAgent;
      this.loader := loader;
      this.responseParserFactory := responseParserFactory;
      this.createMethods := createMethods;
      this.createNameMapping := createNameMapping;
      this.serviceModuleName := serviceModuleName;
    }

    /** The configuration _get_client_args builds for the new client: its
        keyword options, and no connector options beyond the default. */
    static method NewClientConfig(endpointConfig: EndpointConfig, ua: string, clientConfig: Option<ClientConfig>,
                                  s3Configuration: Option<Value>)
      returns (newConfig: Config.AsyncConfig)
      ensures fresh(newConfig) && newConfig.Valid()
      ensures fresh(newConfig.connectorArgs)
      ensures newConfig.userProvidedOptions == ConfigKwargs(endpointConfig, ua, clientConfig, s3Configuration)
      ensures newConfig.connectorArgs.items == [(Config.KEEPALIVE_TIMEOUT, Int(Config.KEEPALIVE_DEFAULT))]
      ensures (newConfig.UserOption("connect_timeout"), newConfig.UserOption("read_timeout")) ==
        if clientConfig.Some?
        then (Some(clientConfig.value.connectTimeout), Some(clientConfig.value.readTimeout))
        else (None, None)
    {
      var configKwargs := ConfigKwargs(endpointConfig, ua, clientConfig, s3Configuration);
      var created := Config.AsyncConfig.New(null, configKwargs);
      newConfig := created.value;
    }

    /** _get_client_args. s3Configuration stands for what botocore's
        _inject_s3_configuration adds to the configuration options. */
    method GetClientArgs(serviceModel: ServiceModel, regionName: Option<string>, isSecure: bool,
                         endpointUrl: Option<string>, verify: Value, credentials: Handle,
                         scopedConfig: Option<map<string, Value>>, clientConfig: Option<ClientConfig>,
                         endpointBridge: EndpointResolver, s3Configuration: Option<Value>)
      returns (args: ClientArgs)
      ensures args.serializer == Serializer(serviceModel.protocol, ParameterValidation(clientConfig, scopedConfig))
      ensures args.responseParser == Parser(serviceModel.protocol)
      ensures fresh(args.eventEmitter) && args.eventEmitter.handlers == eventEmitter.handlers
      ensures args.eventEmitter.trace == eventEmitter.trace
      ensures var resolved := endpointBridge(serviceModel.endpointPrefix, regionName, endpointUrl, isSecure);
        && args.requestSigner == RequestSigner(serviceModel.endpointPrefix, resolved.signingRegion, resolved.signingName,
                                               resolved.signatureVersion, credentials, args.eventEmitter)
        && args.clientConfig.userProvidedOptions == ConfigKwargs(resolved, UserAgent(userAgent, clientConfig), clientConfig, s3Configuration)
        && args.endpoint.regionName == resolved.regionName
        && args.endpoint.endpointUrl == resolved.endpointUrl
      ensures fresh(args.clientConfig) && args.clientConfig.Valid()
      ensures args.clientConfig.connectorArgs.items == [(Config.KEEPALIVE_TIMEOUT, Int(Config.KEEPALIVE_DEFAULT))]
      ensures args.endpoint.httpSession == httpSession && args.endpoint.emitter == args.eventEmitter
      ensures args.endpoint.serviceModel == serviceModel && args.endpoint.verify == verify
      ensures args.endpoint.responseParserFactory == responseParserFactory
      ensures args.endpoint.timeout == (args.clientConfig.UserOption("connect_timeout"), args.clientConfig.UserOption("read_timeout"))
      ensures args.endpoint.timeout == if clientConfig.Some?
        then (Some(clientConfig.value.connectTimeout), Some(clientConfig.value.readTimeout))
        else (None, None)
      ensures args.serviceModel == serviceModel && args.loader == loader
    {
      var serviceName := serviceModel.endpointPrefix;
      var protocol := serviceModel.protocol;
      var parameterValidation := ParameterValidation(clientConfig, scopedConfig);
      var serializer := Serializer(protocol, parameterValidation);

      var emitter := eventEmitter.Copy();
      var responseParser := Parser(protocol);
      var endpointConfig := endpointBridge(serviceName, regionName, endpointUrl, isSecure);

      var ua := UserAgent(userAgent, clientConfig);
      var signer := RequestSigner(serviceName, endpointConfig.signingRegion, endpointConfig.signingName,
                                  endpointConfig.signatureVersion, credentials, emitter);

      var newConfig := NewClientConfig(endpointConfig, ua, clientConfig, s3Configuration);
      var endpoint := EndpointArgs(httpSession, emitter, serviceModel, endpointConfig.regionName,
                                   endpointConfig.endpointUrl, verify, responseParserFactory,
                                   (newConfig.UserOption("connect_timeout"), newConfig.UserOption("read_timeout")));
      args := ClientArgs(serializer, endpoint, responseParser, emitter, signer, serviceModel, loader, newConfig);
    }

    /** _create_client_class: the generated methods plus the name mapping,
        announced once through creating-client-class.<service> before the
        class is built from them. */
    method CreateClientClass(serviceName: string, serviceModel: ServiceModel) returns (cls: ClientClass)
      modifies eventEmitter`log, eventEmitter.trace
      ensures cls.attributes.Keys == createMethods(serviceModel).Keys + {PY_TO_OP_NAME}
      ensures cls.attributes[PY_TO_OP_NAME] == NameMapping(createNameMapping(serviceModel))
      ensures forall name :: name in createMethods(serviceModel) && name != PY_TO_OP_NAME ==>
        cls.attributes[name] == createMethods(serviceModel)[name]
      ensures cls.bases == [AsyncBaseClientClass] && cls.name == serviceModuleName(serviceModel)
      ensures eventEmitter.log == old(eventEmitter.log)
        + [CreatingClientClass(CREATING_CLIENT_CLASS + "." + serviceName, cls.attributes, cls.bases)]
      ensures eventEmitter.trace.steps == old(eventEmitter.trace.steps)
        + [Emitted(CreatingClientClass(CREATING_CLIENT_CLASS + "." + serviceName, cls.attributes, cls.bases))]
    {
      var classAttributes := createMethods(serviceModel);
      var pyNameToOperationName := createNameMapping(serviceModel);
      classAttributes := classAttributes[PY_TO_OP_NAME := NameMapping(pyNameToOperationName)];
      var bases := [AsyncBaseClientClass];
      eventEmitter.Emit(CreatingClientClass(CREATING_CLIENT_CLASS + "." + serviceName, classAttributes, bases));
      var className := serviceModuleName(serviceModel);
      cls := ClientClass(className, bases, classAttributes);
    }
  }

  // ---------------------------------------------------------------------
  // Execution engine

  /** The HTTP endpoint. make_request signs, sends and parses; it is the one
      point where a call suspends. */
  class AsyncEndpoint {
    /** The emitter the endpoint was created with. */
    const emitter: EventEmitter
    const respond: (OperationModel, RequestDict) -> Response

    constructor (emitter: EventEmitter, respond: (OperationModel, RequestDict) -> Response)
      ensures this.emitter == emitter && this.respond == respond
    {
      this.emitter := emitter;
      this.respond := respond;
    }

    /** One dispatch: it is recorded in the shared trace, and the answer is
        the endpoint's response to that operation and request. */
    method MakeRequest(model: OperationModel, request: RequestDict) returns (r: Response)
      modifies emitter.trace
      ensures emitter.trace.steps == old(emitter.trace.steps) + [Dispatched(model, request)]
      ensures r == respond(model, request)
    {
      emitter.trace.steps := emitter.trace.steps + [Dispatched(model, request)];
      r := respond(model, request);
    }
  }

  /** One observable step of a call: an emitted hook event or the dispatch of
      a request to the endpoint. */
  datatype Step = Emitted(event: Event) | Dispatched(model: OperationModel, request: RequestDict)

  /** The position a step may take in a call: 0 the before-call event, 1 the
      dispatch, 2 the after-call event; 3 for anything else. */
  function StepRank(s: Step, prefix: string, op: string): nat {
    match s
    case Dispatched(_, _) => 1
    case Emitted(e) =>
      if e.BeforeCall? && e.name == CallEventName(BEFORE_CALL, prefix, op) then 0
      else if e.AfterCall? && e.name == CallEventName(AFTER_CALL, prefix, op) then 2
      else 3
  }

  /** Every step is one of the three, each occurs at most once, and they come
      in the order before-call, dispatch, after-call. */
  predicate InCallOrder(steps: seq<Step>, prefix: string, op: string) {
    && (forall i :: 0 <= i < |steps| ==> StepRank(steps[i], prefix, op) < 3)
    && (forall i, j :: 0 <= i < j < |steps| ==> StepRank(steps[i], prefix, op) < StepRank(steps[j], prefix, op))
  }

  /** The response the after-call event reported, when it fired. */
  function AfterCallResponse(steps: seq<Step>): Option<(HttpResponse, Body)> {
    if |steps| == 3 && steps[2].Emitted? && steps[2].event.AfterCall?
    then Some((steps[2].event.httpResponse, steps[2].event.parsed))
    else None
  }

  /** The emitted events among the steps, in order. */
  function EventsOf(steps: seq<Step>): seq<Event>
  {
    if steps == [] then []
    else (if steps[0].Emitted? then [steps[0].event] else []) + EventsOf(steps[1..])
  }

  lemma {:induction false} EventsOfSnoc(steps: seq<Step>, s: Step)
    ensures EventsOf(steps + [s]) == EventsOf(steps) + (if s.Emitted? then [s.event] else [])
  {
    var last := if s.Emitted? then [s.event] else [];
    if steps == [] {
      assert steps + [s] == [s] && [s][1..] == [];
    } else {
      var head := if steps[0].Emitted? then [steps[0].event] else [];
      assert (steps + [s])[0] == steps[0];
      assert (steps + [s])[1..] == steps[1..] + [s];
      EventsOfSnoc(steps[1..], s);
      calc {
        EventsOf(steps + [s]);
        head + EventsOf(steps[1..] + [s]);
        head + (EventsOf(steps[1..]) + last);
        (head + EventsOf(steps[1..])) + last;
        EventsOf(steps) + last;
      }
    }
  }

  /** A resolved, serialized request, ready for the before-call hook. */
  datatype Prepared = Prepared(model: OperationModel, context: RequestContext, request: RequestDict)

  /** The steps one call took and how it ended. */
  datatype Call = Call(steps: seq<Step>, result: Result<Body, Error>)

  /** botocore.paginate.Paginator, the class object all clients share, and
      its page-iterator class attribute. */
  class PaginatorClass {
    var pageIteratorCls: IteratorClass

    constructor ()
      ensures pageIteratorCls == SyncPageIterator
    {
      pageIteratorCls := SyncPageIterator;
    }
  }

  datatype IteratorClass = SyncPageIterator | AsyncPageIterator

  /** A paginator over the client method of that name, with its page config. */
  datatype Paginator = Paginator(operationMethod: string, pageConfig: PageConfig)

  type RequestConverter = (Params, OperationModel, RequestContext) -> Result<RequestDict, string>

  class AsyncBaseClient {
    const serviceModel: ServiceModel
    /** meta.region_name */
    const regionName: Option<string>
    /** meta.config */
    const config: Config.AsyncConfig
    /** meta.events */
    const events: EventEmitter
    const requestSigner: RequestSigner
    const endpoint: AsyncEndpoint
    /** botocore's _convert_to_request_dict; an Err is a parameter
        validation report. */
    const convertToRequestDict: RequestConverter
    /** The class attribute _PY_TO_OP_NAME. */
    const pyToOpName: map<string, string>
    /** _cache['page_config'], keyed by operation name. */
    const pageConfig: map<string, PageConfig>
    /** botocore's can_paginate. */
    const canPaginate: string -> bool
    const paginatorClass: PaginatorClass

    /** The endpoint is the one created with this client's emitter. */
    constructor (serviceModel: ServiceModel, regionName: Option<string>, config: Config.AsyncConfig,
                 events: EventEmitter, requestSigner: RequestSigner, endpoint: AsyncEndpoint,
                 convertToRequestDict: RequestConverter, pyToOpName: map<string, string>,
                 pageConfig: map<string, PageConfig>, canPaginate: string -> bool, paginatorClass: PaginatorClass)
      requires endpoint.emitter == events
      ensures this.serviceModel == serviceModel && this.regionName == regionName && this.config == config
      ensures this.events == events && this.requestSigner == requestSigner && this.endpoint == endpoint
      ensures this.convertToRequestDict == convertToRequestDict && this.pyToOpName == pyToOpName
      ensures this.pageConfig == pageConfig && this.canPaginate == canPaginate
      ensures this.paginatorClass == paginatorClass
    {
      this.serviceModel := serviceModel;
      this.regionName := regionName;
      this.config := config;
      this.events := events;
      this.requestSigner := requestSigner;
      this.endpoint := endpoint;
      this.convertToRequestDict := convertToRequestDict;
      this.pyToOpName := pyToOpName;
      this.pageConfig := pageConfig;
      this.canPaginate := canPaginate;
      this.paginatorClass := paginatorClass;
    }

    /** The part of a call before any event: look up the operation (botocore
        raises for an unknown one), build the request context and serialize
        the parameters. */
    function PrepareRequest(op: string, params: Params): (p: Result<Prepared, Error>)
      ensures op !in serviceModel.operations ==> p == Err(OperationNotFoundError(op))
      ensures op in serviceModel.operations ==>
        var model := serviceModel.operations[op];
        var converted := convertToRequestDict(params, model, RequestContext(regionName, config, model.hasStreamingInput));
        && (p.Ok? <==> converted.Ok?)
        && (p.Err? ==> p.error == ParamValidationError(converted.error))
      ensures p.Ok? ==>
        && p.value.model == serviceModel.operations[op]
        && p.value.context == RequestContext(regionName, config, p.value.model.hasStreamingInput)
        && convertToRequestDict(params, p.value.model, p.value.context) == Ok(p.value.request)
    {
      if op !in serviceModel.operations then Err(OperationNotFoundError(op))
      else
        var model := serviceModel.operations[op];
        var context := RequestContext(regionName, config, model.hasStreamingInput);
        match convertToRequestDict(params, model, context)
        case Err(report) => Err(ParamValidationError(report))
        case Ok(request) => Ok(Prepared(model, context, request))
    }

    /** What _make_api_call does once the request is serialized: emit
        before-call, dispatch, emit after-call on a completed exchange and
        classify it on the status code. */
    function Exchange(op: string, p: Prepared): (c: Call)
      ensures |c.steps| >= 2
      ensures c.steps[0] == Emitted(BeforeCall(CallEventName(BEFORE_CALL, serviceModel.endpointPrefix, op),
                                               p.model, p.request, requestSigner, p.context))
      ensures c.steps[1] == Dispatched(p.model, p.request)
      ensures var resp := endpoint.respond(p.model, p.request);
        && (resp.Fault? ==> |c.steps| == 2 && c.result == Err(TransportError(resp.reason)))
        && (resp.Completed? ==>
              && |c.steps| == 3
              && c.steps[2] == Emitted(AfterCall(CallEventName(AFTER_CALL, serviceModel.endpointPrefix, op),
                                                 resp.http, resp.parsed, p.model, p.context))
              && AfterCallResponse(c.steps) == Some((resp.http, resp.parsed))
              && c.result == if resp.http.statusCode >= 300 then Err(ClientError(resp.parsed, op)) else Ok(resp.parsed))
    {
      var before := Emitted(BeforeCall(CallEventName(BEFORE_CALL, serviceModel.endpointPrefix, op),
                                       p.model, p.request, requestSigner, p.context));
      var dispatched := Dispatched(p.model, p.request);
      match endpoint.respond(p.model, p.request)
      case Fault(reason) => Call([before, dispatched], Err(TransportError(reason)))
      case Completed(http, parsed) =>
        var after := Emitted(AfterCall(CallEventName(AFTER_CALL, serviceModel.endpointPrefix, op),
                                       http, parsed, p.model, p.context));
        Call([before, dispatched, after],
             if http.statusCode >= 300 then Err(ClientError(parsed, op)) else Ok(parsed))
    }

    /** What _make_api_call does for one operation and its parameters. */
    function ApiCall(op: string, params: Params): (c: Call)
      ensures InCallOrder(c.steps, serviceModel.endpointPrefix, op)
      ensures c.result.Ok? ==>
        var a := AfterCallResponse(c.steps);
        a.Some? && a.value.0.statusCode < 300 && c.result.value == a.value.1
      ensures c.result.Err? && c.result.error.ClientError? ==>
        var a := AfterCallResponse(c.steps);
        a.Some? && a.value.0.statusCode >= 300 && c.result.error == ClientError(a.value.1, op)
      ensures AfterCallResponse(c.steps).Some? ==> c.result.Ok? || c.result.error.ClientError?
      ensures c.result.Err? && c.result.error.TransportError? ==> |c.steps| == 2
      ensures c.steps == [] <==> PrepareRequest(op, params).Err?
      ensures var p := PrepareRequest(op, params);
        && (p.Err? ==> c == Call([], Err(p.error)))
        && (p.Ok? ==>
              && |c.steps| >= 2
              && c.steps[0] == Emitted(BeforeCall(CallEventName(BEFORE_CALL, serviceModel.endpointPrefix, op),
                                                  p.value.model, p.value.request, requestSigner, p.value.context))
              && c.steps[1] == Dispatched(p.value.model, p.value.request))
      ensures var p := PrepareRequest(op, params);
        p.Ok? ==>
          var resp := endpoint.respond(p.value.model, p.value.request);
          && (resp.Fault? ==> c.result == Err(TransportError(resp.reason)))
          && (resp.Completed? ==>
                && |c.steps| == 3
                && c.steps[2] == Emitted(AfterCall(CallEventName(AFTER_CALL, serviceModel.endpointPrefix, op),
                                                   resp.http, resp.parsed, p.value.model, p.value.context))
                && AfterCallResponse(c.steps) == Some((resp.http, resp.parsed))
                && c.result == if resp.http.statusCode >= 300 then Err(ClientError(resp.parsed, op)) else Ok(resp.parsed))
      ensures |c.steps| >= 2 ==>
        c.steps[0].Emitted? && c.steps[0].event.BeforeCall? && c.steps[1].Dispatched?
        && c.steps[1].request == c.steps[0].event.params
        && (AfterCallResponse(c.steps).Some? <==> endpoint.respond(c.steps[1].model, c.steps[1].request).Completed?)
    {
      match PrepareRequest(op, params)
      case Err(e) => Call([], Err(e))
      case Ok(p) => Exchange(op, p)
    }

    /** _make_api_call: look up and serialize, then run the exchange. */
    method MakeApiCall(op: string, params: Params) returns (r: Result<Body, Error>)
      requires endpoint.emitter == events
      modifies events, events.trace
      ensures events.handlers == old(events.handlers)
      ensures r == ApiCall(op, params).result
      ensures events.trace.steps == old(events.trace.steps) + ApiCall(op, params).steps
      ensures events.log == old(events.log) + EventsOf(ApiCall(op, params).steps)
    {
      var prepared := PrepareRequest(op, params);
      if prepared.Err? {
        return Err(prepared.error);
      }
      r := RunExchange(op, prepared.value);
    }

    /** The awaited part of _make_api_call, from the before-call hook on. */
    method RunExchange(op: string, p: Prepared) returns (r: Result<Body, Error>)
      requires endpoint.emitter == events
      modifies events, events.trace
      ensures events.handlers == old(events.handlers)
      ensures r == Exchange(op, p).result
      ensures events.trace.steps == old(events.trace.steps) + Exchange(op, p).steps
      ensures events.log == old(events.log) + EventsOf(Exchange(op, p).steps)
    {
      var before := BeforeCall(CallEventName(BEFORE_CALL, serviceModel.endpointPrefix, op),
                               p.model, p.request, requestSigner, p.context);
      events.Emit(before);
      var response := endpoint.MakeRequest(p.model, p.request);
      ghost var steps := [Emitted(before), Dispatched(p.model, p.request)];
      EventsOfSnoc([], Emitted(before));
      EventsOfSnoc([Emitted(before)], Dispatched(p.model, p.request));
      if response.Fault? {
        return Err(TransportError(response.reason));
      }

      var after := AfterCall(CallEventName(AFTER_CALL, serviceModel.endpointPrefix, op),
                             response.http, response.parsed, p.model, p.context);
      events.Emit(after);
      EventsOfSnoc(steps, Emitted(after));

      if response.http.statusCode >= 300 {
        r := Err(ClientError(response.parsed, op));
      } else {
        r := Ok(response.parsed);
      }
    }

    /** get_paginator: an operation that cannot be paginated is refused;
        otherwise the shared page-iterator class is switched to the
        asynchronous one and the page config is looked up under the
        operation name the Python method name maps to. */
    method GetPaginator(op: string) returns (r: Result<Paginator, Error>)
      modifies paginatorClass
      ensures !canPaginate(op) ==> r == Err(OperationNotPageableError(op))
      ensures canPaginate(op) && op !in pyToOpName ==> r == Err(KeyError(op))
      ensures !canPaginate(op) || op !in pyToOpName ==> paginatorClass.pageIteratorCls == old(paginatorClass.pageIteratorCls)
      ensures canPaginate(op) && op in pyToOpName ==>
        && paginatorClass.pageIteratorCls == AsyncPageIterator
        && r == if pyToOpName[op] in pageConfig
                then Ok(Paginator(op, pageConfig[pyToOpName[op]]))
                else Err(KeyError(pyToOpName[op]))
    {
      if !canPaginate(op) {
        return Err(OperationNotPageableError(op));
      }
      if op !in pyToOpName {
        return Err(KeyError(op));
      }
      var actualOperationName := pyToOpName[op];
      paginatorClass.pageIteratorCls := AsyncPageIterator;
      if actualOperationName !in pageConfig {
        return Err(KeyError(actualOperationName));
      }
      r := Ok(Paginator(op, pageConfig[actualOperationName]));
    }
  }
}
