# Asynchronous botocore client core, modelled in Dafny

This project models two pieces of decision logic. Both sit on top of botocore in an asyncio adaptation of its client.

- **Connector options and `AsyncConfig`** (`cloud/asyncbotocore/config.py`), module `Config` in `config.dfy`.
  - Connector options are the transport-tuning options handed to the HTTP connector.
  - A fixed table says which options exist and which Python type each needs: `use_dns_cache`, `verify_ssl` and `force_close` take a bool; `keepalive_timeout` takes a float or int; `limit` takes an int; `ssl_context` takes an `SSLContext`.
  - The validator walks the options in insertion order. It raises `ParamValidationError` for the first entry it rejects, and the report names that key.
  - Python's `bool` is a subclass of `int`, so a bool passes the int checks.
  - `AsyncConfig` stores a fresh copy of the options. It adds `keepalive_timeout = 12` when that key is absent.
  - `merge` overlays the other configuration's user-provided options and keeps this configuration's connector options.
- **Client construction and the call pipeline** (`cloud/asyncbotocore/client.py`), module `Client` in `client.dfy`.
  - `_get_client_args` applies these rules:
    - whether parameters are validated;
    - the effective user agent;
    - the keyword options of the new configuration;
    - the endpoint's timeout pair;
    - the eight-part bundle it returns.
  - `_create_client_class` adds the name mapping to the generated class attributes. It emits `creating-client-class.<service>` once.
  - `_make_api_call` runs in a fixed order:
    1. serialize;
    2. emit `before-call.<prefix>.<op>`;
    3. dispatch to the endpoint;
    4. emit `after-call.<prefix>.<op>`;
    5. classify: status ≥ 300 raises `ClientError`.
  - `get_paginator` refuses operations that cannot be paginated. For the others it switches the shared page-iterator class and looks up the page config under the operation name.

Module `Values` (`values.dfy`) holds the shared pieces:
- Python values tagged by class (`Bool | Int | Float | Str | SslContext | NoneValue | Other`);
- the exceptions;
- `str(v).lower() == "false"`.

How the model is built:
- The connector-options dict is an ordered sequence of `(key, value)` pairs with distinct keys. This keeps the insertion order, which decides which bad key is reported.
- The other dicts are Dafny maps, because the code never depends on their order. These are the scoped configuration, the user-provided options, the configuration keyword options, API parameters, request dicts, class attributes and page configs.
- The connector dict is a class (`Config.Dict`), so the copy's identity and the caller's dict staying unchanged can be stated.
- botocore's collaborators are function values given to the model:
  - the endpoint resolver;
  - `_convert_to_request_dict`;
  - the endpoint's `make_request`;
  - `_create_methods`, `_create_name_mapping` and `get_service_module_name`;
  - `can_paginate`.
- The event emitter keeps a ghost log of what was emitted through it.
- A ghost `CallTrace` records every observable step in the order it happens. The emitter appends each event it emits, and the endpoint appends each dispatch. The emitter and the endpoint share one trace, because the endpoint is created with the client's emitter (`client.py:78-79`). So the order of hooks and dispatches follows from the operations themselves; the client's methods never write the trace.

Two behaviours of the code are worth knowing:
- Validation precedence (`client.py:32-37`): the scoped configuration is tested whenever the explicit configuration does not switch validation off. So a scoped `"false"` disables validation even when an explicit configuration leaves the flag on. `Client.ParameterValidation` and `Client.ScopedStringDisables` state this.
- The connector-option validator raises botocore's `ParamValidationError`.

## Model

| member | source | states |
|---|---|---|
| `Config.RejectionReport` | cloud/asyncbotocore/config.py:37-60 | The report for a rejected known option begins with the option's name. For an unknown option it is `invalid connector_arg:<key>`. |
| `Config.CheckOption` | cloud/asyncbotocore/config.py:36-60 | The source's branch-by-branch check of one entry accepts it exactly when the option table accepts the key with that value's type. Otherwise it raises `ParamValidationError` with the table's report for that key. |
| `Config.BoolPassesIntChecks` | cloud/asyncbotocore/config.py:41-52 | A bool is accepted for `limit` and `keepalive_timeout` because bool is a subclass of int. An int given for `force_close` is rejected with the report naming `force_close`. |
| `Config.UnknownOptionRejected` | cloud/asyncbotocore/config.py:58-60 | A key outside the six recognised options is rejected with report `invalid connector_arg:<key>`, whatever its value. |
| `Config.Validate` | cloud/asyncbotocore/config.py:31-60 | Validating a mapping succeeds if and only if every entry is accepted by the option table. |
| `Config.FirstRejected` | cloud/asyncbotocore/config.py:36-60 | Gives the position of the first rejected entry. Every entry before it is accepted. |
| `Config.ValidateNamesFirstRejected` | cloud/asyncbotocore/config.py:36-60 | Validation raises exactly the error of the first rejected entry, so the report names that key. It succeeds when no entry is rejected. |
| `Config.ValidateAppend` | cloud/asyncbotocore/config.py:36-60 | Entries are checked in insertion order. Appending entries cannot change an earlier failure. |
| `Config.ValidateConnectorArgs` | cloud/asyncbotocore/config.py:31-60 | The loop returns None for a `None` mapping. Otherwise it returns the validation outcome of the dict's entries in order, stopping at the first rejected one. |
| `Config.Assign` | cloud/asyncbotocore/config.py:23 | `d[k] = v` on a dict without `k` keeps the old entries in order and appends `(k, v)`. On a dict with `k`, that entry keeps its place and takes the value `v`, and every other entry is unchanged. Keys stay distinct. |
| `Config.WithKeepalive` | cloud/asyncbotocore/config.py:14-23 | The stored options are the caller's entries unchanged and in order. `keepalive_timeout = 12` is appended only when the key is absent. The result always holds `keepalive_timeout`. |
| `Config.WithKeepaliveValidates` | cloud/asyncbotocore/config.py:13-29 | Options that passed validation still pass once the default is added. So the stored options are always valid input for the constructor again, which `merge` relies on. |
| `Config.WithKeepaliveIdempotent` | cloud/asyncbotocore/config.py:18-23 | Adding the default to already-stored options changes nothing. |
| `Config.Dict.Copy` | cloud/asyncbotocore/config.py:14 | `copy.copy` gives a new dict object with the same entries in the same order. |
| `Config.Dict.SetItem` | cloud/asyncbotocore/config.py:23 | Item assignment updates the dict in place, with dict semantics. |
| `Config.AsyncConfig.New` | cloud/asyncbotocore/config.py:10-23 | Construction fails with the validator's error exactly when the mapping is rejected. `None` always succeeds. On success the configuration is valid and keeps the keyword options. It stores a fresh dict equal to the caller's entries plus the keep-alive default: `None` or `{}` gives `[keepalive_timeout = 12]`. The caller's dict is not changed. |
| `Config.AsyncConfig.Merge` | cloud/asyncbotocore/config.py:25-29 | The merged user options take the other configuration's value where it set one and this one's otherwise. The connector options are this configuration's, in a new dict; the other's are ignored. Merging never fails. |
| `Values.LowerEqualsIff` | cloud/asyncbotocore/client.py:35-36 | `s.lower()` equals a word without upper-case letters if and only if `s` spells that word letter by letter, each letter either as written or in its upper-case form. |
| `Values.StrIsFalse` | cloud/asyncbotocore/client.py:35-36 | `str(v).lower() == 'false'` holds exactly for a string, or an object printing as one, that spells "false" in some mix of cases, and for the bool `False` (`str(False)` is `"False"`). It never holds for ints, floats, `None` or SSL contexts. |
| `Client.ParameterValidation` | cloud/asyncbotocore/client.py:31-37 | Validation is off if and only if an explicit configuration has the flag off, or a scoped configuration's `parameter_validation` entry reads as `"false"` case-insensitively. A missing entry never disables it. |
| `Client.ScopedStringDisables` | cloud/asyncbotocore/client.py:32-37 | A scoped string value disables validation exactly when it spells "false" in any letter case. This holds even if an explicit configuration keeps the flag on. |
| `Client.UserAgent` | cloud/asyncbotocore/client.py:46-52 | The effective user agent starts with the configured user agent if given, else the default. When an extra suffix is configured it follows after exactly one space, whether or not the base was replaced. |
| `Client.ConfigKwargs` | cloud/asyncbotocore/client.py:63-74 | The new configuration's options always hold the resolved region, the signature version and the effective user agent. They hold the caller's `connect_timeout` and `read_timeout` if and only if a client configuration was given, and `s3`, with the value the S3 hook supplied, exactly when it supplied one. Nothing else is in them. |
| `Client.EventEmitter.Emit` | cloud/asyncbotocore/client.py:102-104 | Emitting an event appends exactly that event to the emitter's log, and the step `Emitted(e)` to the shared trace. Nothing else changes. This is the step behind the `emit` calls at lines 102, 130 and 141. |
| `Client.EventEmitter.Copy` | cloud/asyncbotocore/client.py:41 | The client gets a separate emitter object with the same handler registrations. Its log starts empty, and it shares the original's trace, as a shallow copy shares its attributes. |
| `Client.AsyncClientCreator.GetClientArgs` | cloud/asyncbotocore/client.py:26-95 | The bundle has exactly eight parts: serializer, endpoint, parser, emitter, signer, service model, loader and config. The serializer validates according to `ParameterValidation`. The signer gets the resolved signing data and the copied emitter. The new configuration has `ConfigKwargs` as options and only the keep-alive default as connector options. The endpoint gets the resolved region and URL and the timeout pair of the new configuration, which is the caller's timeouts exactly when a client configuration was given. |
| `Client.AsyncClientCreator.NewClientConfig` | cloud/asyncbotocore/client.py:60-76 | The client's new configuration is a fresh, valid `AsyncConfig`. Its options are exactly `ConfigKwargs`. Its connector options are only the keep-alive default. Its timeout pair is the caller's timeouts when a client configuration was given, and unset otherwise. |
| `Client.AsyncClientCreator.CreateClientClass` | cloud/asyncbotocore/client.py:97-107 | The class attributes are the generated methods plus `_PY_TO_OP_NAME`, bound to the name mapping. The bases are `[AsyncBaseClient]`. `creating-client-class.<service>` is emitted exactly once, with those attributes and bases. It goes to both the creator emitter's log and its trace. |
| `Client.AsyncEndpoint.MakeRequest` | cloud/asyncbotocore/client.py:138-139 | Each dispatch appends exactly one `Dispatched(model, request)` step to the trace it shares with the client's emitter. The answer is the endpoint's response to that operation and request. |
| `Client.EventsOfSnoc` | cloud/asyncbotocore/client.py:130-147 | Extending a call's step list by one step adds that step's event, if it is one, to the end of the emitted events. |
| `Client.AsyncBaseClient.PrepareRequest` | cloud/asyncbotocore/client.py:120-128 | An unknown operation fails with `OperationNotFoundError` naming it. For a known operation the request is prepared exactly when the serializer succeeds. A serializer failure is passed on as `ParamValidationError` with the serializer's own report. On success the model is the service model's entry for the operation. The context holds the client's region, the client's configuration and the operation's streaming-input flag, and the request is what the serializer produced from them. |
| `Client.AsyncBaseClient.Exchange` | cloud/asyncbotocore/client.py:130-152 | After serialization, `before-call.<prefix>.<op>` is emitted with the model, the serialized request, the signer and the context. Then exactly that request is dispatched. A transport fault ends the call with no further step. A completed exchange emits `after-call.<prefix>.<op>` with the endpoint's response and parsed body. It then raises `ClientError(parsed, op)` for status ≥ 300 and returns the parsed body otherwise. |
| `Client.AsyncBaseClient.ApiCall` | cloud/asyncbotocore/client.py:120-152 | If preparation fails, the call fails with that error and no step happens. Otherwise the before-call event carries the operation's model, the serialized request, the client's signer and the request context, and dispatch sends exactly that request to that model. The steps are before-call, dispatch, after-call in that order, each event with its exact name. The outcome follows the endpoint's answer to that request. A transport fault gives `TransportError` and no after-call event. A completed exchange fires after-call with the endpoint's response and parsed body, the model and the same context, whatever the status. It then returns the parsed body for status < 300 and raises `ClientError(parsed, op)` for status ≥ 300. |
| `Client.AsyncBaseClient.MakeApiCall` | cloud/asyncbotocore/client.py:120-152 | The method returns what `ApiCall` says. The shared trace grows by exactly `ApiCall`'s steps, as recorded by the emitter and the endpoint themselves. So the before-call hook precedes the one dispatch, and after-call follows it. The emitter's log gains this layer's before-call and after-call events, in order. The emitter's handler registrations are left unchanged. |
| `Client.AsyncBaseClient.RunExchange` | cloud/asyncbotocore/client.py:130-152 | From the before-call hook on, the method returns the exchange's result. The shared trace grows by exactly the exchange's steps, as recorded by `Emit` and `MakeRequest`. So the before-call hook, exactly one dispatch and after-call happen in that order. The emitter's log gains this layer's two hook events. The emitter's registrations are unchanged. |
| `Client.AsyncBaseClient.GetPaginator` | cloud/asyncbotocore/client.py:154-178 | An operation that cannot be paginated raises `OperationNotPageableError`, and the shared page-iterator class is left alone. Otherwise the shared class becomes the asynchronous one. The paginator wraps the method and the page config stored under `_PY_TO_OP_NAME[op]`, not under the method name. A missing key raises `KeyError`. |

## Left out

- `__aenter__`, `__aexit__`, `close` and the `http_session` and `_loop` properties (`client.py:18-24`, `112-118`, `180-188`). They only delegate to the aiohttp session.
- Suspension and cancellation: the awaited `make_request` is one opaque step of the call.
- `AsyncEndpointCreator`, `AsyncPageIterator` and page iteration: `endpoint.py` and `paginate.py` are not part of this model. The endpoint is represented by the arguments it is created with.
- Hook handlers: an emitted event records its payload, and no handler mutates the request dict, the class attributes or the bases.
- Events emitted below this layer are not modelled. The serializer behind `_convert_to_request_dict`, the request signer and the endpoint's `make_request` share the client's emitter and may emit their own events during a call. The modelled log holds only the before-call and after-call hooks of `_make_api_call` (and `creating-client-class` for class creation).
- botocore internals become parameters or records:
  - serializer, parser and signer construction become records of their arguments;
  - `endpoint_bridge.resolve`, `_convert_to_request_dict`, `_create_methods`, `_create_name_mapping`, `get_service_module_name` and `can_paginate` become function values;
  - `_inject_s3_configuration` becomes the optional `s3` value it adds.
- `_conditionally_unregister_fix_s3_host` is not modelled. It may unregister one handler from the copied emitter.
- botocore's `Config.__init__`: only the recording of the keyword options is modelled. Its own checks of those options and its defaults are not.
- `type(...)`: class synthesis becomes a `ClientClass` record.
- The `ssl` import: the SSLContext check is a tag test.
- Floats carry no value, because they are only type-checked.
- `str.lower()` is modelled on ASCII letters. No other character lowers to a letter of "false", so the comparison stays exact.
- The caller's `parameter_validation` flag is a bool. Python would take the truthiness of any value there.
- `Config.AsyncConfig.Merge`: changes made to a configuration's `connector_args` after construction are not modelled. In Python, a later invalid entry would make `merge` raise `ParamValidationError` when it re-validates. The model's `merge` requires the stored options to still be valid, as construction left them.
- `Paginator.PAGE_ITERATOR_CLS` is a field of one shared object. There is no process-wide global.
