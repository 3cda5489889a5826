/** The connector options of an asynchronous client configuration: which
    transport-tuning options exist and what type each must have, the
    validation that rejects anything else, and AsyncConfig, which stores a
    validated copy of the options with a keep-alive default and merges with
    another configuration. (cloud/asyncbotocore/config.py) */
module Config {
  import opened Values

  /** One (option name, value) pair of a Python dict, in insertion order. */
  type Entry = (string, Value)

  const KEEPALIVE_TIMEOUT := "keepalive_timeout"

  /** Seconds. The service drops idle connections after 20 seconds and the
      transport would keep them for 30, so the default stays below both. */
  const KEEPALIVE_DEFAULT := 12

  const INVALID_ARG_PREFIX := "invalid connector_arg:"

  /** The type a connector option's value must have. */
  datatype Expected = Boolean | FloatOrInt | Integer | SslContextInstance

  /** The recognised connector options and the type each demands. */
  const CONNECTOR_OPTIONS: map<string, Expected> := map[
    "use_dns_cache" := Boolean,
    "verify_ssl" := Boolean,
    KEEPALIVE_TIMEOUT := FloatOrInt,
    "force_close" := Boolean,
    "limit" := Integer,
    "ssl_context" := SslContextInstance
  ]

  predicate HasType(v: Value, t: Expected) {
    match t
    case Boolean => IsBool(v)
    case FloatOrInt => IsFloat(v) || IsInt(v)
    case Integer => IsInt(v)
    case SslContextInstance => IsSslContext(v)
  }

  /** Option k may be given value v. */
  predicate Accepted(k: string, v: Value) {
    k in CONNECTOR_OPTIONS && HasType(v, CONNECTOR_OPTIONS[k])
  }

  /** The report of the error raised for a rejected option k, by the table. */
  function RejectionReport(k: string): (report: string)
    ensures k in CONNECTOR_OPTIONS ==> k <= report
    ensures k !in CONNECTOR_OPTIONS ==> report == INVALID_ARG_PREFIX + k
  {
    if k !in CONNECTOR_OPTIONS then INVALID_ARG_PREFIX + k
    else match CONNECTOR_OPTIONS[k]
      case Boolean => k + " value must be a boolean"
      case FloatOrInt => k + " value must be a float/int"
      case Integer => k + " value must be an int"
      case SslContextInstance => k + " must be an SSLContext instance"
  }

  /** The check the validator applies to one entry, branch by branch as the
      source writes it: None when the entry is fine, else the error raised. */
  function CheckOption(k: string, v: Value): (r: Option<Error>)
    ensures r.None? <==> Accepted(k, v)
    ensures r.Some? ==> r.value == ParamValidationError(RejectionReport(k))
  {
    if k == "use_dns_cache" || k == "verify_ssl" then
      if !IsBool(v) then Some(ParamValidationError(k + " value must be a boolean")) else None
    else if k == KEEPALIVE_TIMEOUT then
      if !IsFloat(v) && !IsInt(v) then Some(ParamValidationError(k + " value must be a float/int")) else None
    else if k == "force_close" then
      if !IsBool(v) then Some(ParamValidationError(k + " value must be a boolean")) else None
    else if k == "limit" then
      if !IsInt(v) then Some(ParamValidationError(k + " value must be an int")) else None
    else if k == "ssl_context" then
      if !IsSslContext(v) then Some(ParamValidationError(k + " must be an SSLContext instance")) else None
    else
      Some(ParamValidationError(INVALID_ARG_PREFIX + k))
  }

  /** The outcome of validating the entries in order: the first rejected
      entry raises, and nothing after it is looked at. */
  function Validate(args: seq<Entry>): (r: Option<Error>)
    ensures r.None? <==> forall i :: 0 <= i < |args| ==> Accepted(args[i].0, args[i].1)
  {
    if |args| == 0 then None
    else match CheckOption(args[0].0, args[0].1)
      case Some(e) => Some(e)
      case None =>
        assert forall i :: 1 <= i < |args| ==> args[i] == args[1..][i - 1];
        Validate(args[1..])
  }

  /** The position of the first rejected entry, or |args| when there is none. */
  function FirstRejected(args: seq<Entry>): (i: nat)
    ensures i <= |args|
    ensures forall j :: 0 <= j < i ==> Accepted(args[j].0, args[j].1)
    ensures i < |args| ==> !Accepted(args[i].0, args[i].1)
  {
    if |args| == 0 || !Accepted(args[0].0, args[0].1) then 0
    else
      assert forall j :: 1 <= j < |args| ==> args[j] == args[1..][j - 1];
      1 + FirstRejected(args[1..])
  }

  /** Validation fails exactly when some entry is rejected, and its error
      names the first rejected key. */
  lemma {:induction false} ValidateNamesFirstRejected(args: seq<Entry>)
    ensures var i := FirstRejected(args);
      Validate(args) == if i < |args| then Some(ParamValidationError(RejectionReport(args[i].0))) else None
  {
    if |args| > 0 && Accepted(args[0].0, args[0].1) {
      ValidateNamesFirstRejected(args[1..]);
    }
  }

  /** Validating a concatenation: the first part's error if it has one, else
      the second part's outcome. */
  lemma {:induction false} ValidateAppend(a: seq<Entry>, b: seq<Entry>)
    ensures Validate(a + b) == if Validate(a).Some? then Validate(a) else Validate(b)
  {
    if |a| > 0 {
      assert (a + b)[0] == a[0];
      assert (a + b)[1..] == a[1..] + b;
      ValidateAppend(a[1..], b);
    } else {
      assert a + b == b;
    }
  }

  /** A mapping holding one option that is not recognised is rejected with
      the report "invalid connector_arg:<key>". */
  lemma UnknownOptionRejected(k: string, v: Value)
    requires k !in CONNECTOR_OPTIONS
    ensures Validate([(k, v)]) == Some(ParamValidationError(INVALID_ARG_PREFIX + k))
  {
  }

  /** bool is a subclass of int: a bool passes the int checks of limit and
      keepalive_timeout, while an int does not pass a bool check. */
  lemma BoolPassesIntChecks(b: bool, n: int)
    ensures CheckOption("limit", Bool(b)).None?
    ensures CheckOption(KEEPALIVE_TIMEOUT, Bool(b)).None?
    ensures CheckOption("force_close", Int(n)).Some?
    ensures "force_close" <= CheckOption("force_close", Int(n)).value.report
  {
  }

  /** The mapping holds key k. */
  predicate HasKey(items: seq<Entry>, k: string) {
    exists i :: 0 <= i < |items| && items[i].0 == k
  }

  /** No key occurs twice, as in every Python dict. */
  predicate DistinctKeys(items: seq<Entry>) {
    forall i, j :: 0 <= i < j < |items| ==> items[i].0 != items[j].0
  }

  /** d[k] = v: an existing key keeps its place and takes the new value, a
      new key goes last. */
  function Assign(items: seq<Entry>, k: string, v: Value): (r: seq<Entry>)
    ensures HasKey(r, k)
    ensures DistinctKeys(items) ==> DistinctKeys(r)
    ensures !HasKey(items, k) ==> |r| == |items| + 1 && r[..|items|] == items && r[|items|] == (k, v)
    ensures HasKey(items, k) ==>
      && |r| == |items|
      && (forall j :: 0 <= j < |items| && items[j].0 != k ==> r[j] == items[j])
      && (forall j :: 0 <= j < |items| && items[j].0 == k ==> r[j] == (k, v))
  {
    if HasKey(items, k) then
      var r := seq(|items|, i requires 0 <= i < |items| => if items[i].0 == k then (k, v) else items[i]);
      assert forall j :: 0 <= j < |items| && items[j].0 == k ==> r[j].0 == k;
      r
    else
      var r := items + [(k, v)];
      assert r[|items|].0 == k;
      assert r[..|items|] == items;
      r
  }

  /** The stored connector options: the caller's entries unchanged and in
      order, followed by keepalive_timeout = 12 when the caller did not set it. */
  function WithKeepalive(items: seq<Entry>): (r: seq<Entry>)
    ensures |items| <= |r| && r[..|items|] == items
    ensures HasKey(r, KEEPALIVE_TIMEOUT)
    ensures HasKey(items, KEEPALIVE_TIMEOUT) ==> r == items
    ensures !HasKey(items, KEEPALIVE_TIMEOUT) ==> r[|items|..] == [(KEEPALIVE_TIMEOUT, Int(KEEPALIVE_DEFAULT))]
    ensures DistinctKeys(items) ==> DistinctKeys(r)
  {
    if HasKey(items, KEEPALIVE_TIMEOUT) then items
    else Assign(items, KEEPALIVE_TIMEOUT, Int(KEEPALIVE_DEFAULT))
  }

  /** What a successfully constructed AsyncConfig stores. */
  ghost predicate StoredConnectorArgs(items: seq<Entry>) {
    DistinctKeys(items) && Validate(items).None? && HasKey(items, KEEPALIVE_TIMEOUT)
  }

  /** Options that passed validation still pass once the default is added, so
      the stored options are a valid input to the constructor again. */
  lemma WithKeepaliveValidates(items: seq<Entry>)
    requires DistinctKeys(items) && Validate(items).None?
    ensures StoredConnectorArgs(WithKeepalive(items))
  {
  }

  /** Adding the default a second time changes nothing. */
  lemma WithKeepaliveIdempotent(items: seq<Entry>)
    ensures WithKeepalive(WithKeepalive(items)) == WithKeepalive(items)
  {
  }

  /** A Python dict of connector options, mutable and shared by reference. */
  class Dict {
    var items: seq<Entry>

    constructor (items: seq<Entry>)
      ensures this.items == items
    {
      this.items := items;
    }

    /** k in d */
    predicate Contains(k: string)
      reads this
    {
      HasKey(items, k)
    }

    /** copy.copy(d): a new dict with the same entries in the same order. */
    method Copy() returns (d: Dict)
      ensures fresh(d) && d.items == items
    {
      d := new Dict(items);
    }

    /** d[k] = v */
    method SetItem(k: string, v: Value)
      modifies this
      ensures items == Assign(old(items), k, v)
    {
      items := Assign(items, k, v);
    }
  }

  /** The validator's loop: each entry in insertion order, returning the
      error of the first rejected one; None validates trivially. */
  method ValidateConnectorArgs(args: Dict?) returns (r: Option<Error>)
    ensures args == null ==> r.None?
    ensures args != null ==> r == Validate(args.items)
  {
    if args == null {
      return None;
    }
    var items := args.items;
    var i := 0;
    while i < |items|
      invariant 0 <= i <= |items|
      invariant Validate(items) == Validate(items[i..])
    {
      var (k, v) := items[i];
      assert items[i..][1..] == items[i + 1..];
      var check := CheckOption(k, v);
      if check.Some? {
        return check;
      }
      i := i + 1;
    }
    return None;
  }

  /** An asynchronous client configuration: botocore's options plus the
      connector options handed to the HTTP transport. */
  class AsyncConfig {
    /** botocore's _user_provided_options: the keyword options given. */
    var userProvidedOptions: map<string, Value>
    /** The stored connector options, a dict of this configuration's own. */
    var connectorArgs: Dict

    ghost predicate Valid()
      reads this, connectorArgs
    {
      StoredConnectorArgs(connectorArgs.items)
    }

    /** Only ever given options that already passed validation and carry
        the keep-alive default. */
    constructor Init(options: map<string, Value>, args: Dict)
      requires StoredConnectorArgs(args.items)
      ensures userProvidedOptions == options && connectorArgs == args
      ensures Valid()
    {
      userProvidedOptions := options;
      connectorArgs := args;
    }

    /** The value of an option as given by the user; None means botocore's
        built-in default applies. */
    function UserOption(name: string): Option<Value>
      reads this
    {
      if name in userProvidedOptions then Some(userProvidedOptions[name]) else None
    }

    /** AsyncConfig(connector_args, **kwargs). The constructor raises when the
        connector options are rejected; otherwise it stores a fresh copy of
        them (a new empty dict for None or {}) and adds keepalive_timeout = 12
        to that copy when absent. The caller's dict is never written. */
    static method New(connectorArgs: Dict?, kwargs: map<string, Value>) returns (r: Result<AsyncConfig, Error>)
      requires connectorArgs != null ==> DistinctKeys(connectorArgs.items)
      ensures r.Err? <==> connectorArgs != null && Validate(connectorArgs.items).Some?
      ensures connectorArgs != null && Validate(connectorArgs.items).Some? ==> r == Err(Validate(connectorArgs.items).value)
      ensures r.Ok? ==> fresh(r.value) && fresh(r.value.connectorArgs) && r.value.Valid()
      ensures r.Ok? ==> r.value.userProvidedOptions == kwargs
      ensures r.Ok? ==> r.value.connectorArgs.items == WithKeepalive(if connectorArgs == null then [] else connectorArgs.items)
      ensures connectorArgs != null ==> connectorArgs.items == old(connectorArgs.items)
    {
      // botocore's own Config.__init__ only records the keyword options here
      var check := ValidateConnectorArgs(connectorArgs);
      if check.Some? {
        return Err(check.value);
      }
      var stored: Dict;
      if connectorArgs == null || |connectorArgs.items| == 0 {
        stored := new Dict([]);
      } else {
        stored := connectorArgs.Copy();
      }
      ghost var given := if connectorArgs == null then [] else connectorArgs.items;
      assert stored.items == given;
      if !stored.Contains(KEEPALIVE_TIMEOUT) {
        stored.SetItem(KEEPALIVE_TIMEOUT, Int(KEEPALIVE_DEFAULT));
      }
      assert stored.items == WithKeepalive(given);
      WithKeepaliveValidates(given);
      var c := new AsyncConfig.Init(kwargs, stored);
      return Ok(c);
    }

    /** merge(other): this configuration's options overlaid with those other
        set, and this configuration's connector options; other's connector
        options play no part. Never fails, since the stored options pass
        validation again. */
    method Merge(other: AsyncConfig) returns (c: AsyncConfig)
      requires Valid()
      ensures fresh(c) && fresh(c.connectorArgs) && c.Valid()
      ensures c.userProvidedOptions.Keys == userProvidedOptions.Keys + other.userProvidedOptions.Keys
      ensures forall k :: k in c.userProvidedOptions ==>
        c.userProvidedOptions[k] == if k in other.userProvidedOptions then other.userProvidedOptions[k] else userProvidedOptions[k]
      ensures c.connectorArgs.items == connectorArgs.items
      ensures c.connectorArgs != connectorArgs
    {
      var options := userProvidedOptions;
      options := options + other.userProvidedOptions;
      var r := New(connectorArgs, options);
      c := r.value;
    }
  }
}
