/** The gateway request handler: per-request delegate preparation through the hooks,
    the client timeout clamp, the allow-list check, the action-hook short circuit,
    dispatch, and the normalisation of the reply or error. The host framework's
    message resolution, matching, delegate calls and dispatch are parameters. */
module Gateway {
  import opened Js
  import opened AllowList
  import opened Hooks

  /** The gateway options that affect behaviour (logging flags are omitted). */
  datatype Options = Options(
    allow: Option<map<string, RuleValue>>,  // `allow`; `None` switches the check off
    custom: Json,                           // `custom`: base of the custom meta data
    fixed: Json,                            // `fixed`: base of the fixed arguments
    timeoutClient: bool,                    // `timeout.client`
    timeoutMax: int,                        // `timeout.max`
    errorMessage: bool,                     // `error.message`
    errorDetails: bool,                     // `error.details`
    debugResponse: bool)                    // `debug.response`

  /** The plugin's default options. */
  const Defaults: Options :=
    Options(None, Obj(map["safe" := Bool(false)]), Obj(map[]), false, -1, false, false, false)

  /** The `timeout$` directive of the raw message: absent (null or undefined), a
      number, or a value whose numeric conversion is NaN. */
  datatype TimeoutDirective = NoTimeout | Numeric(ms: int) | NotANumber

  /** The timeout the handler sets on the message, if any: only when clients may set
      one and the directive is present, and only up to the effective maximum, which is
      `timeout.max` when positive and the host delegate's own timeout otherwise. */
  function ClientTimeout(opts: Options, hostTimeout: int, d: TimeoutDirective): (t: Option<int>)
    ensures t.Some? ==> opts.timeoutClient && d == Numeric(t.value)
    ensures t.Some? && 0 < opts.timeoutMax ==> t.value <= opts.timeoutMax
    ensures t.Some? && opts.timeoutMax <= 0 ==> t.value <= hostTimeout
    ensures opts.timeoutClient && d.Numeric? && 0 < opts.timeoutMax && d.ms <= opts.timeoutMax ==> t == Some(d.ms)
    ensures opts.timeoutClient && d.Numeric? && opts.timeoutMax <= 0 && d.ms <= hostTimeout ==> t == Some(d.ms)
  {
    if opts.timeoutClient && !d.NoTimeout? then
      var maxTimeout := if 0 < opts.timeoutMax then opts.timeoutMax else hostTimeout;
      if d.Numeric? && d.ms <= maxTimeout then Some(d.ms) else None
    else None
  }

  /** With the default options a client can never set a timeout. */
  lemma DefaultsIgnoreClientTimeout(hostTimeout: int, d: TimeoutDirective)
    ensures ClientTimeout(Defaults, hostTimeout, d) == None
  {
  }

  /** The object `nundef` leaves: the keys whose value is not undefined. */
  function Defined(o: map<string, Json>): (r: map<string, Json>)
    ensures forall k :: k in r <==> k in o && o[k] != Undefined
    ensures forall k :: k in r ==> r[k] == o[k]
  {
    map k | k in o && o[k] != Undefined :: o[k]
  }

  /** `nundef`: delete, one key at a time, every key whose value is undefined. */
  method Nundef(o: map<string, Json>) returns (r: map<string, Json>)
    ensures r == Defined(o)
  {
    r := o;
    var pending := o.Keys;
    while pending != {}
      invariant pending <= o.Keys
      invariant forall k :: k in r ==> k in o && r[k] == o[k]
      invariant forall k :: k in o && k !in pending ==> (k in r <==> o[k] != Undefined)
      invariant forall k :: k in pending ==> k in r
      decreases pending
    {
      var k :| k in pending;
      if r[k] == Undefined {
        r := r - {k};
      }
      pending := pending - {k};
    }
  }

  /** A thrown error as the dispatch reports it. */
  datatype ErrorInfo = ErrorInfo(name: Json, id: Json, code: Json, message: Json, details: Json)

  /** What dispatch produced: the error, if any, the reply after transport
      externalisation, and the action's meta data. */
  datatype Dispatch = Dispatch(err: Option<ErrorInfo>, out: map<string, Json>, meta: Json)

  /** The handler's result envelope; the rejection envelope has no meta and no
      directives. */
  datatype GatewayResult = GatewayResult(error: bool, out: map<string, Json>, meta: Option<Json>, directives: Option<Json>)

  /** What the handler resolves with: a short-circuiting action hook's value as is, or a
      result envelope. */
  datatype Response = ShortCircuit(value: Json) | Resolved(result: GatewayResult)

  /** Outside debug mode a truthy `meta$` is cut down to its id. */
  function TrimMeta(out: map<string, Json>, debugResponse: bool): (r: map<string, Json>)
    ensures r.Keys == out.Keys
    ensures forall k :: k in r && k != "meta$" ==> r[k] == out[k]
    ensures !debugResponse && "meta$" in out && Truthy(out["meta$"]) ==>
      r["meta$"] == Obj(map["id" := Field(out["meta$"], "id")])
    ensures debugResponse || "meta$" !in out || !Truthy(out["meta$"]) ==> r == out
  {
    if !debugResponse && "meta$" in out && Truthy(out["meta$"])
    then out["meta$" := Obj(map["id" := Field(out["meta$"], "id")])]
    else out
  }

  /** On an error the handler writes `meta$.error`, which needs `meta$` to be an object. */
  predicate Normalizable(reply: Dispatch, debugResponse: bool) {
    reply.err.Some? ==>
      var out := TrimMeta(reply.out, debugResponse);
      "meta$" in out && out["meta$"].Obj?
  }

  /** The error descriptor that replaces the reply when dispatch failed. */
  function ErrorOut(e: ErrorInfo, meta: Json, opts: Options, freshId: string): (out: map<string, Json>)
    requires meta.Obj?
    ensures out.Keys <= {"meta$", "name", "id", "code", "message", "details"}
    ensures "meta$" in out && Field(out["meta$"], "error") == Bool(true)
    ensures "id" in out && out["id"] != Undefined && "gateway$" !in out
    ensures ("name" in out <==> e.name != Undefined) && ("code" in out <==> e.code != Undefined)
    ensures "message" in out <==> opts.errorMessage && e.message != Undefined
    ensures "details" in out <==> opts.errorDetails && e.details != Undefined
    ensures out["meta$"] == Obj(meta.fields["error" := Bool(true)])
    ensures out["id"] == (if Truthy(e.id) then e.id else Str(freshId))
    ensures ("name" in out ==> out["name"] == e.name) && ("code" in out ==> out["code"] == e.code)
    ensures ("message" in out ==> out["message"] == e.message) && ("details" in out ==> out["details"] == e.details)
  {
    Defined(RawErrorDesc(e, meta, opts, freshId))
  }

  /** The error descriptor before `nundef`: every key present, a disabled message or
      details undefined. */
  function RawErrorDesc(e: ErrorInfo, meta: Json, opts: Options, freshId: string): (desc: map<string, Json>)
    requires meta.Obj?
    ensures desc.Keys == {"meta$", "name", "id", "code", "message", "details"}
    ensures desc["meta$"] == Obj(meta.fields["error" := Bool(true)])
    ensures desc["id"] == (if Truthy(e.id) then e.id else Str(freshId))
    ensures desc["name"] == e.name && desc["code"] == e.code
    ensures desc["message"] == (if opts.errorMessage then e.message else Undefined)
    ensures desc["details"] == (if opts.errorDetails then e.details else Undefined)
  {
    map[
      "meta$" := Obj(meta.fields["error" := Bool(true)]),
      "name" := e.name,
      "id" := (if Truthy(e.id) then e.id else Str(freshId)),
      "code" := e.code,
      "message" := (if opts.errorMessage then e.message else Undefined),
      "details" := (if opts.errorDetails then e.details else Undefined)]
  }

  /** Normalisation of a dispatched reply. The `gateway$` directives leave `out` for the
      envelope; on an error `out` becomes a descriptor that always carries an id and a
      `meta$` marked as an error, and carries a message or details only when the
      options enable them and the error has one. */
  function Normalize(reply: Dispatch, opts: Options, freshId: string): (r: GatewayResult)
    requires Normalizable(reply, opts.debugResponse)
    ensures r.error <==> reply.err.Some?
    ensures r.meta == Some(reply.meta)
    ensures r.directives ==
      Some(if "gateway$" in reply.out && Truthy(reply.out["gateway$"]) then reply.out["gateway$"] else Obj(map[]))
    ensures "gateway$" !in r.out
    ensures reply.err.None? ==> forall k :: k in r.out <==> k in reply.out && k != "gateway$"
    ensures reply.err.None? ==> forall k :: k in r.out && k != "meta$" ==> r.out[k] == reply.out[k]
    ensures reply.err.None? ==> r.out == TrimMeta(reply.out, opts.debugResponse) - {"gateway$"}
    ensures !opts.debugResponse && "meta$" in reply.out && Truthy(reply.out["meta$"]) ==>
      "meta$" in r.out && Field(r.out["meta$"], "id") == Field(reply.out["meta$"], "id")
    ensures reply.err.Some? ==>
      r.out == ErrorOut(reply.err.value, TrimMeta(reply.out, opts.debugResponse)["meta$"], opts, freshId)
  {
    var trimmed := TrimMeta(reply.out, opts.debugResponse);
    var directives := if "gateway$" in trimmed && Truthy(trimmed["gateway$"]) then trimmed["gateway$"] else Obj(map[]);
    var out := trimmed - {"gateway$"};
    if reply.err.None? then
      GatewayResult(false, out, Some(reply.meta), Some(directives))
    else
      GatewayResult(true, ErrorOut(reply.err.value, trimmed["meta$"], opts, freshId), Some(reply.meta), Some(directives))
  }

  /** With the default options an error reply never carries a message or details. */
  lemma DefaultsHideErrorText(reply: Dispatch, freshId: string)
    requires reply.err.Some? && Normalizable(reply, Defaults.debugResponse)
    ensures "message" !in Normalize(reply, Defaults, freshId).out
    ensures "details" !in Normalize(reply, Defaults, freshId).out
  {
  }

  /** The `errdesc` of a refusal before `nundef`: `allowed` starts undefined; debug mode
      sets the pattern and the flag, both undefined when no definition was found. */
  function NotAllowedDesc(def: Option<MsgDef>, allowMsg: Json, debugResponse: bool, freshId: string): (desc: map<string, Json>)
    ensures desc.Keys == {"name", "id", "code", "message", "allowed"} + (if debugResponse then {"pattern"} else {})
    ensures desc["name"] == Str("Error") && desc["id"] == Str(freshId)
    ensures desc["code"] == Str("not-allowed") && desc["message"] == Str("Message not allowed")
    ensures desc["allowed"] == (if debugResponse && def.Some? then allowMsg else Undefined)
    ensures debugResponse ==> desc["pattern"] == (if def.Some? then Str(def.value.pattern) else Undefined)
  {
    var base := map[
      "name" := Str("Error"),
      "id" := Str(freshId),
      "code" := Str("not-allowed"),
      "message" := Str("Message not allowed"),
      "allowed" := Undefined];
    if debugResponse
    then base["pattern" := (if def.Some? then Str(def.value.pattern) else Undefined)]
             ["allowed" := (if def.Some? then allowMsg else Undefined)]
    else base
  }

  /** The keys of a refusal descriptor after `nundef`: the fixed four, and the pattern
      and the flag when they are shown. */
  function RefusalKeys(shown: bool): set<string> {
    {"name", "id", "code", "message"} + (if shown then {"pattern", "allowed"} else {})
  }

  /** The refusal descriptor after `nundef`: the fixed fields, and in debug mode with a
      found definition the pattern and the flag. */
  function CleanNotAllowedDesc(def: Option<MsgDef>, allowMsg: Json, debugResponse: bool, freshId: string): (desc: map<string, Json>)
    requires allowMsg != Undefined
    ensures desc.Keys == RefusalKeys(debugResponse && def.Some?)
    ensures desc["name"] == Str("Error") && desc["id"] == Str(freshId)
    ensures desc["code"] == Str("not-allowed") && desc["message"] == Str("Message not allowed")
    ensures debugResponse && def.Some? ==> desc["pattern"] == Str(def.value.pattern) && desc["allowed"] == allowMsg
  {
    Defined(NotAllowedDesc(def, allowMsg, debugResponse, freshId))
  }

  /** The refusal of a message the allow-list does not let through. The descriptor is
      spread into `out` and also nested as the deprecated `error$`; the pattern and the
      `allowed` flag appear only in debug mode and only when a definition was found. */
  function Rejection(def: Option<MsgDef>, allowMsg: Json, debugResponse: bool, freshId: string, rawId: Json): (r: GatewayResult)
    requires allowMsg != Undefined
    ensures r.error && r.meta.None? && r.directives.None?
    ensures r.out.Keys == RefusalKeys(debugResponse && def.Some?) + {"meta$", "error$"}
    ensures r.out["name"] == Str("Error") && r.out["id"] == Str(freshId)
    ensures r.out["code"] == Str("not-allowed") && r.out["message"] == Str("Message not allowed")
    ensures debugResponse && def.Some? ==> r.out["pattern"] == Str(def.value.pattern) && r.out["allowed"] == allowMsg
    ensures r.out["meta$"] == Obj(map["id" := rawId, "error" := Bool(true)])
    ensures r.out["error$"] == Obj(r.out - {"meta$", "error$"})
  {
    var clean := CleanNotAllowedDesc(def, allowMsg, debugResponse, freshId);
    GatewayResult(true, Spread(clean, Obj(map["id" := rawId, "error" := Bool(true)])), None, None)
  }

  /** The descriptor spread into `out`, with `meta$` added and the descriptor itself
      nested again as `error$`. */
  function Spread(desc: map<string, Json>, meta: Json): (out: map<string, Json>)
    requires "meta$" !in desc && "error$" !in desc
    ensures out.Keys == desc.Keys + {"meta$", "error$"}
    ensures forall k :: k in desc ==> out[k] == desc[k]
    ensures out["meta$"] == meta && out["error$"] == Obj(desc)
    ensures out - {"meta$", "error$"} == desc
  {
    desc["meta$" := meta]["error$" := Obj(desc)]
  }

  /** The request delegate: the merged fixed arguments and custom meta data, and
      whatever delegate hooks add to it. */
  datatype RequestDelegate = RequestDelegate(fixed: Json, custom: Json, extra: map<string, Json>)

  /** The host framework as the handler uses it, for one request (the functions may
      depend on the raw request and its context). */
  datatype Host = Host(
    find: Msg -> Option<MsgDef>,                       // `seneca.find(msg)`
    lookup: Lookup,                                    // `allowed.find` on a canon
    accepts: (string, Msg) -> bool,                    // a parameter pattern matches a message
    merge: (Json, Hook) -> Json,                       // a custom or fixed hook on its accumulator
    adjust: (RequestDelegate, Hook) -> RequestDelegate,// a delegate hook
    callAction: (RequestDelegate, Hook, Msg) -> Json,  // an action hook's result
    act: (RequestDelegate, Msg) -> Dispatch,           // `seneca.act`, externalised
    timeout: int)                                      // the delegate's default timeout

  /** One inbound request: the cleaned message, the raw `timeout$` and `id$`
      directives, and whether the context asks for local dispatch. */
  datatype Request = Request(msg: Msg, timeout: TimeoutDirective, id: Json, local: bool)

  class Gateway {
    const options: Options
    /** The allow table, when the allow option is set. */
    const table: Option<map<string, Allowance>>
    const hooks: HookRegistry

    /** Plugin start: the allow table is built from the allow option, if any. */
    constructor (options: Options, hooks: HookRegistry)
      ensures this.options == options && this.hooks == hooks
      ensures table.Some? <==> options.allow.Some?
      ensures options.allow.Some? ==> table.value == BuildTable(options.allow.value)
    {
      this.options := options;
      this.hooks := hooks;
      table := match options.allow case Some(a) => Some(BuildTable(a)) case None => None;
    }

    /** The delegate `prepare` builds: custom and fixed hooks over copies of their
        bases, the delegate from both, then the delegate hooks, each list in
        registration order. */
    function Prepared(host: Host): RequestDelegate
      reads hooks
    {
      var custom := Fold(host.merge, options.custom, hooks.custom);
      var fixed := Fold(host.merge, options.fixed, hooks.fixed);
      Fold(host.adjust, RequestDelegate(fixed, custom, map[]), hooks.delegate)
    }

    /** `prepare`: the three hook loops. */
    method Prepare(host: Host) returns (d: RequestDelegate)
      ensures d == Prepared(host)
    {
      var custom := options.custom;
      var i := 0;
      while i < |hooks.custom|
        invariant i <= |hooks.custom|
        invariant Fold(host.merge, custom, hooks.custom[i..]) == Fold(host.merge, options.custom, hooks.custom)
      {
        custom := host.merge(custom, hooks.custom[i]);
        i := i + 1;
      }
      var fixed := options.fixed;
      i := 0;
      while i < |hooks.fixed|
        invariant i <= |hooks.fixed|
        invariant Fold(host.merge, fixed, hooks.fixed[i..]) == Fold(host.merge, options.fixed, hooks.fixed)
      {
        fixed := host.merge(fixed, hooks.fixed[i]);
        i := i + 1;
      }
      d := RequestDelegate(fixed, custom, map[]);
      i := 0;
      while i < |hooks.delegate|
        invariant i <= |hooks.delegate|
        invariant Fold(host.adjust, d, hooks.delegate[i..]) == Prepared(host)
      {
        d := host.adjust(d, hooks.delegate[i]);
        i := i + 1;
      }
    }

    /** The message after the timeout clamp: what the allow check and the action hooks see. */
    function Inbound(req: Request, host: Host): Msg {
      match ClientTimeout(options, host.timeout, req.timeout)
      case Some(t) => req.msg["timeout$" := Num(t)]
      case None => req.msg
    }

    /** The message handed to dispatch: the inbound one, marked local when asked. */
    function Outbound(req: Request, host: Host): Msg {
      if req.local then Inbound(req, host)["local$" := Bool(true)] else Inbound(req, host)
    }

    /** The allow-list is on and refuses the inbound message. */
    predicate Refuses(req: Request, host: Host) {
      var m := Inbound(req, host);
      table.Some? && Decide(host.find(m), table.value, host.lookup, m, host.accepts).Refused?
    }

    /** The handler gets as far as dispatch: the allow-list lets the message through and
        every action hook returns a falsy value. */
    predicate Dispatches(req: Request, host: Host)
      reads hooks
    {
      && !Refuses(req, host)
      && forall k :: 0 <= k < |hooks.action| ==>
           !Truthy(host.callAction(Prepared(host), hooks.action[k], Inbound(req, host)))
    }

    /** `handler`. A refused message gets the rejection and nothing runs; otherwise the
        first action hook with a truthy result answers and nothing is dispatched; only
        when every action hook returns a falsy value is the message dispatched, and
        then the reply is normalised. `sent` is the dispatched message, if any. */
    method Handle(req: Request, host: Host, freshId: string) returns (resp: Response, sent: Option<Msg>)
      requires Dispatches(req, host) ==> Normalizable(host.act(Prepared(host), Outbound(req, host)), options.debugResponse)
      ensures Refuses(req, host) ==>
        var m := Inbound(req, host);
        sent.None? &&
        resp == Resolved(Rejection(host.find(m), Decide(host.find(m), table.value, host.lookup, m, host.accepts).allowMsg,
                                   options.debugResponse, freshId, req.id))
      ensures !Refuses(req, host) && resp.ShortCircuit? ==>
        sent.None? &&
        exists k :: 0 <= k < |hooks.action|
          && resp.value == host.callAction(Prepared(host), hooks.action[k], Inbound(req, host))
          && Truthy(resp.value)
          && forall j :: 0 <= j < k ==> !Truthy(host.callAction(Prepared(host), hooks.action[j], Inbound(req, host)))
      ensures (!Refuses(req, host) &&
               exists k :: 0 <= k < |hooks.action| && Truthy(host.callAction(Prepared(host), hooks.action[k], Inbound(req, host)))) ==>
        resp.ShortCircuit?
      ensures !Refuses(req, host) && resp.Resolved? ==>
        sent == Some(Outbound(req, host)) &&
        resp.result == Normalize(host.act(Prepared(host), Outbound(req, host)), options, freshId)
    {
      var d := Prepare(host);
      var msg := req.msg;
      var t := ClientTimeout(options, host.timeout, req.timeout);
      if t.Some? {
        msg := msg["timeout$" := Num(t.value)];
      }
      assert msg == Inbound(req, host);
      if table.Some? {
        var def := host.find(msg);
        var verdict := Decide(def, table.value, host.lookup, msg, host.accepts);
        if verdict.Refused? {
          resp := Resolved(Rejection(def, verdict.allowMsg, options.debugResponse, freshId, req.id));
          return resp, None;
        }
      }
      var actions := hooks.action;
      var k := FirstTruthy(actions, h => host.callAction(d, h, msg));
      if k < |actions| {
        return ShortCircuit(host.callAction(d, actions[k], msg)), None;
      }
      if req.local {
        msg := msg["local$" := Bool(true)];
      }
      var reply := host.act(d, msg);
      resp := Resolved(Normalize(reply, options, freshId));
      sent := Some(msg);
    }
  }
}
