/** The host side of the message path: the API and frame extensions and the
    bus's routing of incoming envelopes, plus `sendMessage`.

    The frames the frame extension emits (its rxjs subject) and the faults
    the API extension reports (its console warnings) are kept as sequences
    in `Host`.  The network is the parameter `fetch` of an `ApiService`.
 */
module MessageBus {
  import opened Messages
  import opened ProxyRegistry

  /** The host's API service: the names of its methods, and the network
      call each of them makes (method name and URL to the decoded JSON, or a
      failure). */
  datatype ApiService = ApiService(methods: set<string>, fetch: (string, Value) -> Outcome<Value>)

  /** The service class defines `get` and `post` only. */
  const ServedMethods: set<string> := {"get", "post"}

  /** The injected `ApiService` around a given network. */
  function HostApi(fetch: (string, Value) -> Outcome<Value>): (api: ApiService)
    ensures api.methods == {"get", "post"} && api.fetch == fetch
  {
    ApiService(ServedMethods, fetch)
  }

  /** A frame as handed to the presentation layer. */
  datatype HostFrame = HostFrame(id: Value, title: Value, content: Value)

  /** What the host's extensions have produced so far. */
  datatype Host = Host(frames: seq<HostFrame>, reports: seq<Fault>)

  /** An extension's result together with the host it leaves. */
  datatype Handled = Handled(host: Host, result: Value)

  /** The body of the API extension's `try`: take the URL from the first
      element of `data`, look the method up by `key`, call it and await the
      result.  Any step may throw. */
  function ApiCall(api: ApiService, key: string, data: Value): (o: Outcome<Value>)
    ensures FirstElement(data).Thrown? ==> o == Thrown(NotIterable)
    ensures FirstElement(data).Ok? && key !in api.methods ==> o == Thrown(NotAFunction(key))
    ensures FirstElement(data).Ok? && key in api.methods ==> o == api.fetch(key, FirstElement(data).value)
  {
    match FirstElement(data)
    case Thrown(f) => Thrown(f)
    case Ok(url) =>
      if key in api.methods then api.fetch(key, url) else Thrown(NotAFunction(key))
  }

  /** `ApiServiceExtension.handle(key, data)`: the call's value, or, when
      anything in it throws, one error report and undefined.  It never throws. */
  function ApiHandle(h: Host, api: ApiService, key: string, data: Value): (r: Handled)
    ensures r.host.frames == h.frames
    ensures ApiCall(api, key, data).Ok? ==> r == Handled(h, ApiCall(api, key, data).value)
    ensures ApiCall(api, key, data).Thrown? ==>
              r.result == Undefined && r.host.reports == h.reports + [ApiCall(api, key, data).fault]
  {
    match ApiCall(api, key, data)
    case Ok(v) => Handled(h, v)
    case Thrown(f) => Handled(h.(reports := h.reports + [f]), Undefined)
  }

  /** Only the first argument reaches the network: the rest of the argument
      list makes no difference. */
  lemma ApiUsesOnlyFirstArgument(h: Host, api: ApiService, key: string, args: seq<Value>)
    requires |args| > 0
    ensures ApiHandle(h, api, key, Arr(args)) == ApiHandle(h, api, key, Arr(args[..1]))
  {
  }

  /** `FrameServiceExtension.handle(key, data)`: emits the frame read off
      `data`; reading a field of an undefined or null `data` throws. */
  function FrameHandle(h: Host, key: string, data: Value): (o: Outcome<Host>)
    ensures o.Thrown? <==> data.Undefined? || data.Null?
    ensures o.Ok? ==> o.value.reports == h.reports
    ensures o.Ok? ==> o.value.frames == h.frames + [HostFrame(Prop(data, "id").value,
                                                              Prop(data, "title").value,
                                                              Prop(data, "body").value)]
  {
    match Prop(data, "id")
    case Thrown(f) => Thrown(f)
    case Ok(id) =>
      var title := Prop(data, "title").value;
      var body := Prop(data, "body").value;
      Ok(h.(frames := h.frames + [HostFrame(id, title, body)]))
  }

  /** The frame extension ignores the key it is called with. */
  lemma FrameHandleIgnoresKey(h: Host, k1: string, k2: string, data: Value)
    ensures FrameHandle(h, k1, data) == FrameHandle(h, k2, data)
  {
  }

  /** `MessageBusService.subscribe(payload)`: API envelopes go to the API
      extension and its result is returned; frame envelopes go to the frame
      extension and yield undefined; any other handler is ignored. */
  function Route(h: Host, api: ApiService, env: Envelope): (o: Outcome<Handled>)
    ensures env.handler == Api ==> o == Ok(ApiHandle(h, api, env.key, env.data))
    ensures env.handler == Frame ==>
              match FrameHandle(h, env.key, env.data)
              case Ok(h') => o == Ok(Handled(h', Undefined))
              case Thrown(f) => o == Thrown(f)
    ensures env.handler.Other? ==> o == Ok(Handled(h, Undefined))
  {
    if env.handler == Api then
      Ok(ApiHandle(h, api, env.key, env.data))
    else if env.handler == Frame then
      match FrameHandle(h, env.key, env.data)
      case Ok(h') => Ok(Handled(h', Undefined))
      case Thrown(f) => Thrown(f)
    else
      Ok(Handled(h, Undefined))
  }

  /** Routing changes at most one of the two logs, by at most one entry:
      a frame for a frame envelope, a report for a failing API envelope. */
  lemma RouteEffects(h: Host, api: ApiService, env: Envelope)
    ensures var o := Route(h, api, env);
            && (o.Ok? && env.handler == Frame ==>
                  |o.value.host.frames| == |h.frames| + 1 && o.value.host.reports == h.reports)
            && (o.Ok? && env.handler != Frame ==>
                  o.value.host.frames == h.frames && |o.value.host.reports| <= |h.reports| + 1)
            && (o.Ok? && env.handler != Api ==> o.value.result == Undefined)
            && (o.Thrown? ==> env.handler == Frame)
  {
  }

  /** The callback `createProxy` subscribes in the worker: routes an
      envelope against a snapshot of the host and returns the settled result. */
  function BusCallback(h: Host, api: ApiService): (cb: Envelope -> Outcome<Value>)
    ensures forall env :: Route(h, api, env).Ok? ==> cb(env) == Ok(Route(h, api, env).value.result)
    ensures forall env :: Route(h, api, env).Thrown? ==> cb(env) == Thrown(Route(h, api, env).fault)
  {
    env =>
      match Route(h, api, env)
      case Ok(x) => Ok(x.result)
      case Thrown(f) => Thrown(f)
  }

  /** Routes a worker's envelopes in the order they were sent.  A rejected
      route leaves the host as it was; later envelopes are still routed. */
  function Deliver(h: Host, api: ApiService, envs: seq<Envelope>): (r: Host)
    ensures |h.frames| <= |r.frames| <= |h.frames| + |envs| && r.frames[..|h.frames|] == h.frames
    ensures |h.reports| <= |r.reports| <= |h.reports| + |envs| && r.reports[..|h.reports|] == h.reports
    decreases |envs|
  {
    if |envs| == 0 then h
    else
      var h' := match Route(h, api, envs[0])
                case Ok(x) => x.host
                case Thrown(_) => h;
      Deliver(h', api, envs[1..])
  }

  /** The frame an envelope with object data turns into. */
  function FrameOf(env: Envelope): HostFrame
    requires env.data.Obj?
  {
    HostFrame(Prop(env.data, "id").value, Prop(env.data, "title").value, Prop(env.data, "body").value)
  }

  ghost predicate AllFrameObjects(envs: seq<Envelope>)
  {
    forall i :: 0 <= i < |envs| ==> envs[i].handler == Frame && envs[i].data.Obj?
  }

  function FramesOf(envs: seq<Envelope>): (fs: seq<HostFrame>)
    requires AllFrameObjects(envs)
    ensures |fs| == |envs|
  {
    if |envs| == 0 then [] else [FrameOf(envs[0])] + FramesOf(envs[1..])
  }

  /** The i-th frame is the frame of the i-th envelope. */
  lemma {:induction false} FramesOfPointwise(envs: seq<Envelope>, i: int)
    requires AllFrameObjects(envs) && 0 <= i < |envs|
    ensures FramesOf(envs)[i] == FrameOf(envs[i])
    decreases |envs|
  {
    if i > 0 {
      assert AllFrameObjects(envs[1..]);
      FramesOfPointwise(envs[1..], i - 1);
    }
  }

  /** Frames reach the presentation layer one per render message, in the
      order the worker sent them, and no error is reported. */
  lemma {:induction false} DeliverFramesInOrder(h: Host, api: ApiService, envs: seq<Envelope>)
    requires AllFrameObjects(envs)
    ensures Deliver(h, api, envs).frames == h.frames + FramesOf(envs)
    ensures Deliver(h, api, envs).reports == h.reports
    decreases |envs|
  {
    if |envs| > 0 {
      var h' := Host(h.frames + [FrameOf(envs[0])], h.reports);
      RouteFrameObject(h, api, envs[0]);
      assert Deliver(h, api, envs) == Deliver(h', api, envs[1..]);
      assert AllFrameObjects(envs[1..]);
      DeliverFramesInOrder(h', api, envs[1..]);
      assert FramesOf(envs) == [FrameOf(envs[0])] + FramesOf(envs[1..]);
      assert h'.frames + FramesOf(envs[1..]) == h.frames + FramesOf(envs);
    }
  }

  /** A frame envelope with object data is routed to exactly its frame. */
  lemma RouteFrameObject(h: Host, api: ApiService, env: Envelope)
    requires env.handler == Frame && env.data.Obj?
    ensures Route(h, api, env) == Ok(Handled(Host(h.frames + [FrameOf(env)], h.reports), Undefined))
  {
  }

  /** The request `sendMessage` passes to the worker's `handle`. */
  datatype Request = Request(command: Value, data: Value)

  /** A call of `handle` on the worker behind `target`. */
  datatype Call = Call(target: Handle, request: Request)

  /** `sendMessage(proxy, payload)`: calls the proxy's `handle` with the
      payload's `command` and `data` and nothing else.  `None` stands for an
      undefined or null proxy.  `proxy.handle` is read before the argument
      object is built, so a missing proxy throws first; otherwise an
      undefined or null payload throws. */
  function SendMessage(proxy: Option<Handle>, payload: Value): (o: Outcome<Call>)
    ensures o.Thrown? <==> proxy.None? || payload.Undefined? || payload.Null?
    ensures proxy.None? ==> o == Thrown(NullishAccess("handle"))
    ensures o.Ok? ==> o.value.target == proxy.value
    ensures o.Ok? ==> o.value.request.command == Prop(payload, "command").value
    ensures o.Ok? ==> o.value.request.data == Prop(payload, "data").value
  {
    match proxy
    case None => Thrown(NullishAccess("handle"))
    case Some(target) =>
      match Prop(payload, "command")
      case Thrown(f) => Thrown(f)
      case Ok(command) => Ok(Call(target, Request(command, Prop(payload, "data").value)))
  }

  /** Two payloads that agree on `command` and `data` send the same call,
      whatever else they carry; an object payload's two fields are sent
      as they are. */
  lemma SendMessageForwardsOnlyCommandAndData(proxy: Option<Handle>, p: Value, q: Value)
    requires Prop(p, "command") == Prop(q, "command") && Prop(p, "data") == Prop(q, "data")
    ensures SendMessage(proxy, p) == SendMessage(proxy, q)
    ensures proxy.Some? && p.Obj? && "command" in p.fields && "data" in p.fields ==>
              SendMessage(proxy, p) == Ok(Call(proxy.value, Request(p.fields["command"], p.fields["data"])))
  {
  }
}
