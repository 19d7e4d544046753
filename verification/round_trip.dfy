/** The two sides put together: a worker whose emit slot holds the host bus's
    callback (which is what `createProxy` subscribes), and what a call
    through a facade or a frame render turns into on the host.
 */
module RoundTrip {
  import opened Messages
  import opened SandboxWorker
  import opened MessageBus
  import opened ProxyRegistry

  /** What the host answers to an API call whose network outcome is `o`. */
  function Answer(o: Outcome<Value>): Value
  {
    match o
    case Ok(v) => v
    case Thrown(_) => Undefined
  }

  /** Calling a declared verb of the API facade that the host service also
      defines: one `{API, verb, args}` envelope leaves the worker, and the
      reply is the network result for the first argument, or undefined when
      the network call fails. */
  lemma ApiCallRoundTrip(w: Worker, h: Host, api: ApiService, verb: string,
                         url: Value, rest: seq<Value>)
    requires verb in Actions(ApiManager) && verb in api.methods
    ensures Resolve(WithProxy(ApiManager), verb) == Remote(RemoteAction(Api, verb))
    ensures var w1 := Subscribe(w, BusCallback(h, api));
            var r := Apply(w1, RemoteAction(Api, verb), [url] + rest);
            && r.Ok?
            && r.value.worker.outbox == w.outbox + [Envelope(Api, verb, Arr([url] + rest))]
            && r.value.reply == Ok(Answer(api.fetch(verb, url)))
  {
  }

  /** `createProxy` on both sides: the host stores the new handle, and the
      `subscribe` call it makes on that handle puts the bus's callback into
      the worker's emit slot.  `w` is the state of the worker behind the new
      handle, `c.created.handle`; the caller supplies the pairing, since the
      registry keeps only the handle. */
  datatype Connected = Connected(created: Created, worker: Worker)

  function CreateProxyAndSubscribe(r: Registry, freshKey: string, given: Option<WorkerRef>,
                                   w: Worker, h: Host, api: ApiService): (c: Connected)
    ensures c.created == CreateProxy(r, freshKey, given)
    ensures c.worker.emit == Some(BusCallback(h, api))
    ensures c.worker.outbox == w.outbox && c.worker.counter == w.counter
  {
    Connected(CreateProxy(r, freshKey, given), Subscribe(w, BusCallback(h, api)))
  }

  /** A fresh worker cannot send before `createProxy` has subscribed the bus;
      afterwards the new handle is stored under its key and a served verb is
      answered with the network result. */
  lemma ConnectedWorkerAnswersApiCalls(r: Registry, freshKey: string, h: Host,
                                       fetch: (string, Value) -> Outcome<Value>,
                                       verb: string, url: Value)
    requires verb == "get" || verb == "post"
    ensures Apply(Initial(), RemoteAction(Api, verb), [url]) == Thrown(EmitUnset)
    ensures var c := CreateProxyAndSubscribe(r, freshKey, None, Initial(), h, HostApi(fetch));
            && GetProxy(c.created.registry, freshKey) == Some(Handle(Spawned(freshKey)))
            && var sent := Apply(c.worker, RemoteAction(Api, verb), [url]);
            && sent.Ok?
            && sent.value.worker.outbox == [Envelope(Api, verb, Arr([url]))]
            && sent.value.reply == Ok(Answer(fetch(verb, url)))
  {
  }

  // ------------------------------------------------ finding: put and delete

  /** As written: the worker declares `put` and `delete`, but the host service
      has no such methods, so a call of either is reported as an error and
      answered with undefined, even when the network would have succeeded. */
  lemma PutAndDeleteNeverServed(w: Worker, h: Host, fetch: (string, Value) -> Outcome<Value>,
                                verb: string, url: Value)
    requires verb == "put" || verb == "delete"
    ensures Resolve(WithProxy(ApiManager), verb).Remote?
    ensures var env := Envelope(Api, verb, Arr([url]));
            Route(h, HostApi(fetch), env)
              == Ok(Handled(h.(reports := h.reports + [NotAFunction(verb)]), Undefined))
    ensures var r := Apply(Subscribe(w, BusCallback(h, HostApi(fetch))), RemoteAction(Api, verb), [url]);
            r.Ok? && r.value.reply == Ok(Undefined)
  {
  }

  /** A host service that defines every verb the API manager declares. */
  function FullApi(fetch: (string, Value) -> Outcome<Value>): (api: ApiService)
    ensures forall verb :: verb in Actions(ApiManager) <==> verb in api.methods
    ensures api.fetch == fetch
  {
    ApiService((set verb | verb in Actions(ApiManager)), fetch)
  }

  /** With the full service every declared verb reaches the network and its
      result comes back to the caller. */
  lemma EveryDeclaredVerbServed(w: Worker, h: Host, fetch: (string, Value) -> Outcome<Value>,
                                verb: string, url: Value)
    requires verb in {"get", "post", "put", "delete"}
    ensures Resolve(WithProxy(ApiManager), verb).Remote?
    ensures var r := Apply(Subscribe(w, BusCallback(h, FullApi(fetch))), RemoteAction(Api, verb), [url]);
            r.Ok? && r.value.reply == Ok(Answer(fetch(verb, url)))
  {
  }

  // ------------------------------------------------ finding: frame titles

  /** As written: the render payload carries no title, so the frame the host
      hands to the presentation layer has an undefined title whatever the
      frame was created with. */
  lemma RenderedTitleIsLost(w: Worker, h: Host, api: ApiService, cb: Callback,
                            title: Value, freshId: string, body: Value)
    ensures var fr := Create(title, freshId);
            var r := Render(Subscribe(w, cb), fr, body);
            && r.Ok?
            && var env := r.value.outbox[|w.outbox|];
            && Route(h, api, env).Ok?
            && Route(h, api, env).value.host.frames
                 == h.frames + [HostFrame(Str(freshId), Undefined, body)]
  {
  }

  /** With the titled payload the host's frame carries the id, the title and
      the body the worker rendered. */
  lemma RenderedTitleArrives(w: Worker, h: Host, api: ApiService, cb: Callback,
                             title: Value, freshId: string, body: Value)
    ensures var fr := Create(title, freshId);
            var r := RenderTitled(Subscribe(w, cb), fr, body);
            && r.Ok?
            && var env := r.value.outbox[|w.outbox|];
            && Route(h, api, env).Ok?
            && Route(h, api, env).value.result == Undefined
            && Route(h, api, env).value.host.frames
                 == h.frames + [HostFrame(Str(freshId), title, body)]
  {
  }
}
