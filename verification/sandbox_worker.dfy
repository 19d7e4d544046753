/** The worker side: the exposed object with its single emit slot, the
    manager classes with their static action lists, the member-access facade
    that turns declared actions into messages, the injector, and frames.

    Sending a message appends the envelope to the worker's `outbox` and
    returns whatever the currently subscribed callback returns for it.
 */
module SandboxWorker {
  import opened Messages

  /** The host callback registered through `subscribe`; its result is the
      (settled) promise the host's handler returns. */
  type Callback = Envelope -> Outcome<Value>

  /** The exposed object's state: `counter`, the `emit` slot (null until a
      callback is subscribed) and every envelope sent so far. */
  datatype Worker = Worker(counter: int, emit: Option<Callback>, outbox: seq<Envelope>)

  /** The exposed object as the worker script creates it. */
  function Initial(): (w: Worker)
    ensures w.counter == 0 && w.emit.None? && |w.outbox| == 0
  {
    Worker(0, None, [])
  }

  /** `increment()`: bumps the counter and touches nothing else. */
  function Increment(w: Worker): (r: Worker)
    ensures r.counter == w.counter + 1
    ensures r.emit == w.emit && r.outbox == w.outbox
  {
    w.(counter := w.counter + 1)
  }

  /** `subscribe(cb)`: stores `cb` as the one emit callback, dropping any
      earlier one. */
  function Subscribe(w: Worker, cb: Callback): (r: Worker)
    ensures r.emit == Some(cb)
    ensures r.counter == w.counter && r.outbox == w.outbox
  {
    w.(emit := Some(cb))
  }

  /** What a successful `send` leaves behind: the new state and the callback's result. */
  datatype Sent = Sent(worker: Worker, reply: Outcome<Value>)

  /** `send(handler, key, data)`: hands one `{handler, key, data}` envelope to
      the current callback and returns its result; with no callback yet the
      call of `this.emit` throws. */
  function Send(w: Worker, handler: HandlerType, key: string, data: Value): (r: Outcome<Sent>)
    ensures r.Thrown? <==> w.emit.None?
    ensures r.Thrown? ==> r.fault == EmitUnset
    ensures r.Ok? ==> r.value.worker.outbox == w.outbox + [Envelope(handler, key, data)]
    ensures r.Ok? ==> r.value.reply == w.emit.value(Envelope(handler, key, data))
    ensures r.Ok? ==> r.value.worker.emit == w.emit && r.value.worker.counter == w.counter
  {
    match w.emit
    case None => Thrown(EmitUnset)
    case Some(cb) =>
      var env := Envelope(handler, key, data);
      Ok(Sent(w.(outbox := w.outbox + [env]), cb(env)))
  }

  /** Subscribing twice and then sending reaches only the second callback,
      whatever the first one was. */
  lemma LastSubscriberWins(w: Worker, first: Callback, second: Callback,
                           handler: HandlerType, key: string, data: Value)
    ensures var r := Send(Subscribe(Subscribe(w, first), second), handler, key, data);
            r.Ok? && r.value.reply == second(Envelope(handler, key, data))
  {
  }

  // ---------------------------------------------------------------- managers

  /** The two concrete manager classes (the base class is abstract). */
  datatype ManagerClass = ApiManager | FrameManager

  /** The names an instance answers to through `in`: inherited from
      `Object.prototype` by every object. */
  const ObjectPrototypeMembers: set<string> :=
    {"constructor", "toString", "toLocaleString", "valueOf", "hasOwnProperty",
     "isPrototypeOf", "propertyIsEnumerable", "__proto__", "__defineGetter__",
     "__defineSetter__", "__lookupGetter__", "__lookupSetter__"}

  /** The static `actions` list, looked up through the class chain: only the
      API manager overrides the base class's empty list. */
  function Actions(c: ManagerClass): (actions: seq<string>)
    ensures c == FrameManager ==> |actions| == 0
    ensures forall a :: a in actions <==> c == ApiManager && a in {"get", "post", "put", "delete"}
  {
    match c
    case ApiManager => ["get", "post", "put", "delete"]
    case FrameManager => []
  }

  /** The `handlerType` field each class initialises: the API manager's
      envelopes go to the host's API extension and the frame manager's to its
      frame extension, and no class uses any other handler. */
  function HandlerOf(c: ManagerClass): (h: HandlerType)
    ensures (h == Api) <==> (c == ApiManager)
    ensures (h == Frame) <==> (c == FrameManager)
    ensures !h.Other?
  {
    match c
    case ApiManager => Api
    case FrameManager => Frame
  }

  /** Own field `handlerType`, the class's prototype methods, and what every object inherits. */
  function MembersOf(c: ManagerClass): (members: set<string>)
    ensures ObjectPrototypeMembers <= members && "handlerType" in members
    ensures "create" in members <==> c == FrameManager
    ensures forall a :: a in Actions(c) ==> a !in members
  {
    match c
    case ApiManager => {"handlerType"} + ObjectPrototypeMembers
    case FrameManager => {"handlerType", "create"} + ObjectPrototypeMembers
  }

  /** A proxied manager: the wrapped instance, seen as its handler type and
      its set of member names, and the class's declared actions. */
  datatype Facade = Facade(handler: HandlerType, members: set<string>, actions: seq<string>)

  /** `withProxy(model)`: instantiates the class and wraps it. */
  function WithProxy(c: ManagerClass): (f: Facade)
    ensures f.handler == HandlerOf(c)
    ensures f.members == MembersOf(c) && f.actions == Actions(c)
  {
    Facade(HandlerOf(c), MembersOf(c), Actions(c))
  }

  /** The closure the facade hands out for a declared action. */
  datatype RemoteAction = RemoteAction(handler: HandlerType, key: string)

  /** What a member access on the facade yields. */
  datatype Resolution =
    | Member(name: string)       // the instance's own member, returned as is
    | Remote(call: RemoteAction) // a function that sends a message
    | Absent                     // undefined

  /** The proxy's `get` trap.  It neither reads nor writes the worker: a
      member access never sends anything, only calling a `Remote` does. */
  function Resolve(f: Facade, name: string): (r: Resolution)
    ensures name in f.members <==> r == Member(name)
    ensures r.Remote? <==> name !in f.members && name in f.actions
    ensures r.Remote? ==> r.call.handler == f.handler && r.call.key == name
    ensures r.Absent? <==> name !in f.members && name !in f.actions
  {
    if name in f.members then Member(name)
    else if name in f.actions then Remote(RemoteAction(f.handler, name))
    else Absent
  }

  /** Calling the closure of a declared action with arguments `args`: one
      envelope whose data is the argument list itself. */
  function Apply(w: Worker, a: RemoteAction, args: seq<Value>): (r: Outcome<Sent>)
    ensures r.Thrown? <==> w.emit.None?
    ensures r.Ok? ==> |r.value.worker.outbox| == |w.outbox| + 1
    ensures r.Ok? ==> r.value.worker.outbox[..|w.outbox|] == w.outbox
    ensures r.Ok? ==> var e := r.value.worker.outbox[|w.outbox|];
                      e.handler == a.handler && e.key == a.key && e.data == Arr(args)
    ensures r.Ok? ==> r.value.reply == w.emit.value(Envelope(a.handler, a.key, Arr(args)))
    ensures r.Ok? ==> r.value.worker.emit == w.emit && r.value.worker.counter == w.counter
  {
    Send(w, a.handler, a.key, Arr(args))
  }

  /** The API manager's facade turns exactly its four HTTP verbs into
      messages; everything else is local or undefined. */
  lemma ApiFacadeRemotesExactlyItsVerbs(name: string)
    ensures Resolve(WithProxy(ApiManager), name).Remote?
            <==> name in {"get", "post", "put", "delete"}
  {
  }

  /** The frame manager inherits the empty action list, so its facade never
      sends a message. */
  lemma FrameFacadeNeverRemotes(name: string)
    ensures !Resolve(WithProxy(FrameManager), name).Remote?
  {
  }

  /** No name a manager inherits from `Object.prototype` is ever sent as a
      message key: such a name resolves to the instance's own member. */
  lemma RemotedNamesAreNeverInherited(c: ManagerClass, name: string)
    ensures Resolve(WithProxy(c), name).Remote? ==> name !in ObjectPrototypeMembers
    ensures name in ObjectPrototypeMembers ==> Resolve(WithProxy(c), name) == Member(name)
  {
  }

  /** `increment` and sending do not interfere: the envelope sent and the
      reply received are the same whatever the counter is, and the counter
      is the only thing `increment` changes. */
  lemma IncrementCommutesWithSend(w: Worker, handler: HandlerType, key: string, data: Value)
    ensures var before := Send(Increment(w), handler, key, data);
            var after := Send(w, handler, key, data);
            && (before.Ok? <==> after.Ok?)
            && (after.Ok? ==>
                  && before.value.worker.outbox == after.value.worker.outbox
                  && before.value.reply == after.value.reply
                  && before.value.worker.counter == Increment(after.value.worker).counter)
  {
  }

  // ---------------------------------------------------------------- injector

  /** The `PROVIDERS` table the worker script fills in once. */
  function Providers(): (providers: map<string, Facade>)
    ensures providers.Keys == {"FrameManager", "ApiManager"}
    ensures providers["ApiManager"].handler == Api && providers["FrameManager"].handler == Frame
    ensures providers["ApiManager"].actions == ["get", "post", "put", "delete"]
    ensures |providers["FrameManager"].actions| == 0
  {
    map["FrameManager" := WithProxy(FrameManager), "ApiManager" := WithProxy(ApiManager)]
  }

  /** `injector.get(name)`: the provider registered under `name`; any other
      name is undefined rather than an error. */
  function InjectorGet(name: string): (r: Option<Facade>)
    ensures r.Some? <==> name == "FrameManager" || name == "ApiManager"
    ensures name == "ApiManager" ==> r == Some(WithProxy(ApiManager))
    ensures name == "FrameManager" ==> r == Some(WithProxy(FrameManager))
  {
    var providers := Providers();
    if name in providers then Some(providers[name]) else None
  }

  /** Whatever facade user code obtains from the injector remotes only
      names its class declares, and never an inherited `Object.prototype`
      name; an unknown manager name gives nothing to call at all. */
  lemma InjectedFacadesRemoteOnlyDeclaredActions(manager: string, name: string)
    ensures var f := InjectorGet(manager);
            f.Some? && Resolve(f.value, name).Remote? ==>
              && manager == "ApiManager"
              && name in {"get", "post", "put", "delete"}
              && name !in ObjectPrototypeMembers
              && Resolve(f.value, name).call == RemoteAction(Api, name)
  {
  }

  // ---------------------------------------------------------------- frames

  /** A frame created inside the worker. */
  datatype FrameRef = FrameRef(frameId: string, title: Value, handler: HandlerType)

  /** `frameManager.create(title)`; `freshId` stands for the generated UUID.
      The title is stored as given: untyped callers may pass any value, or
      none (undefined). */
  function Create(title: Value, freshId: string): (fr: FrameRef)
    ensures fr.title == title && fr.frameId == freshId
    ensures fr.handler == HandlerOf(FrameManager) == Frame
  {
    FrameRef(freshId, title, Frame)
  }

  /** The payload `render` sends: the frame's id and the body, and nothing else. */
  function RenderData(fr: FrameRef, body: Value): (d: Value)
    ensures d.Obj? && d.fields.Keys == {"id", "body"}
    ensures d.fields["id"] == Str(fr.frameId) && d.fields["body"] == body
  {
    Obj(map["id" := Str(fr.frameId), "body" := body])
  }

  /** `frame.render(body)`: sends one `render` envelope and discards the
      reply.  The body is sent as given, undefined when the caller passes none. */
  function Render(w: Worker, fr: FrameRef, body: Value): (r: Outcome<Worker>)
    ensures r.Thrown? <==> w.emit.None?
    ensures r.Ok? ==> r.value.outbox == w.outbox + [Envelope(fr.handler, "render", RenderData(fr, body))]
    ensures r.Ok? ==> r.value.emit == w.emit && r.value.counter == w.counter
  {
    match Send(w, fr.handler, "render", RenderData(fr, body))
    case Ok(sent) => Ok(sent.worker)
    case Thrown(f) => Thrown(f)
  }

  /** The render payload with the frame's title included, which is what the
      host-side frame extension reads. */
  function RenderDataTitled(fr: FrameRef, body: Value): (d: Value)
    ensures d.Obj? && d.fields.Keys == {"id", "title", "body"}
    ensures d.fields["id"] == Str(fr.frameId) && d.fields["title"] == fr.title
    ensures d.fields["body"] == body
  {
    Obj(map["id" := Str(fr.frameId), "title" := fr.title, "body" := body])
  }

  /** `render` sending the titled payload. */
  function RenderTitled(w: Worker, fr: FrameRef, body: Value): (r: Outcome<Worker>)
    ensures r.Thrown? <==> w.emit.None?
    ensures r.Ok? ==> r.value.outbox == w.outbox + [Envelope(fr.handler, "render", RenderDataTitled(fr, body))]
    ensures r.Ok? ==> r.value.emit == w.emit && r.value.counter == w.counter
  {
    match Send(w, fr.handler, "render", RenderDataTitled(fr, body))
    case Ok(sent) => Ok(sent.worker)
    case Thrown(f) => Thrown(f)
  }
}
