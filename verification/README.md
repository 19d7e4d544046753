# Worker call-forwarding and host message bus, in Dafny

This project models the two sequential parts of an Angular application that
runs user code in a Web Worker and talks to it through messages.

- **The worker side** (`SandboxWorker`). This covers:
  - the exposed object with its single `emit` slot (`subscribe`, `send`, `increment`);
  - the manager classes with their static `actions` lists;
  - the `withProxy` facade, whose `get` trap checks, in this order:
    1. an instance member is returned as is;
    2. a declared action becomes a function that sends one `{handler, key, data}` envelope;
    3. anything else is undefined.
  - the `PROVIDERS` injector;
  - frames and their `render` message.
- **The host side** (`MessageBus`, `ProxyRegistry`). This covers:
  - the routing of incoming envelopes by handler type to the API or the frame extension;
  - those two extensions;
  - `sendMessage`;
  - the `proxies` map with `createProxy`, `getProxyKeys`, `getProxy`, `releaseProxy` and `releaseAllProxies`.
- **Both sides together** (`RoundTrip`). The worker's emit slot holds the
  bus's routing callback, which is what `createProxy` subscribes. The lemmas
  follow a facade call or a frame render all the way to the host's answer.

Values that cross the boundary are immutable `Value`s (`Messages`).
JavaScript exceptions are `Thrown` outcomes. Sending appends the envelope
to the worker's `outbox`. Emitted frames and error reports are sequences in
`Host`. Three things are parameters rather than computed:
- generated UUIDs (`freshId`, `freshKey`);
- the network call behind the API service (`fetch`, which may fail);
- the callback a worker is subscribed with.

## Model

| member | source | states |
|---|---|---|
| SandboxWorker.Initial | src/app/extension/sandbox.worker.ts:19-21 | the exposed object starts with counter 0, no emit callback and nothing sent |
| SandboxWorker.Increment | src/app/extension/sandbox.worker.ts:22-24 | the counter goes up by one; the emit slot and the sent messages are untouched |
| SandboxWorker.Subscribe | src/app/extension/sandbox.worker.ts:30-34 | the given callback becomes the one emit callback; counter and sent messages are untouched |
| SandboxWorker.Send | src/app/extension/sandbox.worker.ts:35-38 | with no callback it throws; otherwise exactly one `{handler, key, data}` envelope is emitted and the callback's result for it is returned |
| SandboxWorker.LastSubscriberWins | src/app/extension/sandbox.worker.ts:30-38 | after two subscriptions a send reaches only the second callback (last one wins) |
| SandboxWorker.WithProxy | src/app/extension/sandbox.worker.ts:98-104 | the facade wraps a fresh instance: its handler type, its member names and the class's static actions |
| SandboxWorker.Resolve | src/app/extension/sandbox.worker.ts:106-137 | member access is a three-way decision with precedence: a member wins even when it is also an action; an action that is not a member becomes a sender for the instance's handler type and that name; anything else is undefined |
| SandboxWorker.Apply | src/app/extension/sandbox.worker.ts:117-124 | calling a declared action appends exactly one envelope, with the instance's handler type, the action name as key and the argument list unchanged as data; earlier messages stay as they were; the callback's answer is returned; emit slot and counter are untouched |
| SandboxWorker.ApiFacadeRemotesExactlyItsVerbs | src/app/extension/sandbox.worker.ts:61-64 | the API manager's facade remotes a name if and only if it is one of get, post, put, delete |
| SandboxWorker.FrameFacadeNeverRemotes | src/app/extension/sandbox.worker.ts:85-96 | the frame manager inherits the base class's empty action list, so no name on its facade sends a message |
| SandboxWorker.RemotedNamesAreNeverInherited | src/app/extension/sandbox.worker.ts:113-117 | a name every object inherits always resolves to the instance's own member, so it is never sent as a message key |
| SandboxWorker.IncrementCommutesWithSend | src/app/extension/sandbox.worker.ts:22-38 | the counter does not affect what is sent or the reply, and `increment` changes nothing but the counter |
| SandboxWorker.Actions | src/app/extension/sandbox.worker.ts:55-62 | the frame manager's inherited action list is empty; a name is declared exactly when the class is the API manager and the name is get, post, put or delete |
| SandboxWorker.HandlerOf | src/app/extension/sandbox.worker.ts:64-86 | the API manager's handler type is API and the frame manager's is FRAME, each exactly for that class; neither class uses another handler type |
| SandboxWorker.MembersOf | src/app/extension/sandbox.worker.ts:58-95 | every instance has `handlerType` and the `Object.prototype` names; only the frame manager has `create`; no declared action is also a member |
| SandboxWorker.Providers | src/app/extension/sandbox.worker.ts:145-147 | the table holds exactly FrameManager and ApiManager, with the frame and API handler types and their class's action lists |
| SandboxWorker.InjectedFacadesRemoteOnlyDeclaredActions | src/app/extension/sandbox.worker.ts:49-53 | any facade user code gets from the injector remotes only the API verbs, under the API handler type, and never an inherited name |
| SandboxWorker.InjectorGet | src/app/extension/sandbox.worker.ts:145-147 | `injector.get` is defined exactly for FrameManager and ApiManager, yields the matching facade, and gives undefined (not an error) for every other name |
| SandboxWorker.Create | src/app/extension/sandbox.worker.ts:93-95 | a created frame has the given title (any value, undefined when omitted), the supplied fresh id and the frame handler type |
| SandboxWorker.RenderData | src/app/extension/sandbox.worker.ts:78-81 | the render payload has exactly the fields id (the frame id) and body (the value passed to `render`, as given) |
| SandboxWorker.Render | src/app/extension/sandbox.worker.ts:76-82 | rendering emits one envelope with the frame's handler type, key `render` and the id/body payload; it throws when no callback is subscribed |
| SandboxWorker.RenderDataTitled | src/app/extension/sandbox.worker.ts:78-81 | corrected payload: id, title and body of the frame, which are the fields the host reads |
| SandboxWorker.RenderTitled | src/app/extension/sandbox.worker.ts:76-82 | corrected render: one `render` envelope carrying the titled payload |
| Messages.Prop | src/app/extension/message-bus.service.ts:75-77 | reading a field of undefined or null throws; an object yields its field or undefined |
| Messages.FirstElement | src/app/extension/message-bus.service.ts:56 | `const [url] = data` yields the first element of an array, or undefined for an empty one, and throws for anything that is not iterable |
| MessageBus.HostApi | src/app/extension/message-bus.service.ts:9-19 | the host service offers exactly the methods get and post over the given network call |
| MessageBus.ApiCall | src/app/extension/message-bus.service.ts:53-58 | a non-iterable argument list throws; a key that is not a service method throws; otherwise the network is called with the key and the first argument |
| MessageBus.ApiHandle | src/app/extension/message-bus.service.ts:53-61 | the API extension returns the call's value; any failure is reported once and turned into undefined, never rethrown; frames are untouched |
| MessageBus.ApiUsesOnlyFirstArgument | src/app/extension/message-bus.service.ts:56-57 | the API extension's outcome depends only on the first argument: dropping the rest changes nothing |
| MessageBus.FrameHandle | src/app/extension/message-bus.service.ts:70-79 | exactly one frame `{id: data.id, title: data.title, content: data.body}` is emitted; nullish data throws; reports are untouched |
| MessageBus.FrameHandleIgnoresKey | src/app/extension/message-bus.service.ts:70-79 | the frame extension's result does not depend on the key |
| MessageBus.Route | src/app/extension/message-bus.service.ts:102-113 | an API envelope is handed to the API extension with its key and data and that result returned; a frame envelope is handed to the frame extension and yields undefined; any other handler reaches no extension and yields undefined |
| MessageBus.RouteEffects | src/app/extension/message-bus.service.ts:102-113 | routing adds exactly one frame for a frame envelope, at most one report otherwise, and only a frame envelope can reject |
| MessageBus.BusCallback | src/app/extension/message-bus.service.ts:125-127 | the callback subscribed in the worker settles with the routed result, or rejects with the routing fault |
| MessageBus.Deliver | src/app/extension/message-bus.service.ts:102-113 | routing a run of envelopes only appends: earlier frames and reports stay, and each envelope adds at most one frame and at most one report |
| MessageBus.FramesOfPointwise | src/app/extension/message-bus.service.ts:74-78 | the i-th expected frame is the frame read off the i-th envelope |
| MessageBus.DeliverFramesInOrder | src/app/extension/message-bus.service.ts:110-112 | routing a run of frame envelopes emits one frame per envelope, in sending order, with no report |
| MessageBus.SendMessage | src/app/extension/message-bus.service.ts:95-100 | the call goes to the given proxy's `handle` and carries the payload's command and data; an undefined or null proxy throws before the payload is read, and otherwise an undefined or null payload throws |
| MessageBus.SendMessageForwardsOnlyCommandAndData | src/app/extension/message-bus.service.ts:95-100 | any two payloads whose command and data read the same produce the same call (or the same fault), whatever else they carry; an object payload's two fields are sent unchanged |
| ProxyRegistry.Empty | src/app/extension/message-bus.service.ts:84-85 | the service starts with no proxies and no current key |
| ProxyRegistry.CreateProxy | src/app/extension/message-bus.service.ts:116-130 | the current key becomes the new key; its entry is the returned handle, which wraps the given worker or one spawned under that key; the key set gains exactly that key; other entries are unchanged; key order and distinctness are kept |
| ProxyRegistry.GetProxyKeys | src/app/extension/message-bus.service.ts:132-134 | lists every stored key exactly once |
| ProxyRegistry.GetProxy | src/app/extension/message-bus.service.ts:136-138 | returns the stored handle for a present key and undefined otherwise |
| ProxyRegistry.ReleaseProxy | src/app/extension/message-bus.service.ts:140-142 | releases a present key without removing it or changing any entry; an absent key throws |
| ProxyRegistry.ReleaseAllProxies | src/app/extension/message-bus.service.ts:144-149 | every key present at the call is released exactly once, in key order, nothing else is released, and the key set and entries stay the same |
| ProxyRegistry.CreateThenLookup | src/app/extension/message-bus.service.ts:116-138 | after creating with a fresh key, the key list is the old list plus that key, getProxy of it gives the new handle, and every other lookup answers as before |
| RoundTrip.ApiCallRoundTrip | src/app/extension/message-bus.service.ts:102-108 | a call of a declared verb that the host serves emits exactly one envelope and is answered with the network result for the first argument, or undefined when the network fails |
| RoundTrip.CreateProxyAndSubscribe | src/app/extension/message-bus.service.ts:116-130 | `createProxy` stores the handle as the registry model says and puts the bus's callback into the worker's emit slot, leaving counter and sent messages alone |
| RoundTrip.ConnectedWorkerAnswersApiCalls | src/app/extension/message-bus.service.ts:116-130 | a fresh worker's call throws until `createProxy` has subscribed the bus; afterwards the handle is stored under its key and a get or post call is answered with the network result |
| RoundTrip.PutAndDeleteNeverServed | src/app/extension/message-bus.service.ts:9-19 | as written, `put` and `delete` are remoted by the worker but the host reports a missing method and answers undefined |
| RoundTrip.FullApi | src/app/extension/message-bus.service.ts:9-19 | corrected service: it defines exactly the verbs the API manager declares |
| RoundTrip.EveryDeclaredVerbServed | src/app/extension/sandbox.worker.ts:61-64 | with the corrected service every declared verb is answered with the network result |
| RoundTrip.RenderedTitleIsLost | src/app/extension/sandbox.worker.ts:76-82 | as written, the host's frame for a render has the frame's id and body but an undefined title |
| RoundTrip.RenderedTitleArrives | src/app/extension/message-bus.service.ts:74-78 | with the titled payload the host's frame has the frame's id, title and body |

## Findings

| source | as written | input that shows it | evidently intended | confidence | as-written member | corrected member |
|---|---|---|---|---|---|---|
| src/app/extension/sandbox.worker.ts:78-81 | `render` sends `{id, body}`, but the host's frame extension reads `data.title` | `create("t")` and then `render("x")`: the host frame is `{id, title: undefined, content: "x"}` | the payload also carries the frame's title | high; not executed | RoundTrip.RenderedTitleIsLost | RoundTrip.RenderedTitleArrives |
| src/app/extension/message-bus.service.ts:9-19 | the API manager declares put and delete, but the host service only defines get and post | `api.put("u")` is looked up as `apiService["put"]`, which is not a function; the error is reported and the call answers undefined | every declared verb has a host method | medium; not executed | RoundTrip.PutAndDeleteNeverServed | RoundTrip.EveryDeclaredVerbServed |

Both corrected definitions (`SandboxWorker.RenderTitled`, `RoundTrip.FullApi`)
sit beside the as-written ones. The as-written ones stay the default,
because they are what the repository does.

## Left out

- `initEnvironment` and the worker's `handle`, which evaluates user source with `new Function` and calls its `main`. Dynamic code evaluation has no static meaning here. The `handle` request that `sendMessage` produces is modelled; evaluating it is not.
- The comlink transport: `expose`, `wrap`, `proxy`, the release symbol's effect inside comlink, and `Worker` construction. The registry records each release in a log and leaves the map alone, which is the only effect visible in message-bus.service.ts.
- `fetch` and the JSON decoding in `ApiService`. They are the uninterpreted, possibly failing parameter `fetch`. `post`'s request body is not modelled either: the extension only ever passes the URL, so the body is always undefined.
- `testCb`, console logging, and the report id that `errorReport` generates. A report is recorded as its fault alone.
- rxjs subjects and observables. Emitted frames are an appended sequence.
- Promise scheduling. An async call is its settled outcome, and a synchronous throw is a `Thrown` outcome one level up.
- The generated UUIDs. The utility module is not part of this model, so fresh ids are parameters.
- The `HandlerType` enum. It is defined in the same utility module, so every member other than API and FRAME is `Other`.
- Symbol-valued property keys on the facade. Only string names are modelled.
- Index-named properties (`"0"`) of arrays and strings in `Messages.Prop`. The modelled code reads only named fields.
- JavaScript numbers. They are unbounded integers; floating point is not modelled.
- `Object.keys` ordering of integer-like keys. Generated ids are never integer-like, so insertion order is modelled.
- The special `__proto__` key of the `proxies` object. Generated ids never take that value.
- SandboxWorker.Resolve: the members of an instance are a fixed set of names per class. These are the own `handlerType`, the class's prototype methods and the `Object.prototype` names. The value a member holds is not modelled, only which member is returned.
- SandboxWorker.WithProxy: the static `actions` arrays are treated as immutable. The source re-reads `model['actions']` on every access, and user code could push to it through `facade.constructor.actions`. `ApiFacadeRemotesExactlyItsVerbs`, `FrameFacadeNeverRemotes` and `InjectedFacadesRemoteOnlyDeclaredActions` hold for unmodified classes only. `Resolve` itself takes any action list.
- MessageBus.ApiCall: `apiService[key]` is modelled as a lookup among the service's own methods. Inherited `Object.prototype` names, such as `toString`, would be found and called in the source. The worker never sends such a key (`RemotedNamesAreNeverInherited`), but a hand-made envelope could.
- ProxyRegistry.GetProxy: `proxies[key]` is modelled as an own-key lookup. For an inherited name such as `constructor`, the source returns the `Object.prototype` member rather than undefined.
- Messages.Prop: a string's `length` counts code points, not UTF-16 code units. Strings with lone surrogates cannot be represented. Names that objects inherit from `Object.prototype`, such as `constructor` or `toString`, are not modelled: on an object without such an own field the source yields the inherited member, the model undefined. The names the modelled code reads (`id`, `title`, `body`, `command` and `data`) are defined by no prototype, so for them the two agree.
- MessageBus.BusCallback: the callback answers against a snapshot of the host. The host's own state changes are threaded separately, by `Route` and `Deliver`.
- The application component and module, and `SafePipe`. These are presentation and wiring.
- Channels, one-shot and persistent subscriptions, broadcast, reload resets, reply correlation and an event manager. None of these exists in the modelled code. In the code, a remote call's reply is simply the return value of the one emit callback, and the model follows the code.
