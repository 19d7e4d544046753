/** Values, envelopes and faults shared by the worker and the host.

    Everything that crosses the worker boundary is a structured-clone snapshot,
    so it is modelled as an immutable `Value`.  JavaScript exceptions become a
    `Fault` inside an `Outcome`.
 */
module Messages {

  datatype Option<+T> = None | Some(value: T)

  /** A structured-clone-able JavaScript value.  Numbers are integers here. */
  datatype Value =
    | Undefined
    | Null
    | Bool(b: bool)
    | Num(n: int)
    | Str(s: string)
    | Arr(items: seq<Value>)
    | Obj(fields: map<string, Value>)

  /** The exceptions the modelled code can raise. */
  datatype Fault =
    | EmitUnset                    // `this.emit` is still null when `send` runs
    | NullishAccess(prop: string)  // a property read on undefined or null
    | NotIterable                  // array destructuring of a non-iterable value
    | NotAFunction(name: string)   // calling a member that is not a method
    | FetchFailed(reason: string)  // the network call or its JSON decoding failed
    | UnknownProxy(key: string)    // releasing a proxy key that is not in the map

  /** Either a value or a thrown fault (for async code: a fulfilled or rejected promise). */
  datatype Outcome<+T> = Ok(value: T) | Thrown(fault: Fault)

  /** Which host-side extension an envelope is for.  The enum's definition is
      not part of this model, so every other member is `Other`. */
  datatype HandlerType = Api | Frame | Other(tag: string)

  /** The `{handler, key, data}` message the worker emits to the host. */
  datatype Envelope = Envelope(handler: HandlerType, key: string, data: Value)

  /** `v[name]` for a non-index property name that no prototype defines:
      reading from undefined or null throws, an object yields its own field or
      undefined, strings and arrays only have `length`.  Inherited names such
      as `constructor` are outside the model.  A string's `length` here counts
      code points, where JavaScript counts UTF-16 code units. */
  function Prop(v: Value, name: string): (r: Outcome<Value>)
    ensures r.Thrown? <==> v.Undefined? || v.Null?
    ensures v.Obj? && name in v.fields ==> r == Ok(v.fields[name])
    ensures v.Obj? && name !in v.fields ==> r == Ok(Undefined)
  {
    match v
    case Undefined => Thrown(NullishAccess(name))
    case Null => Thrown(NullishAccess(name))
    case Obj(m) => Ok(if name in m then m[name] else Undefined)
    case Arr(items) => Ok(if name == "length" then Num(|items|) else Undefined)
    case Str(s) => Ok(if name == "length" then Num(|s|) else Undefined)
    case _ => Ok(Undefined)
  }

  /** `const [x] = v`: the first element of an iterable, or undefined when it
      is empty; destructuring anything that is not iterable throws.  A string
      iterates by code point; a lone surrogate, which JavaScript can yield but
      a Dafny `char` cannot hold, is outside the model. */
  function FirstElement(v: Value): (r: Outcome<Value>)
    ensures r.Thrown? <==> !(v.Arr? || v.Str?)
    ensures v.Arr? && |v.items| > 0 ==> r == Ok(v.items[0])
    ensures v.Arr? && |v.items| == 0 ==> r == Ok(Undefined)
  {
    match v
    case Arr(items) => Ok(if |items| > 0 then items[0] else Undefined)
    case Str(s) => Ok(if |s| > 0 then Str([s[0]]) else Undefined)
    case _ => Thrown(NotIterable)
  }
}
