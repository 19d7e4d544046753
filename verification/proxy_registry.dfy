/** The host's table of worker handles (`proxies` and `currentProxyKey` of
    the message bus service).

    `entries` is the key-to-handle map and `order` the order in which
    `Object.keys` lists its keys (insertion order, since generated ids are
    never integer-like).  Releasing a handle does not touch the map; the
    model records each release in `released`.
 */
module ProxyRegistry {
  import opened Messages

  /** The worker a handle wraps: either spawned under a name, or passed in by the caller. */
  datatype WorkerRef = Spawned(name: string) | Supplied(id: nat)

  /** A wrapped worker. */
  datatype Handle = Handle(worker: WorkerRef)

  datatype Registry = Registry(
    entries: map<string, Handle>,
    order: seq<string>,
    current: Option<string>,
    released: seq<string>)

  ghost predicate NoDuplicates(s: seq<string>)
  {
    forall i, j :: 0 <= i < j < |s| ==> s[i] != s[j]
  }

  /** `order` lists every key of `entries` exactly once. */
  ghost predicate Valid(r: Registry)
  {
    && NoDuplicates(r.order)
    && (forall k :: k in r.order <==> k in r.entries)
  }

  /** The service as constructed: no proxies, no current key. */
  function Empty(): (r: Registry)
    ensures Valid(r)
    ensures r.entries == map[] && r.current.None? && |r.released| == 0
  {
    Registry(map[], [], None, [])
  }

  /** What `createProxy` leaves behind. */
  datatype Created = Created(registry: Registry, handle: Handle)

  /** `createProxy(worker?)`: `freshKey` stands for the generated UUID; when
      no worker is passed, one is spawned under that name.  Assigning an
      existing key overwrites its entry in place. */
  function CreateProxy(r: Registry, freshKey: string, worker: Option<WorkerRef>): (c: Created)
    ensures c.registry.current == Some(freshKey)
    ensures worker.Some? ==> c.handle.worker == worker.value
    ensures worker.None? ==> c.handle.worker == Spawned(freshKey)
    ensures c.registry.entries.Keys == r.entries.Keys + {freshKey}
    ensures freshKey in c.registry.entries && c.registry.entries[freshKey] == c.handle
    ensures forall k :: k in r.entries && k != freshKey ==> c.registry.entries[k] == r.entries[k]
    ensures freshKey !in r.entries ==> c.registry.order == r.order + [freshKey]
    ensures freshKey in r.entries ==> c.registry.order == r.order
    ensures c.registry.released == r.released
    ensures Valid(r) ==> Valid(c.registry)
  {
    var handle := Handle(if worker.Some? then worker.value else Spawned(freshKey));
    var order := if freshKey in r.entries then r.order else r.order + [freshKey];
    Created(Registry(r.entries[freshKey := handle], order, Some(freshKey), r.released), handle)
  }

  /** `getProxyKeys()`: every key once, in insertion order. */
  function GetProxyKeys(r: Registry): (keys: seq<string>)
    requires Valid(r)
    ensures NoDuplicates(keys)
    ensures forall k :: k in keys <==> k in r.entries
    ensures |keys| == |r.entries|
  {
    DistinctCount(r.order, r.entries.Keys);
    r.order
  }

  /** A duplicate-free sequence has as many elements as the set of its elements. */
  lemma {:induction false} DistinctCount(s: seq<string>, keys: set<string>)
    requires NoDuplicates(s)
    requires forall k :: k in s <==> k in keys
    ensures |s| == |keys|
  {
    if |s| > 0 {
      var rest := s[1..];
      assert forall k :: k in rest <==> k in keys - {s[0]} by {
        forall k ensures k in rest <==> k in keys - {s[0]} {
          if k in rest {
            var j :| 0 <= j < |rest| && rest[j] == k;
            assert s[j + 1] == k;
          }
          if k in keys - {s[0]} {
            var j :| 0 <= j < |s| && s[j] == k;
            assert j != 0;
            assert rest[j - 1] == k;
          }
        }
      }
      DistinctCount(rest, keys - {s[0]});
    }
  }

  /** `getProxy(key)`: the stored handle, or undefined. */
  function GetProxy(r: Registry, key: string): (h: Option<Handle>)
    ensures h.Some? <==> key in r.entries
    ensures h.Some? ==> h.value == r.entries[key]
  {
    if key in r.entries then Some(r.entries[key]) else None
  }

  /** `releaseProxy(key)`: releases the handle, keeping it in the map; an
      unknown key reads undefined and the release call throws. */
  function ReleaseProxy(r: Registry, key: string): (o: Outcome<Registry>)
    ensures o.Thrown? <==> key !in r.entries
    ensures o.Thrown? ==> o.fault == UnknownProxy(key)
    ensures o.Ok? ==> o.value.entries == r.entries && o.value.order == r.order
    ensures o.Ok? ==> o.value.current == r.current
    ensures o.Ok? ==> o.value.released == r.released + [key]
  {
    if key in r.entries then Ok(r.(released := r.released + [key]))
    else Thrown(UnknownProxy(key))
  }

  /** `releaseAllProxies()`: releases every key present at the call, each
      exactly once and in key order, and removes none of them. */
  method ReleaseAllProxies(r: Registry) returns (r': Registry)
    requires Valid(r)
    ensures r'.entries == r.entries && r'.order == r.order && r'.current == r.current
    ensures r'.released == r.released + GetProxyKeys(r)
    ensures forall k :: k in r.entries ==> multiset(r'.released[|r.released|..])[k] == 1
    ensures forall k :: k in r'.released[|r.released|..] ==> k in r.entries
  {
    var keys := GetProxyKeys(r);
    r' := r;
    var i := 0;
    while i < |keys|
      invariant 0 <= i <= |keys|
      invariant r'.entries == r.entries && r'.order == r.order && r'.current == r.current
      invariant r'.released == r.released + keys[..i]
    {
      r' := ReleaseProxy(r', keys[i]).value;
      i := i + 1;
    }
    assert keys[..i] == keys;
    assert r'.released[|r.released|..] == keys;
    forall k | k in r.entries
      ensures multiset(keys)[k] == 1
    {
      DistinctOnce(keys, k);
    }
  }

  /** Each element of a duplicate-free sequence occurs in it exactly once. */
  lemma {:induction false} DistinctOnce(s: seq<string>, k: string)
    requires NoDuplicates(s)
    requires k in s
    ensures multiset(s)[k] == 1
  {
    assert s == [s[0]] + s[1..];
    if s[0] == k {
      assert forall j :: 0 <= j < |s[1..]| ==> s[1..][j] != k by {
        forall j | 0 <= j < |s[1..]| ensures s[1..][j] != k {
          assert s[1..][j] == s[j + 1];
        }
      }
      assert k !in s[1..];
    } else {
      DistinctOnce(s[1..], k);
    }
  }

  /** `createProxy` with a fresh key, observed through the lookups: the key
      list gains exactly that key at the end, `getProxy` of it returns the
      new handle, and every earlier lookup answers as before. */
  lemma CreateThenLookup(r: Registry, freshKey: string, worker: Option<WorkerRef>)
    requires Valid(r) && freshKey !in r.entries
    ensures var c := CreateProxy(r, freshKey, worker);
            && Valid(c.registry)
            && GetProxyKeys(c.registry) == GetProxyKeys(r) + [freshKey]
            && GetProxy(c.registry, freshKey) == Some(c.handle)
            && forall k :: k != freshKey ==> GetProxy(c.registry, k) == GetProxy(r, k)
  {
  }
}
