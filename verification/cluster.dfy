/**
 An abstract view of the cluster API that the controller talks to through
 `Api<TestResource>`: a store of specs keyed by namespace and name, a read
 by name and a create that enforces name uniqueness.
 */
module Cluster {
  import opened Wrappers
  import opened Resource

  /** Identity of a namespaced object. */
  datatype Key = Key(namespace: string, name: string)

  /** What the API server holds for the TestResource kind. */
  type Store = map<Key, TestResourceSpec>

  /** A `kube::Error`: `Api` carries the status code of an API error response,
      `Other` stands for every non-API failure (transport, decoding, ...). */
  datatype KubeError = Api(code: int) | Other(description: string)

  const NotFoundCode := 404
  const ConflictCode := 409

  predicate IsNotFound(e: KubeError) {
    e.Api? && e.code == NotFoundCode
  }

  /** The object `Api::get` returns for a stored spec. */
  function StoredObject(k: Key, spec: TestResourceSpec): TestResource {
    TestResource(ObjectMeta(Some(k.name), Some(k.namespace)), spec)
  }

  /** A read of `name` in `namespace` that sees the store as it is. */
  function ApiGet(store: Store, namespace: string, name: string): (r: Result<TestResource, KubeError>)
    ensures r.Ok? <==> Key(namespace, name) in store
    ensures r.Ok? ==> r.value.spec == store[Key(namespace, name)]
    ensures r.Err? ==> IsNotFound(r.error)
  {
    var k := Key(namespace, name);
    if k in store then Ok(StoredObject(k, store[k])) else Err(Api(NotFoundCode))
  }

  /** `Api::create` on a namespaced API: an injected `fault` fails the call,
      an existing object of the same name fails it with 409, otherwise the
      object's spec is stored under its name in `namespace`. */
  function ApiCreate(store: Store, namespace: string, obj: TestResource, fault: Option<KubeError>)
    : (r: Result<Store, KubeError>)
    requires obj.metadata.name.Some?
    ensures r.Ok? <==> fault.None? && Key(namespace, obj.metadata.name.value) !in store
    ensures r.Ok? ==> r.value == store[Key(namespace, obj.metadata.name.value) := obj.spec]
    ensures r.Err? && fault.None? ==> r.error == Api(ConflictCode)
  {
    var k := Key(namespace, obj.metadata.name.value);
    if fault.Some? then Err(fault.value)
    else if k in store then Err(Api(ConflictCode))
    else Ok(store[k := obj.spec])
  }

  /** Round trip: an object created successfully is read back with the spec
      it was created with. */
  lemma CreateThenGet(store: Store, namespace: string, obj: TestResource, fault: Option<KubeError>)
    requires obj.metadata.name.Some?
    requires ApiCreate(store, namespace, obj, fault).Ok?
    ensures var s' := ApiCreate(store, namespace, obj, fault).value;
            var got := ApiGet(s', namespace, obj.metadata.name.value);
            got.Ok? && got.value.spec == obj.spec && got.value.metadata.name == obj.metadata.name
  {
  }
}
