/**
 The `TestResource` custom resource (kind TestResource, group amurant.io,
 version v1, namespaced) and the `test_resource` construction helper.
 */
module Resource {
  import opened Wrappers

  /** Rust's `i64`, the type of the `nonce` field. */
  newtype i64 = x: int | -0x8000_0000_0000_0000 <= x < 0x8000_0000_0000_0000

  /** A `MicroTime` timestamp, kept opaque: microseconds since the epoch. */
  datatype MicroTime = MicroTime(micros: int)

  /** The spec part of the custom resource. */
  datatype TestResourceSpec = TestResourceSpec(nonce: i64, updatedAt: Option<MicroTime>)

  /** The part of `ObjectMeta` the controller sets or reads; every other
      field keeps its default and is not modelled. */
  datatype ObjectMeta = ObjectMeta(name: Option<string>, namespace: Option<string>)

  /** The default `ObjectMeta`: no name, no namespace. */
  const DefaultMeta := ObjectMeta(None, None)

  datatype TestResource = TestResource(metadata: ObjectMeta, spec: TestResourceSpec)

  /** The object the controller asks the API to create: metadata holding only
      the given name, spec with the given nonce and `updated_at = Some(start)`. */
  function NewTestResource(name: string, nonce: i64, start: MicroTime): (r: TestResource)
    ensures r.metadata.name == Some(name)
    ensures r.metadata.namespace.None?
    ensures r.spec.nonce == nonce
    ensures r.spec.updatedAt == Some(start)
  {
    TestResource(DefaultMeta.(name := Some(name)), TestResourceSpec(nonce, Some(start)))
  }
}
