# simple-rust-controller, modelled in Dafny

This project models the decision logic of a small Kubernetes controller. The controller watches
the `TestResource` custom resource (group `amurant.io`, version `v1`, namespaced). Every time it
reconciles, it reads one object with a fixed name, `varsecret`, in namespace `default`. If the
read answers 404, it creates that object with `nonce = 1` and `updated_at = now`. If the object
already exists, or the read fails in any other way, it only logs. On success it waits for the
next change. If the create fails, the error goes to `error_policy`, which requeues after one second.
At start-up the controller also fills a shared byte buffer of configurable size, `huge_mem_alloc`,
and hands it read-only to every reconcile.

Modules:

- `Wrappers`: Rust-shaped `Option` and `Result`.
- `Resource`: `TestResourceSpec` (with `nonce` as an `i64`), `ObjectMeta` (only `name` and
  `namespace`), `TestResource`, and `test_resource`.
- `Cluster`: the API server as a store from (namespace, name) to spec. `ApiGet` answers 404 for an
  absent name. `ApiCreate` fails with an injected fault, or with 409 when the name is already taken,
  and otherwise inserts the object.
- `Reconciler`: `reconcile` as a pure step, plus `error_policy` and the runtime's choice between
  the two. The outcome of the read is an input, so a read that disagrees with the store can be
  expressed; this covers a concurrent writer between the read and the create. The clock is an
  input too.
- `SharedBuffer`: the buffer fill loop.
- `Controller`: start-up, and runs of reconciles one after another. Each reconcile in a run is
  triggered by some TestResource in `default`. An outside writer may delete or replace `varsecret`
  before the reconcile starts. The read then either sees the store or meets an injected fault.
  Properties about whole runs live here.

## Model

| member | source | states |
|---|---|---|
| Resource.NewTestResource | controllers/simple-rust-controller/src/main.rs:157-168 | the object to create carries only the given name in its metadata (no namespace), and its spec holds the given nonce and `updated_at = Some(start)` |
| Cluster.CreateThenGet | controllers/simple-rust-controller/src/main.rs:135-148 | after a successful create, a get of the same name returns an object with the same name and the spec that was created |
| Cluster.ApiGet | controllers/simple-rust-controller/src/main.rs:135 | a read of a name succeeds exactly when the store holds it, and then returns the stored spec; otherwise it fails with 404 |
| Cluster.ApiCreate | controllers/simple-rust-controller/src/main.rs:143-148 | a create succeeds exactly when no fault is injected and the name is absent, and then it stores the object's spec under that name and changes nothing else; with no fault, a failure is 409 |
| Reconciler.Reconcile | controllers/simple-rust-controller/src/main.rs:124-155 | at most one write is issued; a write is issued exactly when the read answered 404, and it is the create of `varsecret` with nonce 1 and `updated_at = now`; the result is `Err` exactly when that create fails, and then it wraps the create's error: the injected fault, or 409 when the name is taken; every other path returns `Ok(AwaitChange)`, never an explicit requeue; no key other than `default/varsecret` changes; the store changes exactly when the create succeeds, and then it holds nonce 1 at that key; the buffer length is read exactly on the found path, and it equals the context buffer's length |
| Reconciler.ReadErrorSwallowed | controllers/simple-rust-controller/src/main.rs:151-154 | a read error other than 404 gives no write, no store change and `Ok(AwaitChange)`, not `Err` |
| Reconciler.IgnoresTriggeringResource | controllers/simple-rust-controller/src/main.rs:124-131 | the outcome of reconcile does not depend on its `resource` argument |
| Reconciler.DependsOnlyOnSecretEntry | controllers/simple-rust-controller/src/main.rs:131-149 | two stores that agree at `default/varsecret` give the same writes, result and buffer read, and afterwards they still agree at that key |
| Reconciler.ErrorPolicy | controllers/simple-rust-controller/src/main.rs:45-48 | every error leads to a requeue with a delay of exactly one second |
| Reconciler.NextAction | controllers/simple-rust-controller/src/main.rs:106-108 | the runtime keeps the action a successful reconcile returns; after a failed one it requeues after one second |
| Reconciler.ErrorPolicyIsConstant | controllers/simple-rust-controller/src/main.rs:46-48 | the requeue does not depend on the error kind or on the context |
| Reconciler.FailedCreateRequeuesAfterOneSecond | controllers/simple-rust-controller/src/main.rs:106-108 | as scheduled by the runtime, a reconcile whose create failed is requeued after one second whatever the cause; any other reconcile waits for the next change |
| SharedBuffer.FillHugeMemAlloc | controllers/simple-rust-controller/src/main.rs:89-93 | the buffer follows the fill pattern: its length is `heap_mem_size`, and byte `i` is `(i + 9) mod 256` |
| SharedBuffer.FillPatternUnique | controllers/simple-rust-controller/src/main.rs:90-93 | the fill pattern decides the buffer completely: two buffers of the same size that both follow it are equal |
| Controller.StartUp | controllers/simple-rust-controller/src/main.rs:86-96 | the context holds a buffer of exactly the configured size, filled with the pattern |
| Controller.Run | controllers/simple-rust-controller/src/main.rs:98-121 | a run of n reconciles gives n results and at most n writes; successful creates never outnumber the writes; keys other than `default/varsecret` never change |
| Controller.CreateOnce | controllers/simple-rust-controller/src/main.rs:135-149 | from a store without `varsecret`, with no outside writer: a reconcile whose create succeeds, then a second reconcile that reads the store, issue exactly one create between them; afterwards the store holds nonce 1 with `updated_at` from the first reconcile, and both results are `Ok(AwaitChange)` |
| Controller.RecreatedAfterDelete | controllers/simple-rust-controller/src/main.rs:140-149 | after an outside delete of `varsecret`, the next reconcile that reads the store and whose create succeeds creates it again with nonce 1 |
| Controller.ExistingIsIdempotent | controllers/simple-rust-controller/src/main.rs:136-139 | once `varsecret` exists and no outside writer touches it, any number of reconciles, whatever object triggers them, issue no write, leave the store unchanged and all return `Ok(AwaitChange)`, as long as no read invents a 404 |
| Controller.AtMostOneCreate | controllers/simple-rust-controller/src/main.rs:140-149 | from a store without `varsecret`, with no outside writer, whatever the reads and faults, at most one create succeeds; the key exists at the end exactly when one did, and then its nonce is 1 |
| Controller.ExistingNeverChanges | controllers/simple-rust-controller/src/main.rs:136-149 | once `varsecret` exists and no outside writer touches it, no reconcile creates it again or changes the store, whatever the reads (even a stale 404) and faults |
| Controller.ErrorsAreFailedCreates | controllers/simple-rust-controller/src/main.rs:143-154 | across a run, every success is `AwaitChange`, every error is answered with a one-second requeue, and the creates issued are exactly the errors plus the successful creates |
| Controller.BufferLengthIsConfiguredSize | controllers/simple-rust-controller/src/main.rs:136-138 | every buffer length that any reconcile of a run reads equals the size configured at start-up; the buffer is never changed |

## Left out

- Client construction, the wire protocol of `Api::get` and `Api::create`, and serde/JsonSchema
  derivation are left out. These are library code. The get is an input, or `ApiGet` on the store.
  The create is `ApiCreate`: it succeeds unless it meets a fault or the name is taken, in which
  case it fails with 409.
- The watch loop covers every TestResource in `default`, and each event triggers a reconcile of
  `varsecret`. The model reduces it to a sequence of reconciles, each carrying the object that
  triggered it. The runtime serializes reconciles only per triggering object, so reconciles
  triggered by different objects can overlap on `varsecret`. Running them in sequence is a
  simplification; the overlap that matters, a create racing another create, is covered by a
  stale 404 read, which meets the 409 of `ApiCreate`. The reduction leaves out
  `Controller::new(..).run(..)`, `ListParams` (no bookmarks, the watch timeout) and the
  `for_each` logging. Only the runtime's use of `error_policy` after a failed reconcile is kept.
- Async execution, the wasm executor and `main` are left out. So is any concurrency between
  reconciles; a concurrent writer appears only as a read that disagrees with the store.
- Reading `HEAP_MEM_SIZE` from the environment is left out; the size is a natural-number
  parameter. The code defaults the variable to `"0"` when it is unset or not valid Unicode. An unparsable value
  makes `unwrap` panic; it does not default to zero. The model follows the code.
- Wall-clock time is left out: `now` is an opaque `MicroTime` input. The two `Local::now()` calls
  are treated as one value, because only the second is stored.
- `println!`/`debug!` output and `mem::size_of_val` are left out. So is the `nonce - 1` in the
  log line of the found path, which would overflow at the minimum `i64`. Only the buffer length
  that line reads is kept, as `Step.bufferLen`.
- The client handle in `Data` is left out. It matters only for making API calls, and those are
  modelled as inputs.
- Controller.AtMostOneCreate: holds only between outside writes. An outside delete lets the
  next reconcile create `varsecret` again, as `Controller.RecreatedAfterDelete` states.
  No lemma counts creates across several outside writes.
- SharedBuffer.FillHugeMemAlloc: `i + 9` is computed on unbounded integers. The source's `usize`
  addition could overflow only for a buffer within 9 bytes of the address-space size, which
  cannot be allocated.
- A non-404 read error being swallowed rather than retried is modelled as the code does it. It is
  stated, as `Reconciler.ReadErrorSwallowed`, not corrected.
