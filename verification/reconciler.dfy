/**
 The reconcile step and the error policy of the simple controller, with the
 cluster API calls replaced by their outcomes and the clock by a parameter.
 */
module Reconciler {
  import opened Wrappers
  import opened Resource
  import opened Cluster
  import opened SharedBuffer

  /** The one object this controller manages. */
  const KubeSecret := "varsecret"
  const DefaultNamespace := "default"
  const SecretKey := Key(DefaultNamespace, KubeSecret)

  /** A `std::time::Duration`. */
  datatype Duration = Duration(secs: nat, nanos: nat)

  /** kube_runtime's `Action`: requeue after a delay, or (None) wait for the
      next change the watch reports. */
  datatype Action = Action(requeueAfter: Option<Duration>)

  const AwaitChange := Action(None)

  function Requeue(after: Duration): Action {
    Action(Some(after))
  }

  /** The controller's error type: every kube error converts into
      `UnknownKubeError` when `?` propagates it. */
  datatype Error = UnknownKubeError(source: KubeError)

  /** The shared context `Data`; the client handle is abstracted away, the
      buffer is kept. */
  datatype Data = Data(hugeMemAlloc: seq<u8>)

  /** A call that changes the cluster, as issued (whether or not it succeeds). */
  datatype Write = Create(namespace: string, obj: TestResource)

  /** Everything one reconcile produces: the store afterwards, the writes it
      issued, its return value, and the buffer length it read (only the
      found path reads it). */
  datatype Step = Step(store: Store, writes: seq<Write>, result: Result<Action, Error>, bufferLen: Option<nat>)

  /** The read outcome that sends reconcile down the create path. */
  predicate ReadNotFound(read: Result<TestResource, KubeError>) {
    read.Err? && IsNotFound(read.error)
  }

  /** The object reconcile creates when the read reports 404. */
  function Desired(now: MicroTime): TestResource {
    NewTestResource(KubeSecret, 1, now)
  }

  /** Stores that agree everywhere except possibly at `SecretKey`. */
  ghost predicate SameOutsideSecret(s: Store, s': Store) {
    forall k :: k != SecretKey ==> (k in s <==> k in s') && (k in s ==> s[k] == s'[k])
  }

  /**
   One reconcile. `read` is what `get("varsecret")` returned (it need not agree
   with `store`: another writer may act between the read and the create),
   `createFault` is a failure the create call meets if it is issued, `now` is
   the timestamp taken before the read.
   */
  function Reconcile(resource: TestResource, ctx: Data, store: Store,
                     read: Result<TestResource, KubeError>, createFault: Option<KubeError>,
                     now: MicroTime): (st: Step)
    // at most one write, and it is the create of varsecret/nonce 1/updated_at now
    ensures |st.writes| <= 1
    ensures |st.writes| == 1 <==> ReadNotFound(read)
    ensures |st.writes| == 1 ==> st.writes[0] == Create(DefaultNamespace, Desired(now))
    // the only error is a failed create; every other path waits for a change
    ensures st.result.Err? <==> ReadNotFound(read) && (createFault.Some? || SecretKey in store)
    ensures st.result.Err? && createFault.Some? ==> st.result.error == UnknownKubeError(createFault.value)
    ensures st.result.Err? && createFault.None? ==> st.result.error == UnknownKubeError(Api(ConflictCode))
    ensures st.result.Ok? ==> st.result.value == AwaitChange
    // the store changes only by the successful create, and only at varsecret
    ensures SameOutsideSecret(store, st.store)
    ensures st.store != store <==> ReadNotFound(read) && st.result.Ok?
    ensures st.store != store ==> SecretKey !in store && st.store[SecretKey] == TestResourceSpec(1, Some(now))
    ensures st.bufferLen.Some? <==> read.Ok?
    ensures st.bufferLen.Some? ==> st.bufferLen.value == |ctx.hugeMemAlloc|
  {
    match read
    case Ok(existing) =>
      Step(store, [], Ok(AwaitChange), Some(|ctx.hugeMemAlloc|))
    case Err(e) =>
      if IsNotFound(e) then
        var obj := Desired(now);
        var w := [Create(DefaultNamespace, obj)];
        match ApiCreate(store, DefaultNamespace, obj, createFault)
        case Ok(s') =>
          assert s'[SecretKey] == obj.spec;
          Step(s', w, Ok(AwaitChange), None)
        case Err(ce) => Step(store, w, Err(UnknownKubeError(ce)), None)
      else
        Step(store, [], Ok(AwaitChange), None)
  }

  /** A read that fails with anything but 404 is only logged: no write, no
      store change, and reconcile reports success rather than an error. */
  lemma ReadErrorSwallowed(resource: TestResource, ctx: Data, store: Store, e: KubeError,
                           createFault: Option<KubeError>, now: MicroTime)
    requires !IsNotFound(e)
    ensures Reconcile(resource, ctx, store, Err(e), createFault, now) == Step(store, [], Ok(AwaitChange), None)
  {
  }

  /** `error_policy`: every error requeues after one second. */
  function ErrorPolicy(error: Error, ctx: Data): (a: Action)
    ensures a.requeueAfter.Some?
    ensures a.requeueAfter.value.secs * 1_000_000_000 + a.requeueAfter.value.nanos == 1_000_000_000
  {
    Requeue(Duration(1, 0))
  }

  /** What the controller runtime schedules after a reconcile: the returned
      action on success, the error policy's action on failure. */
  function NextAction(result: Result<Action, Error>, ctx: Data): (a: Action)
    ensures result.Ok? ==> a == result.value
    ensures result.Err? ==> a.requeueAfter == Some(Duration(1, 0))
  {
    match result
    case Ok(a) => a
    case Err(e) => ErrorPolicy(e, ctx)
  }

  /** The requeue delay does not depend on the error or the context. */
  lemma ErrorPolicyIsConstant(e1: Error, e2: Error, c1: Data, c2: Data)
    ensures ErrorPolicy(e1, c1) == ErrorPolicy(e2, c2)
  {
  }

  /** A failed create leads to a requeue after exactly one second, whatever
      the cause; any other reconcile leads to waiting for the next change. */
  lemma FailedCreateRequeuesAfterOneSecond(resource: TestResource, ctx: Data, store: Store,
                                           read: Result<TestResource, KubeError>,
                                           createFault: Option<KubeError>, now: MicroTime)
    ensures var st := Reconcile(resource, ctx, store, read, createFault, now);
            NextAction(st.result, ctx) == (if st.result.Err? then Requeue(Duration(1, 0)) else AwaitChange)
  {
  }

  /** Reconcile does not look at the resource that triggered it. */
  lemma IgnoresTriggeringResource(r1: TestResource, r2: TestResource, ctx: Data, store: Store,
                                  read: Result<TestResource, KubeError>,
                                  createFault: Option<KubeError>, now: MicroTime)
    ensures Reconcile(r1, ctx, store, read, createFault, now) == Reconcile(r2, ctx, store, read, createFault, now)
  {
  }

  /** Of the store, reconcile depends only on the entry for varsecret: two
      stores that agree there give the same writes and result, and stores
      that still agree there afterwards. */
  lemma DependsOnlyOnSecretEntry(resource: TestResource, ctx: Data, s1: Store, s2: Store,
                                 read: Result<TestResource, KubeError>,
                                 createFault: Option<KubeError>, now: MicroTime)
    requires SecretKey in s1 <==> SecretKey in s2
    requires SecretKey in s1 ==> s1[SecretKey] == s2[SecretKey]
    ensures var a := Reconcile(resource, ctx, s1, read, createFault, now);
            var b := Reconcile(resource, ctx, s2, read, createFault, now);
            a.writes == b.writes && a.result == b.result && a.bufferLen == b.bufferLen
            && (SecretKey in a.store <==> SecretKey in b.store)
            && (SecretKey in a.store ==> a.store[SecretKey] == b.store[SecretKey])
  {
  }
}
