/**
 Start-up and successive reconciles of varsecret. The watch stream over every
 TestResource in `default` is abstracted to the sequence of reconciles it
 triggers; each one meets the environment described by a `Tick`.
 */
module Controller {
  import opened Wrappers
  import opened Resource
  import opened Cluster
  import opened SharedBuffer
  import opened Reconciler

  /** The context built at start-up: the filled buffer, shared from then on. */
  method StartUp(heapMemSize: nat) returns (ctx: Data)
    ensures IsFillPattern(ctx.hugeMemAlloc, heapMemSize)
  {
    var buf := FillHugeMemAlloc(heapMemSize);
    ctx := Data(buf);
  }

  /** What a writer other than this controller does to varsecret between
      two reconciles. */
  datatype OutsideWrite = Untouched | Deleted | Replaced(spec: TestResourceSpec)

  function ApplyOutside(store: Store, w: OutsideWrite): (s': Store)
    ensures SameOutsideSecret(store, s')
    ensures w.Untouched? ==> s' == store
    ensures w.Deleted? ==> SecretKey !in s'
    ensures w.Replaced? ==> SecretKey in s' && s'[SecretKey] == w.spec
  {
    match w
    case Untouched => store
    case Deleted => store - {SecretKey}
    case Replaced(spec) => store[SecretKey := spec]
  }

  /** What one reconcile meets: the TestResource whose event triggered it, an
      outside write that lands before it, a fault replacing the read's answer
      (None: the read sees the store), a fault for the create call, the clock. */
  datatype Tick = Tick(trigger: TestResource, outside: OutsideWrite, readFault: Option<KubeError>,
                       createFault: Option<KubeError>, now: MicroTime)

  /** The store the reconcile of `t` starts from. */
  function Before(store: Store, t: Tick): Store {
    ApplyOutside(store, t.outside)
  }

  /** The answer `get("varsecret")` gives under `t`. */
  function ReadAt(store: Store, t: Tick): Result<TestResource, KubeError> {
    if t.readFault.Some? then Err(t.readFault.value) else ApiGet(store, DefaultNamespace, KubeSecret)
  }

  function StepAt(ctx: Data, store: Store, t: Tick): Step {
    var s0 := Before(store, t);
    Reconcile(t.trigger, ctx, s0, ReadAt(s0, t), t.createFault, t.now)
  }

  /** The accumulated effect of a sequence of reconciles. */
  datatype Trace = Trace(store: Store, writes: seq<Write>, results: seq<Result<Action, Error>>,
                         bufferLens: seq<nat>, creates: nat)

  /**
   Reconciles run one after another, each triggered by an event for some
   TestResource in `default`. The runtime serializes reconciles only per
   triggering object, so reconciles for different objects may overlap on
   varsecret; running them in sequence is a simplification, and the
   read-fault of a tick (a stale 404) stands for the overlap that matters,
   a create racing another create. `creates` counts the creates that
   succeeded.
   */
  function Run(ctx: Data, store: Store, ticks: seq<Tick>): (tr: Trace)
    ensures |tr.results| == |ticks|
    ensures |tr.writes| <= |ticks|
    ensures tr.creates <= |tr.writes|
    ensures SameOutsideSecret(store, tr.store)
    decreases |ticks|
  {
    if |ticks| == 0 then Trace(store, [], [], [], 0)
    else
      var s0 := Before(store, ticks[0]);
      var st := StepAt(ctx, store, ticks[0]);
      var rest := Run(ctx, st.store, ticks[1..]);
      var lens := if st.bufferLen.Some? then [st.bufferLen.value] else [];
      Trace(rest.store, st.writes + rest.writes, [st.result] + rest.results,
            lens + rest.bufferLens, (if st.store != s0 then 1 else 0) + rest.creates)
  }

  /** No outside writer touches varsecret during the run. */
  predicate Closed(ticks: seq<Tick>) {
    forall i :: 0 <= i < |ticks| ==> ticks[i].outside.Untouched?
  }

  lemma ClosedTail(ticks: seq<Tick>)
    requires |ticks| > 0 && Closed(ticks)
    ensures Closed(ticks[1..])
  {
    forall i | 0 <= i < |ticks[1..]| ensures ticks[1..][i].outside.Untouched? {
      assert ticks[1..][i] == ticks[i + 1];
    }
  }

  /** Create-once: from a store without varsecret and with no outside writer,
      a reconcile whose create succeeds followed by a second reconcile that
      reads the store issues one create in all, stores nonce 1, and both
      reconciles wait for a change. */
  lemma CreateOnce(ctx: Data, store: Store, t1: Tick, t2: Tick)
    requires SecretKey !in store
    requires t1.outside.Untouched? && t2.outside.Untouched?
    requires t1.readFault.None? && t1.createFault.None?
    requires t2.readFault.None?
    ensures var tr := Run(ctx, store, [t1, t2]);
            |tr.writes| == 1 && tr.writes[0].obj.metadata.name == Some(KubeSecret)
            && tr.creates == 1
            && SecretKey in tr.store && tr.store[SecretKey] == TestResourceSpec(1, Some(t1.now))
            && tr.results == [Ok(AwaitChange), Ok(AwaitChange)]
  {
    var st1 := StepAt(ctx, store, t1);
    assert st1.store == store[SecretKey := TestResourceSpec(1, Some(t1.now))];
    var st2 := StepAt(ctx, st1.store, t2);
    assert st2.writes == [] && st2.store == st1.store;
    assert [t1, t2][1..] == [t2];
    assert [t2][1..] == [];
    assert Run(ctx, st2.store, []).store == st1.store;
    assert Run(ctx, st1.store, [t2]).store == st1.store;
  }

  /** An outside delete is repaired: the next reconcile that reads the store
      and whose create succeeds creates varsecret again with nonce 1. */
  lemma RecreatedAfterDelete(ctx: Data, store: Store, t: Tick)
    requires t.outside.Deleted? && t.readFault.None? && t.createFault.None?
    ensures var tr := Run(ctx, store, [t]);
            tr.creates == 1 && |tr.writes| == 1
            && SecretKey in tr.store && tr.store[SecretKey] == TestResourceSpec(1, Some(t.now))
  {
    var st := StepAt(ctx, store, t);
    assert [t][1..] == [];
    assert st.store[SecretKey] == TestResourceSpec(1, Some(t.now));
  }

  /** No tick reports a 404 it did not read from the store. */
  predicate NoFalseNotFound(ticks: seq<Tick>) {
    forall i :: 0 <= i < |ticks| ==> !(ticks[i].readFault.Some? && IsNotFound(ticks[i].readFault.value))
  }

  /** Idempotence of the read path: once varsecret exists and no outside
      writer touches it, any number of reconciles, whatever object triggers
      them, issue no write, leave the store unchanged and all wait for a
      change, including those whose read fails with a non-404 error. */
  lemma {:induction false} ExistingIsIdempotent(ctx: Data, store: Store, ticks: seq<Tick>)
    requires SecretKey in store
    requires Closed(ticks)
    requires NoFalseNotFound(ticks)
    ensures var tr := Run(ctx, store, ticks);
            tr.store == store && tr.writes == [] && tr.creates == 0
            && forall i :: 0 <= i < |tr.results| ==> tr.results[i] == Ok(AwaitChange)
    decreases |ticks|
  {
    if |ticks| > 0 {
      assert ticks[0].outside.Untouched?;
      var st := StepAt(ctx, store, ticks[0]);
      assert !ReadNotFound(ReadAt(store, ticks[0]));
      assert NoFalseNotFound(ticks[1..]) by {
        forall i | 0 <= i < |ticks[1..]| ensures !(ticks[1..][i].readFault.Some? && IsNotFound(ticks[1..][i].readFault.value)) {
          assert ticks[1..][i] == ticks[i + 1];
        }
      }
      ClosedTail(ticks);
      ExistingIsIdempotent(ctx, store, ticks[1..]);
    }
  }

  /** Once varsecret exists and no outside writer touches it, no reconcile
      creates or changes it, whatever the reads (even a stale 404) and faults. */
  lemma {:induction false} ExistingNeverChanges(ctx: Data, store: Store, ticks: seq<Tick>)
    requires SecretKey in store
    requires Closed(ticks)
    ensures var tr := Run(ctx, store, ticks);
            tr.creates == 0 && tr.store == store
    decreases |ticks|
  {
    if |ticks| > 0 {
      assert ticks[0].outside.Untouched?;
      var st := StepAt(ctx, store, ticks[0]);
      assert st.store == store;
      ClosedTail(ticks);
      ExistingNeverChanges(ctx, store, ticks[1..]);
    }
  }

  /** With no outside writer, whatever the reads and faults, at most one
      create ever succeeds from a store without varsecret, and the stored
      nonce is 1 whenever it exists. */
  lemma {:induction false} AtMostOneCreate(ctx: Data, store: Store, ticks: seq<Tick>)
    requires SecretKey !in store
    requires Closed(ticks)
    ensures var tr := Run(ctx, store, ticks);
            tr.creates <= 1
            && (SecretKey in tr.store <==> tr.creates == 1)
            && (SecretKey in tr.store ==> tr.store[SecretKey].nonce == 1)
    decreases |ticks|
  {
    if |ticks| > 0 {
      assert ticks[0].outside.Untouched?;
      var st := StepAt(ctx, store, ticks[0]);
      ClosedTail(ticks);
      if st.store == store {
        AtMostOneCreate(ctx, store, ticks[1..]);
      } else {
        assert st.store[SecretKey].nonce == 1;
        ExistingNeverChanges(ctx, st.store, ticks[1..]);
      }
    }
  }

  /** The number of failed reconciles among `results`. */
  function ErrCount(results: seq<Result<Action, Error>>): nat {
    if |results| == 0 then 0
    else (if results[0].Err? then 1 else 0) + ErrCount(results[1..])
  }

  /** Only failed creates make reconcile fail: every success waits for a
      change, every error is answered with a one-second requeue, and every
      create issued either succeeds or is exactly one error. */
  lemma {:induction false} ErrorsAreFailedCreates(ctx: Data, store: Store, ticks: seq<Tick>)
    ensures var tr := Run(ctx, store, ticks);
            (forall i :: 0 <= i < |tr.results| && tr.results[i].Ok? ==> tr.results[i].value == AwaitChange)
            && (forall i :: 0 <= i < |tr.results| && tr.results[i].Err? ==>
                  NextAction(tr.results[i], ctx) == Requeue(Duration(1, 0)))
            && ErrCount(tr.results) + tr.creates == |tr.writes|
    decreases |ticks|
  {
    if |ticks| > 0 {
      var st := StepAt(ctx, store, ticks[0]);
      var tr := Run(ctx, store, ticks);
      var rest := Run(ctx, st.store, ticks[1..]);
      ErrorsAreFailedCreates(ctx, st.store, ticks[1..]);
      assert tr.results == [st.result] + rest.results;
      assert tr.results[1..] == rest.results;
      forall i | 0 <= i < |tr.results|
        ensures tr.results[i].Ok? ==> tr.results[i].value == AwaitChange
        ensures tr.results[i].Err? ==> NextAction(tr.results[i], ctx) == Requeue(Duration(1, 0))
      {
        if i > 0 { assert tr.results[i] == rest.results[i - 1]; }
      }
    }
  }

  predicate AllEqual(xs: seq<nat>, n: nat) {
    forall i :: 0 <= i < |xs| ==> xs[i] == n
  }

  /** The shared buffer is never changed: every reconcile that reads its
      length sees the size configured at start-up. */
  lemma {:induction false} BufferLengthIsConfiguredSize(ctx: Data, heapMemSize: nat, store: Store, ticks: seq<Tick>)
    requires IsFillPattern(ctx.hugeMemAlloc, heapMemSize)
    ensures AllEqual(Run(ctx, store, ticks).bufferLens, heapMemSize)
    decreases |ticks|
  {
    if |ticks| > 0 {
      var st := StepAt(ctx, store, ticks[0]);
      var rest := Run(ctx, st.store, ticks[1..]);
      BufferLengthIsConfiguredSize(ctx, heapMemSize, st.store, ticks[1..]);
      var tr := Run(ctx, store, ticks);
      var lens := if st.bufferLen.Some? then [st.bufferLen.value] else [];
      assert tr.bufferLens == lens + rest.bufferLens;
      forall i | 0 <= i < |tr.bufferLens| ensures tr.bufferLens[i] == heapMemSize {
        if i >= |lens| {
          assert tr.bufferLens[i] == rest.bufferLens[i - |lens|];
        } else {
          assert tr.bufferLens[i] == st.bufferLen.value == |ctx.hugeMemAlloc|;
        }
      }
    }
  }
}
