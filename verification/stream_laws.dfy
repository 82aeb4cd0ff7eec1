/**
  Properties of the stream cell that relate several operations: the state
  invariant every operation keeps, how often each subscriber is called, the
  subscribe/unsubscribe round trips, and what a producer's outcome does
  compared with a direct write.
 */
module StreamLaws {
  import opened Subscribers
  import opened Stream

  /**
    The states a stream can reach. Once it has a value, that value is a plain
    one; before, the cell holds `undefined` or the producer it was built with.
   */
  ghost predicate Valid<V>(s: State<V>)
  {
    && (s.hasValue ==> s.value.Plain?)
    && (!s.hasValue ==> s.value == Plain(Undefined) || s.value.Producer?)
  }

  /** The operations that assign the cell: a plain write, or a plain resolution of an attached producer. */
  predicate Assigns<V>(s: State<V>, op: Op<V>)
  {
    || (op.DoWrite? && op.arg.Plain?)
    || (op.DoSettle? && op.ev.Resolve? && op.ev.id in s.attached && op.ev.outcome.Plain?)
  }

  /** How many times change callback `f` is invoked in a trace. */
  function ChangeCallsTo<V>(calls: seq<Call<V>>, f: Id): nat
  {
    if |calls| == 0 then 0
    else (if calls[0].Changed? && calls[0].sub == f then 1 else 0) + ChangeCallsTo(calls[1..], f)
  }

  /** How many times error callback `g` is invoked in a trace. */
  function ErrorCallsTo<V>(calls: seq<Call<V>>, g: Id): nat
  {
    if |calls| == 0 then 0
    else (if calls[0].Rejected? && calls[0].sub == g then 1 else 0) + ErrorCallsTo(calls[1..], g)
  }

  /** The writes `s(v1); s(v2); ...` of plain values. */
  function PlainWrites<V>(vs: seq<Value<V>>): (ops: seq<Op<V>>)
    ensures |ops| == |vs|
    ensures forall i :: 0 <= i < |vs| ==> ops[i] == DoWrite(Plain(vs[i]))
  {
    if |vs| == 0 then [] else [DoWrite(Plain(vs[0]))] + PlainWrites(vs[1..])
  }

  /** One full emission to `callbacks` per value, value after value. */
  function EmitEach<V>(callbacks: seq<Id>, vs: seq<Value<V>>): seq<Call<V>>
  {
    if |vs| == 0 then [] else Emit(callbacks, Plain(vs[0])) + EmitEach(callbacks, vs[1..])
  }

  // ---------------------------------------------------------------------------
  // The state invariant

  lemma ConstructValid<V>(initial: Initial<V>)
    ensures Valid(Construct<V>(initial).next)
  {
  }

  /**
    Every operation keeps the invariant, and every value it passes to a change
    callback is a plain value, never a producer.
   */
  lemma ApplyValid<V>(s: State<V>, op: Op<V>)
    requires Valid(s)
    ensures Valid(Apply(s, op).next)
    ensures forall c :: c in Apply(s, op).calls && c.Changed? ==> c.payload.Plain?
  {
    match op
    case DoWrite(x) =>
    case DoMap(f) =>
    case DoCatch(g) =>
    case DoOff(f) =>
    case DoOffRejection(g) =>
    case DoSettle(ev) =>
      if ev.id in s.attached && ev.Resolve? && ev.outcome.Plain? {
        var r := Settle(s, ev);
        forall c | c in r.calls && c.Changed?
          ensures c.payload.Plain?
        {
          var i :| 0 <= i < |r.calls| && r.calls[i] == c;
        }
      }
  }

  lemma {:induction false} RunValid<V>(s: State<V>, ops: seq<Op<V>>)
    requires Valid(s)
    ensures Valid(Run(s, ops).next)
    ensures forall c :: c in Run(s, ops).calls && c.Changed? ==> c.payload.Plain?
    decreases |ops|
  {
    if |ops| > 0 {
      ApplyValid(s, ops[0]);
      RunValid(Apply(s, ops[0]).next, ops[1..]);
    }
  }

  // ---------------------------------------------------------------------------
  // `hasValue`

  /** `hasValue` becomes true exactly when the cell is assigned, and never goes back. */
  lemma HasValueOnlyByAssignment<V>(s: State<V>, op: Op<V>)
    ensures Apply(s, op).next.hasValue <==> s.hasValue || Assigns(s, op)
  {
  }

  lemma {:induction false} HasValueNeverCleared<V>(s: State<V>, ops: seq<Op<V>>)
    requires s.hasValue
    ensures Run(s, ops).next.hasValue
    decreases |ops|
  {
    if |ops| > 0 {
      HasValueOnlyByAssignment(s, ops[0]);
      HasValueNeverCleared(Apply(s, ops[0]).next, ops[1..]);
    }
  }

  // ---------------------------------------------------------------------------
  // Emission

  lemma {:induction false} ChangeCallsAppend<V>(a: seq<Call<V>>, b: seq<Call<V>>, f: Id)
    ensures ChangeCallsTo(a + b, f) == ChangeCallsTo(a, f) + ChangeCallsTo(b, f)
    decreases |a|
  {
    if |a| > 0 {
      assert (a + b)[1..] == a[1..] + b;
      ChangeCallsAppend(a[1..], b, f);
    } else {
      assert a + b == b;
    }
  }

  /** An emission calls each subscriber once per subscription it holds. */
  lemma {:induction false} EmitCallsEachSubscription<V>(callbacks: seq<Id>, x: Arg<V>, f: Id)
    ensures ChangeCallsTo(Emit<V>(callbacks, x), f) == multiset(callbacks)[f]
    decreases |callbacks|
  {
    if |callbacks| > 0 {
      var e := Emit<V>(callbacks, x);
      assert e[1..] == Emit<V>(callbacks[1..], x);
      EmitCallsEachSubscription<V>(callbacks[1..], x, f);
      assert callbacks == [callbacks[0]] + callbacks[1..];
      assert multiset(callbacks) == multiset{callbacks[0]} + multiset(callbacks[1..]);
    }
  }

  /** Emitting to two lists back to back is emitting to their concatenation. */
  lemma EmitAppend<V>(a: seq<Id>, b: seq<Id>, x: Arg<V>)
    ensures Emit<V>(a + b, x) == Emit<V>(a, x) + Emit<V>(b, x)
  {
    var lhs := Emit<V>(a + b, x);
    var rhs := Emit<V>(a, x) + Emit<V>(b, x);
    assert |lhs| == |rhs|;
    forall i | 0 <= i < |lhs|
      ensures lhs[i] == rhs[i]
    {
      if i >= |a| {
        assert (a + b)[i] == b[i - |a|];
      }
    }
  }

  /**
    A plain write, `undefined` included, invokes each subscription once with
    the written value and invokes no error callback.
   */
  lemma PlainWriteCallsEachSubscription<V>(s: State<V>, v: Value<V>, f: Id)
    ensures ChangeCallsTo(Write<V>(s, Plain(v)).calls, f) == multiset(s.callbacks)[f]
    ensures forall c :: c in Write<V>(s, Plain(v)).calls ==> c.Changed? && c.payload == Plain(v)
  {
    var w := Write<V>(s, Plain(v));
    assert w.calls == Emit<V>(s.callbacks, Plain(v));
    EmitCallsEachSubscription<V>(s.callbacks, Plain(v), f);
  }

  /**
    A run of plain writes ends holding the last value, keeps both subscriber
    lists, and emits once per write to the same subscribers, in order.
   */
  lemma {:induction false} PlainWritesEmitInOrder<V>(s: State<V>, vs: seq<Value<V>>)
    ensures Run(s, PlainWrites<V>(vs)).calls == EmitEach<V>(s.callbacks, vs)
    ensures Run(s, PlainWrites<V>(vs)).next.callbacks == s.callbacks
    ensures Run(s, PlainWrites<V>(vs)).next.errorCallbacks == s.errorCallbacks
    ensures |vs| > 0 ==>
      && Run(s, PlainWrites<V>(vs)).next.hasValue
      && Read(Run(s, PlainWrites<V>(vs)).next) == Plain(vs[|vs| - 1])
    decreases |vs|
  {
    if |vs| > 0 {
      var ops := PlainWrites<V>(vs);
      var w := Write<V>(s, Plain(vs[0]));
      assert ops[0] == DoWrite(Plain(vs[0]));
      assert ops[1..] == PlainWrites<V>(vs[1..]);
      assert w.calls == Emit<V>(s.callbacks, Plain(vs[0]));
      PlainWritesEmitInOrder<V>(w.next, vs[1..]);
      if |vs| == 1 {
        assert ops[1..] == [];
      }
    }
  }

  /** Over a run of plain writes, each subscription is called exactly once per write. */
  lemma {:induction false} EmitEachCallCount<V>(callbacks: seq<Id>, vs: seq<Value<V>>, f: Id)
    ensures ChangeCallsTo(EmitEach<V>(callbacks, vs), f) == |vs| * multiset(callbacks)[f]
    decreases |vs|
  {
    if |vs| > 0 {
      var m := multiset(callbacks)[f];
      var n := |vs| - 1;
      var head := Emit<V>(callbacks, Plain(vs[0]));
      var tail := EmitEach<V>(callbacks, vs[1..]);
      assert EmitEach<V>(callbacks, vs) == head + tail;
      EmitCallsEachSubscription<V>(callbacks, Plain(vs[0]), f);
      ChangeCallsAppend(head, tail, f);
      EmitEachCallCount<V>(callbacks, vs[1..], f);
      assert ChangeCallsTo(tail, f) == n * m;
      MultiplyOneMore(n, m);
    }
  }

  lemma MultiplyOneMore(n: nat, m: nat)
    ensures (n + 1) * m == m + n * m
  {
  }

  // ---------------------------------------------------------------------------
  // Subscribing and unsubscribing

  /** After `map(f)`, the next plain write calls the old subscribers in order and then `f`. */
  lemma MapThenWrite<V>(s: State<V>, f: Id, v: Value<V>)
    ensures Write<V>(Map<V>(s, f).next, Plain(v)).calls
         == Emit<V>(s.callbacks, Plain(v)) + [Changed(f, Plain(v))]
  {
    var t := Map<V>(s, f).next;
    assert Write<V>(t, Plain(v)).calls == Emit<V>(s.callbacks + [f], Plain(v));
    EmitAppend<V>(s.callbacks, [f], Plain(v));
  }

  /** Subscribing a fresh callback and then unsubscribing it restores the stream. */
  lemma MapOffRoundTrip<V>(s: State<V>, f: Id)
    requires f !in s.callbacks
    ensures Off<V>(Map<V>(s, f).next, f).next == s
  {
    RemoveAppendedFresh(s.callbacks, f);
  }

  /** When `f` was already subscribed, `off(f)` after `map(f)` removes the older subscription. */
  lemma MapOffRemovesEarlier<V>(s: State<V>, f: Id)
    requires f in s.callbacks
    ensures Off<V>(Map<V>(s, f).next, f).next.callbacks == Remove(s.callbacks, f) + [f]
  {
    RemoveBeforeSuffix(s.callbacks, [f], f);
  }

  /** The same round trip for error callbacks. */
  lemma CatchOffRejectionRoundTrip<V>(s: State<V>, g: Id)
    requires g !in s.errorCallbacks
    ensures OffRejection<V>(Catch<V>(s, g).next, g).next == s
  {
    RemoveAppendedFresh(s.errorCallbacks, g);
  }

  /**
    `off(f)` takes away one of `f`'s subscriptions: a later plain write calls
    `f` one time fewer, so a callback subscribed once is not called again.
   */
  lemma OffThenWrite<V>(s: State<V>, f: Id, v: Value<V>)
    ensures f in s.callbacks ==>
      ChangeCallsTo(Write<V>(Off<V>(s, f).next, Plain(v)).calls, f) == multiset(s.callbacks)[f] - 1
    ensures multiset(s.callbacks)[f] <= 1 ==>
      ChangeCallsTo(Write<V>(Off<V>(s, f).next, Plain(v)).calls, f) == 0
  {
    PlainWriteCallsEachSubscription<V>(Off<V>(s, f).next, v, f);
  }

  /** `off(f)` leaves every other callback's share of a later write as it was. */
  lemma OffSparesOthers<V>(s: State<V>, f: Id, g: Id, v: Value<V>)
    requires g != f
    ensures ChangeCallsTo(Write<V>(Off<V>(s, f).next, Plain(v)).calls, g)
         == ChangeCallsTo(Write<V>(s, Plain(v)).calls, g)
  {
    PlainWriteCallsEachSubscription<V>(Off<V>(s, f).next, v, g);
    PlainWriteCallsEachSubscription<V>(s, v, g);
  }

  /** A rejection calls each error callback once per subscription it holds. */
  lemma {:induction false} HandleErrorCallsEachSubscription<V>(errorCallbacks: seq<Id>, e: Arg<V>, g: Id)
    ensures ErrorCallsTo(HandleError<V>(errorCallbacks, e), g) == multiset(errorCallbacks)[g]
    decreases |errorCallbacks|
  {
    if |errorCallbacks| > 0 {
      var h := HandleError<V>(errorCallbacks, e);
      assert h[1..] == HandleError<V>(errorCallbacks[1..], e);
      HandleErrorCallsEachSubscription<V>(errorCallbacks[1..], e, g);
      assert errorCallbacks == [errorCallbacks[0]] + errorCallbacks[1..];
      assert multiset(errorCallbacks) == multiset{errorCallbacks[0]} + multiset(errorCallbacks[1..]);
    }
  }

  /**
    `offRejection(g)` takes away one of `g`'s error subscriptions: a later
    rejection of an attached producer calls `g` one time fewer, so an error
    callback subscribed once is not called again.
   */
  lemma OffRejectionThenReject<V>(s: State<V>, g: Id, p: ProducerId, e: Arg<V>)
    requires p in s.attached
    ensures g in s.errorCallbacks ==>
      ErrorCallsTo(Settle<V>(OffRejection<V>(s, g).next, Reject(p, e)).calls, g) == multiset(s.errorCallbacks)[g] - 1
    ensures multiset(s.errorCallbacks)[g] <= 1 ==>
      ErrorCallsTo(Settle<V>(OffRejection<V>(s, g).next, Reject(p, e)).calls, g) == 0
  {
    var t := OffRejection<V>(s, g).next;
    assert Settle<V>(t, Reject(p, e)).calls == HandleError<V>(t.errorCallbacks, e);
    HandleErrorCallsEachSubscription<V>(t.errorCallbacks, e, g);
  }

  // ---------------------------------------------------------------------------
  // Producers

  /**
    Writing a producer and later resolving it with `x` has exactly the effect
    of writing `x` directly: same state, same callbacks in the same order.
   */
  lemma ResolveCompletesProducerWrite<V>(s: State<V>, p: ProducerId, x: Arg<V>)
    ensures Settle<V>(Write<V>(s, Producer(p)).next, Resolve(p, x)).next == Write<V>(s, x).next
    ensures Settle<V>(Write<V>(s, Producer(p)).next, Resolve(p, x)).calls == Write<V>(s, x).calls
  {
    var t := Write<V>(s, Producer(p)).next;
    assert t.attached - multiset{p} == s.attached;
    assert t.(attached := t.attached - multiset{p}) == s;
  }

  /**
    Writing a producer and later rejecting it with `e` calls every error
    callback with `e`, in order, and leaves the stream as it was before the write.
   */
  lemma RejectAfterProducerWrite<V>(s: State<V>, p: ProducerId, e: Arg<V>)
    ensures Settle<V>(Write<V>(s, Producer(p)).next, Reject(p, e)) == Step(s, HandleError(s.errorCallbacks, e))
  {
    var t := Write<V>(s, Producer(p)).next;
    assert t.attached - multiset{p} == s.attached;
    assert t.(attached := t.attached - multiset{p}) == s;
  }

  /**
    `stream(p)` is `stream()` followed by `s(p)`, except that the cell holds
    `p` itself rather than `undefined` until `p` settles.
   */
  lemma ConstructWithProducer<V>(p: ProducerId)
    ensures Construct<V>(Argument(Producer(p))).next
         == Write<V>(Construct<V>(NoArgument).next, Producer(p)).next.(value := Producer(p))
    ensures Construct<V>(Argument(Producer(p))).calls
         == Write<V>(Construct<V>(NoArgument).next, Producer(p)).calls
  {
  }
}
