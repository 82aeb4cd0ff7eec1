/**
  The reactive value cell of index.js. The JavaScript closure keeps `value`,
  `hasValue` and two arrays of callbacks; here the whole closure state is one
  immutable record, and every operation is a pure function returning the next
  record together with the trace of callback invocations it makes, in order.

  Asynchronous producers (promises) are tagged explicitly instead of being
  recognised by probing for `then` and `catch`. Calling `then(s)` on a
  producer, and `catch(handleError(s))` on the promise that `then` returns,
  is recorded as one attachment; the
  producer's later outcome arrives as an explicit `Resolve` or `Reject` event
  chosen by the environment.
 */
module Stream {
  import opened Subscribers

  /** The identity of an asynchronous producer (a promise object). */
  type ProducerId = nat

  /** A JavaScript value that is not a producer: `undefined` or anything else. */
  datatype Value<V> = Undefined | Defined(v: V)

  /** What can be passed to the cell, and what the cell can hold. */
  datatype Arg<V> = Plain(value: Value<V>) | Producer(id: ProducerId)

  /**
    One callback invocation: a change callback with a value, or an error
    callback with a rejection reason, which can be any JavaScript value.
   */
  datatype Call<V> = Changed(sub: Id, payload: Arg<V>) | Rejected(sub: Id, reason: Arg<V>)

  /**
    The closure state of one stream. `attached` counts, per producer, the
    continuations registered on it that have not fired yet.
   */
  datatype State<V> = State(
    value: Arg<V>,
    hasValue: bool,
    callbacks: seq<Id>,
    errorCallbacks: seq<Id>,
    attached: multiset<ProducerId>)

  /** The effect of an operation: the next state and the callbacks invoked, in order. */
  datatype Step<V> = Step(next: State<V>, calls: seq<Call<V>>)

  /** The effect of a call `s(x)`, which also returns a value. */
  datatype Written<V> = Written(next: State<V>, calls: seq<Call<V>>, returned: Arg<V>)

  /** The outcome of an attached producer, delivered to one of its continuations. */
  datatype Event<V> = Resolve(id: ProducerId, outcome: Arg<V>) | Reject(id: ProducerId, reason: Arg<V>)

  /** The constructor's argument list: `stream()` or `stream(x)`. */
  datatype Initial<V> = NoArgument | Argument(arg: Arg<V>)

  /** `s()`: the value currently held. */
  function Read<V>(s: State<V>): Arg<V>
  {
    s.value
  }

  /** `emit`: every change callback, in list order, with the current value. */
  function Emit<V>(callbacks: seq<Id>, x: Arg<V>): (calls: seq<Call<V>>)
    ensures |calls| == |callbacks|
    ensures forall i :: 0 <= i < |callbacks| ==> calls[i] == Changed(callbacks[i], x)
  {
    if |callbacks| == 0 then []
    else [Changed(callbacks[0], x)] + Emit(callbacks[1..], x)
  }

  /** `handleError(s)(err)`: every error callback, in list order, with the rejection reason. */
  function HandleError<V>(errorCallbacks: seq<Id>, err: Arg<V>): (calls: seq<Call<V>>)
    ensures |calls| == |errorCallbacks|
    ensures forall i :: 0 <= i < |errorCallbacks| ==> calls[i] == Rejected(errorCallbacks[i], err)
  {
    if |errorCallbacks| == 0 then []
    else [Rejected(errorCallbacks[0], err)] + HandleError(errorCallbacks[1..], err)
  }

  /**
    `s(x)`. A producer only gets the cell's continuations attached; anything
    else becomes the value, sets `hasValue` and is emitted. Either way the call
    returns whatever the cell holds afterwards.
   */
  function Write<V>(s: State<V>, x: Arg<V>): (w: Written<V>)
    ensures w.returned == Read(w.next)
    ensures w.next.callbacks == s.callbacks && w.next.errorCallbacks == s.errorCallbacks
    ensures x.Plain? ==>
      && Read(w.next) == x
      && w.next.hasValue
      && w.next.attached == s.attached
      && |w.calls| == |s.callbacks|
      && forall i :: 0 <= i < |s.callbacks| ==> w.calls[i] == Changed(s.callbacks[i], x)
    ensures x.Producer? ==>
      && w.returned == Read(s)
      && w.next.hasValue == s.hasValue
      && w.next.attached == s.attached + multiset{x.id}
      && w.calls == []
  {
    match x
    case Producer(p) =>
      var next := s.(attached := s.attached + multiset{p});
      Written(next, [], Read(next))
    case Plain(_) =>
      var next := s.(value := x, hasValue := true);
      Written(next, Emit(next.callbacks, Read(next)), Read(next))
  }

  /**
    `s.map(f)`: subscribe `f` at the end of the change list and, when the cell
    has a value, call `f` with it at once.
   */
  function Map<V>(s: State<V>, f: Id): (r: Step<V>)
    ensures r.next.callbacks == s.callbacks + [f]
    ensures r.next.(callbacks := s.callbacks) == s
    ensures s.hasValue ==> r.calls == [Changed(f, Read(s))]
    ensures !s.hasValue ==> r.calls == []
  {
    var next := s.(callbacks := s.callbacks + [f]);
    if s.hasValue then Step(next, [Changed(f, Read(s))]) else Step(next, [])
  }

  /** `s.catch(g)`: subscribe `g` at the end of the error list; nothing is replayed. */
  function Catch<V>(s: State<V>, g: Id): (r: Step<V>)
    ensures r.next.errorCallbacks == s.errorCallbacks + [g]
    ensures r.next.(errorCallbacks := s.errorCallbacks) == s
    ensures r.calls == []
  {
    Step(s.(errorCallbacks := s.errorCallbacks + [g]), [])
  }

  /** `s.off(f)`: drop the first subscription of `f` to changes, if there is one. */
  function Off<V>(s: State<V>, f: Id): (r: Step<V>)
    ensures r.next.callbacks == DropFirst(s.callbacks, f)
    ensures multiset(r.next.callbacks) == multiset(s.callbacks) - multiset{f}
    ensures f !in s.callbacks ==> r.next == s
    ensures r.next.(callbacks := s.callbacks) == s
    ensures r.calls == []
  {
    RemoveIsDropFirst(s.callbacks, f);
    Step(s.(callbacks := Remove(s.callbacks, f)), [])
  }

  /** `s.offRejection(g)`: drop the first subscription of `g` to errors, if there is one. */
  function OffRejection<V>(s: State<V>, g: Id): (r: Step<V>)
    ensures r.next.errorCallbacks == DropFirst(s.errorCallbacks, g)
    ensures multiset(r.next.errorCallbacks) == multiset(s.errorCallbacks) - multiset{g}
    ensures g !in s.errorCallbacks ==> r.next == s
    ensures r.next.(errorCallbacks := s.errorCallbacks) == s
    ensures r.calls == []
  {
    RemoveIsDropFirst(s.errorCallbacks, g);
    Step(s.(errorCallbacks := Remove(s.errorCallbacks, g)), [])
  }

  /**
    One continuation of an attached producer fires. On success the cell is
    called with the outcome (`then(s)`), which may itself be a producer; on
    failure every error callback gets the reason and the value is untouched.
    A producer with no pending continuation on this stream has no effect on it.
   */
  function Settle<V>(s: State<V>, ev: Event<V>): (r: Step<V>)
    ensures ev.id !in s.attached ==> r == Step(s, [])
    ensures ev.id in s.attached ==>
      && r.next.callbacks == s.callbacks
      && r.next.errorCallbacks == s.errorCallbacks
    ensures ev.id in s.attached && ev.Reject? ==>
      && r.next == s.(attached := s.attached - multiset{ev.id})
      && |r.calls| == |s.errorCallbacks|
      && forall i :: 0 <= i < |s.errorCallbacks| ==> r.calls[i] == Rejected(s.errorCallbacks[i], ev.reason)
    ensures ev.id in s.attached && ev.Resolve? && ev.outcome.Plain? ==>
      && Read(r.next) == ev.outcome
      && r.next.hasValue
      && r.next.attached == s.attached - multiset{ev.id}
      && |r.calls| == |s.callbacks|
      && forall i :: 0 <= i < |s.callbacks| ==> r.calls[i] == Changed(s.callbacks[i], ev.outcome)
    ensures ev.id in s.attached && ev.Resolve? && ev.outcome.Producer? ==>
      && r.next == s.(attached := s.attached - multiset{ev.id} + multiset{ev.outcome.id})
      && r.calls == []
  {
    if ev.id !in s.attached then Step(s, [])
    else
      var rest := s.(attached := s.attached - multiset{ev.id});
      match ev
      case Resolve(_, x) =>
        var w := Write(rest, x);
        Step(w.next, w.calls)
      case Reject(_, e) =>
        Step(rest, HandleError(rest.errorCallbacks, e))
  }

  /**
    `stream()` / `stream(x)`. A plain argument, `undefined` included, is the
    initial value. A producer argument is stored as the value itself with
    `hasValue` false, and is then written to the new cell, which attaches it.
   */
  function Construct<V>(initial: Initial<V>): (r: Step<V>)
    ensures r.calls == []
    ensures r.next.callbacks == [] && r.next.errorCallbacks == []
    ensures initial.NoArgument? ==>
      !r.next.hasValue && Read(r.next) == Plain(Undefined) && r.next.attached == multiset{}
    ensures initial.Argument? && initial.arg.Plain? ==>
      r.next.hasValue && Read(r.next) == initial.arg && r.next.attached == multiset{}
    ensures initial.Argument? && initial.arg.Producer? ==>
      !r.next.hasValue && Read(r.next) == initial.arg && r.next.attached == multiset{initial.arg.id}
  {
    var initWithPromise := initial.Argument? && initial.arg.Producer?;
    var value := if initial.Argument? then initial.arg else Plain(Undefined);
    var s := State(value, initial.Argument? && !initWithPromise, [], [], multiset{});
    if initWithPromise then
      var w := Write(s, value);
      Step(w.next, w.calls)
    else Step(s, [])
  }

  /** One request made of a stream by its host, or one producer outcome reaching it. */
  datatype Op<V> =
    | DoWrite(arg: Arg<V>)
    | DoMap(f: Id)
    | DoCatch(g: Id)
    | DoOff(f: Id)
    | DoOffRejection(g: Id)
    | DoSettle(ev: Event<V>)

  function Apply<V>(s: State<V>, op: Op<V>): Step<V>
  {
    match op
    case DoWrite(x) => var w := Write(s, x); Step(w.next, w.calls)
    case DoMap(f) => Map(s, f)
    case DoCatch(g) => Catch(s, g)
    case DoOff(f) => Off(s, f)
    case DoOffRejection(g) => OffRejection(s, g)
    case DoSettle(ev) => Settle(s, ev)
  }

  /** A sequence of operations run one after another; the traces are concatenated. */
  function Run<V>(s: State<V>, ops: seq<Op<V>>): Step<V>
    decreases |ops|
  {
    if |ops| == 0 then Step(s, [])
    else
      var first := Apply(s, ops[0]);
      var rest := Run(first.next, ops[1..]);
      Step(rest.next, first.calls + rest.calls)
  }
}
