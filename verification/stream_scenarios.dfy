/**
  Concrete runs of the stream mirroring the cases of index.test.js, with
  small numbers for callback and producer identities.
 */
module StreamScenarios {
  import opened Subscribers
  import opened Stream

  /** The JavaScript values the tests use. */
  datatype Js = Num(n: int) | Str(s: string)

  function N(n: int): Arg<Js>
  {
    Plain(Defined(Num(n)))
  }

  function S(s: string): Arg<Js>
  {
    Plain(Defined(Str(s)))
  }

  /** `stream(); map(f); map(g); off(f)` leaves only `g` subscribed. */
  lemma RemoveListenerTest()
    ensures Off<Js>(Map<Js>(Map<Js>(Construct<Js>(NoArgument).next, 1).next, 2).next, 1).next.callbacks == [2]
  {
    assert IndexOf([1, 2], 1) == 0;
    assert Remove([1, 2], 1) == [2];
  }

  /** `stream(); map(f1); map(f2); map(f3)` */
  function ThreeListeners(): State<Js>
  {
    Map<Js>(Map<Js>(Map<Js>(Construct<Js>(NoArgument).next, 1).next, 2).next, 3).next
  }

  lemma RemoveMiddle()
    ensures Remove([1, 2, 3], 2) == [1, 3]
  {
    assert IndexOf([1, 2, 3], 2) == 1;
    assert [1, 2, 3][..1] + [1, 2, 3][2..] == [1, 3];
  }

  lemma OffMiddle()
    ensures Off<Js>(ThreeListeners(), 2).next.callbacks == [1, 3]
  {
    assert ThreeListeners().callbacks == [1, 2, 3];
    RemoveMiddle();
  }

  /** `stream(); map(f1); map(f2); map(f3); off(f2); s(8)` calls f1 and f3 with 8, and not f2. */
  lemma RemovedListenerNotCalled()
    ensures Write<Js>(Off<Js>(ThreeListeners(), 2).next, N(8)).calls == [Changed(1, N(8)), Changed(3, N(8))]
  {
    OffMiddle();
    WriteToFirstAndThird(Off<Js>(ThreeListeners(), 2).next);
  }

  lemma WriteToFirstAndThird(t: State<Js>)
    requires t.callbacks == [1, 3]
    ensures Write<Js>(t, N(8)).calls == [Changed(1, N(8)), Changed(3, N(8))]
  {
    var w := Write<Js>(t, N(8));
    assert |w.calls| == 2 && w.calls[0] == Changed(1, N(8)) && w.calls[1] == Changed(3, N(8));
  }

  /** `stream(123)` replays 123 to a new subscriber at once, with no write. */
  lemma ReplayOnSubscribe()
    ensures Map<Js>(Construct<Js>(Argument(N(123))).next, 7).calls == [Changed(7, N(123))]
  {
  }

  /** `stream()` does not call a new subscriber, and `stream(undefined)` calls it with undefined. */
  lemma ReplayNeedsAValue()
    ensures Map<Js>(Construct<Js>(NoArgument).next, 7).calls == []
    ensures Map<Js>(Construct<Js>(Argument(Plain(Undefined))).next, 7).calls
         == [Changed(7, Plain(Undefined))]
  {
  }

  /**
    A rejected producer: `map(f); catch(g); s(p)` and then `p` rejects with
    'rejection test': only `g` is called, with that reason, and the cell
    still reads undefined.
   */
  lemma RejectionReachesOnlyErrorCallbacks()
    ensures var s0 := Construct<Js>(NoArgument).next;
            var s2 := Catch<Js>(Map<Js>(s0, 1).next, 2).next;
            var w := Write<Js>(s2, Producer(9));
            var r := Settle<Js>(w.next, Reject(9, S("rejection test")));
            && w.calls == [] && w.returned == Plain(Undefined)
            && r.calls == [Rejected(2, S("rejection test"))] && Read(r.next) == Plain(Undefined) && !r.next.hasValue
  {
  }

  /**
    `stream(p)` then `map(f)`: until `p` resolves the cell reads `p` itself
    and `f` is not called; resolving `p` with 'promise test 2' calls `f` once
    with it and the cell reads it.
   */
  lemma ProducerAtConstruction()
    ensures var s0 := Construct<Js>(Argument(Producer(4))).next;
            var s1 := Map<Js>(s0, 1);
            var s2 := Settle<Js>(s1.next, Resolve(4, S("promise test 2")));
            && Read(s0) == Producer(4) && s1.calls == []
            && s2.calls == [Changed(1, S("promise test 2"))] && Read(s2.next) == S("promise test 2")
  {
  }
}
