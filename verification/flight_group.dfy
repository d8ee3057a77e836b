// The group of flights as the source keeps it: flights on the heap, a map from keys to
// them, and fields written step by step. Every method is one atomic section of the code
// and is proved to be the corresponding step of FlightProtocol.
module FlightGroups {
  import opened Collections
  import opened FlightProtocol

  class FlightCell<V(==)> {
    const key: Key
    ghost const id: nat          // its place among the flights started so far
    var waiters: int
    var cancelled: bool          // cancel has been called
    var done: bool               // the done channel is closed
    var reply: Option<Reply<V>>  // value and err
    ghost var progress: Progress

    ghost function View(): Flight<V>
      reads this
    {
      Flight(key, progress, cancelled, waiters, reply)
    }

    constructor (key: Key, ghost id: nat)
      ensures View() == Flight(key, Calling, false, 0, None) && !done && this.id == id
    {
      this.key, this.id := key, id;
      waiters, cancelled, done, reply, progress := 0, false, false, None, Calling;
    }
  }

  class FlightGroup<V(==)> {
    var calls: map<Key, FlightCell<V>>
    var leaders: nat
    var coalesced: nat
    ghost var started: seq<FlightCell<V>>  // every flight, in the order of its start
    ghost var callers: seq<Caller<V>>      // where each call of do stands

    ghost predicate Valid()
      reads this, started
    {
      && (forall k :: k in calls ==> Has(calls[k]))
      && (forall i :: 0 <= i < |started| ==> started[i].id == i && (started[i].done <==> started[i].progress.Closed?))
    }

    ghost predicate Has(f: FlightCell<V>)
      reads this
    {
      f.id < |started| && started[f.id] == f
    }

    ghost function Registered(): map<Key, nat>
      requires Valid()
      reads this, started
    {
      map k | k in calls :: calls[k].id
    }

    static ghost function Views(fs: seq<FlightCell<V>>): seq<Flight<V>>
      reads fs
    {
      seq(|fs|, i requires 0 <= i < |fs| reads fs => fs[i].View())
    }

    ghost function Snapshot(): State<V>
      requires Valid()
      reads this, started
    {
      State(Registered(), Views(started), callers, leaders, coalesced)
    }

    constructor ()
      ensures Valid() && Snapshot() == Initial<V>()
    {
      calls, leaders, coalesced, started, callers := map[], 0, 0, [], [];
    }

    // g.calls[key] == f guards both deletions of a key.
    method Unregister(key: Key, f: FlightCell<V>)
      requires Valid() && Has(f)
      modifies this`calls
      ensures Valid() && Registered() == FlightProtocol.Unregister(old(Registered()), key, f.id)
    {
      if key in calls && calls[key] == f {
        calls := calls - {key};
      }
    }

    // A fresh flight for a key that has none.
    method Start(key: Key) returns (f: FlightCell<V>)
      requires Valid() && key !in calls
      modifies this`calls, this`started
      ensures Valid() && fresh(f) && started == old(started) + [f]
      ensures f.id == |old(started)| && Registered() == old(Registered())[key := |old(started)|]
      ensures f.View() == Flight(key, Calling, false, 0, None)
    {
      f := new FlightCell<V>(key, |started|);
      calls := calls[key := f];
      started := started + [f];
    }

    // One more waiter, reported to the joined callback.
    method Attach(key: Key, f: FlightCell<V>, leader: bool)
      requires Valid() && Has(f)
      modifies this`callers, this`leaders, this`coalesced, f
      ensures Valid() && Registered() == old(Registered())
      ensures Views(started) == old(Views(started)[f.id := f.View().(waiters := f.waiters + 1)])
      ensures callers == old(callers) + [Attached(key, f.id, Waiting)]
      ensures leaders == old(leaders) + if leader then 1 else 0
      ensures coalesced == old(coalesced) + if leader then 0 else 1
    {
      f.waiters := f.waiters + 1;
      if leader {
        leaders := leaders + 1;
      } else {
        coalesced := coalesced + 1;
      }
      callers := callers + [Attached(key, f.id, Waiting)];
    }

    // The locked section of do: start a run or join the registered one.
    method Join(key: Key) returns (f: FlightCell<V>)
      requires Valid()
      modifies this, started
      ensures Valid() && old(Enabled(Snapshot(), FlightProtocol.Join(key)))
      ensures Snapshot() == Apply(old(Snapshot()), FlightProtocol.Join(key))
      ensures Has(f) && callers == old(callers) + [Attached(key, f.id, Waiting)]
    {
      if key in calls {
        f := calls[key];
        Attach(key, f, false);
      } else {
        f := Start(key);
        assert Views(started) == old(Views(started)) + [f.View()];
        Attach(key, f, true);
      }
    }

    // leave, under the lock; c is the call that leaves f.
    method Leave(ghost c: nat, key: Key, f: FlightCell<V>)
      requires Valid() && Has(f)
      requires CallerIs(Snapshot(), c, Leaving) && callers[c] == Attached(key, f.id, Leaving)
      modifies this, f
      ensures Valid() && Snapshot() == Apply(old(Snapshot()), FlightProtocol.Leave(c))
    {
      callers := callers[c := callers[c].(status := Left)];
      f.waiters := f.waiters - 1;
      if f.waiters <= 0 {
        Unregister(key, f);
        f.cancelled := true;
      }
      assert Views(started) == old(Views(started))[f.id := f.View()];
    }

    // fn has returned, or its panic has been recovered: the one write of value and err.
    method Return(f: FlightCell<V>, reply: Reply<V>)
      requires Valid() && Has(f) && f.progress == Calling
      modifies f
      ensures Valid() && Snapshot() == Apply(old(Snapshot()), FlightProtocol.Return(f.id, reply))
    {
      f.reply, f.progress := Some(reply), Returned;
    }

    // The locked part of run's deferred function.
    method Free(f: FlightCell<V>)
      requires Valid() && Has(f) && f.progress == Returned
      modifies this`calls, f
      ensures Valid() && Snapshot() == Apply(old(Snapshot()), FlightProtocol.Free(f.id))
    {
      Unregister(f.key, f);
      f.progress := Freed;
      assert Views(started) == old(Views(started))[f.id := f.View()];
    }

    method Release(f: FlightCell<V>)
      requires Valid() && Has(f) && f.progress == Freed
      modifies f
      ensures Valid() && Snapshot() == Apply(old(Snapshot()), FlightProtocol.Release(f.id))
    {
      f.cancelled, f.progress := true, Released;
    }

    method CloseDone(f: FlightCell<V>)
      requires Valid() && Has(f) && f.progress == Released
      modifies f
      ensures Valid() && Snapshot() == Apply(old(Snapshot()), FlightProtocol.CloseDone(f.id))
    {
      f.done, f.progress := true, Closed;
    }

    // The done branch of do's select; the invariant makes the reply available.
    method PickDone(ghost c: nat, f: FlightCell<V>) returns (reply: Reply<V>)
      requires Valid() && Has(f) && f.done && Inv(Snapshot())
      requires CallerIs(Snapshot(), c, Waiting) && callers[c].flight == f.id
      modifies this`callers
      ensures Valid() && old(Enabled(Snapshot(), FlightProtocol.PickDone(c)))
      ensures Snapshot() == Apply(old(Snapshot()), FlightProtocol.PickDone(c))
      ensures callers[c].status == Answered(reply)
    {
      assert FlightOk(Snapshot().flights[f.id]);
      reply := f.reply.value;
      callers := callers[c := callers[c].(status := Answered(reply))];
    }
  }
}
