/**
 * AbstractUnitOfWork of allocation/service_layer/unit_of_work.py.
 *
 * The repository is reduced to `products.seen`: the products loaded during
 * the unit of work, as a sequence without repetitions in iteration order.
 * The store behind the abstract `_commit` and `rollback` is a pair of states
 * of an arbitrary type `W`: `committed`, what a later unit of work sees, and
 * `working`, what this one has changed but not yet committed.
 */
module UnitOfWork {
  import opened Messages
  import Allocation

  /** The events still waiting on the products of `ps`, product by product, each list front to back. */
  ghost function Pending(ps: seq<Allocation.Product>): (r: seq<Message>)
    reads ps
  {
    if ps == [] then [] else Pending(ps[..|ps| - 1]) + ps[|ps| - 1].events
  }

  /** Pending collects nothing exactly when no product has an event waiting. */
  lemma {:induction false} PendingIsEmpty(ps: seq<Allocation.Product>)
    ensures Pending(ps) == [] <==> forall p :: p in ps ==> p.events == []
  {
    if ps != [] {
      PendingIsEmpty(ps[..|ps| - 1]);
      assert forall p :: p in ps <==> p in ps[..|ps| - 1] || p == ps[|ps| - 1];
    }
  }

  class AbstractUnitOfWork<W> {
    var seen: seq<Allocation.Product>
    var committed: W
    var working: W

    /** `seen` is a set: no product occurs twice. */
    ghost predicate Valid()
      reads this
    {
      forall i, j :: 0 <= i < j < |seen| ==> seen[i] != seen[j]
    }

    constructor (seen: seq<Allocation.Product>, state: W)
      requires forall i, j :: 0 <= i < j < |seen| ==> seen[i] != seen[j]
      ensures Valid()
      ensures this.seen == seen && committed == state && working == state
    {
      this.seen := seen;
      committed := state;
      working := state;
    }

    /** `__enter__`: the unit of work itself is the context. */
    method Enter() returns (uow: AbstractUnitOfWork<W>)
      ensures uow == this
    {
      uow := this;
    }

    /** `rollback`: the uncommitted work is discarded; what is committed stays. */
    method Rollback()
      modifies this`working
      ensures working == committed && committed == old(committed)
    {
      working := committed;
    }

    /** `commit` through `_commit`: the work becomes what is committed. */
    method Commit()
      modifies this`committed
      ensures committed == old(working) && working == old(working)
    {
      committed := working;
    }

    /**
     * `__exit__`: rolls back whether the block ended normally or by raising
     * (`raised`); committed work is never lost, uncommitted work always is.
     */
    method Exit(raised: bool)
      modifies this`working
      ensures committed == old(committed)
      ensures working == old(committed)
    {
      Rollback();
    }

    /**
     * A block that commits and then leaves the context: the rollback of
     * `__exit__` does not undo the commit.
     */
    method CommitAndExit()
      modifies this
      ensures committed == old(working) && working == old(working)
      ensures seen == old(seen)
    {
      Commit();
      Exit(false);
    }

    /**
     * `collect_new_events`: takes the events off each seen product, front to
     * back with `pop(0)`, in the order of `seen`.  Each pending event is
     * collected exactly once and nothing is left pending afterwards, so a
     * second collection without new events collects nothing.
     */
    method CollectNewEvents() returns (collected: seq<Message>)
      requires Valid()
      modifies seen
      ensures collected == old(Pending(seen))
      ensures forall p :: p in seen ==> p.events == []
      ensures Pending(seen) == []
      ensures forall p :: p in seen ==> p.batches == old(p.batches) && p.versionNumber == old(p.versionNumber)
    {
      collected := [];
      var i := 0;
      while i < |seen|
        invariant 0 <= i <= |seen|
        invariant collected == old(Pending(seen[..i]))
        invariant forall j :: 0 <= j < i ==> seen[j].events == []
        invariant forall j :: i <= j < |seen| ==> seen[j].events == old(seen[j].events)
        invariant forall p :: p in seen ==> p.batches == old(p.batches) && p.versionNumber == old(p.versionNumber)
      {
        var product: Allocation.Product := seen[i];
        assert seen[..i + 1][..i] == seen[..i];
        while product.events != []
          invariant collected + product.events == old(Pending(seen[..i + 1]))
          modifies product`events
          decreases |product.events|
        {
          collected := collected + [product.events[0]];
          product.events := product.events[1..];
        }
        i := i + 1;
      }
      assert seen[..i] == seen;
      PendingIsEmpty(seen);
    }
  }
}
