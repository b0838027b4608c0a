/**
 * The allocation aggregate of allocation/domain/model.py: Batch, an entity
 * whose allocations change in place, and Product, the aggregate root that
 * chooses batches, counts its versions and records the messages it raises.
 */
module Allocation {
  import opened Common
  import opened OrderLines
  import Preference
  import Messages

  /** The exceptions the aggregate lets escape. */
  datatype Failure =
    | StopIteration  // `next(...)` found no batch with the given reference
    | KeyError       // `set.pop()` on a batch that has no allocations left

  /** The eta of a batch: the key of the preference order. */
  function EtaOf(b: Batch): (r: Option<int>)
  {
    b.eta
  }

  class Batch {
    const reference: string
    const sku: string
    const eta: Option<int>
    var purchasedQuantity: int
    var allocations: set<OrderLine>

    constructor (ref: string, sku: string, qty: int, eta: Option<int>)
      ensures reference == ref && this.sku == sku && this.eta == eta
      ensures purchasedQuantity == qty && allocations == {}
    {
      reference := ref;
      this.sku := sku;
      this.eta := eta;
      purchasedQuantity := qty;
      allocations := {};
    }

    /** `__eq__`: a Batch equals another Batch with the same reference, whatever their state. */
    function Equals(other: object): (r: bool)
      ensures other == this ==> r
      ensures r ==> other is Batch && (other as Batch).reference == reference
    {
      other is Batch && (other as Batch).reference == reference
    }

    /** The available quantity the source derives: purchased minus the sum over the allocated lines. */
    ghost function Available(): (r: int)
      reads this
    {
      purchasedQuantity - SumQty(allocations)
    }

    /** `can_allocate`, as a specification. */
    ghost predicate Accepts(line: OrderLine)
      reads this
    {
      sku == line.sku && Available() >= line.qty
    }

    /** `allocated_quantity`: sums the quantities of the allocated lines in iteration order. */
    method AllocatedQuantity() returns (q: int)
      ensures q == SumQty(allocations)
    {
      var rest := allocations;
      q := 0;
      while rest != {}
        invariant rest <= allocations
        invariant q + SumQty(rest) == SumQty(allocations)
        decreases rest
      {
        var line :| line in rest;
        SumQtyRemove(rest, line);
        q := q + line.qty;
        rest := rest - {line};
      }
    }

    /** `available_quantity`. */
    method AvailableQuantity() returns (q: int)
      ensures q == purchasedQuantity - SumQty(allocations)
    {
      var inUse := AllocatedQuantity();
      q := purchasedQuantity - inUse;
    }

    /** `can_allocate`: the skus agree and the batch has at least the line's quantity left. */
    method CanAllocate(line: OrderLine) returns (ok: bool)
      ensures ok <==> sku == line.sku && purchasedQuantity - SumQty(allocations) >= line.qty
    {
      var available := AvailableQuantity();
      ok := sku == line.sku && available >= line.qty;
    }

    /** `allocate`: adds the line when the batch can take it, and otherwise changes nothing. */
    method Allocate(line: OrderLine)
      modifies this`allocations
      ensures allocations == if old(Accepts(line)) then old(allocations) + {line} else old(allocations)
      ensures line in old(allocations) ==> allocations == old(allocations)
      ensures old(Accepts(line)) && line !in old(allocations) ==> Available() == old(Available()) - line.qty
    {
      var ok := CanAllocate(line);
      if ok {
        if line !in allocations {
          SumQtyAdd(allocations, line);
        }
        allocations := allocations + {line};
      }
    }

    /** `deallocate`: removes the line if it is allocated here; a no-op otherwise. */
    method Deallocate(line: OrderLine)
      modifies this`allocations
      ensures allocations == old(allocations) - {line}
      ensures line in old(allocations) ==> Available() == old(Available()) + line.qty
    {
      if line in allocations {
        SumQtyRemove(allocations, line);
        allocations := allocations - {line};
      }
    }

    /**
     * `deallocate_one`: `set.pop()` removes and returns an arbitrary
     * allocated line, or raises KeyError (None here) when there is none.
     */
    method DeallocateOne() returns (line: Option<OrderLine>)
      modifies this`allocations
      ensures old(allocations) == {} ==> line.None? && allocations == {}
      ensures old(allocations) != {} ==>
                line.Some? && line.value in old(allocations) && allocations == old(allocations) - {line.value}
    {
      if allocations == {} {
        line := None;
      } else {
        var l :| l in allocations;
        allocations := allocations - {l};
        line := Some(l);
      }
    }
  }

  /** `__eq__` is an equivalence that looks at the reference only, never at quantities or allocations. */
  lemma EqualsIsByReference(a: Batch, b: Batch, c: Batch, other: object)
    ensures a.Equals(b) <==> a.reference == b.reference
    ensures a.Equals(a)
    ensures a.Equals(b) ==> b.Equals(a)
    ensures a.Equals(b) && b.Equals(c) ==> a.Equals(c)
    ensures !(other is Batch) ==> !a.Equals(other)
  {
  }

  /** No line occurs twice. */
  ghost predicate Distinct(lines: seq<OrderLine>)
  {
    forall i, j :: 0 <= i < j < |lines| ==> lines[i] != lines[j]
  }

  /** The `Allocate` commands `change_batch_quantity` queues, one per removed line, in removal order. */
  function Reallocations(lines: seq<OrderLine>): (r: seq<Messages.Message>)
    ensures |r| == |lines|
    ensures forall i :: 0 <= i < |lines| ==>
              r[i] == Messages.Cmd(Messages.Allocate(lines[i].orderid, lines[i].sku, lines[i].qty))
  {
    if lines == [] then []
    else
      var l := lines[0];
      [Messages.Cmd(Messages.Allocate(l.orderid, l.sku, l.qty))] + Reallocations(lines[1..])
  }

  /** The lines of `lines` left once those of `removed` are taken out. */
  ghost function Without(lines: set<OrderLine>, removed: seq<OrderLine>): (r: set<OrderLine>)
  {
    lines - set l | l in removed
  }

  /**
   * Every line of `removed` was popped while the batch was still
   * over-committed: with purchased quantity `qty`, the lines left before
   * each pop needed more than `qty`.
   */
  ghost predicate PoppedWhileOver(qty: int, lines: set<OrderLine>, removed: seq<OrderLine>)
  {
    forall k :: 0 <= k < |removed| ==> qty - SumQty(Without(lines, removed[..k])) < 0
  }

  /** Popping one more allocated line of an over-committed batch. */
  lemma PopOneMore(qty: int, lines: set<OrderLine>, removed: seq<OrderLine>, l: OrderLine)
    requires PoppedWhileOver(qty, lines, removed)
    requires qty - SumQty(Without(lines, removed)) < 0
    requires l in Without(lines, removed)
    ensures PoppedWhileOver(qty, lines, removed + [l])
    ensures Without(lines, removed + [l]) == Without(lines, removed) - {l}
    ensures Reallocations(removed + [l]) == Reallocations(removed) + [Messages.Cmd(Messages.Allocate(l.orderid, l.sku, l.qty))]
  {
    assert forall k :: 0 <= k <= |removed| ==> (removed + [l])[..k] == removed[..k];
    assert removed[..|removed|] == removed;
  }

  /** The batches of `batches` whose reference is `ref`. */
  function Named(batches: seq<Batch>, ref: string): (r: set<Batch>)
  {
    set b | b in batches && b.reference == ref
  }

  /** The batches of `bs` that can take `line` now. */
  ghost function Accepting(bs: seq<Batch>, line: OrderLine): (r: set<Batch>)
    reads bs
  {
    set b | b in bs && b.Accepts(line)
  }

  /** `next(b for b in batches if b.reference == ref)`: the first batch named `ref`, or None (StopIteration). */
  method FindNamed(batches: seq<Batch>, ref: string) returns (target: Option<Batch>)
    ensures target == Preference.FirstIn(batches, Named(batches, ref))
  {
    target := None;
    var i := 0;
    while i < |batches| && target.None?
      invariant 0 <= i <= |batches|
      invariant target.None? ==> Preference.FirstIn(batches, Named(batches, ref)) == Preference.FirstIn(batches[i..], Named(batches, ref))
      invariant target.Some? ==> target == Preference.FirstIn(batches, Named(batches, ref))
    {
      assert batches[i..] == [batches[i]] + batches[i + 1..];
      if batches[i].reference == ref {
        target := Some(batches[i]);
      }
      i := i + 1;
    }
  }

  /** A reordering of the batches, such as their sort, has the same batches that can take a line. */
  lemma ReorderedCandidates(bs: seq<Batch>, sorted: seq<Batch>, line: OrderLine)
    requires multiset(sorted) == multiset(bs)
    ensures Accepting(sorted, line) == Accepting(bs, line)
  {
    forall b ensures b in Accepting(sorted, line) <==> b in Accepting(bs, line) {
      assert b in sorted <==> b in multiset(sorted);
      assert b in bs <==> b in multiset(bs);
    }
  }

  /** `next(b for b in bs if b.can_allocate(line))`: the first batch that can take the line, or None. */
  method FirstAllocatable(bs: seq<Batch>, line: OrderLine) returns (found: Option<Batch>)
    ensures found == Preference.FirstIn(bs, Accepting(bs, line))
  {
    found := None;
    var i := 0;
    while i < |bs| && found.None?
      invariant 0 <= i <= |bs|
      invariant found.None? ==> Preference.FirstIn(bs, Accepting(bs, line)) == Preference.FirstIn(bs[i..], Accepting(bs, line))
      invariant found.Some? ==> found == Preference.FirstIn(bs, Accepting(bs, line))
    {
      var ok := bs[i].CanAllocate(line);
      assert bs[i..] == [bs[i]] + bs[i + 1..];
      if ok {
        found := Some(bs[i]);
      }
      i := i + 1;
    }
  }

  /** The batches of `bs` that already hold `line`. */
  ghost function Holding(bs: seq<Batch>, line: OrderLine): (r: set<Batch>)
    reads bs
  {
    set b | b in bs && line in b.allocations
  }

  /** The first batch of `bs` that already holds `line`, or None. */
  method FindHolder(bs: seq<Batch>, line: OrderLine) returns (holder: Option<Batch>)
    ensures holder == Preference.FirstIn(bs, Holding(bs, line))
  {
    holder := None;
    var i := 0;
    while i < |bs| && holder.None?
      invariant 0 <= i <= |bs|
      invariant holder.None? ==> Preference.FirstIn(bs, Holding(bs, line)) == Preference.FirstIn(bs[i..], Holding(bs, line))
      invariant holder.Some? ==> holder == Preference.FirstIn(bs, Holding(bs, line))
    {
      assert bs[i..] == [bs[i]] + bs[i + 1..];
      if line in bs[i].allocations {
        holder := Some(bs[i]);
      }
      i := i + 1;
    }
  }

  /** No batch holds `line` exactly when there is no first one that does: `Preference.NoneIn` for this module's Batch. */
  lemma HeldByNone(batches: seq<Batch>, line: OrderLine)
    ensures Preference.FirstIn(batches, Holding(batches, line)).None? <==> forall b :: b in batches ==> line !in b.allocations
  {
    Preference.NoneIn(batches, Holding(batches, line));
  }

  /** A batch that alone holds `line` is the first that holds it: `Preference.OnlyIn` for this module's Batch. */
  lemma HeldOnlyBy(batches: seq<Batch>, line: OrderLine, c: Batch)
    requires c in batches && line in c.allocations
    requires forall b :: b in batches && b != c ==> line !in b.allocations
    ensures Preference.FirstIn(batches, Holding(batches, line)) == Some(c)
  {
    Preference.OnlyIn(batches, Holding(batches, line), c);
  }

  class Product {
    const sku: string
    var batches: seq<Batch>
    var versionNumber: int
    var events: seq<Messages.Message>

    constructor (sku: string, batches: seq<Batch>, versionNumber: int)
      ensures this.sku == sku && this.batches == batches && this.versionNumber == versionNumber
      ensures events == []
    {
      this.sku := sku;
      this.batches := batches;
      this.versionNumber := versionNumber;
      events := [];
    }

    /** The batches that can take `line` now. */
    ghost function Candidates(line: OrderLine): (r: set<Batch>)
      reads this, batches
    {
      Accepting(batches, line)
    }

    /** `next(b for b in sorted(self.batches) if b.can_allocate(line))`, or None for StopIteration. */
    ghost function Choice(line: OrderLine): (r: Option<Batch>)
      reads this, batches
      ensures r.None? <==> forall b :: b in batches ==> !b.Accepts(line)
      ensures r.Some? ==> Preference.MostPreferred(batches, EtaOf, Candidates(line), r.value)
    {
      Preference.SortedChoice(batches, EtaOf, Candidates(line));
      Preference.NoneIn(batches, Accepting(batches, line));
      Preference.FirstIn(Preference.Sort(batches, EtaOf), Candidates(line))
    }

    /**
     * `allocate`: allocates the line to the most preferred batch that can
     * take it, bumps the version and records Allocated; when no batch can,
     * records OutOfStock, returns None and changes nothing else.  `chosen`
     * names the batch object the line went to.
     */
    method Allocate(line: OrderLine) returns (batchref: Option<string>, ghost chosen: Option<Batch>)
      modifies this`versionNumber, this`events, batches
      ensures chosen == old(Choice(line))
      ensures chosen.None? <==> forall b :: b in batches ==> !old(b.Accepts(line))
      ensures chosen.None? ==> batchref == None
      ensures chosen.None? ==> versionNumber == old(versionNumber)
      ensures chosen.None? ==> events == old(events) + [Messages.Evt(Messages.OutOfStock(line.sku))]
      ensures chosen.Some? ==> Preference.MostPreferred(batches, EtaOf, old(Candidates(line)), chosen.value)
      ensures chosen.Some? ==> batchref == Some(chosen.value.reference)
      ensures chosen.Some? ==> chosen.value.allocations == old(chosen.value.allocations) + {line}
      ensures chosen.Some? ==> versionNumber == old(versionNumber) + 1
      ensures chosen.Some? ==>
                events == old(events) + [Messages.Evt(Messages.Allocated(line.orderid, line.sku, line.qty, chosen.value.reference))]
      ensures forall b :: b in batches && chosen != Some(b) ==> b.allocations == old(b.allocations)
      ensures forall b :: b in batches ==> b.purchasedQuantity == old(b.purchasedQuantity)
    {
      var sorted := Preference.Sort(batches, EtaOf);
      var found := FirstAllocatable(sorted, line);
      ReorderedCandidates(batches, sorted, line);
      assert found == Choice(line);
      chosen := found;
      if found.None? {
        events := events + [Messages.Evt(Messages.OutOfStock(line.sku))];
        return None, chosen;
      }
      var batch := found.value;
      batch.Allocate(line);
      versionNumber := versionNumber + 1;
      events := events + [Messages.Evt(Messages.Allocated(line.orderid, line.sku, line.qty, batch.reference))];
      batchref := Some(batch.reference);
    }

    /** The first batch that already holds `line`, or None. */
    ghost function Holder(line: OrderLine): (r: Option<Batch>)
      reads this, batches
    {
      Preference.FirstIn(batches, Holding(batches, line))
    }

    /**
     * `allocate` made idempotent: a line that a batch already holds is
     * answered with that batch's reference and changes nothing (no version
     * bump, no event); any other line is allocated as `allocate` does.
     * Afterwards the batch the line went to is the one holding it, so a
     * repeated call changes nothing.
     */
    method AllocateOnce(line: OrderLine) returns (batchref: Option<string>, ghost chosen: Option<Batch>)
      modifies this`versionNumber, this`events, batches
      ensures chosen.None? ==> batchref == None
      ensures chosen.Some? ==> batchref == Some(chosen.value.reference) && Holder(line) == chosen
      ensures chosen.None? ==> Holder(line).None? && forall b :: b in batches ==> !b.Accepts(line)
      ensures old(Holder(line)).Some? ==>
                && chosen == old(Holder(line))
                && versionNumber == old(versionNumber) && events == old(events)
                && forall b :: b in batches ==> b.allocations == old(b.allocations)
      ensures old(Holder(line)).None? ==> chosen == old(Choice(line))
      ensures old(Holder(line)).None? && chosen.None? ==>
                versionNumber == old(versionNumber) && events == old(events) + [Messages.Evt(Messages.OutOfStock(line.sku))]
      ensures old(Holder(line)).None? && chosen.Some? ==>
                && chosen.value.allocations == old(chosen.value.allocations) + {line}
                && versionNumber == old(versionNumber) + 1
                && events == old(events) + [Messages.Evt(Messages.Allocated(line.orderid, line.sku, line.qty, chosen.value.reference))]
      ensures forall b :: b in batches && chosen != Some(b) ==> b.allocations == old(b.allocations)
      ensures forall b :: b in batches ==> b.purchasedQuantity == old(b.purchasedQuantity)
    {
      var holder := FindHolder(batches, line);
      if holder.Some? {
        return Some(holder.value.reference), holder;
      }
      HeldByNone(batches, line);
      batchref, chosen := Allocate(line);
      assert forall b :: b in batches && chosen != Some(b) ==> b.allocations == old(b.allocations);
      assert forall b :: b in batches ==> b.purchasedQuantity == old(b.purchasedQuantity);
      if chosen.Some? {
        HeldOnlyBy(batches, line, chosen.value);
      } else {
        HeldByNone(batches, line);
      }
    }

    /**
     * `change_batch_quantity`: overwrites the purchased quantity of the first
     * batch named `ref`, then pops allocations until its available quantity
     * is non-negative, queueing an Allocate command for every popped line.
     * `removed` lists the popped lines in popping order.
     */
    method ChangeBatchQuantity(ref: string, qty: int) returns (outcome: Outcome<Failure>, ghost removed: seq<OrderLine>)
      modifies this`events, batches
      ensures var target := Preference.FirstIn(batches, Named(batches, ref));
        && (target.None? ==>
              && outcome == Fail(StopIteration)
              && removed == []
              && events == old(events))
        && (target.Some? ==>
              var b := target.value;
              && b.reference == ref
              && b.purchasedQuantity == qty
              && Distinct(removed)
              && (forall l :: l in removed ==> l in old(b.allocations))
              && b.allocations == Without(old(b.allocations), removed)
              && events == old(events) + Reallocations(removed)
              && PoppedWhileOver(qty, old(b.allocations), removed)
              && (outcome.Pass? ==> b.Available() >= 0)
              && (outcome.Fail? ==> outcome == Fail(KeyError) && qty < 0 && b.allocations == {})
              && (qty >= 0 ==> outcome.Pass?)
              && (qty < 0 && (forall l :: l in old(b.allocations) ==> l.qty >= 0) ==> outcome == Fail(KeyError)))
        && (forall c :: c in batches && (target.None? || c != target.value) ==>
              c.allocations == old(c.allocations) && c.purchasedQuantity == old(c.purchasedQuantity))
    {
      var target := FindNamed(batches, ref);
      if target.None? {
        return Fail(StopIteration), [];
      }
      var b: Batch := target.value;
      b.purchasedQuantity := qty;
      outcome, removed := ReleaseExcess(b);
    }

    /**
     * The loop of `change_batch_quantity`: while `b` is over-committed, pops
     * one of its lines and queues an Allocate command for it.  Fails with
     * KeyError when `b` has nothing left to pop, which only a negative
     * purchased quantity can cause.
     */
    method ReleaseExcess(b: Batch) returns (outcome: Outcome<Failure>, ghost removed: seq<OrderLine>)
      modifies b`allocations, this`events
      ensures Distinct(removed)
      ensures forall l :: l in removed ==> l in old(b.allocations)
      ensures b.allocations == Without(old(b.allocations), removed)
      ensures events == old(events) + Reallocations(removed)
      ensures PoppedWhileOver(b.purchasedQuantity, old(b.allocations), removed)
      ensures outcome.Pass? ==> b.Available() >= 0
      ensures outcome.Fail? ==> outcome == Fail(KeyError) && b.purchasedQuantity < 0 && b.allocations == {}
      ensures b.purchasedQuantity >= 0 ==> outcome.Pass?
      ensures b.purchasedQuantity < 0 && (forall l :: l in old(b.allocations) ==> l.qty >= 0) ==> outcome == Fail(KeyError)
    {
      removed := [];
      var available := b.AvailableQuantity();
      ghost var lines := b.allocations;
      while available < 0
        invariant available == b.Available()
        invariant Distinct(removed)
        invariant forall l :: l in removed ==> l in lines
        invariant b.allocations == Without(lines, removed)
        invariant events == old(events) + Reallocations(removed)
        invariant PoppedWhileOver(b.purchasedQuantity, lines, removed)
        decreases b.allocations
      {
        var line := b.DeallocateOne();
        if line.None? {
          return Fail(KeyError), removed;
        }
        var l := line.value;
        PopOneMore(b.purchasedQuantity, lines, removed, l);
        removed := removed + [l];
        events := events + [Messages.Cmd(Messages.Allocate(l.orderid, l.sku, l.qty))];
        available := b.AvailableQuantity();
      }
      if forall l :: l in lines ==> l.qty >= 0 {
        // what is left has a non-negative total, so a negative quantity never exits here
        SumQtyBounds(b.allocations);
      }
      outcome := Pass;
    }
  }


  /**
   * The corrected `allocate`, called twice with one line on any product:
   * the second call answers like the first, the line is added to at most
   * one batch, and the version is bumped at most once.
   */
  method AllocateOnceTwice(p: Product, line: OrderLine) returns (first: Option<string>, second: Option<string>, ghost chosen: Option<Batch>)
    modifies p`versionNumber, p`events, p.batches
    ensures second == first
    ensures chosen.Some? ==> first == Some(chosen.value.reference) && chosen.value in p.batches
    ensures chosen.Some? ==> chosen.value.allocations == old(chosen.value.allocations) + {line}
    ensures forall b :: b in p.batches && chosen != Some(b) ==> b.allocations == old(b.allocations)
    ensures p.versionNumber <= old(p.versionNumber) + 1
  {
    first, chosen := p.AllocateOnce(line);
    ghost var again;
    second, again := p.AllocateOnce(line);
    if chosen.Some? {
      assert again == chosen;
    } else {
      assert again.None?;
    }
  }

  /**
   * `allocate` called twice with one line, as written: a warehouse batch `a`
   * and a shipment `b` of 5 units each, and a line of 5.  The first call
   * fills `a`.  On the second, `can_allocate` counts the line `a` already
   * holds, so `a` no longer qualifies and the same line is allocated to `b`
   * too: 10 units are taken for one line of 5, and the version is bumped
   * twice.
   */
  method AllocateTwiceTakesTwoBatches() returns (a: Batch, b: Batch, p: Product, first: Option<string>, second: Option<string>)
    ensures first == Some("a") && second == Some("b")
    ensures OrderLine("o1", "LAMP", 5) in a.allocations && OrderLine("o1", "LAMP", 5) in b.allocations
    ensures a.Available() == 0 && b.Available() == 0
    ensures p.versionNumber == 2
  {
    var line := OrderLine("o1", "LAMP", 5);
    a, b, p, first := FillWarehouse(line);
    SumQtyAdd({}, line);
    assert {} + {line} == {line};
    ghost var candidates := p.Candidates(line);
    assert a !in candidates && b in candidates;
    ghost var chosen;
    second, chosen := p.Allocate(line);
    assert chosen.Some? by {
      assert b in p.batches;
    }
    Preference.SecondOfTwo(a, b, EtaOf, candidates, chosen.value);
    assert a.allocations == {line} && b.allocations == {line};
  }

  /** The first call of the scenario above: the line goes to the warehouse batch `a`. */
  method FillWarehouse(line: OrderLine) returns (a: Batch, b: Batch, p: Product, first: Option<string>)
    requires line.qty == 5
    ensures fresh(a) && fresh(b) && a != b
    ensures p.batches == [a, b] && p.versionNumber == 1
    ensures a.reference == "a" && b.reference == "b" && a.sku == line.sku && b.sku == line.sku
    ensures a.purchasedQuantity == 5 && b.purchasedQuantity == 5
    ensures a.allocations == {line} && b.allocations == {}
    ensures first == Some("a")
  {
    a, b, p := TwoBatches(line.sku);
    ghost var candidates := p.Candidates(line);
    assert a in candidates by {
      assert SumQty({}) == 0;
    }
    ghost var chosen;
    first, chosen := p.Allocate(line);
    assert chosen.Some? by {
      assert a in p.batches;
    }
    Preference.FirstOfTwo(a, b, EtaOf, candidates, chosen.value);
  }

  /** A product of `sku` with warehouse stock `a` and a shipment `b`, 5 units each and nothing allocated. */
  method TwoBatches(sku: string) returns (a: Batch, b: Batch, p: Product)
    ensures fresh(a) && fresh(b) && a != b
    ensures p.batches == [a, b] && p.versionNumber == 0
    ensures a.reference == "a" && b.reference == "b" && a.sku == sku && b.sku == sku
    ensures a.eta.None? && b.eta.Some?
    ensures a.purchasedQuantity == 5 && b.purchasedQuantity == 5
    ensures a.allocations == {} && b.allocations == {}
  {
    a := new Batch("a", sku, 5, None);
    b := new Batch("b", sku, 5, Some(1));
    p := new Product(sku, [a, b], 0);
  }
}
