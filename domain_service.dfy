/**
 * The earlier, standalone version of the domain in model.py: the same Batch
 * rules (without `deallocate_one`) and a free function `allocate` that
 * raises OutOfStock instead of recording an event on a Product.
 */
module DomainService {
  import opened Common
  import opened OrderLines
  import Preference

  /** The outcome of `allocate`: the chosen batch's reference, or the OutOfStock exception with its message. */
  datatype Allocation = Allocated(batchref: string) | OutOfStock(message: string)

  /** The eta of a batch: the key of the preference order. */
  function EtaOf(b: Batch): (r: Option<int>)
  {
    b.eta
  }

  class Batch {
    const reference: string
    const sku: string
    const eta: Option<int>
    var purchasedQuantity: int
    var allocations: set<OrderLine>

    constructor (ref: string, sku: string, qty: int, eta: Option<int>)
      ensures reference == ref && this.sku == sku && this.eta == eta
      ensures purchasedQuantity == qty && allocations == {}
    {
      reference := ref;
      this.sku := sku;
      this.eta := eta;
      purchasedQuantity := qty;
      allocations := {};
    }

    /** `__eq__`: a Batch equals another Batch with the same reference, whatever their state. */
    function Equals(other: object): (r: bool)
      ensures other == this ==> r
      ensures r ==> other is Batch && (other as Batch).reference == reference
    {
      other is Batch && (other as Batch).reference == reference
    }

    /** Purchased quantity minus the sum over the allocated lines. */
    ghost function Available(): (r: int)
      reads this
    {
      purchasedQuantity - SumQty(allocations)
    }

    /** `can_allocate`, as a specification. */
    ghost predicate Accepts(line: OrderLine)
      reads this
    {
      sku == line.sku && Available() >= line.qty
    }

    /** `allocated_quantity`: sums the quantities of the allocated lines in iteration order. */
    method AllocatedQuantity() returns (q: int)
      ensures q == SumQty(allocations)
    {
      var rest := allocations;
      q := 0;
      while rest != {}
        invariant rest <= allocations
        invariant q + SumQty(rest) == SumQty(allocations)
        decreases rest
      {
        var line :| line in rest;
        SumQtyRemove(rest, line);
        q := q + line.qty;
        rest := rest - {line};
      }
    }

    /** `available_quantity`. */
    method AvailableQuantity() returns (q: int)
      ensures q == purchasedQuantity - SumQty(allocations)
    {
      var inUse := AllocatedQuantity();
      q := purchasedQuantity - inUse;
    }

    /** `can_allocate`: the skus agree and the batch has at least the line's quantity left. */
    method CanAllocate(line: OrderLine) returns (ok: bool)
      ensures ok <==> sku == line.sku && purchasedQuantity - SumQty(allocations) >= line.qty
    {
      var available := AvailableQuantity();
      ok := sku == line.sku && available >= line.qty;
    }

    /** `allocate`: adds the line when the batch can take it, and otherwise changes nothing. */
    method Allocate(line: OrderLine)
      modifies this`allocations
      ensures allocations == if old(Accepts(line)) then old(allocations) + {line} else old(allocations)
      ensures line in old(allocations) ==> allocations == old(allocations)
      ensures old(Accepts(line)) && line !in old(allocations) ==> Available() == old(Available()) - line.qty
    {
      var ok := CanAllocate(line);
      if ok {
        if line !in allocations {
          SumQtyAdd(allocations, line);
        }
        allocations := allocations + {line};
      }
    }

    /** `deallocate`: removes the line if it is allocated here; a no-op otherwise. */
    method Deallocate(line: OrderLine)
      modifies this`allocations
      ensures allocations == old(allocations) - {line}
      ensures line in old(allocations) ==> Available() == old(Available()) + line.qty
    {
      if line in allocations {
        SumQtyRemove(allocations, line);
        allocations := allocations - {line};
      }
    }
  }

  /** `__eq__` is an equivalence that looks at the reference only, never at quantities or allocations. */
  lemma EqualsIsByReference(a: Batch, b: Batch, c: Batch, other: object)
    ensures a.Equals(b) <==> a.reference == b.reference
    ensures a.Equals(a)
    ensures a.Equals(b) ==> b.Equals(a)
    ensures a.Equals(b) && b.Equals(c) ==> a.Equals(c)
    ensures !(other is Batch) ==> !a.Equals(other)
  {
  }

  /** The batches of `bs` that can take `line` now. */
  ghost function Accepting(bs: seq<Batch>, line: OrderLine): (r: set<Batch>)
    reads bs
  {
    set b | b in bs && b.Accepts(line)
  }

  /** A reordering of the batches, such as their sort, has the same batches that can take a line. */
  lemma ReorderedCandidates(bs: seq<Batch>, sorted: seq<Batch>, line: OrderLine)
    requires multiset(sorted) == multiset(bs)
    ensures Accepting(sorted, line) == Accepting(bs, line)
  {
    forall b ensures b in Accepting(sorted, line) <==> b in Accepting(bs, line) {
      assert b in sorted <==> b in multiset(sorted);
      assert b in bs <==> b in multiset(bs);
    }
  }

  /**
   * `next(b for b in sorted(batches) if b.can_allocate(line))`, or None for
   * StopIteration: None exactly when no batch can take the line, and
   * otherwise the most preferred batch that can.
   */
  ghost function Choice(batches: seq<Batch>, line: OrderLine): (r: Option<Batch>)
    reads batches
    ensures r.None? <==> forall b :: b in batches ==> !b.Accepts(line)
    ensures r.Some? ==> Preference.MostPreferred(batches, EtaOf, Accepting(batches, line), r.value)
  {
    Preference.SortedChoice(batches, EtaOf, Accepting(batches, line));
    Preference.NoneIn(batches, Accepting(batches, line));
    Preference.FirstIn(Preference.Sort(batches, EtaOf), Accepting(batches, line))
  }

  /** `next(b for b in bs if b.can_allocate(line))`: the first batch that can take the line, or None. */
  method FirstAllocatable(bs: seq<Batch>, line: OrderLine) returns (found: Option<Batch>)
    ensures found == Preference.FirstIn(bs, Accepting(bs, line))
  {
    found := None;
    var i := 0;
    while i < |bs| && found.None?
      invariant 0 <= i <= |bs|
      invariant found.None? ==> Preference.FirstIn(bs, Accepting(bs, line)) == Preference.FirstIn(bs[i..], Accepting(bs, line))
      invariant found.Some? ==> found == Preference.FirstIn(bs, Accepting(bs, line))
    {
      var ok := bs[i].CanAllocate(line);
      assert bs[i..] == [bs[i]] + bs[i + 1..];
      if ok {
        found := Some(bs[i]);
      }
      i := i + 1;
    }
  }

  /** The batches of `bs` that already hold `line`. */
  ghost function Holding(bs: seq<Batch>, line: OrderLine): (r: set<Batch>)
    reads bs
  {
    set b | b in bs && line in b.allocations
  }

  /** The first batch of `bs` that already holds `line`, or None. */
  method FindHolder(bs: seq<Batch>, line: OrderLine) returns (holder: Option<Batch>)
    ensures holder == Preference.FirstIn(bs, Holding(bs, line))
  {
    holder := None;
    var i := 0;
    while i < |bs| && holder.None?
      invariant 0 <= i <= |bs|
      invariant holder.None? ==> Preference.FirstIn(bs, Holding(bs, line)) == Preference.FirstIn(bs[i..], Holding(bs, line))
      invariant holder.Some? ==> holder == Preference.FirstIn(bs, Holding(bs, line))
    {
      assert bs[i..] == [bs[i]] + bs[i + 1..];
      if line in bs[i].allocations {
        holder := Some(bs[i]);
      }
      i := i + 1;
    }
  }

  /**
   * `allocate(line, batches)`: allocates the line to the most preferred
   * batch that can take it and returns that batch's reference; raises
   * OutOfStock, touching no batch, when none can.  `chosen` names the batch
   * object the line went to.
   */
  method Allocate(line: OrderLine, batches: seq<Batch>) returns (r: Allocation, ghost chosen: Option<Batch>)
    modifies batches
    ensures chosen == old(Choice(batches, line))
    ensures chosen.None? <==> forall b :: b in batches ==> !old(b.Accepts(line))
    ensures chosen.None? ==> r == OutOfStock("Out of stock for sku " + line.sku)
    ensures chosen.Some? ==> Preference.MostPreferred(batches, EtaOf, old(Accepting(batches, line)), chosen.value)
    ensures chosen.Some? ==> r == Allocated(chosen.value.reference)
    ensures chosen.Some? ==> chosen.value.allocations == old(chosen.value.allocations) + {line}
    ensures forall b :: b in batches && chosen != Some(b) ==> b.allocations == old(b.allocations)
    ensures forall b :: b in batches ==> b.purchasedQuantity == old(b.purchasedQuantity)
  {
    var sorted := Preference.Sort(batches, EtaOf);
    var found := FirstAllocatable(sorted, line);
    ReorderedCandidates(batches, sorted, line);
    assert found == Choice(batches, line);
    chosen := found;
    if found.None? {
      return OutOfStock("Out of stock for sku " + line.sku), chosen;
    }
    var batch := found.value;
    batch.Allocate(line);
    r := Allocated(batch.reference);
  }


  /** The first batch of `batches` that already holds `line`, or None. */
  ghost function Holder(batches: seq<Batch>, line: OrderLine): (r: Option<Batch>)
    reads batches
  {
    Preference.FirstIn(batches, Holding(batches, line))
  }

  /**
   * `allocate` made idempotent: a line that a batch already holds is
   * answered with that batch's reference and changes nothing; any other
   * line is allocated as `allocate` does.  Afterwards the batch the line
   * went to is the first one holding it, so a repeated call changes nothing.
   */
  method AllocateOnce(line: OrderLine, batches: seq<Batch>) returns (r: Allocation, ghost chosen: Option<Batch>)
    modifies batches
    ensures chosen.None? ==> r == OutOfStock("Out of stock for sku " + line.sku)
    ensures chosen.Some? ==> r == Allocated(chosen.value.reference)
    ensures chosen.Some? ==> Holder(batches, line) == chosen
    ensures chosen.None? ==> Holder(batches, line).None? && forall b :: b in batches ==> !b.Accepts(line)
    ensures old(Holder(batches, line)).Some? ==>
              && chosen == old(Holder(batches, line))
              && forall b :: b in batches ==> b.allocations == old(b.allocations)
    ensures old(Holder(batches, line)).None? ==> chosen == old(Choice(batches, line))
    ensures old(Holder(batches, line)).None? && chosen.Some? ==>
              chosen.value.allocations == old(chosen.value.allocations) + {line}
    ensures forall b :: b in batches && chosen != Some(b) ==> b.allocations == old(b.allocations)
    ensures forall b :: b in batches ==> b.purchasedQuantity == old(b.purchasedQuantity)
  {
    var holder := FindHolder(batches, line);
    if holder.Some? {
      return Allocated(holder.value.reference), holder;
    }
    assert forall b :: b in batches ==> line !in b.allocations by {
      Preference.NoneIn(batches, Holding(batches, line));
    }
    r, chosen := Allocate(line, batches);
    if chosen.Some? {
      Preference.OnlyIn(batches, Holding(batches, line), chosen.value);
    } else {
      Preference.NoneIn(batches, Holding(batches, line));
    }
  }

  /**
   * The corrected `allocate`, called twice with one line: the second call
   * answers like the first and the line is added to at most one batch.
   */
  method AllocateOnceTwice(line: OrderLine, batches: seq<Batch>) returns (first: Allocation, second: Allocation, ghost chosen: Option<Batch>)
    modifies batches
    ensures second == first
    ensures chosen.Some? ==> first == Allocated(chosen.value.reference) && chosen.value in batches
    ensures chosen.Some? ==> chosen.value.allocations == old(chosen.value.allocations) + {line}
    ensures forall b :: b in batches && chosen != Some(b) ==> b.allocations == old(b.allocations)
  {
    first, chosen := AllocateOnce(line, batches);
    ghost var again;
    second, again := AllocateOnce(line, batches);
    if chosen.Some? {
      assert again == chosen;
    } else {
      assert again.None?;
    }
  }

  /**
   * `allocate(line, batches)` called twice with one line, as written:
   * warehouse stock `a` and a shipment `b` of 5 units each, and a line of 5.
   * The first call fills `a`; on the second, `a` no longer qualifies because
   * of the line it already holds, and the same line is allocated to `b` too.
   */
  method AllocateTwiceTakesTwoBatches() returns (a: Batch, b: Batch, first: Allocation, second: Allocation)
    ensures first == Allocated("a") && second == Allocated("b")
    ensures OrderLine("o1", "LAMP", 5) in a.allocations && OrderLine("o1", "LAMP", 5) in b.allocations
    ensures a.Available() == 0 && b.Available() == 0
  {
    var line := OrderLine("o1", "LAMP", 5);
    a, b, first := FillWarehouse(line);
    SumQtyAdd({}, line);
    assert {} + {line} == {line};
    ghost var candidates := Accepting([a, b], line);
    assert a !in candidates && b in candidates;
    ghost var chosen;
    second, chosen := Allocate(line, [a, b]);
    assert chosen.Some? by {
      assert b in [a, b];
    }
    Preference.SecondOfTwo(a, b, EtaOf, candidates, chosen.value);
    assert a.allocations == {line} && b.allocations == {line};
  }

  /** The first call of the scenario above: the line goes to the warehouse batch `a`. */
  method FillWarehouse(line: OrderLine) returns (a: Batch, b: Batch, first: Allocation)
    requires line.qty == 5
    ensures fresh(a) && fresh(b) && a != b
    ensures a.reference == "a" && b.reference == "b" && a.sku == line.sku && b.sku == line.sku
    ensures a.eta.None? && b.eta.Some?
    ensures a.purchasedQuantity == 5 && b.purchasedQuantity == 5
    ensures a.allocations == {line} && b.allocations == {}
    ensures first == Allocated("a")
  {
    a := new Batch("a", line.sku, 5, None);
    b := new Batch("b", line.sku, 5, Some(1));
    ghost var candidates := Accepting([a, b], line);
    assert a in candidates by {
      assert SumQty({}) == 0;
    }
    ghost var chosen;
    first, chosen := Allocate(line, [a, b]);
    assert chosen.Some? by {
      assert a in [a, b];
    }
    Preference.FirstOfTwo(a, b, EtaOf, candidates, chosen.value);
  }
}
