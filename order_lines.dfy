/**
 * The order line value object, shared by allocation/domain/model.py and the
 * earlier model.py: both declare it as a dataclass of (orderid, sku, qty),
 * so two lines are equal exactly when the three fields are.  Dafny datatypes
 * have that structural equality already.
 */
module OrderLines {

  datatype OrderLine = OrderLine(orderid: string, sku: string, qty: int)

  /** One fixed element of a non-empty set of lines, so that SumQty is a function. */
  ghost function Pick(lines: set<OrderLine>): (r: OrderLine)
    requires lines != {}
  {
    var l :| l in lines; l
  }

  /** The total quantity of a set of lines: `sum(line.qty for line in lines)`. */
  ghost function SumQty(lines: set<OrderLine>): (r: int)
    decreases lines
  {
    if lines == {} then 0 else var l := Pick(lines); l.qty + SumQty(lines - {l})
  }

  /** The sum does not depend on the order in which a set is iterated: any line can be taken out first. */
  lemma {:induction false} SumQtyRemove(lines: set<OrderLine>, x: OrderLine)
    requires x in lines
    ensures SumQty(lines) == x.qty + SumQty(lines - {x})
    decreases lines
  {
    var y := Pick(lines);
    if y != x {
      SumQtyRemove(lines - {y}, x);
      SumQtyRemove(lines - {x}, y);
      assert lines - {y} - {x} == lines - {x} - {y};
    }
  }

  /** Lines of non-negative quantity sum to at least the quantity of each of them, and never to less than 0. */
  lemma {:induction false} SumQtyBounds(lines: set<OrderLine>)
    requires forall l :: l in lines ==> l.qty >= 0
    ensures SumQty(lines) >= 0
    ensures forall l :: l in lines ==> l.qty <= SumQty(lines)
    decreases lines
  {
    if lines != {} {
      var l := Pick(lines);
      SumQtyBounds(lines - {l});
      forall x | x in lines ensures x.qty <= SumQty(lines) {
        if x != l {
          assert x in lines - {l};
        }
      }
    }
  }

  /** Adding a line that is not yet in the set adds its quantity to the total. */
  lemma SumQtyAdd(lines: set<OrderLine>, x: OrderLine)
    requires x !in lines
    ensures SumQty(lines + {x}) == SumQty(lines) + x.qty
  {
    SumQtyRemove(lines + {x}, x);
    assert lines + {x} - {x} == lines;
  }

}
