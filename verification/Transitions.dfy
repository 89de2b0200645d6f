/** The fold of an invoice's transition rows to each item's current state,
    modules/invoicing/lambdas/_helpers.py. */
module Transitions {
  import opened Common

  /** A stored row; an absent item_id is empty. */
  datatype Row = Row(itemId: string, state: string, transitionId: string)

  const INVOICE_LEVEL := "#invoice"

  predicate OfItem(id: string) {
    id != "" && id != INVOICE_LEVEL
  }

  function Folded(rows: seq<Row>): map<string, Row> {
    if rows == [] then map[] else
      var last := rows[|rows| - 1];
      var earlier := Folded(rows[..|rows| - 1]);
      if OfItem(last.itemId) then earlier[last.itemId := last] else earlier
  }

  /** The rows of one item, in order. */
  function Of(rows: seq<Row>, id: string): seq<Row> {
    if rows == [] then [] else
      var last := rows[|rows| - 1];
      Of(rows[..|rows| - 1], id) + (if last.itemId == id then [last] else [])
  }

  /** fold_items(): an item's state is its last row; rows about the invoice itself are no item. */
  method FoldItems(rows: seq<Row>) returns (latest: map<string, Row>)
    ensures latest == Folded(rows)
    ensures forall id :: id in latest <==> OfItem(id) && Of(rows, id) != []
    ensures forall id :: id in latest ==> latest[id] == Of(rows, id)[|Of(rows, id)| - 1]
  {
    latest := map[];
    for k := 0 to |rows|
      invariant latest == Folded(rows[..k])
    {
      PrefixStep(rows, k);
      var itemId := rows[k].itemId;
      if itemId == "" || itemId == INVOICE_LEVEL {
        continue;
      }
      latest := latest[itemId := rows[k]];
    }
    assert rows[..|rows|] == rows;
    forall id
      ensures id in latest <==> OfItem(id) && Of(rows, id) != []
      ensures id in latest ==> Of(rows, id) != [] && latest[id] == Of(rows, id)[|Of(rows, id)| - 1]
    {
      FoldedIsLast(rows, id);
    }
  }

  lemma {:induction false} FoldedIsLast(rows: seq<Row>, id: string)
    ensures id in Folded(rows) <==> OfItem(id) && Of(rows, id) != []
    ensures id in Folded(rows) ==> Of(rows, id) != [] && Folded(rows)[id] == Of(rows, id)[|Of(rows, id)| - 1]
  {
    if rows != [] {
      FoldedIsLast(rows[..|rows| - 1], id);
    }
  }

  /** The fold depends on the order within each item alone, so rows read item by item, as the sort key
      orders them, fold as they were appended. */
  lemma FoldedPerItem(x: seq<Row>, y: seq<Row>)
    requires forall id :: Of(x, id) == Of(y, id)
    ensures Folded(x) == Folded(y)
  {
    forall id ensures (id in Folded(x) <==> id in Folded(y)) && (id in Folded(x) ==> Folded(x)[id] == Folded(y)[id]) {
      FoldedIsLast(x, id);
      FoldedIsLast(y, id);
      assert Of(x, id) == Of(y, id);
    }
  }
}
