/** The stock helpers: the low-stock query and the depletion estimate. */
module Stock {
  import opened Wrappers
  import opened App

  /** Units consumed per day, a fixed placeholder rate. */
  const DailyUsage: real := 5.0

  /** A material is low on stock once its quantity has fallen to its
      reorder point or below. */
  predicate IsLowStock(m: Material) {
    m.quantity <= m.reorderPoint
  }

  /** The low-stock query, over the rows of the materials table: each low
      row is returned as often as the table holds it, and nothing else is. */
  function GetLowStock(store: seq<Material>): (r: seq<Material>)
    ensures forall m :: m in r <==> m in store && IsLowStock(m)
    ensures forall m :: multiset(r)[m] == if IsLowStock(m) then multiset(store)[m] else 0
  {
    if store == [] then []
    else
      assert store == [store[0]] + store[1..];
      (if IsLowStock(store[0]) then [store[0]] else []) + GetLowStock(store[1..])
  }

  /** Estimated days until a material runs out: the quantity spread over
      the daily rate, zero when nothing is left. */
  function PredictDepletionDays(m: Material): (days: real)
    ensures days >= 0.0
    ensures m.quantity <= 0.0 ==> days == 0.0
    ensures m.quantity > 0.0 ==> days > 0.0 && days * DailyUsage == m.quantity
  {
    if m.quantity > 0.0 && DailyUsage > 0.0 then m.quantity / DailyUsage else 0.0
  }

  /** More stock never predicts an earlier depletion. */
  lemma DepletionMonotone(a: Material, b: Material)
    requires a.quantity <= b.quantity
    ensures PredictDepletionDays(a) <= PredictDepletionDays(b)
  {
  }

  /** Across the two files: the query's predicate is the complement of the
      inventory page's OK rule, record by record. Hence, were the filter run
      over a labelled list, it would return exactly the records labelled LOW
      (the program itself runs the query over the database table). */
  lemma LowStockIsLowStatus(ms: seq<Material>)
    ensures forall i :: 0 <= i < |ms| ==>
      (IsLowStock(ms[i]) <==> Classified(ms)[i].status == Some(Low))
    ensures forall i :: 0 <= i < |ms| ==>
      (Classified(ms)[i] in GetLowStock(Classified(ms)) <==> Classified(ms)[i].status == Some(Low))
  {
    StatusRule(ms);
    OnlyStatusChanges(ms);
    forall i | 0 <= i < |ms|
      ensures Classified(ms)[i] in GetLowStock(Classified(ms)) <==> Classified(ms)[i].status == Some(Low)
    {
      assert Classified(ms)[i] in Classified(ms);
    }
  }
}
