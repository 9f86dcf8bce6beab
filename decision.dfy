/** The invoice generator's decision once the two aggregates are known
    (`lib/data_generator.py`, lines 345-371): which storage to invoice from, how
    much, or why nothing is invoiced. The aggregates are the rows the two SQL
    queries return; their row order is unspecified, so every choice is stated
    as "a row that achieves the maximum". */
module InvoiceDecision {
  import opened Wrappers
  import opened Sampling

  /** Per storage: total quantity of the product delivered there, and the earliest
      delivery time among those deliveries. */
  datatype DeliveryAgg = DeliveryAgg(StorageID: nat, QuantitySum: int, DeliveryDateTimeMin: int)

  /** Per storage: total quantity of the product already invoiced from there. */
  datatype InvoiceAgg = InvoiceAgg(StorageID: nat, QuantitySum: int)

  /** A row of the inner merge of the two aggregates on StorageID. */
  datatype MergedRow = MergedRow(StorageID: nat, QuantitySum_x: int, DeliveryDateTimeMin: int, QuantitySum_y: int, QuantityDiff: int)

  /** One merged row: the delivered row's key and columns beside the invoiced
      row's sum, and the difference that remains available. */
  function Join(d: DeliveryAgg, v: InvoiceAgg): (r: MergedRow)
    ensures r.StorageID == d.StorageID && r.DeliveryDateTimeMin == d.DeliveryDateTimeMin
    ensures r.QuantitySum_x == d.QuantitySum && r.QuantitySum_y == v.QuantitySum
    ensures r.QuantityDiff + r.QuantitySum_y == r.QuantitySum_x
  {
    MergedRow(d.StorageID, d.QuantitySum, d.DeliveryDateTimeMin, v.QuantitySum, d.QuantitySum - v.QuantitySum)
  }

  predicate Matches(d: DeliveryAgg, v: InvoiceAgg) { d.StorageID == v.StorageID }

  /** The merged rows contributed by one delivered row. */
  function MergeRow(d: DeliveryAgg, invoiced: seq<InvoiceAgg>): (m: seq<MergedRow>)
    ensures forall r :: r in m <==> exists j :: 0 <= j < |invoiced| && Matches(d, invoiced[j]) && r == Join(d, invoiced[j])
    decreases |invoiced|
  {
    if invoiced == [] then []
    else
      var last := invoiced[|invoiced| - 1];
      var rest := MergeRow(d, invoiced[..|invoiced| - 1]);
      if Matches(d, last) then rest + [Join(d, last)] else rest
  }

  /** `pd.merge(delivered, invoiced, on="StorageID")`: an inner join, so a storage
      that appears in only one of the aggregates has no merged row. */
  function Merge(delivered: seq<DeliveryAgg>, invoiced: seq<InvoiceAgg>): (m: seq<MergedRow>)
    ensures forall r :: r in m <==>
      exists i, j :: 0 <= i < |delivered| && 0 <= j < |invoiced| && Matches(delivered[i], invoiced[j]) && r == Join(delivered[i], invoiced[j])
    decreases |delivered|
  {
    if delivered == [] then []
    else
      var rest := delivered[..|delivered| - 1];
      var last := delivered[|delivered| - 1];
      var m := Merge(rest, invoiced) + MergeRow(last, invoiced);
      assert forall i :: 0 <= i < |rest| ==> rest[i] == delivered[i];
      m
  }

  /** The row `sort_values("QuantitySum", ascending=False).iloc[0]` returns. */
  function ArgMaxSum(rows: seq<DeliveryAgg>): (k: nat)
    requires rows != []
    ensures k < |rows|
    ensures forall i :: 0 <= i < |rows| ==> rows[i].QuantitySum <= rows[k].QuantitySum
    decreases |rows|
  {
    if |rows| == 1 then 0
    else
      var k := ArgMaxSum(rows[..|rows| - 1]);
      if rows[k].QuantitySum < rows[|rows| - 1].QuantitySum then |rows| - 1 else k
  }

  /** The row `sort_values("QuantityDiff", ascending=False).iloc[0]` returns. */
  function ArgMaxDiff(rows: seq<MergedRow>): (k: nat)
    requires rows != []
    ensures k < |rows|
    ensures forall i :: 0 <= i < |rows| ==> rows[i].QuantityDiff <= rows[k].QuantityDiff
    decreases |rows|
  {
    if |rows| == 1 then 0
    else
      var k := ArgMaxDiff(rows[..|rows| - 1]);
      if rows[k].QuantityDiff < rows[|rows| - 1].QuantityDiff then |rows| - 1 else k
  }

  /** The largest delivered sum: the `QuantitySum` of the row `ArgMaxSum` picks,
      whichever of several tied rows that is. */
  function MaxSum(rows: seq<DeliveryAgg>): (m: int)
    requires rows != []
    ensures exists i :: 0 <= i < |rows| && rows[i].QuantitySum == m
    ensures forall i :: 0 <= i < |rows| ==> rows[i].QuantitySum <= m
  {
    rows[ArgMaxSum(rows)].QuantitySum
  }

  /** The largest difference of delivered and invoiced quantity over the merged rows. */
  function MaxDiff(rows: seq<MergedRow>): (m: int)
    requires rows != []
    ensures exists k :: 0 <= k < |rows| && rows[k].QuantityDiff == m
    ensures forall k :: 0 <= k < |rows| ==> rows[k].QuantityDiff <= m
  {
    rows[ArgMaxDiff(rows)].QuantityDiff
  }

  /** `int(x * 1.5)`: Python's `int` truncates toward zero. */
  function OneAndHalf(x: int): (r: int)
    ensures 0 <= x ==> 2 * r <= 3 * x < 2 * r + 2
    ensures x < 0 ==> 2 * r - 2 < 3 * x <= 2 * r
  {
    if 0 <= x then (3 * x) / 2 else -((-3 * x) / 2)
  }

  /** The outcome of `randrange(1, int(available * 1.5))` checked against `available`. */
  datatype QuantityDraw =
    | Drawn(q: int)       // 1 <= q <= available: accepted
    | Excess(q: int)      // q > available: the call is rejected
    | NoRange             // randrange raised ValueError: the call fails

  function SampleQuantity(available: int, u: Uniform): (r: QuantityDraw)
    requires IsUniform(u)
    ensures r.Drawn? ==> 1 <= r.q <= available
    ensures r.Excess? ==> available < r.q && 2 * r.q < 3 * available
    ensures r.NoRange? <==> available <= 1
  {
    match RandRange(1, OneAndHalf(available), u)
    case None => NoRange
    case Some(q) => if q > available then Excess(q) else Drawn(q)
  }

  /** Every quantity from 1 to the available stock can be drawn when the range is non-empty. */
  lemma {:induction false} EveryQuantityDrawable(available: int, q: int)
    requires 2 <= available && 1 <= q <= available
    ensures IsUniform(Uniform(q - 1, OneAndHalf(available) - 1))
    ensures SampleQuantity(available, Uniform(q - 1, OneAndHalf(available) - 1)) == Drawn(q)
  {
    RandRangeCovers(1, OneAndHalf(available), q);
  }

  /** A rejection for excess is possible only when at least four units are available. */
  lemma {:induction false} ExcessNeedsFour(available: int, u: Uniform)
    requires IsUniform(u) && SampleQuantity(available, u).Excess?
    ensures 4 <= available
  {
    var q := SampleQuantity(available, u).q;
    assert available + 1 <= q && 2 * q < 3 * available;
  }

  /** ... and from four units on, some draw is rejected. */
  lemma {:induction false} ExcessReachable(available: int)
    requires 4 <= available
    ensures IsUniform(Uniform(available, OneAndHalf(available) - 1))
    ensures SampleQuantity(available, Uniform(available, OneAndHalf(available) - 1)) == Excess(available + 1)
  {
    RandRangeCovers(1, OneAndHalf(available), available + 1);
  }

  datatype Rejection = OverStock(q: int) | NegativeAvailability

  /** Exceptions the source raises: `iloc[0]` on an empty frame, `randrange` on an empty range. */
  datatype Fault = EmptyAggregate | EmptyRange

  datatype Decision =
    | Accept(StorageID: nat, Quantity: int, DeliveryDateTimeMin: int)
    | Reject(reason: Rejection)
    | Fail(fault: Fault)

  /** Lines 345-353: the product has no invoice rows yet. The storage with the
      largest delivered sum is used and a quantity is drawn against that sum. */
  function DecideFromDelivered(delivered: seq<DeliveryAgg>, u: Uniform): (r: Decision)
    requires IsUniform(u) && delivered != []
    ensures r.Accept? ==>
      exists i :: 0 <= i < |delivered| && r.StorageID == delivered[i].StorageID
        && r.DeliveryDateTimeMin == delivered[i].DeliveryDateTimeMin
        && 1 <= r.Quantity <= delivered[i].QuantitySum
        && forall i' :: 0 <= i' < |delivered| ==> delivered[i'].QuantitySum <= delivered[i].QuantitySum
    ensures r.Reject? ==> r.reason.OverStock? && MaxSum(delivered) < r.reason.q
    ensures RandRange(1, OneAndHalf(MaxSum(delivered)), u).Some? ==>
      var q := RandRange(1, OneAndHalf(MaxSum(delivered)), u).value;
      (q <= MaxSum(delivered) ==> r.Accept? && r.Quantity == q)
      && (MaxSum(delivered) < q ==> r == Reject(OverStock(q)))
    ensures r.Fail? <==> forall i :: 0 <= i < |delivered| ==> delivered[i].QuantitySum <= 1
    ensures r.Fail? ==> r.fault == EmptyRange
  {
    var k := ArgMaxSum(delivered);
    var row := delivered[k];
    match SampleQuantity(row.QuantitySum, u)
    case NoRange => Fail(EmptyRange)
    case Excess(q) => Reject(OverStock(q))
    case Drawn(q) => Accept(row.StorageID, q, row.DeliveryDateTimeMin)
  }

  /** Lines 355-371: the product has invoice rows. The merged row with the largest
      difference is used; a negative difference rejects the call, a difference of
      exactly 1 forces quantity 1, and a difference of 0 makes randrange(1, 0) fail. */
  function DecideFromMerged(merged: seq<MergedRow>, u: Uniform): (r: Decision)
    requires IsUniform(u) && merged != []
    ensures r.Accept? ==>
      exists k :: 0 <= k < |merged| && r.StorageID == merged[k].StorageID
        && r.DeliveryDateTimeMin == merged[k].DeliveryDateTimeMin
        && 1 <= r.Quantity <= merged[k].QuantityDiff
        && forall k' :: 0 <= k' < |merged| ==> merged[k'].QuantityDiff <= merged[k].QuantityDiff
    ensures r == Reject(NegativeAvailability) <==> forall k :: 0 <= k < |merged| ==> merged[k].QuantityDiff < 0
    ensures r.Reject? && r.reason.OverStock? ==> MaxDiff(merged) < r.reason.q
    ensures 2 <= MaxDiff(merged) ==>
      var q := RandRange(1, OneAndHalf(MaxDiff(merged)), u).value;
      (q <= MaxDiff(merged) ==> r.Accept? && r.Quantity == q)
      && (MaxDiff(merged) < q ==> r == Reject(OverStock(q)))
    ensures ((exists k :: 0 <= k < |merged| && merged[k].QuantityDiff == 1)
             && (forall k :: 0 <= k < |merged| ==> merged[k].QuantityDiff <= 1))
            ==> r.Accept? && r.Quantity == 1
    ensures r.Fail? <==>
      (exists k :: 0 <= k < |merged| && merged[k].QuantityDiff == 0)
      && forall k :: 0 <= k < |merged| ==> merged[k].QuantityDiff <= 0
    ensures r.Fail? ==> r.fault == EmptyRange
  {
    var k := ArgMaxDiff(merged);
    var row := merged[k];
    if row.QuantityDiff < 0 then Reject(NegativeAvailability)
    else if row.QuantityDiff == 1 then Accept(row.StorageID, 1, row.DeliveryDateTimeMin)
    else
      match SampleQuantity(row.QuantityDiff, u)
      case NoRange => Fail(EmptyRange)
      case Excess(q) => Reject(OverStock(q))
      case Drawn(q) => Accept(row.StorageID, q, row.DeliveryDateTimeMin)
  }

  /** Lines 345-371: `invoice_quantity.empty` selects the branch; `iloc[0]` on an
      empty frame fails. */
  function DecideInvoice(delivered: seq<DeliveryAgg>, invoiced: seq<InvoiceAgg>, u: Uniform): (r: Decision)
    requires IsUniform(u)
    ensures r == Fail(EmptyAggregate) <==>
      (invoiced == [] && delivered == []) || (invoiced != [] && Merge(delivered, invoiced) == [])
    ensures invoiced == [] && delivered != [] ==> r == DecideFromDelivered(delivered, u)
    ensures invoiced != [] && Merge(delivered, invoiced) != [] ==> r == DecideFromMerged(Merge(delivered, invoiced), u)
  {
    if invoiced == [] then
      if delivered == [] then Fail(EmptyAggregate) else DecideFromDelivered(delivered, u)
    else
      var merged := Merge(delivered, invoiced);
      if merged == [] then Fail(EmptyAggregate) else DecideFromMerged(merged, u)
  }

  /** The first invoice of a product can be refused: with 10 units delivered to a
      single storage the quantity is drawn from [1, 15), and 14 exceeds the stock. */
  lemma FirstInvoiceCanBeRejected()
    ensures DecideInvoice([DeliveryAgg(1, 10, DefaultMinDateTime)], [], Uniform(13, 14)) == Reject(OverStock(14))
  {
    assert ArgMaxSum([DeliveryAgg(1, 10, DefaultMinDateTime)]) == 0;
    assert OneAndHalf(10) == 15;
    assert Below(Uniform(13, 14), 14) == 13;
  }
}
