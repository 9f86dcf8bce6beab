/** What the generator keeps true of the shop database between calls: IDs are
    allocated in increasing order, provider names and storage names and addresses
    are unique, every foreign key resolves, delivery times lie in the default
    window, quantities are positive, and, for every (product, storage), the
    invoiced quantity never exceeds the delivered quantity. Each lemma below is
    one insert the generator performs, under the conditions under which it
    performs it. */
module Consistency {
  import opened Wrappers
  import opened Records
  import opened Sampling
  import opened Store
  import opened InvoiceDecision
  import opened Aggregates

  predicate IdsIncreasing(t: Tables)
  {
    && StrictlyIncreasing(ProviderIds(t))
    && StrictlyIncreasing(StorageIds(t))
    && StrictlyIncreasing(DeliveryIds(t))
    && StrictlyIncreasing(ProductIds(t))
    && StrictlyIncreasing(DeliveryLineIds(t))
    && StrictlyIncreasing(InvoiceIds(t))
    && StrictlyIncreasing(InvoiceLineIds(t))
  }

  predicate NamesUnique(t: Tables)
  {
    Distinct(ProviderNames(t)) && Distinct(StorageNames(t)) && Distinct(StorageAddresses(t))
  }

  /** Every row's reference `key` names one of `ids`. */
  predicate AllIn<T>(rows: seq<T>, key: T -> nat, ids: seq<nat>)
  {
    forall i :: 0 <= i < |rows| ==> key(rows[i]) in ids
  }

  lemma AllInAppend<T>(rows: seq<T>, x: T, key: T -> nat, ids: seq<nat>)
    requires AllIn(rows, key, ids) && key(x) in ids
    ensures AllIn(rows + [x], key, ids)
  {
    assert forall i :: 0 <= i < |rows| ==> (rows + [x])[i] == rows[i];
  }

  lemma AllInWiden<T>(rows: seq<T>, key: T -> nat, ids: seq<nat>, id: nat)
    requires AllIn(rows, key, ids)
    ensures AllIn(rows, key, ids + [id])
  {}

  predicate ReferencesResolve(t: Tables)
  {
    && AllIn(t.deliveries, DeliveryProviderOf, ProviderIds(t))
    && AllIn(t.deliveries, DeliveryStorageOf, StorageIds(t))
    && AllIn(t.deliveryLines, DeliveryLineProductOf, ProductIds(t))
    && AllIn(t.deliveryLines, DeliveryLineDeliveryOf, DeliveryIds(t))
    && AllIn(t.invoices, InvoiceStorageOf, StorageIds(t))
    && AllIn(t.invoiceLines, InvoiceLineProductOf, ProductIds(t))
    && AllIn(t.invoiceLines, InvoiceLineInvoiceOf, InvoiceIds(t))
  }

  predicate DeliveryTimesInWindow(t: Tables)
  {
    forall i :: 0 <= i < |t.deliveries| ==>
      DefaultMinDateTime <= t.deliveries[i].DeliveryDateTime < DefaultMaxDateTime
  }

  predicate QuantitiesPositive(t: Tables)
  {
    && (forall i :: 0 <= i < |t.deliveryLines| ==> 1 <= t.deliveryLines[i].Quantity)
    && (forall i :: 0 <= i < |t.invoiceLines| ==> 1 <= t.invoiceLines[i].Quantity)
  }

  /** The conservation law: nothing is invoiced out of a storage that was not delivered into it. */
  ghost predicate Conserved(t: Tables)
  {
    forall p: nat, s: nat :: InvoicedSum(t.invoiceLines, t.invoices, p, s) <= DeliveredSum(t.deliveryLines, t.deliveries, p, s)
  }

  ghost predicate Consistent(t: Tables)
  {
    IdsIncreasing(t) && NamesUnique(t) && ReferencesResolve(t) && DeliveryTimesInWindow(t)
    && QuantitiesPositive(t) && Conserved(t)
  }

  lemma EmptyIsConsistent()
    ensures Consistent(EmptyTables)
  {}

  lemma {:induction false} DistinctAppend<T>(xs: seq<T>, x: T)
    requires Distinct(xs) && x !in xs
    ensures Distinct(xs + [x])
  {
    var ys := xs + [x];
    forall i, j | 0 <= i < j < |ys| ensures ys[i] != ys[j] {
      assert ys[i] == xs[i];
      if j < |xs| { assert ys[j] == xs[j]; }
    }
  }

  /** An ID below the next allocated one is not the new one. */
  lemma {:induction false} ExistingIsNotNew(ids: seq<nat>, id: nat)
    requires id in ids
    ensures id != GenerateNextUintId(ids)
  {
    var k :| 0 <= k < |ids| && ids[k] == id;
  }

  /** `generate_provider_row` with `to_insert`: a fresh ID and an unused name. */
  lemma {:induction false} InsertProviderKeeps(t: Tables, x: Provider)
    requires Consistent(t)
    requires x.ID == GenerateNextUintId(ProviderIds(t))
    requires x.Name !in ProviderNames(t)
    ensures Consistent(Insert(t, ProviderRecord(x)))
  {
    ColumnAppend(t.providers, x, ProviderIdOf);
    ColumnAppend(t.providers, x, ProviderNameOf);
    NextIdKeepsIncreasing(ProviderIds(t));
    DistinctAppend(ProviderNames(t), x.Name);
    AllInWiden(t.deliveries, DeliveryProviderOf, ProviderIds(t), x.ID);
  }

  /** `generate_storage_row` with `to_insert`: a fresh ID, an unused name and an unused address. */
  lemma {:induction false} InsertStorageKeeps(t: Tables, x: Storage)
    requires Consistent(t)
    requires x.ID == GenerateNextUintId(StorageIds(t))
    requires x.Name !in StorageNames(t) && x.Address !in StorageAddresses(t)
    ensures Consistent(Insert(t, StorageRecord(x)))
  {
    ColumnAppend(t.storages, x, StorageIdOf);
    ColumnAppend(t.storages, x, StorageNameOf);
    ColumnAppend(t.storages, x, StorageAddressOf);
    NextIdKeepsIncreasing(StorageIds(t));
    DistinctAppend(StorageNames(t), x.Name);
    DistinctAppend(StorageAddresses(t), x.Address);
    AllInWiden(t.deliveries, DeliveryStorageOf, StorageIds(t), x.ID);
    AllInWiden(t.invoices, InvoiceStorageOf, StorageIds(t), x.ID);
  }

  /** `generate_product_row` with `to_insert`: only the ID is constrained. */
  lemma {:induction false} InsertProductKeeps(t: Tables, x: Product)
    requires Consistent(t)
    requires x.ID == GenerateNextUintId(ProductIds(t))
    ensures Consistent(Insert(t, ProductRecord(x)))
  {
    ColumnAppend(t.products, x, ProductIdOf);
    NextIdKeepsIncreasing(ProductIds(t));
    AllInWiden(t.deliveryLines, DeliveryLineProductOf, ProductIds(t), x.ID);
    AllInWiden(t.invoiceLines, InvoiceLineProductOf, ProductIds(t), x.ID);
  }

  // Each invariant is kept by a lemma of its own, so that each proof sees only
  // the facts it needs.

  lemma {:induction false} DeliveryKeepsIds(t: Tables, x: Delivery)
    requires IdsIncreasing(t) && x.ID == GenerateNextUintId(DeliveryIds(t))
    ensures IdsIncreasing(Insert(t, DeliveryRecord(x)))
  {
    ColumnAppend(t.deliveries, x, DeliveryIdOf);
    NextIdKeepsIncreasing(DeliveryIds(t));
  }

  lemma {:induction false} DeliveryKeepsReferences(t: Tables, x: Delivery)
    requires ReferencesResolve(t)
    requires x.ProviderID in ProviderIds(t) && x.StorageID in StorageIds(t)
    ensures ReferencesResolve(Insert(t, DeliveryRecord(x)))
  {
    ColumnAppend(t.deliveries, x, DeliveryIdOf);
    AllInAppend(t.deliveries, x, DeliveryProviderOf, ProviderIds(t));
    AllInAppend(t.deliveries, x, DeliveryStorageOf, StorageIds(t));
    AllInWiden(t.deliveryLines, DeliveryLineDeliveryOf, DeliveryIds(t), x.ID);
  }

  lemma {:induction false} DeliveryKeepsWindow(t: Tables, x: Delivery)
    requires DeliveryTimesInWindow(t)
    requires DefaultMinDateTime <= x.DeliveryDateTime < DefaultMaxDateTime
    ensures DeliveryTimesInWindow(Insert(t, DeliveryRecord(x)))
  {
    assert forall i :: 0 <= i < |t.deliveries| ==> (t.deliveries + [x])[i] == t.deliveries[i];
  }

  lemma {:induction false} DeliveryKeepsConserved(t: Tables, x: Delivery)
    requires Conserved(t) && AllIn(t.deliveryLines, DeliveryLineDeliveryOf, DeliveryIds(t))
    requires x.ID == GenerateNextUintId(DeliveryIds(t))
    ensures Conserved(Insert(t, DeliveryRecord(x)))
  {
    var t' := Insert(t, DeliveryRecord(x));
    forall i | 0 <= i < |t.deliveryLines| ensures t.deliveryLines[i].DeliveryID != x.ID {
      assert DeliveryLineDeliveryOf(t.deliveryLines[i]) in DeliveryIds(t);
      ExistingIsNotNew(DeliveryIds(t), t.deliveryLines[i].DeliveryID);
    }
    forall p: nat, s: nat
      ensures InvoicedSum(t'.invoiceLines, t'.invoices, p, s) <= DeliveredSum(t'.deliveryLines, t'.deliveries, p, s)
    {
      DeliveredSumNewDelivery(t.deliveryLines, t.deliveries, x, p, s);
    }
  }

  /** A delivery leaves the names and the quantities alone. */
  lemma {:induction false} DeliveryKeepsOthers(t: Tables, x: Delivery)
    requires NamesUnique(t) && QuantitiesPositive(t)
    ensures NamesUnique(Insert(t, DeliveryRecord(x))) && QuantitiesPositive(Insert(t, DeliveryRecord(x)))
  {
    var t' := Insert(t, DeliveryRecord(x));
    assert t'.providers == t.providers && t'.storages == t.storages && t'.deliveryLines == t.deliveryLines && t'.invoiceLines == t.invoiceLines;
  }

  /** `generate_delivery_row` with `to_insert`: a fresh ID, an existing provider and
      storage, a time in the default window. The new ID joins no existing line, so
      no delivered sum changes. */
  lemma {:induction false} InsertDeliveryKeeps(t: Tables, x: Delivery)
    requires Consistent(t)
    requires x.ID == GenerateNextUintId(DeliveryIds(t))
    requires x.ProviderID in ProviderIds(t) && x.StorageID in StorageIds(t)
    requires DefaultMinDateTime <= x.DeliveryDateTime < DefaultMaxDateTime
    ensures Consistent(Insert(t, DeliveryRecord(x)))
  {
    DeliveryKeepsIds(t, x);
    DeliveryKeepsOthers(t, x);
    DeliveryKeepsReferences(t, x);
    DeliveryKeepsWindow(t, x);
    DeliveryKeepsConserved(t, x);
  }

  lemma {:induction false} DeliveryLineKeepsIds(t: Tables, x: DeliveryProductsLine)
    requires IdsIncreasing(t) && x.ID == GenerateNextUintId(DeliveryLineIds(t))
    ensures IdsIncreasing(Insert(t, DeliveryLineRecord(x)))
  {
    ColumnAppend(t.deliveryLines, x, DeliveryLineIdOf);
    NextIdKeepsIncreasing(DeliveryLineIds(t));
  }

  lemma {:induction false} DeliveryLineKeepsReferences(t: Tables, x: DeliveryProductsLine)
    requires ReferencesResolve(t)
    requires x.ProductID in ProductIds(t) && x.DeliveryID in DeliveryIds(t)
    ensures ReferencesResolve(Insert(t, DeliveryLineRecord(x)))
  {
    AllInAppend(t.deliveryLines, x, DeliveryLineProductOf, ProductIds(t));
    AllInAppend(t.deliveryLines, x, DeliveryLineDeliveryOf, DeliveryIds(t));
  }

  lemma {:induction false} DeliveryLineKeepsQuantities(t: Tables, x: DeliveryProductsLine)
    requires QuantitiesPositive(t) && 1 <= x.Quantity
    ensures QuantitiesPositive(Insert(t, DeliveryLineRecord(x)))
  {
    assert forall i :: 0 <= i < |t.deliveryLines| ==> (t.deliveryLines + [x])[i] == t.deliveryLines[i];
  }

  lemma {:induction false} DeliveryLineKeepsConserved(t: Tables, x: DeliveryProductsLine)
    requires Conserved(t) && 1 <= x.Quantity
    ensures Conserved(Insert(t, DeliveryLineRecord(x)))
  {
    var t' := Insert(t, DeliveryLineRecord(x));
    forall p: nat, s: nat
      ensures InvoicedSum(t'.invoiceLines, t'.invoices, p, s) <= DeliveredSum(t'.deliveryLines, t'.deliveries, p, s)
    {
      DeliveredSumAppend(t.deliveryLines, t.deliveries, x, p, s);
    }
  }

  /** A delivery line leaves the names and the delivery times alone. */
  lemma {:induction false} DeliveryLineKeepsOthers(t: Tables, x: DeliveryProductsLine)
    requires NamesUnique(t) && DeliveryTimesInWindow(t)
    ensures NamesUnique(Insert(t, DeliveryLineRecord(x))) && DeliveryTimesInWindow(Insert(t, DeliveryLineRecord(x)))
  {
    var t' := Insert(t, DeliveryLineRecord(x));
    assert t'.providers == t.providers && t'.storages == t.storages && t'.deliveries == t.deliveries;
  }

  /** `generate_delivery_product_line_row` with `to_insert`: a fresh ID, an existing
      product and delivery, a positive quantity. Delivered sums only grow. */
  lemma {:induction false} InsertDeliveryLineKeeps(t: Tables, x: DeliveryProductsLine)
    requires Consistent(t)
    requires x.ID == GenerateNextUintId(DeliveryLineIds(t))
    requires x.ProductID in ProductIds(t) && x.DeliveryID in DeliveryIds(t)
    requires 1 <= x.Quantity
    ensures Consistent(Insert(t, DeliveryLineRecord(x)))
  {
    DeliveryLineKeepsIds(t, x);
    DeliveryLineKeepsOthers(t, x);
    DeliveryLineKeepsReferences(t, x);
    DeliveryLineKeepsQuantities(t, x);
    DeliveryLineKeepsConserved(t, x);
  }

  lemma {:induction false} InvoiceKeepsIds(t: Tables, x: Invoice)
    requires IdsIncreasing(t) && x.ID == GenerateNextUintId(InvoiceIds(t))
    ensures IdsIncreasing(Insert(t, InvoiceRecord(x)))
  {
    ColumnAppend(t.invoices, x, InvoiceIdOf);
    NextIdKeepsIncreasing(InvoiceIds(t));
  }

  lemma {:induction false} InvoiceKeepsReferences(t: Tables, x: Invoice)
    requires ReferencesResolve(t) && x.StorageID in StorageIds(t)
    ensures ReferencesResolve(Insert(t, InvoiceRecord(x)))
  {
    ColumnAppend(t.invoices, x, InvoiceIdOf);
    AllInAppend(t.invoices, x, InvoiceStorageOf, StorageIds(t));
    AllInWiden(t.invoiceLines, InvoiceLineInvoiceOf, InvoiceIds(t), x.ID);
  }

  /** A new invoice ID joins no existing invoice line. */
  lemma {:induction false} NewInvoiceJoinsNoLine(t: Tables, x: Invoice)
    requires AllIn(t.invoiceLines, InvoiceLineInvoiceOf, InvoiceIds(t))
    requires x.ID == GenerateNextUintId(InvoiceIds(t))
    ensures forall i :: 0 <= i < |t.invoiceLines| ==> t.invoiceLines[i].InvoiceID != x.ID
  {
    forall i | 0 <= i < |t.invoiceLines| ensures t.invoiceLines[i].InvoiceID != x.ID {
      assert InvoiceLineInvoiceOf(t.invoiceLines[i]) in InvoiceIds(t);
      ExistingIsNotNew(InvoiceIds(t), t.invoiceLines[i].InvoiceID);
    }
  }

  /** ... so no invoiced sum changes. */
  lemma {:induction false} InvoiceKeepsConserved(t: Tables, x: Invoice)
    requires Conserved(t) && AllIn(t.invoiceLines, InvoiceLineInvoiceOf, InvoiceIds(t))
    requires x.ID == GenerateNextUintId(InvoiceIds(t))
    ensures Conserved(Insert(t, InvoiceRecord(x)))
  {
    var t' := Insert(t, InvoiceRecord(x));
    NewInvoiceJoinsNoLine(t, x);
    forall p: nat, s: nat
      ensures InvoicedSum(t'.invoiceLines, t'.invoices, p, s) <= DeliveredSum(t'.deliveryLines, t'.deliveries, p, s)
    {
      InvoicedSumNewInvoice(t.invoiceLines, t.invoices, x, p, s);
    }
  }

  /** An invoice leaves the names, the delivery times and the quantities alone. */
  lemma {:induction false} InvoiceKeepsOthers(t: Tables, x: Invoice)
    requires NamesUnique(t) && DeliveryTimesInWindow(t) && QuantitiesPositive(t)
    ensures NamesUnique(Insert(t, InvoiceRecord(x))) && DeliveryTimesInWindow(Insert(t, InvoiceRecord(x))) && QuantitiesPositive(Insert(t, InvoiceRecord(x)))
  {
    var t' := Insert(t, InvoiceRecord(x));
    assert t'.providers == t.providers && t'.storages == t.storages && t'.deliveries == t.deliveries && t'.deliveryLines == t.deliveryLines && t'.invoiceLines == t.invoiceLines;
  }

  /** The invoice row alone, as the first of the two inserts: the store stays
      consistent even if the line never follows. */
  lemma {:induction false} InsertInvoiceKeeps(t: Tables, x: Invoice)
    requires Consistent(t)
    requires x.ID == GenerateNextUintId(InvoiceIds(t))
    requires x.StorageID in StorageIds(t)
    ensures Consistent(Insert(t, InvoiceRecord(x)))
  {
    InvoiceKeepsIds(t, x);
    InvoiceKeepsOthers(t, x);
    InvoiceKeepsReferences(t, x);
    InvoiceKeepsConserved(t, x);
  }

  lemma {:induction false} InvoiceLineKeepsIds(t: Tables, x: InvoiceProductsLine)
    requires IdsIncreasing(t) && x.ID == GenerateNextUintId(InvoiceLineIds(t))
    ensures IdsIncreasing(Insert(t, InvoiceLineRecord(x)))
  {
    ColumnAppend(t.invoiceLines, x, InvoiceLineIdOf);
    NextIdKeepsIncreasing(InvoiceLineIds(t));
  }

  lemma {:induction false} InvoiceLineKeepsReferences(t: Tables, x: InvoiceProductsLine)
    requires ReferencesResolve(t)
    requires x.ProductID in ProductIds(t) && x.InvoiceID in InvoiceIds(t)
    ensures ReferencesResolve(Insert(t, InvoiceLineRecord(x)))
  {
    AllInAppend(t.invoiceLines, x, InvoiceLineProductOf, ProductIds(t));
    AllInAppend(t.invoiceLines, x, InvoiceLineInvoiceOf, InvoiceIds(t));
  }

  lemma {:induction false} InvoiceLineKeepsQuantities(t: Tables, x: InvoiceProductsLine)
    requires QuantitiesPositive(t) && 1 <= x.Quantity
    ensures QuantitiesPositive(Insert(t, InvoiceLineRecord(x)))
  {
    assert forall i :: 0 <= i < |t.invoiceLines| ==> (t.invoiceLines + [x])[i] == t.invoiceLines[i];
  }

  /** Only the group the line falls in grows, and it fits by assumption. */
  lemma {:induction false} InvoiceLineKeepsConserved(t: Tables, x: InvoiceProductsLine)
    requires Conserved(t)
    requires var s := InvoiceStorage(t.invoices, x.InvoiceID);
      x.Quantity + InvoicedSum(t.invoiceLines, t.invoices, x.ProductID, s) <= DeliveredSum(t.deliveryLines, t.deliveries, x.ProductID, s)
    ensures Conserved(Insert(t, InvoiceLineRecord(x)))
  {
    var t' := Insert(t, InvoiceLineRecord(x));
    forall p: nat, s: nat
      ensures InvoicedSum(t'.invoiceLines, t'.invoices, p, s) <= DeliveredSum(t'.deliveryLines, t'.deliveries, p, s)
    {
      InvoicedSumAppend(t.invoiceLines, t.invoices, x, p, s);
    }
  }

  /** An invoice line leaves the names and the delivery times alone. */
  lemma {:induction false} InvoiceLineKeepsOthers(t: Tables, x: InvoiceProductsLine)
    requires NamesUnique(t) && DeliveryTimesInWindow(t)
    ensures NamesUnique(Insert(t, InvoiceLineRecord(x))) && DeliveryTimesInWindow(Insert(t, InvoiceLineRecord(x)))
  {
    var t' := Insert(t, InvoiceLineRecord(x));
    assert t'.providers == t.providers && t'.storages == t.storages && t'.deliveries == t.deliveries;
  }

  /** The invoice line: its quantity fits into what is left at its invoice's storage. */
  lemma {:induction false} InsertInvoiceLineKeeps(t: Tables, x: InvoiceProductsLine)
    requires Consistent(t)
    requires x.ID == GenerateNextUintId(InvoiceLineIds(t))
    requires x.ProductID in ProductIds(t) && x.InvoiceID in InvoiceIds(t)
    requires 1 <= x.Quantity
    requires var s := InvoiceStorage(t.invoices, x.InvoiceID);
      x.Quantity + InvoicedSum(t.invoiceLines, t.invoices, x.ProductID, s) <= DeliveredSum(t.deliveryLines, t.deliveries, x.ProductID, s)
    ensures Consistent(Insert(t, InvoiceLineRecord(x)))
  {
    InvoiceLineKeepsIds(t, x);
    InvoiceLineKeepsOthers(t, x);
    InvoiceLineKeepsReferences(t, x);
    InvoiceLineKeepsQuantities(t, x);
    InvoiceLineKeepsConserved(t, x);
  }

  /** After the invoice row, its line meets the conditions of `InsertInvoiceLineKeeps`. */
  lemma {:induction false} LineFitsAfterInvoice(t: Tables, v: Invoice, x: InvoiceProductsLine)
    requires AllIn(t.invoiceLines, InvoiceLineInvoiceOf, InvoiceIds(t))
    requires v.ID == GenerateNextUintId(InvoiceIds(t))
    requires x.ID == GenerateNextUintId(InvoiceLineIds(t)) && x.InvoiceID == v.ID
    requires x.ProductID in ProductIds(t)
    requires x.Quantity + InvoicedSum(t.invoiceLines, t.invoices, x.ProductID, v.StorageID)
             <= DeliveredSum(t.deliveryLines, t.deliveries, x.ProductID, v.StorageID)
    ensures var t1 := Insert(t, InvoiceRecord(v));
      && x.ID == GenerateNextUintId(InvoiceLineIds(t1))
      && x.ProductID in ProductIds(t1) && x.InvoiceID in InvoiceIds(t1)
      && var s := InvoiceStorage(t1.invoices, x.InvoiceID);
         x.Quantity + InvoicedSum(t1.invoiceLines, t1.invoices, x.ProductID, s) <= DeliveredSum(t1.deliveryLines, t1.deliveries, x.ProductID, s)
  {
    ColumnAppend(t.invoices, v, InvoiceIdOf);
    InvoiceStorageOfLast(t.invoices, v);
    NewInvoiceJoinsNoLine(t, v);
    InvoicedSumNewInvoice(t.invoiceLines, t.invoices, v, x.ProductID, v.StorageID);
  }

  /** Lines 380-382: the invoice and then its line, sharing the new invoice ID. */
  lemma {:induction false} InsertInvoicePairKeeps(t: Tables, v: Invoice, x: InvoiceProductsLine)
    requires Consistent(t)
    requires v.ID == GenerateNextUintId(InvoiceIds(t)) && v.StorageID in StorageIds(t)
    requires x.ID == GenerateNextUintId(InvoiceLineIds(t)) && x.InvoiceID == v.ID
    requires x.ProductID in ProductIds(t) && 1 <= x.Quantity
    requires x.Quantity + InvoicedSum(t.invoiceLines, t.invoices, x.ProductID, v.StorageID)
             <= DeliveredSum(t.deliveryLines, t.deliveries, x.ProductID, v.StorageID)
    ensures Consistent(Insert(t, InvoiceRecord(v)))
    ensures Consistent(Insert(Insert(t, InvoiceRecord(v)), InvoiceLineRecord(x)))
  {
    LineFitsAfterInvoice(t, v, x);
    InsertInvoiceKeeps(t, v);
    InsertInvoiceLineKeeps(Insert(t, InvoiceRecord(v)), x);
  }

  /** The part of `Consistent` the delivered aggregate relies on: every delivery
      line joins an existing delivery, which names an existing storage and a time
      in the default window. */
  predicate DeliveriesJoin(t: Tables)
  {
    && AllIn(t.deliveryLines, DeliveryLineDeliveryOf, DeliveryIds(t))
    && AllIn(t.deliveries, DeliveryStorageOf, StorageIds(t))
    && DeliveryTimesInWindow(t)
  }

  lemma ConsistentDeliveriesJoin(t: Tables)
    requires Consistent(t)
    ensures DeliveriesJoin(t)
  {}

  /** On a database with increasing IDs, each line's LEFT JOIN reads exactly the
      delivery or invoice its ID names, so taking the last row with the ID gives
      what the ALL LEFT JOIN of lines 313-321 and 334-341 gives. */
  lemma {:induction false} IncreasingIdsJoinExactly(t: Tables)
    requires IdsIncreasing(t)
    ensures forall j :: 0 <= j < |t.deliveries| ==>
      && DeliveryStorage(t.deliveries, t.deliveries[j].ID) == t.deliveries[j].StorageID
      && DeliveryTime(t.deliveries, t.deliveries[j].ID) == t.deliveries[j].DeliveryDateTime
    ensures forall j :: 0 <= j < |t.invoices| ==> InvoiceStorage(t.invoices, t.invoices[j].ID) == t.invoices[j].StorageID
  {
    var ds, vs := t.deliveries, t.invoices;
    assert forall a, b :: 0 <= a < b < |ds| ==> DeliveryIds(t)[a] < DeliveryIds(t)[b];
    assert forall a, b :: 0 <= a < b < |vs| ==> InvoiceIds(t)[a] < InvoiceIds(t)[b];
    forall j | 0 <= j < |ds|
      ensures DeliveryStorage(ds, ds[j].ID) == ds[j].StorageID && DeliveryTime(ds, ds[j].ID) == ds[j].DeliveryDateTime
    {
      DeliveryJoinUnique(ds, j);
    }
    forall j | 0 <= j < |vs| ensures InvoiceStorage(vs, vs[j].ID) == vs[j].StorageID {
      InvoiceJoinUnique(vs, j);
    }
  }

  /** One row of the delivered aggregate is the delivered sum of its storage, that
      storage exists, and its earliest time lies before the default upper bound. */
  lemma {:induction false} DeliveryAggregateRow(t: Tables, p: nat, i: nat)
    requires DeliveriesJoin(t)
    requires i < |DeliveryAggregate(t, p)|
    ensures var row := DeliveryAggregate(t, p)[i];
      && row.QuantitySum == DeliveredSum(t.deliveryLines, t.deliveries, p, row.StorageID)
      && row.StorageID in StorageIds(t)
      && row.DeliveryDateTimeMin < DefaultMaxDateTime
  {
    var ks := DeliveredStorages(t.deliveryLines, t.deliveries, p);
    var s := ks[i];
    assert s in ks;
    var j :| 0 <= j < |t.deliveryLines| && Delivers(t.deliveries, t.deliveryLines[j], p, s);
    assert DeliveryLineDeliveryOf(t.deliveryLines[j]) in DeliveryIds(t);
    assert DeliveryStorageOf(t.deliveries[0]) in StorageIds(t);
    DeliveryStorageFound(t.deliveries, t.deliveryLines[j].DeliveryID);
    var m := DeliveredMin(t.deliveryLines, t.deliveries, p, s);
    if m.Some? {
      var k :| 0 <= k < |t.deliveryLines| && Delivers(t.deliveries, t.deliveryLines[k], p, s)
        && m.value == DeliveryTime(t.deliveries, t.deliveryLines[k].DeliveryID);
      DeliveryTimeBelow(t.deliveries, t.deliveryLines[k].DeliveryID, DefaultMaxDateTime);
    }
  }

  /** What an accepted invoice decision guarantees about the database it was taken
      on: a positive quantity that fits into what is left of the product at an
      existing storage, whose first delivery is before the default upper bound. */
  lemma {:induction false} AcceptedInvoiceFits(t: Tables, p: nat, u: Uniform)
    requires DeliveriesJoin(t) && IsUniform(u)
    requires DecideInvoice(DeliveryAggregate(t, p), InvoiceAggregate(t, p), u).Accept?
    ensures var d := DecideInvoice(DeliveryAggregate(t, p), InvoiceAggregate(t, p), u);
      && 1 <= d.Quantity
      && d.Quantity + InvoicedSum(t.invoiceLines, t.invoices, p, d.StorageID)
         <= DeliveredSum(t.deliveryLines, t.deliveries, p, d.StorageID)
      && d.StorageID in StorageIds(t)
      && d.DeliveryDateTimeMin < DefaultMaxDateTime
  {
    var delivered, invoiced := DeliveryAggregate(t, p), InvoiceAggregate(t, p);
    var d := DecideInvoice(delivered, invoiced, u);
    if invoiced == [] {
      InvoiceAggregateEmpty(t, p);
      NothingInvoiced(t.invoiceLines, t.invoices, p, d.StorageID);
      assert d == DecideFromDelivered(delivered, u);
      var i :| 0 <= i < |delivered| && d.StorageID == delivered[i].StorageID
        && d.DeliveryDateTimeMin == delivered[i].DeliveryDateTimeMin
        && 1 <= d.Quantity <= delivered[i].QuantitySum;
      DeliveryAggregateRow(t, p, i);
    } else {
      var merged := Merge(delivered, invoiced);
      assert d == DecideFromMerged(merged, u);
      var k :| 0 <= k < |merged| && d.StorageID == merged[k].StorageID
        && d.DeliveryDateTimeMin == merged[k].DeliveryDateTimeMin
        && 1 <= d.Quantity <= merged[k].QuantityDiff;
      assert merged[k] in merged;
      var i, j :| 0 <= i < |delivered| && 0 <= j < |invoiced| && Matches(delivered[i], invoiced[j])
        && merged[k] == Join(delivered[i], invoiced[j]);
      DeliveryAggregateRow(t, p, i);
      var ks := InvoicedStorages(t.invoiceLines, t.invoices, p);
      assert invoiced[j] == InvoiceAgg(ks[j], InvoicedSum(t.invoiceLines, t.invoices, p, ks[j]));
    }
  }

  /** The date base of an accepted decision is `min(DeliveryDateTime)` of the
      chosen storage's group: the first delivery of the product there. */
  lemma {:induction false} AcceptedDateIsFirstDelivery(t: Tables, p: nat, u: Uniform)
    requires IsUniform(u)
    requires DecideInvoice(DeliveryAggregate(t, p), InvoiceAggregate(t, p), u).Accept?
    ensures var d := DecideInvoice(DeliveryAggregate(t, p), InvoiceAggregate(t, p), u);
      DeliveredMin(t.deliveryLines, t.deliveries, p, d.StorageID) == Some(d.DeliveryDateTimeMin)
  {
    var delivered, invoiced := DeliveryAggregate(t, p), InvoiceAggregate(t, p);
    var d := DecideInvoice(delivered, invoiced, u);
    DeliveryAggregateRows(t, p);
    if invoiced == [] {
      assert d == DecideFromDelivered(delivered, u);
      var i :| 0 <= i < |delivered| && d.StorageID == delivered[i].StorageID
        && d.DeliveryDateTimeMin == delivered[i].DeliveryDateTimeMin;
    } else {
      var merged := Merge(delivered, invoiced);
      assert d == DecideFromMerged(merged, u);
      var k :| 0 <= k < |merged| && d.StorageID == merged[k].StorageID
        && d.DeliveryDateTimeMin == merged[k].DeliveryDateTimeMin;
      assert merged[k] in merged;
      var i, j :| 0 <= i < |delivered| && 0 <= j < |invoiced| && Matches(delivered[i], invoiced[j])
        && merged[k] == Join(delivered[i], invoiced[j]);
    }
  }

  /** The defensive branch of lines 360-362 is dead on a conserved database: the
      best merged row never has a negative difference. */
  lemma {:induction false} NegativeAvailabilityUnreachable(t: Tables, p: nat, u: Uniform)
    requires DeliveriesJoin(t) && Conserved(t) && IsUniform(u)
    ensures DecideInvoice(DeliveryAggregate(t, p), InvoiceAggregate(t, p), u) != Reject(NegativeAvailability)
  {
    var delivered, invoiced := DeliveryAggregate(t, p), InvoiceAggregate(t, p);
    var merged := Merge(delivered, invoiced);
    if invoiced != [] && merged != [] {
      assert merged[0] in merged;
      var i, j :| 0 <= i < |delivered| && 0 <= j < |invoiced| && Matches(delivered[i], invoiced[j])
        && merged[0] == Join(delivered[i], invoiced[j]);
      DeliveryAggregateRow(t, p, i);
      var ks := InvoicedStorages(t.invoiceLines, t.invoices, p);
      assert invoiced[j] == InvoiceAgg(ks[j], InvoicedSum(t.invoiceLines, t.invoices, p, ks[j]));
      assert InvoicedSum(t.invoiceLines, t.invoices, p, ks[j]) <= DeliveredSum(t.deliveryLines, t.deliveries, p, ks[j]);
      assert 0 <= merged[0].QuantityDiff;
    }
  }
}
