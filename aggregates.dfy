/** The meaning of the two aggregate queries of the invoice generator
    (`lib/data_generator.py`, lines 302-344) over in-memory rows. A line is joined
    to its delivery (or invoice) by ID with a LEFT JOIN, so a line whose parent is
    missing gets the column defaults, StorageID 0 and the time 0; the joined
    rows of one product are then grouped by StorageID. */
module Aggregates {
  import opened Wrappers
  import opened Records
  import opened Sampling
  import opened Store
  import opened InvoiceDecision

  // ---------------------------------------------------------------- deliveries

  /** StorageID that the LEFT JOIN gives a delivery line with DeliveryID `id`. */
  function DeliveryStorage(ds: seq<Delivery>, id: nat): nat
    decreases |ds|
  {
    if ds == [] then 0
    else if ds[|ds| - 1].ID == id then ds[|ds| - 1].StorageID
    else DeliveryStorage(ds[..|ds| - 1], id)
  }

  /** DeliveryDateTime that the LEFT JOIN gives a delivery line with DeliveryID `id`. */
  function DeliveryTime(ds: seq<Delivery>, id: nat): int
    decreases |ds|
  {
    if ds == [] then 0
    else if ds[|ds| - 1].ID == id then ds[|ds| - 1].DeliveryDateTime
    else DeliveryTime(ds[..|ds| - 1], id)
  }

  /** Line `l` brings product `p` into storage `s`. */
  predicate Delivers(ds: seq<Delivery>, l: DeliveryProductsLine, p: nat, s: nat)
  {
    l.ProductID == p && DeliveryStorage(ds, l.DeliveryID) == s
  }

  /** `sum(Quantity)` of the group of storage `s`. */
  function DeliveredSum(lines: seq<DeliveryProductsLine>, ds: seq<Delivery>, p: nat, s: nat): int
    decreases |lines|
  {
    if lines == [] then 0
    else
      var l := lines[|lines| - 1];
      DeliveredSum(lines[..|lines| - 1], ds, p, s) + (if Delivers(ds, l, p, s) then l.Quantity else 0)
  }

  /** `min(DeliveryDateTime)` of the group of storage `s`: `None` when the group is empty. */
  function DeliveredMin(lines: seq<DeliveryProductsLine>, ds: seq<Delivery>, p: nat, s: nat): (m: Option<int>)
    ensures m.None? <==> forall i :: 0 <= i < |lines| ==> !Delivers(ds, lines[i], p, s)
    ensures m.Some? ==> forall i :: 0 <= i < |lines| && Delivers(ds, lines[i], p, s) ==>
      m.value <= DeliveryTime(ds, lines[i].DeliveryID)
    ensures m.Some? ==> exists i :: 0 <= i < |lines| && Delivers(ds, lines[i], p, s) && m.value == DeliveryTime(ds, lines[i].DeliveryID)
    decreases |lines|
  {
    if lines == [] then None
    else
      var rest := lines[..|lines| - 1];
      var l := lines[|lines| - 1];
      assert forall i :: 0 <= i < |rest| ==> rest[i] == lines[i];
      var here := DeliveryTime(ds, l.DeliveryID);
      match DeliveredMin(rest, ds, p, s)
      case None => if Delivers(ds, l, p, s) then Some(here) else None
      case Some(m) => if Delivers(ds, l, p, s) && here < m then Some(here) else Some(m)
  }

  predicate Distinct<T(==)>(xs: seq<T>)
  {
    forall i, j :: 0 <= i < j < |xs| ==> xs[i] != xs[j]
  }

  /** The GROUP BY keys: every storage that receives product `p` through some line, once each. */
  function DeliveredStorages(lines: seq<DeliveryProductsLine>, ds: seq<Delivery>, p: nat): (ks: seq<nat>)
    ensures Distinct(ks)
    ensures forall s :: s in ks <==> exists i :: 0 <= i < |lines| && Delivers(ds, lines[i], p, s)
    decreases |lines|
  {
    if lines == [] then []
    else
      var rest := lines[..|lines| - 1];
      var l := lines[|lines| - 1];
      assert forall i :: 0 <= i < |rest| ==> rest[i] == lines[i];
      var ks := DeliveredStorages(rest, ds, p);
      var s := DeliveryStorage(ds, l.DeliveryID);
      if l.ProductID == p && s !in ks then ks + [s] else ks
  }

  /** Lines 302-322 and 343: one row per storage that received product `p`. */
  function DeliveryAggregate(t: Tables, p: nat): seq<DeliveryAgg>
  {
    var ks := DeliveredStorages(t.deliveryLines, t.deliveries, p);
    seq(|ks|, i requires 0 <= i < |ks| =>
      DeliveryAgg(ks[i], DeliveredSum(t.deliveryLines, t.deliveries, p, ks[i]),
                  DeliveredMin(t.deliveryLines, t.deliveries, p, ks[i]).GetOr(0)))
  }

  // ------------------------------------------------------------------ invoices

  /** StorageID that the LEFT JOIN gives an invoice line with InvoiceID `id`. */
  function InvoiceStorage(vs: seq<Invoice>, id: nat): nat
    decreases |vs|
  {
    if vs == [] then 0
    else if vs[|vs| - 1].ID == id then vs[|vs| - 1].StorageID
    else InvoiceStorage(vs[..|vs| - 1], id)
  }

  /** Line `l` takes product `p` out of storage `s`. */
  predicate Takes(vs: seq<Invoice>, l: InvoiceProductsLine, p: nat, s: nat)
  {
    l.ProductID == p && InvoiceStorage(vs, l.InvoiceID) == s
  }

  function InvoicedSum(lines: seq<InvoiceProductsLine>, vs: seq<Invoice>, p: nat, s: nat): int
    decreases |lines|
  {
    if lines == [] then 0
    else
      var l := lines[|lines| - 1];
      InvoicedSum(lines[..|lines| - 1], vs, p, s) + (if Takes(vs, l, p, s) then l.Quantity else 0)
  }

  function InvoicedStorages(lines: seq<InvoiceProductsLine>, vs: seq<Invoice>, p: nat): (ks: seq<nat>)
    ensures Distinct(ks)
    ensures forall s :: s in ks <==> exists i :: 0 <= i < |lines| && Takes(vs, lines[i], p, s)
    decreases |lines|
  {
    if lines == [] then []
    else
      var rest := lines[..|lines| - 1];
      var l := lines[|lines| - 1];
      assert forall i :: 0 <= i < |rest| ==> rest[i] == lines[i];
      var ks := InvoicedStorages(rest, vs, p);
      var s := InvoiceStorage(vs, l.InvoiceID);
      if l.ProductID == p && s !in ks then ks + [s] else ks
  }

  /** Lines 324-344: one row per storage that product `p` was invoiced from. */
  function InvoiceAggregate(t: Tables, p: nat): seq<InvoiceAgg>
  {
    var ks := InvoicedStorages(t.invoiceLines, t.invoices, p);
    seq(|ks|, i requires 0 <= i < |ks| => InvoiceAgg(ks[i], InvoicedSum(t.invoiceLines, t.invoices, p, ks[i])))
  }

  // -------------------------------------------------------------- their lemmas

  /** The delivered aggregate has no storage twice, and each row holds that
      storage's sum and earliest delivery time. */
  lemma {:induction false} DeliveryAggregateRows(t: Tables, p: nat)
    ensures forall i, j :: 0 <= i < j < |DeliveryAggregate(t, p)| ==>
      DeliveryAggregate(t, p)[i].StorageID != DeliveryAggregate(t, p)[j].StorageID
    ensures forall i :: 0 <= i < |DeliveryAggregate(t, p)| ==>
      var row := DeliveryAggregate(t, p)[i];
      && row.QuantitySum == DeliveredSum(t.deliveryLines, t.deliveries, p, row.StorageID)
      && Some(row.DeliveryDateTimeMin) == DeliveredMin(t.deliveryLines, t.deliveries, p, row.StorageID)
  {
    var r := DeliveryAggregate(t, p);
    var ks := DeliveredStorages(t.deliveryLines, t.deliveries, p);
    forall i | 0 <= i < |r|
      ensures Some(r[i].DeliveryDateTimeMin) == DeliveredMin(t.deliveryLines, t.deliveries, p, r[i].StorageID)
    {
      assert ks[i] in ks;
    }
  }

  /** The delivered aggregate has a row exactly for the storages that received
      `p` through some delivery line. */
  lemma {:induction false} DeliveryAggregateKeys(t: Tables, p: nat)
    ensures forall i :: 0 <= i < |DeliveryAggregate(t, p)| ==>
      exists k :: 0 <= k < |t.deliveryLines| && Delivers(t.deliveries, t.deliveryLines[k], p, DeliveryAggregate(t, p)[i].StorageID)
    ensures forall k :: 0 <= k < |t.deliveryLines| && t.deliveryLines[k].ProductID == p ==>
      exists i :: 0 <= i < |DeliveryAggregate(t, p)| &&
        DeliveryAggregate(t, p)[i].StorageID == DeliveryStorage(t.deliveries, t.deliveryLines[k].DeliveryID)
  {
    var r := DeliveryAggregate(t, p);
    var ks := DeliveredStorages(t.deliveryLines, t.deliveries, p);
    forall i | 0 <= i < |r|
      ensures exists k :: 0 <= k < |t.deliveryLines| && Delivers(t.deliveries, t.deliveryLines[k], p, r[i].StorageID)
    {
      assert ks[i] in ks;
    }
    forall k | 0 <= k < |t.deliveryLines| && t.deliveryLines[k].ProductID == p
      ensures exists i :: 0 <= i < |r| && r[i].StorageID == DeliveryStorage(t.deliveries, t.deliveryLines[k].DeliveryID)
    {
      var s := DeliveryStorage(t.deliveries, t.deliveryLines[k].DeliveryID);
      assert Delivers(t.deliveries, t.deliveryLines[k], p, s);
      assert s in ks;
      var i :| 0 <= i < |ks| && ks[i] == s;
      assert r[i].StorageID == s;
    }
  }

  /** The invoiced aggregate has no storage twice, and each row holds that
      storage's invoiced sum. */
  lemma {:induction false} InvoiceAggregateRows(t: Tables, p: nat)
    ensures forall i, j :: 0 <= i < j < |InvoiceAggregate(t, p)| ==>
      InvoiceAggregate(t, p)[i].StorageID != InvoiceAggregate(t, p)[j].StorageID
    ensures forall i :: 0 <= i < |InvoiceAggregate(t, p)| ==>
      InvoiceAggregate(t, p)[i].QuantitySum == InvoicedSum(t.invoiceLines, t.invoices, p, InvoiceAggregate(t, p)[i].StorageID)
  {
    var r := InvoiceAggregate(t, p);
    var ks := InvoicedStorages(t.invoiceLines, t.invoices, p);
    assert forall i :: 0 <= i < |r| ==> r[i].StorageID == ks[i];
  }

  /** The invoiced aggregate has a row exactly for the storages that `p` was
      invoiced from through some invoice line. */
  lemma {:induction false} InvoiceAggregateKeys(t: Tables, p: nat)
    ensures forall i :: 0 <= i < |InvoiceAggregate(t, p)| ==>
      exists k :: 0 <= k < |t.invoiceLines| && Takes(t.invoices, t.invoiceLines[k], p, InvoiceAggregate(t, p)[i].StorageID)
    ensures forall k :: 0 <= k < |t.invoiceLines| && t.invoiceLines[k].ProductID == p ==>
      exists i :: 0 <= i < |InvoiceAggregate(t, p)| &&
        InvoiceAggregate(t, p)[i].StorageID == InvoiceStorage(t.invoices, t.invoiceLines[k].InvoiceID)
  {
    var r := InvoiceAggregate(t, p);
    var ks := InvoicedStorages(t.invoiceLines, t.invoices, p);
    forall i | 0 <= i < |r|
      ensures exists k :: 0 <= k < |t.invoiceLines| && Takes(t.invoices, t.invoiceLines[k], p, r[i].StorageID)
    {
      assert ks[i] in ks;
    }
    forall k | 0 <= k < |t.invoiceLines| && t.invoiceLines[k].ProductID == p
      ensures exists i :: 0 <= i < |r| && r[i].StorageID == InvoiceStorage(t.invoices, t.invoiceLines[k].InvoiceID)
    {
      var s := InvoiceStorage(t.invoices, t.invoiceLines[k].InvoiceID);
      assert Takes(t.invoices, t.invoiceLines[k], p, s);
      assert s in ks;
      var i :| 0 <= i < |ks| && ks[i] == s;
      assert r[i].StorageID == s;
    }
  }

  /** The invoiced aggregate is empty exactly when no invoice line is for `p`. */
  lemma {:induction false} InvoiceAggregateEmpty(t: Tables, p: nat)
    ensures InvoiceAggregate(t, p) == [] <==> forall i :: 0 <= i < |t.invoiceLines| ==> t.invoiceLines[i].ProductID != p
  {
    var ks := InvoicedStorages(t.invoiceLines, t.invoices, p);
    assert |InvoiceAggregate(t, p)| == |ks|;
    if ks != [] {
      assert ks[0] in ks;
      var i :| 0 <= i < |t.invoiceLines| && Takes(t.invoices, t.invoiceLines[i], p, ks[0]);
      assert t.invoiceLines[i].ProductID == p;
    }
    if i :| 0 <= i < |t.invoiceLines| && t.invoiceLines[i].ProductID == p {
      var s := InvoiceStorage(t.invoices, t.invoiceLines[i].InvoiceID);
      assert Takes(t.invoices, t.invoiceLines[i], p, s);
      assert s in ks;
    }
  }

  /** Without any invoice line for `p`, nothing of `p` is invoiced anywhere. */
  lemma {:induction false} NothingInvoiced(lines: seq<InvoiceProductsLine>, vs: seq<Invoice>, p: nat, s: nat)
    requires forall i :: 0 <= i < |lines| ==> lines[i].ProductID != p
    ensures InvoicedSum(lines, vs, p, s) == 0
    decreases |lines|
  {
    if lines != [] {
      var rest := lines[..|lines| - 1];
      assert forall i :: 0 <= i < |rest| ==> rest[i] == lines[i];
      NothingInvoiced(rest, vs, p, s);
    }
  }

  /** A delivery line counts its quantity in the group of its storage. */
  lemma {:induction false} DeliveredSumAppend(lines: seq<DeliveryProductsLine>, ds: seq<Delivery>, l: DeliveryProductsLine, p: nat, s: nat)
    ensures DeliveredSum(lines + [l], ds, p, s) == DeliveredSum(lines, ds, p, s) + (if Delivers(ds, l, p, s) then l.Quantity else 0)
  {
    assert (lines + [l])[..|lines|] == lines;
  }

  lemma {:induction false} InvoicedSumAppend(lines: seq<InvoiceProductsLine>, vs: seq<Invoice>, l: InvoiceProductsLine, p: nat, s: nat)
    ensures InvoicedSum(lines + [l], vs, p, s) == InvoicedSum(lines, vs, p, s) + (if Takes(vs, l, p, s) then l.Quantity else 0)
  {
    assert (lines + [l])[..|lines|] == lines;
  }

  /** A new delivery does not regroup the existing lines when their deliveries exist and its ID is new. */
  lemma {:induction false} DeliveredSumNewDelivery(lines: seq<DeliveryProductsLine>, ds: seq<Delivery>, d: Delivery, p: nat, s: nat)
    requires forall i :: 0 <= i < |lines| ==> lines[i].DeliveryID != d.ID
    ensures DeliveredSum(lines, ds + [d], p, s) == DeliveredSum(lines, ds, p, s)
    decreases |lines|
  {
    if lines != [] {
      var rest := lines[..|lines| - 1];
      assert forall i :: 0 <= i < |rest| ==> rest[i] == lines[i];
      DeliveredSumNewDelivery(rest, ds, d, p, s);
      assert (ds + [d])[..|ds|] == ds;
    }
  }

  lemma {:induction false} InvoicedSumNewInvoice(lines: seq<InvoiceProductsLine>, vs: seq<Invoice>, v: Invoice, p: nat, s: nat)
    requires forall i :: 0 <= i < |lines| ==> lines[i].InvoiceID != v.ID
    ensures InvoicedSum(lines, vs + [v], p, s) == InvoicedSum(lines, vs, p, s)
    decreases |lines|
  {
    if lines != [] {
      var rest := lines[..|lines| - 1];
      assert forall i :: 0 <= i < |rest| ==> rest[i] == lines[i];
      InvoicedSumNewInvoice(rest, vs, v, p, s);
      assert (vs + [v])[..|vs|] == vs;
    }
  }

  /** The invoice just appended is the one its line joins to. */
  lemma {:induction false} InvoiceStorageOfLast(vs: seq<Invoice>, v: Invoice)
    ensures InvoiceStorage(vs + [v], v.ID) == v.StorageID
  {}

  /** A delivery line whose delivery exists joins to the storage of one of the deliveries. */
  lemma {:induction false} DeliveryStorageFound(ds: seq<Delivery>, id: nat)
    requires id in Column(ds, DeliveryIdOf)
    ensures exists j :: 0 <= j < |ds| && DeliveryStorage(ds, id) == ds[j].StorageID
    decreases |ds|
  {
    var rest := ds[..|ds| - 1];
    if ds[|ds| - 1].ID != id {
      assert forall i :: 0 <= i < |rest| ==> rest[i] == ds[i];
      assert id in Column(rest, DeliveryIdOf);
      DeliveryStorageFound(rest, id);
      var j :| 0 <= j < |rest| && DeliveryStorage(rest, id) == rest[j].StorageID;
      assert DeliveryStorage(ds, id) == ds[j].StorageID;
    }
  }

  /** What the LEFT JOIN of a line with parent ID `id` reads: the defaults 0 when
      no delivery has that ID, and otherwise the storage and time of the last
      delivery with that ID. */
  lemma {:induction false} DeliveryJoin(ds: seq<Delivery>, id: nat)
    ensures (forall j :: 0 <= j < |ds| ==> ds[j].ID != id) ==> DeliveryStorage(ds, id) == 0 && DeliveryTime(ds, id) == 0
    ensures (exists j :: 0 <= j < |ds| && ds[j].ID == id) ==>
      exists j :: 0 <= j < |ds| && ds[j].ID == id && (forall k :: j < k < |ds| ==> ds[k].ID != id)
        && DeliveryStorage(ds, id) == ds[j].StorageID && DeliveryTime(ds, id) == ds[j].DeliveryDateTime
    decreases |ds|
  {
    if ds != [] {
      var rest := ds[..|ds| - 1];
      assert forall i :: 0 <= i < |rest| ==> rest[i] == ds[i];
      DeliveryJoin(rest, id);
      var last := |ds| - 1;
      if ds[last].ID == id {
        assert ds[last].ID == id && DeliveryStorage(ds, id) == ds[last].StorageID && DeliveryTime(ds, id) == ds[last].DeliveryDateTime;
      } else if i :| 0 <= i < |ds| && ds[i].ID == id {
        assert rest[i].ID == id;
        var j :| 0 <= j < |rest| && rest[j].ID == id && (forall k :: j < k < |rest| ==> rest[k].ID != id)
          && DeliveryStorage(rest, id) == rest[j].StorageID && DeliveryTime(rest, id) == rest[j].DeliveryDateTime;
        assert ds[j].ID == id && (forall k :: j < k < |ds| ==> ds[k].ID != id) && DeliveryStorage(ds, id) == ds[j].StorageID && DeliveryTime(ds, id) == ds[j].DeliveryDateTime;
      }
    }
  }

  /** With no ID twice among the deliveries, a line joins to exactly the delivery
      its ID names, as ClickHouse's ALL LEFT JOIN does. */
  lemma {:induction false} DeliveryJoinUnique(ds: seq<Delivery>, j: nat)
    requires j < |ds| && forall a, b :: 0 <= a < b < |ds| ==> ds[a].ID != ds[b].ID
    ensures DeliveryStorage(ds, ds[j].ID) == ds[j].StorageID && DeliveryTime(ds, ds[j].ID) == ds[j].DeliveryDateTime
  {
    DeliveryJoin(ds, ds[j].ID);
    var k :| 0 <= k < |ds| && ds[k].ID == ds[j].ID && (forall m :: k < m < |ds| ==> ds[m].ID != ds[j].ID)
      && DeliveryStorage(ds, ds[j].ID) == ds[k].StorageID && DeliveryTime(ds, ds[j].ID) == ds[k].DeliveryDateTime;
    assert k == j;
  }

  /** The LEFT JOIN of an invoice line: StorageID 0 when no invoice has its
      InvoiceID, and otherwise the storage of the last invoice with that ID. */
  lemma {:induction false} InvoiceJoin(vs: seq<Invoice>, id: nat)
    ensures (forall j :: 0 <= j < |vs| ==> vs[j].ID != id) ==> InvoiceStorage(vs, id) == 0
    ensures (exists j :: 0 <= j < |vs| && vs[j].ID == id) ==>
      exists j :: 0 <= j < |vs| && vs[j].ID == id && (forall k :: j < k < |vs| ==> vs[k].ID != id)
        && InvoiceStorage(vs, id) == vs[j].StorageID
    decreases |vs|
  {
    if vs != [] {
      var rest := vs[..|vs| - 1];
      assert forall i :: 0 <= i < |rest| ==> rest[i] == vs[i];
      InvoiceJoin(rest, id);
      var last := |vs| - 1;
      if vs[last].ID == id {
        assert vs[last].ID == id && InvoiceStorage(vs, id) == vs[last].StorageID;
      } else if i :| 0 <= i < |vs| && vs[i].ID == id {
        assert rest[i].ID == id;
        var j :| 0 <= j < |rest| && rest[j].ID == id && (forall k :: j < k < |rest| ==> rest[k].ID != id)
          && InvoiceStorage(rest, id) == rest[j].StorageID;
        assert vs[j].ID == id && (forall k :: j < k < |vs| ==> vs[k].ID != id) && InvoiceStorage(vs, id) == vs[j].StorageID;
      }
    }
  }

  /** With no ID twice among the invoices, a line joins to exactly the invoice its ID names. */
  lemma {:induction false} InvoiceJoinUnique(vs: seq<Invoice>, j: nat)
    requires j < |vs| && forall a, b :: 0 <= a < b < |vs| ==> vs[a].ID != vs[b].ID
    ensures InvoiceStorage(vs, vs[j].ID) == vs[j].StorageID
  {
    InvoiceJoin(vs, vs[j].ID);
    var k :| 0 <= k < |vs| && vs[k].ID == vs[j].ID && (forall m :: k < m < |vs| ==> vs[m].ID != vs[j].ID)
      && InvoiceStorage(vs, vs[j].ID) == vs[k].StorageID;
    assert k == j;
  }

  /** `sum(Quantity)` of a storage's group: 0 for an empty group; with
      non-negative quantities, never negative and at least each line of the group. */
  lemma {:induction false} DeliveredSumBounds(lines: seq<DeliveryProductsLine>, ds: seq<Delivery>, p: nat, s: nat)
    ensures (forall i :: 0 <= i < |lines| ==> !Delivers(ds, lines[i], p, s)) ==> DeliveredSum(lines, ds, p, s) == 0
    ensures (forall i :: 0 <= i < |lines| ==> 0 <= lines[i].Quantity) ==>
      && 0 <= DeliveredSum(lines, ds, p, s)
      && forall i :: 0 <= i < |lines| && Delivers(ds, lines[i], p, s) ==> lines[i].Quantity <= DeliveredSum(lines, ds, p, s)
    decreases |lines|
  {
    if lines != [] {
      var rest := lines[..|lines| - 1];
      assert forall i :: 0 <= i < |rest| ==> rest[i] == lines[i];
      DeliveredSumBounds(rest, ds, p, s);
    }
  }

  /** The same for the invoiced `sum(Quantity)`. */
  lemma {:induction false} InvoicedSumBounds(lines: seq<InvoiceProductsLine>, vs: seq<Invoice>, p: nat, s: nat)
    ensures (forall i :: 0 <= i < |lines| ==> !Takes(vs, lines[i], p, s)) ==> InvoicedSum(lines, vs, p, s) == 0
    ensures (forall i :: 0 <= i < |lines| ==> 0 <= lines[i].Quantity) ==>
      && 0 <= InvoicedSum(lines, vs, p, s)
      && forall i :: 0 <= i < |lines| && Takes(vs, lines[i], p, s) ==> lines[i].Quantity <= InvoicedSum(lines, vs, p, s)
    decreases |lines|
  {
    if lines != [] {
      var rest := lines[..|lines| - 1];
      assert forall i :: 0 <= i < |rest| ==> rest[i] == lines[i];
      InvoicedSumBounds(rest, vs, p, s);
    }
  }

  /** The joined delivery time is one of the deliveries' times or the default 0. */
  lemma {:induction false} DeliveryTimeBelow(ds: seq<Delivery>, id: nat, bound: int)
    requires 0 < bound
    requires forall j :: 0 <= j < |ds| ==> ds[j].DeliveryDateTime < bound
    ensures DeliveryTime(ds, id) < bound
    decreases |ds|
  {
    if ds != [] {
      var rest := ds[..|ds| - 1];
      assert forall i :: 0 <= i < |rest| ==> rest[i] == ds[i];
      DeliveryTimeBelow(rest, id, bound);
    }
  }
}
