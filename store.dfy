/** The shop database as the generator sees it: one sequence of rows per table,
    in insertion order, and the queries the generator issues on single columns
    (`SELECT max(ID)`, `SELECT ID FROM ...`, the `IN Names` membership test).
    The class `Database` stands for the database the client writes to; inserting
    a record appends it to its table. */
module Store {
  import opened Wrappers
  import opened Records
  import opened Sampling

  datatype Tables = Tables(
    providers: seq<Provider>,
    storages: seq<Storage>,
    deliveries: seq<Delivery>,
    products: seq<Product>,
    deliveryLines: seq<DeliveryProductsLine>,
    invoices: seq<Invoice>,
    invoiceLines: seq<InvoiceProductsLine>)

  const EmptyTables := Tables([], [], [], [], [], [], [])

  /** The number of rows in the whole database. */
  function RowCount(t: Tables): nat
  {
    |t.providers| + |t.storages| + |t.deliveries| + |t.products|
      + |t.deliveryLines| + |t.invoices| + |t.invoiceLines|
  }

  /** `_insert_record`: the record becomes the last row of its own table, so the
      database holds exactly one row more. */
  function Insert(t: Tables, r: Record): (t': Tables)
    ensures RowCount(t') == RowCount(t) + 1
  {
    match r
    case ProviderRecord(x) => t.(providers := t.providers + [x])
    case StorageRecord(x) => t.(storages := t.storages + [x])
    case DeliveryRecord(x) => t.(deliveries := t.deliveries + [x])
    case ProductRecord(x) => t.(products := t.products + [x])
    case DeliveryLineRecord(x) => t.(deliveryLines := t.deliveryLines + [x])
    case InvoiceRecord(x) => t.(invoices := t.invoices + [x])
    case InvoiceLineRecord(x) => t.(invoiceLines := t.invoiceLines + [x])
  }

  /** Inserting never moves or drops an existing row: every table of the old
      database is a prefix of the same table afterwards. */
  lemma InsertKeepsRows(t: Tables, r: Record)
    ensures var t' := Insert(t, r);
      && t.providers <= t'.providers && t.storages <= t'.storages
      && t.deliveries <= t'.deliveries && t.products <= t'.products
      && t.deliveryLines <= t'.deliveryLines && t.invoices <= t'.invoices
      && t.invoiceLines <= t'.invoiceLines
  {
  }

  /** One column of a table, in row order. */
  function Column<T, U>(rows: seq<T>, f: T -> U): (c: seq<U>)
    ensures |c| == |rows| && forall i :: 0 <= i < |rows| ==> c[i] == f(rows[i])
  {
    seq(|rows|, i requires 0 <= i < |rows| => f(rows[i]))
  }

  lemma ColumnAppend<T, U>(rows: seq<T>, x: T, f: T -> U)
    ensures Column(rows + [x], f) == Column(rows, f) + [f(x)]
  {
    assert forall i :: 0 <= i < |rows| ==> (rows + [x])[i] == rows[i];
  }

  function ProviderIdOf(x: Provider): nat { x.ID }
  function ProviderNameOf(x: Provider): string { x.Name }
  function StorageIdOf(x: Storage): nat { x.ID }
  function StorageNameOf(x: Storage): string { x.Name }
  function StorageAddressOf(x: Storage): string { x.Address }
  function DeliveryIdOf(x: Delivery): nat { x.ID }
  function DeliveryProviderOf(x: Delivery): nat { x.ProviderID }
  function DeliveryStorageOf(x: Delivery): nat { x.StorageID }
  function ProductIdOf(x: Product): nat { x.ID }
  /** The Code column as the text it is compared with in the `IN` test. */
  function ProductCodeTextOf(x: Product): string { IntToString(x.Code) }
  function DeliveryLineIdOf(x: DeliveryProductsLine): nat { x.ID }
  function DeliveryLineProductOf(x: DeliveryProductsLine): nat { x.ProductID }
  function DeliveryLineDeliveryOf(x: DeliveryProductsLine): nat { x.DeliveryID }
  function InvoiceIdOf(x: Invoice): nat { x.ID }
  function InvoiceStorageOf(x: Invoice): nat { x.StorageID }
  function InvoiceLineIdOf(x: InvoiceProductsLine): nat { x.ID }
  function InvoiceLineProductOf(x: InvoiceProductsLine): nat { x.ProductID }
  function InvoiceLineInvoiceOf(x: InvoiceProductsLine): nat { x.InvoiceID }

  function ProviderIds(t: Tables): seq<nat> { Column(t.providers, ProviderIdOf) }
  function StorageIds(t: Tables): seq<nat> { Column(t.storages, StorageIdOf) }
  function DeliveryIds(t: Tables): seq<nat> { Column(t.deliveries, DeliveryIdOf) }
  function ProductIds(t: Tables): seq<nat> { Column(t.products, ProductIdOf) }
  function DeliveryLineIds(t: Tables): seq<nat> { Column(t.deliveryLines, DeliveryLineIdOf) }
  function InvoiceIds(t: Tables): seq<nat> { Column(t.invoices, InvoiceIdOf) }
  function InvoiceLineIds(t: Tables): seq<nat> { Column(t.invoiceLines, InvoiceLineIdOf) }

  function ProviderNames(t: Tables): seq<string> { Column(t.providers, ProviderNameOf) }
  function StorageNames(t: Tables): seq<string> { Column(t.storages, StorageNameOf) }
  function StorageAddresses(t: Tables): seq<string> { Column(t.storages, StorageAddressOf) }
  function ProductCodes(t: Tables): seq<string> { Column(t.products, ProductCodeTextOf) }
  /** The ProductID column of the delivery lines (the query behind `products_cache`). */
  function DeliveredProductIds(t: Tables): seq<nat> { Column(t.deliveryLines, DeliveryLineProductOf) }

  /** `SELECT max(ID)` on the table's IDs, `None` for an empty table. ClickHouse
      answers 0 there (NULL only under `aggregate_functions_null_for_empty`);
      `NextUintId` treats 0 and NULL alike, so `None` stands for both answers. */
  function MaxId(ids: seq<nat>): (m: Option<nat>)
    ensures m.None? <==> ids == []
    ensures m.Some? ==> m.value in ids && forall i :: 0 <= i < |ids| ==> ids[i] <= m.value
    decreases |ids|
  {
    if ids == [] then None
    else
      var last := ids[|ids| - 1];
      var rest := ids[..|ids| - 1];
      assert forall i :: 0 <= i < |rest| ==> rest[i] == ids[i];
      match MaxId(rest)
      case None => Some(last)
      case Some(m) => Some(if m < last then last else m)
  }

  /** Lines 34-39, once the maximum is read: 1 when the maximum is 0 or NULL, otherwise maximum + 1. */
  function NextUintId(currentMax: Option<nat>): (n: nat)
    ensures 1 <= n
    ensures currentMax.Some? ==> currentMax.value < n
    ensures n == 1 <==> currentMax.None? || currentMax.value == 0
    ensures n != 1 ==> currentMax == Some(n - 1)
  {
    if currentMax.None? || currentMax.value == 0 then 1 else currentMax.value + 1
  }

  /** `generate_next_uint_id` over an ID column: at least 1, above every existing
      ID, and the successor of an existing ID unless it is 1. */
  function GenerateNextUintId(ids: seq<nat>): (n: nat)
    ensures 1 <= n
    ensures forall i :: 0 <= i < |ids| ==> ids[i] < n
    ensures n == 1 <==> forall i :: 0 <= i < |ids| ==> ids[i] == 0
    ensures n != 1 ==> n - 1 in ids
  {
    NextUintId(MaxId(ids))
  }

  predicate StrictlyIncreasing(ids: seq<nat>)
  {
    forall i, j :: 0 <= i < j < |ids| ==> ids[i] < ids[j]
  }

  /** Appending the allocated ID keeps an ID column strictly increasing. */
  lemma {:induction false} NextIdKeepsIncreasing(ids: seq<nat>)
    requires StrictlyIncreasing(ids)
    ensures StrictlyIncreasing(ids + [GenerateNextUintId(ids)])
  {
    var n := GenerateNextUintId(ids);
    var ids' := ids + [n];
    forall i, j | 0 <= i < j < |ids'| ensures ids'[i] < ids'[j] {
      if j < |ids| { assert ids'[i] == ids[i] && ids'[j] == ids[j]; }
      else { assert ids'[i] == ids[i]; }
    }
  }

  /** On a table filled only through the allocator from empty, the IDs are 1, 2, ..., n. */
  lemma {:induction false} IdsCountFromOne(ids: seq<nat>)
    requires forall i :: 0 <= i < |ids| ==> ids[i] == i + 1
    ensures GenerateNextUintId(ids) == |ids| + 1
  {
    var n := GenerateNextUintId(ids);
    if ids != [] {
      assert ids[|ids| - 1] == |ids|;
      assert n != 1;
      var k :| 0 <= k < |ids| && ids[k] == n - 1;
    }
  }

  /** Lines 41-45: 1 exactly when the value already occurs in the column, else 0. */
  function CheckNameValueAvailable(value: string, column: seq<string>): (r: int)
    ensures r == 0 || r == 1
    ensures r == 1 <==> exists i :: 0 <= i < |column| && column[i] == value
  {
    var names := set v | v in column;
    if value in names then 1 else 0
  }

  /** The store the generator writes to. */
  class Database {
    var providers: seq<Provider>
    var storages: seq<Storage>
    var deliveries: seq<Delivery>
    var products: seq<Product>
    var deliveryLines: seq<DeliveryProductsLine>
    var invoices: seq<Invoice>
    var invoiceLines: seq<InvoiceProductsLine>

    function Contents(): Tables
      reads this
    {
      Tables(providers, storages, deliveries, products, deliveryLines, invoices, invoiceLines)
    }

    constructor (initial: Tables)
      ensures Contents() == initial
    {
      providers := initial.providers;
      storages := initial.storages;
      deliveries := initial.deliveries;
      products := initial.products;
      deliveryLines := initial.deliveryLines;
      invoices := initial.invoices;
      invoiceLines := initial.invoiceLines;
    }

    /** `_insert_record`: append one row to the record's table. */
    method InsertRecord(r: Record)
      modifies this
      ensures Contents() == Insert(old(Contents()), r)
    {
      match r
      case ProviderRecord(x) => providers := providers + [x];
      case StorageRecord(x) => storages := storages + [x];
      case DeliveryRecord(x) => deliveries := deliveries + [x];
      case ProductRecord(x) => products := products + [x];
      case DeliveryLineRecord(x) => deliveryLines := deliveryLines + [x];
      case InvoiceRecord(x) => invoices := invoices + [x];
      case InvoiceLineRecord(x) => invoiceLines := invoiceLines + [x];
    }
  }
}
