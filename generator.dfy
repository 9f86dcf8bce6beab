/** `ShopDataGenerator` (`lib/data_generator.py`, lines 64-411): the six row
    generators, their caches and `execute`, over the in-memory `Database`.
    Every random draw is a parameter: names and codes as the values drawn, the
    draws whose range depends on the database as `Uniform` fractions. A retry
    loop consumes a finite sequence of draws; running out of them stands for the
    source retrying for ever. */
module Generator {
  import opened Wrappers
  import opened Records
  import opened Sampling
  import opened Store
  import opened InvoiceDecision
  import opened Aggregates
  import opened Consistency

  const ProviderNamePool: seq<string> := ["China", "Russia", "USA", "Canada", "EU", "Africa", "Thailand", "Australia", "Georgia"]
  const StorageNamePool: seq<string> := ["Warehouse", "Shop", "Secret", "Home", "Virtual"]
  const AddressNamePool: seq<string> := ["Vladivostok", "Moscow", "Petersburg", "Yekaterinburg", "Yakutsk", "Sakhalin"]
  const ProductNamePool: seq<string> := ["Milk", "Computer", "Tea", "Coffee", "Sweet", "Beer", "Wear"]

  /** Bounds of the constant-range draws: product codes and delivered quantities. */
  const MinProductCode: int := 10000000
  const MaxProductCode: int := 99999999
  const MinDeliveredQuantity: int := 1
  const MaxDeliveredQuantity: int := 100

  /** The generator's default table names (constructor, lines 81-101). */
  const GeneratorProviderTable := "shop.provider"
  const GeneratorStorageTable := "shop.storage"
  const GeneratorDeliveryTable := "shop.delivery"
  const GeneratorProductTable := "shop.product"
  const GeneratorDeliveryProductsLineTable := "shop.delivery_products_line"
  const GeneratorInvoiceProductsLineTable := "shop.invoice_products_line"
  const GeneratorInvoiceTable := "shop.invoice"

  /** Each record's default `TableName` is the table the generator inserts it into. */
  lemma DefaultTableNamesAgree()
    ensures NewProvider(0, "").TableName == GeneratorProviderTable
    ensures NewStorage(0, "", "").TableName == GeneratorStorageTable
    ensures NewDelivery(0, 0, 0, 0).TableName == GeneratorDeliveryTable
    ensures NewProduct(0, "", 0).TableName == GeneratorProductTable
    ensures NewDeliveryProductsLine(0, 0, 0, 0).TableName == GeneratorDeliveryProductsLineTable
    ensures NewInvoiceProductsLine(0, 0, 0, 0).TableName == GeneratorInvoiceProductsLineTable
    ensures NewInvoice(0, 0, 0).TableName == GeneratorInvoiceTable
  {}

  /** Exceptions that end a generator call. */
  datatype Error =
    | DrawsExhausted   // a retry loop that would go on: no unused value among the draws
    | EmptySample      // `DataFrame.sample(n=1)` on an empty frame
    | EmptyRange       // `randrange(1, hi)` with hi <= 1
    | EmptyAggregate   // `iloc[0]` on an empty aggregate

  function FaultError(f: Fault): Error
  {
    match f
    case EmptyAggregate => Error.EmptyAggregate
    case EmptyRange => Error.EmptyRange
  }

  /** What a generator call gives back: the row(s), the `None` of a refused
      invoice, or the exception it raises. */
  datatype Outcome<T> = Done(value: T) | Skipped(reason: Rejection) | Failed(error: Error)

  // ------------------------------------------------------------- retry loops

  /** The value a retry loop settles on: the first drawn name that is not in the column. */
  function FirstUnused(pool: seq<string>, column: seq<string>, draws: seq<NameDraw>): (r: Option<string>)
    requires NameDrawsIn(draws, |pool|)
    ensures r.None? <==> forall i :: 0 <= i < |draws| ==> DrawName(pool, draws[i]) in column
    ensures r.Some? ==> r.value !in column
    ensures r.Some? ==> exists i :: 0 <= i < |draws| && r.value == DrawName(pool, draws[i])
                                    && (forall j :: 0 <= j < i ==> DrawName(pool, draws[j]) in column)
    decreases |draws|
  {
    if draws == [] then None
    else
      var name := DrawName(pool, draws[0]);
      if name in column then
        var r := FirstUnused(pool, column, draws[1..]);
        assert forall i :: 1 <= i < |draws| ==> draws[1..][i - 1] == draws[i];
        if r.Some? then
          var i :| 0 <= i < |draws[1..]| && r.value == DrawName(pool, draws[1..][i])
                   && (forall j :: 0 <= j < i ==> DrawName(pool, draws[1..][j]) in column);
          assert r.value == DrawName(pool, draws[i + 1]);
          r
        else r
      else Some(name)
  }

  /** Lines 172-176 (and 190-194, 198-202): draw `<pool entry>_<n>` until the
      availability check reports it unused. */
  method DrawUnusedName(pool: seq<string>, column: seq<string>, draws: seq<NameDraw>) returns (r: Option<string>)
    requires NameDrawsIn(draws, |pool|)
    ensures r == FirstUnused(pool, column, draws)
  {
    var state := 1;
    var name := "";
    var i := 0;
    while state == 1 && i < |draws|
      invariant 0 <= i <= |draws|
      invariant state == 0 || state == 1
      invariant state == 1 ==> FirstUnused(pool, column, draws) == FirstUnused(pool, column, draws[i..])
      invariant state == 0 ==> FirstUnused(pool, column, draws) == Some(name)
    {
      assert draws[i..][1..] == draws[i + 1..];
      name := DrawName(pool, draws[i]);
      state := CheckNameValueAvailable(name, column);
      i := i + 1;
    }
    if state == 1 {
      r := None;
    } else {
      r := Some(name);
    }
  }

  /** Lines 234-238: the loop draws a code but checks the product's NAME against
      the Code column, so the code drawn first is kept exactly when the name is
      not a code, and otherwise every draw is spent. */
  method DrawProductCode(newName: string, codeColumn: seq<string>, codeDraws: seq<int>) returns (r: Option<int>)
    ensures r.Some? <==> codeDraws != [] && newName !in codeColumn
    ensures r.Some? ==> r.value == codeDraws[0]
  {
    var state := 1;
    var code := MinProductCode;
    var i := 0;
    while state == 1 && i < |codeDraws|
      invariant 0 <= i <= |codeDraws|
      invariant state == 0 || state == 1
      invariant i == 0 ==> state == 1
      invariant 0 < i ==> (state == 1 <==> newName in codeColumn)
      invariant 0 < i && state == 0 ==> i == 1 && code == codeDraws[0]
    {
      code := codeDraws[i];
      state := CheckNameValueAvailable(newName, codeColumn);
      i := i + 1;
    }
    if state == 1 {
      r := None;
    } else {
      r := Some(code);
    }
  }

  /** Every composed product name passes the code check: the availability test
      of lines 236-237 never reports a clash. */
  lemma {:induction false} ProductNameIsNeverACode(t: Tables, d: NameDraw)
    requires d.pick < |ProductNamePool|
    ensures DrawName(ProductNamePool, d) !in ProductCodes(t)
  {
    var name := DrawName(ProductNamePool, d);
    forall i | 0 <= i < |ProductCodes(t)| ensures ProductCodes(t)[i] != name {
      DrawNameIsNotNumber(ProductNamePool, d, t.products[i].Code);
    }
  }

  // ------------------------------------------------------------------ caches

  /** A cached ID column is the column as it was when the cache was filled: a
      prefix of the current one, since tables only grow. */
  predicate CachesFit(productsCache: Option<seq<nat>>, productCache: Option<seq<nat>>,
                      deliveryCache: Option<seq<nat>>, t: Tables)
  {
    && (productCache.Some? <==> deliveryCache.Some?)
    && (productCache.Some? ==> productCache.value <= ProductIds(t))
    && (deliveryCache.Some? ==> deliveryCache.value <= DeliveryIds(t))
    && (productsCache.Some? ==> productsCache.value <= DeliveredProductIds(t))
  }

  lemma {:induction false} PrefixTrans(a: seq<nat>, b: seq<nat>, c: seq<nat>)
    requires a <= b && b <= c
    ensures a <= c
  {
    assert c[..|b|][..|a|] == c[..|a|];
  }

  /** An insert only appends to the columns the caches copy. */
  lemma {:induction false} InsertExtendsColumns(t: Tables, r: Record)
    ensures ProductIds(t) <= ProductIds(Insert(t, r))
    ensures DeliveryIds(t) <= DeliveryIds(Insert(t, r))
    ensures DeliveredProductIds(t) <= DeliveredProductIds(Insert(t, r))
  {
    match r
    case DeliveryRecord(x) => ColumnAppend(t.deliveries, x, DeliveryIdOf);
    case ProductRecord(x) => ColumnAppend(t.products, x, ProductIdOf);
    case DeliveryLineRecord(x) => ColumnAppend(t.deliveryLines, x, DeliveryLineProductOf);
    case _ =>
  }

  lemma {:induction false} CachesFitInsert(productsCache: Option<seq<nat>>, productCache: Option<seq<nat>>,
                                           deliveryCache: Option<seq<nat>>, t: Tables, r: Record)
    requires CachesFit(productsCache, productCache, deliveryCache, t)
    ensures CachesFit(productsCache, productCache, deliveryCache, Insert(t, r))
  {
    var t' := Insert(t, r);
    InsertExtendsColumns(t, r);
    if productCache.Some? { PrefixTrans(productCache.value, ProductIds(t), ProductIds(t')); }
    if deliveryCache.Some? { PrefixTrans(deliveryCache.value, DeliveryIds(t), DeliveryIds(t')); }
    if productsCache.Some? { PrefixTrans(productsCache.value, DeliveredProductIds(t), DeliveredProductIds(t')); }
  }

  /** An entry of a cached prefix is an entry of the current column. */
  lemma {:induction false} PrefixEntry(a: seq<nat>, b: seq<nat>, k: nat)
    requires a <= b && k < |a|
    ensures a[k] in b
  {
    assert a[k] == b[k];
  }

  /** The ProductID of an existing delivery line names an existing product. */
  lemma {:induction false} DeliveredProductExists(t: Tables, k: nat)
    requires AllIn(t.deliveryLines, DeliveryLineProductOf, ProductIds(t))
    requires k < |DeliveredProductIds(t)|
    ensures DeliveredProductIds(t)[k] in ProductIds(t)
  {
    assert DeliveryLineProductOf(t.deliveryLines[k]) in ProductIds(t);
  }

  // ----------------------------------------------------------- draw bundles

  datatype StorageDraws = StorageDraws(names: seq<NameDraw>, addresses: seq<NameDraw>)

  /** `random()` for the datetime, then `sample` on providers and on storages. */
  datatype DeliveryDraws = DeliveryDraws(at: Uniform, provider: Uniform, storage: Uniform)

  /** The name draw and the successive `randrange(10000000, 99999999)` codes. */
  datatype ProductDraws = ProductDraws(name: NameDraw, codes: seq<int>)

  /** `sample` on products and on deliveries, then `randrange(1, 100)`. */
  datatype LineDraws = LineDraws(product: Uniform, delivery: Uniform, quantity: int)

  /** `sample` on the delivered products, `randrange(1, ...)` on the stock, `random()` for the datetime. */
  datatype InvoiceDraws = InvoiceDraws(product: Uniform, quantity: Uniform, at: Uniform)

  predicate ProductDrawsIn(d: ProductDraws)
  {
    && d.name.pick < |ProductNamePool| && d.name.n < NameSuffixBound
    && forall i :: 0 <= i < |d.codes| ==> MinProductCode <= d.codes[i] < MaxProductCode
  }

  predicate LineDrawsIn(d: LineDraws)
  {
    IsUniform(d.product) && IsUniform(d.delivery) && MinDeliveredQuantity <= d.quantity < MaxDeliveredQuantity
  }

  predicate InvoiceDrawsIn(d: InvoiceDraws)
  {
    IsUniform(d.product) && IsUniform(d.quantity) && IsUniform(d.at)
  }

  predicate DeliveryDrawsIn(d: DeliveryDraws)
  {
    IsUniform(d.at) && IsUniform(d.provider) && IsUniform(d.storage)
  }

  // ---------------------------------------------- what each call computes

  /** `generate_provider_row`: a fresh ID and the first unused drawn name. */
  function ProviderRow(t: Tables, draws: seq<NameDraw>): (r: Outcome<Provider>)
    requires NameDrawsIn(draws, |ProviderNamePool|)
    ensures r.Done? || r == Failed(DrawsExhausted)
    ensures r.Done? <==> exists i :: 0 <= i < |draws| && DrawName(ProviderNamePool, draws[i]) !in ProviderNames(t)
    ensures r.Done? ==>
      && r.value.ID == GenerateNextUintId(ProviderIds(t))
      && r.value.Name !in ProviderNames(t)
      && (exists i :: 0 <= i < |draws| && r.value.Name == DrawName(ProviderNamePool, draws[i]))
      && r.value.TableName == ProviderTable
  {
    match FirstUnused(ProviderNamePool, ProviderNames(t), draws)
    case None => Failed(DrawsExhausted)
    case Some(name) => Done(NewProvider(GenerateNextUintId(ProviderIds(t)), name))
  }

  /** `generate_storage_row`: a fresh ID, then an unused name, then an unused address. */
  function StorageRow(t: Tables, d: StorageDraws): (r: Outcome<Storage>)
    requires NameDrawsIn(d.names, |StorageNamePool|) && NameDrawsIn(d.addresses, |AddressNamePool|)
    ensures r.Done? || r == Failed(DrawsExhausted)
    ensures r.Done? <==>
      && (exists i :: 0 <= i < |d.names| && DrawName(StorageNamePool, d.names[i]) !in StorageNames(t))
      && (exists i :: 0 <= i < |d.addresses| && DrawName(AddressNamePool, d.addresses[i]) !in StorageAddresses(t))
    ensures r.Done? ==>
      && r.value.ID == GenerateNextUintId(StorageIds(t))
      && r.value.Name !in StorageNames(t) && r.value.Address !in StorageAddresses(t)
      && (exists i :: 0 <= i < |d.names| && r.value.Name == DrawName(StorageNamePool, d.names[i]))
      && (exists i :: 0 <= i < |d.addresses| && r.value.Address == DrawName(AddressNamePool, d.addresses[i]))
      && r.value.TableName == StorageTable
  {
    match FirstUnused(StorageNamePool, StorageNames(t), d.names)
    case None => Failed(DrawsExhausted)
    case Some(name) =>
      match FirstUnused(AddressNamePool, StorageAddresses(t), d.addresses)
      case None => Failed(DrawsExhausted)
      case Some(address) => Done(NewStorage(GenerateNextUintId(StorageIds(t)), name, address))
  }

  /** `generate_delivery_row`: a fresh ID, a time in the default window, and a
      provider and a storage sampled from the existing IDs. */
  function DeliveryRow(t: Tables, d: DeliveryDraws): (r: Outcome<Delivery>)
    requires DeliveryDrawsIn(d)
    ensures r.Done? || r == Failed(EmptySample)
    ensures r.Done? <==> t.providers != [] && t.storages != []
    ensures r.Done? ==>
      && r.value.ID == GenerateNextUintId(DeliveryIds(t))
      && r.value.ProviderID in ProviderIds(t) && r.value.StorageID in StorageIds(t)
      && DefaultMinDateTime <= r.value.DeliveryDateTime < DefaultMaxDateTime
      && r.value.TableName == DeliveryTable
  {
    var providers, storages := ProviderIds(t), StorageIds(t);
    if |providers| == 0 || |storages| == 0 then Failed(EmptySample)
    else
      Done(NewDelivery(GenerateNextUintId(DeliveryIds(t)),
                       providers[Below(d.provider, |providers|)],
                       storages[Below(d.storage, |storages|)],
                       RandomDateTime(DefaultMinDateTime, DefaultMaxDateTime, d.at)))
  }

  /** `generate_product_row`: the code check never fires (see
      `ProductNameIsNeverACode`), so the first code drawn is kept. */
  function ProductRow(t: Tables, d: ProductDraws): (r: Outcome<Product>)
    requires ProductDrawsIn(d)
    ensures r.Done? || r == Failed(DrawsExhausted)
    ensures r.Done? <==> d.codes != []
    ensures r.Done? ==>
      && r.value.ID == GenerateNextUintId(ProductIds(t))
      && r.value.Name == DrawName(ProductNamePool, d.name)
      && MinProductCode <= r.value.Code < MaxProductCode
      && r.value.TableName == ProductTable
  {
    if d.codes == [] then Failed(DrawsExhausted)
    else Done(NewProduct(GenerateNextUintId(ProductIds(t)), DrawName(ProductNamePool, d.name), d.codes[0]))
  }

  /** Since the code is never checked, a new product can repeat the code of an
      existing one. */
  lemma ProductCodesMayRepeat(t: Tables, d: ProductDraws)
    requires ProductDrawsIn(d) && t.products != [] && d.codes == [t.products[0].Code]
    ensures ProductRow(t, d).Done? && ProductRow(t, d).value.Code == t.products[0].Code
  {}

  /** `generate_delivery_product_line_row` once the product and delivery ID lists
      are known (from the caches): a fresh ID, one of each, and the drawn quantity. */
  function DeliveryLineRow(t: Tables, products: seq<nat>, deliveries: seq<nat>, d: LineDraws): (r: Outcome<DeliveryProductsLine>)
    requires LineDrawsIn(d)
    ensures r.Done? || r == Failed(EmptySample)
    ensures r.Done? <==> products != [] && deliveries != []
    ensures r.Done? ==>
      && r.value.ID == GenerateNextUintId(DeliveryLineIds(t))
      && r.value.ProductID in products && r.value.DeliveryID in deliveries
      && MinDeliveredQuantity <= r.value.Quantity < MaxDeliveredQuantity
      && r.value.TableName == DeliveryProductsLineTable
  {
    if |products| == 0 || |deliveries| == 0 then Failed(EmptySample)
    else
      Done(NewDeliveryProductsLine(GenerateNextUintId(DeliveryLineIds(t)),
                                   products[Below(d.product, |products|)],
                                   deliveries[Below(d.delivery, |deliveries|)],
                                   d.quantity))
  }

  /** The invoice decision for the product sampled from `products`. */
  function SampledDecision(t: Tables, products: seq<nat>, d: InvoiceDraws): Decision
    requires InvoiceDrawsIn(d) && products != []
  {
    var p := products[Below(d.product, |products|)];
    DecideInvoice(DeliveryAggregate(t, p), InvoiceAggregate(t, p), d.quantity)
  }

  /** `random.choice(delivered_products)` followed by the decision: every draw
      decides for one of the listed products, and every listed product is the
      one decided for under some draw of the product index. */
  lemma {:induction false} SampledDecisionCovers(t: Tables, products: seq<nat>, d: InvoiceDraws, k: nat)
    requires InvoiceDrawsIn(d) && k < |products|
    ensures exists i :: (0 <= i < |products| &&
      SampledDecision(t, products, d) == DecideInvoice(DeliveryAggregate(t, products[i]), InvoiceAggregate(t, products[i]), d.quantity))
    ensures var d' := d.(product := Uniform(k, |products|));
      && InvoiceDrawsIn(d')
      && SampledDecision(t, products, d') == DecideInvoice(DeliveryAggregate(t, products[k]), InvoiceAggregate(t, products[k]), d.quantity)
  {
    var i := Below(d.product, |products|);
    assert SampledDecision(t, products, d) == DecideInvoice(DeliveryAggregate(t, products[i]), InvoiceAggregate(t, products[i]), d.quantity);
    BelowCovers(|products|, k);
  }

  /** `generate_invoice__invoice_product_line_rows` once the delivered-products
      list is known (from the cache): the line and the invoice of an accepted
      decision, sharing the new invoice ID; the `None` of a refused one; or the
      exception. */
  function InvoiceRows(t: Tables, products: seq<nat>, d: InvoiceDraws): (r: Outcome<(InvoiceProductsLine, Invoice)>)
    requires InvoiceDrawsIn(d)
    ensures r == Failed(EmptySample) <==> products == []
    ensures r.Failed? ==> r.error != DrawsExhausted
    ensures products != [] ==>
      var dec := SampledDecision(t, products, d);
      && (r.Done? <==> dec.Accept?)
      && (r.Skipped? <==> dec.Reject?) && (r.Skipped? ==> r.reason == dec.reason)
      && (r.Failed? <==> dec.Fail?) && (r.Failed? ==> r.error == FaultError(dec.fault))
    ensures r.Done? ==>
      var (line, invoice) := r.value;
      var dec := SampledDecision(t, products, d);
      && line.ProductID == products[Below(d.product, |products|)]
      && invoice.ID == GenerateNextUintId(InvoiceIds(t)) && line.InvoiceID == invoice.ID
      && line.ID == GenerateNextUintId(InvoiceLineIds(t))
      && invoice.StorageID == dec.StorageID && line.Quantity == dec.Quantity
      && (dec.DeliveryDateTimeMin < DefaultMaxDateTime ==>
            dec.DeliveryDateTimeMin <= invoice.InvoiceDateTime < DefaultMaxDateTime)
      && invoice.TableName == InvoiceTable && line.TableName == InvoiceProductsLineTable
  {
    if |products| == 0 then Failed(EmptySample)
    else
      var p := products[Below(d.product, |products|)];
      match SampledDecision(t, products, d)
      case Fail(f) => Failed(FaultError(f))
      case Reject(reason) => Skipped(reason)
      case Accept(storage, quantity, first) =>
        var invoiceId := GenerateNextUintId(InvoiceIds(t));
        Done((NewInvoiceProductsLine(GenerateNextUintId(InvoiceLineIds(t)), p, invoiceId, quantity),
              NewInvoice(invoiceId, storage, RandomDateTime(first, DefaultMaxDateTime, d.at))))
  }

  /** The main promise of the invoice generator: on a consistent database, with
      the product sampled from the delivered products, an accepted call takes no
      more than what is left at an existing storage, dates the invoice no earlier
      than that storage's first delivery, and inserting the invoice and then its
      line keeps the database consistent. */
  lemma {:induction false} AcceptedInvoiceKeepsConsistent(t: Tables, products: seq<nat>, d: InvoiceDraws)
    requires Consistent(t) && InvoiceDrawsIn(d)
    requires products <= DeliveredProductIds(t)
    requires InvoiceRows(t, products, d).Done?
    ensures var (line, invoice) := InvoiceRows(t, products, d).value;
      && 1 <= line.Quantity
      && line.Quantity + InvoicedSum(t.invoiceLines, t.invoices, line.ProductID, invoice.StorageID)
         <= DeliveredSum(t.deliveryLines, t.deliveries, line.ProductID, invoice.StorageID)
      && invoice.StorageID in StorageIds(t)
      && DeliveredMin(t.deliveryLines, t.deliveries, line.ProductID, invoice.StorageID)
         == Some(SampledDecision(t, products, d).DeliveryDateTimeMin)
      && SampledDecision(t, products, d).DeliveryDateTimeMin <= invoice.InvoiceDateTime < DefaultMaxDateTime
      && Consistent(Insert(Insert(t, InvoiceRecord(invoice)), InvoiceLineRecord(line)))
  {
    var (line, invoice) := InvoiceRows(t, products, d).value;
    var k := Below(d.product, |products|);
    ConsistentDeliveriesJoin(t);
    AcceptedInvoiceFits(t, products[k], d.quantity);
    AcceptedDateIsFirstDelivery(t, products[k], d.quantity);
    assert products[k] == DeliveredProductIds(t)[k];
    DeliveredProductExists(t, k);
    InsertInvoicePairKeeps(t, invoice, line);
  }

  // ------------------------------------------ what one call does to the tables

  /** The table facts a call's contents equation gives, stated per table so the
      loops of `execute` can carry them. */
  lemma ProviderInserted(t: Tables, t': Tables, r: Outcome<Provider>)
    requires t' == if r.Done? then Insert(t, ProviderRecord(r.value)) else t
    ensures t.providers <= t'.providers && |t'.providers| == |t.providers| + (if r.Done? then 1 else 0)
    ensures t'.storages == t.storages && t'.deliveries == t.deliveries && t'.products == t.products
    ensures t'.deliveryLines == t.deliveryLines && t'.invoices == t.invoices && t'.invoiceLines == t.invoiceLines
  {}

  lemma StorageInserted(t: Tables, t': Tables, r: Outcome<Storage>)
    requires t' == if r.Done? then Insert(t, StorageRecord(r.value)) else t
    ensures t.storages <= t'.storages && |t'.storages| == |t.storages| + (if r.Done? then 1 else 0)
    ensures t'.providers == t.providers && t'.deliveries == t.deliveries && t'.products == t.products
    ensures t'.deliveryLines == t.deliveryLines && t'.invoices == t.invoices && t'.invoiceLines == t.invoiceLines
  {}

  lemma DeliveryInserted(t: Tables, t': Tables, r: Outcome<Delivery>)
    requires t' == if r.Done? then Insert(t, DeliveryRecord(r.value)) else t
    ensures t.deliveries <= t'.deliveries && |t'.deliveries| == |t.deliveries| + (if r.Done? then 1 else 0)
    ensures t'.providers == t.providers && t'.storages == t.storages && t'.products == t.products
    ensures t'.deliveryLines == t.deliveryLines && t'.invoices == t.invoices && t'.invoiceLines == t.invoiceLines
  {}

  lemma ProductInserted(t: Tables, t': Tables, r: Outcome<Product>)
    requires t' == if r.Done? then Insert(t, ProductRecord(r.value)) else t
    ensures t.products <= t'.products && |t'.products| == |t.products| + (if r.Done? then 1 else 0)
    ensures t'.providers == t.providers && t'.storages == t.storages && t'.deliveries == t.deliveries
    ensures t'.deliveryLines == t.deliveryLines && t'.invoices == t.invoices && t'.invoiceLines == t.invoiceLines
  {}

  lemma DeliveryLineInserted(t: Tables, t': Tables, r: Outcome<DeliveryProductsLine>)
    requires t' == if r.Done? then Insert(t, DeliveryLineRecord(r.value)) else t
    ensures t.deliveryLines <= t'.deliveryLines && |t'.deliveryLines| == |t.deliveryLines| + (if r.Done? then 1 else 0)
    ensures t'.providers == t.providers && t'.storages == t.storages && t'.deliveries == t.deliveries
    ensures t'.products == t.products && t'.invoices == t.invoices && t'.invoiceLines == t.invoiceLines
  {}

  lemma InvoicePairInserted(t: Tables, t': Tables, r: Outcome<(InvoiceProductsLine, Invoice)>)
    requires t' == if r.Done? then Insert(Insert(t, InvoiceRecord(r.value.1)), InvoiceLineRecord(r.value.0)) else t
    ensures t.invoices <= t'.invoices && |t'.invoices| == |t.invoices| + (if r.Done? then 1 else 0)
    ensures t.invoiceLines <= t'.invoiceLines && |t'.invoiceLines| == |t.invoiceLines| + (if r.Done? then 1 else 0)
    ensures t'.providers == t.providers && t'.storages == t.storages && t'.deliveries == t.deliveries
    ensures t'.products == t.products && t'.deliveryLines == t.deliveryLines
  {}

  // ---------------------------------------- what one loop of `execute` does

  /** The tables after a loop of calls, and the exception that ended it early, if any. */
  datatype RunResult = RunResult(tables: Tables, error: Option<Error>)

  /** `generate_provider_row()` once per supply of draws, each call on the tables
      the previous one left, until a call raises. */
  function ProvidersRun(t: Tables, draws: seq<seq<NameDraw>>): (r: RunResult)
    requires forall i :: 0 <= i < |draws| ==> NameDrawsIn(draws[i], |ProviderNamePool|)
    ensures t.providers <= r.tables.providers
    ensures r.error.None? ==> |r.tables.providers| == |t.providers| + |draws|
    ensures r.tables.storages == t.storages && r.tables.deliveries == t.deliveries && r.tables.products == t.products
    ensures r.tables.deliveryLines == t.deliveryLines && r.tables.invoices == t.invoices && r.tables.invoiceLines == t.invoiceLines
    decreases |draws|
  {
    if draws == [] then RunResult(t, None)
    else
      var x := ProviderRow(t, draws[0]);
      if x.Failed? then RunResult(t, Some(x.error))
      else
        var t' := Insert(t, ProviderRecord(x.value));
        ProviderInserted(t, t', x);
        ProvidersRun(t', draws[1..])
  }

  function StoragesRun(t: Tables, draws: seq<StorageDraws>): (r: RunResult)
    requires forall i :: 0 <= i < |draws| ==>
      NameDrawsIn(draws[i].names, |StorageNamePool|) && NameDrawsIn(draws[i].addresses, |AddressNamePool|)
    ensures t.storages <= r.tables.storages
    ensures r.error.None? ==> |r.tables.storages| == |t.storages| + |draws|
    ensures r.tables.providers == t.providers && r.tables.deliveries == t.deliveries && r.tables.products == t.products
    ensures r.tables.deliveryLines == t.deliveryLines && r.tables.invoices == t.invoices && r.tables.invoiceLines == t.invoiceLines
    decreases |draws|
  {
    if draws == [] then RunResult(t, None)
    else
      var x := StorageRow(t, draws[0]);
      if x.Failed? then RunResult(t, Some(x.error))
      else
        var t' := Insert(t, StorageRecord(x.value));
        StorageInserted(t, t', x);
        StoragesRun(t', draws[1..])
  }

  function DeliveriesRun(t: Tables, draws: seq<DeliveryDraws>): (r: RunResult)
    requires forall i :: 0 <= i < |draws| ==> DeliveryDrawsIn(draws[i])
    ensures t.deliveries <= r.tables.deliveries
    ensures r.error.None? ==> |r.tables.deliveries| == |t.deliveries| + |draws|
    ensures r.tables.providers == t.providers && r.tables.storages == t.storages && r.tables.products == t.products
    ensures r.tables.deliveryLines == t.deliveryLines && r.tables.invoices == t.invoices && r.tables.invoiceLines == t.invoiceLines
    decreases |draws|
  {
    if draws == [] then RunResult(t, None)
    else
      var x := DeliveryRow(t, draws[0]);
      if x.Failed? then RunResult(t, Some(x.error))
      else
        var t' := Insert(t, DeliveryRecord(x.value));
        DeliveryInserted(t, t', x);
        DeliveriesRun(t', draws[1..])
  }

  function ProductsRun(t: Tables, draws: seq<ProductDraws>): (r: RunResult)
    requires forall i :: 0 <= i < |draws| ==> ProductDrawsIn(draws[i])
    ensures t.products <= r.tables.products
    ensures r.error.None? ==> |r.tables.products| == |t.products| + |draws|
    ensures r.tables.providers == t.providers && r.tables.storages == t.storages && r.tables.deliveries == t.deliveries
    ensures r.tables.deliveryLines == t.deliveryLines && r.tables.invoices == t.invoices && r.tables.invoiceLines == t.invoiceLines
    decreases |draws|
  {
    if draws == [] then RunResult(t, None)
    else
      var x := ProductRow(t, draws[0]);
      if x.Failed? then RunResult(t, Some(x.error))
      else
        var t' := Insert(t, ProductRecord(x.value));
        ProductInserted(t, t', x);
        ProductsRun(t', draws[1..])
  }

  /** The delivery-line loop once the product and delivery ID lists are fixed:
      the first call fills the caches and every later call reuses them. */
  function DeliveryLinesRun(t: Tables, products: seq<nat>, deliveries: seq<nat>, draws: seq<LineDraws>): (r: RunResult)
    requires forall i :: 0 <= i < |draws| ==> LineDrawsIn(draws[i])
    ensures t.deliveryLines <= r.tables.deliveryLines
    ensures r.error.None? ==> |r.tables.deliveryLines| == |t.deliveryLines| + |draws|
    ensures r.tables.providers == t.providers && r.tables.storages == t.storages && r.tables.deliveries == t.deliveries
    ensures r.tables.products == t.products && r.tables.invoices == t.invoices && r.tables.invoiceLines == t.invoiceLines
    decreases |draws|, 2
  {
    if draws == [] then RunResult(t, None) else DeliveryLinesRunFrom(t, products, deliveries, draws)
  }

  /** A non-empty delivery-line run. It is kept apart from DeliveryLinesTurnThenRun,
      so that unfolding a run twice stops short of DeliveryLineRow. */
  function DeliveryLinesRunFrom(t: Tables, products: seq<nat>, deliveries: seq<nat>, draws: seq<LineDraws>): (r: RunResult)
    requires draws != [] && forall i :: 0 <= i < |draws| ==> LineDrawsIn(draws[i])
    ensures t.deliveryLines <= r.tables.deliveryLines
    ensures r.error.None? ==> |r.tables.deliveryLines| == |t.deliveryLines| + |draws|
    ensures r.tables.providers == t.providers && r.tables.storages == t.storages && r.tables.deliveries == t.deliveries
    ensures r.tables.products == t.products && r.tables.invoices == t.invoices && r.tables.invoiceLines == t.invoiceLines
    decreases |draws|, 1
  {
    DeliveryLinesTurnThenRun(t, products, deliveries, draws)
  }

  /** A non-empty delivery-line run: its first call, then the rest of the run. */
  function DeliveryLinesTurnThenRun(t: Tables, products: seq<nat>, deliveries: seq<nat>, draws: seq<LineDraws>): (r: RunResult)
    requires draws != [] && forall i :: 0 <= i < |draws| ==> LineDrawsIn(draws[i])
    ensures t.deliveryLines <= r.tables.deliveryLines
    ensures r.error.None? ==> |r.tables.deliveryLines| == |t.deliveryLines| + |draws|
    ensures r.tables.providers == t.providers && r.tables.storages == t.storages && r.tables.deliveries == t.deliveries
    ensures r.tables.products == t.products && r.tables.invoices == t.invoices && r.tables.invoiceLines == t.invoiceLines
    decreases |draws|, 0
  {
    var x := DeliveryLineRow(t, products, deliveries, draws[0]);
    if x.Failed? then RunResult(t, Some(x.error))
    else
      var t' := Insert(t, DeliveryLineRecord(x.value));
      DeliveryLineInserted(t, t', x);
      DeliveryLinesRun(t', products, deliveries, draws[1..])
  }

  /** The invoice loop once the delivered-products list is fixed: a refused call
      inserts nothing and the loop goes on. */
  function InvoicesRun(t: Tables, products: seq<nat>, draws: seq<InvoiceDraws>): (r: RunResult)
    requires forall i :: 0 <= i < |draws| ==> InvoiceDrawsIn(draws[i])
    ensures t.invoices <= r.tables.invoices && t.invoiceLines <= r.tables.invoiceLines
    ensures |r.tables.invoices| - |t.invoices| == |r.tables.invoiceLines| - |t.invoiceLines| <= |draws|
    ensures r.tables.providers == t.providers && r.tables.storages == t.storages && r.tables.deliveries == t.deliveries
    ensures r.tables.products == t.products && r.tables.deliveryLines == t.deliveryLines
    decreases |draws|, 2
  {
    if draws == [] then RunResult(t, None) else InvoicesRunFrom(t, products, draws)
  }

  /** A non-empty invoice run. It is kept apart from InvoicesTurnThenRun, so that
      unfolding a run twice stops short of InvoiceRows. */
  function InvoicesRunFrom(t: Tables, products: seq<nat>, draws: seq<InvoiceDraws>): (r: RunResult)
    requires draws != [] && forall i :: 0 <= i < |draws| ==> InvoiceDrawsIn(draws[i])
    ensures t.invoices <= r.tables.invoices && t.invoiceLines <= r.tables.invoiceLines
    ensures |r.tables.invoices| - |t.invoices| == |r.tables.invoiceLines| - |t.invoiceLines| <= |draws|
    ensures r.tables.providers == t.providers && r.tables.storages == t.storages && r.tables.deliveries == t.deliveries
    ensures r.tables.products == t.products && r.tables.deliveryLines == t.deliveryLines
    decreases |draws|, 1
  {
    InvoicesTurnThenRun(t, products, draws)
  }

  /** A non-empty invoice run: its first call, then the rest of the run. */
  function InvoicesTurnThenRun(t: Tables, products: seq<nat>, draws: seq<InvoiceDraws>): (r: RunResult)
    requires draws != [] && forall i :: 0 <= i < |draws| ==> InvoiceDrawsIn(draws[i])
    ensures t.invoices <= r.tables.invoices && t.invoiceLines <= r.tables.invoiceLines
    ensures |r.tables.invoices| - |t.invoices| == |r.tables.invoiceLines| - |t.invoiceLines| <= |draws|
    ensures r.tables.providers == t.providers && r.tables.storages == t.storages && r.tables.deliveries == t.deliveries
    ensures r.tables.products == t.products && r.tables.deliveryLines == t.deliveryLines
    decreases |draws|, 0
  {
    var x := InvoiceRows(t, products, draws[0]);
    if x.Failed? then RunResult(t, Some(x.error))
    else
      var t' := if x.Done? then Insert(Insert(t, InvoiceRecord(x.value.1)), InvoiceLineRecord(x.value.0)) else t;
      InvoicePairInserted(t, t', x);
      InvoicesRun(t', products, draws[1..])
  }

  /** One turn of the delivery-line loop: the call on the current tables either
      ends the run or leaves the rest of it to the next tables. */
  lemma DeliveryLinesRunStep(t: Tables, t': Tables, products: seq<nat>, deliveries: seq<nat>,
                             draws: seq<LineDraws>, i: nat, x: Outcome<DeliveryProductsLine>)
    requires i < |draws| && forall k :: 0 <= k < |draws| ==> LineDrawsIn(draws[k])
    requires x == DeliveryLineRow(t, products, deliveries, draws[i])
    requires t' == if x.Done? then Insert(t, DeliveryLineRecord(x.value)) else t
    ensures x.Failed? ==> DeliveryLinesRun(t, products, deliveries, draws[i..]) == RunResult(t, Some(x.error))
    ensures !x.Failed? ==>
      DeliveryLinesRun(t, products, deliveries, draws[i..]) == DeliveryLinesRun(t', products, deliveries, draws[i + 1..])
  {
    assert draws[i..][0] == draws[i] && draws[i..][1..] == draws[i + 1..];
    assert DeliveryLinesRun(t, products, deliveries, draws[i..]) == DeliveryLinesRunFrom(t, products, deliveries, draws[i..]);
    assert DeliveryLinesRunFrom(t, products, deliveries, draws[i..]) == DeliveryLinesTurnThenRun(t, products, deliveries, draws[i..]);
  }

  /** One turn of the invoice loop, as above. */
  lemma InvoicesRunStep(t: Tables, t': Tables, products: seq<nat>, draws: seq<InvoiceDraws>, i: nat,
                        x: Outcome<(InvoiceProductsLine, Invoice)>)
    requires i < |draws| && forall k :: 0 <= k < |draws| ==> InvoiceDrawsIn(draws[k])
    requires x == InvoiceRows(t, products, draws[i])
    requires t' == if x.Done? then Insert(Insert(t, InvoiceRecord(x.value.1)), InvoiceLineRecord(x.value.0)) else t
    ensures x.Failed? ==> InvoicesRun(t, products, draws[i..]) == RunResult(t, Some(x.error))
    ensures !x.Failed? ==> InvoicesRun(t, products, draws[i..]) == InvoicesRun(t', products, draws[i + 1..])
  {
    assert draws[i..][0] == draws[i] && draws[i..][1..] == draws[i + 1..];
    assert InvoicesRun(t, products, draws[i..]) == InvoicesRunFrom(t, products, draws[i..]);
    assert InvoicesRunFrom(t, products, draws[i..]) == InvoicesTurnThenRun(t, products, draws[i..]);
  }

  /** What a cache holds once it is read: its value, or the column it is filled from. */
  function CachedOr(cache: Option<seq<nat>>, column: seq<nat>): (r: seq<nat>)
    ensures cache.Some? ==> r == cache.value
    ensures cache.None? ==> r == column
  {
    if cache.Some? then cache.value else column
  }

  /** The draws of all the calls `execute` makes, call by call. */
  datatype ExecuteDraws = ExecuteDraws(
    providers: seq<seq<NameDraw>>,
    storages: seq<StorageDraws>,
    deliveries: seq<DeliveryDraws>,
    products: seq<ProductDraws>,
    lines: seq<LineDraws>,
    invoices: seq<InvoiceDraws>)

  class ShopDataGenerator {
    const db: Database
    const providerCount: nat
    const storageCount: nat
    const deliveryCount: nat
    const productCount: nat
    const deliveryProductsLineCount: nat
    const invoiceProductLineCount: nat

    /** `products_cache`: the ProductID column of the delivery lines, once read. */
    var productsCache: Option<seq<nat>>
    /** `product_cache` and `delivery_cache`: the product and delivery ID columns, once read. */
    var productCache: Option<seq<nat>>
    var deliveryCache: Option<seq<nat>>

    ghost predicate Valid()
      reads this, db
    {
      Consistent(db.Contents()) && CachesFit(productsCache, productCache, deliveryCache, db.Contents())
    }

    /** Lines 70-166 with the default table and column names; the caches start empty. */
    constructor (db: Database, providerCount: nat := 50, storageCount: nat := 50, deliveryCount: nat := 100,
                 productCount: nat := 100, deliveryProductsLineCount: nat := 70, invoiceProductLineCount: nat := 50)
      requires Consistent(db.Contents())
      ensures Valid()
      ensures this.db == db && db.Contents() == old(db.Contents())
      ensures this.providerCount == providerCount && this.storageCount == storageCount
      ensures this.deliveryCount == deliveryCount && this.productCount == productCount
      ensures this.deliveryProductsLineCount == deliveryProductsLineCount
      ensures this.invoiceProductLineCount == invoiceProductLineCount
      ensures productsCache.None? && productCache.None? && deliveryCache.None?
    {
      this.db := db;
      this.providerCount := providerCount;
      this.storageCount := storageCount;
      this.deliveryCount := deliveryCount;
      this.productCount := productCount;
      this.deliveryProductsLineCount := deliveryProductsLineCount;
      this.invoiceProductLineCount := invoiceProductLineCount;
      productsCache := None;
      productCache := None;
      deliveryCache := None;
    }

    /** Lines 168-182. */
    method GenerateProviderRow(toInsert: bool, draws: seq<NameDraw>) returns (r: Outcome<Provider>)
      requires Valid() && NameDrawsIn(draws, |ProviderNamePool|)
      modifies db
      ensures Valid()
      ensures r == ProviderRow(old(db.Contents()), draws)
      ensures db.Contents() == if r.Done? && toInsert then Insert(old(db.Contents()), ProviderRecord(r.value)) else old(db.Contents())
    {
      ghost var t := db.Contents();
      var newId := GenerateNextUintId(ProviderIds(db.Contents()));
      var name := DrawUnusedName(ProviderNamePool, ProviderNames(db.Contents()), draws);
      if name.None? {
        return Failed(DrawsExhausted);
      }
      var provider := NewProvider(newId, name.value);
      if toInsert {
        InsertProviderKeeps(t, provider);
        CachesFitInsert(productsCache, productCache, deliveryCache, t, ProviderRecord(provider));
        db.InsertRecord(ProviderRecord(provider));
      }
      r := Done(provider);
    }

    /** Lines 184-206. */
    method GenerateStorageRow(toInsert: bool, draws: StorageDraws) returns (r: Outcome<Storage>)
      requires Valid() && NameDrawsIn(draws.names, |StorageNamePool|) && NameDrawsIn(draws.addresses, |AddressNamePool|)
      modifies db
      ensures Valid()
      ensures r == StorageRow(old(db.Contents()), draws)
      ensures db.Contents() == if r.Done? && toInsert then Insert(old(db.Contents()), StorageRecord(r.value)) else old(db.Contents())
    {
      ghost var t := db.Contents();
      var newId := GenerateNextUintId(StorageIds(db.Contents()));
      var name := DrawUnusedName(StorageNamePool, StorageNames(db.Contents()), draws.names);
      if name.None? {
        return Failed(DrawsExhausted);
      }
      var address := DrawUnusedName(AddressNamePool, StorageAddresses(db.Contents()), draws.addresses);
      if address.None? {
        return Failed(DrawsExhausted);
      }
      var storage := NewStorage(newId, name.value, address.value);
      if toInsert {
        InsertStorageKeeps(t, storage);
        CachesFitInsert(productsCache, productCache, deliveryCache, t, StorageRecord(storage));
        db.InsertRecord(StorageRecord(storage));
      }
      r := Done(storage);
    }

    /** Lines 208-225. */
    method GenerateDeliveryRow(toInsert: bool, draws: DeliveryDraws) returns (r: Outcome<Delivery>)
      requires Valid() && DeliveryDrawsIn(draws)
      modifies db
      ensures Valid()
      ensures r == DeliveryRow(old(db.Contents()), draws)
      ensures db.Contents() == if r.Done? && toInsert then Insert(old(db.Contents()), DeliveryRecord(r.value)) else old(db.Contents())
    {
      ghost var t := db.Contents();
      var newId := GenerateNextUintId(DeliveryIds(db.Contents()));
      var newDateTime := RandomDateTime(DefaultMinDateTime, DefaultMaxDateTime, draws.at);
      var storages := StorageIds(db.Contents());
      var providers := ProviderIds(db.Contents());
      if |providers| == 0 || |storages| == 0 {
        return Failed(EmptySample);
      }
      var provider := providers[Below(draws.provider, |providers|)];
      var storage := storages[Below(draws.storage, |storages|)];
      var delivery := NewDelivery(newId, provider, storage, newDateTime);
      if toInsert {
        InsertDeliveryKeeps(t, delivery);
        CachesFitInsert(productsCache, productCache, deliveryCache, t, DeliveryRecord(delivery));
        db.InsertRecord(DeliveryRecord(delivery));
      }
      r := Done(delivery);
    }

    /** Lines 227-244. */
    method GenerateProductRow(toInsert: bool, draws: ProductDraws) returns (r: Outcome<Product>)
      requires Valid() && ProductDrawsIn(draws)
      modifies db
      ensures Valid()
      ensures r == ProductRow(old(db.Contents()), draws)
      ensures db.Contents() == if r.Done? && toInsert then Insert(old(db.Contents()), ProductRecord(r.value)) else old(db.Contents())
    {
      ghost var t := db.Contents();
      var newId := GenerateNextUintId(ProductIds(db.Contents()));
      var newName := DrawName(ProductNamePool, draws.name);
      ProductNameIsNeverACode(t, draws.name);
      var code := DrawProductCode(newName, ProductCodes(db.Contents()), draws.codes);
      if code.None? {
        return Failed(DrawsExhausted);
      }
      var product := NewProduct(newId, newName, code.value);
      if toInsert {
        InsertProductKeeps(t, product);
        CachesFitInsert(productsCache, productCache, deliveryCache, t, ProductRecord(product));
        db.InsertRecord(ProductRecord(product));
      }
      r := Done(product);
    }

    /** Lines 246-278: the two caches are filled from the tables only when both
        are empty, and are used unchanged otherwise. */
    method GenerateDeliveryProductLineRow(toInsert: bool, draws: LineDraws) returns (r: Outcome<DeliveryProductsLine>)
      requires Valid() && LineDrawsIn(draws)
      modifies this, db
      ensures Valid()
      ensures productsCache == old(productsCache)
      ensures old(productCache).None? && old(deliveryCache).None? ==>
        productCache == Some(ProductIds(old(db.Contents()))) && deliveryCache == Some(DeliveryIds(old(db.Contents())))
      ensures old(productCache).Some? || old(deliveryCache).Some? ==>
        productCache == old(productCache) && deliveryCache == old(deliveryCache)
      ensures r == DeliveryLineRow(old(db.Contents()), productCache.value, deliveryCache.value, draws)
      ensures r.Done? ==> r.value.ProductID in ProductIds(old(db.Contents())) && r.value.DeliveryID in DeliveryIds(old(db.Contents()))
      ensures db.Contents() == if r.Done? && toInsert then Insert(old(db.Contents()), DeliveryLineRecord(r.value)) else old(db.Contents())
    {
      ghost var t := db.Contents();
      var newId := GenerateNextUintId(DeliveryLineIds(db.Contents()));
      var products, deliveries;
      if productCache.None? && deliveryCache.None? {
        products := ProductIds(db.Contents());
        deliveries := DeliveryIds(db.Contents());
        productCache := Some(products);
        deliveryCache := Some(deliveries);
      } else {
        products := productCache.value;
        deliveries := deliveryCache.value;
      }
      if |products| == 0 || |deliveries| == 0 {
        return Failed(EmptySample);
      }
      var i, j := Below(draws.product, |products|), Below(draws.delivery, |deliveries|);
      PrefixEntry(products, ProductIds(t), i);
      PrefixEntry(deliveries, DeliveryIds(t), j);
      var line := NewDeliveryProductsLine(newId, products[i], deliveries[j], draws.quantity);
      if toInsert {
        InsertDeliveryLineKeeps(t, line);
        CachesFitInsert(productsCache, productCache, deliveryCache, t, DeliveryLineRecord(line));
        db.InsertRecord(DeliveryLineRecord(line));
      }
      r := Done(line);
    }

    /** Lines 280-384: the delivered-products cache is filled on first use; an
        accepted call inserts the invoice and then its line. */
    method GenerateInvoiceRows(toInsert: bool, draws: InvoiceDraws) returns (r: Outcome<(InvoiceProductsLine, Invoice)>)
      requires Valid() && InvoiceDrawsIn(draws)
      modifies this, db
      ensures Valid()
      ensures productCache == old(productCache) && deliveryCache == old(deliveryCache)
      ensures old(productsCache).None? ==> productsCache == Some(DeliveredProductIds(old(db.Contents())))
      ensures old(productsCache).Some? ==> productsCache == old(productsCache)
      ensures r == InvoiceRows(old(db.Contents()), productsCache.value, draws)
      ensures db.Contents() ==
        if r.Done? && toInsert then Insert(Insert(old(db.Contents()), InvoiceRecord(r.value.1)), InvoiceLineRecord(r.value.0))
        else old(db.Contents())
    {
      ghost var t := db.Contents();
      var newId := GenerateNextUintId(InvoiceLineIds(db.Contents()));
      var newInvoiceId := GenerateNextUintId(InvoiceIds(db.Contents()));
      var products;
      if productsCache.None? {
        products := DeliveredProductIds(db.Contents());
        productsCache := Some(products);
      } else {
        products := productsCache.value;
      }
      if |products| == 0 {
        return Failed(EmptySample);
      }
      var product := products[Below(draws.product, |products|)];
      var delivered := DeliveryAggregate(db.Contents(), product);
      var invoiced := InvoiceAggregate(db.Contents(), product);
      var d := DecideInvoice(delivered, invoiced, draws.quantity);
      if d.Fail? {
        return Failed(FaultError(d.fault));
      }
      if d.Reject? {
        return Skipped(d.reason);
      }
      var invoiceDateTime := RandomDateTime(d.DeliveryDateTimeMin, DefaultMaxDateTime, draws.at);
      var invoice := NewInvoice(newInvoiceId, d.StorageID, invoiceDateTime);
      var line := NewInvoiceProductsLine(newId, product, newInvoiceId, d.Quantity);
      if toInsert {
        AcceptedInvoiceKeepsConsistent(t, products, draws);
        CachesFitInsert(productsCache, productCache, deliveryCache, t, InvoiceRecord(invoice));
        CachesFitInsert(productsCache, productCache, deliveryCache, Insert(t, InvoiceRecord(invoice)), InvoiceLineRecord(line));
        db.InsertRecord(InvoiceRecord(invoice));
        db.InsertRecord(InvoiceLineRecord(line));
      }
      r := Done((line, invoice));
    }

    /** One supply of draws per generator call of `execute`, as many as the counts say. */
    predicate DrawsFor(d: ExecuteDraws)
    {
      && |d.providers| == providerCount && |d.storages| == storageCount && |d.deliveries| == deliveryCount
      && |d.products| == productCount && |d.lines| == deliveryProductsLineCount && |d.invoices| == invoiceProductLineCount
      && (forall i :: 0 <= i < |d.providers| ==> NameDrawsIn(d.providers[i], |ProviderNamePool|))
      && (forall i :: 0 <= i < |d.storages| ==>
            NameDrawsIn(d.storages[i].names, |StorageNamePool|) && NameDrawsIn(d.storages[i].addresses, |AddressNamePool|))
      && (forall i :: 0 <= i < |d.deliveries| ==> DeliveryDrawsIn(d.deliveries[i]))
      && (forall i :: 0 <= i < |d.products| ==> ProductDrawsIn(d.products[i]))
      && (forall i :: 0 <= i < |d.lines| ==> LineDrawsIn(d.lines[i]))
      && (forall i :: 0 <= i < |d.invoices| ==> InvoiceDrawsIn(d.invoices[i]))
    }

    /** Lines 387-388: `generate_provider_row()` once per supply of draws. */
    method RunProviders(draws: seq<seq<NameDraw>>) returns (err: Option<Error>)
      requires Valid() && forall i :: 0 <= i < |draws| ==> NameDrawsIn(draws[i], |ProviderNamePool|)
      modifies db
      ensures Valid()
      ensures RunResult(db.Contents(), err) == ProvidersRun(old(db.Contents()), draws)
      ensures old(db.providers) <= db.providers
      ensures err.None? ==> |db.providers| == |old(db.providers)| + |draws|
      ensures db.storages == old(db.storages) && db.deliveries == old(db.deliveries) && db.products == old(db.products)
      ensures db.deliveryLines == old(db.deliveryLines) && db.invoices == old(db.invoices) && db.invoiceLines == old(db.invoiceLines)
    {
      ghost var t0 := db.Contents();
      err := None;
      var i := 0;
      while i < |draws|
        invariant err.None?
        invariant Valid() && i <= |draws|
        invariant ProvidersRun(t0, draws) == ProvidersRun(db.Contents(), draws[i..])
        invariant old(db.providers) <= db.providers && |db.providers| == |old(db.providers)| + i
        invariant db.storages == old(db.storages) && db.deliveries == old(db.deliveries) && db.products == old(db.products)
        invariant db.deliveryLines == old(db.deliveryLines) && db.invoices == old(db.invoices) && db.invoiceLines == old(db.invoiceLines)
      {
        ghost var before := db.Contents();
        var r := GenerateProviderRow(true, draws[i]);
        assert draws[i..][0] == draws[i] && draws[i..][1..] == draws[i + 1..];
        ProviderInserted(before, db.Contents(), r);
        if r.Failed? {
          err := Some(r.error);
          break;
        }
        i := i + 1;
      }
    }

    /** Lines 390-391. */
    method RunStorages(draws: seq<StorageDraws>) returns (err: Option<Error>)
      requires Valid()
      requires forall i :: 0 <= i < |draws| ==>
        NameDrawsIn(draws[i].names, |StorageNamePool|) && NameDrawsIn(draws[i].addresses, |AddressNamePool|)
      modifies db
      ensures Valid()
      ensures RunResult(db.Contents(), err) == StoragesRun(old(db.Contents()), draws)
      ensures old(db.storages) <= db.storages
      ensures err.None? ==> |db.storages| == |old(db.storages)| + |draws|
      ensures db.providers == old(db.providers) && db.deliveries == old(db.deliveries) && db.products == old(db.products)
      ensures db.deliveryLines == old(db.deliveryLines) && db.invoices == old(db.invoices) && db.invoiceLines == old(db.invoiceLines)
    {
      ghost var t0 := db.Contents();
      err := None;
      var i := 0;
      while i < |draws|
        invariant err.None?
        invariant Valid() && i <= |draws|
        invariant StoragesRun(t0, draws) == StoragesRun(db.Contents(), draws[i..])
        invariant old(db.storages) <= db.storages && |db.storages| == |old(db.storages)| + i
        invariant db.providers == old(db.providers) && db.deliveries == old(db.deliveries) && db.products == old(db.products)
        invariant db.deliveryLines == old(db.deliveryLines) && db.invoices == old(db.invoices) && db.invoiceLines == old(db.invoiceLines)
      {
        ghost var before := db.Contents();
        var r := GenerateStorageRow(true, draws[i]);
        assert draws[i..][0] == draws[i] && draws[i..][1..] == draws[i + 1..];
        StorageInserted(before, db.Contents(), r);
        if r.Failed? {
          err := Some(r.error);
          break;
        }
        i := i + 1;
      }
    }

    /** Lines 393-394. */
    method RunDeliveries(draws: seq<DeliveryDraws>) returns (err: Option<Error>)
      requires Valid() && forall i :: 0 <= i < |draws| ==> DeliveryDrawsIn(draws[i])
      modifies db
      ensures Valid()
      ensures RunResult(db.Contents(), err) == DeliveriesRun(old(db.Contents()), draws)
      ensures old(db.deliveries) <= db.deliveries
      ensures err.None? ==> |db.deliveries| == |old(db.deliveries)| + |draws|
      ensures db.providers == old(db.providers) && db.storages == old(db.storages) && db.products == old(db.products)
      ensures db.deliveryLines == old(db.deliveryLines) && db.invoices == old(db.invoices) && db.invoiceLines == old(db.invoiceLines)
    {
      ghost var t0 := db.Contents();
      err := None;
      var i := 0;
      while i < |draws|
        invariant err.None?
        invariant Valid() && i <= |draws|
        invariant DeliveriesRun(t0, draws) == DeliveriesRun(db.Contents(), draws[i..])
        invariant old(db.deliveries) <= db.deliveries && |db.deliveries| == |old(db.deliveries)| + i
        invariant db.providers == old(db.providers) && db.storages == old(db.storages) && db.products == old(db.products)
        invariant db.deliveryLines == old(db.deliveryLines) && db.invoices == old(db.invoices) && db.invoiceLines == old(db.invoiceLines)
      {
        ghost var before := db.Contents();
        var r := GenerateDeliveryRow(true, draws[i]);
        assert draws[i..][0] == draws[i] && draws[i..][1..] == draws[i + 1..];
        DeliveryInserted(before, db.Contents(), r);
        if r.Failed? {
          err := Some(r.error);
          break;
        }
        i := i + 1;
      }
    }

    /** Lines 396-397. */
    method RunProducts(draws: seq<ProductDraws>) returns (err: Option<Error>)
      requires Valid() && forall i :: 0 <= i < |draws| ==> ProductDrawsIn(draws[i])
      modifies db
      ensures Valid()
      ensures RunResult(db.Contents(), err) == ProductsRun(old(db.Contents()), draws)
      ensures old(db.products) <= db.products
      ensures err.None? ==> |db.products| == |old(db.products)| + |draws|
      ensures db.providers == old(db.providers) && db.storages == old(db.storages) && db.deliveries == old(db.deliveries)
      ensures db.deliveryLines == old(db.deliveryLines) && db.invoices == old(db.invoices) && db.invoiceLines == old(db.invoiceLines)
    {
      ghost var t0 := db.Contents();
      err := None;
      var i := 0;
      while i < |draws|
        invariant err.None?
        invariant Valid() && i <= |draws|
        invariant ProductsRun(t0, draws) == ProductsRun(db.Contents(), draws[i..])
        invariant old(db.products) <= db.products && |db.products| == |old(db.products)| + i
        invariant db.providers == old(db.providers) && db.storages == old(db.storages) && db.deliveries == old(db.deliveries)
        invariant db.deliveryLines == old(db.deliveryLines) && db.invoices == old(db.invoices) && db.invoiceLines == old(db.invoiceLines)
      {
        ghost var before := db.Contents();
        var r := GenerateProductRow(true, draws[i]);
        assert draws[i..][0] == draws[i] && draws[i..][1..] == draws[i + 1..];
        ProductInserted(before, db.Contents(), r);
        if r.Failed? {
          err := Some(r.error);
          break;
        }
        i := i + 1;
      }
    }

    /** One turn of the loop at lines 399-400, with `products` and `deliveries` the
        columns the caches hold or are about to be filled with. */
    method DeliveryLinesTurn(ghost products: seq<nat>, ghost deliveries: seq<nat>, draws: seq<LineDraws>, i: nat)
      returns (err: Option<Error>)
      requires Valid() && i < |draws| && forall k :: 0 <= k < |draws| ==> LineDrawsIn(draws[k])
      requires productCache.Some? ==> productCache == Some(products) && deliveryCache == Some(deliveries)
      requires productCache.None? ==> products == ProductIds(db.Contents()) && deliveries == DeliveryIds(db.Contents())
      modifies this, db
      ensures Valid()
      ensures productsCache == old(productsCache)
      ensures productCache == Some(products) && deliveryCache == Some(deliveries)
      ensures err.Some? ==> DeliveryLinesRun(old(db.Contents()), products, deliveries, draws[i..]) == RunResult(db.Contents(), err)
      ensures err.None? ==>
        DeliveryLinesRun(old(db.Contents()), products, deliveries, draws[i..]) == DeliveryLinesRun(db.Contents(), products, deliveries, draws[i + 1..])
    {
      ghost var before := db.Contents();
      var r := GenerateDeliveryProductLineRow(true, draws[i]);
      DeliveryLinesRunStep(before, db.Contents(), products, deliveries, draws, i, r);
      err := if r.Failed? then Some(r.error) else None;
    }

    /** Lines 399-400. */
    method RunDeliveryLines(draws: seq<LineDraws>) returns (err: Option<Error>)
      requires Valid() && forall i :: 0 <= i < |draws| ==> LineDrawsIn(draws[i])
      modifies this, db
      ensures Valid()
      ensures productsCache == old(productsCache)
      ensures productCache == if draws == [] then old(productCache) else Some(CachedOr(old(productCache), ProductIds(old(db.Contents()))))
      ensures deliveryCache == if draws == [] then old(deliveryCache) else Some(CachedOr(old(deliveryCache), DeliveryIds(old(db.Contents()))))
      ensures RunResult(db.Contents(), err) ==
        DeliveryLinesRun(old(db.Contents()), CachedOr(old(productCache), ProductIds(old(db.Contents()))),
                         CachedOr(old(deliveryCache), DeliveryIds(old(db.Contents()))), draws)
      ensures old(db.deliveryLines) <= db.deliveryLines
      ensures err.None? ==> |db.deliveryLines| == |old(db.deliveryLines)| + |draws|
      ensures db.providers == old(db.providers) && db.storages == old(db.storages) && db.deliveries == old(db.deliveries)
      ensures db.products == old(db.products) && db.invoices == old(db.invoices) && db.invoiceLines == old(db.invoiceLines)
    {
      ghost var t0 := db.Contents();
      ghost var products := CachedOr(productCache, ProductIds(t0));
      ghost var deliveries := CachedOr(deliveryCache, DeliveryIds(t0));
      err := None;
      var i := 0;
      while i < |draws| && err.None?
        invariant Valid() && i <= |draws|
        invariant productsCache == old(productsCache)
        invariant productCache == if i == 0 then old(productCache) else Some(products)
        invariant deliveryCache == if i == 0 then old(deliveryCache) else Some(deliveries)
        invariant i == 0 ==> db.Contents() == t0 && err.None?
        invariant err.None? ==>
          DeliveryLinesRun(t0, products, deliveries, draws) == DeliveryLinesRun(db.Contents(), products, deliveries, draws[i..])
        invariant err.Some? ==> DeliveryLinesRun(t0, products, deliveries, draws) == RunResult(db.Contents(), err)
      {
        err := DeliveryLinesTurn(products, deliveries, draws, i);
        i := i + 1;
      }
    }

    /** One turn of the loop at lines 402-403, with `products` the column the cache
        holds or is about to be filled with. */
    method InvoicesTurn(ghost products: seq<nat>, draws: seq<InvoiceDraws>, i: nat) returns (err: Option<Error>)
      requires Valid() && i < |draws| && forall k :: 0 <= k < |draws| ==> InvoiceDrawsIn(draws[k])
      requires productsCache.Some? ==> productsCache == Some(products)
      requires productsCache.None? ==> products == DeliveredProductIds(db.Contents())
      modifies this, db
      ensures Valid()
      ensures productCache == old(productCache) && deliveryCache == old(deliveryCache)
      ensures productsCache == Some(products)
      ensures err.Some? ==> InvoicesRun(old(db.Contents()), products, draws[i..]) == RunResult(db.Contents(), err)
      ensures err.None? ==> InvoicesRun(old(db.Contents()), products, draws[i..]) == InvoicesRun(db.Contents(), products, draws[i + 1..])
    {
      ghost var before := db.Contents();
      var r := GenerateInvoiceRows(true, draws[i]);
      InvoicesRunStep(before, db.Contents(), products, draws, i, r);
      err := if r.Failed? then Some(r.error) else None;
    }

    /** Lines 402-403: a refused invoice call inserts nothing and the loop goes on. */
    method RunInvoices(draws: seq<InvoiceDraws>) returns (err: Option<Error>)
      requires Valid() && forall i :: 0 <= i < |draws| ==> InvoiceDrawsIn(draws[i])
      modifies this, db
      ensures Valid()
      ensures productCache == old(productCache) && deliveryCache == old(deliveryCache)
      ensures productsCache == if draws == [] then old(productsCache) else Some(CachedOr(old(productsCache), DeliveredProductIds(old(db.Contents()))))
      ensures RunResult(db.Contents(), err) == InvoicesRun(old(db.Contents()), CachedOr(old(productsCache), DeliveredProductIds(old(db.Contents()))), draws)
      ensures old(db.invoices) <= db.invoices && old(db.invoiceLines) <= db.invoiceLines
      ensures |db.invoices| - |old(db.invoices)| == |db.invoiceLines| - |old(db.invoiceLines)| <= |draws|
      ensures db.providers == old(db.providers) && db.storages == old(db.storages) && db.deliveries == old(db.deliveries)
      ensures db.products == old(db.products) && db.deliveryLines == old(db.deliveryLines)
    {
      ghost var t0 := db.Contents();
      ghost var products := CachedOr(productsCache, DeliveredProductIds(t0));
      err := None;
      var i := 0;
      while i < |draws| && err.None?
        invariant Valid() && i <= |draws|
        invariant productCache == old(productCache) && deliveryCache == old(deliveryCache)
        invariant productsCache == if i == 0 then old(productsCache) else Some(products)
        invariant i == 0 ==> db.Contents() == t0 && err.None?
        invariant err.None? ==> InvoicesRun(t0, products, draws) == InvoicesRun(db.Contents(), products, draws[i..])
        invariant err.Some? ==> InvoicesRun(t0, products, draws) == RunResult(db.Contents(), err)
      {
        err := InvoicesTurn(products, draws, i);
        i := i + 1;
      }
    }

    /** Lines 386-404: each generator `count` times, in table order. Unless a call
        raises, every table but the invoice ones grows by exactly its count, and the
        invoices and their lines grow together by at most theirs. Existing rows are
        never changed. */
    method Execute(draws: ExecuteDraws) returns (err: Option<Error>)
      requires Valid() && DrawsFor(draws)
      modifies this, db
      ensures Valid()
      ensures old(db.providers) <= db.providers && old(db.storages) <= db.storages
      ensures old(db.deliveries) <= db.deliveries && old(db.products) <= db.products
      ensures old(db.deliveryLines) <= db.deliveryLines
      ensures old(db.invoices) <= db.invoices && old(db.invoiceLines) <= db.invoiceLines
      ensures err.None? ==>
        && |db.providers| == |old(db.providers)| + providerCount
        && |db.storages| == |old(db.storages)| + storageCount
        && |db.deliveries| == |old(db.deliveries)| + deliveryCount
        && |db.products| == |old(db.products)| + productCount
        && |db.deliveryLines| == |old(db.deliveryLines)| + deliveryProductsLineCount
        && |db.invoices| - |old(db.invoices)| == |db.invoiceLines| - |old(db.invoiceLines)| <= invoiceProductLineCount
    {
      err := RunProviders(draws.providers);
      if err.None? {
        err := RunStorages(draws.storages);
      }
      if err.None? {
        err := RunDeliveries(draws.deliveries);
      }
      if err.None? {
        err := RunProducts(draws.products);
      }
      if err.None? {
        err := RunDeliveryLines(draws.lines);
      }
      if err.None? {
        err := RunInvoices(draws.invoices);
      }
    }
  }
}
