/** The seven entity records of the shop schema (`lib/data_classes.py`).
    Every record carries its identity, its reference and value columns and the
    `TableName` column whose default is the table the record belongs to; since an
    inserted row is the whole record, `TableName` is part of every inserted row.
    Timestamps are whole seconds since the epoch (UTC). */
module Records {

  const ProviderTable := "shop.provider"
  const StorageTable := "shop.storage"
  const DeliveryTable := "shop.delivery"
  const InvoiceTable := "shop.invoice"
  const ProductTable := "shop.product"
  const DeliveryProductsLineTable := "shop.delivery_products_line"
  const InvoiceProductsLineTable := "shop.invoice_products_line"

  datatype Provider = Provider(ID: nat, Name: string, TableName: string)

  datatype Storage = Storage(ID: nat, Name: string, Address: string, TableName: string)

  /** A delivery names exactly one provider and one storage. */
  datatype Delivery = Delivery(ID: nat, ProviderID: nat, StorageID: nat, DeliveryDateTime: int, TableName: string)

  /** An invoice names only a storage: what it sells lives in its invoice line. */
  datatype Invoice = Invoice(ID: nat, StorageID: nat, InvoiceDateTime: int, TableName: string)

  datatype Product = Product(ID: nat, Name: string, Code: int, TableName: string)

  datatype DeliveryProductsLine = DeliveryProductsLine(ID: nat, ProductID: nat, DeliveryID: nat, Quantity: int, TableName: string)

  datatype InvoiceProductsLine = InvoiceProductsLine(ID: nat, ProductID: nat, InvoiceID: nat, Quantity: int, TableName: string)

  /** The dataclass constructors with `TableName` left at its default. */
  function NewProvider(id: nat, name: string): Provider { Provider(id, name, ProviderTable) }
  function NewStorage(id: nat, name: string, address: string): Storage { Storage(id, name, address, StorageTable) }
  function NewDelivery(id: nat, providerId: nat, storageId: nat, at: int): Delivery
  {
    Delivery(id, providerId, storageId, at, DeliveryTable)
  }
  function NewInvoice(id: nat, storageId: nat, at: int): Invoice { Invoice(id, storageId, at, InvoiceTable) }
  function NewProduct(id: nat, name: string, code: int): Product { Product(id, name, code, ProductTable) }
  function NewDeliveryProductsLine(id: nat, productId: nat, deliveryId: nat, quantity: int): DeliveryProductsLine
  {
    DeliveryProductsLine(id, productId, deliveryId, quantity, DeliveryProductsLineTable)
  }
  function NewInvoiceProductsLine(id: nat, productId: nat, invoiceId: nat, quantity: int): InvoiceProductsLine
  {
    InvoiceProductsLine(id, productId, invoiceId, quantity, InvoiceProductsLineTable)
  }

  /** A record as handed to the insert call: one of the seven entities. */
  datatype Record =
    | ProviderRecord(provider: Provider)
    | StorageRecord(storage: Storage)
    | DeliveryRecord(delivery: Delivery)
    | ProductRecord(product: Product)
    | DeliveryLineRecord(deliveryLine: DeliveryProductsLine)
    | InvoiceRecord(invoice: Invoice)
    | InvoiceLineRecord(invoiceLine: InvoiceProductsLine)
}
