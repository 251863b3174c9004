/**
 * The product record that chaincode/pharma-supply/pharmaSupply.js stores as
 * JSON under its product id, and the values the world state can hold.
 */
module Records {
  import opened Wrappers
  import opened TxTime

  /**
   * One version of a product. The optional time stamps are absent until the
   * operation that sets them has run (InitLedger's sample records carry no
   * `timestamp` either).
   */
  datatype Product = Product(
    productId: string,
    name: string,
    manufacturer: string,
    batchNumber: string,
    manufactureDate: string,
    expiryDate: string,
    owner: string,
    status: string,
    location: string,
    temperature: string,
    verified: bool,
    timestamp: Option<IsoTime>,
    lastTransfer: Option<IsoTime>,
    lastUpdate: Option<IsoTime>,
    alertRaised: Option<IsoTime>)

  /**
   * A value in the world state: the JSON of a product record, or text that
   * JSON.parse rejects (the empty value among them).
   */
  datatype Entry = Record(product: Product) | Raw(text: string)

  /** The fields no operation after creation changes. */
  predicate SameIdentity(p: Product, q: Product)
  {
    && p.productId == q.productId
    && p.name == q.name
    && p.manufacturer == q.manufacturer
    && p.batchNumber == q.batchNumber
    && p.manufactureDate == q.manufactureDate
    && p.expiryDate == q.expiryDate
    && p.timestamp == q.timestamp
  }
}
