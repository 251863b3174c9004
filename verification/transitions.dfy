/**
 * The contract's write operations as functions of the world state. A
 * transfer, a status update and a counterfeit mark read the latest version of
 * a key, check it and either fail, leaving the state as it was, or write one
 * complete new version; a create writes without reading. The class Ledger
 * (ledger.dfy) is proved to follow these functions.
 */
module Transitions {
  import opened Wrappers
  import opened TxTime
  import opened Records
  import opened Verification

  /** The errors the contract throws. */
  datatype Error =
    | NotFound(productId: string)            // "Product <id> does not exist"
    | VerificationFailed(productId: string)  // "Product <id> verification failed"
    | Unparseable(productId: string)         // JSON.parse threw on the stored value

  /** One version in a key's history, stamped by the store. */
  datatype Version = Version(txId: string, timestamp: TxTimestamp, value: Entry)

  /** The world state: latest value per key, and every version per key in commit order. */
  datatype World = World(current: map<string, Entry>, history: map<string, seq<Version>>)

  /**
   * What a transaction supplies: its id, its consensus timestamp, and the
   * behaviour of `new Date(text)` on the stored expiry dates.
   */
  datatype Ctx = Ctx(txId: string, ts: TxTimestamp, parseDate: string -> JsDate)

  /** The contract's state-changing calls, with their arguments. */
  datatype Op =
    | Create(productId: string, name: string, manufacturer: string, batchNumber: string,
             manufactureDate: string, expiryDate: string)
    | Transfer(productId: string, newOwner: string, location: string)
    | UpdateStatus(productId: string, status: string, temperature: string)
    | MarkCounterfeit(productId: string)

  /** Every version written for `key`, oldest first; none for a key never written. */
  function Versions(w: World, key: string): seq<Version>
  {
    if key in w.history then w.history[key] else []
  }

  /** The store keeps a history for exactly the keys it holds, ending in the current value. */
  ghost predicate Consistent(w: World)
  {
    && w.current.Keys == w.history.Keys
    && forall k :: k in w.history ==>
         w.history[k] != [] && w.history[k][|w.history[k]| - 1].value == w.current[k]
  }

  /** `putState(key, value)`: the new latest value, appended to the key's history. */
  function Put(w: World, ctx: Ctx, key: string, e: Entry): (w': World)
    ensures w'.current.Keys == w.current.Keys + {key} && w'.current[key] == e
    ensures forall k :: k in w.current && k != key ==> w'.current[k] == w.current[k]
    ensures Versions(w', key) == Versions(w, key) + [Version(ctx.txId, ctx.ts, e)]
    ensures forall k :: k != key ==> Versions(w', k) == Versions(w, k)
    ensures Consistent(w) ==> Consistent(w')
  {
    World(w.current[key := e], w.history[key := Versions(w, key) + [Version(ctx.txId, ctx.ts, e)]])
  }

  /** `getState` found nothing: the key is absent or its value is empty. */
  predicate Absent(w: World, id: string)
  {
    id !in w.current || w.current[id] == Raw("")
  }

  /** `getState` then `JSON.parse`, as the mutating operations do them. */
  function Lookup(w: World, id: string): (r: Result<Product, Error>)
    ensures r == Failure(NotFound(id)) <==> Absent(w, id)
    ensures r.Success? <==> id in w.current && w.current[id].Record?
    ensures r.Success? ==> w.current[id] == Record(r.value)
  {
    if Absent(w, id) then Failure(NotFound(id))
    else match w.current[id]
      case Raw(_) => Failure(Unparseable(id))
      case Record(p) => Success(p)
  }

  /** The record CreateProduct builds. */
  function NewProduct(productId: string, name: string, manufacturer: string, batchNumber: string,
                      manufactureDate: string, expiryDate: string, now: IsoTime): Product
  {
    Product(productId, name, manufacturer, batchNumber, manufactureDate, expiryDate,
            "manufacturer", "manufactured", "Manufacturing Facility", "20C", true,
            Some(now), None, None, None)
  }

  /** The status a transfer to `newOwner` leaves; unknown owners keep `previous`. */
  function DerivedStatus(newOwner: string, previous: string): string
  {
    if newOwner == "distributor" then "in-distribution"
    else if newOwner == "retailer" then "at-retailer"
    else if newOwner == "customer" then "sold"
    else previous
  }

  /** The record after a transfer has been accepted. */
  function Transferred(p: Product, newOwner: string, location: string, now: IsoTime): Product
  {
    p.(owner := newOwner, location := location, lastTransfer := Some(now),
       status := DerivedStatus(newOwner, p.status))
  }

  /** The record after UpdateProductStatus. */
  function StatusUpdated(p: Product, status: string, temperature: string, now: IsoTime): Product
  {
    p.(status := status, temperature := temperature, lastUpdate := Some(now))
  }

  /** The record after MarkCounterfeit. */
  function MarkedCounterfeit(p: Product, now: IsoTime): Product
  {
    p.(verified := false, status := "COUNTERFEIT", alertRaised := Some(now))
  }

  /** Write `q` under `id` and return it. */
  function Commit(w: World, ctx: Ctx, id: string, q: Product): (Result<Product, Error>, World)
  {
    (Success(q), Put(w, ctx, id, Record(q)))
  }

  /**
   * One contract call: its reply and the world state after it. A call either
   * fails and writes nothing, or writes exactly one new version, the record
   * it returns, under its own id.
   */
  function Step(w: World, ctx: Ctx, op: Op): (r: (Result<Product, Error>, World))
    ensures r.0.Failure? ==> r.1 == w
    ensures r.0.Success? ==> r.1 == Put(w, ctx, op.productId, Record(r.0.value))
    ensures op.Create? ==> r.0.Success?
  {
    var now := TxTimestampISO(ctx.ts);
    match op
    case Create(id, name, manufacturer, batchNumber, manufactureDate, expiryDate) =>
      Commit(w, ctx, id, NewProduct(id, name, manufacturer, batchNumber, manufactureDate, expiryDate, now))
    case Transfer(id, newOwner, location) =>
      (match Lookup(w, id)
       case Failure(e) => (Failure(e), w)
       case Success(p) =>
         if !VerifyProduct(p, ctx.parseDate(p.expiryDate), TxDate(ctx.ts)) then
           (Failure(VerificationFailed(id)), w)
         else
           Commit(w, ctx, id, Transferred(p, newOwner, location, now)))
    case UpdateStatus(id, status, temperature) =>
      (match Lookup(w, id)
       case Failure(e) => (Failure(e), w)
       case Success(p) => Commit(w, ctx, id, StatusUpdated(p, status, temperature, now)))
    case MarkCounterfeit(id) =>
      (match Lookup(w, id)
       case Failure(e) => (Failure(e), w)
       case Success(p) => Commit(w, ctx, id, MarkedCounterfeit(p, now)))
  }

  /** The world state after a series of calls, each in its own transaction. */
  function Run(w: World, calls: seq<(Ctx, Op)>): World
    decreases |calls|
  {
    if calls == [] then w
    else Run(Step(w, calls[0].0, calls[0].1).1, calls[1..])
  }

  /** How many of `calls` write a version of `key`. */
  function WritesTo(w: World, calls: seq<(Ctx, Op)>, key: string): nat
    decreases |calls|
  {
    if calls == [] then 0
    else
      var (r, w') := Step(w, calls[0].0, calls[0].1);
      (if r.Success? && calls[0].1.productId == key then 1 else 0) + WritesTo(w', calls[1..], key)
  }

  /** The two sample records InitLedger writes. */
  function SampleProducts(): seq<Product>
  {
    [ Product("DRUG001", "Aspirin", "PharmaCorp", "BATCH001", "2024-01-01", "2026-01-01",
              "manufacturer", "manufactured", "Warehouse-A", "20C", true, None, None, None, None),
      Product("DRUG002", "Paracetamol", "PharmaCorp", "BATCH002", "2024-01-02", "2026-01-02",
              "manufacturer", "manufactured", "Warehouse-A", "20C", true, None, None, None, None) ]
  }

  /** `putState` of each product under its own id, in order, in one transaction. */
  function PutAll(w: World, ctx: Ctx, ps: seq<Product>): World
    decreases |ps|
  {
    if ps == [] then w
    else
      var last := ps[|ps| - 1];
      Put(PutAll(w, ctx, ps[..|ps| - 1]), ctx, last.productId, Record(last))
  }
}
