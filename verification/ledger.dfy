/**
 * PharmaSupplyContract of chaincode/pharma-supply/pharmaSupply.js over the
 * world state it reads and writes. TransferProduct, UpdateProductStatus and
 * MarkCounterfeit do what the source does (getState, parse, check, change the
 * record field by field, putState); CreateProduct and InitLedger only build
 * records and put them. Each is proved to follow Transitions.Step (InitLedger,
 * Transitions.PutAll). The read-only methods drive the store's iterators as
 * loops.
 */
module PharmaSupply {
  import opened Wrappers
  import opened TxTime
  import opened Records
  import opened Verification
  import opened Transitions

  /** One element of GetProductHistory's reply: the store's stamps and the parsed value. */
  datatype HistoryItem = HistoryItem(txId: string, timestamp: TxTimestamp, record: Entry)

  /** `s` lists no key twice. */
  predicate Distinct(s: seq<string>)
  {
    forall i, j :: 0 <= i < j < |s| ==> s[i] != s[j]
  }

  /** A sequence without repetitions has as many distinct elements as it is long. */
  lemma {:induction false} DistinctCardinality(s: seq<string>)
    requires Distinct(s)
    ensures |set k | k in s| == |s|
  {
    if s != [] {
      var t := s[1..];
      assert Distinct(t) by {
        forall i, j | 0 <= i < j < |t| ensures t[i] != t[j] {
          assert t[i] == s[i + 1] && t[j] == s[j + 1];
        }
      }
      DistinctCardinality(t);
      assert (set k | k in s) == (set k | k in t) + {s[0]};
      assert s[0] !in (set k | k in t) by {
        forall i | 0 <= i < |t| ensures t[i] != s[0] {
          assert t[i] == s[i + 1];
        }
      }
    }
  }

  class Ledger {
    /** The latest value under each key. */
    var current: map<string, Entry>
    /** Every version written under each key, oldest first. */
    var history: map<string, seq<Version>>

    ghost function State(): World
      reads this
    {
      World(current, history)
    }

    ghost predicate Valid()
      reads this
    {
      Consistent(State())
    }

    constructor ()
      ensures Valid() && current == map[] && history == map[]
    {
      current := map[];
      history := map[];
    }

    /** `ctx.stub.getState(key)`. */
    function GetState(key: string): (r: Option<Entry>)
      reads this
      ensures r.Some? <==> key in current
      ensures r.Some? ==> r.value == current[key]
    {
      if key in current then Some(current[key]) else None
    }

    /** `ctx.stub.putState(key, value)`: a new latest value and one more version. */
    method PutState(ctx: Ctx, key: string, value: Entry)
      modifies this
      ensures State() == Put(old(State()), ctx, key, value)
    {
      var versions := if key in history then history[key] else [];
      current := current[key := value];
      history := history[key := versions + [Version(ctx.txId, ctx.ts, value)]];
    }

    /** InitLedger: writes the two sample products, one putState per product. */
    method InitLedger(ctx: Ctx) returns (message: string)
      requires Valid()
      modifies this
      ensures Valid()
      ensures State() == PutAll(old(State()), ctx, SampleProducts())
      ensures message == "Ledger initialized with sample products"
    {
      var products := SampleProducts();
      for i := 0 to |products|
        invariant State() == PutAll(old(State()), ctx, products[..i])
      {
        assert products[..i + 1][..i] == products[..i];
        PutState(ctx, products[i].productId, Record(products[i]));
      }
      assert products[..|products|] == products;
      message := "Ledger initialized with sample products";
    }

    /** CreateProduct: builds the initial record and overwrites whatever the id held. */
    method CreateProduct(ctx: Ctx, productId: string, name: string, manufacturer: string,
                         batchNumber: string, manufactureDate: string, expiryDate: string)
      returns (r: Result<Product, Error>)
      requires Valid()
      modifies this
      ensures Valid()
      ensures (r, State()) ==
        Step(old(State()), ctx, Create(productId, name, manufacturer, batchNumber, manufactureDate, expiryDate))
    {
      var product := Product(productId, name, manufacturer, batchNumber, manufactureDate, expiryDate,
                             "manufacturer", "manufactured", "Manufacturing Facility", "20C", true,
                             Some(TxTimestampISO(ctx.ts)), None, None, None);
      PutState(ctx, productId, Record(product));
      r := Success(product);
    }

    /** TransferProduct: verifies the stored record, then moves it to `newOwner`. */
    method TransferProduct(ctx: Ctx, productId: string, newOwner: string, location: string)
      returns (r: Result<Product, Error>)
      requires Valid()
      modifies this
      ensures Valid()
      ensures (r, State()) == Step(old(State()), ctx, Transfer(productId, newOwner, location))
    {
      var bytes := GetState(productId);
      if bytes.None? || bytes.value == Raw("") {
        return Failure(NotFound(productId));
      }
      if bytes.value.Raw? {
        return Failure(Unparseable(productId));
      }
      var product := bytes.value.product;
      if !VerifyProduct(product, ctx.parseDate(product.expiryDate), TxDate(ctx.ts)) {
        return Failure(VerificationFailed(productId));
      }
      product := product.(owner := newOwner);
      product := product.(location := location);
      product := product.(lastTransfer := Some(TxTimestampISO(ctx.ts)));
      if newOwner == "distributor" {
        product := product.(status := "in-distribution");
      } else if newOwner == "retailer" {
        product := product.(status := "at-retailer");
      } else if newOwner == "customer" {
        product := product.(status := "sold");
      }
      PutState(ctx, productId, Record(product));
      r := Success(product);
    }

    /** QueryProduct: the stored value as it is, parsed or not. */
    method QueryProduct(productId: string) returns (r: Result<Entry, Error>)
      ensures r.Failure? <==> productId !in current || current[productId] == Raw("")
      ensures r.Failure? ==> r.error == NotFound(productId)
      ensures r.Success? ==> productId in current && r.value == current[productId]
    {
      var bytes := GetState(productId);
      if bytes.None? || bytes.value == Raw("") {
        return Failure(NotFound(productId));
      }
      r := Success(bytes.value);
    }

    /** UpdateProductStatus: sets status and temperature, with no verification. */
    method UpdateProductStatus(ctx: Ctx, productId: string, status: string, temperature: string)
      returns (r: Result<Product, Error>)
      requires Valid()
      modifies this
      ensures Valid()
      ensures (r, State()) == Step(old(State()), ctx, UpdateStatus(productId, status, temperature))
    {
      var bytes := GetState(productId);
      if bytes.None? || bytes.value == Raw("") {
        return Failure(NotFound(productId));
      }
      if bytes.value.Raw? {
        return Failure(Unparseable(productId));
      }
      var product := bytes.value.product;
      product := product.(status := status);
      product := product.(temperature := temperature);
      product := product.(lastUpdate := Some(TxTimestampISO(ctx.ts)));
      PutState(ctx, productId, Record(product));
      r := Success(product);
    }

    /**
     * GetAllProducts: one reply entry per key of the range scan, in the order
     * `scan` gives the keys (the store's order); a value that does not parse is
     * passed on as its text.
     */
    method GetAllProducts(scan: seq<string>) returns (all: seq<Entry>)
      requires Distinct(scan) && (set k | k in scan) == current.Keys
      ensures |all| == |scan| == |current|
      ensures forall i :: 0 <= i < |all| ==> all[i] == current[scan[i]]
      ensures forall k :: k in current ==> exists i :: 0 <= i < |all| && scan[i] == k && all[i] == current[k]
    {
      all := [];
      var i := 0;
      while i < |scan|
        invariant 0 <= i <= |scan|
        invariant |all| == i
        invariant forall j :: 0 <= j < i ==> all[j] == current[scan[j]]
      {
        var record := current[scan[i]];
        all := all + [record];
        i := i + 1;
      }
      DistinctCardinality(scan);
      forall k | k in current
        ensures exists j :: 0 <= j < |all| && scan[j] == k && all[j] == current[k]
      {
        var j :| 0 <= j < |scan| && scan[j] == k;
        assert all[j] == current[k];
      }
    }

    /**
     * GetProductHistory: one reply entry per stored version of `productId`, in
     * the store's order, carrying the store's transaction id and timestamp.
     */
    method GetProductHistory(productId: string) returns (items: seq<HistoryItem>)
      ensures var vs := Versions(State(), productId);
        && |items| == |vs|
        && forall i :: 0 <= i < |items| ==>
             items[i] == HistoryItem(vs[i].txId, vs[i].timestamp, vs[i].value)
      ensures productId !in history ==> items == []
      ensures Valid() && productId in current ==>
        items != [] && items[|items| - 1].record == current[productId]
    {
      var versions := if productId in history then history[productId] else [];
      items := [];
      var i := 0;
      while i < |versions|
        invariant 0 <= i <= |versions|
        invariant |items| == i
        invariant forall j :: 0 <= j < i ==>
          items[j] == HistoryItem(versions[j].txId, versions[j].timestamp, versions[j].value)
      {
        var version := versions[i];
        items := items + [HistoryItem(version.txId, version.timestamp, version.value)];
        i := i + 1;
      }
    }

    /** MarkCounterfeit: clears verified and flags the record COUNTERFEIT. */
    method MarkCounterfeit(ctx: Ctx, productId: string) returns (r: Result<Product, Error>)
      requires Valid()
      modifies this
      ensures Valid()
      ensures (r, State()) == Step(old(State()), ctx, Op.MarkCounterfeit(productId))
    {
      var bytes := GetState(productId);
      if bytes.None? || bytes.value == Raw("") {
        return Failure(NotFound(productId));
      }
      if bytes.value.Raw? {
        return Failure(Unparseable(productId));
      }
      var product := bytes.value.product;
      product := product.(verified := false);
      product := product.(status := "COUNTERFEIT");
      product := product.(alertRaised := Some(TxTimestampISO(ctx.ts)));
      PutState(ctx, productId, Record(product));
      r := Success(product);
    }
  }
}
