/**
 * What the ledger contract promises, stated about Transitions.Step and
 * Transitions.Run: creation, missing keys, the transfer gate, status
 * derivation, the counterfeit mark, and the history the store keeps.
 */
module Properties {
  import opened Wrappers
  import opened TxTime
  import opened Records
  import opened Verification
  import opened Transitions

  /** CreateProduct stores and returns the fixed initial record, with no existence check. */
  lemma CreateStoresInitialRecord(w: World, ctx: Ctx, op: Op)
    requires op.Create?
    ensures var (r, w') := Step(w, ctx, op);
      && r.Success?
      && r.value.productId == op.productId && r.value.name == op.name
      && r.value.manufacturer == op.manufacturer && r.value.batchNumber == op.batchNumber
      && r.value.manufactureDate == op.manufactureDate && r.value.expiryDate == op.expiryDate
      && r.value.owner == "manufacturer" && r.value.status == "manufactured"
      && r.value.location == "Manufacturing Facility" && r.value.temperature == "20C"
      && r.value.verified
      && r.value.timestamp == Some(TxTimestampISO(ctx.ts))
      && r.value.lastTransfer.None? && r.value.lastUpdate.None? && r.value.alertRaised.None?
      && w'.current == w.current[op.productId := Record(r.value)]
  {
  }

  /** Creating the same id twice succeeds both times; the later record is what reads see. */
  lemma CreateLastWriteWins(w: World, ctx1: Ctx, ctx2: Ctx, a: Op, b: Op)
    requires a.Create? && b.Create? && a.productId == b.productId
    ensures var (r1, w1) := Step(w, ctx1, a);
            var (r2, w2) := Step(w1, ctx2, b);
      && r1.Success? && r2.Success?
      && Lookup(w2, b.productId) == r2
      && Versions(w2, b.productId) ==
           Versions(w, a.productId) + [Version(ctx1.txId, ctx1.ts, Record(r1.value)),
                                       Version(ctx2.txId, ctx2.ts, Record(r2.value))]
  {
  }

  /** Every call but CreateProduct fails with NotFound on a missing id and writes nothing. */
  lemma MissingKeyFails(w: World, ctx: Ctx, op: Op)
    requires !op.Create? && Absent(w, op.productId)
    ensures Step(w, ctx, op) == (Failure(NotFound(op.productId)), w)
  {
  }

  /** A call that fails leaves the world state, history included, as it was. */
  lemma FailureWritesNothing(w: World, ctx: Ctx, op: Op)
    ensures Step(w, ctx, op).0.Failure? ==> Step(w, ctx, op).1 == w
  {
  }

  /**
   * A transfer of a stored record fails with VerificationFailed exactly when
   * verifyProduct rejects the record at the transaction time.
   */
  lemma TransferGate(w: World, ctx: Ctx, id: string, newOwner: string, location: string)
    requires Lookup(w, id).Success?
    ensures var p := Lookup(w, id).value;
            var r := Step(w, ctx, Transfer(id, newOwner, location)).0;
      && (r == Failure(VerificationFailed(id)) <==>
            !VerifyProduct(p, ctx.parseDate(p.expiryDate), TxDate(ctx.ts)))
      && (r.Failure? ==> r == Failure(VerificationFailed(id)))
  {
  }

  /** An accepted transfer: new owner and location, derived status, nothing else changed. */
  lemma TransferResult(w: World, ctx: Ctx, id: string, newOwner: string, location: string)
    requires Step(w, ctx, Transfer(id, newOwner, location)).0.Success?
    ensures var p := Lookup(w, id).value;
            var (r, w') := Step(w, ctx, Transfer(id, newOwner, location));
      && Lookup(w, id).Success?
      && r.value.owner == newOwner && r.value.location == location
      && r.value.lastTransfer == Some(TxTimestampISO(ctx.ts))
      && (newOwner == "distributor" ==> r.value.status == "in-distribution")
      && (newOwner == "retailer" ==> r.value.status == "at-retailer")
      && (newOwner == "customer" ==> r.value.status == "sold")
      && (newOwner !in {"distributor", "retailer", "customer"} ==> r.value.status == p.status)
      && SameIdentity(p, r.value) && r.value.verified == p.verified && r.value.verified
      && r.value.temperature == p.temperature
      && r.value.lastUpdate == p.lastUpdate && r.value.alertRaised == p.alertRaised
      && w'.current == w.current[id := Record(r.value)]
  {
  }

  /**
   * UpdateProductStatus succeeds on any stored record, valid or not: it sets
   * status, temperature and lastUpdate and keeps owner, location and verified.
   */
  lemma UpdateStatusSkipsVerification(w: World, ctx: Ctx, id: string, status: string, temperature: string)
    requires Lookup(w, id).Success?
    ensures var p := Lookup(w, id).value;
            var (r, w') := Step(w, ctx, UpdateStatus(id, status, temperature));
      && r.Success?
      && r.value.status == status && r.value.temperature == temperature
      && r.value.lastUpdate == Some(TxTimestampISO(ctx.ts))
      && r.value.owner == p.owner && r.value.location == p.location && r.value.verified == p.verified
      && SameIdentity(p, r.value)
      && r.value.lastTransfer == p.lastTransfer && r.value.alertRaised == p.alertRaised
      && w'.current == w.current[id := Record(r.value)]
  {
  }

  /** MarkCounterfeit clears verified, sets the COUNTERFEIT status and the alert time. */
  lemma MarkCounterfeitResult(w: World, ctx: Ctx, id: string)
    requires Lookup(w, id).Success?
    ensures var p := Lookup(w, id).value;
            var (r, w') := Step(w, ctx, MarkCounterfeit(id));
      && r.Success?
      && !r.value.verified && r.value.status == "COUNTERFEIT"
      && r.value.alertRaised == Some(TxTimestampISO(ctx.ts))
      && r.value.owner == p.owner && r.value.location == p.location
      && r.value.temperature == p.temperature && SameIdentity(p, r.value)
      && r.value.lastTransfer == p.lastTransfer && r.value.lastUpdate == p.lastUpdate
      && w'.current == w.current[id := Record(r.value)]
  {
  }

  /** `id` holds a record whose verified flag is false. */
  predicate Unverified(w: World, id: string)
  {
    id in w.current && w.current[id].Record? && !w.current[id].product.verified
  }

  /** No call other than a CreateProduct of `id` itself sets `id` back to verified. */
  lemma StepKeepsUnverified(w: World, ctx: Ctx, op: Op, id: string)
    requires Unverified(w, id)
    requires !(op.Create? && op.productId == id)
    ensures Unverified(Step(w, ctx, op).1, id)
  {
  }

  /** None of `calls` is a CreateProduct of `id`. */
  predicate NoCreateOf(calls: seq<(Ctx, Op)>, id: string)
  {
    forall i :: 0 <= i < |calls| ==> !(calls[i].1.Create? && calls[i].1.productId == id)
  }

  /** Unverified stays unverified through any calls that do not re-create the id. */
  lemma {:induction false} RunKeepsUnverified(w: World, calls: seq<(Ctx, Op)>, id: string)
    requires Unverified(w, id) && NoCreateOf(calls, id)
    ensures Unverified(Run(w, calls), id)
    decreases |calls|
  {
    if calls != [] {
      StepKeepsUnverified(w, calls[0].0, calls[0].1, id);
      assert NoCreateOf(calls[1..], id) by {
        forall i | 0 <= i < |calls[1..]|
          ensures !(calls[1..][i].1.Create? && calls[1..][i].1.productId == id)
        {
          assert calls[1..][i] == calls[i + 1];
        }
      }
      RunKeepsUnverified(Step(w, calls[0].0, calls[0].1).1, calls[1..], id);
    }
  }

  /**
   * Once MarkCounterfeit has succeeded on `id`, every later TransferProduct of
   * it fails with VerificationFailed and writes nothing, whatever happens in
   * between short of a new CreateProduct of `id`.
   */
  lemma CounterfeitBlocksTransfers(w: World, mark: Ctx, calls: seq<(Ctx, Op)>, ctx: Ctx,
                                   id: string, newOwner: string, location: string)
    requires Step(w, mark, MarkCounterfeit(id)).0.Success?
    requires NoCreateOf(calls, id)
    ensures var w' := Run(Step(w, mark, MarkCounterfeit(id)).1, calls);
      Step(w', ctx, Transfer(id, newOwner, location)) == (Failure(VerificationFailed(id)), w')
  {
    var w0 := Step(w, mark, MarkCounterfeit(id)).1;
    assert Unverified(w0, id);
    RunKeepsUnverified(w0, calls, id);
  }

  /** A successful call appends exactly one version, stamped by its transaction, to its own key. */
  lemma StepAppendsOneVersion(w: World, ctx: Ctx, op: Op, key: string)
    ensures var (r, w') := Step(w, ctx, op);
      Versions(w', key) ==
        if r.Success? && op.productId == key
        then Versions(w, key) + [Version(ctx.txId, ctx.ts, Record(r.value))]
        else Versions(w, key)
  {
  }

  /** Every call keeps the history consistent with the latest values. */
  lemma {:induction false} RunKeepsConsistent(w: World, calls: seq<(Ctx, Op)>)
    requires Consistent(w)
    ensures Consistent(Run(w, calls))
    decreases |calls|
  {
    if calls != [] {
      RunKeepsConsistent(Step(w, calls[0].0, calls[0].1).1, calls[1..]);
    }
  }

  /**
   * History is append-only and complete: after any calls, a key's history is
   * its old history followed by one new version per successful write to it.
   */
  lemma {:induction false} HistoryCountsWrites(w: World, calls: seq<(Ctx, Op)>, key: string)
    ensures var h := Versions(Run(w, calls), key);
      && |h| == |Versions(w, key)| + WritesTo(w, calls, key)
      && h[..|Versions(w, key)|] == Versions(w, key)
    decreases |calls|
  {
    if calls != [] {
      var w1 := Step(w, calls[0].0, calls[0].1).1;
      StepAppendsOneVersion(w, calls[0].0, calls[0].1, key);
      HistoryCountsWrites(w1, calls[1..], key);
      var h := Versions(Run(w, calls), key);
      assert h[..|Versions(w1, key)|] == Versions(w1, key);
      assert Versions(w1, key)[..|Versions(w, key)|] == Versions(w, key);
    }
  }

  /** InitLedger (over a consistent state) writes the two verified sample records and keeps the rest. */
  lemma InitLedgerWritesSamples(w: World, ctx: Ctx)
    ensures var w' := PutAll(w, ctx, SampleProducts());
      && w'.current == w.current["DRUG001" := Record(SampleProducts()[0])]
                                ["DRUG002" := Record(SampleProducts()[1])]
      && SampleProducts()[0].verified && SampleProducts()[1].verified
      && (Consistent(w) ==> Consistent(w'))
  {
  }
}
