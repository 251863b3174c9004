# Pharmaceutical supply ledger — a Dafny model

This project models the product-ledger smart contract of the pharma-network
repository (`chaincode/pharma-supply/pharmaSupply.js`, the
`PharmaSupplyContract` Hyperledger Fabric chaincode). The contract keeps one
JSON record per pharmaceutical product in Fabric's versioned world state,
keyed by product id. TransferProduct, UpdateProductStatus and
MarkCounterfeit read the latest version of a record, check it, and either
throw or store a complete new version. CreateProduct and InitLedger write
without reading, so they overwrite whatever a key held. The read calls
return the latest value, a full range scan, or the version history of a key.
All time stamps come from the consensus transaction timestamp.

Layout, one module per file:

- `wrappers.dfy`: `Option` and `Result`.
- `tx_time.dfy` (`TxTime`): `getTxTimestampISO` and `getTxDate`. The consensus
  timestamp (seconds in any of the shapes the source accepts, plus nanos)
  becomes a count of milliseconds. That count becomes a `JsDate` (a valid time
  value or an Invalid Date) and its ISO text. The ISO text is an `IsoTime`
  holding the time value it was printed from.
- `records.dfy` (`Records`): the `Product` record. A stored `Entry` is either
  a parsed record or `Raw` text that `JSON.parse` rejects.
- `verification.dfy` (`Verification`): `verifyProduct`, as a pure function of
  the record, its parsed expiry Date and the transaction Date.
- `transitions.dfy` (`Transitions`): the world state (`current` value and
  `history` of versions per key) and `putState`. Each write call is a function
  `Step` from a state to a reply and a new state. `Run` is a series of calls.
- `properties.dfy` (`Properties`): the contract's promises, stated and proved
  about `Step` and `Run`.
- `ledger.dfy` (`PharmaSupply`): class `Ledger`, with the world state as
  fields. Its methods follow the source statement by statement: `getState`,
  the emptiness check, parsing, verification, field-by-field changes,
  `putState`. `CreateProduct`, `TransferProduct`, `UpdateProductStatus` and
  `MarkCounterfeit` are each proved to produce exactly the reply and state
  that `Step` gives. `InitLedger` is proved to produce the state `PutAll`
  gives for the two sample records. `GetAllProducts` and `GetProductHistory`
  are loops over the store's iterators. They write nothing.

Points of the code's behaviour that the model keeps as they are:

- `getTxDate` does not fall back to the epoch for a NaN or out-of-range
  time value. Only `getTxTimestampISO` does: its `toISOString` throws and the
  `catch` returns the epoch. `getTxDate` returns an Invalid Date instead,
  because `new Date(NaN)` does not throw, and the expiry check then never
  rejects. Both helpers return the epoch only when reading the seconds
  throws.
- `verified` can become true again. `CreateProduct` and `InitLedger`
  overwrite a record with `verified = true`. No other call sets it to true.
- `owner` and `status` are free strings. A transfer accepts any owner, and
  the model does too.
- `QueryProduct` returns the stored text without parsing it. The model returns
  the stored `Entry` as it is.
- An empty stored value counts as "does not exist", as the source's
  `length === 0` test does. A non-empty value that does not parse makes the
  write calls throw; the model calls this error `Unparseable`.

## Model

| member | source | states |
|---|---|---|
| `TxTime.SecondsAsWritten` | chaincode/pharma-supply/pharmaSupply.js:12 | The seconds as the code reads them: a number, a Long through its `low` half only, `toInt()`, or `parseInt`. Reading fails (a TypeError) exactly when seconds is missing. |
| `TxTime.SecondsValue` | chaincode/pharma-supply/pharmaSupply.js:12 | The corrected reading: a Long gives its whole 64-bit value, and every other shape reads as in the code. The rest of the model uses this reading. |
| `TxTime.SecondsValueReadsLong` | chaincode/pharma-supply/pharmaSupply.js:12 | For every 64-bit seconds value, the corrected reading of its Long gives the value back (round trip). |
| `TxTime.SecondsAsWrittenBelow2038` | chaincode/pharma-supply/pharmaSupply.js:12 | Reading a Long through `low` is right if and only if the seconds fit in 32 signed bits. |
| `TxTime.LongLowWrapsAt2038` | chaincode/pharma-supply/pharmaSupply.js:12 | Counterexample: 2^31 seconds (2038-01-19) is read as -2^31 (1901-12-13) by the code and as 2^31 by the corrected reading. |
| `TxTime.MakeDate` | chaincode/pharma-supply/pharmaSupply.js:27 | `new Date(millis)` is valid exactly for an integer within ±8.64e15 ms and then holds that value. NaN or a larger value gives an Invalid Date. |
| `TxTime.ToISOString` | chaincode/pharma-supply/pharmaSupply.js:14 | `toISOString` yields text exactly for a valid Date, carrying its time value, and throws otherwise. |
| `TxTime.TxDate` | chaincode/pharma-supply/pharmaSupply.js:22-31 | A valid result lies within the Date range. A missing seconds value gives the epoch. The result is Invalid exactly when the milliseconds are NaN or out of range. |
| `TxTime.TxTimestampISO` | chaincode/pharma-supply/pharmaSupply.js:9-19 | The ISO text always lies within the Date range. It carries the same time value as `getTxDate` whenever that Date is valid, and is the epoch otherwise. |
| `TxTime.TxTimeOfSeconds` | chaincode/pharma-supply/pharmaSupply.js:25-27 | For seconds in any shape (number, Long, `toInt()`, `parseInt`) that read as s, with the result in range, the Date and the ISO text are both `s*1000 + floor(nanos/1e6)` ms, with missing nanos read as 0. |
| `TxTime.TxTimeOfFabricTimestamp` | chaincode/pharma-supply/pharmaSupply.js:12-14 | For a 64-bit Fabric timestamp within range, both the Date and the ISO text are `seconds*1000 + floor(nanos/1e6)` ms, with missing nanos read as 0. |
| `TxTime.MissingSecondsGiveEpoch` | chaincode/pharma-supply/pharmaSupply.js:15-18 | When reading the seconds throws, the Date and the ISO text are both the epoch. |
| `Verification.VerifyProduct` | chaincode/pharma-supply/pharmaSupply.js:198-217 | Rejects if and only if productId, manufacturer or batchNumber is empty, or the parsed expiry is strictly before the transaction time (both valid), or `verified` is false. |
| `Verification.ExpiryInstantPasses` | chaincode/pharma-supply/pharmaSupply.js:205-209 | An expiry equal to the transaction time passes; one millisecond later it is rejected. |
| `Verification.InvalidDatesNeverExpire` | chaincode/pharma-supply/pharmaSupply.js:205-209 | An expiry that does not parse, or an Invalid transaction Date, never causes a rejection; only the field and `verified` checks remain. |
| `Verification.UnverifiedNeverPasses` | chaincode/pharma-supply/pharmaSupply.js:212-214 | A record with `verified` false is rejected whatever its dates. |
| `Transitions.Put` | chaincode/pharma-supply/pharmaSupply.js:90 | `putState` sets the key's latest value, appends exactly one version stamped with the transaction to that key's history, leaves other keys alone and keeps the history consistent with the latest values. |
| `Transitions.Step` | chaincode/pharma-supply/pharmaSupply.js:74-148 | The four write calls (create, transfer, status update, counterfeit marking) as one function of the world state. A call either fails and writes nothing, or puts exactly the record it returns under its own id. Create never fails. What each call does to the record is proved about `Step` by the `Properties` lemmas. |
| `Transitions.Lookup` | chaincode/pharma-supply/pharmaSupply.js:96-101 | Fails with NotFound exactly when the key is absent or its value is empty. Succeeds exactly when a parsed record is stored, and then returns that record. |
| `Properties.CreateStoresInitialRecord` | chaincode/pharma-supply/pharmaSupply.js:74-91 | CreateProduct always succeeds. It stores and returns the six given fields with owner manufacturer, status manufactured, location Manufacturing Facility, temperature 20C, verified true and timestamp set to the transaction time. |
| `Properties.CreateLastWriteWins` | chaincode/pharma-supply/pharmaSupply.js:74-91 | Two creates of one id both succeed. Later reads see the second record, and the history gains both versions in order. |
| `Properties.MissingKeyFails` | chaincode/pharma-supply/pharmaSupply.js:96-99 | Transfer, status update and counterfeit marking of a missing id fail with NotFound and change nothing. The same check is at lines 137-138 and 222-223. |
| `Properties.FailureWritesNothing` | chaincode/pharma-supply/pharmaSupply.js:101-106 | Any call that fails leaves the current values and the history unchanged. |
| `Properties.TransferGate` | chaincode/pharma-supply/pharmaSupply.js:101-106 | A transfer of a stored record fails with VerificationFailed if and only if `verifyProduct` rejects it at the transaction time. It fails in no other way. |
| `Properties.TransferResult` | chaincode/pharma-supply/pharmaSupply.js:108-122 | An accepted transfer sets the new owner, the location and lastTransfer. Status becomes in-distribution, at-retailer or sold for distributor, retailer or customer, and otherwise stays as it was. Identity fields, verified, temperature and the other stamps are unchanged. |
| `Properties.UpdateStatusSkipsVerification` | chaincode/pharma-supply/pharmaSupply.js:141-147 | Updating the status of any stored record succeeds, even an expired or unverified one. It sets status, temperature and lastUpdate and keeps owner, location, verified and identity. |
| `Properties.MarkCounterfeitResult` | chaincode/pharma-supply/pharmaSupply.js:226-232 | Marking a stored record sets verified false, status COUNTERFEIT and alertRaised to the transaction time. Owner, location, temperature, identity, lastTransfer and lastUpdate are kept. |
| `Properties.StepKeepsUnverified` | chaincode/pharma-supply/pharmaSupply.js:226-232 | No call other than a CreateProduct of the same id turns an unverified stored record verified. |
| `Properties.RunKeepsUnverified` | chaincode/pharma-supply/pharmaSupply.js:212-214 | Through any series of calls without a CreateProduct of the id, an unverified record stays stored and unverified. |
| `Properties.CounterfeitBlocksTransfers` | chaincode/pharma-supply/pharmaSupply.js:104-106 | After a successful MarkCounterfeit, every later transfer of that id fails with VerificationFailed and writes nothing, as long as no CreateProduct of the id comes in between. The runs covered do not contain InitLedger, which re-verifies DRUG001 and DRUG002. |
| `Properties.StepAppendsOneVersion` | chaincode/pharma-supply/pharmaSupply.js:121 | A successful call appends one version, carrying its transaction id, timestamp and new record, to its own key's history. A failed call, and every other key, gain none. |
| `Properties.RunKeepsConsistent` | chaincode/pharma-supply/pharmaSupply.js:90 | Through any calls, every stored key keeps a non-empty history whose last version is its current value. Every `putState` keeps this (lines 66, 90, 121, 146 and 231). |
| `Properties.HistoryCountsWrites` | chaincode/pharma-supply/pharmaSupply.js:172-195 | After any calls, a key's history is its old history (append-only) followed by exactly one new version per successful write to it. |
| `Properties.InitLedgerWritesSamples` | chaincode/pharma-supply/pharmaSupply.js:36-68 | InitLedger stores the two verified sample records DRUG001 and DRUG002, keeps every other key and keeps the history consistent. |
| `PharmaSupply.Ledger.PutState` | chaincode/pharma-supply/pharmaSupply.js:121 | The store's put: the new state is `Transitions.Put` of the old one. |
| `PharmaSupply.Ledger.InitLedger` | chaincode/pharma-supply/pharmaSupply.js:33-71 | The loop puts each sample in order, giving the state `PutAll` of the samples over the old state. It keeps the store consistent and returns the fixed message. |
| `PharmaSupply.Ledger.CreateProduct` | chaincode/pharma-supply/pharmaSupply.js:74-92 | The reply and the new state are exactly `Step` of Create over the old state. |
| `PharmaSupply.Ledger.TransferProduct` | chaincode/pharma-supply/pharmaSupply.js:95-123 | The reply and the new state are exactly `Step` of Transfer over the old state: lookup, verification, then field-by-field update and put. |
| `PharmaSupply.Ledger.QueryProduct` | chaincode/pharma-supply/pharmaSupply.js:126-132 | Fails with NotFound exactly when the id is absent or empty. Otherwise it returns the stored value unparsed. It writes nothing. |
| `PharmaSupply.Ledger.UpdateProductStatus` | chaincode/pharma-supply/pharmaSupply.js:135-148 | The reply and the new state are exactly `Step` of UpdateStatus over the old state. |
| `PharmaSupply.Ledger.GetAllProducts` | chaincode/pharma-supply/pharmaSupply.js:151-169 | Returns one entry per scanned key, in scan order, each the key's stored value (raw text included). There is one entry per stored key, and every stored key appears. It writes nothing. |
| `PharmaSupply.Ledger.GetProductHistory` | chaincode/pharma-supply/pharmaSupply.js:172-195 | Returns one item per stored version, in store order, with the store's transaction id and timestamp. A key with no versions gives an empty list. The last item is the current value. It writes nothing. |
| `PharmaSupply.Ledger.MarkCounterfeit` | chaincode/pharma-supply/pharmaSupply.js:220-233 | The reply and the new state are exactly `Step` of MarkCounterfeit over the old state. |

## Findings

| source | as written | input that shows it | evidently intended | confidence | as-written member | corrected member |
|---|---|---|---|---|---|---|
| chaincode/pharma-supply/pharmaSupply.js:12 | a Long `seconds` is read as `ts.seconds.low`, its low 32 bits as a signed number | seconds = 2^31, i.e. 2038-01-19T03:14:08Z (Long with low = -2^31, high = 0), is read as -2^31, i.e. 1901-12-13T20:45:52Z; every transaction from then on is stamped about 136 years early and the expiry check compares against 1901 | read the whole 64-bit value, `high * 2^32 + (low >>> 0)` | medium (depends on the runtime delivering seconds as a Long); not executed | `TxTime.SecondsAsWritten`, `TxTime.LongLowWrapsAt2038` | `TxTime.SecondsValue`, `TxTime.SecondsValueReadsLong` |

## Left out

- JSON serialisation, `Buffer` and `console.log`. A stored value is either a
  parsed `Product` or `Raw` text. Text that parses as JSON but is not a
  product object is not modelled.
- `Date.prototype.toISOString` formatting: the ISO text is identified with its
  time value (`IsoTime`).
- `new Date(product.expiryDate)`: parsing date text is a parameter of each
  transaction (`Ctx.parseDate`), giving a valid time value or an Invalid Date.
- JavaScript floating point. Numbers are integers or NaN. Fractional seconds,
  and rounding in `nanos / 1e6` for nanos far outside protobuf's range, are
  not modelled.
- The store's scan order: `GetAllProducts` takes the keys in the order the
  range iterator yields them. Its precondition is the store's promise that
  each stored key appears exactly once.
- The store's history order: versions are kept in commit order, oldest first.
  A store that iterates newest first would give the same items reversed.
- `iterator.close()`, `async`/`await`, endorsement, MVCC conflicts and
  identity. Calls are modelled one at a time, each in its own transaction.
- Properties.CounterfeitBlocksTransfers: like RunKeepsUnverified, it does not
  cover runs that contain InitLedger, which re-verifies DRUG001 and DRUG002.
- Properties.RunKeepsUnverified: the runs it covers are made of CreateProduct,
  TransferProduct, UpdateProductStatus and MarkCounterfeit calls. InitLedger
  is not one of them. Its effect, re-verifying only DRUG001 and DRUG002, is
  stated separately by `Properties.InitLedgerWritesSamples`.
- TxTime.TxDate, TxTime.TxTimestampISO, Transitions.Step and
  PharmaSupply.Ledger.InitLedger, CreateProduct, TransferProduct,
  UpdateProductStatus and MarkCounterfeit use the corrected seconds reading
  (`TxTime.SecondsValue`). The code at lines 12 and 25 reads a Long through
  `low` only. They differ only
  for Long timestamps outside the signed 32-bit range: from
  2038-01-19T03:14:08Z on, and before 1901-12-13T20:45:52Z.
