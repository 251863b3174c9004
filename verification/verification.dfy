/** verifyProduct of chaincode/pharma-supply/pharmaSupply.js: the gate every transfer passes. */
module Verification {
  import opened TxTime
  import opened Records

  /**
   * `expiryDate < txDate` on two Dates: compares their time values, and is
   * false whenever either is an Invalid Date (NaN never compares less).
   */
  predicate ExpiresBefore(expiry: JsDate, now: JsDate)
  {
    expiry.Valid? && now.Valid? && expiry.ms < now.ms
  }

  /**
   * Whether `p` may be transferred at time `now`, where `expiry` is the Date
   * parsed from `p.expiryDate`. The checks run in the source's order: required
   * fields, then expiry, then the verified flag.
   */
  function VerifyProduct(p: Product, expiry: JsDate, now: JsDate): (ok: bool)
    ensures !ok <==>
      || p.productId == ""
      || p.manufacturer == ""
      || p.batchNumber == ""
      || (expiry.Valid? && now.Valid? && expiry.ms < now.ms)
      || !p.verified
  {
    if p.productId == "" || p.manufacturer == "" || p.batchNumber == "" then
      false
    else if ExpiresBefore(expiry, now) then
      false
    else if !p.verified then
      false
    else
      true
  }

  /** A product is still transferable at the very instant it expires. */
  lemma ExpiryInstantPasses(p: Product, t: int)
    requires p.productId != "" && p.manufacturer != "" && p.batchNumber != "" && p.verified
    ensures VerifyProduct(p, Valid(t), Valid(t))
    ensures !VerifyProduct(p, Valid(t), Valid(t + 1))
  {
  }

  /** An expiry that does not parse, or an Invalid transaction Date, never rejects. */
  lemma InvalidDatesNeverExpire(p: Product, expiry: JsDate, now: JsDate)
    requires expiry.Invalid? || now.Invalid?
    ensures VerifyProduct(p, expiry, now) <==>
      p.productId != "" && p.manufacturer != "" && p.batchNumber != "" && p.verified
  {
  }

  /** An unverified record fails whatever its dates. */
  lemma UnverifiedNeverPasses(p: Product, expiry: JsDate, now: JsDate)
    requires !p.verified
    ensures !VerifyProduct(p, expiry, now)
  {
  }
}
