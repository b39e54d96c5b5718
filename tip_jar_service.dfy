/**
 * The tip jar (ShinobiTerm/ShinobiTerm/Services/TipJarService.swift): one
 * consumable product and the state of the purchase in progress. StoreKit's
 * answers are values handed to the methods.
 */
module TipJarService {
  import opened Wrappers

  const BeerTipId: string := "com.rettuce.shinobiterm.tip.beer"

  datatype PurchaseState = Idle | Purchasing | Success | Failed(message: string)

  /** StoreKit's verdict on a signed transaction. */
  datatype Verification = Verified(transaction: nat) | Unverified(error: string)

  /** The cases of `Product.PurchaseResult`; `Unknown` stands for `@unknown default`. */
  datatype PurchaseResult = Purchased(verification: Verification) | UserCancelled | Pending | Unknown

  /** `product.purchase()` either answers or throws with a description. */
  datatype PurchaseOutcome = Answered(result: PurchaseResult) | Threw(description: string)

  /** `Product.products(for:)`: the product ids found, or a thrown error. */
  datatype ProductsOutcome = Found(products: seq<string>) | LookupFailed

  /** `checkVerified`: the transaction, or the verification error it throws. */
  function CheckVerified(v: Verification): (r: Result<nat, string>)
    ensures r.Ok? <==> v.Verified?
    ensures r.Ok? ==> r.value == v.transaction
    ensures r.Err? ==> r.error == v.error
  {
    match v
    case Verified(t) => Ok(t)
    case Unverified(e) => Err(e)
  }

  /** The state `purchaseBeer` ends in once StoreKit has answered. */
  function PurchaseEnd(o: PurchaseOutcome): PurchaseState {
    match o
    case Threw(d) => Failed(d)
    case Answered(Purchased(v)) =>
      (match CheckVerified(v) case Ok(_) => Success case Err(e) => Failed(e))
    case Answered(_) => Idle
  }

  /** The transaction `purchaseBeer` finishes, if any. */
  function FinishedBy(o: PurchaseOutcome): Option<nat> {
    match o
    case Answered(Purchased(Verified(t))) => Some(t)
    case _ => None
  }

  class TipJar {
    var beerProduct: Option<string>
    var purchaseState: PurchaseState
    /** Every value assigned to the published `purchaseState`, in order. */
    var published: seq<PurchaseState>
    /** Transactions `finish()` was called on, in order. */
    var finished: seq<nat>

    /** The service starts idle with no product loaded. */
    constructor ()
      ensures purchaseState == Idle && beerProduct == None
      ensures published == [] && finished == []
    {
      beerProduct, purchaseState := None, Idle;
      published, finished := [], [];
    }

    /** `loadProducts`: the first product found, or none when the lookup throws. */
    method LoadProducts(o: ProductsOutcome)
      modifies this
      ensures beerProduct == (if o.Found? && o.products != [] then Some(o.products[0]) else None)
      ensures purchaseState == old(purchaseState) && published == old(published)
      ensures finished == old(finished)
    {
      match o {
        case Found(ps) =>
          beerProduct := if ps == [] then None else Some(ps[0]);
        case LookupFailed =>
          beerProduct := None;
      }
    }

    method Publish(st: PurchaseState)
      modifies this
      ensures purchaseState == st && published == old(published) + [st]
      ensures beerProduct == old(beerProduct) && finished == old(finished)
    {
      purchaseState := st;
      published := published + [st];
    }

    /**
     * `purchaseBeer`: with no product nothing happens; otherwise `.purchasing`
     * is published, then the state the answer leads to.
     */
    method PurchaseBeer(o: PurchaseOutcome)
      modifies this
      ensures old(beerProduct).None? ==>
        purchaseState == old(purchaseState) && published == old(published) && finished == old(finished)
      ensures old(beerProduct).Some? ==>
        && purchaseState == PurchaseEnd(o)
        && published == old(published) + [Purchasing, PurchaseEnd(o)]
        && finished == old(finished) + (match FinishedBy(o) case Some(t) => [t] case None => [])
      ensures beerProduct == old(beerProduct)
    {
      if beerProduct.None? {
        return;
      }
      Publish(Purchasing);
      match o {
        case Threw(d) =>
          Publish(Failed(d));
        case Answered(result) =>
          match result {
            case Purchased(v) =>
              var checked := CheckVerified(v);
              match checked {
                case Ok(t) =>
                  finished := finished + [t];
                  Publish(Success);
                case Err(e) =>
                  Publish(Failed(e));
              }
            case UserCancelled =>
              Publish(Idle);
            case Pending =>
              Publish(Idle);
            case Unknown =>
              Publish(Idle);
          }
      }
    }

    /** `resetState`: back to idle from any state. */
    method ResetState()
      modifies this
      ensures purchaseState == Idle && published == old(published) + [Idle]
      ensures beerProduct == old(beerProduct) && finished == old(finished)
    {
      Publish(Idle);
    }
  }

  // ------------------------------------------------------------ properties

  /** A completed purchase never leaves the state at `.purchasing`. */
  lemma PurchaseNeverStuck(o: PurchaseOutcome)
    ensures PurchaseEnd(o) != Purchasing
  {
  }

  /** Success exactly for a verified purchase, and then that transaction is finished. */
  lemma PurchaseSuccessSpec(o: PurchaseOutcome)
    ensures PurchaseEnd(o) == Success <==> o.Answered? && o.result.Purchased? && o.result.verification.Verified?
    ensures PurchaseEnd(o) == Success <==> FinishedBy(o).Some?
  {
  }

  /** A failure carries the thrown description or the verification error. */
  lemma PurchaseFailureSpec(o: PurchaseOutcome)
    ensures PurchaseEnd(o).Failed? <==>
      o.Threw? || (o.result.Purchased? && o.result.verification.Unverified?)
    ensures o.Threw? ==> PurchaseEnd(o) == Failed(o.description)
    ensures o.Answered? && o.result.Purchased? && o.result.verification.Unverified? ==>
      PurchaseEnd(o) == Failed(o.result.verification.error)
  {
  }

  /** Cancelling, a pending purchase and an unknown answer all go back to idle. */
  lemma PurchaseIdleSpec(o: PurchaseOutcome)
    ensures PurchaseEnd(o) == Idle <==> o.Answered? && !o.result.Purchased?
  {
  }
}
