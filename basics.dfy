/** Values shared by both servers and the client: nullable fields, HTTP-style
    responses, the order status names and the payout requisites of an account. */
module Basics {

  datatype Option<+T> = None | Some(value: T)

  /** A handler's answer: a JSON body, or an HTTP status with an `error` message. */
  datatype Response<+T> = Ok(body: T) | Fail(status: nat, error: string)

  /** JavaScript truthiness of a nullable string: `null` and `""` are falsy. */
  predicate Truthy(s: Option<string>)
  {
    s.Some? && s.value != ""
  }

  // The status values written by the client and tested by the servers.
  const Active: string := "active"
  const Paid: string := "paid"
  const Completed: string := "completed"
  const Cancelled: string := "cancelled"

  /** The payout requisites of an account; every one of them may be null. */
  datatype Requisites = Requisites(
    tonWallet: Option<string>,
    cardNumber: Option<string>,
    cardBank: Option<string>,
    cardCurrency: Option<string>,
    telegramUsername: Option<string>)

  /** A freshly created account has no requisites. */
  const NoRequisites: Requisites := Requisites(None, None, None, None, None)

  /** One field of a JSON request body: left out of the body, or given
      (possibly as `null`). */
  datatype Patch = Keep | Write(value: Option<string>)

  /** The body of a requisites update: one optional entry per column. */
  datatype RequisitesPatch = RequisitesPatch(
    tonWallet: Patch,
    cardNumber: Patch,
    cardBank: Patch,
    cardCurrency: Patch,
    telegramUsername: Patch)

  function Patched(p: Patch, current: Option<string>): Option<string>
  {
    match p
    case Keep => current
    case Write(v) => v
  }

  /** True when the body names no column at all. */
  predicate IsEmptyPatch(p: RequisitesPatch)
  {
    p.tonWallet.Keep? && p.cardNumber.Keep? && p.cardBank.Keep?
    && p.cardCurrency.Keep? && p.telegramUsername.Keep?
  }

  /** Writes exactly the fields present in the body. */
  function ApplyPatch(r: Requisites, p: RequisitesPatch): (r': Requisites)
    ensures p.tonWallet.Keep? ==> r'.tonWallet == r.tonWallet
    ensures p.tonWallet.Write? ==> r'.tonWallet == p.tonWallet.value
    ensures p.cardNumber.Keep? ==> r'.cardNumber == r.cardNumber
    ensures p.cardNumber.Write? ==> r'.cardNumber == p.cardNumber.value
    ensures p.cardBank.Keep? ==> r'.cardBank == r.cardBank
    ensures p.cardBank.Write? ==> r'.cardBank == p.cardBank.value
    ensures p.cardCurrency.Keep? ==> r'.cardCurrency == r.cardCurrency
    ensures p.cardCurrency.Write? ==> r'.cardCurrency == p.cardCurrency.value
    ensures p.telegramUsername.Keep? ==> r'.telegramUsername == r.telegramUsername
    ensures p.telegramUsername.Write? ==> r'.telegramUsername == p.telegramUsername.value
  {
    Requisites(
      Patched(p.tonWallet, r.tonWallet),
      Patched(p.cardNumber, r.cardNumber),
      Patched(p.cardBank, r.cardBank),
      Patched(p.cardCurrency, r.cardCurrency),
      Patched(p.telegramUsername, r.telegramUsername))
  }

  /** An empty body leaves the requisites as they were, and applying the
      same body twice is the same as applying it once. */
  lemma ApplyPatchIdempotent(r: Requisites, p: RequisitesPatch)
    ensures IsEmptyPatch(p) ==> ApplyPatch(r, p) == r
    ensures ApplyPatch(ApplyPatch(r, p), p) == ApplyPatch(r, p)
  {
  }
}
