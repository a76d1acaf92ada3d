/** Shared vocabulary of the real-estate token contract: identities, the
    error table and the response wrapper every public entry point returns. */
module Types {

  /** An authenticated caller or holder identity (a Stacks principal). */
  type Principal = string

  /** The error kinds the contract can answer with. */
  datatype Error =
    | OwnerOnly           // caller is not the contract owner
    | NotFound            // unknown property, share ledger or listing
    | Unauthorized        // caller is not the relevant party, or the contract is paused
    | AlreadyTokenized    // property was tokenized before
    | InsufficientTokens  // not enough unsold supply or holder balance
    | InsufficientFunds   // withdrawal larger than the accrued revenue
    | InvalidTokenAmount  // zero share count
    | NotForSale          // property not offered, or listing no longer active
    | InvalidPrice        // zero price (or zero area at registration)
  {
    /** The numeric `(err uN)` code of each kind. */
    function Code(): (c: nat)
      ensures 100 <= c <= 109
    {
      match this
      case OwnerOnly => 100
      case NotFound => 101
      case Unauthorized => 102
      case AlreadyTokenized => 103
      case InsufficientTokens => 104
      case InsufficientFunds => 105
      case InvalidTokenAmount => 107
      case NotForSale => 108
      case InvalidPrice => 109
    }
  }

  /** Distinct kinds never share a code, so a code identifies its kind. */
  lemma CodeIsInjective(e1: Error, e2: Error)
    ensures e1.Code() == e2.Code() <==> e1 == e2
  {
  }

  /** A Clarity `(response ok err)`: either the committed value or an error. */
  datatype Result<+T> = Ok(value: T) | Err(error: Error)

  /** A read-only lookup that may find nothing. */
  datatype Option<+T> = None | Some(value: T)
}
