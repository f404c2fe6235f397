/**
 * The error values of the use-case layer (usecase/errors.go).
 *
 * Go compares errors by identity: each sentinel below is one value made once
 * with errors.New. Every other error (a driver failure, a bcrypt failure, an
 * error built on the spot) is an `Other` value; its `id` stands for its
 * identity, so two `Other` values with the same text can still be different
 * errors, and an `Other` whose text equals a sentinel's text is not that
 * sentinel.
 */
module Errors {

  datatype Error =
    | EmailRequired
    | PasswordRequired
    | RoleRequired
    | ReferralCodeRequired
    | EmailAlreadyExist
    | InvalidEmail
    | InvalidRole
    | InvalidCredentials
    | RoleNotFound
    | ReferralCodeNotFound
    | CantReferralToOwnCode
    | CantMultipleSubmitReferral
    | Other(id: nat, text: string)

  /** What err.Error() returns. */
  function Text(e: Error): (t: string)
    ensures IsSentinel(e) ==> |t| > 0
    ensures e.Other? ==> t == e.text
  {
    match e
    case EmailRequired => "email is required"
    case PasswordRequired => "password is required"
    case RoleRequired => "role is required"
    case ReferralCodeRequired => "referral code required"
    case EmailAlreadyExist => "email already exist"
    case InvalidEmail => "invalid email format"
    case InvalidRole => "invalid role"
    case InvalidCredentials => "invalid credentials"
    case RoleNotFound => "role not found"
    case ReferralCodeNotFound => "referral code not found"
    case CantReferralToOwnCode => "can't submit to your own referral"
    case CantMultipleSubmitReferral => "can't submit the same referral more than once"
    case Other(_, text) => text
  }

  /** The twelve sentinel values declared by the use-case layer. */
  predicate IsSentinel(e: Error)
  {
    !e.Other?
  }

  /** No two sentinels share a message, so a message names its sentinel. */
  lemma SentinelTextsDistinct(e1: Error, e2: Error)
    requires IsSentinel(e1) && IsSentinel(e2) && e1 != e2
    ensures Text(e1) != Text(e2)
  {
  }
}
